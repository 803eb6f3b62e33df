/** The numpy vector operations the payoff code relies on, over exact reals:
    element-wise maps, `full_like`, `zeros_like`, `+` and `linspace`. */
module Vectors {

  /** Applies `f` to every entry, as numpy's element-wise arithmetic does. */
  function Map(f: real -> real, xs: seq<real>): (r: seq<real>)
    ensures |r| == |xs|
    ensures forall i :: 0 <= i < |xs| ==> r[i] == f(xs[i])
  {
    if xs == [] then [] else [f(xs[0])] + Map(f, xs[1..])
  }

  /** `np.full(n, v)`: `n` copies of `v`. */
  function Full(n: nat, v: real): (r: seq<real>)
    ensures |r| == n
    ensures forall i :: 0 <= i < n ==> r[i] == v
  {
    if n == 0 then [] else Full(n - 1, v) + [v]
  }

  /** `np.zeros_like` of a vector of length `n`. */
  function Zeros(n: nat): (r: seq<real>)
    ensures |r| == n
    ensures forall i :: 0 <= i < n ==> r[i] == 0.0
  {
    Full(n, 0.0)
  }

  /** Element-wise difference of two vectors of one shape. */
  function Sub(a: seq<real>, b: seq<real>): (r: seq<real>)
    requires |a| == |b|
    ensures |r| == |a|
    ensures forall i :: 0 <= i < |a| ==> r[i] + b[i] == a[i]
  {
    if a == [] then [] else [a[0] - b[0]] + Sub(a[1..], b[1..])
  }

  /** `np.linspace(start, stop, num)` with the end point included: `num`
      points, the first `start`, the last `stop`, equally spaced. */
  function Linspace(start: real, stop: real, num: nat): (r: seq<real>)
    ensures |r| == num
    ensures num >= 1 ==> r[0] == start
    ensures num >= 2 ==> r[num - 1] == stop
    ensures num >= 2 ==> forall i :: 0 <= i < num - 1 ==>
      r[i + 1] - r[i] == (stop - start) / (num - 1) as real
  {
    var step := if num >= 2 then (stop - start) / (num - 1) as real else 0.0;
    seq(num, i requires 0 <= i < num => if num >= 2 && i == num - 1 then stop else i as real * step + start)
  }

  predicate NonIncreasing(xs: seq<real>) {
    forall i, j :: 0 <= i <= j < |xs| ==> xs[j] <= xs[i]
  }

  /** A vector none of whose entries exceeds the one before it is
      non-increasing throughout. */
  lemma {:induction false} NonIncreasingBySteps(xs: seq<real>)
    requires forall i :: 0 <= i < |xs| - 1 ==> xs[i + 1] <= xs[i]
    ensures NonIncreasing(xs)
  {
    if |xs| > 1 {
      var front := xs[..|xs| - 1];
      NonIncreasingBySteps(front);
      forall i, j | 0 <= i <= j < |xs| ensures xs[j] <= xs[i] {
        if j == |xs| - 1 && i < j {
          assert front[i] >= front[j - 1];
        } else if j < |xs| - 1 {
          assert front[j] <= front[i];
        }
      }
    }
  }

  predicate NonDecreasing(xs: seq<real>) {
    forall i, j :: 0 <= i <= j < |xs| ==> xs[i] <= xs[j]
  }

  function Max(a: real, b: real): (r: real)
    ensures r >= a && r >= b
    ensures r == a || r == b
  {
    if a >= b then a else b
  }

  /** Sign rules for a product, which the solver does not always find alone. */
  lemma ProductSign(a: real, b: real)
    ensures a > 0.0 && b > 0.0 ==> a * b > 0.0
    ensures a < 0.0 && b < 0.0 ==> a * b > 0.0
    ensures a > 0.0 && b < 0.0 ==> a * b < 0.0
    ensures a < 0.0 && b > 0.0 ==> a * b < 0.0
    ensures a == 0.0 || b == 0.0 ==> a * b == 0.0
  {
  }

  /** `np.zeros_like` of an `n`-vector, allocated as a fresh array. */
  method ZerosLike(n: nat) returns (a: array<real>)
    ensures fresh(a)
    ensures a[..] == Zeros(n)
  {
    a := new real[n](_ => 0.0);
  }

  /** `total += v` on a numpy array: every entry updated in place. */
  method AddInto(total: array<real>, v: seq<real>)
    requires total.Length == |v|
    modifies total
    ensures forall j :: 0 <= j < total.Length ==> total[j] == old(total[j]) + v[j]
  {
    for j := 0 to total.Length
      invariant forall k :: 0 <= k < j ==> total[k] == old(total[k]) + v[k]
      invariant forall k :: j <= k < total.Length ==> total[k] == old(total[k])
    {
      total[j] := total[j] + v[j];
    }
  }
}
