/** A portfolio: an ordered list of positions of any instrument class, each
    answering `payoff(spot_prices)`. The Python code dispatches on the object's
    class at run time; here that is a match on the kind of asset. */
module Portfolio {
  import Options
  import Debts
  import Forwards
  import Bonds

  datatype Asset =
    | OptionAsset(option: Options.Option)
    | DebtAsset(debt: Debts.Debt)
    | ForwardAsset(forward: Forwards.Forward)
    | BondAsset(bond: Bonds.Bond)

  /** `asset.payoff(spot_prices)`, by the asset's own class. */
  function Payoff(a: Asset, spots: seq<real>): (r: seq<real>)
    ensures |r| == |spots|
  {
    match a
    case OptionAsset(o) => Options.Payoff(o, spots)
    case DebtAsset(d) => Debts.Payoff(d, spots)
    case ForwardAsset(f) => Forwards.Payoff(f, spots)
    case BondAsset(b) => Bonds.Payoff(b, spots)
  }

  /** The payoff vector of every asset, in portfolio order. */
  function PayoffTable(portfolio: seq<Asset>, grid: seq<real>): (rows: seq<seq<real>>)
    ensures |rows| == |portfolio|
    ensures forall i :: 0 <= i < |portfolio| ==> rows[i] == Payoff(portfolio[i], grid)
  {
    if portfolio == [] then []
    else PayoffTable(portfolio[..|portfolio| - 1], grid) + [Payoff(portfolio[|portfolio| - 1], grid)]
  }

  /** The payoff of one asset at one spot price. */
  function PayoffAt(a: Asset, s: real): real {
    match a
    case OptionAsset(o) => Options.PayoffAt(o, s)
    case DebtAsset(d) => Debts.PayoffAt(d, s)
    case ForwardAsset(f) => Forwards.PayoffAt(f, s)
    case BondAsset(b) => Bonds.PayoffAt(b, s)
  }

  /** Every class's payoff vector is the element-wise payoff. */
  lemma PayoffPointwise(a: Asset, spots: seq<real>)
    ensures forall i :: 0 <= i < |spots| ==> Payoff(a, spots)[i] == PayoffAt(a, spots[i])
  {
  }

  /** The portfolio's payoff at spot price `s`: the sum over its assets. */
  function SumAt(portfolio: seq<Asset>, s: real): real
  {
    if portfolio == [] then 0.0
    else SumAt(portfolio[..|portfolio| - 1], s) + PayoffAt(portfolio[|portfolio| - 1], s)
  }

  /** Adding the payoff vector of the next asset to the running totals of
      the assets before it gives the running totals one asset further. */
  lemma SumAtExtend(portfolio: seq<Asset>, i: nat, grid: seq<real>, before: seq<real>, after: seq<real>)
    requires i < |portfolio| && |before| == |grid| && |after| == |grid|
    requires forall j :: 0 <= j < |grid| ==> before[j] == SumAt(portfolio[..i], grid[j])
    requires forall j :: 0 <= j < |grid| ==> after[j] == before[j] + Payoff(portfolio[i], grid)[j]
    ensures forall j :: 0 <= j < |grid| ==> after[j] == SumAt(portfolio[..i + 1], grid[j])
  {
    assert portfolio[..i + 1][..i] == portfolio[..i];
    PayoffPointwise(portfolio[i], grid);
  }

  /** The sum of column `j` of a table of payoff vectors. */
  function ColumnSum(rows: seq<seq<real>>, j: nat): real
    requires forall i :: 0 <= i < |rows| ==> j < |rows[i]|
  {
    if rows == [] then 0.0
    else ColumnSum(rows[..|rows| - 1], j) + rows[|rows| - 1][j]
  }

  /** Summing the rows of the table of the portfolio's payoff vectors at
      any grid point gives the portfolio's payoff at that spot price. */
  lemma ColumnSumsOfPayoffs(portfolio: seq<Asset>, grid: seq<real>, rows: seq<seq<real>>)
    requires |rows| == |portfolio|
    requires forall i :: 0 <= i < |rows| ==> rows[i] == Payoff(portfolio[i], grid)
    ensures forall i :: 0 <= i < |rows| ==> |rows[i]| == |grid|
    ensures forall j :: 0 <= j < |grid| ==> ColumnSum(rows, j) == SumAt(portfolio, grid[j])
  {
    forall j | 0 <= j < |grid| ensures ColumnSum(rows, j) == SumAt(portfolio, grid[j]) {
      ColumnSumOfPayoffs(portfolio, grid, rows, j);
    }
  }

  lemma {:induction false} ColumnSumOfPayoffs(portfolio: seq<Asset>, grid: seq<real>, rows: seq<seq<real>>, j: nat)
    requires j < |grid|
    requires |rows| == |portfolio|
    requires forall i :: 0 <= i < |rows| ==> rows[i] == Payoff(portfolio[i], grid)
    ensures forall i :: 0 <= i < |rows| ==> j < |rows[i]|
    ensures ColumnSum(rows, j) == SumAt(portfolio, grid[j])
  {
    if rows != [] {
      var n := |rows| - 1;
      ColumnSumOfPayoffs(portfolio[..n], grid, rows[..n], j);
      PayoffPointwise(portfolio[n], grid);
    }
  }

  /** Taking out the asset at position `k` lowers the sum by that asset's
      payoff, wherever in the list it stands. */
  lemma {:induction false} SumAtRemove(portfolio: seq<Asset>, k: nat, s: real)
    requires k < |portfolio|
    ensures SumAt(portfolio, s) == SumAt(portfolio[..k] + portfolio[k + 1..], s) + PayoffAt(portfolio[k], s)
  {
    var n := |portfolio| - 1;
    var rest := portfolio[..k] + portfolio[k + 1..];
    if k == n {
      assert rest == portfolio[..n];
    } else {
      var front := portfolio[..n];
      SumAtRemove(front, k, s);
      assert rest[..|rest| - 1] == front[..k] + front[k + 1..];
      assert rest[|rest| - 1] == portfolio[n];
    }
  }

  /** The order of the assets does not change the total: any reordering of
      the portfolio has the same payoff at every spot price. */
  lemma {:induction false} SumAtPermutation(p: seq<Asset>, q: seq<Asset>, s: real)
    requires multiset(p) == multiset(q)
    ensures SumAt(p, s) == SumAt(q, s)
  {
    if p == [] {
      assert |q| == |multiset(q)| == 0;
    } else {
      var n := |p| - 1;
      var x := p[n];
      assert p == p[..n] + [x];
      assert x in multiset(q);
      var k :| 0 <= k < |q| && q[k] == x;
      assert q == q[..k] + [x] + q[k + 1..];
      var rest := q[..k] + q[k + 1..];
      calc {
        multiset(p[..n]) + multiset{x};
        multiset(p);
        multiset(q);
        multiset(q[..k]) + multiset{x} + multiset(q[k + 1..]);
        multiset(rest) + multiset{x};
      }
      assert multiset(p[..n]) == multiset(p[..n]) + multiset{x} - multiset{x};
      assert multiset(rest) == multiset(rest) + multiset{x} - multiset{x};
      SumAtPermutation(p[..n], rest, s);
      SumAtRemove(q, k, s);
    }
  }
}
