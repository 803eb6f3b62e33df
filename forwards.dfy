/** A forward position, as defined in `Kyan_Nelson_Portfolio_Analyzer/utils.py`:
    linear in the spot price, unbounded in both directions. */
module Forwards {
  import opened Validation
  import opened Vectors
  import Options

  datatype Forward = Forward(strike: real, quantity: int)

  /** `Forward(strike, quantity=1)`: raises when the strike is not positive;
      nothing else is checked. */
  function NewForward(strike: real, quantity: int := 1): (r: Result<Forward>)
    ensures r.Ok? <==> strike > 0.0
    ensures r.Err? ==> r.error == NonPositiveStrike
    ensures r.Ok? ==> r.value.strike == strike && r.value.quantity == quantity
  {
    if strike <= 0.0 then Err(NonPositiveStrike) else Ok(Forward(strike, quantity))
  }

  /** The payoff at one spot price: `(s - strike) * quantity`, never clamped. */
  function PayoffAt(f: Forward, s: real): (r: real)
    ensures s == f.strike ==> r == 0.0
    ensures f.quantity > 0 ==> (r > 0.0 <==> s > f.strike)
    ensures f.quantity < 0 ==> (r > 0.0 <==> s < f.strike)
    ensures f.quantity > 0 ==> (r < 0.0 <==> s < f.strike)
    ensures f.quantity < 0 ==> (r < 0.0 <==> s > f.strike)
  {
    ProductSign(s - f.strike, f.quantity as real);
    (s - f.strike) * f.quantity as real
  }

  /** `payoff(spot_prices)`, element-wise. */
  function Payoff(f: Forward, spots: seq<real>): (r: seq<real>)
    ensures |r| == |spots|
    ensures forall i :: 0 <= i < |spots| ==> r[i] == PayoffAt(f, spots[i])
  {
    Map(s => PayoffAt(f, s), spots)
  }

  /** At one spot price, the forward pays what a long call less a put of its
      strike and quantity pays. */
  lemma PayoffAtIsCallMinusPut(f: Forward, call: Options.Option, put: Options.Option, s: real)
    requires call.optionType == Options.Call && put.optionType == Options.Put
    requires call.strike == f.strike && put.strike == f.strike
    requires call.quantity == f.quantity && put.quantity == f.quantity
    ensures PayoffAt(f, s) == Options.PayoffAt(call, s) - Options.PayoffAt(put, s)
  {
    Options.CallMinusPut(call, put, [s]);
  }

  /** A long call and a short put of the forward's strike and quantity
      together pay exactly what the forward pays, at every spot price. The
      options' other fields do not matter. */
  lemma IsCallMinusPut(f: Forward, call: Options.Option, put: Options.Option, spots: seq<real>)
    requires call.optionType == Options.Call && put.optionType == Options.Put
    requires call.strike == f.strike && put.strike == f.strike
    requires call.quantity == f.quantity && put.quantity == f.quantity
    ensures Payoff(f, spots) == Sub(Options.Payoff(call, spots), Options.Payoff(put, spots))
  {
    var c, p := Options.Payoff(call, spots), Options.Payoff(put, spots);
    var d, fp := Sub(c, p), Payoff(f, spots);
    forall i | 0 <= i < |spots| ensures fp[i] == d[i] {
      PayoffAtIsCallMinusPut(f, call, put, spots[i]);
      assert d[i] + p[i] == c[i];
    }
    assert |fp| == |d|;
  }

  /** A long forward's payoff rises with the spot price and a short one's
      falls: over an ascending spot vector the payoffs are ordered likewise. */
  lemma PayoffMonotone(f: Forward, spots: seq<real>)
    requires NonDecreasing(spots)
    ensures f.quantity >= 0 ==> NonDecreasing(Payoff(f, spots))
    ensures f.quantity <= 0 ==> NonIncreasing(Payoff(f, spots))
  {
    var p := Payoff(f, spots);
    var q := f.quantity as real;
    forall i, j | 0 <= i <= j < |spots|
      ensures f.quantity >= 0 ==> p[i] <= p[j]
      ensures f.quantity <= 0 ==> p[j] <= p[i]
    {
      var a, b := spots[i] - f.strike, spots[j] - f.strike;
      assert a <= b;
      assert p[j] - p[i] == (b - a) * q;
      assert q >= 0.0 ==> (b - a) * q >= 0.0;
      assert q <= 0.0 ==> (b - a) * q <= 0.0;
    }
  }
}
