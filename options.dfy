/** European call and put options held to expiry: construction with its
    ordered validation checks, and the expiry payoff over a vector of spot
    prices. The same code, differing only in blank lines, appears in `utils.py`,
    `Kyan_Nelson_Portfolio_Analyzer/utils.py` and `payoff_diagram.py`. */
module Options {
  import Text
  import opened Validation
  import opened Vectors

  datatype OptionType = Call | Put

  /** The lower-case name the object stores in `option_type`. */
  function TypeName(t: OptionType): string {
    match t
    case Call => "call"
    case Put => "put"
  }

  /** An option position. `spot`, `maturity` and `volatility` are stored and
      validated; `rfr` is only stored. No payoff reads any of them. `quantity`
      is signed, a negative one being a short position. */
  datatype Option = Option(
    optionType: OptionType,
    strike: real,
    spot: real,
    maturity: real,
    rfr: real,
    volatility: real,
    quantity: int)

  /** What `_validate_inputs` guarantees of a constructed option. */
  predicate Valid(o: Option) {
    o.strike > 0.0 && o.spot > 0.0 && o.maturity >= 0.0 && o.volatility > 0.0
  }

  /** `Option(option_type, strike, spot=100, maturity=1, rfr=0.12,
      volatility=0.20, quantity=1)`: lower-cases the type name, then raises on
      the first failing check, in the order type, strike, spot, maturity,
      volatility. */
  function NewOption(optionType: string, strike: real, spot: real := 100.0,
                     maturity: real := 1.0, rfr: real := 0.12,
                     volatility: real := 0.20, quantity: int := 1): (r: Result<Option>)
    ensures var typeOk := Text.Lower(optionType) in {"call", "put"};
      && (r == Err(BadOptionType) <==> !typeOk)
      && (r == Err(NonPositiveStrike) <==> typeOk && strike <= 0.0)
      && (r == Err(NonPositiveSpot) <==> typeOk && strike > 0.0 && spot <= 0.0)
      && (r == Err(NegativeMaturity) <==> typeOk && strike > 0.0 && spot > 0.0 && maturity < 0.0)
      && (r == Err(NonPositiveVolatility) <==>
            typeOk && strike > 0.0 && spot > 0.0 && maturity >= 0.0 && volatility <= 0.0)
      && (r.Ok? <==> typeOk && strike > 0.0 && spot > 0.0 && maturity >= 0.0 && volatility > 0.0)
    ensures r.Ok? ==> Valid(r.value)
    ensures r.Ok? ==> TypeName(r.value.optionType) == Text.Lower(optionType)
    ensures r.Ok? ==>
      && r.value.strike == strike && r.value.spot == spot
      && r.value.maturity == maturity && r.value.rfr == rfr
      && r.value.volatility == volatility && r.value.quantity == quantity
  {
    var name := Text.Lower(optionType);
    if name != "call" && name != "put" then Err(BadOptionType)
    else if strike <= 0.0 then Err(NonPositiveStrike)
    else if spot <= 0.0 then Err(NonPositiveSpot)
    else if maturity < 0.0 then Err(NegativeMaturity)
    else if volatility <= 0.0 then Err(NonPositiveVolatility)
    else
      var t := if name == "call" then Call else Put;
      Ok(Option(t, strike, spot, maturity, rfr, volatility, quantity))
  }

  /** The type check accepts a name exactly when it is "call" or "put" in any
      mixture of letter cases ('Call', 'PUT', ...), and the stored type is
      the one that name spells. */
  lemma TypeNameCaseInsensitive(optionType: string, strike: real, spot: real,
                                maturity: real, rfr: real, volatility: real, quantity: int)
    ensures var r := NewOption(optionType, strike, spot, maturity, rfr, volatility, quantity);
      && (r != Err(BadOptionType) <==>
            Text.SameIgnoringCase(optionType, "call") || Text.SameIgnoringCase(optionType, "put"))
      && (r.Ok? ==> (r.value.optionType == Call <==> Text.SameIgnoringCase(optionType, "call")))
  {
    Text.LowerMatches(optionType, "call");
    Text.LowerMatches(optionType, "put");
  }

  /** The payoff at expiry of the whole position at one spot price. */
  function PayoffAt(o: Option, s: real): (r: real)
    ensures o.optionType == Call && s <= o.strike ==> r == 0.0
    ensures o.optionType == Call && s > o.strike ==> r == (s - o.strike) * o.quantity as real
    ensures o.optionType == Put && s >= o.strike ==> r == 0.0
    ensures o.optionType == Put && s < o.strike ==> r == (o.strike - s) * o.quantity as real
  {
    var intrinsic := if o.optionType == Call then Max(s - o.strike, 0.0) else Max(o.strike - s, 0.0);
    intrinsic * o.quantity as real
  }

  /** `payoff(spot_prices)`: one payoff per spot price, in order. */
  function Payoff(o: Option, spots: seq<real>): (r: seq<real>)
    ensures |r| == |spots|
    ensures forall i :: 0 <= i < |spots| ==> r[i] == PayoffAt(o, spots[i])
  {
    Map(s => PayoffAt(o, s), spots)
  }

  /** A long position never pays out a negative amount, a short one never a
      positive amount. */
  lemma PayoffSign(o: Option, spots: seq<real>)
    ensures o.quantity >= 0 ==> forall i :: 0 <= i < |spots| ==> Payoff(o, spots)[i] >= 0.0
    ensures o.quantity <= 0 ==> forall i :: 0 <= i < |spots| ==> Payoff(o, spots)[i] <= 0.0
  {
    forall i | 0 <= i < |spots|
      ensures o.quantity >= 0 ==> Payoff(o, spots)[i] >= 0.0
      ensures o.quantity <= 0 ==> Payoff(o, spots)[i] <= 0.0
    {
      var s := spots[i];
      var intrinsic := if o.optionType == Call then Max(s - o.strike, 0.0) else Max(o.strike - s, 0.0);
      assert PayoffAt(o, s) == intrinsic * o.quantity as real;
      ProductSign(intrinsic, o.quantity as real);
    }
  }

  /** Payoff identity at expiry: a call less a put of the same strike and
      quantity pays `quantity * (s - strike)` at every spot price. */
  lemma CallMinusPut(call: Option, put: Option, spots: seq<real>)
    requires call.optionType == Call && put.optionType == Put
    requires call.strike == put.strike && call.quantity == put.quantity
    ensures forall i :: 0 <= i < |spots| ==>
      Payoff(call, spots)[i] - Payoff(put, spots)[i] == (spots[i] - call.strike) * call.quantity as real
  {
    forall i | 0 <= i < |spots|
      ensures PayoffAt(call, spots[i]) - PayoffAt(put, spots[i]) == (spots[i] - call.strike) * call.quantity as real
    {
      var s, q := spots[i], call.quantity as real;
      if s > call.strike {
        assert PayoffAt(call, s) == (s - call.strike) * q;
      } else {
        assert PayoffAt(put, s) == (call.strike - s) * q;
        assert (call.strike - s) * q == -((s - call.strike) * q);
      }
    }
  }
}
