/** The construction-time failures of the instrument classes (each a Python
    `ValueError`) and the result of a constructor that may raise one. */
module Validation {

  /** Which validation check rejected the constructor's arguments. */
  datatype ValueError =
    | BadOptionType
    | NonPositiveStrike
    | NonPositiveSpot
    | NegativeMaturity
    | NonPositiveVolatility

  /** The text the Python code attaches to each `ValueError`. */
  function Message(e: ValueError): string {
    match e
    case BadOptionType => "option_type must be 'call' or 'put'"
    case NonPositiveStrike => "Strike must be positive"
    case NonPositiveSpot => "Spot must be positive"
    case NegativeMaturity => "Maturity must be non-negative"
    case NonPositiveVolatility => "Volatility must be positive"
  }

  /** Each failed check raises its own text, so the message names the
      offending argument. */
  lemma MessageIdentifiesCheck(e1: ValueError, e2: ValueError)
    ensures Message(e1) == Message(e2) <==> e1 == e2
  {
    if e1 != e2 {
      assert Message(e1)[0] != Message(e2)[0] || Message(e1)[1] != Message(e2)[1];
    }
  }

  /** A constructed value, or the error raised instead. */
  datatype Result<+T> = Ok(value: T) | Err(error: ValueError)
}
