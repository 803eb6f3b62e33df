/** A debt position: pays its face value whatever the spot price. The class
    is the same in `utils.py` and `Kyan_Nelson_Portfolio_Analyzer/utils.py`. */
module Debts {
  import opened Vectors

  /** `strike` duplicates the face value; the Python comment says it is for a
      dynamic range calculation that no shown code performs. */
  datatype Debt = Debt(faceValue: real, strike: real)

  /** `Debt(face_value)`: no validation; a negative face value is a liability. */
  function NewDebt(faceValue: real): (d: Debt)
    ensures d.faceValue == faceValue
    ensures d.strike == d.faceValue
  {
    Debt(faceValue, faceValue)
  }

  /** The debt's payoff at one spot price: its face value, whatever the spot. */
  function PayoffAt(d: Debt, s: real): real {
    d.faceValue
  }

  /** `payoff(spot_prices)`: `np.full_like(spot_prices, face_value)`, with no
      quantity factor. */
  function Payoff(d: Debt, spots: seq<real>): (r: seq<real>)
    ensures |r| == |spots|
    ensures forall i :: 0 <= i < |spots| ==> r[i] == d.faceValue
    ensures forall i :: 0 <= i < |spots| ==> r[i] == PayoffAt(d, spots[i])
  {
    Full(|spots|, d.faceValue)
  }

  /** The payoff depends on the spot vector only through its length. */
  lemma PayoffIgnoresSpots(d: Debt, a: seq<real>, b: seq<real>)
    requires |a| == |b|
    ensures Payoff(d, a) == Payoff(d, b)
  {
  }
}
