/** A bond position, as defined in `payoff_diagram.py`: `quantity` bonds each
    paying `face_value` at every spot price. */
module Bonds {
  import opened Vectors

  datatype Bond = Bond(faceValue: real, quantity: int)

  /** `Bond(face_value=1000, quantity=1)`: no validation. */
  function NewBond(faceValue: real := 1000.0, quantity: int := 1): (b: Bond)
    ensures b.faceValue == faceValue && b.quantity == quantity
  {
    Bond(faceValue, quantity)
  }

  /** The bond position's payoff at one spot price, whatever the spot. */
  function PayoffAt(b: Bond, s: real): real {
    b.faceValue * b.quantity as real
  }

  /** `payoff(spot_prices)`: `np.full_like(spot_prices, face_value * quantity)`. */
  function Payoff(b: Bond, spots: seq<real>): (r: seq<real>)
    ensures |r| == |spots|
    ensures forall i :: 0 <= i < |spots| ==> r[i] == b.faceValue * b.quantity as real
    ensures forall i :: 0 <= i < |spots| ==> r[i] == PayoffAt(b, spots[i])
  {
    Full(|spots|, b.faceValue * b.quantity as real)
  }
}
