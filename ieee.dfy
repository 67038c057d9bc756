/** Floating-point values as the angle helpers see them.

    A value is either not-a-number, one of the two infinities, or a finite
    number, which this model keeps as an exact real: rounding is not modelled.
    Only the operations the angle helpers apply are defined here: comparison
    with a finite constant, addition of a finite constant, and scaling by a
    positive ratio. */
module Ieee {

  datatype Float = NaN | PosInf | NegInf | Fin(v: real)

  /** The ordered comparison `x > c` against a finite constant `c`:
      false for NaN, as every ordered comparison with NaN is. */
  predicate Greater(x: Float, c: real) {
    match x
    case NaN => false
    case PosInf => true
    case NegInf => false
    case Fin(v) => v > c
  }

  /** The ordered comparison `x < c` against a finite constant `c`. */
  predicate Less(x: Float, c: real) {
    match x
    case NaN => false
    case PosInf => false
    case NegInf => true
    case Fin(v) => v < c
  }

  /** `x + c` for a finite constant `c`: NaN and the infinities absorb it. */
  function Add(x: Float, c: real): Float {
    match x
    case Fin(v) => Fin(v + c)
    case _ => x
  }

  /** `x * num / den` for positive constants: the sign of an infinity is kept. */
  function Scale(x: Float, num: real, den: real): Float
    requires num > 0.0 && den > 0.0
  {
    match x
    case Fin(v) => Fin(v * num / den)
    case _ => x
  }

  /** Scaling by `num / den` and then by `den / num` gives back every value,
      NaN and the infinities included. */
  lemma {:induction false} ScaleInverse(x: Float, num: real, den: real)
    requires num > 0.0 && den > 0.0
    ensures Scale(Scale(x, num, den), den, num) == x
  {
    if x.Fin? {
      var v := x.v;
      calc {
        v * num / den * den / num;
      ==  { assert v * num / den * den == v * num; }
        v * num / num;
      ==
        v;
      }
    }
  }

  /** A positive factor can be cancelled from both sides of a comparison. */
  lemma {:induction false} CancelPositive(a: real, b: real, p: real)
    requires p > 0.0
    ensures a * p <= b * p <==> a <= b
    ensures a * p < b * p <==> a < b
  {
    assert b * p - a * p == (b - a) * p;
    if a < b {
      assert (b - a) * p > 0.0;
    } else if a > b {
      assert (a - b) * p > 0.0;
    }
  }
}
