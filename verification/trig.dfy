/**
 The trigonometric functions the renderer calls (`f64::sin`, `f64::cos`) are not
 definable over the reals in Dafny, so the model takes them as a parameter: a pair of
 total functions together with the only facts the proofs rely on.
 */
module Trigonometry {

  /** A choice of sine and cosine, angles in radians. */
  datatype Trig = Trig(sin: real -> real, cos: real -> real)

  /** sin(0) = 0 and cos(0) = 1. */
  predicate ZeroAngle(t: Trig) {
    t.sin(0.0) == 0.0 && t.cos(0.0) == 1.0
  }

  /** sin(a)^2 + cos(a)^2 = 1 for every angle a. */
  ghost predicate Pythagorean(t: Trig) {
    forall a :: t.sin(a) * t.sin(a) + t.cos(a) * t.cos(a) == 1.0
  }
}
