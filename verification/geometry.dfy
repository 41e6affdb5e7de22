/**
  * Shared vocabulary of the brachistochrone kernel: the 3-component points
  * the curve generators return (`np.array([x, y, 0])`), an Option for
  * evaluations whose coordinates would not be finite, Python's `abs`, and the
  * laws the model relies on about the square root.
  */
module Geometry {

  /** A point `[x, y, z]`; y grows upward and gravity pulls towards -y. */
  datatype Point = Point(x: real, y: real, z: real)

  datatype Option<+T> = None | Some(value: T)

  /** Python's `abs` on a real. */
  function Abs(a: real): (r: real)
    ensures r >= 0.0
    ensures r == a || r == -a
  {
    if a < 0.0 then -a else a
  }

  /**
    * What the model assumes of `np.sqrt`, which it receives as a parameter:
    * the root of 0 is 0 and the root of a positive number is positive; on a
    * negative argument numpy returns NaN, and the only thing the kernel ever
    * does with such a value is test `v > 0`, which fails, so the law only
    * says that the value is not positive.
    */
  ghost predicate SqrtLaws(sqrt: real -> real)
  {
    forall a: real :: SqrtLawAt(sqrt, a)
  }

  /** The sign law of the square root at one argument. */
  ghost predicate SqrtLawAt(sqrt: real -> real, a: real)
  {
    (a > 0.0 ==> sqrt(a) > 0.0) && (a == 0.0 ==> sqrt(a) == 0.0) && (a < 0.0 ==> sqrt(a) <= 0.0)
  }
}
