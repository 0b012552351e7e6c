/** Values shared by the tuner's modules: an optional value (JavaScript's
    `undefined` for an array index out of range), the numbers the pitch
    estimator can hand back, and absolute value on reals. */
module Base {

  datatype Option<T> = None | Some(value: T)

  /** A JavaScript number as the pitch estimator can produce it: a finite
      value, +Infinity (a division by a zero lag) or NaN (a 0/0). */
  datatype Number = Finite(value: real) | PosInfinity | NaN

  /** JavaScript's `x > 0` on such a number: NaN compares false and
      +Infinity compares true. */
  predicate IsPositive(x: Number)
  {
    match x
    case Finite(v) => v > 0.0
    case PosInfinity => true
    case NaN => false
  }

  /** `Math.abs` */
  function Abs(x: real): (r: real)
    ensures r >= 0.0
    ensures r == x || r == -x
  {
    if x < 0.0 then -x else x
  }
}
