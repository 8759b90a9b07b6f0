/**
 * Numeric conventions shared by the whole model.
 *
 * Floating-point values are modelled as `real`. The transcendental and root
 * functions of the platform's math library are not interpreted: they are
 * supplied as a `Math` record of total functions, and `Lawful` states the
 * only facts about them that the model relies on.
 */
module Numeric {

  /** f64::EPSILON, which is exactly 2^-52. */
  const Epsilon: real := 1.0 / 4503599627370496.0

  /** std::f64::consts::PI, written out to the precision f64 prints it. */
  const Pi: real := 3.141592653589793

  const TwoPi: real := 2.0 * Pi

  datatype Option<T> = None | Some(value: T)

  function Min(a: real, b: real): (r: real)
    ensures r <= a && r <= b && (r == a || r == b)
  {
    if a <= b then a else b
  }

  function Max(a: real, b: real): (r: real)
    ensures r >= a && r >= b && (r == a || r == b)
  {
    if a >= b then a else b
  }

  function Abs(a: real): (r: real)
    ensures r >= 0.0 && (r == a || r == -a)
  {
    if a < 0.0 then -a else a
  }

  /** f64::to_radians */
  function Radians(degrees: real): real
  {
    degrees * (Pi / 180.0)
  }

  /** f64::to_degrees */
  function Degrees(radians: real): real
  {
    radians * (180.0 / Pi)
  }

  /** The library functions the source calls: `sqrt`, `sin`, `cos`, `atan2(y, x)`, `powf`. */
  datatype Math = Math(
    sqrt: real -> real,
    sin: real -> real,
    cos: real -> real,
    atan2: (real, real) -> real,
    powf: (real, real) -> real)

  /** The facts about the library functions that the model is allowed to use. */
  ghost predicate Lawful(math: Math)
  {
    && (forall x :: x >= 0.0 ==> math.sqrt(x) >= 0.0)
    && (forall t :: 0.0 <= t <= 1.0 ==> 0.0 <= math.powf(t, 1.5) <= 1.0)
    && math.powf(0.0, 1.5) == 0.0
  }
}
