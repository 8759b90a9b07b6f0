/**
 * Membership functions (src/fuzzy_system/membership.rs).
 *
 * The two piecewise-linear shapes are evaluated; the Gaussian and sigmoidal
 * shapes are kept only as their validated parameters, because evaluating
 * them needs `exp`.
 */
module Membership {
  import opened Numeric

  datatype MembershipFunction =
    | Triangular(a: real, b: real, c: real)
    | Trapezoidal(a: real, b: real, c: real, d: real)

  datatype GaussianParameters = GaussianParameters(mean: real, sigma: real)

  datatype SigmoidalParameters = SigmoidalParameters(a: real, c: real)

  /** `TriangularMembershipFunction::evaluate`: a peak at b with tolerance Epsilon, linear flanks. */
  function TriangularDegree(a: real, b: real, c: real, x: real): (r: real)
    ensures 0.0 <= r <= 1.0
    ensures x < a || x > c ==> r == 0.0
    ensures r == 1.0 <==> a <= x <= c && Abs(x - b) < Epsilon
  {
    if x < a || x > c then 0.0
    else if Abs(x - b) < Epsilon then 1.0
    else if x < b then
      var denominator := b - a;
      if Abs(denominator) < Epsilon then 0.0
      else
        assert 0.0 <= x - a < denominator;
        (x - a) / denominator
    else
      var denominator := c - b;
      if Abs(denominator) < Epsilon then 0.0
      else
        assert 0.0 <= c - x < denominator;
        (c - x) / denominator
  }

  /** `TrapezoidalMembershipFunction::evaluate`: a plateau of 1 on [b, c], linear flanks. */
  function TrapezoidalDegree(a: real, b: real, c: real, d: real, x: real): (r: real)
    ensures 0.0 <= r <= 1.0
    ensures x < a || x > d ==> r == 0.0
    ensures r == 1.0 <==> a <= x <= d && b <= x <= c
  {
    if x < a || x > d then 0.0
    else if x >= b && x <= c then 1.0
    else if x < b then
      var denominator := b - a;
      if Abs(denominator) < Epsilon then 0.0
      else
        assert 0.0 <= x - a < denominator;
        (x - a) / denominator
    else
      var denominator := d - c;
      if Abs(denominator) < Epsilon then 0.0
      else
        assert 0.0 <= d - x < denominator;
        (d - x) / denominator
  }

  /** `MembershipFunction::evaluate`, dispatched on the shape. */
  function Evaluate(f: MembershipFunction, x: real): (r: real)
    ensures 0.0 <= r <= 1.0
  {
    match f
    case Triangular(a, b, c) => TriangularDegree(a, b, c, x)
    case Trapezoidal(a, b, c, d) => TrapezoidalDegree(a, b, c, d, x)
  }

  /** The breakpoint ordering the `triangular` and `trapezoidal` constructors assert. */
  predicate WellOrdered(f: MembershipFunction)
  {
    match f
    case Triangular(a, b, c) => a <= b <= c
    case Trapezoidal(a, b, c, d) => a <= b <= c <= d
  }

  /** `triangular`: the constructor asserts a <= b <= c, so a built triangle peaks at b. */
  function MakeTriangular(a: real, b: real, c: real): (f: MembershipFunction)
    requires a <= b <= c
    ensures f == Triangular(a, b, c)
    ensures Evaluate(f, b) == 1.0
    ensures forall x :: x < a || x > c ==> Evaluate(f, x) == 0.0
  {
    Triangular(a, b, c)
  }

  /** `trapezoidal`: the constructor asserts a <= b <= c <= d, so the plateau [b, c] is attained. */
  function MakeTrapezoidal(a: real, b: real, c: real, d: real): (f: MembershipFunction)
    requires a <= b <= c <= d
    ensures f == Trapezoidal(a, b, c, d)
    ensures forall x :: b <= x <= c ==> Evaluate(f, x) == 1.0
    ensures forall x :: x < a || x > d ==> Evaluate(f, x) == 0.0
  {
    Trapezoidal(a, b, c, d)
  }

  /** `gaussian`: the constructor asserts sigma > 0. */
  function MakeGaussian(mean: real, sigma: real): (g: GaussianParameters)
    requires sigma > 0.0
    ensures g.mean == mean && g.sigma == sigma && g.sigma > 0.0
  {
    GaussianParameters(mean, sigma)
  }

  /** `sigmoidal`: the constructor asserts |a| > f64::EPSILON. */
  function MakeSigmoidal(a: real, c: real): (s: SigmoidalParameters)
    requires Abs(a) > Epsilon
    ensures s.a == a && s.c == c && s.a != 0.0
  {
    SigmoidalParameters(a, c)
  }

  /** Inside [a, b) and away from the peak, the rising flank of a trapezoid is the line from (a, 0) to (b, 1). */
  lemma TrapezoidalRisingFlank(a: real, b: real, c: real, d: real, x: real)
    requires a <= b <= c <= d && a <= x < b && b - a >= Epsilon
    ensures TrapezoidalDegree(a, b, c, d, x) == (x - a) / (b - a)
  {
  }

  /** A rising or falling trapezoid flank narrower than Epsilon evaluates to 0 instead of dividing. */
  lemma TrapezoidalDegenerateFlank(a: real, b: real, c: real, d: real, x: real)
    requires a <= b <= c <= d
    requires (a <= x < b && b - a < Epsilon) || (c < x <= d && d - c < Epsilon)
    ensures TrapezoidalDegree(a, b, c, d, x) == 0.0
  {
  }

  /**
   * In a triangle a flank narrower than Epsilon never reaches its zero guard: every point of
   * such a flank lies within Epsilon of the peak, so the peak branch answers 1 first.
   */
  lemma TriangularNarrowFlankIsPeak(a: real, b: real, c: real, x: real)
    requires a <= x <= c
    requires (x < b && b - a < Epsilon) || (x > b && c - b < Epsilon)
    ensures TriangularDegree(a, b, c, x) == 1.0
  {
  }

  /** Reflecting a triangle about m maps its degree at x to the degree at 2m - x. */
  lemma TriangularMirror(a: real, b: real, c: real, m: real, x: real)
    ensures TriangularDegree(a, b, c, x) == TriangularDegree(2.0 * m - c, 2.0 * m - b, 2.0 * m - a, 2.0 * m - x)
  {
    var a', b', c', x' := 2.0 * m - c, 2.0 * m - b, 2.0 * m - a, 2.0 * m - x;
    assert Abs(x - b) == Abs(x' - b');
    if a <= x <= c && Abs(x - b) >= Epsilon {
      if x < b {
        assert x' > b';
        assert Abs(b - a) == Abs(c' - b');
        if Abs(b - a) >= Epsilon {
          assert (c' - x') == (x - a) && (c' - b') == (b - a);
        }
      } else {
        assert x' < b';
        assert Abs(c - b) == Abs(b' - a');
        if Abs(c - b) >= Epsilon {
          assert (x' - a') == (c - x) && (b' - a') == (c - b);
        }
      }
    }
  }

  /** The values the unit tests assert for triangular(0, 5, 10) and trapezoidal(0, 3, 7, 10). */
  lemma DocumentedValues()
    ensures Evaluate(MakeTriangular(0.0, 5.0, 10.0), -1.0) == 0.0
    ensures Evaluate(MakeTriangular(0.0, 5.0, 10.0), 11.0) == 0.0
    ensures Evaluate(MakeTriangular(0.0, 5.0, 10.0), 5.0) == 1.0
    ensures Evaluate(MakeTriangular(0.0, 5.0, 10.0), 2.5) == 0.5
    ensures Evaluate(MakeTriangular(0.0, 5.0, 10.0), 7.5) == 0.5
    ensures Evaluate(MakeTrapezoidal(0.0, 3.0, 7.0, 10.0), 3.0) == 1.0
    ensures Evaluate(MakeTrapezoidal(0.0, 3.0, 7.0, 10.0), 5.0) == 1.0
    ensures Evaluate(MakeTrapezoidal(0.0, 3.0, 7.0, 10.0), 7.0) == 1.0
    ensures Evaluate(MakeTrapezoidal(0.0, 3.0, 7.0, 10.0), 1.5) == 0.5
    ensures Evaluate(MakeTrapezoidal(0.0, 3.0, 7.0, 10.0), 8.5) == 0.5
    ensures Evaluate(MakeTrapezoidal(0.0, 3.0, 7.0, 10.0), -1.0) == 0.0
    ensures Evaluate(MakeTrapezoidal(0.0, 3.0, 7.0, 10.0), 11.0) == 0.0
  {
  }
}
