/**
  The quintic spline segment the generator fits and the utilities evaluate.

  In its local frame a spline is y(x) = a x^5 + b x^4 + c x^3 + d x^2 + e x for
  x from 0 to `knotDistance`; the frame is rotated by `angleOffset` and moved
  to (`xOffset`, `yOffset`). `LocalY`, `LocalSlope` and `LocalCurvature` are
  written in the nested form spline_utils.py evaluates.
*/
module Splines {

  datatype Spline = Spline(
    a: real,
    b: real,
    c: real,
    d: real,
    e: real,
    xOffset: real,
    yOffset: real,
    knotDistance: real,
    angleOffset: real,
    arcLength: real)

  /** A freshly built spline: every field 0. */
  const Blank: Spline := Spline(0.0, 0.0, 0.0, 0.0, 0.0, 0.0, 0.0, 0.0, 0.0, 0.0)

  /** The local offset y(x). */
  function LocalY(s: Spline, x: real): real
  {
    (s.a * x + s.b) * (x * x * x * x) + (s.c * x + s.d) * (x * x) + s.e * x
  }

  /** The local slope dy/dx. */
  function LocalSlope(s: Spline, x: real): real
  {
    (5.0 * s.a * x + 4.0 * s.b) * (x * x * x) + (3.0 * s.c * x + 2.0 * s.d) * x + s.e
  }

  /** The second derivative d2y/dx2. */
  function LocalCurvature(s: Spline, x: real): real
  {
    (20.0 * s.a * x + 12.0 * s.b) * (x * x) + 6.0 * s.c * x + 2.0 * s.d
  }

  /** What is left of y(x + h) - y(x) once the linear term is taken out, divided by h^2. */
  function SlopeRemainder(s: Spline, x: real, h: real): real
  {
    s.a * FifthRest(x, h) + s.b * FourthRest(x, h) + s.c * CubeRest(x, h) + s.d
  }

  /** What is left of (x + h)^5 - x^5 once 5 h x^4 is taken out, divided by h^2. */
  function FifthRest(x: real, h: real): real
  {
    10.0 * x * x * x + 10.0 * x * x * h + 5.0 * x * h * h + h * h * h
  }

  /** What is left of (x + h)^3 - x^3 once 3 h x^2 is taken out, divided by h^2. */
  function CubeRest(x: real, h: real): real
  {
    3.0 * x + h
  }

  /** What is left of (x + h)^4 - x^4 once 4 h x^3 is taken out, divided by h^2. */
  function FourthRest(x: real, h: real): real
  {
    6.0 * x * x + 4.0 * x * h + h * h
  }

  function CurvatureRemainder(s: Spline, x: real, h: real): real
  {
    s.a * (30.0 * x * x + 20.0 * x * h + 5.0 * h * h) + s.b * (12.0 * x + 4.0 * h) + 3.0 * s.c
  }

  /** `LocalSlope` is the derivative of `LocalY`: the difference over a step h is h times the slope plus a term of order h^2. */
  lemma LocalSlopeIsDerivative(s: Spline, x: real, h: real)
    ensures LocalY(s, x + h) - LocalY(s, x) == h * LocalSlope(s, x) + h * h * SlopeRemainder(s, x, h)
  {
    Expanded(s, x);
    Expanded(s, x + h);
    ExpandedSlope(s, x);
    PowerSteps(x, h);
    Combine(s.a, s.b, s.c, s.d, s.e, h, x, x + h,
      Fifth(x + h), Fifth(x), Fourth(x + h), Fourth(x), Cube(x + h), Cube(x), Square(x + h), Square(x),
      FifthRest(x, h), FourthRest(x, h), CubeRest(x, h),
      LocalY(s, x + h), LocalY(s, x), LocalSlope(s, x), SlopeRemainder(s, x, h));
  }

  function Square(x: real): real { x * x }
  function Cube(x: real): real { x * x * x }
  function Fourth(x: real): real { x * x * x * x }
  function Fifth(x: real): real { x * x * x * x * x }

  /** `LocalY` with every power written out. */
  lemma Expanded(s: Spline, x: real)
    ensures LocalY(s, x) == s.a * Fifth(x) + s.b * Fourth(x) + s.c * Cube(x) + s.d * Square(x) + s.e * x
  {}

  /** `LocalSlope` with every power written out. */
  lemma ExpandedSlope(s: Spline, x: real)
    ensures LocalSlope(s, x) == s.a * (5.0 * Fourth(x)) + s.b * (4.0 * Cube(x)) + s.c * (3.0 * Square(x)) + s.d * (2.0 * x) + s.e
  {}

  /** The binomial steps of x^2 ... x^5 over a step h. */
  lemma PowerSteps(x: real, h: real)
    ensures Square(x + h) - Square(x) == h * (2.0 * x) + h * h
    ensures Cube(x + h) - Cube(x) == h * (3.0 * Square(x)) + h * h * CubeRest(x, h)
    ensures Fourth(x + h) - Fourth(x) == h * (4.0 * Cube(x)) + h * h * FourthRest(x, h)
    ensures Fifth(x + h) - Fifth(x) == h * (5.0 * Fourth(x)) + h * h * FifthRest(x, h)
  {}

  /** Steps of the powers, weighted by the coefficients, add up to the weighted slope and remainder. */
  lemma Combine(a: real, b: real, c: real, d: real, e: real, h: real, x: real, X: real,
                Y5: real, y5: real, Y4: real, y4: real, Y3: real, y3: real, Y2: real, y2: real,
                R5: real, R4: real, R3: real, yEnd: real, yStart: real, slope: real, rest: real)
    requires Y5 - y5 == h * (5.0 * y4) + h * h * R5 && Y4 - y4 == h * (4.0 * y3) + h * h * R4
    requires Y3 - y3 == h * (3.0 * y2) + h * h * R3 && Y2 - y2 == h * (2.0 * x) + h * h
    requires X - x == h
    requires yEnd == a * Y5 + b * Y4 + c * Y3 + d * Y2 + e * X
    requires yStart == a * y5 + b * y4 + c * y3 + d * y2 + e * x
    requires slope == a * (5.0 * y4) + b * (4.0 * y3) + c * (3.0 * y2) + d * (2.0 * x) + e
    requires rest == a * R5 + b * R4 + c * R3 + d
    ensures yEnd - yStart == h * slope + h * h * rest
  {
    Spread(a, b, c, d, e, Y5, y5, Y4, y4, Y3, y3, Y2, y2, X, x, yEnd, yStart);
    Collect(a, b, c, d, e, h, x, X, Y5, y5, Y4, y4, Y3, y3, Y2, y2, R5, R4, R3, slope, rest);
  }

  lemma Collect(a: real, b: real, c: real, d: real, e: real, h: real, x: real, X: real,
                Y5: real, y5: real, Y4: real, y4: real, Y3: real, y3: real, Y2: real, y2: real,
                R5: real, R4: real, R3: real, slope: real, rest: real)
    requires Y5 - y5 == h * (5.0 * y4) + h * h * R5 && Y4 - y4 == h * (4.0 * y3) + h * h * R4
    requires Y3 - y3 == h * (3.0 * y2) + h * h * R3 && Y2 - y2 == h * (2.0 * x) + h * h
    requires X - x == h
    requires slope == a * (5.0 * y4) + b * (4.0 * y3) + c * (3.0 * y2) + d * (2.0 * x) + e
    requires rest == a * R5 + b * R4 + c * R3 + d
    ensures a * (Y5 - y5) + b * (Y4 - y4) + c * (Y3 - y3) + d * (Y2 - y2) + e * (X - x) == h * slope + h * h * rest
  {
    Scale(a, Y5, y5, 5.0 * y4, R5, h);
    Scale(b, Y4, y4, 4.0 * y3, R4, h);
    Scale(c, Y3, y3, 3.0 * y2, R3, h);
    Scale(d, Y2, y2, 2.0 * x, 1.0, h);
    Distribute(h, a * (5.0 * y4), b * (4.0 * y3), c * (3.0 * y2), d * (2.0 * x), e, slope);
    Distribute(h * h, a * R5, b * R4, c * R3, d, 0.0, rest);
  }

  lemma Spread(a: real, b: real, c: real, d: real, e: real,
               Y5: real, y5: real, Y4: real, y4: real, Y3: real, y3: real, Y2: real, y2: real, X: real, x: real,
               yEnd: real, yStart: real)
    requires yEnd == a * Y5 + b * Y4 + c * Y3 + d * Y2 + e * X
    requires yStart == a * y5 + b * y4 + c * y3 + d * y2 + e * x
    ensures yEnd - yStart == a * (Y5 - y5) + b * (Y4 - y4) + c * (Y3 - y3) + d * (Y2 - y2) + e * (X - x)
  {}

  lemma Scale(k: real, Y: real, y: real, slope: real, rest: real, h: real)
    requires Y - y == h * slope + h * h * rest
    ensures k * (Y - y) == h * (k * slope) + h * h * (k * rest)
  {}

  lemma Distribute(k: real, p1: real, p2: real, p3: real, p4: real, p5: real, sum: real)
    requires sum == p1 + p2 + p3 + p4 + p5
    ensures k * sum == k * p1 + k * p2 + k * p3 + k * p4 + k * p5
  {}

  /** `LocalCurvature` is the derivative of `LocalSlope`. */
  lemma LocalCurvatureIsDerivative(s: Spline, x: real, h: real)
    ensures LocalSlope(s, x + h) - LocalSlope(s, x) == h * LocalCurvature(s, x) + h * h * CurvatureRemainder(s, x, h)
  {}

  /** Every spline starts at its local origin with slope `e` and curvature 2d. */
  lemma LocalAtZero(s: Spline)
    ensures LocalY(s, 0.0) == 0.0
    ensures LocalSlope(s, 0.0) == s.e
    ensures LocalCurvature(s, 0.0) == 2.0 * s.d
  {}

  lemma PowersNonZero(k: real)
    requires k != 0.0
    ensures k * k != 0.0 && k * k * k != 0.0 && k * k * k * k != 0.0
  {
    if k > 0.0 {
      assert 0.0 < k * k;
      assert 0.0 < k * k * k;
      assert 0.0 < k * k * k * k;
    } else {
      assert 0.0 < k * k;
      assert k * k * k < 0.0;
      assert 0.0 < k * k * k * k;
    }
  }
}
