/**
  The second generation of the cubic Hermite spline (splines/hermite.py).

  It is built like the spline of spline/hermite.py, but it is a value: its
  `arc_length` caches nothing (the key and the value are only ever assigned
  to locals), its heading is bounded to [0, 2 * 3.14159265), and the row of
  its rotation that gives the global y subtracts y cos(angle) where a
  rotation would add it.
*/
module SplinesHermite {
  import opened Wrappers
  import opened Transcendental
  import opened Records
  import opened HermiteCubic
  import MathUtil
  import SplineHermite
  import SplineUtils

  /** `SplineType`: HERMITE_CUBIC is 0, HERMITE_QUINTIC is 1. */
  datatype SplineType = Cubic | Quintic

  datatype Hermite = Hermite(
    kind: SplineType,
    start: Waypoint,
    end: Waypoint,
    xOffset: real,
    yOffset: real,
    angleOffset: real,
    hypDistance: real,
    tangent0: real,
    tangent1: real,
    a: real,
    b: real,
    lastArcCalc: real,
    lastArcCalcSamples: int)

  /** The period of the nested `bound_radians`: 2 * 3.14159265, a truncated 2 pi. */
  const HeadingPeriod: real := 2.0 * 3.14159265

  /** The constructor: everything is measured along the chord from `start` to `end`; both cache fields start at 0. */
  function Make(m: MathLib, kind: SplineType, start: Waypoint, end: Waypoint): Hermite
  {
    var dy := end.y - start.y;
    var dx := end.x - start.x;
    var angleOffset := Atan2(m, dy, dx);
    var hyp := Hypot(m, dx, dy);
    var tangent0 := Tan(m, start.angle - angleOffset);
    var tangent1 := Tan(m, end.angle - angleOffset);
    Hermite(kind, start, end, start.x, start.y, angleOffset, hyp, tangent0, tangent1,
      tangent0 * hyp, tangent1 * hyp, 0.0, 0)
  }

  /** The constructed spline starts at `start`, and its hypotenuse distance is the non-negative chord length. */
  lemma MakeChord(m: MathLib, kind: SplineType, start: Waypoint, end: Waypoint)
    requires Axioms(m)
    ensures var h := Make(m, kind, start, end);
      var dx, dy := end.x - start.x, end.y - start.y;
      && h.kind == kind && h.start == start && h.end == end
      && h.xOffset == start.x && h.yOffset == start.y
      && 0.0 <= h.hypDistance && h.hypDistance * h.hypDistance == dx * dx + dy * dy
      && h.a == Tan(m, start.angle - h.angleOffset) * h.hypDistance
      && h.b == Tan(m, end.angle - h.angleOffset) * h.hypDistance
      && h.lastArcCalcSamples == 0
  {
    var dx, dy := end.x - start.x, end.y - start.y;
    SquareNonNeg(dx);
    SquareNonNeg(dy);
  }

  /** The offset from the chord at parameter t: the cubic for HERMITE_CUBIC, 0 for HERMITE_QUINTIC. */
  function LocalOffset(h: Hermite, t: real): real
  {
    if h.kind == Cubic then CubicY(h.a, h.b, t) else 0.0
  }

  /** `deriv` */
  function Deriv(h: Hermite, t: real): real
  {
    CubicDeriv(h.a, h.b, t)
  }

  /** The global y as the source computes it: x sin(angle) - y cos(angle), moved by y0. */
  function MirroredY(x: real, y: real, cs: real, sn: real, y0: real): real
  {
    x * sn - y * cs + y0
  }

  /**
    `calculate`: the local point (hyp * t, y(t)) taken to the field frame,
    with the heading atan(deriv(t)) + angle offset bounded to one period.
  */
  function Calculate(m: MathLib, h: Hermite, t: real): (c: SplineCoord)
    ensures c.time == t
    ensures 0.0 <= c.angle < HeadingPeriod
    ensures MathUtil.Congruent(c.angle, Atan(m, Deriv(h, t)) + h.angleOffset, HeadingPeriod)
  {
    var x := h.hypDistance * t;
    var y := LocalOffset(h, t);
    var cs, sn := Cos(m, h.angleOffset), Sin(m, h.angleOffset);
    SplineCoord(t,
      SplineHermite.PlaceX(x, y, cs, sn, h.xOffset),
      MirroredY(x, y, cs, sn, h.yOffset),
      MathUtil.BoundAngle(Atan(m, Deriv(h, t)) + h.angleOffset, HeadingPeriod))
  }

  /** At t = 0 the spline is at its offsets, the start waypoint of a constructed spline. */
  lemma CalculateStart(m: MathLib, h: Hermite)
    ensures Calculate(m, h, 0.0).x == h.xOffset && Calculate(m, h, 0.0).y == h.yOffset
  {
    CubicEnds(h.a, h.b);
  }

  /** At t = 1 a constructed spline is at its end waypoint: there y = 0, so the sign of the y row does not matter. */
  lemma CalculateEnd(m: MathLib, kind: SplineType, start: Waypoint, end: Waypoint)
    requires Axioms(m)
    ensures var c := Calculate(m, Make(m, kind, start, end), 1.0);
      c.x == end.x && c.y == end.y
  {
    var h := Make(m, kind, start, end);
    var dx, dy := end.x - start.x, end.y - start.y;
    var hyp, angle, y := Hypot(m, dx, dy), Atan2(m, dy, dx), LocalOffset(h, 1.0);
    CubicEnds(h.a, h.b);
    SplineUtils.PolarChord(m, dx, dy);
    assert h.hypDistance * 1.0 == hyp && h.angleOffset == angle;
    SplineHermite.OnChordEnd(hyp, y, Cos(m, angle), Sin(m, angle), h.xOffset, h.yOffset, dx, dy);
    MirroredAtChord(hyp, y, Cos(m, angle), Sin(m, angle), h.yOffset, dy);
  }

  lemma MirroredAtChord(hyp: real, y: real, cs: real, sn: real, y0: real, dy: real)
    requires hyp * sn == dy && y == 0.0
    ensures MirroredY(hyp, y, cs, sn, y0) == y0 + dy
  {}

  /** The squared distance from (x0, y0) to (px, py). */
  function SquaredDistance(px: real, py: real, x0: real, y0: real): real
  {
    (px - x0) * (px - x0) + (py - y0) * (py - y0)
  }

  /** The squared distance the source's map gives the local point (x, y): x^2 + y^2 - 4 x y cos sin. */
  function MirroredSquare(x: real, y: real, cs: real, sn: real): real
  {
    x * x + y * y - 4.0 * x * y * cs * sn
  }

  /**
    Off the chord the point is not where a rotation would put it: its squared
    distance from the offsets is x^2 + y^2 - 4 x y cos(angle) sin(angle), so
    the distance is kept only where x y cos(angle) sin(angle) = 0.
  */
  lemma CalculateDistorts(m: MathLib, h: Hermite, t: real)
    requires Axioms(m)
    ensures var c := Calculate(m, h, t);
      SquaredDistance(c.x, c.y, h.xOffset, h.yOffset)
      == MirroredSquare(h.hypDistance * t, LocalOffset(h, t), Cos(m, h.angleOffset), Sin(m, h.angleOffset))
  {
    var x, y, cs, sn := h.hypDistance * t, LocalOffset(h, t), Cos(m, h.angleOffset), Sin(m, h.angleOffset);
    MirrorLength(x, y, cs, sn, h.xOffset, h.yOffset);
  }

  lemma MirrorLength(x: real, y: real, cs: real, sn: real, x0: real, y0: real)
    requires sn * sn + cs * cs == 1.0
    ensures SquaredDistance(SplineHermite.PlaceX(x, y, cs, sn, x0), MirroredY(x, y, cs, sn, y0), x0, y0)
      == MirroredSquare(x, y, cs, sn)
  {
    assert (x * cs - y * sn) * (x * cs - y * sn) + (x * sn - y * cs) * (x * sn - y * cs)
      == x * x * (sn * sn + cs * cs) + y * y * (sn * sn + cs * cs) - 4.0 * x * y * cs * sn;
  }

  /**
    `arc_length`. Nothing is cached: with the sample count equal to the key
    (0 for a constructed spline) the local result is returned before it is
    assigned, and a count of 0 divides by zero; `None` stands for both errors.
    Otherwise the result is the trapezoid sum stretched over the chord.
  */
  method ArcLength(m: MathLib, h: Hermite, samples: int) returns (r: Option<real>)
    ensures r.None? <==> (samples == h.lastArcCalcSamples || samples == 0)
    ensures r.Some? ==> r.value == HermiteArcLength(m, h.a, h.b, h.hypDistance, samples)
  {
    if h.lastArcCalcSamples != samples {
      if samples == 0 {
        return None;
      }
      var arcLength := HermiteSum(m, h.a, h.b, samples);
      r := Some(h.hypDistance * arcLength);
    } else {
      r := None;
    }
  }

  /** `get_splines`: one spline for each pair of adjacent waypoints, in path order. */
  method GetSplines(m: MathLib, kind: SplineType, waypoints: seq<Waypoint>) returns (splines: seq<Hermite>)
    ensures |splines| == if |waypoints| == 0 then 0 else |waypoints| - 1
    ensures forall i :: 0 <= i < |splines| ==> splines[i] == Make(m, kind, waypoints[i], waypoints[i + 1])
  {
    splines := [];
    var i := 0;
    while i + 1 < |waypoints|
      invariant |splines| == i && (i == 0 || i < |waypoints|)
      invariant forall j :: 0 <= j < i ==> splines[j] == Make(m, kind, waypoints[j], waypoints[j + 1])
    {
      splines := splines + [Make(m, kind, waypoints[i], waypoints[i + 1])];
      i := i + 1;
    }
  }
}
