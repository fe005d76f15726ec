/**
  Evaluating a fitted spline (spline_utils.py): its points, slopes and
  headings, its arc length, and the parameter at which a given distance
  along it is reached.

  The spline parameter (the source's "percentage") runs from 0 at the first
  waypoint to 1 at the second; local x is the parameter times the knot distance.
*/
module SplineUtils {
  import opened Transcendental
  import opened Records
  import opened Splines
  import opened ArcLength
  import MathUtil
  import SplineGenerator

  /** The parameter clamped to [0, 1]. */
  function Clamp(percentage: real): (p: real)
    ensures 0.0 <= p <= 1.0
    ensures 0.0 <= percentage <= 1.0 ==> p == percentage
  {
    if percentage > 1.0 then 1.0 else if percentage < 0.0 then 0.0 else percentage
  }

  /** The point at parameter `p` without clamping: the local point rotated by the angle offset and moved to the offsets. */
  function CoordsAt(m: MathLib, s: Spline, p: real): Coord
  {
    var x := p * s.knotDistance;
    var y := LocalY(s, x);
    var cosTheta := Cos(m, s.angleOffset);
    var sinTheta := Sin(m, s.angleOffset);
    Coord(RotateX(x, y, cosTheta, sinTheta) + s.xOffset, RotateY(x, y, cosTheta, sinTheta) + s.yOffset)
  }

  /** The local point (x, y) turned by the angle whose cosine and sine are c and sn. */
  function RotateX(x: real, y: real, c: real, sn: real): real
  {
    x * c - y * sn
  }

  function RotateY(x: real, y: real, c: real, sn: real): real
  {
    x * sn + y * c
  }

  /** `get_coords`: the point at the parameter clamped to [0, 1]. */
  function GetCoords(m: MathLib, s: Spline, percentage: real): (r: Coord)
    ensures percentage <= 0.0 ==> r == Coord(s.xOffset, s.yOffset)
    ensures 1.0 <= percentage ==> r == CoordsAt(m, s, 1.0)
  {
    CoordsAt(m, s, Clamp(percentage))
  }

  /** Clamping twice is clamping once, so parameters outside [0, 1] give the point at the nearer end. */
  lemma GetCoordsClamps(m: MathLib, s: Spline, percentage: real)
    ensures GetCoords(m, s, percentage) == GetCoords(m, s, Clamp(percentage))
  {}

  /** The rotation keeps distances: the point lies as far from the offsets as the local point lies from the local origin. */
  lemma GetCoordsRotates(m: MathLib, s: Spline, percentage: real)
    requires Axioms(m)
    ensures var r := GetCoords(m, s, percentage);
      var x := Clamp(percentage) * s.knotDistance;
      var y := LocalY(s, x);
      (r.x - s.xOffset) * (r.x - s.xOffset) + (r.y - s.yOffset) * (r.y - s.yOffset) == x * x + y * y
  {
    var q := Clamp(percentage);
    var x := q * s.knotDistance;
    var y, c, sn := LocalY(s, x), Cos(m, s.angleOffset), Sin(m, s.angleOffset);
    var r := GetCoords(m, s, percentage);
    assert r == CoordsAt(m, s, q);
    assert sn * sn + c * c == 1.0;
    Rotated(x, y, c, sn, s.xOffset, s.yOffset, r.x, r.y);
  }

  /** A point rotated about the origin and then moved by the offsets lies as far from the offsets as it lay from the origin. */
  lemma Rotated(x: real, y: real, c: real, sn: real, ox: real, oy: real, rx: real, ry: real)
    requires sn * sn + c * c == 1.0
    requires rx == RotateX(x, y, c, sn) + ox && ry == RotateY(x, y, c, sn) + oy
    ensures (rx - ox) * (rx - ox) + (ry - oy) * (ry - oy) == x * x + y * y
  {
    RotationKeepsLength(x, y, c, sn);
    assert rx - ox == x * c - y * sn;
    assert ry - oy == x * sn + y * c;
  }

  lemma RotationKeepsLength(x: real, y: real, c: real, sn: real)
    requires sn * sn + c * c == 1.0
    ensures (x * c - y * sn) * (x * c - y * sn) + (x * sn + y * c) * (x * sn + y * c) == x * x + y * y
  {
    assert (x * c - y * sn) * (x * c - y * sn) + (x * sn + y * c) * (x * sn + y * c)
      == x * x * (sn * sn + c * c) + y * y * (sn * sn + c * c);
  }

  /** A spline that returns to its chord at the knot distance ends at the offsets plus the rotated chord. */
  lemma CoordsAtKnot(m: MathLib, s: Spline)
    requires LocalY(s, s.knotDistance) == 0.0
    ensures CoordsAt(m, s, 1.0)
      == Coord(s.knotDistance * Cos(m, s.angleOffset) + s.xOffset, s.knotDistance * Sin(m, s.angleOffset) + s.yOffset)
  {
    assert 1.0 * s.knotDistance == s.knotDistance;
  }

  lemma PolarChord(m: MathLib, dx: real, dy: real)
    requires Axioms(m)
    ensures Hypot(m, dx, dy) * Cos(m, Atan2(m, dy, dx)) == dx
    ensures Hypot(m, dx, dy) * Sin(m, Atan2(m, dy, dx)) == dy
  {}

  /** A spline placed at `a`, measured along the chord to `b` and back on the chord at its end, ends on `b`. */
  lemma LandsOn(m: MathLib, s: Spline, a: Waypoint, b: Waypoint)
    requires Axioms(m) && LocalY(s, s.knotDistance) == 0.0
    requires s.xOffset == a.x && s.yOffset == a.y && s.knotDistance == SplineGenerator.KnotDistance(m, a, b)
    requires s.angleOffset == Atan2(m, b.y - a.y, b.x - a.x)
    ensures GetCoords(m, s, 1.0) == Coord(b.x, b.y)
  {
    CoordsAtKnot(m, s);
    var dx, dy := b.x - a.x, b.y - a.y;
    PolarChord(m, dx, dy);
    assert s.knotDistance * Cos(m, s.angleOffset) == dx;
    assert s.knotDistance * Sin(m, s.angleOffset) == dy;
    assert CoordsAt(m, s, 1.0) == Coord(b.x, b.y);
  }

  /** A fitted spline evaluated at parameter 1 lands exactly on the second waypoint. */
  lemma FitReachesEnd(m: MathLib, fitType: SplineGenerator.FitType, a: Waypoint, b: Waypoint)
    requires Axioms(m)
    requires fitType != SplineGenerator.Unrecognised && SplineGenerator.KnotDistance(m, a, b) != 0.0
    ensures GetCoords(m, SplineGenerator.Fit(m, fitType, a, b).value, 1.0) == Coord(b.x, b.y)
  {
    var s := SplineGenerator.Fit(m, fitType, a, b).value;
    SplineGenerator.FitEndpoints(m, fitType, a, b);
    SplineGenerator.FitPlaced(m, fitType, a, b);
    LandsOn(m, s, a, b);
  }

  /** `get_deriv`: the local slope at the (unclamped) parameter. */
  function GetDeriv(s: Spline, percentage: real): (r: real)
    ensures r == LocalSlope(s, percentage * s.knotDistance)
  {
    var x := percentage * s.knotDistance;
    (5.0 * s.a * x + 4.0 * s.b) * (x * x * x) + (3.0 * s.c * x + 2.0 * s.d) * x + s.e
  }

  /** `get_deriv_2`: the same slope from loose coefficients. */
  function GetDeriv2(a: real, b: real, c: real, d: real, e: real, k: real, p: real): real
  {
    var x := p * k;
    (5.0 * a * x + 4.0 * b) * (x * x * x) + (3.0 * c * x + 2.0 * d) * x + e
  }

  /** Given a spline's own coefficients and knot distance, `get_deriv_2` agrees with `get_deriv`. */
  lemma GetDeriv2Agrees(s: Spline, p: real)
    ensures GetDeriv2(s.a, s.b, s.c, s.d, s.e, s.knotDistance, p) == GetDeriv(s, p)
  {}

  /** `get_angle`: the heading of the tangent, bounded to [0, TAU). */
  function GetAngle(m: MathLib, s: Spline, percentage: real): (r: real)
    ensures 0.0 <= r < MathUtil.TAU
    ensures MathUtil.Congruent(r, Atan(m, GetDeriv(s, percentage)) + s.angleOffset, MathUtil.TAU)
  {
    MathUtil.BoundRadians(Atan(m, GetDeriv(s, percentage)) + s.angleOffset)
  }

  /**
    The slope as a polynomial in the parameter, as both integration loops
    evaluate it: with x = p k, y'(x) = e + 2d k p + 3c k^2 p^2 + 4b k^3 p^3 + 5a k^4 p^4.
  */
  function SlopeCoefficients(s: Spline): seq<real>
  {
    var k := s.knotDistance;
    [s.e, 2.0 * s.d * k, 3.0 * s.c * (k * k), 4.0 * s.b * (k * k * k), 5.0 * s.a * (k * k * k * k)]
  }

  /** The coefficients give back `get_deriv_2` at every parameter. */
  lemma SlopeCoefficientsAgree(s: Spline, p: real)
    ensures Poly(SlopeCoefficients(s), p) == GetDeriv2(s.a, s.b, s.c, s.d, s.e, s.knotDistance, p)
  {
    var cs := SlopeCoefficients(s);
    assert cs[4..][1..] == [];
    assert Poly(cs[4..], p) == cs[4] + p * 0.0;
    assert cs[3..][1..] == cs[4..];
    assert Poly(cs[3..], p) == cs[3] + p * Poly(cs[4..], p);
    assert cs[2..][1..] == cs[3..];
    assert Poly(cs[2..], p) == cs[2] + p * Poly(cs[3..], p);
    assert cs[1..][1..] == cs[2..];
    assert Poly(cs[1..], p) == cs[1] + p * Poly(cs[2..], p);
    assert Poly(cs, p) == cs[0] + p * Poly(cs[1..], p);
    var x := p * s.knotDistance;
    assert x * x == (p * p) * (s.knotDistance * s.knotDistance);
    assert x * x * x == (p * p * p) * (s.knotDistance * s.knotDistance * s.knotDistance);
    assert x * x * x * x == (p * p * p * p) * (s.knotDistance * s.knotDistance * s.knotDistance * s.knotDistance);
  }

  /** The ordinate at sample `i` of the spline's own slope. */
  function OrdinateAt(m: MathLib, s: Spline, n: int, i: int): real
    requires n != 0
  {
    Integrand(m, SlopeCoefficients(s), n, Sample(i, n))
  }

  lemma OrdinateAtSample(m: MathLib, s: Spline, n: int, i: int)
    requires n != 0
    ensures OrdinateAt(m, s, n, i) == Ordinate(m, GetDeriv2(s.a, s.b, s.c, s.d, s.e, s.knotDistance, i as real / n as real), n)
  {
    SlopeCoefficientsAgree(s, i as real / n as real);
  }

  /** The arc length `get_arc_length` computes: the knot distance times the trapezoid sum over samples 0..n, or 0 when n is negative. */
  function ArcLengthOf(m: MathLib, s: Spline, sampleCount: int): real
    requires sampleCount != 0
  {
    Stretched(s.knotDistance, Running(m, SlopeCoefficients(s), sampleCount, Passes(sampleCount)))
  }

  /** The loop of `get_arc_length`: the trapezoid sum over the samples 0..n of the parameter. */
  method SumOrdinates(m: MathLib, s: Spline, sampleCount: int) returns (arcLength: real)
    requires sampleCount != 0
    ensures arcLength == Running(m, SlopeCoefficients(s), sampleCount, Passes(sampleCount))
  {
    var n := sampleCount as real;
    var knot := s.knotDistance;
    arcLength := 0.0;
    var deriv0 := GetDeriv2(s.a, s.b, s.c, s.d, s.e, knot, 0.0);
    var lastIntegrand := Ordinate(m, deriv0, sampleCount);
    OrdinateAtSample(m, s, sampleCount, 0);
    var i := 0;
    while i < sampleCount + 1
      invariant sampleCount < 0 ==> i == 0
      invariant 0 < sampleCount ==> 0 <= i <= sampleCount + 1
      invariant arcLength == Running(m, SlopeCoefficients(s), sampleCount, i)
      invariant lastIntegrand == OrdinateAt(m, s, sampleCount, if i == 0 then 0 else i - 1)
    {
      var t := i as real / n;
      var dydt := GetDeriv2(s.a, s.b, s.c, s.d, s.e, knot, t);
      var integrand := Ordinate(m, dydt, sampleCount);
      OrdinateAtSample(m, s, sampleCount, i);
      RunningStep(m, SlopeCoefficients(s), sampleCount, i);
      arcLength := arcLength + (integrand + lastIntegrand) / 2.0;
      lastIntegrand := integrand;
      i := i + 1;
    }
  }

  /** `get_arc_length`: returns the arc length and the spline with that arc length recorded. */
  method GetArcLength(m: MathLib, s: Spline, sampleCount: int) returns (al: real, s': Spline)
    requires sampleCount != 0
    ensures al == ArcLengthOf(m, s, sampleCount)
    ensures s' == s.(arcLength := al)
  {
    var arcLength := SumOrdinates(m, s, sampleCount);
    al := s.knotDistance * arcLength;
    assert al == Stretched(s.knotDistance, arcLength);
    s' := s.(arcLength := al);
  }

  /** With a non-negative knot distance and a positive sample count the arc length is at least the chord. */
  lemma ArcLengthAtLeastChord(m: MathLib, s: Spline, sampleCount: int)
    requires Axioms(m) && 0 < sampleCount && 0.0 <= s.knotDistance
    ensures s.knotDistance <= ArcLengthOf(m, s, sampleCount)
  {
    ScaledAtLeast(m, SlopeCoefficients(s), sampleCount, s.knotDistance);
  }

  /** A spline with no curve is integrated to knot * (n + 1)/n: the loop counts one sample more than n. */
  lemma ArcLengthOfStraight(m: MathLib, s: Spline, sampleCount: int)
    requires Axioms(m) && 0 < sampleCount
    requires s.a == 0.0 && s.b == 0.0 && s.c == 0.0 && s.d == 0.0 && s.e == 0.0
    ensures ArcLengthOf(m, s, sampleCount) == s.knotDistance * ((sampleCount + 1) as real / sampleCount as real)
  {
    ScaledFlat(m, SlopeCoefficients(s), sampleCount, s.knotDistance);
  }

  /**
    The first sample, from `i` on, whose running sum exceeds `target`;
    n + 1 when there is none.
  */
  function FirstAbove(m: MathLib, cs: seq<real>, n: int, target: real, i: nat): (j: nat)
    requires 0 < n && i <= n + 1
    decreases n + 1 - i
    ensures i <= j <= n + 1
    ensures forall l :: i <= l < j ==> Cum(m, cs, n, l) <= target
    ensures j <= n ==> target < Cum(m, cs, n, j)
  {
    if i == n + 1 then i
    else if target < Cum(m, cs, n, i) then i
    else FirstAbove(m, cs, n, target, i + 1)
  }

  /** The interpolation step of `get_progress_for_distance`. */
  function Interpolate(t: real, arc: real, last: real, target: real, n: int): real
    requires n != 0
  {
    if arc != last then t + ((target - last) / (arc - last) - 1.0) / n as real else t
  }

  /**
    What `get_progress_for_distance` returns: scan the running sums for the
    first one beyond distance/knot, then interpolate back from that sample;
    when none is beyond it the last sample's parameter is returned.
  */
  function Progress(m: MathLib, s: Spline, distance: real, sampleCount: int): real
    requires sampleCount != 0 && s.knotDistance != 0.0
  {
    var n := sampleCount;
    var target := distance / s.knotDistance;
    if n < 0 then 0.0
    else
      var j := FirstAbove(m, SlopeCoefficients(s), n, target, 0);
      if j <= n then Interpolate(Sample(j, n), Running(m, SlopeCoefficients(s), n, j + 1), Running(m, SlopeCoefficients(s), n, j), target, n)
      else Sample(n, n)
  }

  /** The scan's stopping sample is the one `FirstAbove` names. */
  lemma ProgressAt(m: MathLib, s: Spline, distance: real, n: int, j: nat)
    requires 0 < n && s.knotDistance != 0.0 && j <= n + 1
    requires forall l :: 0 <= l < j ==> Cum(m, SlopeCoefficients(s), n, l) <= distance / s.knotDistance
    requires j <= n ==> distance / s.knotDistance < Cum(m, SlopeCoefficients(s), n, j)
    ensures FirstAbove(m, SlopeCoefficients(s), n, distance / s.knotDistance, 0) == j
  {}

  /**
    The state of the scan in `get_progress_for_distance` once the loop has
    run `i` times, or has stopped at sample `i` when `broke` is set.
  */
  ghost predicate Scanned(m: MathLib, s: Spline, n: int, target: real, i: nat, broke: bool, t: real, arc: real, last: real)
    requires n != 0
  {
    (n < 0 ==> i == 0)
    && (0 < n ==> i <= n + 1)
    && (forall l :: 0 <= l < i ==> Cum(m, SlopeCoefficients(s), n, l) <= target)
    && (!broke ==>
          arc == last && last == Running(m, SlopeCoefficients(s), n, i)
          && t == (if i == 0 then 0.0 else Sample(i - 1, n)))
    && (broke ==>
          0 < n && i <= n && target < Cum(m, SlopeCoefficients(s), n, i)
          && t == Sample(i, n) && arc == Running(m, SlopeCoefficients(s), n, i + 1) && last == Running(m, SlopeCoefficients(s), n, i))
  }

  /** Once the scan has stopped or run out, interpolating from its state gives `Progress`. */
  lemma ScanDone(m: MathLib, s: Spline, distance: real, n: int, i: nat, broke: bool, t: real, arc: real, last: real)
    requires n != 0 && s.knotDistance != 0.0
    requires Scanned(m, s, n, distance / s.knotDistance, i, broke, t, arc, last)
    requires broke || i == Passes(n)
    ensures Interpolate(t, arc, last, distance / s.knotDistance, n) == Progress(m, s, distance, n)
  {
    if 0 < n {
      ProgressAt(m, s, distance, n, i);
    }
  }

  /** One pass of the scan: add the trapezoid for sample `i`, and stop there if the sum is now beyond the target. */
  lemma ScanStep(m: MathLib, s: Spline, n: int, target: real, i: nat, t: real, arc: real, last: real, lastOrdinate: real)
    requires n != 0 && i <= n
    requires Scanned(m, s, n, target, i, false, t, arc, last)
    requires lastOrdinate == OrdinateAt(m, s, n, if i == 0 then 0 else i - 1)
    ensures var arc' := arc + (OrdinateAt(m, s, n, i) + lastOrdinate) / 2.0;
      if arc' > target then Scanned(m, s, n, target, i, true, Sample(i, n), arc', last)
      else Scanned(m, s, n, target, i + 1, false, Sample(i, n), arc', arc')
  {
    var arc' := arc + (OrdinateAt(m, s, n, i) + lastOrdinate) / 2.0;
    RunningStep(m, SlopeCoefficients(s), n, i);
    assert arc' == Running(m, SlopeCoefficients(s), n, i + 1) == Cum(m, SlopeCoefficients(s), n, i);
  }

  /** `get_progress_for_distance`. */
  method GetProgressForDistance(m: MathLib, s: Spline, distance: real, sampleCount: int) returns (r: real)
    requires sampleCount != 0 && s.knotDistance != 0.0
    ensures r == Progress(m, s, distance, sampleCount)
  {
    var n := sampleCount as real;
    var knot := s.knotDistance;
    var arcLength := 0.0;
    var t := 0.0;
    var lastArcLength := 0.0;
    var deriv0 := GetDeriv2(s.a, s.b, s.c, s.d, s.e, knot, 0.0);
    var lastIntegrand := Ordinate(m, deriv0, sampleCount);
    OrdinateAtSample(m, s, sampleCount, 0);
    var target := distance / knot;
    var i := 0;
    ghost var broke := false;
    while i < sampleCount + 1
      invariant Scanned(m, s, sampleCount, target, i, broke, t, arcLength, lastArcLength)
      invariant !broke ==> lastIntegrand == OrdinateAt(m, s, sampleCount, if i == 0 then 0 else i - 1)
    {
      ScanStep(m, s, sampleCount, target, i, t, arcLength, lastArcLength, lastIntegrand);
      OrdinateAtSample(m, s, sampleCount, i);
      t := i as real / n;
      var dydt := GetDeriv2(s.a, s.b, s.c, s.d, s.e, knot, t);
      var integrand := Ordinate(m, dydt, sampleCount);
      arcLength := arcLength + (integrand + lastIntegrand) / 2.0;
      if arcLength > target {
        broke := true;
        break;
      }
      lastIntegrand := integrand;
      lastArcLength := arcLength;
      i := i + 1;
    }
    ScanDone(m, s, distance, sampleCount, i, broke, t, arcLength, lastArcLength);
    r := Interpolate(t, arcLength, lastArcLength, target, sampleCount);
  }

  /** If no running sum exceeds distance/knot, the parameter is exactly 1. */
  lemma ProgressNoBreak(m: MathLib, s: Spline, distance: real, sampleCount: int)
    requires 0 < sampleCount && s.knotDistance != 0.0
    requires forall l :: 0 <= l <= sampleCount ==>
      Cum(m, SlopeCoefficients(s), sampleCount, l) <= distance / s.knotDistance
    ensures Progress(m, s, distance, sampleCount) == 1.0
  {
    ProgressAt(m, s, distance, sampleCount, sampleCount + 1);
    assert Sample(sampleCount, sampleCount) == 1.0;
  }

  lemma FractionInUnit(x: real, y: real)
    requires 0.0 <= x < y
    ensures 0.0 <= x / y < 1.0
  {}

  lemma ShiftBelow(t: real, q: real, n: real)
    requires 0.0 <= q < 1.0 && 0.0 < n
    ensures t - 1.0 / n <= t + (q - 1.0) / n < t
  {
    assert (q - 1.0) / n == q / n - 1.0 / n;
    assert 0.0 <= q / n < 1.0 / n;
  }

  /**
    When the scan stops at sample j for a target of at least 0, the result
    lies in [j/n - 1/n, j/n): it interpolates back into the previous sample.
  */
  lemma ProgressBreakBounds(m: MathLib, s: Spline, distance: real, sampleCount: int)
    requires Axioms(m) && 0 < sampleCount && s.knotDistance != 0.0
    requires 0.0 <= distance / s.knotDistance
    requires FirstAbove(m, SlopeCoefficients(s), sampleCount, distance / s.knotDistance, 0) <= sampleCount
    ensures var j := FirstAbove(m, SlopeCoefficients(s), sampleCount, distance / s.knotDistance, 0);
      var r := Progress(m, s, distance, sampleCount);
      Sample(j, sampleCount) - 1.0 / sampleCount as real <= r < Sample(j, sampleCount)
  {
    var cs := SlopeCoefficients(s);
    var n := sampleCount;
    var target := distance / s.knotDistance;
    var j := FirstAbove(m, cs, n, target, 0);
    var last := if j == 0 then 0.0 else Cum(m, cs, n, j - 1);
    var arc := Cum(m, cs, n, j);
    assert last <= target < arc;
    FractionInUnit(target - last, arc - last);
    ShiftBelow(Sample(j, n), (target - last) / (arc - last), n as real);
  }

  /** A distance of 0 stops the scan at the first sample and yields -1/n, which only `GetCoords` later clamps. */
  lemma ProgressOfZero(m: MathLib, s: Spline, sampleCount: int)
    requires Axioms(m) && 0 < sampleCount && s.knotDistance != 0.0
    ensures Progress(m, s, 0.0, sampleCount) == -1.0 / sampleCount as real
  {
    CumAtLeast(m, SlopeCoefficients(s), sampleCount, 0);
    assert 0.0 < 1.0 / sampleCount as real;
    assert FirstAbove(m, SlopeCoefficients(s), sampleCount, 0.0, 0) == 0;
  }

  /** With a negative sample count the loop never runs and the parameter is 0. */
  lemma ProgressNegativeCount(m: MathLib, s: Spline, distance: real, sampleCount: int)
    requires sampleCount < 0 && s.knotDistance != 0.0
    ensures Progress(m, s, distance, sampleCount) == 0.0
  {}

  /** Interpolating within one bracket grows with the target. */
  lemma InterpolateMonotone(t: real, arc: real, last: real, lo: real, hi: real, n: int)
    requires last < arc && lo <= hi && 0 < n
    ensures Interpolate(t, arc, last, lo, n) <= Interpolate(t, arc, last, hi, n)
  {
    DivMonotone(lo - last, hi - last, arc - last);
    DivMonotone((lo - last) / (arc - last) - 1.0, (hi - last) / (arc - last) - 1.0, n as real);
  }

  /** A target below the bracket's upper sum interpolates to before the bracket's sample. */
  lemma InterpolateBelow(t: real, arc: real, last: real, target: real, n: int)
    requires last < arc && target < arc && 0 < n
    ensures Interpolate(t, arc, last, target, n) < t
  {
    var q := (target - last) / (arc - last);
    FractionBelowOne(target - last, arc - last);
    assert (q - 1.0) / n as real < 0.0;
  }

  lemma FractionBelowOne(x: real, y: real)
    requires x < y && 0.0 < y
    ensures x / y < 1.0
  {
    assert x / y < y / y;
  }

  /** A target at or above the bracket's lower sum interpolates to at least one sample before it. */
  lemma InterpolateAbove(t: real, arc: real, last: real, target: real, n: int)
    requires last < arc && last <= target && 0 < n
    ensures t - 1.0 / n as real <= Interpolate(t, arc, last, target, n)
  {
    var q := (target - last) / (arc - last);
    assert 0.0 <= q;
    assert (q - 1.0) / n as real == q / n as real - 1.0 / n as real;
    assert 0.0 <= q / n as real;
  }

  /** The sums around sample j: the one after it is above the one before it. */
  lemma BracketOrdered(m: MathLib, s: Spline, n: int, j: nat)
    requires Axioms(m) && 0 < n
    ensures Running(m, SlopeCoefficients(s), n, j) < Running(m, SlopeCoefficients(s), n, j + 1)
  {
    if j == 0 {
      CumAtLeast(m, SlopeCoefficients(s), n, 0);
      assert 0.0 < 1.0 / n as real;
    } else {
      CumIncreasing(m, SlopeCoefficients(s), n, j - 1);
    }
  }

  /** A larger target stops the scan no earlier. */
  lemma {:induction false} FirstAboveMonotone(m: MathLib, cs: seq<real>, n: int, lo: real, hi: real, i: nat)
    requires 0 < n && lo <= hi && i <= n + 1
    ensures FirstAbove(m, cs, n, lo, i) <= FirstAbove(m, cs, n, hi, i)
    decreases n + 1 - i
  {
    if i < n + 1 && Cum(m, cs, n, i) <= hi {
      FirstAboveMonotone(m, cs, n, lo, hi, i + 1);
    }
  }

  /** The value of `Progress` for a positive sample count and the target distance/knot. */
  function ProgressFor(m: MathLib, s: Spline, n: int, target: real): real
    requires 0 < n
  {
    var cs := SlopeCoefficients(s);
    var j := FirstAbove(m, cs, n, target, 0);
    if j <= n then Interpolate(Sample(j, n), Running(m, cs, n, j + 1), Running(m, cs, n, j), target, n) else Sample(n, n)
  }

  /** For a positive sample count `Progress` is `ProgressFor` at distance/knot. */
  lemma ProgressValue(m: MathLib, s: Spline, distance: real, n: int)
    requires 0 < n && s.knotDistance != 0.0
    ensures Progress(m, s, distance, n) == ProgressFor(m, s, n, distance / s.knotDistance)
  {}

  /** A stop at sample j within the samples lands before sample j. */
  lemma StopBelow(m: MathLib, s: Spline, n: int, target: real)
    requires Axioms(m) && 0 < n && FirstAbove(m, SlopeCoefficients(s), n, target, 0) <= n
    ensures ProgressFor(m, s, n, target) < Sample(FirstAbove(m, SlopeCoefficients(s), n, target, 0), n)
  {
    var cs := SlopeCoefficients(s);
    var j := FirstAbove(m, cs, n, target, 0);
    BracketOrdered(m, s, n, j);
    InterpolateBelow(Sample(j, n), Running(m, cs, n, j + 1), Running(m, cs, n, j), target, n);
  }

  /** A stop after sample 0 lands at or after the sample before it. */
  lemma StopAbove(m: MathLib, s: Spline, n: int, target: real)
    requires Axioms(m) && 0 < n && 0 < FirstAbove(m, SlopeCoefficients(s), n, target, 0)
    ensures Sample(FirstAbove(m, SlopeCoefficients(s), n, target, 0) - 1, n) <= ProgressFor(m, s, n, target)
  {
    var cs := SlopeCoefficients(s);
    var j := FirstAbove(m, cs, n, target, 0);
    if j <= n {
      BracketOrdered(m, s, n, j);
      assert Running(m, cs, n, j) == Cum(m, cs, n, j - 1) <= target;
      InterpolateAbove(Sample(j, n), Running(m, cs, n, j + 1), Running(m, cs, n, j), target, n);
      assert Sample(j, n) - 1.0 / n as real == Sample(j - 1, n);
    }
  }

  /** Within one bracket the interpolation grows with the target. */
  lemma SameStop(m: MathLib, s: Spline, n: int, lo: real, hi: real)
    requires Axioms(m) && 0 < n && lo <= hi
    requires FirstAbove(m, SlopeCoefficients(s), n, lo, 0) == FirstAbove(m, SlopeCoefficients(s), n, hi, 0)
    ensures ProgressFor(m, s, n, lo) <= ProgressFor(m, s, n, hi)
  {
    var cs := SlopeCoefficients(s);
    var j := FirstAbove(m, cs, n, lo, 0);
    if j <= n {
      BracketOrdered(m, s, n, j);
      InterpolateMonotone(Sample(j, n), Running(m, cs, n, j + 1), Running(m, cs, n, j), lo, hi, n);
    }
  }

  /** `ProgressFor` never decreases as the target grows. */
  lemma ProgressForMonotone(m: MathLib, s: Spline, n: int, lo: real, hi: real)
    requires Axioms(m) && 0 < n && lo <= hi
    ensures ProgressFor(m, s, n, lo) <= ProgressFor(m, s, n, hi)
  {
    var cs := SlopeCoefficients(s);
    FirstAboveMonotone(m, cs, n, lo, hi, 0);
    var j1 := FirstAbove(m, cs, n, lo, 0);
    var j2 := FirstAbove(m, cs, n, hi, 0);
    if j1 == j2 {
      SameStop(m, s, n, lo, hi);
    } else {
      StopBelow(m, s, n, lo);
      StopAbove(m, s, n, hi);
      DivMonotone(j1 as real, (j2 - 1) as real, n as real);
    }
  }

  /**
    The parameter never decreases as the distance grows: a longer distance
    along the spline maps to a later point on it.
  */
  lemma ProgressMonotone(m: MathLib, s: Spline, d1: real, d2: real, sampleCount: int)
    requires Axioms(m) && sampleCount != 0 && 0.0 < s.knotDistance && d1 <= d2
    ensures Progress(m, s, d1, sampleCount) <= Progress(m, s, d2, sampleCount)
  {
    if 0 < sampleCount {
      DivMonotone(d1, d2, s.knotDistance);
      ProgressValue(m, s, d1, sampleCount);
      ProgressValue(m, s, d2, sampleCount);
      ProgressForMonotone(m, s, sampleCount, d1 / s.knotDistance, d2 / s.knotDistance);
    }
  }
}
