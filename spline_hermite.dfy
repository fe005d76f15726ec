/**
  The cubic Hermite spline object of spline/hermite.py.

  A spline is built between two waypoints and measured along their chord:
  the chord's heading is the angle offset, its length the hypotenuse
  distance, and the end tangents, scaled by that length, are the curve's
  coefficients. Everything the constructor derives is fixed afterwards; the
  only state `arc_length` changes is the cached length.
*/
module SplineHermite {
  import opened Transcendental
  import opened Records
  import opened HermiteCubic
  import SplineUtils

  /** `HermiteType.Cubic`; any other type value leaves the curve on its chord. */
  const CubicType: int := 0

  /** `hyp_distance`: the square root of dy^2 + dx^2, in the order the source adds them. */
  function HypDistance(m: MathLib, start: Waypoint, end: Waypoint): real
  {
    Hypot(m, end.y - start.y, end.x - start.x)
  }

  /** The hypotenuse distance is the length of the chord between the two waypoints. */
  lemma HypDistanceIsChord(m: MathLib, start: Waypoint, end: Waypoint)
    requires Axioms(m)
    ensures var dx, dy := end.x - start.x, end.y - start.y;
      var h := HypDistance(m, start, end);
      h == Hypot(m, dx, dy) && 0.0 <= h && h * h == dx * dx + dy * dy
  {
    var dx, dy := end.x - start.x, end.y - start.y;
    HypotSymmetric(m, dy, dx);
    SquareNonNeg(dx);
    SquareNonNeg(dy);
  }

  /** The x coordinate of the local point (x, y) rotated by the angle with cosine `cs` and sine `sn`, then moved by x0. */
  function PlaceX(x: real, y: real, cs: real, sn: real, x0: real): real
  {
    x * cs - y * sn + x0
  }

  /** The y coordinate of the same point, moved by y0. */
  function PlaceY(x: real, y: real, cs: real, sn: real, y0: real): real
  {
    x * sn + y * cs + y0
  }

  /** The local point (hyp, 0) at the far end of the chord, rotated and moved, is the far end of the chord. */
  lemma OnChordEnd(hyp: real, y: real, cs: real, sn: real, x0: real, y0: real, dx: real, dy: real)
    requires hyp * cs == dx && hyp * sn == dy && y == 0.0
    ensures PlaceX(hyp, y, cs, sn, x0) == x0 + dx && PlaceY(hyp, y, cs, sn, y0) == y0 + dy
  {}

  class Hermite {
    const kind: int
    const start: Waypoint
    const end: Waypoint
    const xOffset: real
    const yOffset: real
    const aOffset: real
    const hypDistance: real
    const tangent0: real
    const tangent1: real
    const a: real
    const b: real
    /** The cache key: set to 0 once and never stored again, since `arc_length` assigns the new key to a local. */
    const lastArcCalcSamples: int := 0
    var lastArcCalc: real

    /** What the constructor derives from the two waypoints. */
    predicate Derived(m: MathLib)
    {
      && xOffset == start.x && yOffset == start.y
      && aOffset == Atan2(m, end.y - start.y, end.x - start.x)
      && hypDistance == HypDistance(m, start, end)
      && tangent0 == Tan(m, start.angle - aOffset)
      && tangent1 == Tan(m, end.angle - aOffset)
      && a == tangent0 * hypDistance
      && b == tangent1 * hypDistance
    }

    constructor (m: MathLib, kind: int, start: Waypoint, end: Waypoint)
      ensures this.kind == kind && this.start == start && this.end == end
      ensures Derived(m) && lastArcCalc == 0.0
    {
      this.kind := kind;
      this.start := start;
      this.end := end;
      xOffset := start.x;
      yOffset := start.y;
      var dy := end.y - start.y;
      var dx := end.x - start.x;
      var angle := Atan2(m, dy, dx);
      var hyp := HypDistance(m, start, end);
      aOffset := angle;
      hypDistance := hyp;
      tangent0 := Tan(m, start.angle - angle);
      tangent1 := Tan(m, end.angle - angle);
      a := Tan(m, start.angle - angle) * hyp;
      b := Tan(m, end.angle - angle) * hyp;
      lastArcCalc := 0.0;
    }

    /** The offset from the chord at parameter t: the cubic for the cubic type, 0 otherwise. */
    function LocalOffset(t: real): real
    {
      if kind == CubicType then CubicY(a, b, t) else 0.0
    }

    /** `deriv` */
    function Deriv(t: real): real
    {
      CubicDeriv(a, b, t)
    }

    /** `calculate`: the local point (hyp * t, y(t)) rotated by the angle offset and moved to the start. */
    function Calculate(m: MathLib, t: real): SplineCoord
    {
      var x := hypDistance * t;
      var y := LocalOffset(t);
      SplineCoord(t,
        PlaceX(x, y, Cos(m, aOffset), Sin(m, aOffset), xOffset),
        PlaceY(x, y, Cos(m, aOffset), Sin(m, aOffset), yOffset),
        Atan(m, Deriv(t) + aOffset))
    }

    /** At t = 0 the spline is at the start waypoint, heading along atan(a + angle offset). */
    lemma CalculateStart(m: MathLib)
      requires Derived(m)
      ensures Calculate(m, 0.0) == SplineCoord(0.0, start.x, start.y, Atan(m, a + aOffset))
    {
      CubicEnds(a, b);
    }

    /** At t = 1 the spline is at the end waypoint, whatever its type. */
    lemma CalculateEnd(m: MathLib)
      requires Axioms(m) && Derived(m)
      ensures Calculate(m, 1.0).x == end.x && Calculate(m, 1.0).y == end.y
    {
      var dx, dy := end.x - start.x, end.y - start.y;
      var hyp, angle, y := Hypot(m, dx, dy), Atan2(m, dy, dx), LocalOffset(1.0);
      CubicEnds(a, b);
      HypDistanceIsChord(m, start, end);
      SplineUtils.PolarChord(m, dx, dy);
      assert hypDistance * 1.0 == hyp && aOffset == angle;
      OnChordEnd(hyp, y, Cos(m, angle), Sin(m, angle), xOffset, yOffset, dx, dy);
    }

    /** The rotation keeps distances: the point is as far from the start as (hyp * t, y(t)) is from the origin. */
    lemma CalculateKeepsLength(m: MathLib, t: real)
      requires Axioms(m)
      ensures var c := Calculate(m, t);
        (c.x - xOffset) * (c.x - xOffset) + (c.y - yOffset) * (c.y - yOffset)
        == (hypDistance * t) * (hypDistance * t) + LocalOffset(t) * LocalOffset(t)
    {
      var x, y, c, sn := hypDistance * t, LocalOffset(t), Cos(m, aOffset), Sin(m, aOffset);
      SplineUtils.RotationKeepsLength(x, y, c, sn);
    }

    /**
      `arc_length`: with a sample count other than the cache key (always 0)
      the length is recomputed and cached; with the key itself the cached
      value is returned.
    */
    method ArcLength(m: MathLib, samples: int) returns (r: real)
      modifies this
      ensures samples != lastArcCalcSamples ==> lastArcCalc == HermiteArcLength(m, a, b, hypDistance, samples)
      ensures samples == lastArcCalcSamples ==> lastArcCalc == old(lastArcCalc)
      ensures r == lastArcCalc
    {
      if lastArcCalcSamples != samples {
        var arcLength := HermiteSum(m, a, b, samples);
        lastArcCalc := hypDistance * arcLength;
      }
      r := lastArcCalc;
    }

    /** A freshly computed length is at least the chord. */
    lemma ArcLengthAtLeastChord(m: MathLib, samples: int)
      requires Axioms(m) && Derived(m) && 0 < samples
      ensures hypDistance <= HermiteArcLength(m, a, b, hypDistance, samples)
    {
      HypDistanceIsChord(m, start, end);
      HermiteArcLengthAtLeastChord(m, a, b, hypDistance, samples);
    }

    /** `get_splines`: one spline per adjacent pair of waypoints, in order. */
    static method GetSplines(m: MathLib, kind: int, waypoints: seq<Waypoint>) returns (splines: seq<Hermite>)
      ensures |splines| == if |waypoints| == 0 then 0 else |waypoints| - 1
      ensures forall i :: 0 <= i < |splines| ==>
        splines[i].start == waypoints[i] && splines[i].end == waypoints[i + 1]
        && splines[i].kind == kind && splines[i].Derived(m)
      ensures forall i :: 0 <= i < |splines| ==> fresh(splines[i]) && splines[i].lastArcCalc == 0.0
    {
      splines := [];
      var i := 0;
      while i < |waypoints| - 1
        invariant 0 <= i && |splines| == i
        invariant i == 0 || i <= |waypoints| - 1
        invariant forall j :: 0 <= j < i ==>
          splines[j].start == waypoints[j] && splines[j].end == waypoints[j + 1]
          && splines[j].kind == kind && splines[j].Derived(m)
        invariant forall j :: 0 <= j < i ==> fresh(splines[j]) && splines[j].lastArcCalc == 0.0
      {
        var spline := new Hermite(m, kind, waypoints[i], waypoints[i + 1]);
        splines := splines + [spline];
        i := i + 1;
      }
    }
  }
}
