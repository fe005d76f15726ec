/**
  Fitting a cubic or quintic spline between two waypoints (spline_generator.py).

  Both fits work in the frame of the chord from the first waypoint to the
  second: the chord's length is the knot distance and its heading the angle
  offset, so the spline has to leave the local x axis at 0 and come back to
  it at the knot distance, with the slopes the waypoint headings ask for.
*/
module SplineGenerator {
  import opened Wrappers
  import opened Transcendental
  import opened Records
  import opened Splines
  import MathUtil

  datatype FitType = Cubic | Quintic | Unrecognised

  /** The length of the chord from `a` to `b`. */
  function KnotDistance(m: MathLib, a: Waypoint, b: Waypoint): real
  {
    Hypot(m, b.x - a.x, b.y - a.y)
  }

  /** A blank spline placed at `a`, measured along the chord to `b`. */
  function Prepare(m: MathLib, a: Waypoint, b: Waypoint): (s: Spline)
    ensures s.xOffset == a.x && s.yOffset == a.y
    ensures s.knotDistance == KnotDistance(m, a, b)
    ensures s.angleOffset == Atan2(m, b.y - a.y, b.x - a.x)
  {
    Blank.(xOffset := a.x, yOffset := a.y,
           knotDistance := KnotDistance(m, a, b),
           angleOffset := Atan2(m, b.y - a.y, b.x - a.x))
  }

  /** The knot distance is the Euclidean chord length, and it is 0 exactly when the two points coincide. */
  lemma PrepareChord(m: MathLib, a: Waypoint, b: Waypoint)
    requires Axioms(m)
    ensures var k := Prepare(m, a, b).knotDistance;
      0.0 <= k && k * k == (b.x - a.x) * (b.x - a.x) + (b.y - a.y) * (b.y - a.y)
      && (k == 0.0 <==> (a.x == b.x && a.y == b.y))
  {
    var dx, dy := b.x - a.x, b.y - a.y;
    var k := KnotDistance(m, a, b);
    assert k * k == dx * dx + dy * dy;
    if dx != 0.0 {
      SquarePositive(dx);
      SquareNonNeg(dy);
    } else if dy != 0.0 {
      SquarePositive(dy);
      SquareNonNeg(dx);
    }
  }

  /** The slope, in the chord's frame, that a waypoint's heading asks for. */
  function EndSlope(m: MathLib, w: Waypoint, angleOffset: real): real
  {
    Tan(m, MathUtil.BoundRadians(w.angle - angleOffset))
  }

  /** The cubic coefficients for end slopes `a0` and `a1` over the knot distance of `p`. */
  function WithCubic(p: Spline, a0: real, a1: real): Spline
    requires p.knotDistance != 0.0
  {
    var k := p.knotDistance;
    p.(a := 0.0, b := 0.0, c := (a0 + a1) / (k * k), d := -(2.0 * a0 + a1) / k, e := a0)
  }

  lemma CubicEnds(p: Spline, a0: real, a1: real)
    requires p.knotDistance != 0.0
    ensures var s := WithCubic(p, a0, a1);
      LocalY(s, s.knotDistance) == 0.0 && LocalSlope(s, s.knotDistance) == a1
  {
    var k := p.knotDistance;
    PowersNonZero(k);
    var c := (a0 + a1) / (k * k);
    var d := -(2.0 * a0 + a1) / k;
    assert c * (k * k) == a0 + a1;
    assert d * k == -(2.0 * a0 + a1);
  }

  /**
    The cubic through both points: it starts and ends on the chord, leaves
    with the slope `a` asks for and arrives with the slope `b` asks for.
  */
  function CubicFit(m: MathLib, a: Waypoint, b: Waypoint): (s: Spline)
    requires KnotDistance(m, a, b) != 0.0
    ensures s == Prepare(m, a, b).(a := s.a, b := s.b, c := s.c, d := s.d, e := s.e)
    ensures s.a == 0.0 && s.b == 0.0
    ensures LocalY(s, 0.0) == 0.0 && LocalY(s, s.knotDistance) == 0.0
    ensures LocalSlope(s, 0.0) == EndSlope(m, a, s.angleOffset)
    ensures LocalSlope(s, s.knotDistance) == EndSlope(m, b, s.angleOffset)
  {
    var p := Prepare(m, a, b);
    var a0 := EndSlope(m, a, p.angleOffset);
    var a1 := EndSlope(m, b, p.angleOffset);
    CubicEnds(p, a0, a1);
    LocalAtZero(WithCubic(p, a0, a1));
    WithCubic(p, a0, a1)
  }

  /** The quintic coefficients for end slopes `a0` and `a1` over the knot distance of `p`. */
  function WithQuintic(p: Spline, a0: real, a1: real): Spline
    requires p.knotDistance != 0.0
  {
    var k := p.knotDistance;
    p.(a := -(3.0 * (a0 + a1)) / (k * k * k * k), b := (8.0 * a0 + 7.0 * a1) / (k * k * k),
       c := -(6.0 * a0 + 4.0 * a1) / (k * k), d := 0.0, e := a0)
  }

  lemma QuinticEnds(p: Spline, a0: real, a1: real)
    requires p.knotDistance != 0.0
    ensures var s := WithQuintic(p, a0, a1);
      LocalY(s, s.knotDistance) == 0.0 && LocalSlope(s, s.knotDistance) == a1
      && LocalCurvature(s, s.knotDistance) == 0.0
  {
    var k := p.knotDistance;
    PowersNonZero(k);
    var a := -(3.0 * (a0 + a1)) / (k * k * k * k);
    var b := (8.0 * a0 + 7.0 * a1) / (k * k * k);
    var c := -(6.0 * a0 + 4.0 * a1) / (k * k);
    assert a * (k * k * k * k) == -(3.0 * (a0 + a1));
    assert b * (k * k * k) == 8.0 * a0 + 7.0 * a1;
    assert c * (k * k) == -(6.0 * a0 + 4.0 * a1);
  }

  /**
    The quintic through both points: on the chord at both ends, the slopes
    the headings ask for, and no curvature at either end.
  */
  function QuinticFit(m: MathLib, a: Waypoint, b: Waypoint): (s: Spline)
    requires KnotDistance(m, a, b) != 0.0
    ensures s == Prepare(m, a, b).(a := s.a, b := s.b, c := s.c, d := s.d, e := s.e)
    ensures s.d == 0.0
    ensures LocalY(s, 0.0) == 0.0 && LocalY(s, s.knotDistance) == 0.0
    ensures LocalSlope(s, 0.0) == EndSlope(m, a, s.angleOffset)
    ensures LocalSlope(s, s.knotDistance) == EndSlope(m, b, s.angleOffset)
    ensures LocalCurvature(s, 0.0) == 0.0 && LocalCurvature(s, s.knotDistance) == 0.0
  {
    var p := Prepare(m, a, b);
    var a0 := EndSlope(m, a, p.angleOffset);
    var a1 := EndSlope(m, b, p.angleOffset);
    QuinticEnds(p, a0, a1);
    LocalAtZero(WithQuintic(p, a0, a1));
    WithQuintic(p, a0, a1)
  }

  /** `fit`: the generator's fit type picks the fit; any other type yields nothing. */
  function Fit(m: MathLib, fitType: FitType, a: Waypoint, b: Waypoint): (r: Option<Spline>)
    requires fitType != Unrecognised ==> KnotDistance(m, a, b) != 0.0
    ensures r.None? <==> fitType == Unrecognised
    ensures fitType == Cubic ==> r == Some(CubicFit(m, a, b))
    ensures fitType == Quintic ==> r == Some(QuinticFit(m, a, b))
  {
    match fitType
    case Cubic => Some(CubicFit(m, a, b))
    case Quintic => Some(QuinticFit(m, a, b))
    case Unrecognised => None
  }

  /** Either fit is placed at `a` and measured along the chord to `b`. */
  lemma FitPlaced(m: MathLib, fitType: FitType, a: Waypoint, b: Waypoint)
    requires fitType != Unrecognised && KnotDistance(m, a, b) != 0.0
    ensures var s := Fit(m, fitType, a, b).value;
      s.xOffset == a.x && s.yOffset == a.y && s.knotDistance == KnotDistance(m, a, b)
      && s.angleOffset == Atan2(m, b.y - a.y, b.x - a.x)
  {
    if fitType == Cubic {
      var s := CubicFit(m, a, b);
      assert s == Prepare(m, a, b).(a := s.a, b := s.b, c := s.c, d := s.d, e := s.e);
    } else {
      var s := QuinticFit(m, a, b);
      assert s == Prepare(m, a, b).(a := s.a, b := s.b, c := s.c, d := s.d, e := s.e);
    }
  }

  /** Either fit ends on the chord with the heading `b` asks for. */
  lemma FitEndpoints(m: MathLib, fitType: FitType, a: Waypoint, b: Waypoint)
    requires fitType != Unrecognised && KnotDistance(m, a, b) != 0.0
    ensures var s := Fit(m, fitType, a, b).value;
      LocalY(s, 0.0) == 0.0 && LocalY(s, s.knotDistance) == 0.0
      && LocalSlope(s, 0.0) == EndSlope(m, a, s.angleOffset)
      && LocalSlope(s, s.knotDistance) == EndSlope(m, b, s.angleOffset)
  {}
}
