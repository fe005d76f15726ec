/**
  The coupled (tank drive) trajectory generator (trajectory_generator.py).

  `generate` fits a Hermite spline between each pair of waypoints, sets the
  trapezoidal profile's setpoint to the summed arc length, and then calls
  `calculate` once per time step. Each call finds the spline the center
  track is on, takes the point of that spline at the distance travelled, puts
  the two wheel tracks at the wheelbase on either side of it, and splits the
  profile's velocity between the sides by the turning rate.

  One call ends in one of three ways: a segment, `None` once the center has
  covered the whole path, or an exception (an index past the last spline, an
  arc length that cannot be computed, a division by zero). The exception is
  `Fault`.
*/
module CoupledGenerator {
  import opened Wrappers
  import opened Transcendental
  import opened Records
  import HermiteCubic
  import SplinesHermite
  import ProfilesTrapezoidal

  /** Python's `math.pi`. */
  const Pi: real := 3.141592653589793

  datatype Outcome = Next(segment: CoupledSegment) | Finished | Fault

  /** What `arc_length(samples)` of splines/hermite.py yields: nothing when it raises. */
  function SplineLength(m: MathLib, h: SplinesHermite.Hermite, samples: int): Option<real>
  {
    if samples == h.lastArcCalcSamples || samples == 0 then None
    else Some(HermiteCubic.HermiteArcLength(m, h.a, h.b, h.hypDistance, samples))
  }

  /** `Spline.distance`: the sum of the splines' arc lengths, nothing if any of them fails. */
  function Total(m: MathLib, splines: seq<SplinesHermite.Hermite>, samples: int): Option<real>
    decreases |splines|
  {
    if |splines| == 0 then Some(0.0)
    else
      match (Total(m, splines[..|splines| - 1], samples), SplineLength(m, splines[|splines| - 1], samples))
      case (Some(d), Some(l)) => Some(d + l)
      case _ => None
  }

  /** The sum fails exactly when the arc length of some spline fails. */
  lemma {:induction false} TotalFails(m: MathLib, splines: seq<SplinesHermite.Hermite>, samples: int)
    ensures Total(m, splines, samples).None? <==>
      exists i :: 0 <= i < |splines| && SplineLength(m, splines[i], samples).None?
    decreases |splines|
  {
    if |splines| > 0 {
      var init := splines[..|splines| - 1];
      TotalFails(m, init, samples);
      if Total(m, init, samples).None? {
        var i :| 0 <= i < |init| && SplineLength(m, init[i], samples).None?;
        assert splines[i] == init[i];
      }
      if exists i :: 0 <= i < |splines| && SplineLength(m, splines[i], samples).None? {
        var i :| 0 <= i < |splines| && SplineLength(m, splines[i], samples).None?;
        if i < |init| {
          assert init[i] == splines[i];
        }
      }
    }
  }

  /** With samples > 0 and chords of non-negative length, the total path length is non-negative. */
  lemma {:induction false} TotalNonNegative(m: MathLib, splines: seq<SplinesHermite.Hermite>, samples: int)
    requires Axioms(m) && 0 < samples
    requires forall i :: 0 <= i < |splines| ==>
      splines[i].lastArcCalcSamples != samples && 0.0 <= splines[i].hypDistance
    ensures Total(m, splines, samples).Some? && 0.0 <= Total(m, splines, samples).value
    decreases |splines|
  {
    if |splines| > 0 {
      var init := splines[..|splines| - 1];
      var h := splines[|splines| - 1];
      TotalNonNegative(m, init, samples);
      HermiteCubic.HermiteArcLengthAtLeastChord(m, h.a, h.b, h.hypDistance, samples);
    }
  }

  lemma {:induction false} TotalPrefix(m: MathLib, splines: seq<SplinesHermite.Hermite>, samples: int, i: nat)
    requires i <= |splines| && Total(m, splines[..i], samples).None?
    ensures Total(m, splines, samples).None?
    decreases |splines| - i
  {
    if i < |splines| {
      assert splines[..i + 1][..i] == splines[..i];
      TotalPrefix(m, splines, samples, i + 1);
    } else {
      assert splines[..i] == splines;
    }
  }

  /** `Spline.distance`, adding up the arc lengths spline by spline. */
  method Distance(m: MathLib, splines: seq<SplinesHermite.Hermite>, samples: int) returns (r: Option<real>)
    ensures r == Total(m, splines, samples)
  {
    var dist := 0.0;
    var i := 0;
    while i < |splines|
      invariant i <= |splines|
      invariant Total(m, splines[..i], samples) == Some(dist)
    {
      var length := SplinesHermite.ArcLength(m, splines[i], samples);
      assert splines[..i + 1][..i] == splines[..i];
      if length.None? {
        TotalPrefix(m, splines, samples, i + 1);
        return None;
      }
      dist := dist + length.value;
      i := i + 1;
    }
    assert splines[..i] == splines;
    r := Some(dist);
  }

  /** The two rules of lines 88-91 as written: a turn beyond pi becomes 2 pi - a, one below -pi becomes 2 pi + a. */
  function WrapAsWritten(a: real): real
  {
    var a1 := if a > Pi then 2.0 * Pi - a else a;
    if a1 < -Pi then 2.0 * Pi + a1 else a1
  }

  /** The shortest turn: a turn beyond pi is taken the other way round, a - 2 pi. */
  function Wrap(a: real): (r: real)
    ensures -2.0 * Pi < a < 2.0 * Pi ==> -Pi <= r <= Pi
    ensures r == a || r == a - 2.0 * Pi || r == a + 2.0 * Pi
  {
    var a1 := if a > Pi then a - 2.0 * Pi else a;
    if a1 < -Pi then 2.0 * Pi + a1 else a1
  }

  /**
    As written, a turn a with pi < a < 2 pi comes out as the mirror image of
    the shortest turn: the same size, the opposite direction. From a heading
    of 0.1 to one of 6.2 the robot turns 0.18 rad clockwise, and the source
    records 0.18 rad counterclockwise.
  */
  lemma WrapAsWrittenReverses(a: real)
    requires Pi < a < 2.0 * Pi
    ensures WrapAsWritten(a) == -Wrap(a) && 0.0 < WrapAsWritten(a)
  {}

  /** Both rules agree on every turn that is not beyond pi. */
  lemma WrapAgrees(a: real)
    requires -2.0 * Pi < a <= Pi
    ensures WrapAsWritten(a) == Wrap(a)
  {}

  /**
    Lines 92-95 as written: the division by dt comes before the `t == 0`
    override, so dt = 0 raises even at t = 0.
  */
  function AngularVelocityAsWritten(turn: real, t: real, dt: real): (r: Option<real>)
    ensures r.None? <==> dt == 0.0
  {
    if dt == 0.0 then None
    else if t == 0.0 then Some(0.0)
    else Some(turn / dt)
  }

  /**
    `generate` makes its first call at t = 0 with a fresh previous segment,
    whose time is 0, so as written that call always raises and `generate`
    never returns a trajectory.
  */
  lemma FirstCallFaults(turn: real)
    ensures AngularVelocityAsWritten(turn, 0.0, 0.0 - ZeroCoupledSegment.center.time).None?
  {}

  /** The rate of turn with the `t == 0` override taken before dividing: at t = 0 it is 0, otherwise turn / dt. */
  function AngularVelocity(turn: real, t: real, dt: real): (r: Option<real>)
    ensures r.None? <==> (t != 0.0 && dt == 0.0)
    ensures t == 0.0 ==> r == Some(0.0)
    ensures r.Some? && t != 0.0 ==> r.value * dt == turn
    ensures dt != 0.0 ==> r == AngularVelocityAsWritten(turn, t, dt)
  {
    if t == 0.0 then Some(0.0)
    else if dt == 0.0 then None
    else Some(turn / dt)
  }

  /** The heading change since the previous segment, wrapped by the rules of lines 88-91 as written; 0 on the first call. */
  function Turn(coord: SplineCoord, t: real, previous: CoupledSegment): (r: real)
    ensures t == 0.0 ==> r == 0.0
    ensures t != 0.0 ==> r == WrapAsWritten(coord.angle - previous.center2d.angle)
  {
    var previousAngle := if t == 0.0 then coord.angle else previous.center2d.angle;
    WrapAsWritten(coord.angle - previousAngle)
  }

  /**
    The center point and the two wheel points at the wheelbase `w` on
    either side of it, perpendicular to the heading; all three keep the heading.
  */
  function Sides(c: SplineCoord, w: real, cosa: real, sina: real): (r: (Segment2D, Segment2D, Segment2D))
    ensures r.0 == Segment2D(c.x, c.y, c.angle)
    ensures r.1.angle == c.angle && r.2.angle == c.angle
    ensures (r.1.x + r.2.x) / 2.0 == c.x && (r.1.y + r.2.y) / 2.0 == c.y
    ensures r.1.x - c.x == -(w * sina) && r.1.y - c.y == w * cosa
  {
    (Segment2D(c.x, c.y, c.angle),
     Segment2D(c.x - w * sina, c.y + w * cosa, c.angle),
     Segment2D(c.x + w * sina, c.y - w * cosa, c.angle))
  }

  lemma Apart(w: real, sn: real, cs: real)
    requires sn * sn + cs * cs == 1.0
    ensures (2.0 * w * sn) * (2.0 * w * sn) + (2.0 * w * cs) * (2.0 * w * cs) == 4.0 * w * w
  {
    assert (2.0 * w * sn) * (2.0 * w * sn) + (2.0 * w * cs) * (2.0 * w * cs)
      == 4.0 * w * w * (sn * sn + cs * cs);
  }

  /** The two wheel points are two wheelbases apart, whatever the heading. */
  lemma SidesApart(m: MathLib, c: SplineCoord, w: real)
    requires Axioms(m)
    ensures var r := Sides(c, w, Cos(m, c.angle), Sin(m, c.angle));
      (r.2.x - r.1.x) * (r.2.x - r.1.x) + (r.2.y - r.1.y) * (r.2.y - r.1.y) == 4.0 * w * w
  {
    var sn, cs := Sin(m, c.angle), Cos(m, c.angle);
    var r := Sides(c, w, cs, sn);
    assert r.2.x - r.1.x == 2.0 * w * sn;
    assert r.2.y - r.1.y == -(2.0 * w * cs);
    Apart(w, sn, cs);
  }

  /**
    The side velocities: turning counterclockwise the right side is the
    faster and takes the profile velocity, otherwise the left side does; the
    right side is always `tangential` faster than the left.
  */
  function SideSpeeds(angularVelocity: real, tangential: real, v: real): (r: (real, real))
    ensures r.1 - r.0 == tangential
    ensures if angularVelocity > 0.0 then r.1 == v else r.0 == v
  {
    if angularVelocity > 0.0 then (v - tangential, v) else (v, v + tangential)
  }

  /**
    One track advanced by a step of dt at velocity v: the distance grows by
    v dt, and the acceleration is the backward difference of the velocity,
    or `held` when dt = 0.
  */
  function Advance(previous: ProfileSegment, t: real, v: real, dt: real, held: real): (r: ProfileSegment)
    ensures r.time == t && r.velocity == v
    ensures r.distance - previous.distance == v * dt
    ensures dt == 0.0 ==> r.acceleration == held && r.distance == previous.distance
    ensures dt != 0.0 ==> r.acceleration * dt == v - previous.velocity
  {
    ProfileSegment(t, previous.distance + v * dt, v,
      if dt == 0.0 then held else (v - previous.velocity) / dt)
  }

  /**
    Lines 73-140 of `calculate` once the turning rate and the profile's step
    are known: the 2D points and the three 1D tracks. The center track runs
    at the average of the two side velocities, and every track is stamped t.
  */
  function Compose(m: MathLib, wheelbase: real, coord: SplineCoord, t: real, dt: real, rate: real,
                   profiled: ProfileSegment, previous: CoupledSegment): (s: CoupledSegment)
    ensures s.center.time == t && s.left.time == t && s.right.time == t
    ensures s.center.velocity == (s.left.velocity + s.right.velocity) / 2.0
    ensures s.center2d == Segment2D(coord.x, coord.y, coord.angle)
    ensures (s.left2d.x + s.right2d.x) / 2.0 == s.center2d.x
    ensures (s.left2d.y + s.right2d.y) / 2.0 == s.center2d.y
  {
    var speeds := SideSpeeds(rate, rate * wheelbase, profiled.velocity);
    var vl, vr := speeds.0, speeds.1;
    var centerSpeed := (vl + vr) / 2.0;
    var points := Sides(coord, wheelbase, Cos(m, coord.angle), Sin(m, coord.angle));
    CoupledSegment(
      Advance(previous.center, t, centerSpeed, dt, profiled.acceleration),
      Advance(previous.left, t, vl, dt, previous.center.acceleration),
      Advance(previous.right, t, vr, dt, previous.center.acceleration),
      points.0, points.1, points.2)
  }

  /**
    The velocities of a composed segment: the faster side runs at the
    profile's velocity, the right side is faster than the left by the turning
    rate times the wheelbase, and at rate 0 all three run at the profile's
    velocity.
  */
  lemma ComposeSpeeds(m: MathLib, wheelbase: real, coord: SplineCoord, t: real, dt: real, rate: real,
                      profiled: ProfileSegment, previous: CoupledSegment)
    ensures var s := Compose(m, wheelbase, coord, t, dt, rate, profiled, previous);
      && s.right.velocity - s.left.velocity == rate * wheelbase
      && (if rate > 0.0 then s.right.velocity == profiled.velocity else s.left.velocity == profiled.velocity)
      && (rate == 0.0 ==>
            s.left.velocity == profiled.velocity && s.right.velocity == profiled.velocity
            && s.center.velocity == profiled.velocity)
  {}

  /**
    Each track advances from its own previous track by its own velocity
    times dt, and its acceleration is the backward difference over dt; at
    dt = 0 the distances stay put, the center keeps the profile's
    acceleration and both sides take the previous center's.
  */
  lemma ComposeTracks(m: MathLib, wheelbase: real, coord: SplineCoord, t: real, dt: real, rate: real,
                      profiled: ProfileSegment, previous: CoupledSegment)
    ensures var s := Compose(m, wheelbase, coord, t, dt, rate, profiled, previous);
      && s.center.distance - previous.center.distance == s.center.velocity * dt
      && s.left.distance - previous.left.distance == s.left.velocity * dt
      && s.right.distance - previous.right.distance == s.right.velocity * dt
      && (dt == 0.0 ==>
            s.center.acceleration == profiled.acceleration
            && s.left.acceleration == previous.center.acceleration
            && s.right.acceleration == previous.center.acceleration)
      && (dt != 0.0 ==>
            s.center.acceleration * dt == s.center.velocity - previous.center.velocity
            && s.left.acceleration * dt == s.left.velocity - previous.left.velocity
            && s.right.acceleration * dt == s.right.velocity - previous.right.velocity)
  {}

  /**
    Lines 63-140 of `calculate` once the spline point is known: the turning
    rate since the previous segment and the profile's step from the previous
    center, composed into a segment. The rate is divided by dt before the
    `t == 0` override, as written, so it raises whenever dt = 0, the first
    call included; it also raises when the profile divides by a zero
    acceleration.
  */
  function Build(m: MathLib, profile: ProfilesTrapezoidal.Trapezoidal, wheelbase: real,
                 coord: SplineCoord, t: real, previous: CoupledSegment): (r: Option<CoupledSegment>)
    ensures r.None? <==> t == previous.center.time || profile.acceleration == 0.0
    ensures r.Some? ==> r.value.center.time == t
  {
    var dt := t - previous.center.time;
    var rate := AngularVelocityAsWritten(Turn(coord, t, previous), t, dt);
    var step := ProfilesTrapezoidal.Calculate(profile, t, Some(previous.center));
    if rate.None? || step.None? then None
    else Some(Compose(m, wheelbase, coord, t, dt, rate.value, step.value.segment, previous))
  }

  /** What the generator holds while `calculate` runs; only the spline index changes. */
  datatype Plan = Plan(
    config: Config,
    wheelbase: real,
    splines: seq<SplinesHermite.Hermite>,
    profile: ProfilesTrapezoidal.Trapezoidal,
    totalDistance: real,
    completedSplinesLength: real)

  /**
    One call of `calculate` from spline index k: the outcome and the new
    index. The index moves on to the next spline when the distance travelled
    has passed the end of the current one, and never by more than one.
  */
  /**
    The first half of `calculate`: the spline the center is on and its arc
    length. The index moves to the next spline once the current one ends
    before the center's distance; an index past the last spline, a failed
    arc length or a zero length is a fault (`None`).
  */
  function Locate(m: MathLib, p: Plan, k: nat, current: real): (r: (Option<real>, nat))
    ensures r.1 == k || r.1 == k + 1
    ensures r.0.Some? ==> r.1 < |p.splines| && r.0.value != 0.0
    ensures r.0.Some? ==> r.0 == SplineLength(m, p.splines[r.1], p.config.sampleCount)
  {
    var n := p.config.sampleCount;
    if k >= |p.splines| then (None, k)
    else match SplineLength(m, p.splines[k], n)
      case None => (None, k)
      case Some(length) =>
        var k' := if p.completedSplinesLength + length < current then k + 1 else k;
        if k' >= |p.splines| then (None, k')
        else match SplineLength(m, p.splines[k'], n)
          case None => (None, k')
          case Some(length') => if length' == 0.0 then (None, k') else (Some(length'), k')
  }

  /** The second half of `calculate`: the point at the center's share of spline k, and the segment built there. */
  function Place(m: MathLib, p: Plan, k: nat, length: real, t: real, previous: CoupledSegment): (r: Outcome)
    requires k < |p.splines| && length != 0.0
    ensures !r.Finished?
    ensures r.Next? ==> r.segment.center.time == t
  {
    var coord := SplinesHermite.Calculate(m, p.splines[k], (previous.center.distance - p.completedSplinesLength) / length);
    match Build(m, p.profile, p.wheelbase, coord, t, previous)
    case None => Fault
    case Some(s) => Next(s)
  }

  /**
    `calculate` as a function of the generator's fixed state: the outcome
    and the spline index afterwards. It is finished once the center has
    reached the total distance; otherwise it locates the spline and places
    the segment on it.
  */
  function Step(m: MathLib, p: Plan, k: nat, t: real, previous: CoupledSegment): (r: (Outcome, nat))
    ensures r.0.Finished? <==> previous.center.distance >= p.totalDistance
    ensures r.1 == k || r.1 == k + 1
    ensures r.0.Finished? ==> r.1 == k
    ensures r.0.Next? ==> r.1 < |p.splines| && r.0.segment.center.time == t
  {
    if previous.center.distance >= p.totalDistance then (Finished, k)
    else
      var located := Locate(m, p, k, previous.center.distance);
      if located.0.None? then (Fault, located.1)
      else (Place(m, p, located.1, located.0.value, t, previous), located.1)
  }

  /** `segments` followed by what the rest of the run produced; a fault anywhere is a fault of the whole. */
  function Prefixed(segments: seq<CoupledSegment>, rest: (Option<seq<CoupledSegment>>, nat)): (Option<seq<CoupledSegment>>, nat)
  {
    (if rest.0.Some? then Some(segments + rest.0.value) else None, rest.1)
  }

  /** A `calculate`: from a spline index, a time and the previous segment to an outcome and a new index. */
  type Stepper = (nat, real, CoupledSegment) -> (Outcome, nat)

  /**
    The loop of `generate` over `count` splines, from spline index k, time t
    and previous segment `previous`, for at most `fuel` more steps: the
    segments produced (nothing on a fault) and the final spline index. It
    goes on while the center is short of `total` and the index is in range,
    stops on `None`, and advances t by dt per segment.
  */
  function Loop(step: Stepper, dt: real, total: real, count: nat, k: nat, t: real, previous: CoupledSegment, fuel: nat)
    : (Option<seq<CoupledSegment>>, nat)
    decreases fuel
  {
    if fuel == 0 || !(previous.center.distance < total && k < count) then (Some([]), k)
    else
      var r := step(k, t, previous);
      match r.0
      case Finished => (Some([]), r.1)
      case Fault => (None, r.1)
      case Next(s) => Prefixed([s], Loop(step, dt, total, count, r.1, t + dt, s, fuel - 1))
  }

  /** A stepper that moves the spline index by at most one and stamps its segment with the time it was asked for. */
  ghost predicate Advances(step: Stepper)
  {
    forall k: nat, t: real, previous: CoupledSegment ::
      && (step(k, t, previous).1 == k || step(k, t, previous).1 == k + 1)
      && (step(k, t, previous).0.Next? ==> step(k, t, previous).0.segment.center.time == t)
  }

  /** `calculate` of a generator holding `p`. */
  function Calculator(m: MathLib, p: Plan): Stepper
  {
    (k: nat, t: real, previous: CoupledSegment) => Step(m, p, k, t, previous)
  }

  lemma CalculatorAdvances(m: MathLib, p: Plan)
    ensures Advances(Calculator(m, p))
  {
    forall k: nat, t: real, previous: CoupledSegment
      ensures var r := Calculator(m, p)(k, t, previous);
        (r.1 == k || r.1 == k + 1) && (r.0.Next? ==> r.0.segment.center.time == t)
    {
      assert Calculator(m, p)(k, t, previous) == Step(m, p, k, t, previous);
    }
  }

  /** The loop of `generate` for a generator holding `p`. */
  function Run(m: MathLib, p: Plan, k: nat, t: real, previous: CoupledSegment, fuel: nat): (Option<seq<CoupledSegment>>, nat)
  {
    Loop(Calculator(m, p), p.config.dt, p.totalDistance, |p.splines|, k, t, previous, fuel)
  }

  /** The spline index grows by at most one per step of the loop. */
  lemma {:induction false} LoopIndex(step: Stepper, dt: real, total: real, count: nat, k: nat, t: real,
                                     previous: CoupledSegment, fuel: nat)
    requires Advances(step)
    ensures k <= Loop(step, dt, total, count, k, t, previous, fuel).1 <= k + fuel
    decreases fuel
  {
    if fuel != 0 && previous.center.distance < total && k < count {
      var r := step(k, t, previous);
      if r.0.Next? {
        LoopIndex(step, dt, total, count, r.1, t + dt, r.0.segment, fuel - 1);
      }
    }
  }

  /** The i-th segment is stamped with time t + i dt. */
  predicate Stamped(segments: seq<CoupledSegment>, t: real, dt: real)
  {
    forall i :: 0 <= i < |segments| ==> segments[i].center.time == t + i as real * dt
  }

  lemma StampedCons(s: CoupledSegment, rest: seq<CoupledSegment>, t: real, dt: real)
    requires s.center.time == t && Stamped(rest, t + dt, dt)
    ensures Stamped([s] + rest, t, dt)
  {
    forall i | 0 < i < |rest| + 1
      ensures ([s] + rest)[i].center.time == t + i as real * dt
    {
      assert ([s] + rest)[i] == rest[i - 1];
      assert (t + dt) + (i - 1) as real * dt == t + i as real * dt;
    }
  }

  /** Every segment but the last leaves the center short of the total distance. */
  predicate Short(segments: seq<CoupledSegment>, total: real)
  {
    forall i :: 0 <= i < |segments| - 1 ==> segments[i].center.distance < total
  }

  lemma ShortCons(s: CoupledSegment, rest: seq<CoupledSegment>, total: real)
    requires Short(rest, total) && (rest != [] ==> s.center.distance < total)
    ensures Short([s] + rest, total)
  {
    forall i | 0 < i < |rest|
      ensures ([s] + rest)[i].center.distance < total
    {
      assert ([s] + rest)[i] == rest[i - 1];
    }
  }

  /**
    A loop that does not fault yields at most `fuel` segments, the i-th
    stamped with time t + i dt, every one but the last short of the total
    distance, and none at all unless the previous segment is short of it.
  */
  lemma {:induction false} LoopSegments(step: Stepper, dt: real, total: real, count: nat, k: nat, t: real,
                                        previous: CoupledSegment, fuel: nat)
    requires Advances(step)
    ensures var r := Loop(step, dt, total, count, k, t, previous, fuel).0;
      r.Some? ==>
        && |r.value| <= fuel
        && Stamped(r.value, t, dt)
        && Short(r.value, total)
        && (r.value != [] ==> previous.center.distance < total)
    decreases fuel
  {
    if fuel != 0 && previous.center.distance < total && k < count {
      var r := step(k, t, previous);
      if r.0.Next? {
        var s := r.0.segment;
        LoopSegments(step, dt, total, count, r.1, t + dt, s, fuel - 1);
        var rest := Loop(step, dt, total, count, r.1, t + dt, s, fuel - 1).0;
        if rest.Some? {
          StampedCons(s, rest.value, t, dt);
          ShortCons(s, rest.value, total);
        }
      }
    }
  }

  /**
    `generate`'s loop from a fresh start: the spline index ends within `fuel`
    of 0, and a run without a fault yields at most `fuel` segments, the i-th
    at time i dt, all but the last short of the total distance.
  */
  lemma RunFromStart(m: MathLib, p: Plan, fuel: nat)
    ensures var r := Run(m, p, 0, 0.0, ZeroCoupledSegment, fuel);
      && r.1 <= fuel
      && (r.0.Some? ==>
            |r.0.value| <= fuel && Stamped(r.0.value, 0.0, p.config.dt)
            && Short(r.0.value, p.totalDistance))
  {
    CalculatorAdvances(m, p);
    LoopIndex(Calculator(m, p), p.config.dt, p.totalDistance, |p.splines|, 0, 0.0, ZeroCoupledSegment, fuel);
    LoopSegments(Calculator(m, p), p.config.dt, p.totalDistance, |p.splines|, 0, 0.0, ZeroCoupledSegment, fuel);
  }

  /**
    As written, `generate` never yields a trajectory once there is a
    distance to cover: its first `calculate` runs at t = 0 from a fresh
    segment stamped 0, and either fails to locate a spline or divides the
    turn by dt = 0.
  */
  lemma RunFirstCallFaults(m: MathLib, p: Plan, fuel: nat)
    requires 0 < fuel && 0.0 < p.totalDistance && 0 < |p.splines|
    ensures Run(m, p, 0, 0.0, ZeroCoupledSegment, fuel).0.None?
  {
    var r := Step(m, p, 0, 0.0, ZeroCoupledSegment);
    var located := Locate(m, p, 0, ZeroCoupledSegment.center.distance);
    if located.0.Some? {
      var coord := SplinesHermite.Calculate(m, p.splines[located.1],
        (ZeroCoupledSegment.center.distance - p.completedSplinesLength) / located.0.value);
      assert Build(m, p.profile, p.wheelbase, coord, 0.0, ZeroCoupledSegment).None?;
    }
    assert r.0.Fault?;
    RunFault(m, p, 0, 0.0, ZeroCoupledSegment, fuel, r.1);
  }

  /** A step that yields a segment puts it in front of the rest of the run. */
  lemma RunNext(m: MathLib, p: Plan, k: nat, t: real, previous: CoupledSegment, fuel: nat, s: CoupledSegment, k': nat,
                later: real, left: nat)
    requires 0 < fuel && previous.center.distance < p.totalDistance && k < |p.splines|
    requires Step(m, p, k, t, previous) == (Next(s), k')
    requires later == t + p.config.dt && left + 1 == fuel
    ensures Run(m, p, k, t, previous, fuel) == Prefixed([s], Run(m, p, k', later, s, left))
  {
    assert Calculator(m, p)(k, t, previous) == Step(m, p, k, t, previous);
  }

  /** A step that raises ends the run with the exception. */
  lemma RunFault(m: MathLib, p: Plan, k: nat, t: real, previous: CoupledSegment, fuel: nat, k': nat)
    requires 0 < fuel && previous.center.distance < p.totalDistance && k < |p.splines|
    requires Step(m, p, k, t, previous) == (Fault, k')
    ensures Run(m, p, k, t, previous, fuel) == (None, k')
  {
    assert Calculator(m, p)(k, t, previous) == Step(m, p, k, t, previous);
  }

  /** A loop out of fuel, at the end of the path or past the last spline produces nothing more. */
  lemma RunStops(m: MathLib, p: Plan, k: nat, t: real, previous: CoupledSegment, fuel: nat)
    requires !(0 < fuel && previous.center.distance < p.totalDistance && k < |p.splines|)
    ensures Run(m, p, k, t, previous, fuel) == (Some([]), k)
  {}

  lemma PrefixedNothing(rest: (Option<seq<CoupledSegment>>, nat))
    ensures Prefixed([], rest) == rest
  {
    if rest.0.Some? {
      assert [] + rest.0.value == rest.0.value;
    }
  }

  /** Taking one more segment off the rest of a run and onto the collected ones. */
  lemma PrefixedAppend(whole: (Option<seq<CoupledSegment>>, nat), segments: seq<CoupledSegment>,
                       now: (Option<seq<CoupledSegment>>, nat), s: CoupledSegment, rest: (Option<seq<CoupledSegment>>, nat))
    requires whole == Prefixed(segments, now) && now == Prefixed([s], rest)
    ensures whole == Prefixed(segments + [s], rest)
  {
    if rest.0.Some? {
      assert segments + ([s] + rest.0.value) == (segments + [s]) + rest.0.value;
    }
  }

  class TrajectoryGenerator {
    const config: Config
    const kind: SplinesHermite.SplineType
    /** The source reads `self.wheelbase` without ever setting it; here it is given to the constructor. */
    const wheelbase: real
    var profile: ProfilesTrapezoidal.Trapezoidal
    var waypoints: seq<Waypoint>
    var splines: seq<SplinesHermite.Hermite>
    var totalDistance: real
    var completedSplinesLength: real
    var splineNumber: nat

    function Frozen(): Plan
      reads this
    {
      Plan(config, wheelbase, splines, profile, totalDistance, completedSplinesLength)
    }

    /** The profile is the trapezoid of the configuration's limits, its setpoint still 0. */
    constructor(config: Config, kind: SplinesHermite.SplineType, wheelbase: real)
      ensures this.config == config && this.kind == kind && this.wheelbase == wheelbase
      ensures profile == ProfilesTrapezoidal.Trapezoidal(0.0, config.maxVelocity, config.maxAcceleration)
      ensures waypoints == [] && splines == [] && totalDistance == 0.0
      ensures completedSplinesLength == 0.0 && splineNumber == 0
    {
      this.config := config;
      this.kind := kind;
      this.wheelbase := wheelbase;
      profile := ProfilesTrapezoidal.Trapezoidal(0.0, config.maxVelocity, config.maxAcceleration);
      waypoints := [];
      splines := [];
      totalDistance := 0.0;
      completedSplinesLength := 0.0;
      splineNumber := 0;
    }

    /** `calculate`: one step of the trajectory from `previous`; only the spline index changes. */
    method Calculate(m: MathLib, t: real, previous: CoupledSegment) returns (r: Outcome)
      modifies this
      ensures Frozen() == old(Frozen()) && waypoints == old(waypoints)
      ensures (r, splineNumber) == Step(m, Frozen(), old(splineNumber), t, previous)
    {
      if previous.center.distance >= totalDistance {
        return Finished;
      }
      var length := Seek(m, previous.center.distance);
      if length.None? {
        return Fault;
      }
      r := Position(m, length.value, t, previous);
    }

    /** The second half of `calculate`: the segment at the center's share of the current spline. */
    method Position(m: MathLib, length: real, t: real, previous: CoupledSegment) returns (r: Outcome)
      requires splineNumber < |splines| && length != 0.0
      ensures r == Place(m, Frozen(), splineNumber, length, t, previous)
    {
      var progress := (previous.center.distance - completedSplinesLength) / length;
      var coord := SplinesHermite.Calculate(m, splines[splineNumber], progress);
      var segment := Build(m, profile, wheelbase, coord, t, previous);
      r := if segment.Some? then Next(segment.value) else Fault;
    }

    /** The first half of `calculate`: move to the next spline when the current one ends short of `current`. */
    method Seek(m: MathLib, current: real) returns (length: Option<real>)
      modifies this
      ensures Frozen() == old(Frozen()) && waypoints == old(waypoints)
      ensures (length, splineNumber) == Locate(m, Frozen(), old(splineNumber), current)
    {
      if splineNumber >= |splines| {
        return None;
      }
      length := SplinesHermite.ArcLength(m, splines[splineNumber], config.sampleCount);
      if length.None? {
        return;
      }
      if completedSplinesLength + length.value < current {
        splineNumber := splineNumber + 1;
        if splineNumber >= |splines| {
          return None;
        }
        length := SplinesHermite.ArcLength(m, splines[splineNumber], config.sampleCount);
        if length.None? {
          return;
        }
      }
      if length.value == 0.0 {
        length := None;
      }
    }

    /**
      `generate`: fit the splines, aim the profile at their total length and
      collect segments, t advancing by dt, while the center is short of the
      total and the spline index is in range, for at most `fuel` steps.
      Only HERMITE_CUBIC has a spline class; any other type raises.
    */
    method Generate(m: MathLib, waypoints: seq<Waypoint>, fuel: nat) returns (r: Option<seq<CoupledSegment>>)
      modifies this
      ensures this.waypoints == waypoints
      ensures kind != SplinesHermite.Cubic ==>
        r.None? && Frozen() == old(Frozen()) && splineNumber == old(splineNumber)
      ensures kind == SplinesHermite.Cubic ==>
        |splines| == (if |waypoints| == 0 then 0 else |waypoints| - 1)
      ensures kind == SplinesHermite.Cubic ==> forall i :: 0 <= i < |splines| ==>
        splines[i] == SplinesHermite.Make(m, SplinesHermite.Cubic, waypoints[i], waypoints[i + 1])
      ensures kind == SplinesHermite.Cubic && Total(m, splines, config.sampleCount).None? ==>
        && r.None? && profile == old(profile) && totalDistance == old(totalDistance)
        && completedSplinesLength == old(completedSplinesLength) && splineNumber == old(splineNumber)
      ensures kind == SplinesHermite.Cubic && Total(m, splines, config.sampleCount).Some? ==>
        && totalDistance == Total(m, splines, config.sampleCount).value
        && profile == old(profile).(setpoint := totalDistance)
        && completedSplinesLength == 0.0
        && (r, splineNumber) == Run(m, Frozen(), 0, 0.0, ZeroCoupledSegment, fuel)
        && (0 < fuel && 0.0 < totalDistance && 0 < |splines| ==> r.None?)
    {
      this.waypoints := waypoints;
      if kind != SplinesHermite.Cubic {
        return None;
      }
      splines := SplinesHermite.GetSplines(m, kind, waypoints);
      var total := Distance(m, splines, config.sampleCount);
      if total.None? {
        return None;
      }
      totalDistance := total.value;
      profile := profile.(setpoint := total.value);
      completedSplinesLength := 0.0;
      splineNumber := 0;
      var segments;
      r, segments := Walk(m, fuel);
      if 0 < fuel && 0.0 < totalDistance && 0 < |splines| {
        RunFirstCallFaults(m, Frozen(), fuel);
      }
    }

    /** One turn of `generate`'s loop: `calculate`, and what its outcome makes of the rest of the run. */
    method Tick(m: MathLib, t: real, previous: CoupledSegment, ghost plan: Plan, ghost k: nat, ghost fuel: nat,
                ghost now: (Option<seq<CoupledSegment>>, nat), later: real, ghost left: nat)
      returns (outcome: Outcome, ghost k': nat, ghost tail: (Option<seq<CoupledSegment>>, nat))
      requires Frozen() == plan && splineNumber == k && now == Run(m, plan, k, t, previous, fuel)
      requires 0 < fuel && previous.center.distance < plan.totalDistance && k < |plan.splines|
      requires later == t + plan.config.dt && left + 1 == fuel
      modifies this
      ensures Frozen() == plan && waypoints == old(waypoints) && splineNumber == k' && !outcome.Finished?
      ensures outcome.Fault? ==> now == (None, k')
      ensures outcome.Next? ==> tail == Run(m, plan, k', later, outcome.segment, left) && now == Prefixed([outcome.segment], tail)
    {
      outcome := Calculate(m, t, previous);
      k' := splineNumber;
      tail := now;
      if outcome.Fault? {
        RunFault(m, plan, k, t, previous, fuel, k');
      } else if outcome.Next? {
        RunNext(m, plan, k, t, previous, fuel, outcome.segment, k', later, left);
        tail := Run(m, plan, k', later, outcome.segment, left);
      }
    }

    /** The loop of `generate`, from a fresh previous segment at t = 0. */
    method Walk(m: MathLib, fuel: nat) returns (r: Option<seq<CoupledSegment>>, segments: seq<CoupledSegment>)
      modifies this
      ensures Frozen() == old(Frozen()) && waypoints == old(waypoints)
      ensures (r, splineNumber) == Run(m, Frozen(), old(splineNumber), 0.0, ZeroCoupledSegment, fuel)
    {
      ghost var plan := Frozen();
      ghost var k: nat := splineNumber;
      ghost var whole := Run(m, plan, k, 0.0, ZeroCoupledSegment, fuel);
      ghost var now := whole;
      ghost var rest: nat := fuel;
      var previous := ZeroCoupledSegment;
      var t := 0.0;
      var steps: nat := 0;
      segments := [];
      PrefixedNothing(whole);
      while steps < fuel && previous.center.distance < totalDistance && splineNumber < |splines|
        invariant Frozen() == plan && waypoints == old(waypoints) && splineNumber == k
        invariant steps + rest == fuel
        invariant whole == Prefixed(segments, now)
        invariant now == Run(m, plan, k, t, previous, rest)
      {
        var later := t + config.dt;
        ghost var left: nat := rest - 1;
        var outcome;
        ghost var tail;
        outcome, k, tail := Tick(m, t, previous, plan, k, rest, now, later, left);
        match outcome {
          case Finished =>
            assert false;
            break;
          case Fault =>
            return None, segments;
          case Next(s) =>
            PrefixedAppend(whole, segments, now, s, tail);
            segments := segments + [s];
            previous := s;
            t := later;
            steps := steps + 1;
            rest := left;
            now := tail;
        }
      }
      RunStops(m, plan, k, t, previous, rest);
      assert segments + [] == segments;
      r := Some(segments);
    }
  }
}
