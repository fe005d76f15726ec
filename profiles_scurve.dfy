/**
  The S-curve profile's choice of branch (profiles/scurve.py).

  One call of `calculate_single` decides, from the previous segment, whether
  the motion is done, must start taking jerk out now (DECEL), may still
  build up velocity (ACCEL) or cruises (LEVEL). DECEL and ACCEL hand the
  step to an inner velocity profile that works one derivative down: its
  "distance" is the outer velocity and its "velocity" the outer
  acceleration. That inner profile is not part of this model; it is a
  parameter, a function from its setpoint, its distance integral, the time
  and its input segment to its result.
*/
module ProfilesScurve {
  import opened Wrappers
  import opened Transcendental
  import opened Records
  import opened ProfilesProfile

  /** What one call of the inner profile yields: its segment, that segment's distance integral, and its own distance integral afterwards. */
  datatype InnerStep = InnerStep(segment: ProfileSegment, segmentDistanceIntegral: real, distanceIntegral: real)

  /** The inner velocity profile: (setpoint, distance integral, time, input segment) to its step. */
  type InnerProfile = (real, real, real, ProfileSegment) -> InnerStep

  function Abs(x: real): (r: real)
    ensures 0.0 <= r && (r == x || r == -x)
  {
    if x < 0.0 then -x else x
  }

  /** The jerk applied: towards the setpoint, +jerk below it and -jerk at or above it. */
  function SignedJerk(jerk: real, distance: real, setpoint: real): (j: real)
    ensures Abs(j) == Abs(jerk)
    ensures 0.0 < jerk ==> (0.0 < j <==> distance < setpoint)
  {
    if distance < setpoint then jerk else -jerk
  }

  /**
    The distance covered while the acceleration is brought back to zero
    (lines 56-87 of the source). `None` stands for the errors the source
    raises: a jerk of 0 or a maximum acceleration of 0 divides by zero, and
    a negative v / jerk is outside the domain of sqrt.
  */
  function DejerkDistance(m: MathLib, maxAcceleration: real, setpoint: real, prev: ProfileSegment, jerk: real): Option<real>
  {
    var maxAcc := if setpoint > 0.0 then maxAcceleration else -maxAcceleration;
    if jerk == 0.0 then None
    else
      var peakSquare := 2.0 * (prev.velocity / 2.0) / jerk;
      if peakSquare < 0.0 then None
      else
        var trianglePeakTime := Sqrt(m, peakSquare);
        var saturationTime := (-maxAcc - prev.acceleration) / -jerk;
        if Abs(saturationTime) < Abs(trianglePeakTime) then
          if maxAcceleration == 0.0 then None
          else
            var a0, v0 := prev.acceleration, prev.velocity;
            var t0 := (-maxAcceleration - a0) / -jerk;
            var t2 := maxAcceleration / jerk;
            var sixth := 1.0 / 6.0;
            var v1 := v0 + a0 * t0 + 0.5 * -jerk * (t0 * t0);
            var v2 := maxAcceleration * t2 + 0.5 * -jerk * (t2 * t2);
            var t0' := if v1 < v2 then 0.0 else t0;
            var t1 := (v1 - v2) / maxAcceleration;
            var t2' := if t1 < 0.0 then t2 + t1 else t2;
            var t1' := if t1 < 0.0 then 0.0 else t1;
            var s0 := v0 * t0' + 0.5 * a0 * (t0' * t0') + sixth * -jerk * (t0' * t0' * t0');
            var s1 := v1 * t1' + 0.5 * -maxAcceleration * (t1' * t1');
            var s2 := v2 * t2' + 0.5 * -maxAcceleration * (t2' * t2') + sixth * jerk * (t2' * t2' * t2');
            Some(s0 + s1 + s2)
        else
          Some(prev.velocity * trianglePeakTime)
  }

  /** The DECEL test of lines 95-97 on the overshoot `error` the de-jerk would leave. */
  predicate Decelerates(setpoint: real, tolerance: real, error: real)
  {
    || Abs(error) <= tolerance
    || (setpoint < 0.0 && error < -tolerance)
    || (setpoint > 0.0 && error > tolerance)
  }

  /**
    With a non-negative tolerance the DECEL test is one-sided: towards a
    positive setpoint it brakes unless the de-jerk falls short by more than
    the tolerance, towards a negative one unless it overshoots by more, and
    at 0 only within the tolerance.
  */
  lemma DeceleratesWindow(setpoint: real, tolerance: real, error: real)
    requires 0.0 <= tolerance
    ensures setpoint > 0.0 ==> (Decelerates(setpoint, tolerance, error) <==> error >= -tolerance)
    ensures setpoint < 0.0 ==> (Decelerates(setpoint, tolerance, error) <==> error <= tolerance)
    ensures setpoint == 0.0 ==> (Decelerates(setpoint, tolerance, error) <==> -tolerance <= error <= tolerance)
  {}

  /** The inner profile's setpoint when accelerating: the maximum velocity, signed like the setpoint (positive at 0). */
  function CruiseTarget(setpoint: real, maxVelocity: real): (v: real)
    ensures Abs(v) == Abs(maxVelocity)
    ensures 0.0 <= maxVelocity ==> (v < 0.0 ==> setpoint < 0.0) && (setpoint < 0.0 ==> v <= 0.0)
  {
    if setpoint < 0.0 then -maxVelocity else maxVelocity
  }

  /** The inner profile's input: the outer velocity as its distance, the outer acceleration as its velocity. */
  function InnerInput(prev: ProfileSegment): (s: ProfileSegment)
    ensures s.time == prev.time && s.distance == prev.velocity && s.velocity == prev.acceleration
  {
    ZeroProfileSegment.(time := prev.time, distance := prev.velocity, velocity := prev.acceleration)
  }

  /** The outer segment at time t read back from an inner segment: acceleration from its velocity, velocity from its distance. */
  function OuterSegment(t: real, distance: real, inner: ProfileSegment): (s: ProfileSegment)
    ensures s.time == t && s.distance == distance
    ensures s.velocity == inner.distance && s.acceleration == inner.velocity
  {
    ProfileSegment(t, distance, inner.distance, inner.velocity)
  }

  /** Reading back inverts building the input: an inner step that changes nothing gives back the outer velocity and acceleration. */
  lemma InnerRoundTrip(t: real, distance: real, prev: ProfileSegment)
    ensures var s := OuterSegment(t, distance, InnerInput(prev));
      s.velocity == prev.velocity && s.acceleration == prev.acceleration
  {}

  /** The LEVEL segment: velocity held, distance advanced by v dt, no acceleration. */
  function Cruise(t: real, prev: ProfileSegment): (s: ProfileSegment)
    ensures s.time == t && s.velocity == prev.velocity && s.acceleration == 0.0
    ensures s.distance - prev.distance == prev.velocity * (t - prev.time)
  {
    ProfileSegment(t, prev.distance + prev.velocity * (t - prev.time), prev.velocity, 0.0)
  }

  /** The profile's limits, fixed at construction. */
  datatype Limits = Limits(maxVelocity: real, maxAcceleration: real, jerk: real, tolerance: real)

  /** What `calculate_single` reads and writes: the setpoint, the jerk out and the inner profile's setpoint and distance integral. */
  datatype State = State(setpoint: Option<real>, jerkOut: Option<real>, innerSetpoint: real, innerDistanceIntegral: real)

  /** The step after the de-jerk distance is known: DECEL, ACCEL or LEVEL, with the state each leaves. */
  function Steer(inner: InnerProfile, lim: Limits, st: State, sp: real, t: real, prev: ProfileSegment, error: real): (Option<Step>, State)
  {
    if Decelerates(sp, lim.tolerance, error) then
      var step := inner(0.0, prev.distance, t, InnerInput(prev));
      (Some(Step(Decel, OuterSegment(t, step.segmentDistanceIntegral, step.segment))),
       st.(jerkOut := Some(step.segment.acceleration), innerSetpoint := 0.0, innerDistanceIntegral := step.distanceIntegral))
    else if Abs(prev.velocity) < lim.maxVelocity - lim.tolerance then
      var target := CruiseTarget(sp, lim.maxVelocity);
      var step := inner(target, prev.distance, t, InnerInput(prev));
      (Some(Step(Accel, OuterSegment(t, step.distanceIntegral, step.segment))),
       st.(jerkOut := Some(step.segment.acceleration), innerSetpoint := target, innerDistanceIntegral := step.distanceIntegral))
    else
      (Some(Step(Level, Cruise(t, prev))), st.(jerkOut := Some(0.0)))
  }

  /**
    One call of `calculate_single` on state `st`: the result and the new
    state. `None` stands for the errors the source raises (no setpoint yet,
    or an error in the de-jerk distance), which leave the state as it was.
  */
  function Next(m: MathLib, inner: InnerProfile, lim: Limits, st: State, t: real, prev: ProfileSegment): (Option<Step>, State)
  {
    if st.setpoint.None? then (None, st)
    else
      var sp := st.setpoint.value;
      if Abs(prev.distance - sp) < lim.tolerance then
        (Some(Step(Done, ZeroProfileSegment.(time := t, distance := prev.distance))), st.(jerkOut := Some(0.0)))
      else
        var dejerk := DejerkDistance(m, lim.maxAcceleration, sp, prev, SignedJerk(lim.jerk, prev.distance, sp));
        if dejerk.None? then (None, st)
        else Steer(inner, lim, st, sp, t, prev, prev.distance + dejerk.value - sp)
  }

  /** Every result is stamped with the requested time, and the setpoint is never changed. */
  lemma NextStamped(m: MathLib, inner: InnerProfile, lim: Limits, st: State, t: real, prev: ProfileSegment)
    ensures var (r, st') := Next(m, inner, lim, st, t, prev);
      (r.Some? ==> r.value.segment.time == t) && st'.setpoint == st.setpoint
  {}

  /** DONE exactly when the previous distance is within the tolerance of the setpoint: the distance is held and no jerk goes out. */
  lemma NextDone(m: MathLib, inner: InnerProfile, lim: Limits, st: State, t: real, prev: ProfileSegment)
    requires st.setpoint.Some?
    ensures var (r, st') := Next(m, inner, lim, st, t, prev);
      && (r.Some? && r.value.status == Done <==> Abs(prev.distance - st.setpoint.value) < lim.tolerance)
      && (r.Some? && r.value.status == Done ==>
            r.value.segment == ProfileSegment(t, prev.distance, 0.0, 0.0) && st' == st.(jerkOut := Some(0.0)))
  {}

  /** A failed call changes nothing. */
  lemma NextFailure(m: MathLib, inner: InnerProfile, lim: Limits, st: State, t: real, prev: ProfileSegment)
    ensures var (r, st') := Next(m, inner, lim, st, t, prev);
      r.None? ==> st' == st
  {}

  /**
    Past DONE, with the de-jerk error e: DECEL when the DECEL test holds, the
    inner profile steering to velocity 0; otherwise ACCEL while the speed is
    more than the tolerance below the maximum, the inner profile steering to
    the signed maximum; otherwise LEVEL, cruising with no jerk out.
  */
  lemma NextSteers(inner: InnerProfile, lim: Limits, st: State, sp: real, t: real, prev: ProfileSegment, error: real)
    ensures var (r, st') := Steer(inner, lim, st, sp, t, prev, error);
      var decel := Decelerates(sp, lim.tolerance, error);
      var accel := !decel && Abs(prev.velocity) < lim.maxVelocity - lim.tolerance;
      && r.Some?
      && (r.value.status == Decel <==> decel)
      && (r.value.status == Accel <==> accel)
      && (r.value.status == Level <==> !decel && !accel)
      && (decel ==> st'.innerSetpoint == 0.0)
      && (accel ==> st'.innerSetpoint == CruiseTarget(sp, lim.maxVelocity))
      && (decel || accel ==> st'.jerkOut == Some(inner(st'.innerSetpoint, prev.distance, t, InnerInput(prev)).segment.acceleration))
      && (!decel && !accel ==> r.value.segment == Cruise(t, prev) && st' == st.(jerkOut := Some(0.0)))
  {}

  class Scurve {
    const maxVelocity: real
    const maxAcceleration: real
    const jerk: real
    const tolerance: real
    const timescale: real
    /** The target distance; the constructor does not set it, so it is absent until a caller assigns it. */
    var setpoint: Option<real>
    /** The jerk of the last step; absent until the first step. */
    var jerkOut: Option<real>
    /** The inner profile's setpoint and distance integral. */
    var innerSetpoint: real
    var innerDistanceIntegral: real

    constructor (maxVelocity: real, acceleration: real, jerk: real, tolerance: real, timescale: real)
      ensures this.maxVelocity == maxVelocity && maxAcceleration == acceleration && this.jerk == jerk
      ensures this.tolerance == tolerance && this.timescale == timescale
      ensures setpoint.None? && jerkOut.None?
      ensures innerSetpoint == maxVelocity && innerDistanceIntegral == 0.0
    {
      this.maxVelocity := maxVelocity;
      maxAcceleration := acceleration;
      this.jerk := jerk;
      this.tolerance := tolerance;
      this.timescale := timescale;
      setpoint := None;
      jerkOut := None;
      innerSetpoint := maxVelocity;
      innerDistanceIntegral := 0.0;
    }

    /** The fields `calculate_single` reads and writes. */
    function Snapshot(): State
      reads this
    {
      State(setpoint, jerkOut, innerSetpoint, innerDistanceIntegral)
    }

    function Bounds(): Limits
    {
      Limits(maxVelocity, maxAcceleration, jerk, tolerance)
    }

    /** `calculate_single`: the result and the new fields are those of `Next`. */
    method CalculateSingle(m: MathLib, inner: InnerProfile, t: real, prev: ProfileSegment) returns (r: Option<Step>)
      modifies this
      ensures (r, Snapshot()) == Next(m, inner, Bounds(), old(Snapshot()), t, prev)
    {
      if setpoint.None? {
        return None;
      }
      var sp := setpoint.value;
      var segmentIn := InnerInput(prev);
      if Abs(prev.distance - sp) < tolerance {
        jerkOut := Some(0.0);
        return Some(Step(Done, ZeroProfileSegment.(time := t, distance := prev.distance)));
      }
      var j := SignedJerk(jerk, prev.distance, sp);
      var dejerk := DejerkDistance(m, maxAcceleration, sp, prev, j);
      if dejerk.None? {
        return None;
      }
      var error := prev.distance + dejerk.value - sp;
      if Decelerates(sp, tolerance, error) {
        var step := inner(0.0, prev.distance, t, segmentIn);
        innerDistanceIntegral := step.distanceIntegral;
        innerSetpoint := 0.0;
        jerkOut := Some(step.segment.acceleration);
        return Some(Step(Decel, OuterSegment(t, step.segmentDistanceIntegral, step.segment)));
      } else if Abs(prev.velocity) < maxVelocity - tolerance {
        var target := CruiseTarget(sp, maxVelocity);
        var step := inner(target, prev.distance, t, segmentIn);
        innerDistanceIntegral := step.distanceIntegral;
        innerSetpoint := target;
        jerkOut := Some(step.segment.acceleration);
        return Some(Step(Accel, OuterSegment(t, innerDistanceIntegral, step.segment)));
      }
      jerkOut := Some(0.0);
      r := Some(Step(Level, Cruise(t, prev)));
    }
  }
}
