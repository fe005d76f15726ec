/** The statuses a velocity profile reports (profiles/profile.py). */
module ProfilesProfile {
  import Records

  datatype Status = Done | Decel | Accel | Level {
    /** The IntEnum value: DONE 0, DECEL 1, ACCEL 2, LEVEL 3. */
    function Value(): int
    {
      match this
      case Done => 0
      case Decel => 1
      case Accel => 2
      case Level => 3
    }
  }

  /** What a profile's `calculate` returns: the status and the next segment. */
  datatype Step = Step(status: Status, segment: Records.ProfileSegment)
}

/**
  The trapezoidal velocity profile (profiles/trapezoidal.py).

  Given the previous segment, one call decides whether the motion is done,
  must brake now to stop at the setpoint, may still speed up, or cruises,
  and integrates one step of constant acceleration accordingly. Only motion
  towards a setpoint ahead (positive direction) is handled: every comparison
  is one-sided.
*/
module ProfilesTrapezoidal {
  import opened Wrappers
  import opened Records
  import opened ProfilesProfile

  datatype Trapezoidal = Trapezoidal(setpoint: real, maxVelocity: real, acceleration: real)

  /** The distance covered while braking from velocity v to rest at deceleration a, as the source writes it. */
  function DecelDistance(v: real, a: real): real
    requires a != 0.0
  {
    var decelTime := v / a;
    v * decelTime - 0.5 * a * (decelTime * decelTime)
  }

  /** The braking distance is v^2 / (2a), so it is never negative for a positive deceleration. */
  lemma StoppingDistance(v: real, a: real)
    requires a != 0.0
    ensures DecelDistance(v, a) == v * v / (2.0 * a)
    ensures 0.0 < a ==> 0.0 <= DecelDistance(v, a)
  {
    var q := v / a;
    assert q * a == v;
    assert v * q - 0.5 * a * (q * q) == 0.5 * (v * q) by {
      assert 0.5 * a * (q * q) == 0.5 * q * (q * a);
    }
    assert v * v / (2.0 * a) == 0.5 * (v * q);
    if 0.0 < a {
      assert 0.0 <= v * v;
    }
  }

  function Min(x: real, y: real): real
  {
    if x < y then x else y
  }

  /**
    `calculate`. A missing previous segment is a segment at rest at distance
    0 and time 0. An acceleration of 0 divides by zero, which is `None`.
  */
  function Calculate(p: Trapezoidal, t: real, previous: Option<ProfileSegment>): (r: Option<Step>)
    ensures r.None? <==> p.acceleration == 0.0
    ensures r.Some? ==> r.value.segment.time == t
  {
    var prev := if previous.Some? then previous.value else ZeroProfileSegment;
    if p.acceleration == 0.0 then None
    else
      var decelDistance := DecelDistance(prev.velocity, p.acceleration);
      var dt := t - prev.time;
      if prev.distance >= p.setpoint then
        Some(Step(Done, ZeroProfileSegment.(time := t, distance := prev.distance)))
      else if prev.distance + decelDistance >= p.setpoint then
        Some(Step(Decel, ProfileSegment(t,
          prev.distance + prev.velocity * dt - 0.5 * p.acceleration * (dt * dt),
          prev.velocity - p.acceleration * dt,
          -p.acceleration)))
      else if prev.velocity < p.maxVelocity then
        Some(Step(Accel, ProfileSegment(t,
          prev.distance + prev.velocity * dt + 0.5 * p.acceleration * (dt * dt),
          Min(prev.velocity + p.acceleration * dt, p.maxVelocity),
          p.acceleration)))
      else
        Some(Step(Level, ProfileSegment(t, prev.distance + prev.velocity * dt, prev.velocity, 0.0)))
  }

  /** Without a previous segment the profile starts from rest at distance 0 and time 0. */
  lemma DefaultPrevious(p: Trapezoidal, t: real)
    ensures Calculate(p, t, None) == Calculate(p, t, Some(ZeroProfileSegment))
  {}

  /**
    The status is decided in the order DONE, DECEL, ACCEL, LEVEL: done once
    the setpoint is reached, braking once the stopping point d + v^2/(2a)
    reaches it, speeding up while below the maximum velocity, cruising otherwise.
  */
  lemma Branches(p: Trapezoidal, t: real, prev: ProfileSegment)
    requires p.acceleration != 0.0
    ensures var s := Calculate(p, t, Some(prev)).value.status;
      var stop := prev.distance + prev.velocity * prev.velocity / (2.0 * p.acceleration);
      && (s == Done <==> prev.distance >= p.setpoint)
      && (s == Decel <==> prev.distance < p.setpoint && stop >= p.setpoint)
      && (s == Accel <==> prev.distance < p.setpoint && stop < p.setpoint && prev.velocity < p.maxVelocity)
      && (s == Level <==> prev.distance < p.setpoint && stop < p.setpoint && p.maxVelocity <= prev.velocity)
  {
    StoppingDistance(prev.velocity, p.acceleration);
  }

  /**
    Every status but DONE integrates one step of constant acceleration over
    dt = t - previous time: -a when braking, a when speeding up (velocity
    capped at the maximum), 0 when cruising. DONE holds the distance and
    leaves velocity and acceleration at 0.
  */
  lemma Kinematics(p: Trapezoidal, t: real, prev: ProfileSegment)
    requires p.acceleration != 0.0
    ensures var r := Calculate(p, t, Some(prev)).value;
      var seg, dt := r.segment, t - prev.time;
      && (r.status == Done ==> seg == ProfileSegment(t, prev.distance, 0.0, 0.0))
      && (r.status != Done ==> seg.distance == prev.distance + prev.velocity * dt + 0.5 * seg.acceleration * (dt * dt))
      && (r.status == Decel ==> seg.acceleration == -p.acceleration)
      && (r.status == Accel ==> seg.acceleration == p.acceleration)
      && (r.status == Level ==> seg.acceleration == 0.0)
      && (r.status in {Decel, Level} ==> seg.velocity == prev.velocity + seg.acceleration * dt)
      && (r.status == Accel ==> seg.velocity <= p.maxVelocity
                                && seg.velocity == Min(prev.velocity + seg.acceleration * dt, p.maxVelocity))
  {
    var r := Calculate(p, t, Some(prev)).value;
    var dt := t - prev.time;
    if r.status == Decel {
      assert -0.5 * p.acceleration * (dt * dt) == 0.5 * -p.acceleration * (dt * dt);
    } else if r.status == Level {
      assert 0.5 * 0.0 * (dt * dt) == 0.0;
    }
  }
}
