/** The statuses of the older profile package (profile/profile.py), numbered differently. */
module ProfileProfile {
  import Records

  datatype Status = Accel | Decel | Level | Done {
    /** The IntEnum value: ACCEL 0, DECEL 1, LEVEL 2, DONE 3. */
    function Value(): int
    {
      match this
      case Accel => 0
      case Decel => 1
      case Level => 2
      case Done => 3
    }
  }

  datatype Step = Step(status: Status, segment: Records.ProfileSegment)
}

/**
  The older copy of the trapezoidal velocity profile (profile/trapezoidal.py).
  It makes the same decisions with the same kinematics as the copy in
  profiles/trapezoidal.py; only the numbering of its statuses differs, and
  it caps the velocity with `math.min`, read here as the minimum.
*/
module ProfileTrapezoidal {
  import opened Wrappers
  import opened Records
  import opened ProfileProfile
  import Newer = ProfilesTrapezoidal
  import NewerProfile = ProfilesProfile

  datatype Trapezoidal = Trapezoidal(setpoint: real, maxVelocity: real, acceleration: real)

  /**
    `calculate`. A missing last segment is a segment at rest at distance 0
    and time 0. An acceleration of 0 divides by zero, which is `None`.
  */
  function Calculate(p: Trapezoidal, time: real, lastSegment: Option<ProfileSegment>): (r: Option<Step>)
    ensures r.None? <==> p.acceleration == 0.0
    ensures r.Some? ==> r.value.segment.time == time
  {
    var last := if lastSegment.Some? then lastSegment.value else ZeroProfileSegment;
    if p.acceleration == 0.0 then None
    else
      // t = v / a, d = v t - a t^2 / 2
      var decelTime := last.velocity / p.acceleration;
      var decelDistance := last.velocity * decelTime - 0.5 * p.acceleration * (decelTime * decelTime);
      var dt := time - last.time;
      if last.distance >= p.setpoint then
        Some(Step(Done, ZeroProfileSegment.(time := time, distance := last.distance)))
      else if last.distance + decelDistance >= p.setpoint then
        Some(Step(Decel, ProfileSegment(time,
          last.distance + last.velocity * dt - 0.5 * p.acceleration * (dt * dt),
          last.velocity - p.acceleration * dt,
          -p.acceleration)))
      else if last.velocity < p.maxVelocity then
        Some(Step(Accel, ProfileSegment(time,
          last.distance + last.velocity * dt + 0.5 * p.acceleration * (dt * dt),
          Newer.Min(last.velocity + p.acceleration * dt, p.maxVelocity),
          p.acceleration)))
      else
        Some(Step(Level, ProfileSegment(time, last.distance + last.velocity * dt, last.velocity, 0.0)))
  }

  /** The same status under the newer package's numbering. */
  function Renamed(s: Status): (r: NewerProfile.Status)
  {
    match s
    case Accel => NewerProfile.Accel
    case Decel => NewerProfile.Decel
    case Level => NewerProfile.Level
    case Done => NewerProfile.Done
  }

  /** Renaming keeps the status apart from its number: the two packages number all but DECEL differently. */
  lemma RenamedNumbering(s: Status)
    ensures Renamed(s).Value() == s.Value() <==> s == Decel
  {}

  /**
    Both copies compute the same segment and the same status, read by name:
    the older copy inherits the decision order and the kinematics proved for
    the newer one.
  */
  lemma CopiesAgree(setpoint: real, maxVelocity: real, acceleration: real, time: real, last: Option<ProfileSegment>)
    ensures var older := Calculate(Trapezoidal(setpoint, maxVelocity, acceleration), time, last);
      var newer := Newer.Calculate(Newer.Trapezoidal(setpoint, maxVelocity, acceleration), time, last);
      && (older.None? <==> newer.None?)
      && (older.Some? ==> newer.value == NewerProfile.Step(Renamed(older.value.status), older.value.segment))
  {
    if acceleration != 0.0 {
      var prev := if last.Some? then last.value else ZeroProfileSegment;
      assert Newer.DecelDistance(prev.velocity, acceleration)
        == prev.velocity * (prev.velocity / acceleration) - 0.5 * acceleration * ((prev.velocity / acceleration) * (prev.velocity / acceleration));
    }
  }
}
