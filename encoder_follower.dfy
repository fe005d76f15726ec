/**
  The encoder follower (EncoderFollower.py): the distance follower's
  controller driven by an encoder reading instead of a distance. The
  reading becomes a distance through the encoder's calibration: ticks since
  the initial position, over ticks per revolution, times the wheel
  circumference.

  `__init__` never sets the derivative gain, so until `configurePIDVA` runs,
  `calculate` on a segment raises an attribute error; `kd` is an
  `Option<real>` here, `None` until configured.
*/
module EncoderFollower {
  import opened Wrappers
  import opened Records
  import DistanceFollower

  /** The encoder calibration set by `configureEncoder`. */
  datatype Calibration = Calibration(initialPosition: real, ticksPerRevolution: real, wheelCircumference: real)

  /** The gains as the encoder follower holds them: `kd` is missing until configured. */
  datatype Settings = Settings(kp: real, ki: real, kd: Option<real>, kv: real, ka: real)

  /** The gains once all five are set. */
  function Complete(s: Settings): (g: Option<DistanceFollower.Gains>)
    ensures g.Some? <==> s.kd.Some?
    ensures g.Some? ==> g.value == DistanceFollower.Gains(s.kp, s.ki, s.kd.value, s.kv, s.ka)
  {
    if s.kd.Some? then Some(DistanceFollower.Gains(s.kp, s.ki, s.kd.value, s.kv, s.ka)) else None
  }

  /** The distance the wheel has covered at encoder reading `tick`; `None` when ticks per revolution is 0. */
  function Covered(c: Calibration, tick: real): (r: Option<real>)
    ensures r.None? <==> c.ticksPerRevolution == 0.0
  {
    if c.ticksPerRevolution == 0.0 then None
    else Some(((tick - c.initialPosition) / c.ticksPerRevolution) * c.wheelCircumference)
  }

  /**
    One `calculate` call at encoder reading `tick`: past the end of the path,
    0.0 and nothing changes. Otherwise it raises (`None`, nothing changed)
    when ticks per revolution is 0, when `kd` was never set, or when the
    segment's dt is 0; if not, the output of the PD and feed-forward terms
    on the error between the planned and the covered distance, and the
    follower moves to the next segment.
  */
  function Follow(c: Calibration, s: Settings, trajectory: seq<Segment>, p: DistanceFollower.Progress, tick: real)
    : (r: (Option<real>, DistanceFollower.Progress))
    ensures p.segment >= |trajectory| ==> r == (Some(0.0), p)
    ensures r.0.None? <==>
      p.segment < |trajectory| && (c.ticksPerRevolution == 0.0 || s.kd.None? || trajectory[p.segment].dt == 0.0)
    ensures r.0.None? ==> r.1 == p
    ensures p.segment <= |trajectory| ==> r.1.segment <= |trajectory|
  {
    if p.segment < |trajectory| then
      if c.ticksPerRevolution == 0.0 then (None, p)
      else
        var distanceCovered := ((tick - c.initialPosition) / c.ticksPerRevolution) * c.wheelCircumference;
        var seg := trajectory[p.segment];
        var error := seg.displacement - distanceCovered;
        if s.kd.None? || seg.dt == 0.0 then (None, p)
        else
          var g := DistanceFollower.Gains(s.kp, s.ki, s.kd.value, s.kv, s.ka);
          (Some(DistanceFollower.Output(g, error, p.lastError, seg)),
           DistanceFollower.Progress(p.segment + 1, error, seg.heading))
    else (Some(0.0), p)
  }

  /** A step that does not raise: the output on this segment's error, and the next segment. */
  lemma Advances(c: Calibration, s: Settings, trajectory: seq<Segment>, p: DistanceFollower.Progress, tick: real)
    requires c.ticksPerRevolution != 0.0 && s.kd.Some?
    requires p.segment < |trajectory| && trajectory[p.segment].dt != 0.0
    ensures var seg := trajectory[p.segment];
      var error := seg.displacement - Covered(c, tick).value;
      Follow(c, s, trajectory, p, tick)
        == (Some(DistanceFollower.Output(Complete(s).value, error, p.lastError, seg)),
            DistanceFollower.Progress(p.segment + 1, error, seg.heading))
  {}

  /**
    With a usable calibration and all gains set, the encoder follower is the
    distance follower fed the distance the encoder reports.
  */
  lemma FollowsDistance(c: Calibration, s: Settings, trajectory: seq<Segment>, p: DistanceFollower.Progress, tick: real)
    requires c.ticksPerRevolution != 0.0 && s.kd.Some?
    ensures Follow(c, s, trajectory, p, tick)
      == DistanceFollower.Follow(Complete(s).value, trajectory, p, Covered(c, tick).value)
  {}

  /** The encoder reading at which the wheel has covered `distance`: the inverse of `Covered`. */
  function Reading(c: Calibration, distance: real): real
    requires c.wheelCircumference != 0.0
  {
    c.initialPosition + distance / c.wheelCircumference * c.ticksPerRevolution
  }

  /** Reading the encoder back gives the distance: `Covered` undoes `Reading`. */
  lemma CoveredReading(c: Calibration, distance: real)
    requires c.ticksPerRevolution != 0.0 && c.wheelCircumference != 0.0
    ensures Covered(c, Reading(c, distance)) == Some(distance)
  {
    var q := distance / c.wheelCircumference;
    var tick := Reading(c, distance);
    assert (tick - c.initialPosition) / c.ticksPerRevolution == q;
    assert Covered(c, tick).value == q * c.wheelCircumference == distance;
  }

  /**
    The encoder reading at the planned distance of a segment yields no
    error: a robot exactly on plan with no error before is driven by
    feed-forward alone, and carries no error to the next segment.
  */
  lemma OnPlan(c: Calibration, s: Settings, trajectory: seq<Segment>, p: DistanceFollower.Progress)
    requires c.ticksPerRevolution != 0.0 && c.wheelCircumference != 0.0 && s.kd.Some?
    requires p.segment < |trajectory| && trajectory[p.segment].dt != 0.0 && p.lastError == 0.0
    ensures var r := Follow(c, s, trajectory, p, Reading(c, trajectory[p.segment].displacement));
      && r.0 == Some(DistanceFollower.FeedForward(Complete(s).value, trajectory[p.segment]))
      && r.1 == DistanceFollower.Progress(p.segment + 1, 0.0, trajectory[p.segment].heading)
  {
    var seg := trajectory[p.segment];
    var tick := Reading(c, seg.displacement);
    CoveredReading(c, seg.displacement);
    var error := seg.displacement - Covered(c, tick).value;
    assert error == 0.0;
    Advances(c, s, trajectory, p, tick);
    assert DistanceFollower.Output(Complete(s).value, error, p.lastError, seg) == DistanceFollower.FeedForward(Complete(s).value, seg);
  }

  /** `EncoderFollower`: the path, the calibration, the gains and how far along the path the follower is. */
  class EncoderFollower {
    var lastError: real
    var heading: real
    var segment: nat
    var initialPosition: real
    var ticksPerRevolution: real
    var wheelCircumference: real
    var kp: real
    var ki: real
    var kd: Option<real>
    var kv: real
    var ka: real
    var trajectory: seq<Segment>

    function CurrentCalibration(): Calibration
      reads this
    {
      Calibration(initialPosition, ticksPerRevolution, wheelCircumference)
    }

    function CurrentSettings(): Settings
      reads this
    {
      Settings(kp, ki, kd, kv, ka)
    }

    function CurrentProgress(): DistanceFollower.Progress
      reads this
    {
      DistanceFollower.Progress(segment, lastError, heading)
    }

    /** The follower never runs past the end of its path. */
    ghost predicate Valid()
      reads this
    {
      segment <= |trajectory|
    }

    /** `__init__`: an uncalibrated encoder, kp, ki, kv and ka at 0.0 and kd never set. */
    constructor(trajectory: seq<Segment>)
      ensures Valid() && this.trajectory == trajectory
      ensures CurrentCalibration() == Calibration(0.0, 0.0, 0.0)
      ensures CurrentSettings() == Settings(0.0, 0.0, None, 0.0, 0.0)
      ensures CurrentProgress() == DistanceFollower.Progress(0, 0.0, 0.0)
    {
      lastError, heading, segment := 0.0, 0.0, 0;
      initialPosition, ticksPerRevolution, wheelCircumference := 0.0, 0.0, 0.0;
      kp, ki, kd, kv, ka := 0.0, 0.0, None, 0.0, 0.0;
      this.trajectory := trajectory;
    }

    /** `configureEncoder`: set the calibration and nothing else. */
    method ConfigureEncoder(initialPosition: real, ticksPerRevolution: real, wheelCircumference: real)
      modifies this
      ensures CurrentCalibration() == Calibration(initialPosition, ticksPerRevolution, wheelCircumference)
      ensures CurrentSettings() == old(CurrentSettings()) && CurrentProgress() == old(CurrentProgress())
      ensures trajectory == old(trajectory)
    {
      this.initialPosition, this.ticksPerRevolution, this.wheelCircumference :=
        initialPosition, ticksPerRevolution, wheelCircumference;
    }

    /** `configurePIDVA`: set the five gains, `kd` included, and nothing else. */
    method ConfigurePIDVA(kp: real, ki: real, kd: real, kv: real, ka: real)
      modifies this
      ensures CurrentSettings() == Settings(kp, ki, Some(kd), kv, ka)
      ensures CurrentCalibration() == old(CurrentCalibration()) && CurrentProgress() == old(CurrentProgress())
      ensures trajectory == old(trajectory)
    {
      this.kp, this.ki, this.kd, this.kv, this.ka := kp, ki, Some(kd), kv, ka;
    }

    /** `calculate`: one step of `Follow` on the follower's own state; calibration, gains and path stay. */
    method Calculate(tick: real) returns (r: Option<real>)
      modifies this
      ensures (r, CurrentProgress())
        == Follow(old(CurrentCalibration()), old(CurrentSettings()), old(trajectory), old(CurrentProgress()), tick)
      ensures CurrentCalibration() == old(CurrentCalibration()) && CurrentSettings() == old(CurrentSettings())
      ensures trajectory == old(trajectory)
      ensures old(Valid()) ==> Valid()
    {
      if segment < |trajectory| {
        if ticksPerRevolution == 0.0 {
          return None;
        }
        var distanceCovered := ((tick - initialPosition) / ticksPerRevolution) * wheelCircumference;
        var seg := trajectory[segment];
        var error := seg.displacement - distanceCovered;
        if kd.None? || seg.dt == 0.0 {
          return None;
        }
        var calculatedValue := kp * error + kd.value * ((error - lastError) / seg.dt) + (kv * seg.velocity + ka * seg.acceleration);
        assert calculatedValue == DistanceFollower.Output(Complete(CurrentSettings()).value, error, lastError, seg);
        assert Covered(CurrentCalibration(), tick).value == distanceCovered;
        Advances(CurrentCalibration(), CurrentSettings(), trajectory, CurrentProgress(), tick);
        lastError := error;
        heading := seg.heading;
        segment := segment + 1;
        return Some(calculatedValue);
      } else {
        return Some(0.0);
      }
    }

    /** `setTrajectory`: follow a new path from its start. */
    method SetTrajectory(trajectory: seq<Segment>)
      modifies this
      ensures this.trajectory == trajectory && Valid()
      ensures segment == 0 && lastError == 0.0 && heading == old(heading)
      ensures CurrentCalibration() == old(CurrentCalibration()) && CurrentSettings() == old(CurrentSettings())
    {
      this.trajectory := trajectory;
      Reset();
    }

    /** `reset`: back to the first segment with no error; calibration, gains and path stay. */
    method Reset()
      modifies this
      ensures segment == 0 && lastError == 0.0 && heading == old(heading) && Valid()
      ensures CurrentCalibration() == old(CurrentCalibration()) && CurrentSettings() == old(CurrentSettings())
      ensures trajectory == old(trajectory)
    {
      segment := 0;
      lastError := 0.0;
    }

    /** `isFinished` */
    function IsFinished(): bool
      reads this
    {
      segment >= |trajectory|
    }
  }
}
