/**
  The distance follower (distance_follower.py): a PD controller with
  velocity and acceleration feed-forward that walks a planned path one
  segment per call, comparing the distance the robot reports with the
  distance the path planned for that segment.

  A path segment's planned distance is its `displacement` (the field the
  path files store as `position`).
*/
module DistanceFollower {
  import opened Wrappers
  import opened Records

  /** The controller gains; `ki` is kept but never read. */
  datatype Gains = Gains(kp: real, ki: real, kd: real, kv: real, ka: real)

  /** How far along the path the follower is: the next segment, the last error and the last heading. */
  datatype Progress = Progress(segment: nat, lastError: real, heading: real)

  /** The feed-forward part of the output: the planned velocity and acceleration, scaled. */
  function FeedForward(g: Gains, seg: Segment): real
  {
    g.kv * seg.velocity + g.ka * seg.acceleration
  }

  /**
    The controller output for a segment: proportional to the error, plus
    the derivative of the error over the segment's dt, plus feed-forward.
  */
  function Output(g: Gains, error: real, lastError: real, seg: Segment): (r: real)
    requires seg.dt != 0.0
    ensures error == lastError ==> r == g.kp * error + FeedForward(g, seg)
    ensures error == 0.0 && lastError == 0.0 ==> r == FeedForward(g, seg)
  {
    g.kp * error + g.kd * ((error - lastError) / seg.dt) + (g.kv * seg.velocity + g.ka * seg.acceleration)
  }

  /**
    One `calculate` call with the distance the robot has covered: while the
    path lasts, the output for the current segment, and the follower moves
    to the next segment remembering this error and heading; past the end,
    0.0 and nothing changes. A segment with dt = 0 raises a division by
    zero before anything changes (`None`).
  */
  function Follow(g: Gains, trajectory: seq<Segment>, p: Progress, distance: real): (r: (Option<real>, Progress))
    ensures p.segment >= |trajectory| ==> r == (Some(0.0), p)
    ensures r.0.None? <==> p.segment < |trajectory| && trajectory[p.segment].dt == 0.0
    ensures r.0.None? ==> r.1 == p
    ensures r.0.Some? && p.segment < |trajectory| ==>
      && r.1.segment == p.segment + 1
      && r.1.lastError == trajectory[p.segment].displacement - distance
      && r.1.heading == trajectory[p.segment].heading
    ensures r.0.Some? && p.segment < |trajectory| ==>
      r.0.value == Output(g, trajectory[p.segment].displacement - distance, p.lastError, trajectory[p.segment])
    ensures p.segment <= |trajectory| ==> r.1.segment <= |trajectory|
  {
    if p.segment < |trajectory| then
      var seg := trajectory[p.segment];
      var error := seg.displacement - distance;
      if seg.dt == 0.0 then (None, p)
      else (Some(Output(g, error, p.lastError, seg)), Progress(p.segment + 1, error, seg.heading))
    else (Some(0.0), p)
  }

  /** The integral gain changes nothing: `calculate` never reads `ki`. */
  lemma KiUnused(g: Gains, ki: real, trajectory: seq<Segment>, p: Progress, distance: real)
    ensures Follow(g.(ki := ki), trajectory, p, distance) == Follow(g, trajectory, p, distance)
  {
    if p.segment < |trajectory| && trajectory[p.segment].dt != 0.0 {
      var seg := trajectory[p.segment];
      var error := seg.displacement - distance;
      assert Output(g.(ki := ki), error, p.lastError, seg) == Output(g, error, p.lastError, seg);
    }
  }

  /** The outputs and the final progress of a sequence of `calculate` calls, one per reported distance. */
  function Replay(g: Gains, trajectory: seq<Segment>, p: Progress, distances: seq<real>): (r: (seq<Option<real>>, Progress))
    ensures |r.0| == |distances|
    decreases |distances|
  {
    if |distances| == 0 then ([], p)
    else
      var step := Follow(g, trajectory, p, distances[0]);
      var rest := Replay(g, trajectory, step.1, distances[1..]);
      ([step.0] + rest.0, rest.1)
  }

  /** No segment of the path has dt = 0. */
  predicate Timed(trajectory: seq<Segment>)
  {
    forall i :: 0 <= i < |trajectory| ==> trajectory[i].dt != 0.0
  }

  function Min(a: nat, b: nat): nat { if a <= b then a else b }

  /**
    On a path without a zero dt, every call either moves to the next
    segment or, past the end, yields 0.0: after n calls from segment k the
    follower is at segment min(len, k + n), and every call after the
    (len - k)-th yields 0.0.
  */
  lemma {:induction false} ReplayFinishes(g: Gains, trajectory: seq<Segment>, p: Progress, distances: seq<real>)
    requires Timed(trajectory) && p.segment <= |trajectory|
    ensures Replay(g, trajectory, p, distances).1.segment == Min(|trajectory|, p.segment + |distances|)
    ensures forall i :: |trajectory| - p.segment <= i < |distances| ==> Replay(g, trajectory, p, distances).0[i] == Some(0.0)
    decreases |distances|
  {
    if |distances| > 0 {
      var step := Follow(g, trajectory, p, distances[0]);
      ReplayFinishes(g, trajectory, step.1, distances[1..]);
      var r := Replay(g, trajectory, p, distances);
      var rest := Replay(g, trajectory, step.1, distances[1..]);
      assert r.0 == [step.0] + rest.0;
      forall i | |trajectory| - p.segment <= i < |distances| ensures r.0[i] == Some(0.0) {
        if i == 0 {
          assert p.segment >= |trajectory|;
        } else {
          assert r.0[i] == rest.0[i - 1];
        }
      }
    }
  }

  /** `DistanceFollower`: the path, the gains and how far along the path the follower is. */
  class DistanceFollower {
    var lastError: real
    var heading: real
    var output: real
    var segment: nat
    var kp: real
    var ki: real
    var kd: real
    var kv: real
    var ka: real
    var trajectory: seq<Segment>

    function CurrentGains(): Gains
      reads this
    {
      Gains(kp, ki, kd, kv, ka)
    }

    function CurrentProgress(): Progress
      reads this
    {
      Progress(segment, lastError, heading)
    }

    /** The follower never runs past the end of its path. */
    ghost predicate Valid()
      reads this
    {
      segment <= |trajectory|
    }

    /** `__init__`: every gain 0.0, at the first segment with no error. */
    constructor(trajectory: seq<Segment>)
      ensures Valid() && this.trajectory == trajectory
      ensures CurrentGains() == Gains(0.0, 0.0, 0.0, 0.0, 0.0)
      ensures CurrentProgress() == Progress(0, 0.0, 0.0) && output == 0.0
    {
      lastError, heading, output, segment := 0.0, 0.0, 0.0, 0;
      kp, ki, kd, kv, ka := 0.0, 0.0, 0.0, 0.0, 0.0;
      this.trajectory := trajectory;
    }

    /** `configurePIDVA`: set the five gains and nothing else. */
    method ConfigurePIDVA(kp: real, ki: real, kd: real, kv: real, ka: real)
      modifies this
      ensures CurrentGains() == Gains(kp, ki, kd, kv, ka)
      ensures CurrentProgress() == old(CurrentProgress()) && trajectory == old(trajectory) && output == old(output)
    {
      this.kp, this.ki, this.kd, this.kv, this.ka := kp, ki, kd, kv, ka;
    }

    /** `calculate`: one step of `Follow` on the follower's own state; the gains and the path stay. */
    method Calculate(distance: real) returns (r: Option<real>)
      modifies this
      ensures (r, CurrentProgress()) == Follow(old(CurrentGains()), old(trajectory), old(CurrentProgress()), distance)
      ensures CurrentGains() == old(CurrentGains()) && trajectory == old(trajectory) && output == old(output)
      ensures old(Valid()) ==> Valid()
    {
      if segment < |trajectory| {
        var seg := trajectory[segment];
        var error := seg.displacement - distance;
        if seg.dt == 0.0 {
          return None;
        }
        var calculatedValue := kp * error + kd * ((error - lastError) / seg.dt) + (kv * seg.velocity + ka * seg.acceleration);
        assert calculatedValue == Output(CurrentGains(), error, lastError, seg);
        lastError := error;
        heading := seg.heading;
        segment := segment + 1;
        return Some(calculatedValue);
      } else {
        return Some(0.0);
      }
    }

    /** `setTrajectory`: follow a new path from its start. */
    method SetTrajectory(trajectory: seq<Segment>)
      modifies this
      ensures this.trajectory == trajectory && Valid()
      ensures segment == 0 && lastError == 0.0 && heading == old(heading)
      ensures CurrentGains() == old(CurrentGains()) && output == old(output)
    {
      this.trajectory := trajectory;
      Reset();
    }

    /** `reset`: back to the first segment with no error; the gains and the path stay. */
    method Reset()
      modifies this
      ensures segment == 0 && lastError == 0.0 && heading == old(heading) && Valid()
      ensures CurrentGains() == old(CurrentGains()) && trajectory == old(trajectory) && output == old(output)
    {
      segment := 0;
      lastError := 0.0;
    }

    /** `isFinished` */
    function IsFinished(): bool
      reads this
    {
      segment >= |trajectory|
    }
  }
}
