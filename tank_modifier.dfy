/**
  The tank-drive modifier (TankModifier.py): from the center path of a
  robot, the paths of its left and right wheels, each half the wheelbase
  width to the side of the center, perpendicular to the heading.

  The first wheel segment is the center segment moved sideways. Every later
  one is also moved sideways, and its velocity, acceleration and jerk are
  recomputed from the wheel's own previous segment by backward differences
  over the segment's dt. Its displacement is the center's displacement plus
  the distance of this one step.
*/
module TankModifier {
  import opened Wrappers
  import opened Transcendental
  import opened Records

  /** Which side of the robot a wheel path belongs to. */
  datatype Track = LeftTrack | RightTrack

  /**
    A copy of `seg` moved half the wheelbase (`w`) sideways: to the left of
    the heading for the left track, to the right for the right track.
  */
  function Placed(m: MathLib, seg: Segment, w: real, side: Track): Segment
  {
    var cs, sn := Cos(m, seg.heading), Sin(m, seg.heading);
    if side == LeftTrack then seg.(x := seg.x - w * sn, y := seg.y + w * cs)
    else seg.(x := seg.x + w * sn, y := seg.y - w * cs)
  }

  /** The straight-line distance from `last` to `next`. */
  function StepDistance(m: MathLib, next: Segment, last: Segment): real
  {
    Hypot(m, next.x - last.x, next.y - last.y)
  }

  /**
    A wheel segment after the first: `seg` moved sideways, with its
    displacement grown by the step from the wheel's previous segment `last`,
    and velocity, acceleration and jerk as differences over `seg.dt`.
  */
  function Follow(m: MathLib, last: Segment, seg: Segment, w: real, side: Track): Segment
    requires seg.dt != 0.0
  {
    var p := Placed(m, seg, w, side);
    var distance := StepDistance(m, p, last);
    var velocity := distance / seg.dt;
    var acceleration := (velocity - last.velocity) / seg.dt;
    p.(displacement := seg.displacement + distance,
       velocity := velocity,
       acceleration := acceleration,
       jerk := (acceleration - last.acceleration) / seg.dt)
  }

  /** Every segment after the first has a dt to divide by. */
  predicate Divisible(segs: seq<Segment>)
  {
    forall i :: 0 < i < |segs| ==> segs[i].dt != 0.0
  }

  /** The wheel path of one side, built front to back as `modify` builds it. */
  function WheelPath(m: MathLib, segs: seq<Segment>, w: real, side: Track): (r: seq<Segment>)
    requires Divisible(segs)
    ensures |r| == |segs|
    decreases |segs|
  {
    if |segs| == 0 then []
    else if |segs| == 1 then [Placed(m, segs[0], w, side)]
    else
      var front := segs[..|segs| - 1];
      assert Divisible(front) by {
        forall i | 0 < i < |front| ensures front[i].dt != 0.0 {
          assert front[i] == segs[i];
        }
      }
      var prev := WheelPath(m, front, w, side);
      prev + [Follow(m, prev[|prev| - 1], segs[|segs| - 1], w, side)]
  }

  /** The path of a prefix is the prefix of the path: segment i depends only on segments 0..i. */
  lemma {:induction false} WheelPathPrefix(m: MathLib, segs: seq<Segment>, w: real, side: Track, n: nat)
    requires Divisible(segs) && n <= |segs|
    ensures Divisible(segs[..n])
    ensures WheelPath(m, segs[..n], w, side) == WheelPath(m, segs, w, side)[..n]
    decreases |segs|
  {
    assert Divisible(segs[..n]) by {
      forall i | 0 < i < n ensures segs[..n][i].dt != 0.0 {
        assert segs[..n][i] == segs[i];
      }
    }
    if n == |segs| {
      assert segs[..n] == segs;
    } else {
      var front := segs[..|segs| - 1];
      assert Divisible(front) by {
        forall i | 0 < i < |front| ensures front[i].dt != 0.0 {
          assert front[i] == segs[i];
        }
      }
      WheelPathPrefix(m, front, w, side, n);
      assert front[..n] == segs[..n];
    }
  }

  /**
    Segment i of a wheel path: the first is the center segment moved
    sideways; every later one follows from the wheel's segment i - 1.
  */
  lemma WheelPathAt(m: MathLib, segs: seq<Segment>, w: real, side: Track, i: nat)
    requires Divisible(segs) && i < |segs|
    ensures i == 0 ==> WheelPath(m, segs, w, side)[0] == Placed(m, segs[0], w, side)
    ensures 0 < i ==> WheelPath(m, segs, w, side)[i] == Follow(m, WheelPath(m, segs, w, side)[i - 1], segs[i], w, side)
  {
    WheelPathPrefix(m, segs, w, side, i + 1);
    var prefix := segs[..i + 1];
    assert prefix[..|prefix| - 1] == segs[..i];
    assert prefix[|prefix| - 1] == segs[i];
    if 0 < i {
      WheelPathPrefix(m, segs, w, side, i);
    }
  }

  /**
    The two wheels of a segment sit on either side of the center: their
    midpoint is the center point and they are exactly the wheelbase width
    apart, whatever the heading.
  */
  lemma SidesApart(m: MathLib, seg: Segment, width: real)
    requires Axioms(m)
    ensures var l, r := Placed(m, seg, width / 2.0, LeftTrack), Placed(m, seg, width / 2.0, RightTrack);
      && (l.x + r.x) / 2.0 == seg.x && (l.y + r.y) / 2.0 == seg.y
      && (l.x - r.x) * (l.x - r.x) + (l.y - r.y) * (l.y - r.y) == width * width
  {
    var cs, sn := Cos(m, seg.heading), Sin(m, seg.heading);
    assert sn * sn + cs * cs == 1.0;
    var l, r := Placed(m, seg, width / 2.0, LeftTrack), Placed(m, seg, width / 2.0, RightTrack);
    assert l.x - r.x == -(width * sn) && l.y - r.y == width * cs;
    calc {
      (l.x - r.x) * (l.x - r.x) + (l.y - r.y) * (l.y - r.y);
      (width * sn) * (width * sn) + (width * cs) * (width * cs);
      width * width * (sn * sn + cs * cs);
      width * width;
    }
  }

  /**
    Where a later wheel segment is: the center segment moved sideways, with
    the center's dt and heading, and the center's displacement plus the
    length of the step from the wheel's previous segment.
  */
  lemma FollowPlace(m: MathLib, last: Segment, seg: Segment, w: real, side: Track)
    requires seg.dt != 0.0
    ensures var r, p := Follow(m, last, seg, w, side), Placed(m, seg, w, side);
      && r.x == p.x && r.y == p.y && r.dt == seg.dt && r.heading == seg.heading
      && r.displacement == seg.displacement + StepDistance(m, r, last)
  {
    var r, p := Follow(m, last, seg, w, side), Placed(m, seg, w, side);
    assert StepDistance(m, r, last) == StepDistance(m, p, last);
  }

  /**
    `next` moves on from `last` over dt: its velocity times dt is the step
    between them, and its acceleration and jerk are the backward differences
    of velocity and acceleration over dt.
  */
  predicate Differenced(m: MathLib, last: Segment, next: Segment, dt: real)
  {
    && next.velocity * dt == StepDistance(m, next, last)
    && next.acceleration * dt == next.velocity - last.velocity
    && next.jerk * dt == next.acceleration - last.acceleration
  }

  /** A later wheel segment is differenced from the wheel's previous one over the center's dt. */
  lemma FollowRates(m: MathLib, last: Segment, seg: Segment, w: real, side: Track)
    requires seg.dt != 0.0
    ensures Differenced(m, last, Follow(m, last, seg, w, side), seg.dt)
  {
    var r, p := Follow(m, last, seg, w, side), Placed(m, seg, w, side);
    var d := StepDistance(m, p, last);
    assert StepDistance(m, r, last) == d;
    var v, a := r.velocity, r.acceleration;
    assert v == d / seg.dt;
    Quotient(d, seg.dt);
    Quotient(v - last.velocity, seg.dt);
    Quotient(a - last.acceleration, seg.dt);
  }

  /** Forward in time a wheel never runs backwards: its speed is a length over a positive dt. */
  lemma FollowForward(m: MathLib, last: Segment, seg: Segment, w: real, side: Track)
    requires Axioms(m) && 0.0 < seg.dt
    ensures 0.0 <= Follow(m, last, seg, w, side).velocity
  {
    var p := Placed(m, seg, w, side);
    var d := StepDistance(m, p, last);
    Distance(m, p, last);
    Quotient(d, seg.dt);
  }

  /** A step distance is the non-negative root of the squared legs. */
  lemma Distance(m: MathLib, next: Segment, last: Segment)
    requires Axioms(m)
    ensures var d := StepDistance(m, next, last);
      && 0.0 <= d
      && d * d == (next.x - last.x) * (next.x - last.x) + (next.y - last.y) * (next.y - last.y)
  {
    var dx, dy := next.x - last.x, next.y - last.y;
    SquareNonNeg(dx);
    SquareNonNeg(dy);
  }

  /** Dividing by dt and multiplying back gives the numerator; forward in time the sign is kept. */
  lemma Quotient(x: real, dt: real)
    requires dt != 0.0
    ensures (x / dt) * dt == x
    ensures 0.0 < dt && 0.0 <= x ==> 0.0 <= x / dt
  {}

  /**
    The shape of a wheel path: index-aligned with the center path, each
    segment the center's moved sideways with the center's dt and heading;
    the first keeps every other field of the center's, and each later one
    adds its own step to the center's displacement.
  */
  lemma WheelPathShape(m: MathLib, segs: seq<Segment>, w: real, side: Track, i: nat)
    requires Divisible(segs) && i < |segs|
    ensures var path, p := WheelPath(m, segs, w, side), Placed(m, segs[i], w, side);
      && path[i].x == p.x && path[i].y == p.y && path[i].dt == segs[i].dt && path[i].heading == segs[i].heading
      && (i == 0 ==> path[0] == segs[0].(x := p.x, y := p.y))
      && (0 < i ==> path[i].displacement == segs[i].displacement + StepDistance(m, path[i], path[i - 1]))
  {
    WheelPathAt(m, segs, w, side, i);
    if 0 < i {
      var path := WheelPath(m, segs, w, side);
      FollowPlace(m, path[i - 1], segs[i], w, side);
    }
  }

  /**
    The motion along a wheel path: past the first segment, velocity is the
    step from the previous wheel segment over dt, never negative when dt is
    positive, and acceleration and jerk are backward differences.
  */
  lemma WheelPathRates(m: MathLib, segs: seq<Segment>, w: real, side: Track, i: nat)
    requires Axioms(m) && Divisible(segs) && 0 < i < |segs|
    ensures var path := WheelPath(m, segs, w, side);
      && Differenced(m, path[i - 1], path[i], segs[i].dt)
      && (0.0 < segs[i].dt ==> 0.0 <= path[i].velocity)
  {
    WheelPathAt(m, segs, w, side, i);
    var path := WheelPath(m, segs, w, side);
    var prev, seg := path[i - 1], segs[i];
    FollowRates(m, prev, seg, w, side);
    if 0.0 < seg.dt {
      FollowForward(m, prev, seg, w, side);
    }
  }

  /** `TankModifier`: the center path it was given and the two wheel paths it derived. */
  class TankModifier {
    var original: seq<Segment>
    var wheelbaseWidth: real
    var leftTraj: seq<Segment>
    var rightTraj: seq<Segment>

    /** The fields `__init__` sets before it calls `modify`. */
    constructor Init(original: seq<Segment>, wheelbaseWidth: real)
      ensures this.original == original && this.wheelbaseWidth == wheelbaseWidth
      ensures leftTraj == [] && rightTraj == []
    {
      this.original := original;
      this.wheelbaseWidth := wheelbaseWidth;
      leftTraj := [];
      rightTraj := [];
    }

    /**
      `__init__`: remember the center path and the width and build the
      wheel paths; `None` when `modify` divides by a zero dt.
    */
    static method Create(m: MathLib, original: seq<Segment>, wheelbaseWidth: real) returns (r: Option<TankModifier>)
      ensures r.None? <==> !Divisible(original)
      ensures r.Some? ==> fresh(r.value) && r.value.original == original && r.value.wheelbaseWidth == wheelbaseWidth
      ensures r.Some? ==> r.value.leftTraj == WheelPath(m, original, wheelbaseWidth / 2.0, LeftTrack)
      ensures r.Some? ==> r.value.rightTraj == WheelPath(m, original, wheelbaseWidth / 2.0, RightTrack)
    {
      var modifier := new TankModifier.Init(original, wheelbaseWidth);
      var ok := modifier.Modify(m);
      if ok {
        assert original[..|original|] == original;
        r := Some(modifier);
      } else {
        r := None;
      }
    }

    /**
      `modify`: rebuild both wheel paths from the center path. A zero dt past
      the first segment raises a division by zero; then both paths hold the
      segments built before it, and `ok` is false.
    */
    method Modify(m: MathLib) returns (ok: bool)
      modifies this
      ensures original == old(original) && wheelbaseWidth == old(wheelbaseWidth)
      ensures |leftTraj| <= |original| && Divisible(original[..|leftTraj|])
      ensures leftTraj == WheelPath(m, original[..|leftTraj|], wheelbaseWidth / 2.0, LeftTrack)
      ensures rightTraj == WheelPath(m, original[..|leftTraj|], wheelbaseWidth / 2.0, RightTrack)
      ensures ok <==> |leftTraj| == |original|
      ensures ok <==> Divisible(original)
      ensures !ok ==> 0 < |leftTraj| && original[|leftTraj|].dt == 0.0
    {
      var w := wheelbaseWidth / 2.0;
      leftTraj := [];
      rightTraj := [];
      var i := 0;
      while i < |original|
        invariant 0 <= i <= |original| && |leftTraj| == i
        invariant original == old(original) && wheelbaseWidth == old(wheelbaseWidth)
        invariant Divisible(original[..i])
        invariant leftTraj == WheelPath(m, original[..i], w, LeftTrack)
        invariant rightTraj == WheelPath(m, original[..i], w, RightTrack)
      {
        var seg := original[i];
        if i > 0 && seg.dt == 0.0 {
          ghost var segs := original;
          assert segs[i].dt == 0.0;
          assert !Divisible(segs);
          return false;
        }
        var cs, sn := Cos(m, seg.heading), Sin(m, seg.heading);
        var left := Wheel(m, seg, cs, sn, w, LeftTrack, leftTraj);
        var right := Wheel(m, seg, cs, sn, w, RightTrack, rightTraj);
        Extend(m, original, w, i, LeftTrack);
        Extend(m, original, w, i, RightTrack);
        leftTraj := leftTraj + [left];
        rightTraj := rightTraj + [right];
        i := i + 1;
      }
      ghost var segs := original;
      assert segs[..i] == segs;
      ok := true;
    }

    /**
      One wheel's segment for center segment `seg` (one side of the loop body
      of `modify`): a copy moved sideways, and past the first segment, with
      displacement, velocity, acceleration and jerk taken from the wheel's
      last segment so far.
    */
    static method Wheel(m: MathLib, seg: Segment, cs: real, sn: real, w: real, side: Track, built: seq<Segment>)
      returns (wheel: Segment)
      requires cs == Cos(m, seg.heading) && sn == Sin(m, seg.heading)
      requires |built| > 0 ==> seg.dt != 0.0
      ensures |built| == 0 ==> wheel == Placed(m, seg, w, side)
      ensures |built| > 0 ==> wheel == Follow(m, built[|built| - 1], seg, w, side)
    {
      if side == LeftTrack {
        wheel := seg.(x := seg.x - w * sn, y := seg.y + w * cs);
      } else {
        wheel := seg.(x := seg.x + w * sn, y := seg.y - w * cs);
      }
      assert wheel == Placed(m, seg, w, side);
      if |built| > 0 {
        var last := built[|built| - 1];
        var distance := StepDistance(m, wheel, last);
        wheel := wheel.(displacement := wheel.displacement + distance);
        wheel := wheel.(velocity := distance / seg.dt);
        wheel := wheel.(acceleration := (wheel.velocity - last.velocity) / seg.dt);
        wheel := wheel.(jerk := (wheel.acceleration - last.acceleration) / seg.dt);
      }
    }

    /** `get_original_trajectory` */
    function GetOriginalTrajectory(): seq<Segment>
      reads this
    {
      original
    }

    /** `get_left_trajectory` */
    function GetLeftTrajectory(): seq<Segment>
      reads this
    {
      leftTraj
    }

    /** `get_right_trajectory` */
    function GetRightTrajectory(): seq<Segment>
      reads this
    {
      rightTraj
    }
  }

  /** One more segment of the center path gives one more segment of each wheel path. */
  lemma Extend(m: MathLib, segs: seq<Segment>, w: real, i: nat, side: Track)
    requires i < |segs| && Divisible(segs[..i]) && (0 < i ==> segs[i].dt != 0.0)
    ensures Divisible(segs[..i + 1])
    ensures WheelPath(m, segs[..i + 1], w, side) ==
      WheelPath(m, segs[..i], w, side)
        + [if i == 0 then Placed(m, segs[i], w, side)
           else Follow(m, WheelPath(m, segs[..i], w, side)[i - 1], segs[i], w, side)]
  {
    var next := segs[..i + 1];
    assert Divisible(next) by {
      forall j | 0 < j < |next| ensures next[j].dt != 0.0 {
        if j < i {
          assert next[j] == segs[..i][j];
        }
      }
    }
    assert next[..|next| - 1] == segs[..i];
    assert next[|next| - 1] == segs[i];
  }
}
