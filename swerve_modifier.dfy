/**
  The swerve-drive modifier (SwerveModifier.py): from the center path of a
  robot, the paths of its four wheels at the corners of a rectangle of the
  wheelbase width (across, x) and depth (along, y) around the center.

  The corner offsets are fixed in the field frame: they do not turn with
  the robot's heading. Every other field of a segment is copied unchanged.
*/
module SwerveModifier {
  import opened Records

  /** A copy of `seg` moved by (dx, dy); nothing but x and y changes. */
  function Corner(seg: Segment, dx: real, dy: real): (r: Segment)
    ensures r.x - seg.x == dx && r.y - seg.y == dy
    ensures r.(x := seg.x, y := seg.y) == seg
  {
    seg.(x := seg.x + dx, y := seg.y + dy)
  }

  /** The path of one corner: every segment of `segs` moved by (dx, dy), in the same order. */
  function Shifted(segs: seq<Segment>, dx: real, dy: real): (r: seq<Segment>)
    ensures |r| == |segs|
  {
    if |segs| == 0 then [] else Shifted(segs[..|segs| - 1], dx, dy) + [Corner(segs[|segs| - 1], dx, dy)]
  }

  /** The corner path is index-aligned with the center path: its segment i is the corner of segment i. */
  lemma {:induction false} ShiftedAt(segs: seq<Segment>, dx: real, dy: real, i: nat)
    requires i < |segs|
    ensures Shifted(segs, dx, dy)[i] == Corner(segs[i], dx, dy)
    decreases |segs|
  {
    if i < |segs| - 1 {
      var front := segs[..|segs| - 1];
      ShiftedAt(front, dx, dy, i);
      assert front[i] == segs[i];
    }
  }

  /** Shifting one more segment of a path appends its corner. */
  lemma ShiftedNext(segs: seq<Segment>, i: nat, dx: real, dy: real)
    requires i < |segs|
    ensures Shifted(segs[..i + 1], dx, dy) == Shifted(segs[..i], dx, dy) + [Corner(segs[i], dx, dy)]
  {
    assert segs[..i + 1][..i] == segs[..i];
  }

  /** The four corners of a segment average to the segment's own point. */
  lemma Centered(seg: Segment, width: real, depth: real)
    ensures var fl, fr := Corner(seg, -(width / 2.0), depth / 2.0), Corner(seg, width / 2.0, depth / 2.0);
      var bl, br := Corner(seg, -(width / 2.0), -(depth / 2.0)), Corner(seg, width / 2.0, -(depth / 2.0));
      && (fl.x + fr.x + bl.x + br.x) / 4.0 == seg.x
      && (fl.y + fr.y + bl.y + br.y) / 4.0 == seg.y
  {}

  /**
    Turning the robot does not move its wheels: the corner of a segment with
    another heading is the same corner with that heading.
  */
  lemma HeadingFree(seg: Segment, heading: real, dx: real, dy: real)
    ensures Corner(seg.(heading := heading), dx, dy) == Corner(seg, dx, dy).(heading := heading)
  {}

  /** `SwerveModifier`: the center path, the wheelbase and the four wheel paths. */
  class SwerveModifier {
    var original: seq<Segment>
    var wheelbaseWidth: real
    var wheelbaseDepth: real
    var frontLeft: seq<Segment>
    var frontRight: seq<Segment>
    var backLeft: seq<Segment>
    var backRight: seq<Segment>

    /** The four wheel paths are the center path shifted to the corners. */
    ghost predicate Valid()
      reads this
    {
      var w, d := wheelbaseWidth / 2.0, wheelbaseDepth / 2.0;
      && frontLeft == Shifted(original, -w, d)
      && frontRight == Shifted(original, w, d)
      && backLeft == Shifted(original, -w, -d)
      && backRight == Shifted(original, w, -d)
    }

    /** `__init__`: remember the center path and the wheelbase, then `modify`. */
    constructor(original: seq<Segment>, wheelbaseWidth: real, wheelbaseDepth: real)
      ensures this.original == original
      ensures this.wheelbaseWidth == wheelbaseWidth && this.wheelbaseDepth == wheelbaseDepth
      ensures Valid()
    {
      this.original := original;
      this.wheelbaseWidth := wheelbaseWidth;
      this.wheelbaseDepth := wheelbaseDepth;
      frontLeft, frontRight, backLeft, backRight := [], [], [], [];
      new;
      Modify();
    }

    /** `modify`: rebuild the four wheel paths from the center path, leaving the center path as it was. */
    method Modify()
      modifies this
      ensures original == old(original)
      ensures wheelbaseWidth == old(wheelbaseWidth) && wheelbaseDepth == old(wheelbaseDepth)
      ensures Valid()
    {
      var w, d := wheelbaseWidth / 2.0, wheelbaseDepth / 2.0;
      frontLeft, frontRight, backLeft, backRight := Corners(original, w, d);
    }

    /** The loop of `modify`: each center segment copied to the four corners, appended in order. */
    static method Corners(segs: seq<Segment>, w: real, d: real) returns (fls: seq<Segment>, frs: seq<Segment>, bls: seq<Segment>, brs: seq<Segment>)
      ensures fls == Shifted(segs, -w, d) && frs == Shifted(segs, w, d)
      ensures bls == Shifted(segs, -w, -d) && brs == Shifted(segs, w, -d)
    {
      fls, frs, bls, brs := [], [], [], [];
      var i := 0;
      while i < |segs|
        invariant 0 <= i <= |segs|
        invariant fls == Shifted(segs[..i], -w, d) && frs == Shifted(segs[..i], w, d)
        invariant bls == Shifted(segs[..i], -w, -d) && brs == Shifted(segs[..i], w, -d)
      {
        var seg := segs[i];
        var fl := seg.(x := seg.x - w, y := seg.y + d);
        var fr := seg.(x := seg.x + w, y := seg.y + d);
        var bl := seg.(x := seg.x - w, y := seg.y - d);
        var br := seg.(x := seg.x + w, y := seg.y - d);
        assert fl == Corner(seg, -w, d) && fr == Corner(seg, w, d);
        assert bl == Corner(seg, -w, -d) && br == Corner(seg, w, -d);
        ShiftedNext(segs, i, -w, d);
        ShiftedNext(segs, i, w, d);
        ShiftedNext(segs, i, -w, -d);
        ShiftedNext(segs, i, w, -d);
        fls, frs, bls, brs := fls + [fl], frs + [fr], bls + [bl], brs + [br];
        i := i + 1;
      }
      assert segs[..i] == segs;
    }

    /**
      Segment i of the four wheel paths, whenever the paths are current: the
      center's segment i at its four corners, whose average is the center.
    */
    lemma FourCorners(i: nat)
      requires Valid() && i < |original|
      ensures |frontLeft| == |frontRight| == |backLeft| == |backRight| == |original|
      ensures (frontLeft[i].x + frontRight[i].x + backLeft[i].x + backRight[i].x) / 4.0 == original[i].x
      ensures (frontLeft[i].y + frontRight[i].y + backLeft[i].y + backRight[i].y) / 4.0 == original[i].y
      ensures frontLeft[i].(x := original[i].x, y := original[i].y) == original[i]
    {
      var w, d := wheelbaseWidth / 2.0, wheelbaseDepth / 2.0;
      ShiftedAt(original, -w, d, i);
      ShiftedAt(original, w, d, i);
      ShiftedAt(original, -w, -d, i);
      ShiftedAt(original, w, -d, i);
      Centered(original[i], wheelbaseWidth, wheelbaseDepth);
    }

    /** `get_original_trajectory` */
    function GetOriginalTrajectory(): seq<Segment>
      reads this
    {
      original
    }

    /** `get_front_left_trajectory` */
    function GetFrontLeftTrajectory(): seq<Segment>
      reads this
    {
      frontLeft
    }

    /** `get_front_right_trajectory` */
    function GetFrontRightTrajectory(): seq<Segment>
      reads this
    {
      frontRight
    }

    /** `get_back_left_trajectory` */
    function GetBackLeftTrajectory(): seq<Segment>
      reads this
    {
      backLeft
    }

    /** `get_back_right_trajectory` */
    function GetBackRightTrajectory(): seq<Segment>
      reads this
    {
      backRight
    }
  }
}
