/**
  The spline-and-planner trajectory generator (TrajectoryGenerator.py).

  `prepare` fits, for every pair of adjacent waypoints, a cubic and a
  quintic spline in both directions, keeps the shortest of the four, and
  hands the total length to the filter-chain planner. `generate` then walks
  the planned segments in order, carrying a cursor over the chosen splines
  that only moves forward, and places each segment on the spline its
  displacement falls on.

  The source shares one configuration object between the generator and its
  planner; here the generator reads and updates the planner's `config`, so
  the two can never disagree.
*/
module TrajectoryGenerator {
  import opened Transcendental
  import opened Records
  import opened Splines
  import SplineGenerator
  import SplineUtils
  import Planner = TrajectoryPlanner

  /** Reversing a chord does not change its length. */
  lemma KnotSymmetric(m: MathLib, a: Waypoint, b: Waypoint)
    ensures SplineGenerator.KnotDistance(m, a, b) == SplineGenerator.KnotDistance(m, b, a)
  {
    var dx, dy := b.x - a.x, b.y - a.y;
    assert dx * dx + dy * dy == (a.x - b.x) * (a.x - b.x) + (a.y - b.y) * (a.y - b.y);
  }

  /** No two adjacent waypoints coincide: every fit divides by the chord length. */
  predicate Separated(m: MathLib, path: seq<Waypoint>)
  {
    forall i :: 0 <= i < |path| - 1 ==> SplineGenerator.KnotDistance(m, path[i], path[i + 1]) != 0.0
  }

  /** A fitted spline with its arc length recorded, as `get_arc_length` leaves it. */
  function Measured(m: MathLib, s: Spline, n: int): Spline
    requires n != 0
  {
    s.(arcLength := SplineUtils.ArcLengthOf(m, s, n))
  }

  /** The four candidates for the pair (a, b), in the order the source tries them: cubic, cubic reversed, quintic, quintic reversed. */
  function Candidates(m: MathLib, a: Waypoint, b: Waypoint, n: int): (cs: seq<Spline>)
    requires n != 0 && SplineGenerator.KnotDistance(m, a, b) != 0.0
    ensures |cs| == 4
  {
    KnotSymmetric(m, a, b);
    [Measured(m, SplineGenerator.CubicFit(m, a, b), n),
     Measured(m, SplineGenerator.CubicFit(m, b, a), n),
     Measured(m, SplineGenerator.QuinticFit(m, a, b), n),
     Measured(m, SplineGenerator.QuinticFit(m, b, a), n)]
  }

  function Min(x: real, y: real): real
  {
    if y < x then y else x
  }

  /** Index k holds a shortest length and every length before it is strictly longer: k is the first shortest. */
  predicate FirstShortest(ds: seq<real>, k: nat)
  {
    && k < |ds|
    && (forall j :: 0 <= j < |ds| ==> ds[k] <= ds[j])
    && (forall j :: 0 <= j < k ==> ds[k] < ds[j])
  }

  /** There is only one first shortest, so the choice below is determined by the lengths. */
  lemma FirstShortestUnique(ds: seq<real>, k: nat, k': nat)
    requires FirstShortest(ds, k) && FirstShortest(ds, k')
    ensures k == k'
  {
    assert ds[k] <= ds[k'] && ds[k'] <= ds[k];
  }

  /** The source's if-chain against the nested minimum of four lengths picks the first shortest. */
  lemma FourShortest(ds: seq<real>)
    requires |ds| == 4
    ensures var least := Min(Min(Min(ds[0], ds[1]), ds[2]), ds[3]);
      FirstShortest(ds, if least == ds[0] then 0 else if least == ds[1] then 1 else if least == ds[2] then 2 else 3)
  {}

  function Lengths(cs: seq<Spline>): (ds: seq<real>)
    ensures |ds| == |cs|
    ensures forall i :: 0 <= i < |cs| ==> ds[i] == cs[i].arcLength
  {
    seq(|cs|, i requires 0 <= i < |cs| => cs[i].arcLength)
  }

  lemma LengthsAppend(cs: seq<Spline>, s: Spline)
    ensures Lengths(cs + [s]) == Lengths(cs) + [s.arcLength]
  {}

  /** s is the candidate `prepare` keeps for the pair (a, b): the first shortest of the four. */
  predicate Kept(m: MathLib, a: Waypoint, b: Waypoint, n: int, s: Spline)
    requires n != 0 && SplineGenerator.KnotDistance(m, a, b) != 0.0
  {
    var cs := Candidates(m, a, b, n);
    exists k :: 0 <= k < 4 && FirstShortest(Lengths(cs), k) && s == cs[k]
  }

  /** A kept spline is one of the four, no longer than any of them, and spans the pair's chord (so its knot distance is not 0). */
  lemma KeptShortest(m: MathLib, a: Waypoint, b: Waypoint, n: int, s: Spline)
    requires n != 0 && SplineGenerator.KnotDistance(m, a, b) != 0.0 && Kept(m, a, b, n, s)
    ensures var cs := Candidates(m, a, b, n);
      && s in cs
      && (forall j :: 0 <= j < 4 ==> s.arcLength <= cs[j].arcLength)
      && s.knotDistance == SplineGenerator.KnotDistance(m, a, b)
  {
    var cs := Candidates(m, a, b, n);
    var k :| 0 <= k < 4 && FirstShortest(Lengths(cs), k) && s == cs[k];
    KnotSymmetric(m, a, b);
    assert s.knotDistance == SplineGenerator.KnotDistance(m, a, b) by {
      if k == 0 {
        SplineGenerator.FitPlaced(m, SplineGenerator.Cubic, a, b);
      } else if k == 1 {
        SplineGenerator.FitPlaced(m, SplineGenerator.Cubic, b, a);
      } else if k == 2 {
        SplineGenerator.FitPlaced(m, SplineGenerator.Quintic, a, b);
      } else {
        SplineGenerator.FitPlaced(m, SplineGenerator.Quintic, b, a);
      }
    }
  }

  /** The sum of a list of lengths, added front to back as the source's running total does. */
  function Sum(ds: seq<real>): real
  {
    if |ds| == 0 then 0.0 else Sum(ds[..|ds| - 1]) + ds[|ds| - 1]
  }

  lemma SumAppend(ds: seq<real>, d: real)
    ensures Sum(ds + [d]) == Sum(ds) + d
  {
    assert (ds + [d])[..|ds|] == ds;
  }

  /** The prefix of i + 1 lengths sums to the prefix of i plus length i. */
  lemma SumStep(ds: seq<real>, i: nat)
    requires i < |ds|
    ensures Sum(ds[..i + 1]) == Sum(ds[..i]) + ds[i]
  {
    assert ds[..i + 1][..i] == ds[..i];
  }

  /** Every spline in `splines` is the one `prepare` keeps for its pair of adjacent waypoints, from the first pair on. */
  predicate KeptPrefix(m: MathLib, path: seq<Waypoint>, n: int, splines: seq<Spline>)
    requires n != 0 && Separated(m, path)
  {
    && |splines| < |path|
    && forall k :: 0 <= k < |splines| ==> Kept(m, path[k], path[k + 1], n, splines[k])
  }

  /** The kept spline for every pair of adjacent waypoints. */
  predicate KeptAll(m: MathLib, path: seq<Waypoint>, n: int, splines: seq<Spline>)
    requires n != 0 && Separated(m, path)
  {
    KeptPrefix(m, path, n, splines) && |splines| == |path| - 1
  }

  lemma KeptPrefixExtend(m: MathLib, path: seq<Waypoint>, n: int, splines: seq<Spline>, s: Spline)
    requires n != 0 && Separated(m, path) && KeptPrefix(m, path, n, splines) && |splines| + 1 < |path|
    requires Kept(m, path[|splines|], path[|splines| + 1], n, s)
    ensures KeptPrefix(m, path, n, splines + [s])
  {
    var ss := splines + [s];
    forall k | 0 <= k < |ss|
      ensures Kept(m, path[k], path[k + 1], n, ss[k])
    {
      if k < |splines| {
        assert ss[k] == splines[k];
      }
    }
  }

  /** The kept splines all have a chord to measure along. */
  lemma KeptMeasurable(m: MathLib, path: seq<Waypoint>, n: int, splines: seq<Spline>)
    requires n != 0 && Separated(m, path) && KeptAll(m, path, n, splines)
    ensures Measurable(splines, n)
  {
    forall k | 0 <= k < |splines|
      ensures splines[k].knotDistance != 0.0
    {
      KeptShortest(m, path[k], path[k + 1], n, splines[k]);
    }
  }

  /** Where `generate` stands on the spline list: the spline index and the path length before that spline. */
  datatype Cursor = Cursor(index: nat, start: real)

  /**
    The inner walk of `generate` for displacement d: move past every spline
    the displacement lies beyond, but never past the last one.
  */
  function Locate(lengths: seq<real>, last: nat, d: real, c: Cursor): (r: Cursor)
    requires c.index <= last < |lengths|
    ensures c.index <= r.index <= last
    decreases last - c.index
  {
    if d - c.start <= lengths[c.index] || last <= c.index then c
    else Locate(lengths, last, d, Cursor(c.index + 1, c.start + lengths[c.index]))
  }

  /** The walk keeps the cursor's start the sum of the lengths before its spline, and it stops on the spline d lies on unless it reached the last one. */
  lemma {:induction false} LocateKeepsStart(lengths: seq<real>, last: nat, d: real, c: Cursor)
    requires c.index <= last < |lengths| && c.start == Sum(lengths[..c.index])
    ensures var r := Locate(lengths, last, d, c);
      && r.start == Sum(lengths[..r.index])
      && (r.index < last ==> d - r.start <= lengths[r.index])
    decreases last - c.index
  {
    if !(d - c.start <= lengths[c.index] || last <= c.index) {
      SumStep(lengths, c.index);
      LocateKeepsStart(lengths, last, d, Cursor(c.index + 1, c.start + lengths[c.index]));
    }
  }

  /** The cursor once the first k segments are placed. */
  function CursorAt(lengths: seq<real>, last: nat, segments: seq<Segment>, k: nat): (c: Cursor)
    requires last < |lengths| && k <= |segments|
    ensures c.index <= last
  {
    if k == 0 then Cursor(0, 0.0)
    else Locate(lengths, last, segments[k - 1].displacement, CursorAt(lengths, last, segments, k - 1))
  }

  /** The spline index never decreases from one segment to a later one. */
  lemma {:induction false} CursorForward(lengths: seq<real>, last: nat, segments: seq<Segment>, j: nat, k: nat)
    requires last < |lengths| && j <= k <= |segments|
    ensures CursorAt(lengths, last, segments, j).index <= CursorAt(lengths, last, segments, k).index
  {
    if j < k {
      CursorForward(lengths, last, segments, j, k - 1);
    }
  }

  /** The cursor's start is always the total length of the splines behind it. */
  lemma {:induction false} CursorStart(lengths: seq<real>, last: nat, segments: seq<Segment>, k: nat)
    requires last < |lengths| && k <= |segments|
    ensures var c := CursorAt(lengths, last, segments, k); c.start == Sum(lengths[..c.index])
  {
    assert lengths[..0] == [];
    if k > 0 {
      CursorStart(lengths, last, segments, k - 1);
      LocateKeepsStart(lengths, last, segments[k - 1].displacement, CursorAt(lengths, last, segments, k - 1));
    }
  }

  /** What the generator needs of its splines: each has a chord to measure along, and the sample count is not 0. */
  predicate Measurable(splines: seq<Spline>, n: int)
  {
    n != 0 && forall i :: 0 <= i < |splines| ==> splines[i].knotDistance != 0.0
  }

  /**
    Segment `seg` placed by cursor c (already moved for it): on the cursor's
    spline at the parameter its relative displacement reaches, or, beyond
    the last spline, at the end of the last spline.
  */
  function Place(m: MathLib, splines: seq<Spline>, lengths: seq<real>, n: int, seg: Segment, c: Cursor): Segment
    requires Measurable(splines, n) && |splines| == |lengths| && c.index < |splines|
  {
    var rel := seg.displacement - c.start;
    if rel <= lengths[c.index] then OnSpline(m, splines[c.index], rel, n, seg)
    else AtEnd(m, splines[|splines| - 1], seg)
  }

  /** The segment moved to the point and heading of spline si at the parameter the distance rel along it reaches. */
  function OnSpline(m: MathLib, si: Spline, rel: real, n: int, seg: Segment): Segment
    requires n != 0 && si.knotDistance != 0.0
  {
    var p := SplineUtils.Progress(m, si, rel, n);
    var coords := SplineUtils.GetCoords(m, si, p);
    seg.(heading := SplineUtils.GetAngle(m, si, p), x := coords.x, y := coords.y)
  }

  /** The segment moved to the end point and heading of spline si. */
  function AtEnd(m: MathLib, si: Spline, seg: Segment): Segment
  {
    var coords := SplineUtils.GetCoords(m, si, 1.0);
    seg.(heading := SplineUtils.GetAngle(m, si, 1.0), x := coords.x, y := coords.y)
  }


  /** A placed segment keeps its timing and motion; only x, y and heading change. */
  lemma PlaceKeepsMotion(m: MathLib, splines: seq<Spline>, lengths: seq<real>, n: int, seg: Segment, c: Cursor)
    requires Measurable(splines, n) && |splines| == |lengths| && c.index < |splines|
    ensures var p := Place(m, splines, lengths, n, seg, c);
      p == seg.(x := p.x, y := p.y, heading := p.heading)
  {}

  /** Two splines with the same coefficients, placement and knot distance. */
  predicate SameShape(s: Spline, t: Spline)
  {
    && s.a == t.a && s.b == t.b && s.c == t.c && s.d == t.d && s.e == t.e
    && s.xOffset == t.xOffset && s.yOffset == t.yOffset
    && s.knotDistance == t.knotDistance && s.angleOffset == t.angleOffset
  }

  lemma SameLocalY(s: Spline, t: Spline, x: real)
    requires SameShape(s, t)
    ensures LocalY(s, x) == LocalY(t, x)
  {}

  /** A fit for (a, b), measured, ends on b: recording the arc length does not move the spline. */
  lemma MeasuredFitEnds(m: MathLib, fitType: SplineGenerator.FitType, a: Waypoint, b: Waypoint, n: int)
    requires Axioms(m) && n != 0 && fitType != SplineGenerator.Unrecognised && SplineGenerator.KnotDistance(m, a, b) != 0.0
    ensures SplineUtils.GetCoords(m, Measured(m, SplineGenerator.Fit(m, fitType, a, b).value, n), 1.0) == Coord(b.x, b.y)
  {
    var f := SplineGenerator.Fit(m, fitType, a, b).value;
    var s := Measured(m, f, n);
    SplineGenerator.FitEndpoints(m, fitType, a, b);
    SplineGenerator.FitPlaced(m, fitType, a, b);
    SameLocalY(s, f, f.knotDistance);
    SplineUtils.LandsOn(m, s, a, b);
  }

  /** A kept spline ends, at parameter 1, on b, or on a when a reversed fit was kept. */
  lemma KeptEnds(m: MathLib, a: Waypoint, b: Waypoint, n: int, s: Spline)
    requires Axioms(m) && n != 0 && SplineGenerator.KnotDistance(m, a, b) != 0.0 && Kept(m, a, b, n, s)
    ensures var e := SplineUtils.GetCoords(m, s, 1.0);
      e == Coord(b.x, b.y) || e == Coord(a.x, a.y)
  {
    KnotSymmetric(m, a, b);
    var cs := Candidates(m, a, b, n);
    var k :| 0 <= k < 4 && FirstShortest(Lengths(cs), k) && s == cs[k];
    if k == 0 {
      MeasuredFitEnds(m, SplineGenerator.Cubic, a, b, n);
    } else if k == 1 {
      MeasuredFitEnds(m, SplineGenerator.Cubic, b, a, n);
    } else if k == 2 {
      MeasuredFitEnds(m, SplineGenerator.Quintic, a, b, n);
    } else {
      MeasuredFitEnds(m, SplineGenerator.Quintic, b, a, n);
    }
  }

  /** A segment beyond its cursor's spline is pinned to the end of the last spline. */
  lemma PlacePinned(m: MathLib, splines: seq<Spline>, lengths: seq<real>, n: int, seg: Segment, c: Cursor)
    requires Measurable(splines, n) && |splines| == |lengths| && c.index < |splines|
    requires seg.displacement - c.start > lengths[c.index]
    ensures var p := Place(m, splines, lengths, n, seg, c);
      Coord(p.x, p.y) == SplineUtils.GetCoords(m, splines[|splines| - 1], 1.0)
  {}

  /**
    With the splines `prepare` keeps, a segment beyond the last spline lands on
    the end of the last kept spline: the final waypoint, or the one before it
    when a reversed fit was kept.
  */
  lemma PlacePastEnd(m: MathLib, path: seq<Waypoint>, splines: seq<Spline>, lengths: seq<real>, n: int, seg: Segment, c: Cursor)
    requires Axioms(m) && 2 <= |path| && |splines| == |lengths| == |path| - 1
    requires Measurable(splines, n) && c.index < |splines| && seg.displacement - c.start > lengths[c.index]
    requires SplineGenerator.KnotDistance(m, path[|path| - 2], path[|path| - 1]) != 0.0
    requires Kept(m, path[|path| - 2], path[|path| - 1], n, splines[|splines| - 1])
    ensures var p := Place(m, splines, lengths, n, seg, c);
      Coord(p.x, p.y) == Coord(path[|path| - 1].x, path[|path| - 1].y) || Coord(p.x, p.y) == Coord(path[|path| - 2].x, path[|path| - 2].y)
  {
    PlacePinned(m, splines, lengths, n, seg, c);
    KeptEnds(m, path[|path| - 2], path[|path| - 1], n, splines[|splines| - 1]);
  }

  /** The segments `generate` returns: the first `count` placed by the cursor after each, the rest as planned. */
  function Generated(m: MathLib, splines: seq<Spline>, lengths: seq<real>, n: int, planned: seq<Segment>, count: nat): (r: seq<Segment>)
    requires Measurable(splines, n) && |splines| == |lengths| && 0 < |splines| && count <= |planned|
    ensures |r| == |planned|
  {
    seq(|planned|, i requires 0 <= i < |planned| =>
      if i < count then Place(m, splines, lengths, n, planned[i], CursorAt(lengths, |splines| - 1, planned, i + 1)) else planned[i])
  }

  /** Placing segment i extends the placed prefix by one; the segment at i is still as planned before that. */
  lemma GeneratedStep(m: MathLib, splines: seq<Spline>, lengths: seq<real>, n: int, planned: seq<Segment>, i: nat, placed: Segment)
    requires Measurable(splines, n) && |splines| == |lengths| && 0 < |splines| && i < |planned|
    requires placed == Place(m, splines, lengths, n, planned[i], CursorAt(lengths, |splines| - 1, planned, i + 1))
    ensures Generated(m, splines, lengths, n, planned, i)[i] == planned[i]
    ensures Generated(m, splines, lengths, n, planned, i + 1) == Generated(m, splines, lengths, n, planned, i)[i := placed]
  {}

  class TrajectoryGenerator {
    const path: seq<Waypoint>
    const planner: Planner.TrajectoryPlanner
    /** The trajectory record: kept splines, their lengths, the total, the planned length and the path length. */
    var splineList: seq<Spline>
    var lengthList: seq<real>
    var totalLength: real
    var length: int
    var pathLength: int

    /** The state a successful `prepare` leaves, which `generate` relies on. */
    predicate Prepared(m: MathLib)
      reads this, planner
    {
      && 2 <= |path| && pathLength == |path|
      && |splineList| == |lengthList| == |path| - 1
      && Measurable(splineList, planner.config.sampleCount)
      && planner.info.Some? && length == planner.info.value.length
    }

    /**
      `__init__`: a fresh planner for `config`, then `prepare`. With fewer
      than two waypoints nothing is prepared; otherwise the kept splines,
      their lengths and total are recorded and the planner is prepared for
      that total, the generator being `Prepared` exactly when the planner's
      `prepare` does not raise.
    */
    constructor (m: MathLib, path: seq<Waypoint>, config: TrajectoryConfig)
      requires 2 <= |path| ==> config.sampleCount != 0 && Separated(m, path)
      ensures this.path == path && fresh(planner)
      ensures |path| < 2 ==>
        && planner.config == config && planner.info.None?
        && splineList == [] && lengthList == [] && totalLength == 0.0 && length == 0 && pathLength == 0
      ensures 2 <= |path| ==>
        && KeptAll(m, path, config.sampleCount, splineList)
        && lengthList == Lengths(splineList)
        && totalLength == Sum(lengthList)
        && planner.config == config.(destPos := totalLength, srcTheta := path[0].angle, destTheta := path[0].angle)
        && planner.info == Planner.PrepareInfo(m, planner.config)
        && (planner.info.Some? ==> Prepared(m) && length == planner.info.value.length)
        && (planner.info.None? ==> length == 0 && pathLength == 0)
    {
      this.path := path;
      planner := new Planner.TrajectoryPlanner(config);
      splineList := [];
      lengthList := [];
      totalLength := 0.0;
      length := 0;
      pathLength := 0;
      new;
      var ok := Prepare(m);
    }

    /**
      `prepare`. With fewer than two waypoints it reports an error and changes
      nothing. Otherwise it keeps the shortest candidate for every pair, sums
      the lengths into the planner's destination, points both headings of the
      planner's configuration at the first waypoint's angle and prepares the
      planner; `ok` is false when the planner's `prepare` raises.
    */
    method Prepare(m: MathLib) returns (ok: bool)
      requires 2 <= |path| ==> planner.config.sampleCount != 0 && Separated(m, path)
      modifies this, planner
      ensures |path| < 2 ==> ok && unchanged(this) && unchanged(planner)
      ensures 2 <= |path| ==>
        && KeptAll(m, path, old(planner.config.sampleCount), splineList)
        && lengthList == Lengths(splineList)
        && totalLength == Sum(lengthList)
        && planner.config == old(planner.config).(destPos := totalLength, srcTheta := path[0].angle, destTheta := path[0].angle)
        && (ok <==> Planner.PrepareInfo(m, planner.config).Some?)
        && planner.info == (if ok then Planner.PrepareInfo(m, planner.config) else old(planner.info))
        && (ok ==> length == planner.info.value.length && pathLength == |path| && Prepared(m))
        && (!ok ==> length == old(length) && pathLength == old(pathLength))
    {
      if |path| < 2 {
        return true;
      }
      var n := planner.config.sampleCount;
      splineList, lengthList, totalLength := ChooseAll(m, path, n);
      planner.config := planner.config.(destPos := totalLength);
      planner.config := planner.config.(srcTheta := path[0].angle);
      planner.config := planner.config.(destTheta := path[0].angle);
      ok := planner.Prepare(m);
      if !ok {
        return;
      }
      length := planner.info.value.length;
      pathLength := |path|;
      KeptMeasurable(m, path, n, splineList);
    }

    /** The loop of `prepare`: the kept spline for every pair, their lengths and the running total. */
    static method ChooseAll(m: MathLib, path: seq<Waypoint>, n: int) returns (splines: seq<Spline>, lengths: seq<real>, total: real)
      requires 2 <= |path| && n != 0 && Separated(m, path)
      ensures KeptAll(m, path, n, splines)
      ensures lengths == Lengths(splines) && total == Sum(lengths)
    {
      splines := [];
      lengths := [];
      total := 0.0;
      var i := 0;
      while i < |path| - 1
        invariant 0 <= i <= |path| - 1
        invariant |splines| == i
        invariant KeptPrefix(m, path, n, splines)
        invariant lengths == Lengths(splines)
        invariant total == Sum(lengths)
      {
        var s, dist := Choose(m, path[i], path[i + 1], n);
        SumAppend(lengths, dist);
        KeptPrefixExtend(m, path, n, splines, s);
        LengthsAppend(splines, s);
        splines := splines + [s];
        lengths := lengths + [dist];
        total := total + dist;
        i := i + 1;
      }
    }

    /** One pass of `prepare`'s loop: fit and measure the four candidates and keep the first shortest. */
    static method Choose(m: MathLib, a: Waypoint, b: Waypoint, n: int) returns (s: Spline, dist: real)
      requires n != 0 && SplineGenerator.KnotDistance(m, a, b) != 0.0
      ensures Kept(m, a, b, n, s) && dist == s.arcLength
    {
      KnotSymmetric(m, a, b);
      var s3, dist3, s3Rev, dist3Rev, s5, dist5, s5Rev, dist5Rev;
      dist3, s3 := SplineUtils.GetArcLength(m, SplineGenerator.Fit(m, SplineGenerator.Cubic, a, b).value, n);
      dist3Rev, s3Rev := SplineUtils.GetArcLength(m, SplineGenerator.Fit(m, SplineGenerator.Cubic, b, a).value, n);
      dist5, s5 := SplineUtils.GetArcLength(m, SplineGenerator.Fit(m, SplineGenerator.Quintic, a, b).value, n);
      dist5Rev, s5Rev := SplineUtils.GetArcLength(m, SplineGenerator.Fit(m, SplineGenerator.Quintic, b, a).value, n);
      ghost var cs := [s3, s3Rev, s5, s5Rev];
      ghost var ds := [dist3, dist3Rev, dist5, dist5Rev];
      assert cs == Candidates(m, a, b, n);
      assert Lengths(cs) == ds;
      FourShortest(ds);
      ghost var k: nat;
      var minDist := Min(Min(Min(dist3, dist3Rev), dist5), dist5Rev);
      if minDist == dist3 {
        s, dist := s3, dist3;
        k := 0;
      } else if minDist == dist3Rev {
        s, dist := s3Rev, dist3Rev;
        k := 1;
      } else if minDist == dist5 {
        s, dist := s5, dist5;
        k := 2;
      } else {
        s, dist := s5Rev, dist5Rev;
        k := 3;
      }
      assert FirstShortest(Lengths(cs), k) && s == cs[k];
    }

    /**
      `generate`: the planner's segments, each of the first `length` placed on
      the spline its displacement falls on (or at the end of the last spline),
      walking the spline list forward only.
    */
    method Generate(m: MathLib) returns (segments: seq<Segment>)
      requires Prepared(m) && Planner.Plannable(planner.info.value)
      requires 0 < length ==> Planner.Planned(planner.info.value, length)[length - 1].displacement != 0.0
      ensures 0 < length ==>
        segments == Generated(m, splineList, lengthList, planner.config.sampleCount,
          Planner.Headed(Planner.Planned(planner.info.value, length), planner.config.srcTheta,
            planner.config.destTheta - planner.config.srcTheta, length),
          length)
      ensures length <= 0 ==> segments == []
    {
      var n := planner.config.sampleCount;
      segments := planner.Create();
      segments := PlaceAll(m, splineList, lengthList, n, segments, length);
    }

    /** The loop of `generate`: place the first `count` segments, carrying the cursor from one to the next. */
    static method PlaceAll(m: MathLib, splines: seq<Spline>, splineLengths: seq<real>, n: int, planned: seq<Segment>, count: int)
      returns (segments: seq<Segment>)
      requires Measurable(splines, n) && |splines| == |splineLengths| && 0 < |splines| && count <= |planned|
      ensures count <= 0 ==> segments == planned
      ensures 0 < count ==> segments == Generated(m, splines, splineLengths, n, planned, count)
    {
      segments := planned;
      var last := |splines| - 1;
      var splineI := 0;
      var splinePosInitial := 0.0;
      var i := 0;
      while i < count
        invariant 0 <= i <= |planned| && (0 < count ==> i <= count)
        invariant count <= 0 ==> segments == planned
        invariant segments == Generated(m, splines, splineLengths, n, planned, i)
        invariant Cursor(splineI, splinePosInitial) == CursorAt(splineLengths, last, planned, i)
      {
        assert segments[i] == planned[i];
        var placed, c := Walk(m, splines, splineLengths, n, segments[i], Cursor(splineI, splinePosInitial));
        assert c == CursorAt(splineLengths, last, planned, i + 1);
        GeneratedStep(m, splines, splineLengths, n, planned, i, placed);
        segments := segments[i := placed];
        splineI, splinePosInitial := c.index, c.start;
        i := i + 1;
      }
    }

    /**
      The inner walk of `generate` for one segment: move past every spline the
      segment's displacement lies beyond (never past the last), then place it.
    */
    static method Walk(m: MathLib, splines: seq<Spline>, splineLengths: seq<real>, n: int, seg: Segment, c: Cursor)
      returns (placed: Segment, c': Cursor)
      requires Measurable(splines, n) && |splines| == |splineLengths| && c.index < |splines|
      ensures c' == Locate(splineLengths, |splines| - 1, seg.displacement, c)
      ensures placed == Place(m, splines, splineLengths, n, seg, c')
    {
      var last := |splines| - 1;
      var displacement := seg.displacement;
      var splineI := c.index;
      var splinePosInitial := c.start;
      while true
        invariant splineI <= last
        invariant Locate(splineLengths, last, displacement, Cursor(splineI, splinePosInitial)) == Locate(splineLengths, last, displacement, c)
        decreases last - splineI
      {
        var posRelative := displacement - splinePosInitial;
        if posRelative <= splineLengths[splineI] {
          var si := splines[splineI];
          var percentage := SplineUtils.GetProgressForDistance(m, si, posRelative, n);
          var coords := SplineUtils.GetCoords(m, si, percentage);
          placed := seg.(heading := SplineUtils.GetAngle(m, si, percentage));
          placed := placed.(x := coords.x);
          placed := placed.(y := coords.y);
          assert placed == OnSpline(m, si, posRelative, n, seg);
          c' := Cursor(splineI, splinePosInitial);
          return;
        } else if splineI < last {
          splinePosInitial := splinePosInitial + splineLengths[splineI];
          splineI := splineI + 1;
        } else {
          var si := splines[last];
          placed := seg.(heading := SplineUtils.GetAngle(m, si, 1.0));
          var coords := SplineUtils.GetCoords(m, si, 1.0);
          placed := placed.(x := coords.x);
          placed := placed.(y := coords.y);
          assert placed == AtEnd(m, si, seg);
          c' := Cursor(splineI, splinePosInitial);
          return;
        }
      }
    }
  }
}
