/**
  The filter-chain planner (TrajectoryPlanner.py).

  `prepare` turns the limits of a `TrajectoryConfig` into a `TrajectoryInfo`:
  a top speed no motion of the configured length can exceed, two filter
  lengths (in time steps) and the impulse that drives them. The plan then
  pushes that impulse through two box filters: the first integrates the
  input into a buffer clamped to [0, filter1], the second averages the last
  filter2 entries of that buffer, and the average, scaled by the top speed,
  is the velocity of each time step. Displacement, acceleration and jerk are
  integrated and differenced from it.
*/
module TrajectoryPlanner {
  import opened Wrappers
  import opened Transcendental
  import opened Records

  function Min(x: real, y: real): real
  {
    if y < x then y else x
  }

  function Max(x: real, y: real): real
  {
    if y > x then y else x
  }

  /** The number under the square root of line 16: a^4 + 4 j^2 a d. */
  function Radicand(c: TrajectoryConfig): real
  {
    var a2 := c.maxA * c.maxA;
    var j2 := c.maxJ * c.maxJ;
    a2 * a2 + 4.0 * (j2 * c.maxA * c.destPos)
  }

  /** The speed that ramping up with jerk j to acceleration a exactly covers the distance with: (-a^2 + sqrt(radicand)) / (2j). */
  function ReachableSpeed(m: MathLib, c: TrajectoryConfig): real
    requires c.maxJ != 0.0
  {
    (-(c.maxA * c.maxA) + Sqrt(m, Radicand(c))) / (2.0 * c.maxJ)
  }

  /**
    The reachable speed v is the root of d = v (v / a + a / j): the distance
    covered in the time v / a + a / j that it takes to reach v and leave it
    again under those limits.
  */
  lemma ReachableSpeedCovers(m: MathLib, c: TrajectoryConfig)
    requires Axioms(m) && c.maxJ != 0.0 && c.maxA != 0.0 && 0.0 <= Radicand(c)
    ensures var v := ReachableSpeed(m, c);
      v * (v / c.maxA + c.maxA / c.maxJ) == c.destPos
  {
    var s := Sqrt(m, Radicand(c));
    RootCovers(c.maxA, c.maxJ, c.destPos, s);
  }

  lemma RootCovers(a: real, j: real, d: real, s: real)
    requires j != 0.0 && a != 0.0
    requires s * s == (a * a) * (a * a) + 4.0 * ((j * j) * a * d)
    ensures var v := (-(a * a) + s) / (2.0 * j);
      v * (v / a + a / j) == d
  {
    var aa := a * a;
    var v := (-aa + s) / (2.0 * j);
    assert s == 2.0 * j * v + aa;
    assert s * s == 4.0 * (j * j) * (v * v) + 4.0 * j * v * aa + aa * aa;
    assert (j * j) * (v * v) + j * v * aa == (j * j) * a * d;
    assert j * (j * (v * v) + v * aa) == j * (j * a * d);
    assert j * (v * v) + v * aa == j * a * d;
    assert v * (v / a + a / j) * (a * j) == j * (v * v) + v * aa;
  }

  /**
    `prepare` as a value. `None` stands for the errors the source raises: a
    negative radicand (outside sqrt's domain) or a division by zero in the
    maximum jerk, the maximum acceleration, the time step or the checked
    speed.
  */
  function PrepareInfo(m: MathLib, c: TrajectoryConfig): (r: Option<TrajectoryInfo>)
    ensures r.None? <==>
      || Radicand(c) < 0.0 || c.maxJ == 0.0 || c.maxA == 0.0 || c.dt == 0.0
      || Min(c.maxV, ReachableSpeed(m, c)) == 0.0
  {
    if Radicand(c) < 0.0 || c.maxJ == 0.0 then None
    else
      var checkedMaxV := Min(c.maxV, ReachableSpeed(m, c));
      if c.maxA == 0.0 || c.dt == 0.0 || checkedMaxV == 0.0 then None
      else
        var filter1 := Ceil((checkedMaxV / c.maxA) / c.dt);
        var filter2 := Ceil((c.maxA / c.maxJ) / c.dt);
        var impulse := (c.destPos / checkedMaxV) / c.dt;
        var time := Ceil(filter1 as real + filter2 as real + impulse);
        Some(TrajectoryInfo(filter1, filter2, time, c.dt, 0.0, checkedMaxV, impulse))
  }

  /**
    A prepared plan cruises at no more than the configured maximum speed nor
    the reachable one; each filter is the least whole number of time steps
    that spans its ramp (speed over acceleration, acceleration over jerk);
    the impulse is the cruise time in steps; the plan's length is the least
    whole number of steps that spans both filters and the impulse; it
    starts from speed 0.
  */
  lemma PrepareMeaning(m: MathLib, c: TrajectoryConfig)
    requires PrepareInfo(m, c).Some?
    ensures var info := PrepareInfo(m, c).value;
      && info.v <= c.maxV && info.v <= ReachableSpeed(m, c)
      && info.filter1 as real - 1.0 < (info.v / c.maxA) / c.dt <= info.filter1 as real
      && info.filter2 as real - 1.0 < (c.maxA / c.maxJ) / c.dt <= info.filter2 as real
      && info.impulse * c.dt * info.v == c.destPos
      && info.length as real - 1.0 < info.filter1 as real + info.filter2 as real + info.impulse <= info.length as real
      && info.dt == c.dt && info.u == 0.0
  {
    var info := PrepareInfo(m, c).value;
    var q := c.destPos / info.v;
    assert info.impulse == q / c.dt;
    assert info.impulse * c.dt == q;
  }

  /** How many times the plan's loop runs: `range(length)` is empty for a length of 0 or less. */
  function Steps(length: int): nat
  {
    if length < 0 then 0 else length
  }

  /** The impulse left before pass k of the plan's loop. */
  function ImpulseLeft(impulse: real, k: nat): real
  {
    if k == 0 then impulse
    else
      var p := ImpulseLeft(impulse, k - 1);
      if Min(p, 1.0) < 1.0 then 0.0 else p - Min(p, 1.0)
  }

  /** The first filter's input at pass k: a whole unit while one is left, otherwise what is left minus 1. */
  function Input(impulse: real, k: nat): real
  {
    var p := ImpulseLeft(impulse, k);
    var input := Min(p, 1.0);
    if input < 1.0 then input - 1.0 else input
  }

  /** The impulse left never goes negative once the loop has run. */
  lemma {:induction false} ImpulseNonNegative(impulse: real, k: nat)
    requires 0.0 <= impulse || 0 < k
    ensures 0.0 <= ImpulseLeft(impulse, k)
  {
    if 1 < k {
      ImpulseNonNegative(impulse, k - 1);
    }
  }

  /** For a non-negative impulse i, the impulse is spent one unit per pass for floor(i) passes, then it is 0. */
  lemma {:induction false} ImpulseSpent(impulse: real, k: nat)
    requires 0.0 <= impulse
    ensures k <= impulse.Floor ==> ImpulseLeft(impulse, k) == impulse - k as real
    ensures impulse.Floor < k ==> ImpulseLeft(impulse, k) == 0.0
  {
    if k > 0 {
      ImpulseSpent(impulse, k - 1);
    }
  }

  /**
    The input schedule: 1 for the first floor(i) passes, then the fraction of
    the impulse minus 1, then -1 for every later pass.
  */
  lemma InputSchedule(impulse: real, k: nat)
    requires 0.0 <= impulse
    ensures k < impulse.Floor ==> Input(impulse, k) == 1.0
    ensures k == impulse.Floor ==> Input(impulse, k) == impulse - impulse.Floor as real - 1.0
    ensures impulse.Floor < k ==> Input(impulse, k) == -1.0
  {
    ImpulseSpent(impulse, k);
  }

  /** `max(0.0, min(filter1, x))` */
  function Clamp(hi: real, x: real): (r: real)
    ensures 0.0 <= hi ==> 0.0 <= r <= hi
    ensures 0.0 <= x <= hi ==> r == x
  {
    Max(0.0, Min(hi, x))
  }

  /** What the plan's loop needs of its info: it divides by the top speed, and, once it runs, by both filter lengths and the time step. */
  predicate Plannable(info: TrajectoryInfo)
  {
    info.v != 0.0 && (0 < info.length ==> info.filter1 != 0 && info.filter2 != 0 && info.dt != 0.0)
  }

  /** `f1_buffer[i]` once pass i has stored it: the previous entry (the seed u / v * filter1 at pass 0) plus the input, clamped. */
  function F1(info: TrajectoryInfo, i: nat): real
    requires info.v != 0.0
  {
    var last := if i == 0 then (info.u / info.v) * info.filter1 as real else F1(info, i - 1);
    Clamp(info.filter1 as real, last + Input(info.impulse, i))
  }

  /** The sum of the j newest entries of the buffer at pass i: f1[i] + f1[i-1] + ... + f1[i-j+1]. */
  function Window(info: TrajectoryInfo, i: nat, j: nat): real
    requires info.v != 0.0 && j <= i + 1
  {
    if j == 0 then 0.0 else Window(info, i, j - 1) + F1(info, i - (j - 1))
  }

  /** Each window of j entries lies in [0, j * filter1]. */
  lemma {:induction false} WindowBounds(info: TrajectoryInfo, i: nat, j: nat)
    requires info.v != 0.0 && j <= i + 1 && 0 <= info.filter1
    ensures 0.0 <= Window(info, i, j) <= j as real * info.filter1 as real
  {
    var f1 := info.filter1 as real;
    if j == 0 {
      assert j as real * f1 == 0.0;
    } else {
      WindowBounds(info, i, j - 1);
      var w, x := Window(info, i, j - 1), F1(info, i - (j - 1));
      assert Window(info, i, j) == w + x;
      AddBound(w, x, (j - 1) as real, j as real, f1);
    }
  }

  lemma AddBound(w: real, x: real, n: real, n': real, f: real)
    requires w <= n * f && x <= f && n' == n + 1.0
    ensures w + x <= n' * f
  {}

  /** How many entries the second filter sums at pass i: filter2 of them, or all i + 1 while fewer are stored. */
  function Terms(filter2: int, i: nat): (n: nat)
    ensures n <= i + 1
  {
    if filter2 <= 0 then 0 else if filter2 < i + 1 then filter2 else i + 1
  }

  /** The velocity of pass i: the second filter's sum over filter1, over filter2, times the top speed. */
  function Velocity(info: TrajectoryInfo, i: nat): real
    requires info.v != 0.0 && info.filter1 != 0 && info.filter2 != 0
  {
    Window(info, i, Terms(info.filter2, i)) / info.filter1 as real / info.filter2 as real * info.v
  }

  lemma VelocityFrom(info: TrajectoryInfo, i: nat, sum: real, f2: real)
    requires info.v != 0.0 && info.filter1 != 0 && info.filter2 != 0
    requires sum == Window(info, i, Terms(info.filter2, i)) && f2 == sum / info.filter1 as real
    ensures Velocity(info, i) == f2 / info.filter2 as real * info.v
  {}

  /** With positive filters and a non-negative top speed, every velocity lies in [0, v]. */
  lemma VelocityBounds(info: TrajectoryInfo, i: nat)
    requires info.v != 0.0 && 0 < info.filter1 && 0 < info.filter2 && 0.0 <= info.v
    ensures 0.0 <= Velocity(info, i) <= info.v
  {
    var n := Terms(info.filter2, i);
    var f1, f2 := info.filter1 as real, info.filter2 as real;
    var w := Window(info, i, n);
    WindowBounds(info, i, n);
    MulMonotone(n as real, f2, f1);
    Share(w, f1, f2, info.v);
  }

  /** A sum of at most f2 terms in [0, f1], divided by f1 and by f2, is a share in [0, 1] of v. */
  lemma Share(w: real, f1: real, f2: real, v: real)
    requires 0.0 < f1 && 0.0 < f2 && 0.0 <= v && 0.0 <= w <= f2 * f1
    ensures 0.0 <= w / f1 / f2 * v <= v
  {
    var p := w / f1;
    assert p * f1 == w;
    assert p <= f2 by {
      if p > f2 {
        MulStrict(f2, p, f1);
      }
    }
    var q := p / f2;
    assert q * f2 == p;
    assert 0.0 <= q <= 1.0 by {
      if q > 1.0 {
        MulStrict(1.0, q, f2);
      }
    }
    MulMonotone(q, 1.0, v);
    MulNonNeg(q, v);
  }

  /** The section before the first: at rest at distance 0 except for the start velocity u. */
  function Initial(info: TrajectoryInfo): Segment
  {
    Segment(info.dt, 0.0, 0.0, 0.0, info.u, 0.0, 0.0, 0.0)
  }

  /**
    The segment after `last` at the given velocity: displacement by the
    trapezoid rule, acceleration and jerk as backward differences over dt,
    x along the displacement, y and heading 0.
  */
  function Advance(last: Segment, dt: real, velocity: real): Segment
    requires dt != 0.0
  {
    var displacement := (last.velocity + velocity) / 2.0 * dt + last.displacement;
    var acceleration := (velocity - last.velocity) / dt;
    Segment(dt, displacement, 0.0, displacement, velocity, acceleration, (acceleration - last.acceleration) / dt, 0.0)
  }

  /** `s` follows `last` over dt: trapezoid-rule displacement, acceleration and jerk as backward differences. */
  predicate Follows(last: Segment, s: Segment, dt: real)
  {
    && s.displacement - last.displacement == (last.velocity + s.velocity) / 2.0 * dt
    && s.acceleration * dt == s.velocity - last.velocity
    && s.jerk * dt == s.acceleration - last.acceleration
  }

  /** What `Advance` means: the new segment follows the last at the given velocity, along x, with y and heading 0. */
  lemma AdvanceKinematics(last: Segment, dt: real, velocity: real)
    requires dt != 0.0
    ensures var s := Advance(last, dt, velocity);
      && s.dt == dt && s.velocity == velocity
      && s.x == s.displacement && s.y == 0.0 && s.heading == 0.0
      && Follows(last, s, dt)
  {
    var acceleration := (velocity - last.velocity) / dt;
    assert acceleration * dt == velocity - last.velocity;
    assert (acceleration - last.acceleration) / dt * dt == acceleration - last.acceleration;
  }

  function LastOf(info: TrajectoryInfo, segments: seq<Segment>): Segment
  {
    if |segments| == 0 then Initial(info) else segments[|segments| - 1]
  }

  /** The first k segments of the plan. */
  function Planned(info: TrajectoryInfo, k: nat): (s: seq<Segment>)
    requires Plannable(info) && k <= Steps(info.length)
    ensures |s| == k
  {
    if k == 0 then []
    else
      var p := Planned(info, k - 1);
      p + [Advance(LastOf(info, p), info.dt, Velocity(info, k - 1))]
  }

  /** Later passes only append: the first i segments of a longer plan are the plan of i steps. */
  lemma {:induction false} PlannedPrefix(info: TrajectoryInfo, i: nat, k: nat)
    requires Plannable(info) && i <= k <= Steps(info.length)
    ensures Planned(info, k)[..i] == Planned(info, i)
  {
    if i < k {
      PlannedPrefix(info, i, k - 1);
      assert Planned(info, k)[..k - 1] == Planned(info, k - 1);
    }
  }

  /** Segment i of a plan follows segment i - 1 (the initial section for i = 0) at the velocity of pass i. */
  lemma PlannedAt(info: TrajectoryInfo, k: nat, i: nat)
    requires Plannable(info) && k <= Steps(info.length) && i < k
    ensures var s := Planned(info, k);
      s[i] == Advance(if i == 0 then Initial(info) else s[i - 1], info.dt, Velocity(info, i))
  {
    var s := Planned(info, k);
    var p := Planned(info, i);
    PlannedPrefix(info, i + 1, k);
    PlannedPrefix(info, i, k);
    assert s[i] == Planned(info, i + 1)[i];
    assert i > 0 ==> s[i - 1] == p[i - 1];
  }

  /**
    Segment i of the plan moves at the filtered velocity of pass i, within
    [0, v] when the filters are positive and v is not negative, and follows
    the segment before it (the initial section for i = 0) by the trapezoid
    rule and backward differences.
  */
  lemma PlanKinematics(info: TrajectoryInfo, k: nat, i: nat)
    requires Plannable(info) && k <= Steps(info.length) && i < k
    ensures var s := Planned(info, k);
      var prev := if i == 0 then Initial(info) else s[i - 1];
      && s[i].velocity == Velocity(info, i)
      && (0 < info.filter1 && 0 < info.filter2 && 0.0 <= info.v ==> 0.0 <= s[i].velocity <= info.v)
      && Follows(prev, s[i], info.dt)
      && s[i].x == s[i].displacement && s[i].y == 0.0 && s[i].heading == 0.0
  {
    PlannedAt(info, k, i);
    var s := Planned(info, k);
    var prev, seg := if i == 0 then Initial(info) else s[i - 1], s[i];
    assert seg == Advance(prev, info.dt, Velocity(info, i));
    AdvanceKinematics(prev, info.dt, Velocity(info, i));
    if 0 < info.filter1 && 0 < info.filter2 && 0.0 <= info.v {
      VelocityBounds(info, i);
    }
  }

  /** The heading `create` gives a segment: src + (dest - src) times its share of the final displacement. */
  function HeadingAt(src: real, dTheta: real, displacement: real, final: real): real
    requires final != 0.0
  {
    src + dTheta * displacement / final
  }

  /** The planned segments with their headings interpolated. */
  function Headed(segments: seq<Segment>, src: real, dTheta: real, n: nat): (r: seq<Segment>)
    requires 0 < |segments| && segments[|segments| - 1].displacement != 0.0 && n <= |segments|
    ensures |r| == |segments|
  {
    var final := segments[|segments| - 1].displacement;
    seq(|segments|, i requires 0 <= i < |segments| =>
      if i < n then segments[i].(heading := HeadingAt(src, dTheta, segments[i].displacement, final)) else segments[i])
  }

  /** The interpolated heading starts at the source heading for no displacement and ends at the destination heading. */
  lemma HeadingEnds(src: real, dest: real, final: real)
    requires final != 0.0
    ensures HeadingAt(src, dest - src, 0.0, final) == src
    ensures HeadingAt(src, dest - src, final, final) == dest
  {
    var d := dest - src;
    assert d * final / final == d * (final / final);
    DivSelf(final);
  }

  class TrajectoryPlanner {
    /** Shared with the caller, which fills in the destination before `prepare`. */
    var config: TrajectoryConfig
    var info: Option<TrajectoryInfo>

    constructor (config: TrajectoryConfig)
      ensures this.config == config && info.None?
    {
      this.config := config;
      info := None;
    }

    /**
      `prepare`. The result says whether it returned normally; on an error
      the source raises before assigning, so `info` is left as it was.
    */
    method Prepare(m: MathLib) returns (ok: bool)
      modifies this
      ensures config == old(config)
      ensures ok <==> PrepareInfo(m, config).Some?
      ensures info == if ok then PrepareInfo(m, config) else old(info)
    {
      var radicand := Radicand(config);
      if radicand < 0.0 || config.maxJ == 0.0 {
        return false;
      }
      var checkedMaxV := Min(config.maxV, ReachableSpeed(m, config));
      if config.maxA == 0.0 || config.dt == 0.0 || checkedMaxV == 0.0 {
        return false;
      }
      var filter1 := Ceil((checkedMaxV / config.maxA) / config.dt);
      var filter2 := Ceil((config.maxA / config.maxJ) / config.dt);
      var impulse := (config.destPos / checkedMaxV) / config.dt;
      var time := Ceil(filter1 as real + filter2 as real + impulse);
      info := Some(TrajectoryInfo(filter1, filter2, time, config.dt, 0.0, checkedMaxV, impulse));
      ok := true;
    }

    /** `plan_fromSecondOrderFilter`: exactly `length` segments (none for a length below 1), those of `Planned`. */
    method PlanFromSecondOrderFilter() returns (segments: seq<Segment>)
      requires info.Some? && Plannable(info.value)
      ensures segments == Planned(info.value, Steps(info.value.length))
    {
      var inf := info.value;
      var lastSection := Initial(inf);
      var f1Buffer := [(inf.u / inf.v) * inf.filter1 as real];
      segments := [];
      var impulse := inf.impulse;
      var i := 0;
      while i < inf.length
        invariant 0 <= i <= Steps(inf.length)
        invariant segments == Planned(inf, i)
        invariant lastSection == LastOf(inf, segments)
        invariant impulse == ImpulseLeft(inf.impulse, i)
        invariant |f1Buffer| == if i == 0 then 1 else i
        invariant i == 0 ==> f1Buffer[0] == (inf.u / inf.v) * inf.filter1 as real
        invariant forall k :: 0 <= k < i ==> f1Buffer[k] == F1(inf, k)
      {
        f1Buffer, impulse := FirstFilter(inf, f1Buffer, impulse, i);
        var f2 := SecondFilter(inf, f1Buffer, i);
        ghost var sum := f2;
        f2 := f2 / inf.filter1 as real;
        var velocity := f2 / inf.filter2 as real * inf.v;
        VelocityFrom(inf, i, sum, f2);
        var seg := NextSection(lastSection, inf.dt, velocity);
        assert Planned(inf, i + 1) == segments + [seg];
        segments := segments + [seg];
        lastSection := seg;
        i := i + 1;
      }
    }

    /** One pass of the first filter: the input taken from the impulse and the clamped new buffer entry, stored at index i. */
    static method FirstFilter(inf: TrajectoryInfo, f1Buffer: seq<real>, impulse: real, i: nat) returns (f1Buffer': seq<real>, impulse': real)
      requires inf.v != 0.0 && impulse == ImpulseLeft(inf.impulse, i)
      requires |f1Buffer| == if i == 0 then 1 else i
      requires i == 0 ==> f1Buffer[0] == (inf.u / inf.v) * inf.filter1 as real
      requires forall k :: 0 <= k < i ==> f1Buffer[k] == F1(inf, k)
      ensures |f1Buffer'| == i + 1 && impulse' == ImpulseLeft(inf.impulse, i + 1)
      ensures forall k :: 0 <= k <= i ==> f1Buffer'[k] == F1(inf, k)
    {
      var entry;
      entry, impulse' := FilterInput(inf, impulse, if i > 0 then f1Buffer[i - 1] else f1Buffer[0], i);
      if i < |f1Buffer| {
        f1Buffer' := f1Buffer[i := entry];
      } else {
        f1Buffer' := f1Buffer + [entry];
      }
    }

    /** The input of pass i, taken from the impulse, and the new buffer entry: the last entry plus the input, clamped. */
    static method FilterInput(inf: TrajectoryInfo, impulse: real, f1Last: real, i: nat) returns (entry: real, impulse': real)
      requires inf.v != 0.0 && impulse == ImpulseLeft(inf.impulse, i)
      requires f1Last == if i == 0 then (inf.u / inf.v) * inf.filter1 as real else F1(inf, i - 1)
      ensures entry == F1(inf, i) && impulse' == ImpulseLeft(inf.impulse, i + 1)
    {
      impulse' := impulse;
      var input := Min(impulse', 1.0);
      if input < 1.0 {
        input := input - 1.0;
        impulse' := 0.0;
      } else {
        impulse' := impulse' - input;
      }
      assert input == Input(inf.impulse, i);
      entry := Max(0.0, Min(inf.filter1 as real, f1Last + input));
    }

    /** The segment of one pass, built field by field as the source does. */
    static method NextSection(lastSection: Segment, dt: real, velocity: real) returns (seg: Segment)
      requires dt != 0.0
      ensures seg == Advance(lastSection, dt, velocity)
    {
      seg := Segment(dt, 0.0, 0.0, 0.0, 0.0, 0.0, 0.0, 0.0);
      seg := seg.(velocity := velocity);
      seg := seg.(displacement := (lastSection.velocity + seg.velocity) / 2.0 * seg.dt + lastSection.displacement);
      seg := seg.(x := seg.displacement);
      seg := seg.(y := 0.0);
      seg := seg.(acceleration := (seg.velocity - lastSection.velocity) / seg.dt);
      seg := seg.(jerk := (seg.acceleration - lastSection.acceleration) / seg.dt);
    }

    /** The inner loop of the plan: the sum of the newest `filter2` buffer entries, stopping at the start of the buffer. */
    static method SecondFilter(inf: TrajectoryInfo, f1Buffer: seq<real>, i: nat) returns (f2: real)
      requires inf.v != 0.0 && i < |f1Buffer|
      requires forall k :: 0 <= k <= i ==> f1Buffer[k] == F1(inf, k)
      ensures f2 == Window(inf, i, Terms(inf.filter2, i))
    {
      f2 := 0.0;
      var j := 0;
      while j < inf.filter2
        invariant 0 <= j <= Terms(inf.filter2, i)
        invariant f2 == Window(inf, i, j)
      {
        if i - j < 0 {
          break;
        }
        f2 := f2 + f1Buffer[i - j];
        j := j + 1;
      }
    }

    /**
      `create`: the plan with each heading interpolated between the source and
      destination headings by its share of the final displacement. The
      source divides by the final displacement, so it must not be 0.
    */
    method Create() returns (segments: seq<Segment>)
      requires info.Some? && Plannable(info.value)
      requires 0 < info.value.length ==> Planned(info.value, info.value.length)[info.value.length - 1].displacement != 0.0
      ensures 0 < info.value.length ==>
        segments == Headed(Planned(info.value, info.value.length), config.srcTheta, config.destTheta - config.srcTheta, info.value.length)
      ensures info.value.length <= 0 ==> segments == []
    {
      segments := PlanFromSecondOrderFilter();
      assert info.value.length <= 0 ==> segments == Planned(info.value, 0) == [];
      var dTheta := config.destTheta - config.srcTheta;
      ghost var planned := segments;
      var i := 0;
      while i < info.value.length
        invariant 0 <= i <= Steps(info.value.length)
        invariant 0 < info.value.length ==> |planned| == info.value.length && planned[|planned| - 1].displacement != 0.0
        invariant 0 < info.value.length ==> segments == Headed(planned, config.srcTheta, dTheta, i)
        invariant info.value.length <= 0 ==> segments == []
      {
        segments := segments[i := segments[i].(heading := config.srcTheta + dTheta * segments[i].displacement / segments[|segments| - 1].displacement)];
        i := i + 1;
      }
    }
  }
}
