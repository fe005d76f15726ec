/**
  Angle bounding (mathutil.py).

  `BoundHalfDegrees` runs the two loops of `boundHalfDegress` as written; the
  second loop brings the angle up to 180 or beyond, so the result lies in
  [180, 540) rather than the half-turn range its comment announces.
  `BoundHalfDegreesIntended` is that range. `BoundRadians` is the
  fmod-and-adjust expression of `bound_radians`.
*/
module MathUtil {
  import opened Transcendental

  /** The decimal constant the source writes for pi. */
  const PI: real := 3.14159265358979323846
  const TAU: real := 2.0 * PI

  /** `k` whole periods; named so that congruence statements have a term to trigger on. */
  function Multiple(k: int, period: real): real
  {
    k as real * period
  }

  /** `x` and `y` differ by a whole number of periods. */
  ghost predicate Congruent(x: real, y: real, period: real)
  {
    exists k: int :: x == y + Multiple(k, period)
  }

  /** `boundHalfDegress` as written: the first loop leaves the angle below 180, the second raises it to [180, 540). */
  method BoundHalfDegrees(angle: real) returns (r: real)
    ensures 180.0 <= r < 540.0
    ensures Congruent(r, angle, 360.0)
  {
    r := angle;
    ghost var k: int := 0;
    while r >= 180.0
      invariant r == angle + Multiple(k, 360.0)
      decreases (r - 180.0).Floor
    {
      r := r - 360.0;
      k := k - 1;
    }
    assert r < 180.0;
    while r < 180.0
      invariant r < 540.0
      invariant r == angle + Multiple(k, 360.0)
      decreases (180.0 - r).Floor
    {
      r := r + 360.0;
      k := k + 1;
    }
  }

  /**
    The contract of `BoundHalfDegrees` pins its result for an input of 0:
    it is 360, which is not in the half-turn range [-180, 180).
  */
  lemma HalfDegreesOfZero(r: real)
    requires 180.0 <= r < 540.0 && Congruent(r, 0.0, 360.0)
    ensures r == 360.0
    ensures !(-180.0 <= r < 180.0)
  {
    var k: int :| r == 0.0 + Multiple(k, 360.0);
  }

  /** The half-turn bounding the source's comment describes: the second loop stops at -180. */
  method BoundHalfDegreesIntended(angle: real) returns (r: real)
    ensures -180.0 <= r < 180.0
    ensures Congruent(r, angle, 360.0)
  {
    r := angle;
    ghost var k: int := 0;
    while r >= 180.0
      invariant r == angle + Multiple(k, 360.0)
      decreases (r - 180.0).Floor
    {
      r := r - 360.0;
      k := k - 1;
    }
    while r < -180.0
      invariant r < 180.0
      invariant r == angle + Multiple(k, 360.0)
      decreases (-180.0 - r).Floor
    {
      r := r + 360.0;
      k := k + 1;
    }
  }

  /**
    `fmod(angle, period)`, moved up by one period when negative. `bound_radians`
    uses the period TAU; the copy nested in splines/hermite.py uses 2 * 3.14159265.
  */
  function BoundAngle(angle: real, period: real): (r: real)
    requires 0.0 < period
    ensures 0.0 <= r < period
    ensures Congruent(r, angle, period)
  {
    var m := FMod(angle, period);
    var k := Trunc(angle / period);
    if m < 0.0 then
      assert period + m == angle + Multiple(-k + 1, period);
      period + m
    else
      assert m == angle + Multiple(-k, period);
      m
  }

  /** `bound_radians`. */
  function BoundRadians(angle: real): (r: real)
    ensures 0.0 <= r < TAU
    ensures Congruent(r, angle, TAU)
  {
    BoundAngle(angle, TAU)
  }

  /** An angle already in [0, period) is left unchanged. */
  lemma BoundAngleIdentity(angle: real, period: real)
    requires 0.0 < period && 0.0 <= angle < period
    ensures BoundAngle(angle, period) == angle
  {
    QuotientBelowOne(angle, period);
    assert Trunc(angle / period) == 0;
  }

  lemma QuotientBelowOne(x: real, y: real)
    requires 0.0 <= x < y
    ensures 0.0 <= x / y < 1.0
  {}

  /** Bounding twice is bounding once. */
  lemma BoundAngleIdempotent(angle: real, period: real)
    requires 0.0 < period
    ensures BoundAngle(BoundAngle(angle, period), period) == BoundAngle(angle, period)
  {
    BoundAngleIdentity(BoundAngle(angle, period), period);
  }

  lemma MultipleAdd(i: int, j: int, period: real)
    ensures Multiple(i, period) + Multiple(j, period) == Multiple(i + j, period)
  {}

  /** The only multiple of a period strictly between -period and period is 0. */
  lemma MultipleSmall(j: int, period: real)
    requires 0.0 < period && -period < Multiple(j, period) < period
    ensures j == 0
  {
    if j >= 1 {
      MulMonotone(1.0, j as real, period);
    } else if j <= -1 {
      MulMonotone(j as real, -1.0, period);
    }
  }

  /** Two angles a whole number of periods apart are bounded to the same value. */
  lemma BoundAngleCongruent(a: real, b: real, period: real)
    requires 0.0 < period && Congruent(a, b, period)
    ensures BoundAngle(a, period) == BoundAngle(b, period)
  {
    var ra, rb := BoundAngle(a, period), BoundAngle(b, period);
    var i: int :| a == b + Multiple(i, period);
    var ka: int :| ra == a + Multiple(ka, period);
    var kb: int :| rb == b + Multiple(kb, period);
    MultipleAdd(i, ka, period);
    MultipleAdd(i + ka, -kb, period);
    MultipleAdd(kb, -kb, period);
    MultipleSmall(i + ka - kb, period);
  }
}
