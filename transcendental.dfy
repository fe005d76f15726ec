/**
  The parts of Python's `math` module that the trajectory code calls.

  `sqrt`, `sin`, `cos`, `tan`, `atan` and `atan2` have no closed form over
  Dafny's reals, so they are parameters of the model (`MathLib`) and every
  member that needs a fact about them asks for `Axioms(m)`. `fmod` and
  `ceil` do have exact real definitions and are defined here.
*/
module Transcendental {

  datatype MathLib = MathLib(
    sqrt: real -> real,
    sin: real -> real,
    cos: real -> real,
    tan: real -> real,
    atan: real -> real,
    atan2: (real, real) -> real)

  function Sqrt(m: MathLib, x: real): real { m.sqrt(x) }
  function Sin(m: MathLib, x: real): real { m.sin(x) }
  function Cos(m: MathLib, x: real): real { m.cos(x) }
  function Tan(m: MathLib, x: real): real { m.tan(x) }
  function Atan(m: MathLib, x: real): real { m.atan(x) }
  function Atan2(m: MathLib, y: real, x: real): real { m.atan2(y, x) }

  /** The length of the vector (x, y). */
  function Hypot(m: MathLib, x: real, y: real): real { Sqrt(m, x * x + y * y) }

  /** The order of the two legs does not matter. */
  lemma HypotSymmetric(m: MathLib, x: real, y: real)
    ensures Hypot(m, x, y) == Hypot(m, y, x)
  {
    assert x * x + y * y == y * y + x * x;
  }

  /** The only facts the model assumes of the transcendental functions. */
  ghost predicate Axioms(m: MathLib) {
    // sqrt is the non-negative square root on its domain
    && (forall x :: 0.0 <= x ==> 0.0 <= Sqrt(m, x) && Sqrt(m, x) * Sqrt(m, x) == x)
    && Sqrt(m, 0.0) == 0.0
    // Pythagoras
    && (forall x :: Sin(m, x) * Sin(m, x) + Cos(m, x) * Cos(m, x) == 1.0)
    // atan2 is the polar angle of (x, y)
    && (forall x, y :: Hypot(m, x, y) * Cos(m, Atan2(m, y, x)) == x
                    && Hypot(m, x, y) * Sin(m, Atan2(m, y, x)) == y)
  }

  function Sq(x: real): (r: real)
    ensures r >= 0.0
  {
    x * x
  }

  lemma DivSelf(r: real)
    requires r != 0.0
    ensures r / r == 1.0
  {}

  /** Products of positive reals are positive. */
  lemma MulPos(a: real, b: real)
    requires 0.0 < a && 0.0 < b
    ensures 0.0 < a * b
  {}

  lemma MulNonNeg(a: real, b: real)
    requires 0.0 <= a && 0.0 <= b
    ensures 0.0 <= a * b
  {}

  lemma SquarePositive(x: real)
    requires x != 0.0
    ensures 0.0 < x * x
  {
    if x > 0.0 {
      MulPos(x, x);
    } else {
      MulPos(-x, -x);
    }
  }

  lemma SquareNonNeg(x: real)
    ensures 0.0 <= x * x
  {
    if x != 0.0 {
      SquarePositive(x);
    }
  }

  /** Multiplying by a non-negative factor preserves order. */
  lemma MulMonotone(a: real, b: real, c: real)
    requires a <= b && 0.0 <= c
    ensures a * c <= b * c
  {
    if a < b && 0.0 < c {
      assert b * c - a * c == (b - a) * c;
    }
  }

  /** Multiplying by a positive factor preserves strict order. */
  lemma MulStrict(a: real, b: real, c: real)
    requires a < b && 0.0 < c
    ensures a * c < b * c
  {
    MulPos(b - a, c);
    assert b * c - a * c == (b - a) * c;
  }

  lemma SqrtPositive(m: MathLib, x: real)
    requires Axioms(m) && 0.0 < x
    ensures 0.0 < Sqrt(m, x)
  {
    var s := Sqrt(m, x);
    assert s * s == x;
  }

  /** A square root exceeds every non-negative number whose square it exceeds. */
  lemma SqrtAbove(m: MathLib, x: real, y: real)
    requires Axioms(m) && 0.0 <= y && y * y < x
    ensures y < Sqrt(m, x)
  {
    var s := Sqrt(m, x);
    assert 0.0 <= s && s * s == x;
    if s <= y {
      MulMonotone(s, y, s);
      MulMonotone(s, y, y);
    }
  }

  lemma SqrtAtLeastOne(m: MathLib, x: real)
    requires Axioms(m) && 1.0 <= x
    ensures 1.0 <= Sqrt(m, x)
  {
    var s := Sqrt(m, x);
    assert 0.0 <= s && s * s == x;
    if s < 1.0 {
      MulMonotone(s, 1.0, s);
    }
  }

  lemma SqrtOne(m: MathLib)
    requires Axioms(m)
    ensures Sqrt(m, 1.0) == 1.0
  {
    var s := Sqrt(m, 1.0);
    assert 0.0 <= s && s * s == 1.0;
    if s < 1.0 {
      MulMonotone(s, 1.0, s);
    } else if s > 1.0 {
      MulMonotone(1.0, s, s);
    }
  }

  /** Python's truncating conversion `int(x)`. */
  function Trunc(x: real): (k: int)
    ensures 0.0 <= x ==> k as real <= x < k as real + 1.0
    ensures x < 0.0 ==> k as real - 1.0 < x <= k as real
  {
    if x >= 0.0 then x.Floor else -((-x).Floor)
  }

  /** A fraction of a positive number lies below that number. */
  lemma UnitScale(d: real, y: real)
    requires 0.0 <= d < 1.0 && 0.0 < y
    ensures 0.0 <= d * y < y
  {}

  lemma QuotientSign(x: real, y: real)
    requires 0.0 < y
    ensures 0.0 <= x <==> 0.0 <= x / y
    ensures (-x) / y == -(x / y)
  {}

  /** The remainder of a non-negative dividend. */
  function FModNonNeg(x: real, y: real): (r: real)
    requires 0.0 <= x && 0.0 < y
    ensures 0.0 <= r < y
    ensures r == x - (x / y).Floor as real * y
  {
    var q := x / y;
    var d := q - q.Floor as real;
    UnitScale(d, y);
    d * y
  }

  /** `math.fmod(x, y)`: x minus the truncated quotient times y; the sign follows x. */
  function FMod(x: real, y: real): (r: real)
    requires y > 0.0
    ensures 0.0 <= x ==> 0.0 <= r < y
    ensures x < 0.0 ==> -y < r <= 0.0
    ensures r == x - Trunc(x / y) as real * y
  {
    QuotientSign(x, y);
    if 0.0 <= x then FModNonNeg(x, y) else -FModNonNeg(-x, y)
  }

  /** `math.ceil(x)`. */
  function Ceil(x: real): (k: int)
    ensures x <= k as real < x + 1.0
  {
    -((-x).Floor)
  }
}
