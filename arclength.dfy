/**
  The trapezoid sum that every arc-length routine of the source accumulates
  (spline_utils.py, spline/hermite.py, splines/hermite.py).

  Every slope those routines integrate is a polynomial in the spline
  parameter p in [0, 1], given here by its coefficients `cs` (constant term
  first). With `n` samples the ordinate at p is sqrt(1 + slope(p)^2) / n. The
  sum starts with the ordinate at 0 averaged with itself and then adds, for
  each sample i, the average of the ordinates at i/n and (i - 1)/n.
*/
module ArcLength {
  import opened Transcendental

  /** The parameter of sample `i`. */
  function Sample(i: int, n: int): real
    requires n != 0
  {
    i as real / n as real
  }

  /** The trapezoid ordinate for a slope: sqrt(1 + slope^2) / n. */
  function Ordinate(m: MathLib, slope: real, n: int): real
    requires n != 0
  {
    Sqrt(m, 1.0 + slope * slope) / n as real
  }

  /** The polynomial with coefficients `cs` at `p`, in Horner form. */
  function Poly(cs: seq<real>, p: real): real
    decreases |cs|
  {
    if |cs| == 0 then 0.0 else cs[0] + p * Poly(cs[1..], p)
  }

  /** The polynomial whose coefficients are all zero is zero everywhere. */
  lemma {:induction false} PolyZero(cs: seq<real>, p: real)
    requires forall j :: 0 <= j < |cs| ==> cs[j] == 0.0
    ensures Poly(cs, p) == 0.0
    decreases |cs|
  {
    if |cs| > 0 {
      PolyZero(cs[1..], p);
    }
  }

  /** The ordinate at parameter `p`. */
  function Integrand(m: MathLib, cs: seq<real>, n: int, p: real): real
    requires n != 0
  {
    Ordinate(m, Poly(cs, p), n)
  }

  /** The running sum once sample `i` has been added. */
  function Cum(m: MathLib, cs: seq<real>, n: int, i: nat): real
    requires n != 0
  {
    if i == 0 then
      (Integrand(m, cs, n, Sample(0, n)) + Integrand(m, cs, n, Sample(0, n))) / 2.0
    else
      Cum(m, cs, n, i - 1) + (Integrand(m, cs, n, Sample(i, n)) + Integrand(m, cs, n, Sample(i - 1, n))) / 2.0
  }

  /** How many times a loop over range(n + 1) runs: n + 1, or not at all when n is negative. */
  function Passes(n: int): nat
  {
    if n > 0 then n + 1 else 0
  }

  /** The sum once such a loop has run `k` times: nothing for k = 0, the running sum through sample k - 1 after that. */
  function Running(m: MathLib, cs: seq<real>, n: int, k: nat): real
    requires n != 0
  {
    if k == 0 then 0.0 else Cum(m, cs, n, k - 1)
  }

  /** One more pass adds the trapezoid between sample k and the one before it (sample 0 is paired with itself). */
  lemma RunningStep(m: MathLib, cs: seq<real>, n: int, k: nat)
    requires n != 0
    ensures Running(m, cs, n, k + 1)
      == Running(m, cs, n, k) + (Integrand(m, cs, n, Sample(k, n)) + Integrand(m, cs, n, Sample(if k == 0 then 0 else k - 1, n))) / 2.0
  {}

  lemma DivMonotone(a: real, b: real, n: real)
    requires a <= b && 0.0 < n
    ensures a / n <= b / n
  {}

  /** Each ordinate is at least 1/n, because sqrt(1 + s^2) >= 1. */
  lemma IntegrandAtLeast(m: MathLib, cs: seq<real>, n: int, p: real)
    requires Axioms(m) && 0 < n
    ensures 1.0 / n as real <= Integrand(m, cs, n, p)
  {
    SqrtAtLeastOne(m, 1.0 + Poly(cs, p) * Poly(cs, p));
    DivMonotone(1.0, Sqrt(m, 1.0 + Poly(cs, p) * Poly(cs, p)), n as real);
  }

  lemma DivAdd(i: real, n: real)
    requires n != 0.0
    ensures i / n + 1.0 / n == (i + 1.0) / n
  {}

  /** After sample i the sum is at least (i + 1)/n. */
  lemma {:induction false} CumAtLeast(m: MathLib, cs: seq<real>, n: int, i: nat)
    requires Axioms(m) && 0 < n
    ensures (i + 1) as real / n as real <= Cum(m, cs, n, i)
  {
    IntegrandAtLeast(m, cs, n, Sample(i, n));
    if i > 0 {
      CumAtLeast(m, cs, n, i - 1);
      IntegrandAtLeast(m, cs, n, Sample(i - 1, n));
      DivAdd(i as real, n as real);
    }
  }

  /** Every sample adds a positive amount. */
  lemma CumIncreasing(m: MathLib, cs: seq<real>, n: int, i: nat)
    requires Axioms(m) && 0 < n
    ensures Cum(m, cs, n, i) < Cum(m, cs, n, i + 1)
  {
    IntegrandAtLeast(m, cs, n, Sample(i, n));
    IntegrandAtLeast(m, cs, n, Sample(i + 1, n));
  }

  /** Along a slope that is zero everywhere the sum after sample i is exactly (i + 1)/n. */
  lemma {:induction false} CumFlat(m: MathLib, cs: seq<real>, n: int, i: nat)
    requires Axioms(m) && 0 < n && forall j :: 0 <= j < |cs| ==> cs[j] == 0.0
    ensures Cum(m, cs, n, i) == (i + 1) as real / n as real
  {
    SqrtOne(m);
    PolyZero(cs, Sample(i, n));
    assert Integrand(m, cs, n, Sample(i, n)) == 1.0 / n as real;
    if i > 0 {
      CumFlat(m, cs, n, i - 1);
      PolyZero(cs, Sample(i - 1, n));
      assert Integrand(m, cs, n, Sample(i - 1, n)) == 1.0 / n as real;
      DivAdd(i as real, n as real);
    }
  }

  /**
    A sum over the parameter range [0, 1] stretched over a chord of length k:
    local x is the parameter times k, so lengths scale by k.
  */
  function Stretched(k: real, sum: real): real
  {
    k * sum
  }

  lemma AboveOne(n: int)
    requires 0 < n
    ensures 1.0 <= (n + 1) as real / n as real
  {
    var r := n as real;
    assert (r + 1.0) / r == r / r + 1.0 / r;
    DivSelf(r);
  }

  /** Scaled by a non-negative length k, the whole sum is at least k: the loop integrates over at least [0, 1]. */
  lemma ScaledAtLeast(m: MathLib, cs: seq<real>, n: int, k: real)
    requires Axioms(m) && 0 < n && 0.0 <= k
    ensures k <= Stretched(k, Running(m, cs, n, Passes(n)))
  {
    var sum := Cum(m, cs, n, n);
    CumAtLeast(m, cs, n, n);
    AboveOne(n);
    MulMonotone(1.0, sum, k);
  }

  /** Along a slope that is zero everywhere, the whole sum scaled by k is k * (n + 1)/n. */
  lemma ScaledFlat(m: MathLib, cs: seq<real>, n: int, k: real)
    requires Axioms(m) && 0 < n && forall j :: 0 <= j < |cs| ==> cs[j] == 0.0
    ensures Stretched(k, Running(m, cs, n, Passes(n))) == k * ((n + 1) as real / n as real)
  {
    CumFlat(m, cs, n, n);
  }
}
