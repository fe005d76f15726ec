/**
  The cubic Hermite curve shared by the two Hermite spline classes
  (spline/hermite.py and splines/hermite.py).

  Over the parameter t in [0, 1] the curve's offset from its chord is
  y(t) = a (t^3 - 2 t^2 + t) + b (t^3 - t^2), where a and b are the end
  tangents scaled by the chord length. Its arc length is the trapezoid sum of
  sqrt(1 + (dy/dt)^2) dt over the samples of np.arange(0, 1, dt) followed by
  one last term at t = 1, scaled by the chord length.
*/
module HermiteCubic {
  import opened Transcendental
  import opened ArcLength

  /** The offset from the chord at parameter t. */
  function CubicY(a: real, b: real, t: real): real
  {
    a * BasisA(t) + b * BasisB(t)
  }

  /** The basis polynomial that carries the start tangent: t^3 - 2 t^2 + t. */
  function BasisA(t: real): real
  {
    t * t * t - 2.0 * t * t + t
  }

  /** The basis polynomial that carries the end tangent: t^3 - t^2. */
  function BasisB(t: real): real
  {
    t * t * t - t * t
  }

  /** `deriv`: dy/dt. */
  function CubicDeriv(a: real, b: real, t: real): real
  {
    a * SlopeA(t) + b * SlopeB(t)
  }

  function SlopeA(t: real): real
  {
    3.0 * t * t - 4.0 * t + 1.0
  }

  function SlopeB(t: real): real
  {
    3.0 * t * t - 2.0 * t
  }

  /** The curve leaves and rejoins its chord, with slope a at the start and b at the end. */
  lemma CubicEnds(a: real, b: real)
    ensures CubicY(a, b, 0.0) == 0.0 && CubicY(a, b, 1.0) == 0.0
    ensures CubicDeriv(a, b, 0.0) == a && CubicDeriv(a, b, 1.0) == b
  {}

  /** What is left of y(t + h) - y(t) once h dy/dt is taken out, divided by h^2. */
  function CubicRemainder(a: real, b: real, t: real, h: real): real
  {
    a * RestA(t, h) + b * RestB(t, h)
  }

  function RestA(t: real, h: real): real
  {
    3.0 * t + h - 2.0
  }

  function RestB(t: real, h: real): real
  {
    3.0 * t + h - 1.0
  }

  /** `deriv` is the derivative of the curve: the difference over a step h is h dy/dt plus a term of order h^2. */
  lemma CubicDerivIsDerivative(a: real, b: real, t: real, h: real)
    ensures CubicY(a, b, t + h) - CubicY(a, b, t) == h * CubicDeriv(a, b, t) + h * h * CubicRemainder(a, b, t, h)
  {
    var P1, p1, P2, p2 := BasisA(t + h), BasisA(t), BasisB(t + h), BasisB(t);
    BasisSteps(t, h);
    Weigh(a, b, h, P1, p1, P2, p2, SlopeA(t), SlopeB(t), RestA(t, h), RestB(t, h),
      CubicY(a, b, t + h), CubicY(a, b, t), CubicDeriv(a, b, t), CubicRemainder(a, b, t, h));
  }

  /** The steps of the two basis polynomials. */
  lemma BasisSteps(t: real, h: real)
    ensures BasisA(t + h) - BasisA(t) == h * SlopeA(t) + h * h * RestA(t, h)
    ensures BasisB(t + h) - BasisB(t) == h * SlopeB(t) + h * h * RestB(t, h)
  {}

  lemma Weigh(a: real, b: real, h: real, P1: real, p1: real, P2: real, p2: real,
              s1: real, s2: real, r1: real, r2: real, yEnd: real, yStart: real, slope: real, rest: real)
    requires P1 - p1 == h * s1 + h * h * r1 && P2 - p2 == h * s2 + h * h * r2
    requires yEnd == a * P1 + b * P2 && yStart == a * p1 + b * p2
    requires slope == a * s1 + b * s2 && rest == a * r1 + b * r2
    ensures yEnd - yStart == h * slope + h * h * rest
  {
    assert yEnd - yStart == a * (P1 - p1) + b * (P2 - p2);
    assert a * (P1 - p1) == h * (a * s1) + h * h * (a * r1);
    assert b * (P2 - p2) == h * (b * s2) + h * h * (b * r2);
  }

  /** The coefficients of `deriv` as a polynomial in t, constant term first. */
  function DerivCoefficients(a: real, b: real): seq<real>
  {
    [a, -4.0 * a - 2.0 * b, 3.0 * a + 3.0 * b]
  }

  lemma DerivCoefficientsAgree(a: real, b: real, t: real)
    ensures Poly(DerivCoefficients(a, b), t) == CubicDeriv(a, b, t)
  {
    var cs := DerivCoefficients(a, b);
    assert cs[2..][1..] == [];
    assert Poly(cs[2..], t) == cs[2] + t * 0.0;
    assert cs[1..][1..] == cs[2..];
    assert Poly(cs[1..], t) == cs[1] + t * Poly(cs[2..], t);
    assert Poly(cs, t) == cs[0] + t * Poly(cs[1..], t);
  }

  /** The ordinate the loop adds for a slope: sqrt(1 + slope^2) * dt. */
  function LoopOrdinate(m: MathLib, slope: real, dt: real): real
  {
    Sqrt(m, 1.0 + slope * slope) * dt
  }

  /** With dt = 1/n, the loop's ordinate at t is the trapezoid integrand of `deriv`. */
  lemma LoopOrdinateAgrees(m: MathLib, a: real, b: real, n: int, t: real)
    requires n != 0
    ensures LoopOrdinate(m, CubicDeriv(a, b, t), 1.0 / n as real) == Integrand(m, DerivCoefficients(a, b), n, t)
  {
    DerivCoefficientsAgree(a, b, t);
  }

  /**
    The unscaled sum: for n > 0 samples the running sum through sample n (the
    last term is the one at t = 1); for n < 0 np.arange yields nothing and only
    the last term, paired with the ordinate at 0, is added.
  */
  function HermiteSumOf(m: MathLib, a: real, b: real, n: int): real
    requires n != 0
  {
    var cs := DerivCoefficients(a, b);
    if n > 0 then Cum(m, cs, n, n)
    else (Integrand(m, cs, n, 1.0) + Integrand(m, cs, n, 0.0)) / 2.0
  }

  /** The i-th value of np.arange(0, 1, dt) with dt = 1/n is sample i. */
  lemma ArangeValue(i: int, n: int, dt: real)
    requires n != 0 && dt == 1.0 / n as real
    ensures i as real * dt == Sample(i, n)
  {
    var r := n as real;
    assert r != 0.0;
    assert (i as real * (1.0 / r)) * r == i as real * ((1.0 / r) * r);
  }

  lemma SampleLast(n: int)
    requires n != 0
    ensures Sample(n, n) == 1.0
  {
    var r := n as real;
    DivSelf(r);
  }

  /** How many values np.arange(0, 1, 1/n) yields: n for positive n, none for negative n. */
  function RangeCount(n: int): nat
  {
    if n > 0 then n else 0
  }

  /** The sum is the running sum over the range plus the last trapezoid, which ends at t = 1. */
  lemma LastStep(m: MathLib, a: real, b: real, n: int)
    requires n != 0
    ensures var cs := DerivCoefficients(a, b);
      var k := RangeCount(n);
      HermiteSumOf(m, a, b, n)
      == Running(m, cs, n, k) + (Integrand(m, cs, n, 1.0) + Integrand(m, cs, n, Sample(if k == 0 then 0 else k - 1, n))) / 2.0
  {
    var cs := DerivCoefficients(a, b);
    SampleLast(n);
    if n > 0 {
      RunningStep(m, cs, n, n);
    } else {
      assert Sample(0, n) == 0.0;
    }
  }

  /** The loop of `arc_length`, over np.arange(0, 1, 1/samples) and then t = 1. */
  method HermiteSum(m: MathLib, a: real, b: real, samples: int) returns (arcLength: real)
    requires samples != 0
    ensures arcLength == HermiteSumOf(m, a, b, samples)
  {
    var dt := 1.0 / samples as real;
    var lastIntegrand;
    arcLength, lastIntegrand := RangeSum(m, a, b, samples);
    LoopOrdinateAgrees(m, a, b, samples, 1.0);
    LastStep(m, a, b, samples);
    var dydt := CubicDeriv(a, b, 1.0);
    var integrand := LoopOrdinate(m, dydt, dt);
    arcLength := arcLength + (integrand + lastIntegrand) / 2.0;
  }

  /** The loop over np.arange(0, 1, 1/samples); also returns the last ordinate it added. */
  method RangeSum(m: MathLib, a: real, b: real, samples: int) returns (arcLength: real, lastIntegrand: real)
    requires samples != 0
    ensures arcLength == Running(m, DerivCoefficients(a, b), samples, RangeCount(samples))
    ensures var k := RangeCount(samples);
      lastIntegrand == Integrand(m, DerivCoefficients(a, b), samples, Sample(if k == 0 then 0 else k - 1, samples))
  {
    var dt := 1.0 / samples as real;
    var dydt := CubicDeriv(a, b, 0.0);
    arcLength := 0.0;
    lastIntegrand := LoopOrdinate(m, dydt, dt);
    LoopOrdinateAgrees(m, a, b, samples, 0.0);
    assert Sample(0, samples) == 0.0;
    var count := RangeCount(samples);
    var i := 0;
    while i < count
      invariant 0 <= i <= count
      invariant arcLength == Running(m, DerivCoefficients(a, b), samples, i)
      invariant lastIntegrand == Integrand(m, DerivCoefficients(a, b), samples, Sample(if i == 0 then 0 else i - 1, samples))
    {
      var t := i as real * dt;
      ArangeValue(i, samples, dt);
      LoopOrdinateAgrees(m, a, b, samples, t);
      RunningStep(m, DerivCoefficients(a, b), samples, i);
      dydt := CubicDeriv(a, b, t);
      var integrand := LoopOrdinate(m, dydt, dt);
      arcLength := arcLength + (integrand + lastIntegrand) / 2.0;
      lastIntegrand := integrand;
      i := i + 1;
    }
  }

  /** `hyp_distance * arc_length`: the sum stretched over the chord. */
  function HermiteArcLength(m: MathLib, a: real, b: real, hyp: real, n: int): real
    requires n != 0
  {
    Stretched(hyp, HermiteSumOf(m, a, b, n))
  }

  /** With a positive sample count the arc length is at least the chord length. */
  lemma HermiteArcLengthAtLeastChord(m: MathLib, a: real, b: real, hyp: real, n: int)
    requires Axioms(m) && 0 < n && 0.0 <= hyp
    ensures hyp <= HermiteArcLength(m, a, b, hyp, n)
  {
    ScaledAtLeast(m, DerivCoefficients(a, b), n, hyp);
  }

  /** With both tangents zero the curve is the chord, and the sum is the chord length times (n + 1)/n. */
  lemma HermiteArcLengthStraight(m: MathLib, hyp: real, n: int)
    requires Axioms(m) && 0 < n
    ensures HermiteArcLength(m, 0.0, 0.0, hyp, n) == hyp * ((n + 1) as real / n as real)
  {
    ScaledFlat(m, DerivCoefficients(0.0, 0.0), n, hyp);
  }
}
