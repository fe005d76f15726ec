/**
  The unit-conversion algebra (util/units.py): a quantity is a `Unit` that
  keeps one number, its value in the base unit of its dimension (metres,
  degrees, seconds, newtons, pascals, degrees Celsius, ...). A unit
  constant is the size of that unit in base units: `Unit(v, u)` stores
  v·u and `to(u)` divides by u.

  Every operator returns a fresh `Unit`; the in-place operators too, so
  quantities are values here. A Python error (a division by zero, a
  comparison the source refuses, an attribute that was never set) is
  `None`.
*/
module Units {
  import opened Wrappers

  datatype Unit = Unit(baseValue: real)

  /** The right operand of `*`, `/`, `/=` and the ordered comparisons: a plain number or a quantity. */
  datatype Operand = Number(n: real) | Quantity(q: Unit)

  /** The ordered comparisons `<`, `<=`, `>` and `>=`. */
  datatype Order = Less | AtMost | Greater | AtLeast

  /** `Unit(value, unit)`: the value in base units; without a unit the value is already in base units. */
  function Make(value: real, unit: Option<real>): (r: Unit)
    ensures unit.None? ==> r.baseValue == value
    ensures unit.Some? && unit.value != 0.0 ==> To(r, unit.value) == Some(value)
  {
    if unit.None? then Unit(value)
    else if unit.value == 0.0 then Unit(value * unit.value)
    else
      var k := unit.value;
      var r := Unit(value * k);
      assert r.baseValue / k == value by { Cancel(value, k); }
      r
  }

  /** Multiplying and then dividing by the same nonzero number changes nothing. */
  lemma Cancel(x: real, k: real)
    requires k != 0.0
    ensures x * k / k == x
  {
    var y := x * k / k;
    assert y * k == x * k;
    assert (y - x) * k == 0.0;
  }

  /** `to(unit)`: the quantity in `unit`; a zero unit divides by zero. */
  function To(u: Unit, unit: real): (r: Option<real>)
    ensures r.None? <==> unit == 0.0
    ensures r.Some? ==> r.value * unit == u.baseValue
  {
    if unit == 0.0 then None else Some(u.baseValue / unit)
  }

  /** A value read in one unit and stored again in that unit is the same quantity. */
  lemma MakeTo(u: Unit, unit: real)
    requires unit != 0.0
    ensures Make(To(u, unit).value, Some(unit)) == u
  {
    assert To(u, unit).value * unit == u.baseValue;
  }

  /** `zero_unit` */
  const Zero := Unit(0.0)

  /** `+` and `+=` */
  function Add(a: Unit, b: Unit): (r: Unit)
    ensures Sub(r, b) == a
  {
    Unit(a.baseValue + b.baseValue)
  }

  /** `-` and `-=` */
  function Sub(a: Unit, b: Unit): Unit
  {
    Unit(a.baseValue - b.baseValue)
  }

  /** Unary `-`: minus one times the quantity. */
  function Neg(a: Unit): (r: Unit)
    ensures Add(a, r) == Zero
  {
    Unit(-1.0 * a.baseValue)
  }

  /** Unary `+`: a fresh copy. */
  function Pos(a: Unit): (r: Unit)
    ensures r == a
  {
    Unit(a.baseValue)
  }

  /** `abs` */
  function Abs(a: Unit): (r: Unit)
    ensures Compare(r, AtLeast, Number(0.0)) == Some(true)
    ensures r == a || r == Neg(a)
  {
    Unit(if a.baseValue < 0.0 then -a.baseValue else a.baseValue)
  }

  /** `*`: scaled by a number, or multiplied by another quantity's base value. */
  function Mul(a: Unit, other: Operand): Unit
  {
    match other
    case Number(n) => Unit(a.baseValue * n)
    case Quantity(q) => Unit(a.baseValue * q.baseValue)
  }

  /** The number an operand stands for. */
  function Magnitude(other: Operand): real
  {
    match other
    case Number(n) => n
    case Quantity(q) => q.baseValue
  }

  /** `/` and `/=`: as `*`, dividing; a zero divisor raises. */
  function Div(a: Unit, other: Operand): (r: Option<Unit>)
    ensures r.None? <==> Magnitude(other) == 0.0
    ensures r.Some? ==> Mul(r.value, other) == a
  {
    match other
    case Number(n) => if n == 0.0 then None else Some(Unit(a.baseValue / n))
    case Quantity(q) => if q.baseValue == 0.0 then None else Some(Unit(a.baseValue / q.baseValue))
  }

  /** `*=`: only a quantity; a plain number has no base value and raises. */
  function IMul(a: Unit, other: Operand): (r: Option<Unit>)
    ensures r.None? <==> other.Number?
    ensures r.Some? ==> r.value == Mul(a, other)
  {
    match other
    case Number(_) => None
    case Quantity(q) => Some(Unit(a.baseValue * q.baseValue))
  }

  /** Dividing undoes multiplying by the same nonzero number or quantity. */
  lemma DivMul(a: Unit, other: Operand)
    requires Magnitude(other) != 0.0
    ensures Div(Mul(a, other), other) == Some(a)
  {
    var x := a.baseValue;
    var k := Magnitude(other);
    var p := x * k;
    Cancel(x, k);
    assert Mul(a, other) == Unit(p);
    assert Div(Unit(p), other) == Some(Unit(p / k));
  }

  /** Addition is commutative and associative, and `Zero` is its identity. */
  lemma AddLaws(a: Unit, b: Unit, c: Unit)
    ensures Add(a, b) == Add(b, a)
    ensures Add(Add(a, b), c) == Add(a, Add(b, c))
    ensures Add(a, Zero) == a
  {}

  /** Negating twice gives the quantity back. */
  lemma NegNeg(a: Unit)
    ensures Neg(Neg(a)) == a
  {}

  /** The value of an ordered comparison of two base values. */
  function Holds(o: Order, x: real, y: real): bool
  {
    match o
    case Less => x < y
    case AtMost => x <= y
    case Greater => x > y
    case AtLeast => x >= y
  }

  /**
    `<`, `<=`, `>` and `>=`: against a quantity, by base value; against a
    plain number, only when that number is 0, and any other number raises.
  */
  function Compare(a: Unit, o: Order, other: Operand): (r: Option<bool>)
    ensures r.None? <==> other.Number? && other.n != 0.0
    ensures r.Some? ==> r.value == Holds(o, a.baseValue, Magnitude(other))
  {
    match other
    case Number(n) => if n == 0.0 then Some(Holds(o, a.baseValue, 0.0)) else None
    case Quantity(q) => Some(Holds(o, a.baseValue, q.baseValue))
  }

  /** A quantity is below another exactly when it is not at least that other, and above it when the other is below. */
  lemma CompareDual(a: Unit, b: Unit)
    ensures Compare(a, Less, Quantity(b)) == Some(!Compare(a, AtLeast, Quantity(b)).value)
    ensures Compare(a, Greater, Quantity(b)) == Compare(b, Less, Quantity(a))
    ensures Compare(a, AtMost, Quantity(b)).value && Compare(a, AtLeast, Quantity(b)).value <==> Equal(a, b)
  {}

  /** Comparing with the number 0 is comparing with `zero_unit`. */
  lemma ZeroIsZeroUnit(a: Unit, o: Order)
    ensures Compare(a, o, Number(0.0)) == Compare(a, o, Quantity(Zero))
  {}

  /** `==`: equal base values; `!=` is its negation. */
  function Equal(a: Unit, b: Unit): (r: bool)
    ensures r <==> a == b
  {
    a.baseValue == b.baseValue
  }

  /** `Constant(value)`: a value with unit 1.0, the value itself. */
  function Constant(value: real): (r: Unit)
    ensures To(r, 1.0) == Some(value)
  {
    Make(value, Some(1.0))
  }

  /**
    The constructor of `Length`, `Angle`, `Time` and the other dimensions
    as written: it passes no unit on, so the value is taken to be in base
    units whatever unit it was given.
  */
  function MeasureAsWritten(value: real, unit: Option<real>): (r: Unit)
    ensures r.baseValue == value
  {
    Make(value, None)
  }

  /** As written, five inches are five metres: the unit given to a dimension's constructor is lost. */
  lemma MeasureAsWrittenLosesUnit()
    ensures MeasureAsWritten(5.0, Some(Inch)) == MeasureAsWritten(5.0, Some(M))
    ensures To(MeasureAsWritten(5.0, Some(Inch)), Inch) != Some(5.0)
  {
    assert To(MeasureAsWritten(5.0, Some(Inch)), Inch).value * Inch == 5.0;
  }

  /** The dimension constructors as evidently intended: the unit is passed on to `Unit`. */
  function Measure(value: real, unit: Option<real>): (r: Unit)
    ensures unit.None? ==> r.baseValue == value
    ensures unit.Some? && unit.value != 0.0 ==> To(r, unit.value) == Some(value)
  {
    Make(value, unit)
  }

  // Length, in metres.
  const M: real := 1.0
  const Mm: real := M * 0.001
  const Cm: real := M * 0.01
  const Km: real := M * 1000.0
  /** `inch` as written: 39.3701 metres. */
  const InchAsWritten: real := M * 39.3701
  /** An inch: a metre is 39.3701 inches. */
  const Inch: real := M / 39.3701
  const Ft: real := Inch * 12.0

  // Angle, in degrees.
  const Degree: real := 1.0
  const Rev: real := Degree * 360.0

  // Time, in seconds.
  const S: real := 1.0
  const Ms: real := S * 0.001
  const Minute: real := S * 60.0
  const Hr: real := Minute * 60.0

  // Angular velocity, in degrees per second.
  const Rps: real := Rev / S
  /** `rpm` as written: one revolution per second. */
  const RpmAsWritten: real := Rev / S
  /** One revolution per minute. */
  const Rpm: real := Rev / Minute

  // Force, in newtons.
  const N: real := 1.0
  /** `oz` as written: 3.59694309 newtons. */
  const OzAsWritten: real := N * 3.59694309
  /** `lbs` as written: a sixteenth of an ounce. */
  const LbsAsWritten: real := OzAsWritten / 16.0
  /** An ounce-force: a newton is 3.59694309 of them. */
  const Oz: real := N / 3.59694309
  const Lbs: real := Oz * 16.0

  // Pressure, in pascals.
  const Pa: real := N / (M * M)
  const KPa: real := Pa * 1000.0
  /** `atm` as written: 9.86923e-6 pascals. */
  const AtmAsWritten: real := Pa * 0.00000986923
  /** `mb` as written: a hundredth of a pascal. */
  const MbAsWritten: real := Pa * 0.01
  /** An atmosphere: a pascal is 9.86923e-6 of them. */
  const Atm: real := Pa / 0.00000986923
  /** A millibar: a pascal is 0.01 of them. */
  const Mb: real := Pa / 0.01
  const Hg: real := Pa * 3386.38866667

  /** The derived units are the stated multiples of the ones they are built from. */
  lemma Derived()
    ensures Ft == 12.0 * Inch && Hr == 60.0 * Minute == 3600.0 * S
    ensures Rev == 360.0 * Degree && Km == 1000.0 * M && Mm * 1000.0 == M
    ensures Lbs == 16.0 * Oz && KPa == 1000.0 * Pa
  {}

  /** One foot read in inches is twelve, one hour read in seconds is 3600. */
  lemma DerivedReadings()
    ensures To(Make(1.0, Some(Ft)), Inch) == Some(12.0)
    ensures To(Make(1.0, Some(Hr)), S) == Some(3600.0)
    ensures To(Make(1.0, Some(Rev)), Degree) == Some(360.0)
  {
    assert Ft / Inch == 12.0;
  }

  /** As written, an inch is longer than a metre, and a foot than twelve metres. */
  lemma InchAsWrittenLongerThanMetre()
    ensures InchAsWritten > M && InchAsWritten * 12.0 > 12.0 * M
    ensures To(Make(1.0, Some(InchAsWritten)), M) == Some(39.3701)
  {}

  /** An inch is shorter than a metre: a metre reads as 39.3701 inches. */
  lemma InchShorterThanMetre()
    ensures Inch < M
    ensures To(Make(1.0, Some(M)), Inch) == Some(39.3701)
  {}

  /** As written, revolutions per minute and per second are the same unit. */
  lemma RpmAsWrittenIsRps()
    ensures RpmAsWritten == Rps
    ensures To(Make(60.0, Some(RpmAsWritten)), Rps) == Some(60.0)
  {}

  /** Sixty revolutions per minute are one revolution per second. */
  lemma RpmPerMinute()
    ensures Rpm * 60.0 == Rps
    ensures To(Make(60.0, Some(Rpm)), Rps) == Some(1.0)
  {}

  /**
    As written, the force and pressure units are inverted: an ounce is more
    than a newton, a pound less than an ounce, an atmosphere and a millibar
    less than a pascal.
  */
  lemma InvertedAsWritten()
    ensures OzAsWritten > N && LbsAsWritten < OzAsWritten
    ensures AtmAsWritten < Pa && MbAsWritten < Pa
  {}

  /** An ounce is less than a newton, a pound is sixteen ounces, an atmosphere and a millibar are more than a pascal. */
  lemma ForcePressureOrder()
    ensures Oz < N && Lbs > Oz && To(Make(1.0, Some(N)), Oz) == Some(3.59694309)
    ensures Atm > Pa && Mb == 100.0 * Pa && Hg > Pa
  {}

  // Temperature unit codes.
  const C: int := 1
  const K: int := 2
  const F: int := 3

  /**
    `Temperature(value, unit)`: stored in degrees Celsius. An unknown unit
    code never sets the base value, so the quantity is unusable (`None`).
  */
  function Temperature(value: real, unit: int): (r: Option<Unit>)
    ensures r.Some? <==> unit in {C, K, F}
    ensures unit == C ==> r == Some(Unit(value))
  {
    if unit == C then Some(Unit(value))
    else if unit == K then Some(Unit(value - 273.15))
    else if unit == F then Some(Unit((value - 32.0) * (5.0 / 9.0)))
    else None
  }

  /** `Temperature.to(unit)`: the temperature in that unit; an unknown code gives no value. */
  function TemperatureTo(t: Unit, unit: int): (r: Option<real>)
    ensures r.Some? <==> unit in {C, K, F}
  {
    if unit == C then Some(t.baseValue)
    else if unit == K then Some(t.baseValue + 273.15)
    else if unit == F then Some(t.baseValue * (9.0 / 5.0) + 32.0)
    else None
  }

  /** A temperature read in the unit it was given in is the value it was given. */
  lemma TemperatureRoundTrip(value: real, unit: int)
    requires unit in {C, K, F}
    ensures TemperatureTo(Temperature(value, unit).value, unit) == Some(value)
  {
    if unit == F {
      assert (value - 32.0) * (5.0 / 9.0) * (9.0 / 5.0) == value - 32.0;
    }
  }

  /** Water freezes at 0 °C, 273.15 K and 32 °F, and boils at 100 °C and 212 °F. */
  lemma TemperatureScales()
    ensures TemperatureTo(Unit(0.0), K) == Some(273.15) && TemperatureTo(Unit(0.0), F) == Some(32.0)
    ensures Temperature(212.0, F) == Some(Unit(100.0)) && Temperature(373.15, K) == Some(Unit(100.0))
  {}
}
