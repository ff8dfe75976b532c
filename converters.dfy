/**
 * The four converters of main.py. Values are exact reals, so the laws that
 * hold only up to rounding for Python floats hold exactly here.
 */
module Converters {
  import opened Wrappers
  import opened Tables

  /** `a` of unit `ua` and `b` of unit `ub` measure the same quantity of the table's base unit. */
  predicate SameQuantity(t: seq<Entry>, a: real, ua: string, b: real, ub: string)
    requires ua in Units(t) && ub in Units(t)
  {
    a * Factor(t, ua) == b * Factor(t, ub)
  }

  /**
   * The shared shape of `convert_length`, `convert_mass` and `convert_volume`:
   * multiply by the source factor to reach the base unit, then divide by the
   * target factor. The result is the one amount of the target unit that
   * measures the same quantity of base unit as the input.
   */
  function ConvertLinear(t: seq<Entry>, value: real, fromUnit: string, toUnit: string): (r: real)
    requires Positive(t) && fromUnit in Units(t) && toUnit in Units(t)
    ensures SameQuantity(t, r, toUnit, value, fromUnit)
  {
    var base := value * Factor(t, fromUnit);
    base / Factor(t, toUnit)
  }

  /** `convert_length`: the result measures as many metres as the input. */
  function ConvertLength(value: real, fromUnit: string, toUnit: string): (r: real)
    requires fromUnit in Units(LengthToM) && toUnit in Units(LengthToM)
    ensures SameQuantity(LengthToM, r, toUnit, value, fromUnit)
  {
    LengthFactorsPositive();
    ConvertLinear(LengthToM, value, fromUnit, toUnit)
  }

  /** `convert_mass`: the result weighs as many kilograms as the input. */
  function ConvertMass(value: real, fromUnit: string, toUnit: string): (r: real)
    requires fromUnit in Units(MassToKg) && toUnit in Units(MassToKg)
    ensures SameQuantity(MassToKg, r, toUnit, value, fromUnit)
  {
    MassFactorsPositive();
    ConvertLinear(MassToKg, value, fromUnit, toUnit)
  }

  /** `convert_volume`: the result holds as many litres as the input. */
  function ConvertVolume(value: real, fromUnit: string, toUnit: string): (r: real)
    requires fromUnit in Units(VolumeToL) && toUnit in Units(VolumeToL)
    ensures SameQuantity(VolumeToL, r, toUnit, value, fromUnit)
  {
    VolumeFactorsPositive();
    ConvertLinear(VolumeToL, value, fromUnit, toUnit)
  }

  /** Two amounts of one unit that measure the same base quantity are equal. */
  lemma SameBaseSameAmount(t: seq<Entry>, u: string, a: real, b: real)
    requires Positive(t) && u in Units(t)
    requires SameQuantity(t, a, u, b, u)
    ensures a == b
  {
  }

  /** Measuring the same base quantity is transitive. */
  lemma SameQuantityTransitive(t: seq<Entry>, a: real, ua: string, b: real, ub: string, c: real, uc: string)
    requires ua in Units(t) && ub in Units(t) && uc in Units(t)
    requires SameQuantity(t, a, ua, b, ub) && SameQuantity(t, b, ub, c, uc)
    ensures SameQuantity(t, a, ua, c, uc)
  {
  }

  /** Converting a unit to itself returns the value unchanged. */
  lemma LinearIdentity(t: seq<Entry>, value: real, u: string)
    requires Positive(t) && u in Units(t)
    ensures ConvertLinear(t, value, u, u) == value
  {
    SameBaseSameAmount(t, u, ConvertLinear(t, value, u, u), value);
  }

  /** Converting A to B and back to A returns the original value. */
  lemma LinearRoundTrip(t: seq<Entry>, value: real, a: string, b: string)
    requires Positive(t) && a in Units(t) && b in Units(t)
    ensures ConvertLinear(t, ConvertLinear(t, value, a, b), b, a) == value
  {
    var there := ConvertLinear(t, value, a, b);
    var back := ConvertLinear(t, there, b, a);
    SameQuantityTransitive(t, back, a, there, b, value, a);
    SameBaseSameAmount(t, a, back, value);
  }

  /**
   * Pivoting through the base unit is path-independent: going A to B and then
   * B to C gives the same value as going A to C directly.
   */
  lemma LinearComposes(t: seq<Entry>, value: real, a: string, b: string, c: string)
    requires Positive(t) && a in Units(t) && b in Units(t) && c in Units(t)
    ensures ConvertLinear(t, ConvertLinear(t, value, a, b), b, c) == ConvertLinear(t, value, a, c)
  {
  }

  /** One kilometre is 1000 metres. */
  lemma KilometreInMetres()
    ensures ConvertLength(1.0, "km", "m") == 1000.0
  {
  }

  /** One pound is 0.45359237 kilograms. */
  lemma PoundInKilograms()
    ensures ConvertMass(1.0, "lb", "kg") == 0.45359237
  {
  }

  /** One US gallon is 3.785411784 litres. */
  lemma GallonInLitres()
    ensures ConvertVolume(1.0, "gal", "L") == 3.785411784
  {
  }

  /** The message `convert_temp` raises for a unit other than C, F and K. */
  const UnsupportedTempUnit := "Unsupported temperature unit"

  /** The first half of `convert_temp`: a reading in `u` as degrees Celsius, or None for an unknown unit. */
  function ToCelsius(value: real, u: string): (c: Option<real>)
    ensures c.Some? <==> u in TempUnits
  {
    if u == "C" then Some(value)
    else if u == "F" then Some((value - 32.0) * 5.0 / 9.0)
    else if u == "K" then Some(value - 273.15)
    else None
  }

  /**
   * The second half of `convert_temp`: degrees Celsius as a reading in `u`,
   * or None for an unknown unit. It inverts ToCelsius.
   */
  function FromCelsius(c: real, u: string): (r: Option<real>)
    ensures r.Some? <==> u in TempUnits
    ensures r.Some? ==> ToCelsius(r.value, u) == Some(c)
  {
    if u == "C" then Some(c)
    else if u == "F" then Some(c * 9.0 / 5.0 + 32.0)
    else if u == "K" then Some(c + 273.15)
    else None
  }

  /** Reading a temperature in Celsius and back gives the original reading. */
  lemma CelsiusRoundTrip(value: real, u: string)
    requires u in TempUnits
    ensures ToCelsius(value, u).Some? && FromCelsius(ToCelsius(value, u).value, u) == Some(value)
  {
  }

  /** Two readings in one unit that denote the same Celsius temperature are equal. */
  lemma ToCelsiusInjective(u: string, a: real, b: real)
    requires ToCelsius(a, u).Some? && ToCelsius(a, u) == ToCelsius(b, u)
    ensures a == b
  {
  }

  /**
   * `convert_temp`: pivots through Celsius. Both units must be C, F or K, and
   * otherwise the result is the error "Unsupported temperature unit"; a
   * result reads, in the target unit, the same temperature as the input.
   */
  function ConvertTemp(value: real, fromUnit: string, toUnit: string): (r: Result<real>)
    ensures r.Ok? <==> fromUnit in TempUnits && toUnit in TempUnits
    ensures r.Err? ==> r.msg == UnsupportedTempUnit
    ensures r.Ok? ==> ToCelsius(r.value, toUnit) == ToCelsius(value, fromUnit)
  {
    match ToCelsius(value, fromUnit)
    case None => Err(UnsupportedTempUnit)
    case Some(c) =>
      match FromCelsius(c, toUnit)
      case None => Err(UnsupportedTempUnit)
      case Some(x) => Ok(x)
  }

  /** C to C, F to F and K to K return the value unchanged. */
  lemma TempIdentity(value: real, u: string)
    requires u in TempUnits
    ensures ConvertTemp(value, u, u) == Ok(value)
  {
  }

  /** Converting between any two temperature units and back returns the original value. */
  lemma TempRoundTrip(value: real, a: string, b: string)
    requires a in TempUnits && b in TempUnits
    ensures ConvertTemp(value, a, b).Ok?
    ensures ConvertTemp(ConvertTemp(value, a, b).value, b, a) == Ok(value)
  {
  }

  /** Water boils at 212 F: 100 C is 212 F. */
  lemma BoilingPointInFahrenheit()
    ensures ConvertTemp(100.0, "C", "F") == Ok(212.0)
  {
  }

  /** Absolute zero: 0 K is -273.15 C. */
  lemma AbsoluteZeroInCelsius()
    ensures ConvertTemp(0.0, "K", "C") == Ok(-273.15)
  {
  }
}
