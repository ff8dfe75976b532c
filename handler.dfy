/**
 * The body of the POST branch of `index` in main.py: validate the category
 * and both units, parse the amount, dispatch to the category's converter, and
 * turn a raised `ValueError` into its message.
 */
module Handler {
  import opened Wrappers
  import opened Tables
  import opened Converters

  const UnknownCategory := "Unknown category."
  const UnitMismatch := "Units don't match the selected category."
  const UnsupportedCategory := "Unsupported category."

  /**
   * One submission. `amount` is the outcome of `float(amount_str)`: the
   * parsed number, or the message of the `ValueError` it raised. The result
   * is the converted value, or the message of the `ValueError` that ended
   * the request: one of the two validation messages or the parser's own.
   * "Unsupported category." and "Unsupported temperature unit" are never
   * raised, because validation runs first.
   */
  function Convert(category: string, fromUnit: string, toUnit: string, amount: Result<real>): (r: Result<real>)
    ensures r.Ok? ==> KnownCategory(category) && amount.Ok?
    ensures r.Err? ==> r.msg == UnknownCategory || r.msg == UnitMismatch || r == amount
  {
    CategoryNamesDistinct();
    RegistryCategories(category);
    if CategoryUnits(category).None? then Err(UnknownCategory)
    else if fromUnit !in CategoryUnits(category).value || toUnit !in CategoryUnits(category).value then
      Err(UnitMismatch)
    else
      match amount
      case Err(parseError) => Err(parseError)
      case Ok(value) =>
        if category == "length" then
          LengthUnitsRegistered(fromUnit);
          LengthUnitsRegistered(toUnit);
          Ok(ConvertLength(value, fromUnit, toUnit))
        else if category == "mass" then
          MassUnitsRegistered(fromUnit);
          MassUnitsRegistered(toUnit);
          Ok(ConvertMass(value, fromUnit, toUnit))
        else if category == "volume" then
          VolumeUnitsRegistered(fromUnit);
          VolumeUnitsRegistered(toUnit);
          Ok(ConvertVolume(value, fromUnit, toUnit))
        else if category == "temp" then
          TempUnitsRegistered(fromUnit);
          TempUnitsRegistered(toUnit);
          ConvertTemp(value, fromUnit, toUnit)
        else
          Err(UnsupportedCategory)
  }

  /** `category` is one of the four the program converts. */
  predicate KnownCategory(category: string) {
    category in {"length", "mass", "volume", "temp"}
  }

  /**
   * `u` is a unit of `category`, read off the conversion tables directly
   * rather than from the registry's sorted lists.
   */
  predicate UnitOf(category: string, u: string) {
    || (category == "length" && u in Units(LengthToM))
    || (category == "mass" && u in Units(MassToKg))
    || (category == "volume" && u in Units(VolumeToL))
    || (category == "temp" && u in TempUnits)
  }

  /** The registry's membership test is exactly membership in the category's table. */
  lemma RegistryMembership(category: string, u: string)
    requires KnownCategory(category)
    ensures CategoryUnits(category).Some?
    ensures u in CategoryUnits(category).value <==> UnitOf(category, u)
  {
    CategoryNamesDistinct();
    if category == "length" {
      LengthUnitsRegistered(u);
    } else if category == "mass" {
      MassUnitsRegistered(u);
    } else if category == "volume" {
      VolumeUnitsRegistered(u);
    } else {
      assert category == "temp";
      TempUnitsRegistered(u);
    }
  }

  /** An unknown category is reported as such, whatever the units and the amount. */
  lemma UnknownCategoryRejected(category: string, fromUnit: string, toUnit: string, amount: Result<real>)
    requires !KnownCategory(category)
    ensures Convert(category, fromUnit, toUnit, amount) == Err(UnknownCategory)
  {
  }

  /**
   * A unit outside a known category is reported before the amount is looked
   * at, so the mismatch is reported even for an amount that does not parse.
   */
  lemma UnitMismatchRejected(category: string, fromUnit: string, toUnit: string, amount: Result<real>)
    requires KnownCategory(category)
    requires !UnitOf(category, fromUnit) || !UnitOf(category, toUnit)
    ensures Convert(category, fromUnit, toUnit, amount) == Err(UnitMismatch)
  {
    RegistryMembership(category, fromUnit);
    RegistryMembership(category, toUnit);
  }

  /** Once category and units pass, an amount that does not parse ends the request with the parser's message. */
  lemma ParseErrorReported(category: string, fromUnit: string, toUnit: string, parseError: string)
    requires KnownCategory(category) && UnitOf(category, fromUnit) && UnitOf(category, toUnit)
    ensures Convert(category, fromUnit, toUnit, Err(parseError)) == Err(parseError)
  {
    RegistryMembership(category, fromUnit);
    RegistryMembership(category, toUnit);
  }

  /**
   * A valid request always yields a value (the lookups cannot fail and neither
   * internal error can be raised), and the value measures the same quantity
   * in the target unit as the amount does in the source unit.
   */
  lemma ValidRequestConverted(category: string, fromUnit: string, toUnit: string, value: real)
    requires KnownCategory(category) && UnitOf(category, fromUnit) && UnitOf(category, toUnit)
    ensures Convert(category, fromUnit, toUnit, Ok(value)).Ok?
    ensures var r := Convert(category, fromUnit, toUnit, Ok(value)).value;
      && (category == "length" ==> SameQuantity(LengthToM, r, toUnit, value, fromUnit))
      && (category == "mass" ==> SameQuantity(MassToKg, r, toUnit, value, fromUnit))
      && (category == "volume" ==> SameQuantity(VolumeToL, r, toUnit, value, fromUnit))
      && (category == "temp" ==> ToCelsius(r, toUnit) == ToCelsius(value, fromUnit))
  {
    CategoryNamesDistinct();
    RegistryMembership(category, fromUnit);
    RegistryMembership(category, toUnit);
  }

  /** Converting 1 km to m on the form gives 1000. */
  lemma FormKilometre()
    ensures Convert("length", "km", "m", Ok(1.0)) == Ok(1000.0)
  {
    LengthKeys();
    RegistryMembership("length", "km");
    RegistryMembership("length", "m");
    KilometreInMetres();
  }

  /** Converting 1 lb to kg on the form gives 0.45359237. */
  lemma FormPound()
    ensures Convert("mass", "lb", "kg", Ok(1.0)) == Ok(0.45359237)
  {
    CategoryNamesDistinct();
    MassKeys();
    RegistryMembership("mass", "lb");
    RegistryMembership("mass", "kg");
    PoundInKilograms();
  }

  /** Converting 1 gal to L on the form gives 3.785411784. */
  lemma FormGallon()
    ensures Convert("volume", "gal", "L", Ok(1.0)) == Ok(3.785411784)
  {
    CategoryNamesDistinct();
    VolumeKeys();
    RegistryMembership("volume", "gal");
    RegistryMembership("volume", "L");
    GallonInLitres();
  }

  /** Converting 100 C to F on the form gives 212. */
  lemma FormBoilingPoint()
    ensures Convert("temp", "C", "F", Ok(100.0)) == Ok(212.0)
  {
    CategoryNamesDistinct();
    TempUnitsRegistered("C");
    TempUnitsRegistered("F");
    BoilingPointInFahrenheit();
  }

  /** Converting 0 K to C on the form gives -273.15. */
  lemma FormAbsoluteZero()
    ensures Convert("temp", "K", "C", Ok(0.0)) == Ok(-273.15)
  {
    CategoryNamesDistinct();
    TempUnitsRegistered("K");
    TempUnitsRegistered("C");
    AbsoluteZeroInCelsius();
  }

  /** Kilograms are not a length: the request is refused whatever the target unit and amount. */
  lemma KilogramsAreNotALength(toUnit: string, amount: Result<real>)
    ensures Convert("length", "kg", toUnit, amount) == Err(UnitMismatch)
  {
    LengthKeys();
    UnitMismatchRejected("length", "kg", toUnit, amount);
  }
}
