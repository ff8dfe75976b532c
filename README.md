# Unit conversion engine, modelled in Dafny

This project models the conversion engine of a small unit-conversion web form
(`main.py`). The form converts an amount between units of length, mass, volume
and temperature:

- three linear tables give each unit's factor into a base unit (metre,
  kilogram, litre);
- the linear converters pivot through that base unit: multiply by the source
  factor, then divide by the target factor;
- the temperature converter pivots through degrees Celsius over C, F and K;
- a registry, `CATEGORY_UNITS`, lists each category's units in ascending order;
- the POST branch of the request handler validates the category and both units,
  parses the amount, dispatches to the category's converter, and reports any
  `ValueError` by its message.

All quantities are Dafny `real`s. The identity, round-trip and literal laws
therefore hold exactly. In Python floats they hold only up to rounding.

Modules, one file each:

- `Wrappers` (`wrappers.dfy`): `Option`, and `Result` = `Ok(value)` or
  `Err(msg)`, where `msg` is the message of a raised `ValueError`.
- `Sorting` (`sorting.dfy`): Python's `sorted` on strings. Strings are ordered
  code point by code point, and a proper prefix comes first. The model uses
  insertion sort. It proves that a sorted arrangement is unique, so the result
  is the same as Python's whatever algorithm Python uses.
- `Tables` (`tables.dfy`): the three dict literals as ordered entry lists, so
  `keys()` keeps the dict's order. Also `TEMP_UNITS` and the registry.
- `Converters` (`converters.dfy`): `convert_length`, `convert_mass`,
  `convert_volume`, their shared pivot, and `convert_temp`, split into its two
  halves `ToCelsius` and `FromCelsius`.
- `Handler` (`handler.dfy`): the validate-and-dispatch body of `index`.

The amount is not parsed in the model. `float(amount_str)` is a parameter
`amount: Result<real>`: either the parsed number or the message of the
`ValueError` it raised. A dict lookup of a missing key raises `KeyError`, which
the handler does not catch. So the linear converters require both units to be
in their table, and the handler proves that validation always meets this.

## Model

| member | source | states |
|---|---|---|
| `Sorting.LexTotal` | main.py:42-44 | Python's string order is total: of any two strings one is `<=` the other |
| `Sorting.LexAntisymmetric` | main.py:42-44 | two strings each `<=` the other are equal |
| `Sorting.LexTransitive` | main.py:42-44 | the string order is transitive |
| `Sorting.Insert` | main.py:42-44 | inserting into a sorted list keeps it sorted and adds exactly that one element (multiset) |
| `Sorting.Sort` | main.py:42-44 | `sorted(s)` is ascending and a permutation of `s` |
| `Sorting.SortKeepsMembers` | main.py:42-44 | a string is in `sorted(s)` exactly when it is in `s` |
| `Sorting.SortedHeadIsLeast` | main.py:42-44 | the head of a sorted list is `<=` every element |
| `Sorting.SortedUnique` | main.py:42-44 | two sorted lists with the same elements are equal |
| `Sorting.SortIsTheSortedPermutation` | main.py:42-44 | `sorted(s)` equals any ascending list with the same elements as `s` |
| `Tables.Factor` | main.py:50-51 | a table lookup returns the factor the dict literal lists for that unit |
| `Tables.LengthFactorsPositive` | main.py:9-18 | every length factor is strictly positive |
| `Tables.LengthTableWellFormed` | main.py:9-18 | no length unit is listed twice, and `m` has factor 1 |
| `Tables.MassFactorsPositive` | main.py:20-27 | every mass factor is strictly positive |
| `Tables.MassTableWellFormed` | main.py:20-27 | no mass unit is listed twice, and `kg` has factor 1 |
| `Tables.VolumeFactorsPositive` | main.py:29-36 | every volume factor is strictly positive |
| `Tables.VolumeTableWellFormed` | main.py:29-36 | no volume unit is listed twice, and `L` has factor 1 |
| `Tables.LengthKeys` | main.py:9-18 | `LENGTH_TO_M.keys()` in dict order |
| `Tables.MassKeys` | main.py:20-27 | `MASS_TO_KG.keys()` in dict order |
| `Tables.VolumeKeys` | main.py:29-36 | `VOLUME_TO_L.keys()` in dict order |
| `Tables.RegistryCategories` | main.py:41-46 | the registry has a unit list for exactly `length`, `mass`, `volume` and `temp` |
| `Tables.LengthUnitsRegistered` | main.py:42 | the registered length list is sorted, and a unit is in it exactly when it is a key of `LENGTH_TO_M` |
| `Tables.MassUnitsRegistered` | main.py:43 | the registered mass list is sorted, and a unit is in it exactly when it is a key of `MASS_TO_KG` |
| `Tables.VolumeUnitsRegistered` | main.py:44 | the registered volume list is sorted, and a unit is in it exactly when it is a key of `VOLUME_TO_L` |
| `Tables.TempUnitsRegistered` | main.py:39-45 | the registered temperature list is sorted, and a unit is in it exactly when it is C, F or K |
| `Tables.LengthRegistry` | main.py:42 | the length list is `cm ft in km m mi mm yd` |
| `Tables.MassRegistry` | main.py:43 | the mass list is `g kg lb mg oz tonne` |
| `Tables.VolumeRegistry` | main.py:44 | the volume list is `L cup gal mL pt qt`; upper-case `L` sorts first |
| `Converters.ConvertLinear` | main.py:49-61 | the result is the amount of the target unit that measures the same base quantity as the input (`r * f[to] == v * f[from]`), which fixes `r` because factors are positive |
| `Converters.ConvertLength` | main.py:49-51 | the result measures as many metres as the input |
| `Converters.ConvertMass` | main.py:54-56 | the result weighs as many kilograms as the input |
| `Converters.ConvertVolume` | main.py:59-61 | the result holds as many litres as the input |
| `Converters.LinearIdentity` | main.py:49-61 | converting a unit to itself returns the input unchanged |
| `Converters.LinearRoundTrip` | main.py:49-61 | A to B then B to A returns the original value exactly |
| `Converters.LinearComposes` | main.py:49-61 | A to B then B to C equals A to C: the pivot is path-independent |
| `Converters.KilometreInMetres` | main.py:49-51 | 1 km converts to 1000 m |
| `Converters.PoundInKilograms` | main.py:54-56 | 1 lb converts to 0.45359237 kg |
| `Converters.GallonInLitres` | main.py:59-61 | 1 gal converts to 3.785411784 L |
| `Converters.ToCelsius` | main.py:65-73 | a reading converts to Celsius exactly when its unit is C, F or K |
| `Converters.FromCelsius` | main.py:75-83 | a Celsius value converts to a unit exactly when it is C, F or K, and converting the result back to Celsius gives the value again |
| `Converters.CelsiusRoundTrip` | main.py:65-83 | a reading taken to Celsius and back is unchanged |
| `Converters.ToCelsiusInjective` | main.py:65-73 | two readings in one unit with the same Celsius value are equal |
| `Converters.ConvertTemp` | main.py:64-83 | succeeds exactly when both units are in {C, F, K}, and otherwise gives "Unsupported temperature unit"; a result reads the same Celsius temperature in the target unit as the input does in the source unit |
| `Converters.TempIdentity` | main.py:64-83 | C to C, F to F and K to K return the input unchanged |
| `Converters.TempRoundTrip` | main.py:64-83 | for any two temperature units, there and back returns the original value exactly (F to C to F and K to C to K included) |
| `Converters.BoilingPointInFahrenheit` | main.py:64-83 | 100 C converts to 212 F |
| `Converters.AbsoluteZeroInCelsius` | main.py:64-83 | 0 K converts to -273.15 C |
| `Handler.Convert` | main.py:99-118 | a request succeeds only for a known category and a parsed amount; it can fail only with "Unknown category.", "Units don't match the selected category." or the parser's own message, so "Unsupported category." and "Unsupported temperature unit" are never raised |
| `Handler.RegistryMembership` | main.py:101 | for a known category, the membership test on the registry list is membership in that category's table (or {C, F, K}) |
| `Handler.UnknownCategoryRejected` | main.py:99-100 | an unknown category yields "Unknown category." whatever the units and amount |
| `Handler.UnitMismatchRejected` | main.py:101-104 | a from- or to-unit outside a known category yields "Units don't match the selected category.", even when the amount does not parse |
| `Handler.ParseErrorReported` | main.py:104 | once category and units pass, an unparseable amount yields the parser's message |
| `Handler.ValidRequestConverted` | main.py:106-115 | a valid request always yields a value, and that value measures the same quantity in the target unit as the amount does in the source unit (the same Celsius temperature for `temp`) |
| `Handler.FormKilometre` | main.py:106-107 | length, 1, km to m yields 1000 |
| `Handler.FormPound` | main.py:108-109 | mass, 1, lb to kg yields 0.45359237 |
| `Handler.FormGallon` | main.py:110-111 | volume, 1, gal to L yields 3.785411784 |
| `Handler.FormBoilingPoint` | main.py:112-113 | temp, 100, C to F yields 212 |
| `Handler.FormAbsoluteZero` | main.py:112-113 | temp, 0, K to C yields -273.15 |
| `Handler.KilogramsAreNotALength` | main.py:101-102 | length with from-unit kg yields "Units don't match the selected category." for any target and amount |

## Left out

- Flask plumbing (`app`, the route decorator, `render_template`, `flash`, `secret_key`, `app.run`; main.py:1-5, 86, 119-135): web I/O and calls into a library that is not part of this model.
- The form defaults (main.py:92-95) are presentation convenience and are not modelled. `Handler.Convert` models lines 99-118 on their own. Python evaluates the default argument of `request.form.get` eagerly. So `CATEGORY_UNITS[category][0]` on line 93 raises `KeyError` for an unknown category, and that exception is not caught. In the running handler the "Unknown category." branch can therefore not be reached. The model does not claim that the full handler reports that message.
- IEEE-754 floating point: every value is an exact `real`. Float rounding drift, for example in F to C to F, is not modelled.
- Python's `float(amount_str)` is a parameter, not a parser. Its acceptance of `inf`, `nan`, underscores and surrounding whitespace is not modelled. Only its outcome matters here: a number or a `ValueError` message.
- A `KeyError` from a linear table lookup is not modelled as an outcome. The linear converters require both units to be in their table, and the handler proves it always meets that requirement.
- `Sorting.Sort` is insertion sort, not Timsort. `Sorting.SortIsTheSortedPermutation` shows that the result is the same.
