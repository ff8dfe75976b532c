/**
 * The conversion tables and the category registry of main.py. Each linear
 * table is a dict literal: an ordered list of (unit, factor) entries, the
 * factor taking one of the unit into the category's base unit.
 */
module Tables {
  import Sorting
  import opened Wrappers

  datatype Entry = Entry(unit: string, factor: real)

  /** `table.keys()`, in the dict's order. */
  function Units(t: seq<Entry>): (r: seq<string>)
    ensures |r| == |t|
  {
    if t == [] then [] else [t[0].unit] + Units(t[1..])
  }

  /** `table[u]`: the factor the table lists for `u`. */
  function Factor(t: seq<Entry>, u: string): (f: real)
    requires u in Units(t)
    ensures Entry(u, f) in t
  {
    if t[0].unit == u then t[0].factor else Factor(t[1..], u)
  }

  /** Every factor of the table is strictly positive, so dividing by one is defined. */
  predicate Positive(t: seq<Entry>) {
    forall e :: e in t ==> e.factor > 0.0
  }

  /** A dict's keys are distinct: no unit is listed twice. */
  predicate DistinctUnits(t: seq<Entry>) {
    forall i, j :: 0 <= i < j < |t| ==> t[i].unit != t[j].unit
  }

  const LengthToM: seq<Entry> := [
    Entry("m", 1.0),
    Entry("km", 1000.0),
    Entry("cm", 0.01),
    Entry("mm", 0.001),
    Entry("mi", 1609.344),
    Entry("yd", 0.9144),
    Entry("ft", 0.3048),
    Entry("in", 0.0254)
  ]

  const MassToKg: seq<Entry> := [
    Entry("kg", 1.0),
    Entry("g", 0.001),
    Entry("mg", 0.000001),
    Entry("lb", 0.45359237),
    Entry("oz", 0.028349523125),
    Entry("tonne", 1000.0)
  ]

  const VolumeToL: seq<Entry> := [
    Entry("L", 1.0),
    Entry("mL", 0.001),
    Entry("cup", 0.2365882365),
    Entry("pt", 0.473176473),
    Entry("qt", 0.946352946),
    Entry("gal", 3.785411784)
  ]

  /** Temperature has no factor table: only the three units it accepts. */
  const TempUnits: seq<string> := ["C", "F", "K"]

  /**
   * `CATEGORY_UNITS`: the units of each category name in ascending order, or
   * None for a name that is not a key of the registry.
   */
  function CategoryUnits(category: string): Option<seq<string>> {
    if category == "length" then Some(Sorting.Sort(Units(LengthToM)))
    else if category == "mass" then Some(Sorting.Sort(Units(MassToKg)))
    else if category == "volume" then Some(Sorting.Sort(Units(VolumeToL)))
    else if category == "temp" then Some(TempUnits)
    else None
  }

  /** Every length factor is strictly positive. */
  lemma LengthFactorsPositive()
    ensures Positive(LengthToM)
  {
  }

  /** No length unit is listed twice, and the metre is the base unit, with factor 1. */
  lemma LengthTableWellFormed()
    ensures DistinctUnits(LengthToM) && Factor(LengthToM, "m") == 1.0
  {
  }

  /** Every mass factor is strictly positive. */
  lemma MassFactorsPositive()
    ensures Positive(MassToKg)
  {
  }

  /** No mass unit is listed twice, and the kilogram is the base unit, with factor 1. */
  lemma MassTableWellFormed()
    ensures DistinctUnits(MassToKg) && Factor(MassToKg, "kg") == 1.0
  {
  }

  /** Every volume factor is strictly positive. */
  lemma VolumeFactorsPositive()
    ensures Positive(VolumeToL)
  {
  }

  /** No volume unit is listed twice, and the litre is the base unit, with factor 1. */
  lemma VolumeTableWellFormed()
    ensures DistinctUnits(VolumeToL) && Factor(VolumeToL, "L") == 1.0
  {
  }

  /** The four category names differ from one another. */
  lemma CategoryNamesDistinct()
    ensures "length" != "mass" && "length" != "volume" && "length" != "temp"
    ensures "mass" != "volume" && "mass" != "temp" && "volume" != "temp"
  {
  }

  /** The registry knows exactly the four category names. */
  lemma RegistryCategories(category: string)
    ensures CategoryUnits(category).Some? <==> category in {"length", "mass", "volume", "temp"}
  {
  }

  /**
   * The registered length units are sorted and are exactly the keys of `LengthToM`,
   * so a length unit that passes the handler's membership test has a factor.
   */
  lemma LengthUnitsRegistered(u: string)
    ensures CategoryUnits("length").Some? && Sorting.Sorted(CategoryUnits("length").value)
    ensures u in CategoryUnits("length").value <==> u in Units(LengthToM)
  {
    Sorting.SortKeepsMembers(Units(LengthToM), u);
  }

  /**
   * The registered mass units are sorted and are exactly the keys of `MassToKg`,
   * so a mass unit that passes the handler's membership test has a factor.
   */
  lemma MassUnitsRegistered(u: string)
    ensures CategoryUnits("mass").Some? && Sorting.Sorted(CategoryUnits("mass").value)
    ensures u in CategoryUnits("mass").value <==> u in Units(MassToKg)
  {
    CategoryNamesDistinct();
    Sorting.SortKeepsMembers(Units(MassToKg), u);
  }

  /**
   * The registered volume units are sorted and are exactly the keys of `VolumeToL`,
   * so a volume unit that passes the handler's membership test has a factor.
   */
  lemma VolumeUnitsRegistered(u: string)
    ensures CategoryUnits("volume").Some? && Sorting.Sorted(CategoryUnits("volume").value)
    ensures u in CategoryUnits("volume").value <==> u in Units(VolumeToL)
  {
    CategoryNamesDistinct();
    Sorting.SortKeepsMembers(Units(VolumeToL), u);
  }

  /** The registered temperature units are sorted and are exactly C, F and K. */
  lemma TempUnitsRegistered(u: string)
    ensures CategoryUnits("temp").Some? && Sorting.Sorted(CategoryUnits("temp").value)
    ensures u in CategoryUnits("temp").value <==> u == "C" || u == "F" || u == "K"
  {
    CategoryNamesDistinct();
    assert CategoryUnits("temp") == Some(TempUnits);
    assert Sorting.LexLe("C", "F") && Sorting.LexLe("F", "K");
  }

  /** `LengthToM.keys()`, in the dict's order. */
  lemma LengthKeys()
    ensures Units(LengthToM) == ["m", "km", "cm", "mm", "mi", "yd", "ft", "in"]
  {
  }

  lemma LengthKeyCounts()
    ensures multiset(Units(LengthToM)) == multiset{"m", "km", "cm", "mm", "mi", "yd", "ft", "in"}
  {
    LengthKeys();
  }

  lemma LengthKeysAscending()
    ensures Sorting.Sorted(["cm", "ft", "in", "km", "m", "mi", "mm", "yd"])
  {
  }

  lemma LengthKeysRearranged()
    ensures multiset{"m", "km", "cm", "mm", "mi", "yd", "ft", "in"} == multiset(["cm", "ft", "in", "km", "m", "mi", "mm", "yd"])
  {
  }

  /** The registered length units, as the program computes them. */
  lemma LengthRegistry()
    ensures CategoryUnits("length") == Some(["cm", "ft", "in", "km", "m", "mi", "mm", "yd"])
  {
    LengthKeyCounts();
    LengthKeysAscending();
    LengthKeysRearranged();
    Sorting.SortIsTheSortedPermutation(Units(LengthToM), ["cm", "ft", "in", "km", "m", "mi", "mm", "yd"]);
  }

  /** `MassToKg.keys()`, in the dict's order. */
  lemma MassKeys()
    ensures Units(MassToKg) == ["kg", "g", "mg", "lb", "oz", "tonne"]
  {
  }

  lemma MassKeyCounts()
    ensures multiset(Units(MassToKg)) == multiset{"kg", "g", "mg", "lb", "oz", "tonne"}
  {
    MassKeys();
  }

  lemma MassKeysAscending()
    ensures Sorting.Sorted(["g", "kg", "lb", "mg", "oz", "tonne"])
  {
  }

  lemma MassKeysRearranged()
    ensures multiset{"kg", "g", "mg", "lb", "oz", "tonne"} == multiset(["g", "kg", "lb", "mg", "oz", "tonne"])
  {
  }

  /** The registered mass units, as the program computes them. */
  lemma MassRegistry()
    ensures CategoryUnits("mass") == Some(["g", "kg", "lb", "mg", "oz", "tonne"])
  {
    MassKeyCounts();
    MassKeysAscending();
    MassKeysRearranged();
    Sorting.SortIsTheSortedPermutation(Units(MassToKg), ["g", "kg", "lb", "mg", "oz", "tonne"]);
  }

  /** `VolumeToL.keys()`, in the dict's order. */
  lemma VolumeKeys()
    ensures Units(VolumeToL) == ["L", "mL", "cup", "pt", "qt", "gal"]
  {
  }

  lemma VolumeKeyCounts()
    ensures multiset(Units(VolumeToL)) == multiset{"L", "mL", "cup", "pt", "qt", "gal"}
  {
    VolumeKeys();
  }

  lemma VolumeKeysAscending()
    ensures Sorting.Sorted(["L", "cup", "gal", "mL", "pt", "qt"])
  {
  }

  lemma VolumeKeysRearranged()
    ensures multiset{"L", "mL", "cup", "pt", "qt", "gal"} == multiset(["L", "cup", "gal", "mL", "pt", "qt"])
  {
  }

  /** The registered volume units, as the program computes them; "L" sorts before every lower-case unit. */
  lemma VolumeRegistry()
    ensures CategoryUnits("volume") == Some(["L", "cup", "gal", "mL", "pt", "qt"])
  {
    VolumeKeyCounts();
    VolumeKeysAscending();
    VolumeKeysRearranged();
    Sorting.SortIsTheSortedPermutation(Units(VolumeToL), ["L", "cup", "gal", "mL", "pt", "qt"]);
  }
}
