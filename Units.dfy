/**
 * Volume units of the popup: conversion from millilitres, unit labels, the unit toggle,
 * the popup's display-unit resolution and magnitude tiers, and the simpler volume format
 * the content script and the background worker share.
 */
module Units {
  import opened Wrappers

  /** Millilitres in a US gallon and in a US fluid ounce. */
  const MlPerGallon: real := 3785.41
  const MlPerOunce: real := 29.5735

  /** The unit names, in toggle order. */
  const UnitCycle: seq<string> := ["ml", "gallons", "ounces"]

  /** Cubic metres, as the popup and the content script spell the label. */
  const CubicMetres: string := "m\U{B3}"

  /** `convertToUnit(ml, unit)`: anything but gallons and ounces is left in millilitres. */
  function ConvertToUnit(ml: real, unit: string): (v: real)
    ensures unit == "gallons" ==> v * MlPerGallon == ml
    ensures unit == "ounces" ==> v * MlPerOunce == ml
    ensures unit != "gallons" && unit != "ounces" ==> v == ml
  {
    if unit == "gallons" then ml / MlPerGallon
    else if unit == "ounces" then ml / MlPerOunce
    else ml
  }

  /** `getUnitLabel(unit)`. */
  function GetUnitLabel(unit: string): (shortName: string)
    ensures shortName == "gal" <==> unit == "gallons"
    ensures shortName == "oz" <==> unit == "ounces"
    ensures shortName == "ml" <==> unit != "gallons" && unit != "ounces"
  {
    if unit == "gallons" then "gal"
    else if unit == "ounces" then "oz"
    else "ml"
  }

  /** The millilitres one displayed unit stands for. */
  function MlPerLabel(shortName: string): real {
    if shortName == "gal" then MlPerGallon
    else if shortName == "oz" then MlPerOunce
    else if shortName == "L" then 1000.0
    else if shortName == CubicMetres then 1000000.0
    else 1.0
  }

  /** A converted value, read in the unit its label names, is the original volume. */
  lemma ConvertMatchesLabel(ml: real, unit: string)
    ensures ConvertToUnit(ml, unit) * MlPerLabel(GetUnitLabel(unit)) == ml
  {
  }

  /** `units.indexOf(u)`: the first position of `u`, or -1. */
  function IndexOf(units: seq<string>, u: string): (i: int)
    ensures -1 <= i < |units|
    ensures 0 <= i ==> units[i] == u && forall j :: 0 <= j < i ==> units[j] != u
    ensures i == -1 <==> u !in units
    decreases |units|
  {
    if |units| == 0 then -1
    else if units[0] == u then 0
    else
      var k := IndexOf(units[1..], u);
      if k == -1 then -1 else k + 1
  }

  /** The unit after `u` in the toggle cycle; an unknown unit has index -1 and goes to `ml`. */
  function NextUnit(u: string): (n: string)
    ensures n in UnitCycle
  {
    UnitCycle[(IndexOf(UnitCycle, u) + 1) % |UnitCycle|]
  }

  /** The cycle is ml, gallons, ounces, ml; an unknown unit restarts it at ml. */
  lemma ToggleOrder(u: string)
    ensures NextUnit("ml") == "gallons" && NextUnit("gallons") == "ounces" && NextUnit("ounces") == "ml"
    ensures u !in UnitCycle ==> NextUnit(u) == "ml"
  {
    assert IndexOf(UnitCycle, "ml") == 0;
    assert IndexOf(UnitCycle, "gallons") == 1;
    assert IndexOf(UnitCycle, "ounces") == 2;
  }

  /** Three toggles return to the starting unit. */
  lemma ToggleThreeTimes(u: string)
    requires u in UnitCycle
    ensures NextUnit(NextUnit(NextUnit(u))) == u
  {
    ToggleOrder(u);
  }

  /** JavaScript's `a || b` on strings, where the empty string is falsy. */
  function OrElse(a: string, b: string): string {
    if a != "" then a else b
  }

  /** The popup's unit preference `currentUnit`. */
  class UnitSetting {
    var currentUnit: string

    constructor()
      ensures currentUnit == "ml"
    {
      currentUnit := "ml";
    }

    /** `toggleUnit()`: steps the preference and returns the value it persists as `waterUnit`. */
    method ToggleUnit() returns (persisted: string)
      modifies this
      ensures currentUnit == NextUnit(old(currentUnit)) && persisted == currentUnit
    {
      var units := UnitCycle;
      var currentIndex := IndexOf(units, currentUnit);
      currentUnit := units[(currentIndex + 1) % |units|];
      persisted := currentUnit;
    }

    /**
     * The unit `formatWaterUsage` formats in: the explicit `unit` if it is not empty, else
     * the stored `waterUnit` (empty when unset), the current preference or `ml`, in that
     * order. A valid stored unit also becomes the preference; a rejected read uses the
     * preference alone.
     */
    method ResolveTargetUnit(unit: string, readOk: bool, storedUnit: string) returns (target: string)
      modifies this
      ensures unit != "" ==> target == unit && unchanged(this)
      ensures unit == "" && readOk ==>
        && target == OrElse(storedUnit, OrElse(old(currentUnit), "ml"))
        && currentUnit == (if storedUnit in UnitCycle then storedUnit else old(currentUnit))
      ensures unit == "" && !readOk ==> target == OrElse(old(currentUnit), "ml") && unchanged(this)
    {
      target := unit;
      if target == "" {
        if readOk {
          target := OrElse(storedUnit, OrElse(currentUnit, "ml"));
          if storedUnit != "" && storedUnit in UnitCycle {
            currentUnit := storedUnit;
          }
        } else {
          target := OrElse(currentUnit, "ml");
        }
      }
    }
  }

  // ---------------------------------------------------------------------------
  // Display tiers

  /**
   * How a number is printed: as is, with `toFixed(n)`, or with `toFixed(n)` whose trailing
   * zeros `parseFloat` then drops.
   */
  datatype Digits = AsIs | Fixed(n: nat) | UpTo(n: nat)

  /** A formatted volume: the number shown, its unit label and its digits. */
  datatype Shown = Shown(value: real, unitName: string, digits: Digits)

  /** The decimal places the popup shows a gallon or ounce value with. */
  function Decimals(converted: real): nat {
    if converted < 1.0 then 4 else if converted < 10.0 then 3 else 2
  }

  /** The popup's `formatWaterUsage(ml, targetUnit)` once the unit is resolved. */
  function FormatWaterUsage(ml: real, target: string): Shown {
    if target == "ml" then
      if ml < 1000.0 then Shown(ml, GetUnitLabel(target), UpTo(4))
      else if ml < 1000000.0 then Shown(ml / 1000.0, "L", UpTo(4))
      else Shown(ml / 1000000.0, CubicMetres, UpTo(4))
    else
      var converted := ConvertToUnit(ml, target);
      Shown(converted, GetUnitLabel(target), UpTo(Decimals(converted)))
  }

  /** Whatever the tier, the number shown, read in its label's unit, is the volume given. */
  lemma FormatPreservesVolume(ml: real, target: string)
    ensures FormatWaterUsage(ml, target).value * MlPerLabel(FormatWaterUsage(ml, target).unitName) == ml
  {
  }

  /**
   * In millilitre mode the tier follows the magnitude: millilitres below 1000, litres
   * below one million, cubic metres above, each with up to four decimals; litres and
   * cubic metres are shown as at least 1.
   */
  lemma MlTiers(ml: real)
    ensures FormatWaterUsage(ml, "ml").unitName == "ml" <==> ml < 1000.0
    ensures FormatWaterUsage(ml, "ml").unitName == "L" <==> 1000.0 <= ml < 1000000.0
    ensures FormatWaterUsage(ml, "ml").unitName == CubicMetres <==> 1000000.0 <= ml
    ensures FormatWaterUsage(ml, "ml").unitName != "ml" ==> FormatWaterUsage(ml, "ml").value >= 1.0
    ensures FormatWaterUsage(ml, "ml").unitName == "L" ==> FormatWaterUsage(ml, "ml").value < 1000.0
    ensures FormatWaterUsage(ml, "ml").digits == UpTo(4)
  {
  }

  /**
   * In gallon and ounce mode the figure is the converted value under the unit's own label,
   * and the decimals follow it: four below 1, three below 10, two otherwise. For gallons
   * the thresholds are one and ten gallons.
   */
  lemma ConvertedDecimals(ml: real, target: string)
    requires target != "ml"
    ensures var v := ConvertToUnit(ml, target);
      && (FormatWaterUsage(ml, target).digits == UpTo(4) <==> v < 1.0)
      && (FormatWaterUsage(ml, target).digits == UpTo(3) <==> 1.0 <= v < 10.0)
      && (FormatWaterUsage(ml, target).digits == UpTo(2) <==> 10.0 <= v)
    ensures target == "gallons" ==>
      (FormatWaterUsage(ml, target).digits == UpTo(4) <==> ml < MlPerGallon)
    ensures FormatWaterUsage(ml, target).unitName == GetUnitLabel(target)
    ensures FormatWaterUsage(ml, target).value == ConvertToUnit(ml, target)
  {
  }

  /** One gallon is shown as the number 1 with up to three decimals, since 1 is not below 1. */
  lemma OneGallon()
    ensures FormatWaterUsage(MlPerGallon, "gallons") == Shown(1.0, "gal", UpTo(3))
  {
  }

  /**
   * The content script's `formatWaterUsage(ml)`, which the background worker's copy is
   * meant to equal: millilitres as is, litres with one decimal, cubic metres with two.
   */
  function BasicFormat(ml: real): Shown {
    if ml < 1000.0 then Shown(ml, "ml", AsIs)
    else if ml < 1000000.0 then Shown(ml / 1000.0, "L", Fixed(1))
    else Shown(ml / 1000000.0, CubicMetres, Fixed(2))
  }

  /** The simple format keeps the volume and uses the popup's tiers with its own digits. */
  lemma BasicFormatTiers(ml: real)
    ensures BasicFormat(ml).value * MlPerLabel(BasicFormat(ml).unitName) == ml
    ensures BasicFormat(ml).unitName == FormatWaterUsage(ml, "ml").unitName
    ensures BasicFormat(ml).value == FormatWaterUsage(ml, "ml").value
  {
  }

  /**
   * The background worker's `formatWaterUsage` as written: its cubic-metre label is the
   * UTF-8 encoding of "m³" read back as Latin-1, the three characters "mÂ³".
   */
  function BackgroundFormatAsWritten(ml: real): Shown {
    if ml < 1000.0 then Shown(ml, "ml", AsIs)
    else if ml < 1000000.0 then Shown(ml / 1000.0, "L", Fixed(1))
    else Shown(ml / 1000000.0, "m\U{C2}\U{B3}", Fixed(2))
  }

  /**
   * From one million millilitres up, the background worker's text carries a label no
   * other part of the extension uses and that names no unit; below that it agrees.
   */
  lemma BackgroundLabelGarbled(ml: real)
    ensures 1000000.0 <= ml <==> BackgroundFormatAsWritten(ml).unitName != BasicFormat(ml).unitName
    ensures 1000000.0 <= ml ==> MlPerLabel(BackgroundFormatAsWritten(ml).unitName) == 1.0
    ensures ml < 1000000.0 ==> BackgroundFormatAsWritten(ml) == BasicFormat(ml)
  {
    assert "m\U{C2}\U{B3}" != CubicMetres by {
      assert |"m\U{C2}\U{B3}"| != |CubicMetres|;
    }
  }
}
