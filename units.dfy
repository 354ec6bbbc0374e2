/**
 * The kilogram/pound conversion of the workout editor and the session screen.
 * Weights are stored in kilograms; a screen whose unit is "lb" shows and reads
 * them in pounds. Any other unit string is treated as kilograms.
 */
module Units {
  /** Pounds per kilogram, as the screens use it. */
  const LbPerKg: real := 2.20462

  /** `kgToUnit`: a stored weight as the screen shows it. */
  function KgToUnit(unit: string, v: real): (r: real)
    ensures r == v <==> unit != "lb" || v == 0.0
    ensures (r > 0.0 <==> v > 0.0) && (r < 0.0 <==> v < 0.0)
  {
    if unit == "lb" then v * LbPerKg else v
  }

  /** `unitToKg`: a weight typed on the screen, as it is stored. */
  function UnitToKg(unit: string, v: real): (r: real)
    ensures r == v <==> unit != "lb" || v == 0.0
    ensures (r > 0.0 <==> v > 0.0) && (r < 0.0 <==> v < 0.0)
  {
    if unit == "lb" then v / LbPerKg else v
  }

  /** Converting for display and reading the shown value back gives the stored weight again, in both
      directions and for both units. */
  lemma UnitRoundTrip(unit: string, v: real)
    ensures UnitToKg(unit, KgToUnit(unit, v)) == v
    ensures KgToUnit(unit, UnitToKg(unit, v)) == v
  {
  }
}
