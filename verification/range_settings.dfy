/** range/range_settings.py: the defaults record of the range engine and its
    alternative leverage table. */
module RangeSettings {
  import opened LeverageBands

  /** The dataclass `RangeSettings` with its fields. */
  datatype Settings = Settings(
    rangeLookback: nat,
    maxRangeWidthPct: real,
    minCandles: nat,
    displacementFactor: real,
    slBufferMultiplier: real,
    rr1: real,
    rr2: real,
    rr3: real,
    minRrTp2: real)

  /** `RangeSettings()` with every field at its default. */
  const Defaults: Settings := Settings(40, 1.2, 50, 1.6, 0.35, 1.2, 1.8, 3.0, 1.5)

  /** The bands of `leverage_from_sl`, indexed by `SlBucket`. */
  const LeverageTable: seq<Band> := [
    Band(5.0, 10.0), Band(20.0, 35.0), Band(12.0, 20.0),
    Band(6.0, 12.0), Band(4.0, 6.0), Band(2.0, 4.0)]

  /** `RangeSettings.leverage_from_sl`: a smaller stop allows more leverage. */
  function LeverageFromSl(slPct: real): (b: Band)
    ensures slPct <= 0.0 ==> b == Band(5.0, 10.0)
    ensures 0.0 < slPct <= 0.25 ==> b == Band(20.0, 35.0)
    ensures 0.25 < slPct <= 0.50 ==> b == Band(12.0, 20.0)
    ensures 0.50 < slPct <= 0.80 ==> b == Band(6.0, 12.0)
    ensures 0.80 < slPct <= 1.20 ==> b == Band(4.0, 6.0)
    ensures 1.20 < slPct ==> b == Band(2.0, 4.0)
  {
    Lookup(LeverageTable, slPct)
  }

  /** For positive stops: each band is proper, both bounds fall as the stop
      widens, and adjacent buckets touch. */
  lemma LeverageFromSlMonotone(a: real, b: real)
    requires 0.0 < a <= b
    ensures LeverageFromSl(a).lo < LeverageFromSl(a).hi
    ensures LeverageFromSl(b).lo <= LeverageFromSl(a).lo
    ensures LeverageFromSl(b).hi <= LeverageFromSl(a).hi
    ensures SlBucket(b) == SlBucket(a) + 1 ==> LeverageFromSl(b).hi == LeverageFromSl(a).lo
  {
    assert StepTable(LeverageTable);
    LookupMonotone(LeverageTable, a, b);
  }

  /** The default risk multiples are increasing and the TP2 requirement does
      not exceed the TP2 multiple. */
  lemma DefaultsConsistent()
    ensures Defaults.rr1 < Defaults.rr2 < Defaults.rr3
    ensures Defaults.minRrTp2 <= Defaults.rr2
  {
  }
}
