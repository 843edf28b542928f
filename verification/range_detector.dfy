/** range/range_detector.py: the 1h range built from 5m bars, the
    sweep-then-confirm fakeout pattern, the level builder and the numeric
    path of `analyze_symbol_range`. */
module RangeDetector {
  import opened Outcomes
  import opened Candles
  import opened LeverageBands
  import opened RangeTiers

  datatype Side = Long | Short

  /** The 1h range `(range_low, range_high)`. */
  datatype Range = Range(low: real, high: real)

  /** The dict `_detect_fakeout` returns. */
  datatype Pattern = Pattern(side: Side, rangeLow: real, rangeHigh: real, sweepIdx: nat, confirmIdx: nat)

  /** Bars in the range window (one hour of 5m bars). */
  const RangeBars: nat := 12
  /** The window plus the sweep and the confirm bar. */
  const MinBars: nat := 14

  /** The window index `i` lies in `candles[-14:-2]`. */
  predicate InWindow(cs: seq<Candle>, i: int)
  {
    |cs| >= MinBars && |cs| - MinBars <= i < |cs| - 2
  }

  /** `candles[-14:-2]`: the twelve bars before the last two. */
  function Window(cs: seq<Candle>): (w: seq<Candle>)
    requires |cs| >= MinBars
    ensures |w| == RangeBars
    ensures forall i | 0 <= i < RangeBars :: w[i] == cs[|cs| - MinBars + i]
  {
    cs[|cs| - MinBars .. |cs| - 2]
  }

  /** `_compute_1h_range_from_5m`: the lowest low and highest high of the
      window, or `None` without a window or when the range has no width. */
  function Compute1hRange(cs: seq<Candle>): (r: Option<Range>)
    ensures |cs| < MinBars ==> r == None
    ensures |cs| >= MinBars ==>
      (r.Some? <==> exists i, j | InWindow(cs, i) && InWindow(cs, j) :: cs[j].low < cs[i].high)
    ensures r.Some? ==> r.value.low < r.value.high
    ensures r.Some? ==> exists i | InWindow(cs, i) :: cs[i].low == r.value.low
    ensures r.Some? ==> forall i | InWindow(cs, i) :: r.value.low <= cs[i].low
    ensures r.Some? ==> exists i | InWindow(cs, i) :: cs[i].high == r.value.high
    ensures r.Some? ==> forall i | InWindow(cs, i) :: cs[i].high <= r.value.high
  {
    if |cs| < MinBars then None
    else
      var w := Window(cs);
      var rangeHigh := MaxOf(Highs(w));
      var rangeLow := MinOf(Lows(w));
      assert forall i | InWindow(cs, i) :: cs[i] == w[i - (|cs| - MinBars)];
      if rangeHigh <= rangeLow then None else Some(Range(rangeLow, rangeHigh))
  }

  /** The range is wide enough: positive midpoint and a width, as a
      percentage of the midpoint, of at least `minRangePct`. */
  function WideEnough(rg: Range, minRangePct: real): (b: bool)
    ensures b <==> rg.low + rg.high > 0.0 && rg.high - rg.low >= (rg.high + rg.low) / 2.0 * minRangePct / 100.0
    ensures b && minRangePct > 0.0 ==> rg.low < rg.high
  {
    var mid := (rg.high + rg.low) / 2.0;
    assert mid > 0.0 ==> (rg.high - rg.low) / mid * mid == rg.high - rg.low;
    mid > 0.0 && (rg.high - rg.low) / mid * 100.0 >= minRangePct
  }

  /** The part of `_detect_fakeout` before the sweep test: a range exists
      and passes the width filter. */
  function RangeGate(cs: seq<Candle>, minRangePct: real): (r: Option<Range>)
    ensures r.Some? ==> |cs| >= MinBars && Compute1hRange(cs) == r && WideEnough(r.value, minRangePct)
    ensures r.None? ==> Compute1hRange(cs).None? || !WideEnough(Compute1hRange(cs).value, minRangePct)
    ensures r.Some? ==> 0.0 < r.value.high && r.value.low < r.value.high
  {
    if |cs| < MinBars then None
    else
      match Compute1hRange(cs)
      case None => None
      case Some(rg) => if WideEnough(rg, minRangePct) then Some(rg) else None
  }

  /** The long (fake breakdown) pattern: the sweep pierces the range low by at
      least `tol` percent and closes at or below it; the confirm bar closes
      back above the range low and above the sweep close. The source divides
      by the range low, so a zero range low is excluded here and raises in
      `DetectFakeout`. */
  function LongSetup(rg: Range, sweep: Candle, confirm: Candle, tol: real): (b: bool)
    ensures rg.low > 0.0 ==>
      (b <==> && sweep.low < rg.low
              && sweep.low <= rg.low * (1.0 - tol / 100.0)
              && sweep.close <= rg.low < confirm.close
              && sweep.close < confirm.close)
  {
    && sweep.low < rg.low
    && rg.low != 0.0
    && (rg.low - sweep.low) / rg.low * 100.0 >= tol
    && sweep.close <= rg.low
    && confirm.close > rg.low
    && confirm.close > sweep.close
  }

  /** The short (fake breakout) pattern, mirrored against the range high. The
      range high of a gated range is positive, so its division never fails. */
  function ShortSetup(rg: Range, sweep: Candle, confirm: Candle, tol: real): (b: bool)
    ensures rg.high > 0.0 ==>
      (b <==> && sweep.high > rg.high
              && sweep.high >= rg.high * (1.0 + tol / 100.0)
              && confirm.close < rg.high <= sweep.close
              && confirm.close < sweep.close)
  {
    && sweep.high > rg.high
    && rg.high != 0.0
    && (sweep.high - rg.high) / rg.high * 100.0 >= tol
    && sweep.close >= rg.high
    && confirm.close < rg.high
    && confirm.close < sweep.close
  }

  /** The long test divides by zero: the range low is zero and the sweep
      went below it. */
  predicate LongDividesByZero(rg: Range, sweep: Candle)
  {
    sweep.low < rg.low && rg.low == 0.0
  }

  /** On a range with width, the sweep close cannot be both at or below the
      low and at or above the high, so long and short exclude each other. */
  lemma LongShortExclusive(rg: Range, sweep: Candle, confirm: Candle, tol: real)
    requires rg.low < rg.high
    ensures !(LongSetup(rg, sweep, confirm, tol) && ShortSetup(rg, sweep, confirm, tol))
  {
  }

  /** `_detect_fakeout` with the minimum penetration `tol` (in percent) passed
      explicitly. Sweep and confirm are always the last two bars. */
  function DetectFakeout(cs: seq<Candle>, minRangePct: real, tol: real): (r: Checked<Option<Pattern>>)
    ensures |cs| < MinBars ==> r == Ok(None)
    ensures RangeGate(cs, minRangePct).None? ==> r == Ok(None)
    ensures r.Raised? <==>
      RangeGate(cs, minRangePct).Some? && LongDividesByZero(RangeGate(cs, minRangePct).value, cs[|cs| - 2])
    ensures r.Raised? ==> r.fault == DivisionByZero
    ensures r.Ok? && r.value.Some? ==>
      var p := r.value.value;
      && p.sweepIdx == |cs| - 2
      && p.confirmIdx == |cs| - 1
      && RangeGate(cs, minRangePct) == Some(Range(p.rangeLow, p.rangeHigh))
    ensures (r.Ok? && r.value.Some? && r.value.value.side == Long) <==>
      RangeGate(cs, minRangePct).Some?
      && LongSetup(RangeGate(cs, minRangePct).value, cs[|cs| - 2], cs[|cs| - 1], tol)
    ensures (r.Ok? && r.value.Some? && r.value.value.side == Short) <==>
      RangeGate(cs, minRangePct).Some?
      && !LongDividesByZero(RangeGate(cs, minRangePct).value, cs[|cs| - 2])
      && ShortSetup(RangeGate(cs, minRangePct).value, cs[|cs| - 2], cs[|cs| - 1], tol)
  {
    match RangeGate(cs, minRangePct)
    case None => Ok(None)
    case Some(rg) =>
      var sweepIdx := |cs| - 2;
      var confirmIdx := |cs| - 1;
      var sweep := cs[sweepIdx];
      var confirm := cs[confirmIdx];
      if LongDividesByZero(rg, sweep) then Raised(DivisionByZero)
      else if LongSetup(rg, sweep, confirm, tol) then Ok(Some(Pattern(Long, rg.low, rg.high, sweepIdx, confirmIdx)))
      else if ShortSetup(rg, sweep, confirm, tol) then Ok(Some(Pattern(Short, rg.low, rg.high, sweepIdx, confirmIdx)))
      else Ok(None)
  }

  /** `_detect_fakeout` as the source runs it: the minimum penetration is read
      from `range_settings.sweep_penetration_min`, an attribute the settings
      record in core/range_settings.py does not define, so every candle list
      that passes the width filter raises instead of being classified. */
  function DetectFakeoutAsWritten(cs: seq<Candle>, minRangePct: real): (r: Checked<Option<Pattern>>)
    ensures r.Ok? ==> r.value == None
    ensures r.Raised? <==> RangeGate(cs, minRangePct).Some?
  {
    match RangeGate(cs, minRangePct)
    case None => Ok(None)
    case Some(_) => Raised(AttributeError("sweep_penetration_min"))
  }

  /** The bands of `recommend_leverage_range`, indexed by `SlBucket`. */
  const RecommendTable: seq<Band> := [
    Band(5.0, 10.0), Band(25.0, 40.0), Band(15.0, 25.0),
    Band(8.0, 15.0), Band(5.0, 8.0), Band(3.0, 5.0)]

  /** `recommend_leverage_range`: the detector's own leverage table. */
  function RecommendLeverageRange(slPct: real): (b: Band)
    ensures slPct <= 0.0 ==> b == Band(5.0, 10.0)
    ensures 0.0 < slPct <= 0.25 ==> b == Band(25.0, 40.0)
    ensures 0.25 < slPct <= 0.50 ==> b == Band(15.0, 25.0)
    ensures 0.50 < slPct <= 0.80 ==> b == Band(8.0, 15.0)
    ensures 0.80 < slPct <= 1.20 ==> b == Band(5.0, 8.0)
    ensures 1.20 < slPct ==> b == Band(3.0, 5.0)
  {
    Lookup(RecommendTable, slPct)
  }

  /** For positive stops: each band is proper, both bounds fall as the stop
      widens, and adjacent buckets touch. */
  lemma RecommendLeverageMonotone(a: real, b: real)
    requires 0.0 < a <= b
    ensures RecommendLeverageRange(a).lo < RecommendLeverageRange(a).hi
    ensures RecommendLeverageRange(b).lo <= RecommendLeverageRange(a).lo
    ensures RecommendLeverageRange(b).hi <= RecommendLeverageRange(a).hi
    ensures SlBucket(b) == SlBucket(a) + 1 ==> RecommendLeverageRange(b).hi == RecommendLeverageRange(a).lo
  {
    assert StepTable(RecommendTable);
    LookupMonotone(RecommendTable, a, b);
  }

  /** The dict `_build_levels` returns, plus `risk`, the distance the targets
      were measured with (a local of the source, kept here so that the
      target contracts can name it). */
  datatype Levels = Levels(
    entry: real, sl: real, tp1: real, tp2: real, tp3: real,
    slPct: real, levMin: real, levMax: real, risk: real)

  /** Distance from entry to stop on the losing side, before the fallback. */
  function RawRisk(side: Side, entry: real, sl: real): real
  {
    if side == Long then entry - sl else sl - entry
  }

  /** The entry: the range edge, but never beyond the last close. */
  function EntryOf(side: Side, rangeLow: real, rangeHigh: real, lastClose: real): (e: real)
    ensures side == Long ==> e <= rangeLow && e <= lastClose && (e == rangeLow || e == lastClose)
    ensures side == Short ==> e >= rangeHigh && e >= lastClose && (e == rangeHigh || e == lastClose)
  {
    if side == Long then Min2(rangeLow, lastClose) else Max2(rangeHigh, lastClose)
  }

  /** The stop: beyond the extreme actually touched (range edge or sweep
      wick) by `max(base * 0.0015, |entry| * 0.0005)`. */
  function StopOf(side: Side, rangeLow: real, rangeHigh: real, sweep: Candle, entry: real): (sl: real)
    ensures side == Long ==> Min2(rangeLow, sweep.low) - sl >= Abs(entry) * 0.0005
    ensures side == Long ==> Min2(rangeLow, sweep.low) - sl >= Min2(rangeLow, sweep.low) * 0.0015
    ensures side == Short ==> sl - Max2(rangeHigh, sweep.high) >= Abs(entry) * 0.0005
    ensures side == Short ==> sl - Max2(rangeHigh, sweep.high) >= Max2(rangeHigh, sweep.high) * 0.0015
    ensures side == Long && Min2(rangeLow, sweep.low) > 0.0 ==> sl < rangeLow && sl < sweep.low
    ensures side == Short && Max2(rangeHigh, sweep.high) > 0.0 ==> sl > rangeHigh && sl > sweep.high
    ensures side == Long ==>
      var gap := Min2(rangeLow, sweep.low) - sl;
      gap == Min2(rangeLow, sweep.low) * 0.0015 || gap == Abs(entry) * 0.0005
    ensures side == Short ==>
      var gap := sl - Max2(rangeHigh, sweep.high);
      gap == Max2(rangeHigh, sweep.high) * 0.0015 || gap == Abs(entry) * 0.0005
  {
    var slBase := if side == Long then Min2(rangeLow, sweep.low) else Max2(rangeHigh, sweep.high);
    var buffer := Max2(slBase * 0.0015, Abs(entry) * 0.0005);
    if side == Long then slBase - buffer else slBase + buffer
  }

  /** The risk guard: a non-positive entry-to-stop distance is replaced by
      0.3% of the entry, so the risk is positive whenever the entry is not zero. */
  function GuardedRisk(side: Side, entry: real, sl: real): (risk: real)
    ensures RawRisk(side, entry, sl) > 0.0 ==> risk == RawRisk(side, entry, sl)
    ensures RawRisk(side, entry, sl) <= 0.0 ==> risk == Abs(entry) * 0.003
    ensures risk >= 0.0
    ensures entry != 0.0 ==> risk > 0.0
  {
    var raw := RawRisk(side, entry, sl);
    if raw <= 0.0 then Abs(entry) * 0.003 else raw
  }

  /** A target `rr` risks away from the entry on the winning side. */
  function TargetOf(side: Side, entry: real, rr: real, risk: real): (tp: real)
    ensures side == Long ==> tp - entry == rr * risk
    ensures side == Short ==> entry - tp == rr * risk
  {
    if side == Long then entry + rr * risk else entry - rr * risk
  }

  /** `pct` is `risk` as a non-negative percentage of a non-zero `entry`. */
  predicate PercentOfEntry(pct: real, risk: real, entry: real)
  {
    pct >= 0.0 && (entry != 0.0 ==> pct * Abs(entry) == risk * 100.0)
  }

  /** `abs(risk / entry) * 100 if entry != 0 else 0`: never divides by zero. */
  function StopPct(risk: real, entry: real): (pct: real)
    requires risk >= 0.0
    ensures PercentOfEntry(pct, risk, entry)
    ensures entry == 0.0 ==> pct == 0.0
  {
    if entry != 0.0 then
      SlPctTimesEntry(risk, entry);
      Abs(risk / entry) * 100.0
    else 0.0
  }

  /** `_build_levels`. */
  function BuildLevels(side: Side, rangeLow: real, rangeHigh: real, sweep: Candle, confirm: Candle,
                       rr1: real, rr2: real, rr3: real): (lv: Levels)
    ensures lv.entry == EntryOf(side, rangeLow, rangeHigh, confirm.close)
    ensures lv.sl == StopOf(side, rangeLow, rangeHigh, sweep, lv.entry)
    ensures lv.risk == GuardedRisk(side, lv.entry, lv.sl)
    ensures lv.tp1 == TargetOf(side, lv.entry, rr1, lv.risk)
    ensures lv.tp2 == TargetOf(side, lv.entry, rr2, lv.risk)
    ensures lv.tp3 == TargetOf(side, lv.entry, rr3, lv.risk)
    ensures lv.slPct == StopPct(lv.risk, lv.entry)
    ensures Band(lv.levMin, lv.levMax) == RecommendLeverageRange(lv.slPct)
    ensures side == Long ==> lv.entry <= rangeLow && lv.entry <= confirm.close
    ensures side == Short ==> lv.entry >= rangeHigh && lv.entry >= confirm.close
    ensures side == Long && Min2(rangeLow, sweep.low) > 0.0 ==> lv.sl < rangeLow && lv.sl < sweep.low
    ensures side == Short && Max2(rangeHigh, sweep.high) > 0.0 ==> lv.sl > rangeHigh && lv.sl > sweep.high
    ensures RawRisk(side, lv.entry, lv.sl) > 0.0 ==> lv.risk == Abs(lv.entry - lv.sl)
    ensures lv.entry != 0.0 ==> lv.risk > 0.0
    ensures PercentOfEntry(lv.slPct, lv.risk, lv.entry)
    ensures 0.0 < rr1 < rr2 < rr3 && lv.entry != 0.0 ==>
      && (side == Long ==> lv.entry < lv.tp1 < lv.tp2 < lv.tp3)
      && (side == Short ==> lv.entry > lv.tp1 > lv.tp2 > lv.tp3)
  {
    var entry := EntryOf(side, rangeLow, rangeHigh, confirm.close);
    var sl := StopOf(side, rangeLow, rangeHigh, sweep, entry);
    var risk := GuardedRisk(side, entry, sl);
    var slPct := StopPct(risk, entry);
    var band := RecommendLeverageRange(slPct);
    var lv := Levels(entry, sl, TargetOf(side, entry, rr1, risk), TargetOf(side, entry, rr2, risk),
                     TargetOf(side, entry, rr3, risk), slPct, band.lo, band.hi, risk);
    if 0.0 < rr1 < rr2 < rr3 && entry != 0.0 then
      TargetsOrdered(side, entry, risk, rr1, rr2, rr3);
      lv
    else lv
  }

  /** On a detected setup the stop lies strictly on the losing side of the
      entry: the entry is the range edge itself (the confirm closed back
      inside it) and the stop is at or beyond the sweep's extreme, which
      pierced that edge. So the risk fallback of the level builder is never
      taken on a pattern the detector reports. */
  lemma SetupHasPositiveRisk(side: Side, rg: Range, sweep: Candle, confirm: Candle, tol: real,
                             rr1: real, rr2: real, rr3: real)
    requires side == Long ==> LongSetup(rg, sweep, confirm, tol)
    requires side == Short ==> ShortSetup(rg, sweep, confirm, tol)
    ensures var lv := BuildLevels(side, rg.low, rg.high, sweep, confirm, rr1, rr2, rr3);
      RawRisk(side, lv.entry, lv.sl) > 0.0
  {
    var lv := BuildLevels(side, rg.low, rg.high, sweep, confirm, rr1, rr2, rr3);
    if side == Long {
      assert lv.entry == rg.low;
      assert Min2(rg.low, sweep.low) == sweep.low;
    } else {
      assert lv.entry == rg.high;
      assert Max2(rg.high, sweep.high) == sweep.high;
    }
  }

  /** Without the fallback the risk is the entry-to-stop distance, so a
      target `rr` risks away lies `rr` times that distance from the entry. */
  lemma NoFallbackDistance(side: Side, entry: real, sl: real, rr: real)
    requires rr >= 0.0
    requires RawRisk(side, entry, sl) > 0.0
    ensures Abs(TargetOf(side, entry, rr, GuardedRisk(side, entry, sl)) - entry) == rr * Abs(entry - sl)
  {
    var risk := GuardedRisk(side, entry, sl);
    assert risk == Abs(entry - sl);
    assert rr * risk >= 0.0;
  }

  /** `|risk / entry| * 100` times `|entry|` gives back `risk * 100`. */
  lemma SlPctTimesEntry(risk: real, entry: real)
    requires risk >= 0.0
    requires entry != 0.0
    ensures Abs(risk / entry) * 100.0 * Abs(entry) == risk * 100.0
  {
    var q := risk / entry;
    assert q * entry == risk;
    if entry > 0.0 {
      assert q >= 0.0;
      assert Abs(q) * Abs(entry) == q * entry;
    } else {
      assert q <= 0.0;
      assert Abs(q) * Abs(entry) == (-q) * (-entry);
    }
  }

  /** With a positive risk and increasing multiples the three targets are
      strictly ordered away from the entry. */
  lemma TargetsOrdered(side: Side, entry: real, risk: real, rr1: real, rr2: real, rr3: real)
    requires 0.0 < rr1 < rr2 < rr3
    requires risk > 0.0
    ensures side == Long ==>
      entry < TargetOf(side, entry, rr1, risk) < TargetOf(side, entry, rr2, risk) < TargetOf(side, entry, rr3, risk)
    ensures side == Short ==>
      entry > TargetOf(side, entry, rr1, risk) > TargetOf(side, entry, rr2, risk) > TargetOf(side, entry, rr3, risk)
  {
    assert rr1 * risk > 0.0;
    assert rr2 * risk - rr1 * risk == (rr2 - rr1) * risk;
    assert rr3 * risk - rr2 * risk == (rr3 - rr2) * risk;
  }

  /** The thresholds `analyze_symbol_range` reads from its settings object,
      plus `state.min_tier` for the tier gate. */
  datatype DetectorConfig = DetectorConfig(
    minRangePct: real,
    sweepPenetrationMin: real,
    minRrTp2: real,
    minTier: Option<string>)

  /** `min_range_pct` in core/range_settings.py. */
  const DefaultMinRangePct: real := 0.35

  /** The risk multiples `analyze_symbol_range` builds levels with (the
      defaults of `_build_levels`, not those of `RangeSettings`). */
  const AnalyzeRr1: real := 1.2
  const AnalyzeRr2: real := 2.0
  const AnalyzeRr3: real := 3.0

  /** The meta `analyze_symbol_range` scores. */
  function AnalyzeMeta(rangeLow: real, rangeHigh: real, slPct: real): (m: Meta)
    ensures Flag(m.hasRange) && Flag(m.rrOk) && Flag(m.fakeoutValid)
    ensures !Flag(m.cleanSwing) && !Flag(m.breakoutClear) && !Flag(m.fvgOk) && !Flag(m.htfAlignment)
    ensures SlPctOf(m) == slPct
  {
    var mid := (rangeHigh + rangeLow) / 2.0;
    var rangePct := if mid > 0.0 then (rangeHigh - rangeLow) / mid * 100.0 else 0.0;
    Meta(Some(true), None, None, None, Some(true), Some(slPct), None, Some(true), Some(rangePct))
  }

  /** That meta earns at most `has_range` + `rr_ok` + the stop band, so its
      tier is always NONE. */
  lemma AnalyzeMetaScore(rangeLow: real, rangeHigh: real, slPct: real)
    ensures 35 <= ScoreRangeSignal(AnalyzeMeta(rangeLow, rangeHigh, slPct)) <= 45
    ensures ScoreRangeSignal(AnalyzeMeta(rangeLow, rangeHigh, slPct)) == 45 <==> HealthySl(slPct)
    ensures TierFromScore(ScoreRangeSignal(AnalyzeMeta(rangeLow, rangeHigh, slPct))) == NoTier
  {
  }

  /** The result dict of `analyze_symbol_range` without its message text. */
  datatype Signal = Signal(
    symbol: string, side: Side,
    entry: real, sl: real, tp1: real, tp2: real, tp3: real,
    slPct: real, levMin: real, levMax: real,
    tier: Tier, score: int,
    rangeLow: real, rangeHigh: real)

  /** The stop is away from the entry and the target lies at least `minRr`
      entry-to-stop distances from the entry. */
  predicate MeetsRr(entry: real, sl: real, tp: real, minRr: real)
  {
    entry != sl && Abs(tp - entry) / Abs(entry - sl) >= minRr
  }

  /** The part of `analyze_symbol_range` after a pattern was found: the
      levels of `sweep` and `confirm`, the risk and RR guards, the score and
      the tier gate. */
  function SignalOf(symbol: string, p: Pattern, sweep: Candle, confirm: Candle, cfg: DetectorConfig): (o: Option<Signal>)
    ensures o.Some? ==>
      var s := o.value;
      var lv := BuildLevels(p.side, p.rangeLow, p.rangeHigh, sweep, confirm, AnalyzeRr1, AnalyzeRr2, AnalyzeRr3);
      && s.symbol == symbol && s.side == p.side && s.rangeLow == p.rangeLow && s.rangeHigh == p.rangeHigh
      && s.entry == lv.entry && s.sl == lv.sl
      && s.tp1 == lv.tp1 && s.tp2 == lv.tp2 && s.tp3 == lv.tp3
      && s.slPct == lv.slPct && s.levMin == lv.levMin && s.levMax == lv.levMax
      && MeetsRr(s.entry, s.sl, s.tp2, cfg.minRrTp2)
      && s.score == ScoreRangeSignal(AnalyzeMeta(p.rangeLow, p.rangeHigh, lv.slPct))
      && s.tier == TierFromScore(s.score)
      && s.score <= 45
      && s.tier == NoTier
      && cfg.minTier == Some("NONE")
  {
    var lv := BuildLevels(p.side, p.rangeLow, p.rangeHigh, sweep, confirm, AnalyzeRr1, AnalyzeRr2, AnalyzeRr3);
    var risk := Abs(lv.entry - lv.sl);
    if risk <= 0.0 then None
    else
      var rrTp2 := Abs(lv.tp2 - lv.entry) / risk;
      if rrTp2 < cfg.minRrTp2 then None
      else
        var q := EvaluateSignalQuality(AnalyzeMeta(p.rangeLow, p.rangeHigh, lv.slPct), cfg.minTier);
        AnalyzeMetaScore(p.rangeLow, p.rangeHigh, lv.slPct);
        if !q.send then None
        else
          MinTierNone(cfg.minTier);
          Some(Signal(symbol, p.side, lv.entry, lv.sl, lv.tp1, lv.tp2, lv.tp3,
                      lv.slPct, lv.levMin, lv.levMax, q.tier, q.score, p.rangeLow, p.rangeHigh))
  }

  /** The numeric path of `analyze_symbol_range`. */
  function AnalyzeSymbolRange(symbol: string, cs: seq<Candle>, cfg: DetectorConfig): (r: Checked<Option<Signal>>)
    ensures |cs| < MinBars ==> r == Ok(None)
    ensures r.Raised? <==> DetectFakeout(cs, cfg.minRangePct, cfg.sweepPenetrationMin).Raised?
    ensures DetectFakeout(cs, cfg.minRangePct, cfg.sweepPenetrationMin) == Ok(None) ==> r == Ok(None)
    ensures r.Ok? && r.value.Some? ==>
      var s := r.value.value;
      && DetectFakeout(cs, cfg.minRangePct, cfg.sweepPenetrationMin)
           == Ok(Some(Pattern(s.side, s.rangeLow, s.rangeHigh, |cs| - 2, |cs| - 1)))
      && s.symbol == symbol
      && MeetsRr(s.entry, s.sl, s.tp2, cfg.minRrTp2)
      && Band(s.levMin, s.levMax) == RecommendLeverageRange(s.slPct)
      && s.score <= 45
      && s.tier == NoTier
      && cfg.minTier == Some("NONE")
    ensures r.Ok? && r.value.Some? ==> |cs| >= MinBars
    ensures r.Ok? && r.value.Some? ==>
      var s := r.value.value;
      var lv := BuildLevels(s.side, s.rangeLow, s.rangeHigh, cs[|cs| - 2], cs[|cs| - 1],
                            AnalyzeRr1, AnalyzeRr2, AnalyzeRr3);
      && s.entry == lv.entry && s.sl == lv.sl
      && s.tp1 == lv.tp1 && s.tp2 == lv.tp2 && s.tp3 == lv.tp3
      && s.slPct == lv.slPct && s.levMin == lv.levMin && s.levMax == lv.levMax
      && s.score == ScoreRangeSignal(AnalyzeMeta(s.rangeLow, s.rangeHigh, lv.slPct))
      && s.tier == TierFromScore(s.score)
  {
    if |cs| < MinBars then Ok(None)
    else
      match DetectFakeout(cs, cfg.minRangePct, cfg.sweepPenetrationMin)
      case Raised(f) => Raised(f)
      case Ok(None) => Ok(None)
      case Ok(Some(p)) =>
        var sweep := cs[p.sweepIdx];
        var confirm := cs[p.confirmIdx];
        assert sweep == cs[|cs| - 2] && confirm == cs[|cs| - 1];
        Ok(SignalOf(symbol, p, sweep, confirm, cfg))
  }

  /** With minimum tier "NONE" and an RR threshold of at most 2, a pattern
      whose stop lies on the losing side of its entry becomes a signal: the
      RR of its TP2 is exactly 2. */
  lemma SignalOfEmits(symbol: string, p: Pattern, sweep: Candle, confirm: Candle, cfg: DetectorConfig)
    requires cfg.minTier == Some("NONE")
    requires cfg.minRrTp2 <= AnalyzeRr2
    requires var lv := BuildLevels(p.side, p.rangeLow, p.rangeHigh, sweep, confirm, AnalyzeRr1, AnalyzeRr2, AnalyzeRr3);
      RawRisk(p.side, lv.entry, lv.sl) > 0.0
    ensures SignalOf(symbol, p, sweep, confirm, cfg).Some?
  {
    var lv := BuildLevels(p.side, p.rangeLow, p.rangeHigh, sweep, confirm, AnalyzeRr1, AnalyzeRr2, AnalyzeRr3);
    assert Abs(lv.entry - lv.sl) > 0.0;
    AnalyzeRrTp2WithoutFallback(p.side, p.rangeLow, p.rangeHigh, sweep, confirm);
    var q := EvaluateSignalQuality(AnalyzeMeta(p.rangeLow, p.rangeHigh, lv.slPct), cfg.minTier);
    assert q.send;
  }

  /** With minimum tier "NONE" and an RR threshold of at most 2, every
      pattern the detector reports becomes a signal: its risk is positive,
      so the source's `risk <= 0` return is never taken. */
  lemma AnalyzeEmitsEveryPattern(symbol: string, cs: seq<Candle>, cfg: DetectorConfig)
    requires cfg.minTier == Some("NONE")
    requires cfg.minRrTp2 <= AnalyzeRr2
    requires DetectFakeout(cs, cfg.minRangePct, cfg.sweepPenetrationMin).Ok?
    requires DetectFakeout(cs, cfg.minRangePct, cfg.sweepPenetrationMin).value.Some?
    ensures AnalyzeSymbolRange(symbol, cs, cfg).Ok? && AnalyzeSymbolRange(symbol, cs, cfg).value.Some?
  {
    var p := DetectFakeout(cs, cfg.minRangePct, cfg.sweepPenetrationMin).value.value;
    assert p.sweepIdx == |cs| - 2 && p.confirmIdx == |cs| - 1;
    SetupHasPositiveRisk(p.side, Range(p.rangeLow, p.rangeHigh), cs[|cs| - 2], cs[|cs| - 1],
                         cfg.sweepPenetrationMin, AnalyzeRr1, AnalyzeRr2, AnalyzeRr3);
    SignalOfEmits(symbol, p, cs[|cs| - 2], cs[|cs| - 1], cfg);
  }

  /** Lines 264-268 of `analyze_symbol_range` as the source runs them: the
      RR guard reads `range_settings.min_rr_tp2`, which the settings record
      in core/range_settings.py does not define, so every pattern whose stop
      differs from its entry raises there. */
  function RrGuardAsWritten(p: Pattern, sweep: Candle, confirm: Candle): (r: Checked<Option<Signal>>)
    ensures r.Ok? ==> r.value == None
    ensures var lv := BuildLevels(p.side, p.rangeLow, p.rangeHigh, sweep, confirm, AnalyzeRr1, AnalyzeRr2, AnalyzeRr3);
      r.Raised? <==> lv.entry != lv.sl
  {
    var lv := BuildLevels(p.side, p.rangeLow, p.rangeHigh, sweep, confirm, AnalyzeRr1, AnalyzeRr2, AnalyzeRr3);
    var risk := Abs(lv.entry - lv.sl);
    if risk <= 0.0 then Ok(None)
    else Raised(AttributeError("min_rr_tp2"))
  }

  /** Every pattern the detector reports reaches the RR guard with a
      positive risk, so the guard as written raises on all of them. */
  lemma RrGuardAsWrittenRaises(cs: seq<Candle>, minRangePct: real, tol: real)
    requires DetectFakeout(cs, minRangePct, tol).Ok? && DetectFakeout(cs, minRangePct, tol).value.Some?
    ensures var p := DetectFakeout(cs, minRangePct, tol).value.value;
      RrGuardAsWritten(p, cs[|cs| - 2], cs[|cs| - 1]) == Raised(AttributeError("min_rr_tp2"))
  {
    var p := DetectFakeout(cs, minRangePct, tol).value.value;
    SetupHasPositiveRisk(p.side, Range(p.rangeLow, p.rangeHigh), cs[|cs| - 2], cs[|cs| - 1], tol,
                         AnalyzeRr1, AnalyzeRr2, AnalyzeRr3);
  }

  /** Lines 283-299 of `analyze_symbol_range` as the source runs them: once
      a signal passes the tier gate, building its message reads
      `range_settings.max_entry_age_candles`, which the settings record does
      not define either, so every would-be signal raises instead of being
      returned. */
  function MessageAsWritten(symbol: string, p: Pattern, sweep: Candle, confirm: Candle, cfg: DetectorConfig)
    : (r: Checked<Option<Signal>>)
    ensures r.Ok? ==> r.value == None
    ensures r.Raised? <==> SignalOf(symbol, p, sweep, confirm, cfg).Some?
  {
    match SignalOf(symbol, p, sweep, confirm, cfg)
    case None => Ok(None)
    case Some(_) => Raised(AttributeError("max_entry_age_candles"))
  }

  /** With minimum tier "NONE" and an RR threshold of at most 2, the message
      step as written raises on every pattern the detector reports, where
      the corrected analyser returns a signal. */
  lemma MessageAsWrittenRaises(symbol: string, cs: seq<Candle>, cfg: DetectorConfig)
    requires cfg.minTier == Some("NONE")
    requires cfg.minRrTp2 <= AnalyzeRr2
    requires DetectFakeout(cs, cfg.minRangePct, cfg.sweepPenetrationMin).Ok?
    requires DetectFakeout(cs, cfg.minRangePct, cfg.sweepPenetrationMin).value.Some?
    ensures var p := DetectFakeout(cs, cfg.minRangePct, cfg.sweepPenetrationMin).value.value;
      MessageAsWritten(symbol, p, cs[|cs| - 2], cs[|cs| - 1], cfg) == Raised(AttributeError("max_entry_age_candles"))
  {
    var p := DetectFakeout(cs, cfg.minRangePct, cfg.sweepPenetrationMin).value.value;
    SetupHasPositiveRisk(p.side, Range(p.rangeLow, p.rangeHigh), cs[|cs| - 2], cs[|cs| - 1],
                         cfg.sweepPenetrationMin, AnalyzeRr1, AnalyzeRr2, AnalyzeRr3);
    SignalOfEmits(symbol, p, cs[|cs| - 2], cs[|cs| - 1], cfg);
  }

  /** Only the minimum tier "NONE" ranks low enough to let a NONE tier through. */
  lemma MinTierNone(minTier: Option<string>)
    requires Rank("NONE", 0) >= Rank(EffectiveMinTier(minTier), 2)
    ensures minTier == Some("NONE")
  {
  }

  /** With the default minimum tier the analyser never returns a signal. */
  lemma AnalyzeSilentAtDefaultMinTier(symbol: string, cs: seq<Candle>, cfg: DetectorConfig)
    requires cfg.minTier == None || cfg.minTier == Some("") || cfg.minTier == Some("A")
    ensures !(AnalyzeSymbolRange(symbol, cs, cfg).Ok? && AnalyzeSymbolRange(symbol, cs, cfg).value.Some?)
  {
  }

  /** When the level builder took no fallback, the RR guard of the analyser
      compares exactly `rr2` = 2.0 with `min_rr_tp2`. */
  lemma AnalyzeRrTp2WithoutFallback(side: Side, rangeLow: real, rangeHigh: real, sweep: Candle, confirm: Candle)
    requires var lv := BuildLevels(side, rangeLow, rangeHigh, sweep, confirm, AnalyzeRr1, AnalyzeRr2, AnalyzeRr3);
      RawRisk(side, lv.entry, lv.sl) > 0.0
    ensures var lv := BuildLevels(side, rangeLow, rangeHigh, sweep, confirm, AnalyzeRr1, AnalyzeRr2, AnalyzeRr3);
      Abs(lv.tp2 - lv.entry) / Abs(lv.entry - lv.sl) == AnalyzeRr2
  {
    var lv := BuildLevels(side, rangeLow, rangeHigh, sweep, confirm, AnalyzeRr1, AnalyzeRr2, AnalyzeRr3);
    TargetRrWithoutFallback(side, lv.entry, lv.sl, AnalyzeRr2);
  }

  /** The RR of a target `rr` risks away, measured against the
      entry-to-stop distance, is `rr` when no fallback was taken. */
  lemma TargetRrWithoutFallback(side: Side, entry: real, sl: real, rr: real)
    requires rr >= 0.0
    requires RawRisk(side, entry, sl) > 0.0
    ensures Abs(TargetOf(side, entry, rr, GuardedRisk(side, entry, sl)) - entry) / Abs(entry - sl) == rr
  {
    NoFallbackDistance(side, entry, sl, rr);
    QuotientOfMultiple(Abs(TargetOf(side, entry, rr, GuardedRisk(side, entry, sl)) - entry), Abs(entry - sl), rr);
  }

  lemma QuotientOfMultiple(a: real, b: real, c: real)
    requires b != 0.0
    requires a == c * b
    ensures a / b == c
  {
  }
}
