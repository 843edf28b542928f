/** Worked examples: a range [100, 110] formed by twelve identical bars,
    then a sweep bar and a confirm bar, run through the detector, the level
    builder, the analyser, the scorer and the cooldown gate. */
module Scenarios {
  import opened Outcomes
  import opened Candles
  import opened RangeTiers
  import opened RangeDetector
  import opened BinanceStream

  /** One bar of the range: low 100, high 110. */
  const RangeBar: Candle := Candle(0, 105.0, 110.0, 100.0, 105.0, 1.0)

  /** Twelve range bars followed by the sweep and the confirm bar. */
  function Setup(sweep: Candle, confirm: Candle): (cs: seq<Candle>)
    ensures |cs| == MinBars
    ensures forall i | 0 <= i < RangeBars :: cs[i] == RangeBar
    ensures cs[12] == sweep && cs[13] == confirm
  {
    seq(RangeBars, _ => RangeBar) + [sweep, confirm]
  }

  /** A sweep bar with the given low and close. */
  function Sweep(low: real, close: real): Candle
  {
    Candle(12, 100.5, 102.0, low, close, 1.0)
  }

  /** The confirm bar, closing back inside the range at 104. */
  const Confirm: Candle := Candle(13, 101.0, 105.0, 100.5, 104.0, 1.0)

  /** Whatever the last two bars are, the range is [100, 110] and it passes
      the default width filter. */
  lemma SetupRange(sweep: Candle, confirm: Candle)
    ensures RangeGate(Setup(sweep, confirm), DefaultMinRangePct) == Some(Range(100.0, 110.0))
  {
    SetupWindowRange(sweep, confirm);
    GateOfRange(Setup(sweep, confirm));
  }

  /** A [100, 110] range passes the default width filter. */
  lemma GateOfRange(cs: seq<Candle>)
    requires Compute1hRange(cs) == Some(Range(100.0, 110.0))
    ensures RangeGate(cs, DefaultMinRangePct) == Some(Range(100.0, 110.0))
  {
    assert WideEnough(Range(100.0, 110.0), DefaultMinRangePct);
  }

  lemma {:induction false} SetupWindowRange(sweep: Candle, confirm: Candle)
    ensures Compute1hRange(Setup(sweep, confirm)) == Some(Range(100.0, 110.0))
  {
    var cs := Setup(sweep, confirm);
    assert InWindow(cs, 0) && cs[0] == RangeBar;
    var r := Compute1hRange(cs);
    assert r.Some?;
    var i :| InWindow(cs, i) && cs[i].low == r.value.low;
    var j :| InWindow(cs, j) && cs[j].high == r.value.high;
    assert cs[i] == RangeBar && cs[j] == RangeBar;
  }

  /** A sweep to 98 that closes at 101, back inside the range, is not a long
      setup: the code requires the sweep bar to close at or below the range
      low. */
  lemma SweepClosingInsideIsRejected()
    ensures DetectFakeout(Setup(Sweep(98.0, 101.0), Confirm), DefaultMinRangePct, 0.05) == Ok(None)
  {
    SetupRange(Sweep(98.0, 101.0), Confirm);
  }

  /** A sweep to 98 that closes at 99.5, below the range low, confirmed by a
      close at 104, is a long fakeout of the range [100, 110]. */
  lemma SweepClosingBelowIsLong()
    ensures DetectFakeout(Setup(Sweep(98.0, 99.5), Confirm), DefaultMinRangePct, 0.05)
      == Ok(Some(Pattern(Long, 100.0, 110.0, 12, 13)))
  {
    SetupRange(Sweep(98.0, 99.5), Confirm);
  }

  /** A sweep to 99.96 pierces the low by 0.04%, less than a minimum of
      0.05%, so there is no candidate. */
  lemma ShallowSweepIsIgnored()
    ensures DetectFakeout(Setup(Sweep(99.96, 99.5), Confirm), DefaultMinRangePct, 0.05) == Ok(None)
  {
    SetupRange(Sweep(99.96, 99.5), Confirm);
  }

  /** The detector as written fails on the valid long setup, because it reads
      a penetration minimum the settings record does not have. */
  lemma AsWrittenDetectorRaises()
    ensures DetectFakeoutAsWritten(Setup(Sweep(98.0, 99.5), Confirm), DefaultMinRangePct)
      == Raised(AttributeError("sweep_penetration_min"))
  {
    SetupRange(Sweep(98.0, 99.5), Confirm);
  }

  /** The levels of that long: entry at the range low, stop 0.15% under the
      sweep low, targets 1.2 / 2 / 3 risks up, and the widest-stop leverage
      band. */
  lemma LongLevels()
    ensures BuildLevels(Long, 100.0, 110.0, Sweep(98.0, 99.5), Confirm, AnalyzeRr1, AnalyzeRr2, AnalyzeRr3)
      == Levels(100.0, 97.853, 102.5764, 104.294, 106.441, 2.147, 3.0, 5.0, 2.147)
  {
    assert StopPct(2.147, 100.0) == 2.147;
  }

  /** The configuration of the analyser in the examples below. */
  function ConfigWithMinTier(minTier: Option<string>): DetectorConfig
  {
    DetectorConfig(DefaultMinRangePct, 0.05, 1.5, minTier)
  }

  /** The full analysis of the long: with minimum tier NONE it is reported
      with score 35 and tier NONE; with the default minimum tier it is not. */
  lemma LongAnalysis()
    ensures AnalyzeSymbolRange("BTCUSDT", Setup(Sweep(98.0, 99.5), Confirm), ConfigWithMinTier(Some("NONE")))
      == Ok(Some(Signal("BTCUSDT", Long, 100.0, 97.853, 102.5764, 104.294, 106.441, 2.147, 3.0, 5.0,
                        NoTier, 35, 100.0, 110.0)))
    ensures AnalyzeSymbolRange("BTCUSDT", Setup(Sweep(98.0, 99.5), Confirm), ConfigWithMinTier(None)) == Ok(None)
  {
    var cs := Setup(Sweep(98.0, 99.5), Confirm);
    SweepClosingBelowIsLong();
    LongLevels();
    assert cs[12] == Sweep(98.0, 99.5) && cs[13] == Confirm;
    assert Abs(104.294 - 100.0) / Abs(100.0 - 97.853) == 2.0;
  }

  /** A meta with has_range, rr_ok, htf_alignment and a 0.4% stop scores
      25 + 10 + 10 + 20 = 65: tier NONE, not sent at minimum tier A. Flags
      such as a valid sweep or displacement are not scored at all. */
  lemma ScorerExample()
    ensures var m := Meta(Some(true), None, None, None, Some(true), Some(0.4), Some(true), Some(true), None);
      EvaluateSignalQuality(m, Some("A")) == Quality(65, NoTier, false)
  {
  }

  /** A state with a 600-second cooldown whose last signal for BTCUSDT was
      at time `t`. */
  function CooldownState(t: real): BotState
  {
    BotState(["BTCUSDT"], 0.0, false, false, true, true, 600, map["BTCUSDT" := t])
  }

  /** With a 600-second cooldown and a signal at `t`, a closed bar 300
      seconds later is skipped, and one 601 seconds later reaches the
      analyser. */
  lemma CooldownExample(t: real, candles: seq<Candle>, cfg: DetectorConfig)
    requires t != 0.0
    requires |candles| >= MinBufferedCandles
    ensures HandleMessage(CooldownState(t), Decoded(Some(Kline("BTCUSDT", true))), t + 300.0, candles, cfg).outcome
      == CoolingDownSkip
    ensures Analysed(HandleMessage(CooldownState(t), Decoded(Some(Kline("BTCUSDT", true))), t + 601.0, candles, cfg).outcome)
  {
  }
}
