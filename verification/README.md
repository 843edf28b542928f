# Range fakeout signal pipeline — a Dafny model

This project models the signal pipeline of a crypto "1h range fakeout" bot.
The bot watches 5-minute candles of USDT perpetual futures and builds a
one-hour range from the twelve bars before the last two. It then looks for a
*sweep* bar that pierces one edge of that range and closes at or beyond it,
followed by a *confirm* bar that closes back on the near side of that edge and
past the sweep's close. For a long this means a close above the range low and
above the sweep close; the confirm need not stay below the range high, and
the short mirrors this. A match becomes a long (fake breakdown) or a short
(fake breakout). The bot turns the pattern into
an entry, a stop, three take-profit targets, a stop distance in percent and a
leverage band. It scores the setup with an additive rubric, maps the score to
a tier (NONE, B, A, A+), and sends the signal only when the tier reaches the
configured minimum.

Around this core the model also covers:

- the higher-timeframe context classifiers: the strided 1h trend, the
  discount/premium position of the price in a recent range, and the veto
  rules that combine them;
- a second leverage step table kept in the settings;
- the per-message gate of the websocket loop: when the pair list is
  refreshed, when the inner loop exits, which messages are dropped, when a
  closed bar is analysed, and the per-symbol cooldown map.

Prices and ratios are `real`. A Python exception on a path the model covers
is a `Checked.Raised` value rather than a crash.

Modules, in dependency order:

- `Outcomes` (outcomes.dfy): `Option`, `Checked` and `Abs`.
- `Candles` (candles.dfy): the candle record, and minimum and maximum over a
  non-empty list.
- `LeverageBands` (leverage_bands.dfy): the stop-percent bucket function
  shared by both leverage tables, and the monotonicity of any step table.
- `RangeSettings` (range_settings.dfy): the defaults record and
  `leverage_from_sl`.
- `RangeTiers` (range_tiers.dfy): the scorer, the tiers and the minimum-tier
  gate.
- `RangeDetector` (range_detector.dfy): the range, the fakeout detector, the
  level builder, the leverage recommendation and the analyser.
- `HtfContext` (htf_context.dfy): OHLC parsing, the trend, the position and
  the combined context.
- `BinanceStream` (binance_stream.dfy): the decision logic of the scanner
  loop.
- `Scenarios` (scenarios.dfy): worked examples on a concrete [100, 110]
  range.

## Model

| member | source | states |
|---|---|---|
| Candles.MinOf | range/range_detector.py:28-31 | `min` of a non-empty list: it is an element of the list and is at most every element |
| Candles.MaxOf | range/range_detector.py:28-31 | `max` of a non-empty list: it is an element of the list and is at least every element |
| RangeDetector.Window | range/range_detector.py:21-25 | `candles[-14:-2]` holds exactly 12 bars, namely bars n-14 .. n-3 in order |
| RangeDetector.Compute1hRange | range/range_detector.py:12-36 | None below 14 bars; otherwise present iff some low in bars n-14..n-3 is below some high there; the range low is the least low and the range high the greatest high of those bars, and low < high |
| RangeDetector.WideEnough | range/range_detector.py:78-83 | a range passes the width filter exactly when its midpoint is positive and its width is at least `min_range_pct` percent of that midpoint (stated without division); with a positive threshold a passing range has low < high |
| RangeDetector.LongSetup | range/range_detector.py:103-109 | for a positive range low, a long setup holds iff the sweep low is below the range low and at or below `low * (1 - tol/100)`, the sweep closes at or below the low, and the confirm closes above both the low and the sweep close |
| RangeDetector.ShortSetup | range/range_detector.py:121-127 | for a positive range high, a short setup holds iff the sweep high is above the range high and at or above `high * (1 + tol/100)`, the sweep closes at or above the high, and the confirm closes below both the high and the sweep close |
| RangeDetector.RangeGate | range/range_detector.py:72-83 | a range survives only if it exists, its midpoint is positive and its width in percent of the midpoint reaches `min_range_pct`; a survivor has a positive high |
| RangeDetector.LongShortExclusive | range/range_detector.py:100-138 | on a range with width the long and the short sweep patterns can never both hold |
| RangeDetector.DetectFakeout | range/range_detector.py:49-138 | no pattern without a gated range; long iff the sweep pierces the low by at least `tol` percent, closes at or below it and the confirm closes above both the low and the sweep close; short iff the mirrored test holds and the long test did not raise; sweep and confirm are always bars n-2 and n-1; raises division by zero exactly when the range low is 0 and the sweep goes below it |
| RangeDetector.DetectFakeoutAsWritten | range/range_detector.py:96 | the detector as the source runs it: every candle list that passes the width filter raises a missing-attribute error, and no pattern is ever returned |
| RangeDetector.RecommendLeverageRange | range/range_detector.py:209-225 | the band per stop percent: (5,10) for ≤ 0, then (25,40), (15,25), (8,15), (5,8) up to the inclusive edges 0.25/0.50/0.80/1.20, and (3,5) above |
| RangeDetector.RecommendLeverageMonotone | range/range_detector.py:216-225 | for positive stop percents each band has min < max, both bounds never increase as the stop widens, and adjacent buckets touch |
| RangeDetector.EntryOf | range/range_detector.py:157-172 | a long enters at the range low but never above the last close; a short at the range high but never below it |
| RangeDetector.StopOf | range/range_detector.py:163-177 | the stop lies beyond the extreme actually touched (the lower of range low and sweep low for a long, the higher of the highs for a short) by a buffer that is the larger of 0.15% of that extreme and 0.05% of the entry: at least each, and equal to one of them; with positive prices a long stop is strictly below both the range low and the sweep low, and a short stop strictly above both highs |
| RangeDetector.GuardedRisk | range/range_detector.py:168-182 | a positive entry-to-stop distance is kept, a non-positive one becomes 0.3% of the entry, so the risk is positive whenever the entry is not zero |
| RangeDetector.TargetOf | range/range_detector.py:185-192 | a target lies `rr` risks from the entry, above it for a long and below it for a short |
| RangeDetector.StopPct | range/range_detector.py:194 | the stop percent is never negative, is 0 for a zero entry (no division), and otherwise times the absolute entry equals 100 times the risk |
| RangeDetector.BuildLevels | range/range_detector.py:141-206 | a long enters at or below both the range low and the confirm close (a short at or above the high and the close); with positive prices the stop is strictly beyond both the range edge and the sweep wick; the risk is the entry-to-stop distance when that is positive and is positive for any non-zero entry; the stop percent times the absolute entry is 100 times the risk; with 0 < rr1 < rr2 < rr3 and a non-zero entry a long has entry < tp1 < tp2 < tp3 and a short entry > tp1 > tp2 > tp3; the leverage band is the recommendation for the stop percent |
| RangeDetector.SetupHasPositiveRisk | range/range_detector.py:141-182 | on a long or short setup the stop lies strictly on the losing side of the entry, so the risk fallback is never taken for a detected pattern |
| RangeDetector.TargetsOrdered | range/range_detector.py:185-192 | targets at increasing multiples of a positive risk move strictly away from the entry |
| RangeDetector.NoFallbackDistance | range/range_detector.py:168-192 | with a positive raw risk, a target's distance from the entry is `rr` times the entry-to-stop distance |
| RangeDetector.AnalyzeMeta | range/range_detector.py:271-281 | the analyser's meta sets `has_range`, `rr_ok` and `fakeout_valid`, leaves every other scored flag false and carries the stop percent |
| RangeDetector.AnalyzeMetaScore | range/range_detector.py:275-283 | that meta scores between 35 and 45, exactly 45 iff the stop percent is in [0.25, 1.20], and its tier is always NONE |
| RangeDetector.SignalOf | range/range_detector.py:251-288 | a signal built from a pattern carries exactly the levels of its sweep and confirm bars, has entry ≠ stop and meets the `min_rr_tp2` guard, carries the rubric score of the analyser's meta and the tier of that score (NONE, score ≤ 45), and exists only when the minimum tier is "NONE" |
| RangeDetector.AnalyzeSymbolRange | range/range_detector.py:228-288 | None below 14 bars or without a pattern; raises exactly when the detector raises; a returned signal comes from the detected pattern at bars n-2 and n-1, its entry, stop, targets, stop percent and leverage band are those the level builder gives for those bars, it meets the `min_rr_tp2` guard, its score is the rubric score of the analyser's meta and its tier the tier of that score (NONE), and it can only appear when the minimum tier is "NONE" |
| RangeDetector.SignalOfEmits | range/range_detector.py:262-288 | with minimum tier "NONE", a threshold `min_rr_tp2` ≤ 2 and a stop on the losing side of the entry, a pattern always becomes a signal |
| RangeDetector.AnalyzeEmitsEveryPattern | range/range_detector.py:240-288 | with minimum tier "NONE" and `min_rr_tp2` ≤ 2, every pattern the detector reports is returned as a signal; the `risk <= 0` return is unreachable |
| RangeDetector.RrGuardAsWritten | range/range_detector.py:264-268 | the RR guard as the source runs it never returns a signal; it raises a missing-attribute error for `min_rr_tp2` exactly when the entry differs from the stop |
| RangeDetector.RrGuardAsWrittenRaises | range/range_detector.py:264-268 | for every pattern the detector reports, the RR guard as written raises on `min_rr_tp2` |
| RangeDetector.MessageAsWritten | range/range_detector.py:283-299 | the message step as the source runs it never returns a signal; it raises a missing-attribute error for `max_entry_age_candles` exactly when the corrected analyser would have returned one |
| RangeDetector.MessageAsWrittenRaises | range/range_detector.py:283-299 | with minimum tier "NONE" and `min_rr_tp2` ≤ 2, the message step as written raises for every pattern the detector reports |
| RangeDetector.MinTierNone | range/range_tiers.py:82-84 | only the minimum tier "NONE" ranks low enough to pass a NONE tier |
| RangeDetector.AnalyzeSilentAtDefaultMinTier | range/range_detector.py:283-285 | with the default minimum tier (unset, empty or "A") the analyser never returns a signal |
| RangeDetector.AnalyzeRrTp2WithoutFallback | range/range_detector.py:254-268 | when no risk fallback was taken, the RR to tp2 that the analyser checks is exactly 2.0 |
| RangeDetector.TargetRrWithoutFallback | range/range_detector.py:185-192 | with a positive raw risk, a target `rr` risks away is exactly `rr` entry-to-stop distances from the entry |
| RangeTiers.ScoreRangeSignal | range/range_tiers.py:9-56 | the score is the weighted flag sum with a missing key counting as false and a missing stop percent as 0, and it always lies in [0, 115], so the clamp at 150 never fires |
| RangeTiers.MaxScoreReached | range/range_tiers.py:34-50 | 115 is attained, by all flags set and a stop percent inside the healthy band |
| RangeTiers.ScoreMonotone | range/range_tiers.py:34-50 | turning flags on, or moving the stop percent into the healthy band, never lowers the score |
| RangeTiers.ScoreIgnoresUnscoredKeys | range/range_tiers.py:25-32 | keys outside the rubric (such as `fakeout_valid`, `range_pct`) do not affect the score |
| RangeTiers.Rank | range/range_tiers.py:82-84 | the four tier names rank within 0..3, and any other name gets the given default |
| RangeTiers.RankOrder | range/range_tiers.py:82 | NONE < B < A < A+, and distinct tier names have distinct ranks |
| RangeTiers.TierFromScore | range/range_tiers.py:59-74 | A+ iff score ≥ 120, A iff 100..119, B iff 80..99, NONE iff < 80 |
| RangeTiers.TierMonotone | range/range_tiers.py:59-84 | a higher score never gets a lower tier rank |
| RangeTiers.APlusUnreachable | range/range_tiers.py:53-68 | no meta ever reaches tier A+ |
| RangeTiers.EffectiveMinTier | range/range_tiers.py:83 | an unset or empty minimum tier means "A"; any other value is used as given |
| RangeTiers.ShouldSendTier | range/range_tiers.py:77-84 | the tier passes iff its rank reaches the minimum's rank: everything passes at NONE, A+ always passes, an unknown or "A" minimum passes exactly A and A+, "B" passes B, A and A+, and "A+" passes only A+ |
| RangeTiers.ShouldSendMonotone | range/range_tiers.py:82-84 | a tier ranked at least as high as one that passes also passes |
| RangeTiers.EvaluateSignalQuality | range/range_tiers.py:87-105 | the three results agree: the score is the rubric score in [0, 115], the tier is the tier of that score (never A+), and the send flag is the rank comparison against the effective minimum |
| LeverageBands.SlBucket | range/range_settings.py:58-70 | the bucket of a stop percent: 0 for ≤ 0, then 1..4 up to the inclusive edges 0.25/0.50/0.80/1.20, and 5 above |
| LeverageBands.SlBucketMonotone | range/range_settings.py:61-70 | a wider stop never falls in a lower bucket |
| LeverageBands.LookupMonotone | range/range_settings.py:61-70 | in a table whose positive bands are proper, descending and touching, for positive stop percents both bounds never increase, every band is proper, and moving up one bucket the new max equals the old min |
| RangeSettings.LeverageFromSl | range/range_settings.py:52-70 | (5,10) for ≤ 0, then (20,35), (12,20), (6,12), (4,6) up to the inclusive edges 0.25/0.50/0.80/1.20, and (2,4) above |
| RangeSettings.LeverageFromSlMonotone | range/range_settings.py:61-70 | for positive stop percents each band has min < max, both bounds never increase, and adjacent buckets touch |
| RangeSettings.DefaultsConsistent | range/range_settings.py:41-46 | the default multiples satisfy rr1 < rr2 < rr3 and `min_rr_tp2` ≤ rr2 |
| HtfContext.ParseOhlc | range/htf_context.py:31-45 | the three lists always have equal length, no longer than the input; when every row parses they are exactly the rows' fields, and when none does they are empty |
| HtfContext.ParseOhlcAppend | range/htf_context.py:35-44 | parsing is row by row: parsing two blocks of rows concatenates their parses, so kept rows stay in order |
| HtfContext.ParseOhlcSingle | range/htf_context.py:36-44 | a single row is kept with its values when all three fields parse and dropped otherwise |
| HtfContext.Stride | range/htf_context.py:61-62 | `s[::step]` has `StrideCount` elements, starts with `s[0]` and ends with the element at the last sampled index |
| HtfContext.StrideElement | range/htf_context.py:61-62 | element i of `s[::step]` is `s[i*step]` |
| HtfContext.LastSample | range/htf_context.py:61-71 | the last index `s[::step]` samples is within the list, less than one step from its end, and is exactly the last sample of the stride, `(StrideCount(n, step) - 1) * step` |
| HtfContext.TrendStep | range/htf_context.py:60 | the step is the larger of n // 10 and 2 |
| HtfContext.TrendSampling | range/htf_context.py:56-64 | for n ≥ 20 the step is n // 10 and the stride has at least 3 samples, so the guard at line 63 never fires |
| HtfContext.MovesExclusive | range/htf_context.py:73-77 | with a positive first high, the UP and DOWN conditions cannot both hold |
| HtfContext.DetectTrend1h | range/htf_context.py:48-79 | fewer than 20 bars give RANGE; otherwise the trend is decided by the first and last strided samples |
| HtfContext.DetectTrendBySamples | range/htf_context.py:60-79 | for n ≥ 20, UP iff the last sampled high beats the first by 1% and the last sampled low by 0.5%; DOWN iff not UP and the 1% / 0.5% drops hold; with a positive first high DOWN iff the drops hold |
| HtfContext.ClassifyPosition | range/htf_context.py:117-124 | DISCOUNT iff pos ≤ 0.35, PREMIUM iff pos ≥ 0.65, MID iff strictly between |
| HtfContext.SegmentStart | range/htf_context.py:102 | the window covers the last min(window, n) bars |
| HtfContext.SuffixMax | range/htf_context.py:103-106 | the range high is a high of the window and at least every high in it |
| HtfContext.SuffixMin | range/htf_context.py:103-107 | the range low is a low of the window and at most every low in it |
| HtfContext.DiscountPremium | range/htf_context.py:82-131 | below 5 bars MID with no range and the last close (if any) as price; otherwise the range is the extreme high and low of the last min(window, n) bars and the price the last close; a zero-width range gives MID, and a range with width classifies the price's relative position in it |
| HtfContext.PositionByPrice | range/htf_context.py:116-124 | for a low below the high, the classification of (price - low) / (high - low) is DISCOUNT iff the price is in the lowest 35% of the range, PREMIUM iff in the top 35%, MID otherwise |
| HtfContext.GetHtfContext | range/htf_context.py:134-204 | neutral (RANGE, MID, MID, all true) when either fetch is empty; otherwise the trend and positions of the parsed data; ranging iff RANGE; mid band iff either position is MID; long vetoed iff UP+PREMIUM+PREMIUM; short vetoed iff DOWN+DISCOUNT+DISCOUNT; never both vetoed |
| HtfContext.ShortHistoryIsNeutral | range/htf_context.py:94-194 | fetches with fewer than five usable bars each yield the same context as a failed fetch |
| BinanceStream.NeedRefreshPairs | binance/binance_stream.py:79-83 | a refresh is due with an empty pair list or a forced refresh, and otherwise exactly when more than the interval has passed since the last one |
| BinanceStream.RefreshPairs | binance/binance_stream.py:85-89 | a refresh installs the new pair list stamped with now, clears the force flag and changes nothing else |
| BinanceStream.RefreshQuietUntilInterval | binance/binance_stream.py:79-89 | after a refresh that found pairs, another refresh is due exactly when more than the interval has passed |
| BinanceStream.Outer | binance/binance_stream.py:76-109 | stops iff not running; refreshes exactly when the refresh condition holds; connects iff running with a non-empty pair list, and sleeps otherwise |
| BinanceStream.InnerGate | binance/binance_stream.py:123-136 | leaves when not running; leaves on a soft-restart request and clears it; leaves iff the refresh interval has strictly elapsed; otherwise receives; only the soft restart changes the state |
| BinanceStream.RefreshDueLeadsToRefresh | binance/binance_stream.py:79-136 | leaving the inner loop for a refresh makes the outer loop's refresh condition true, so the next pass refreshes |
| BinanceStream.ConnectNotImmediatelyStale | binance/binance_stream.py:79-131 | right after a connect, with a non-negative interval and no restart request, the inner loop receives instead of leaving |
| BinanceStream.HandleMessage | binance/binance_stream.py:138-205 | timeouts are idle; a message of the wrong JSON shape aborts with an attribute error; other malformed messages are dropped; analysis runs iff the message is well formed, the bar is closed, scanning is on, the buffer holds ≥ 40 candles and the symbol is not cooling down; an emitted signal is the analyser's result for that symbol; the cooldown map is written, with the pre-analysis time, only when a signal is emitted, and nothing else ever changes |
| BinanceStream.RecordSignal | binance/binance_stream.py:205 | recording a signal sets the symbol's time to now and leaves every other symbol's entry and the rest of the state as they were |
| BinanceStream.CoolingDown | binance/binance_stream.py:187-189 | a symbol is cooling down only with a positive cooldown and a truthy recorded time, and then exactly when less than the cooldown has passed since that time |
| BinanceStream.CooldownDisabled | binance/binance_stream.py:187 | a cooldown of zero or less never suppresses anything |
| BinanceStream.CooldownBoundary | binance/binance_stream.py:187-189 | a gap of exactly the cooldown is allowed; any shorter gap is suppressed |
| BinanceStream.CooldownNeedsTruthyTime | binance/binance_stream.py:188-189 | a symbol with no recorded time, or a recorded time of 0, is never cooling down |
| BinanceStream.AtMostOneSignalPerCooldown | binance/binance_stream.py:186-205 | once a signal for a symbol is recorded at a non-zero time, a message for that symbol less than the cooldown later is not emitted and changes nothing |
| BinanceStream.Run | binance/binance_stream.py:123-205 | a run of receives only ever changes the cooldown map and emits at most one signal per receive |
| BinanceStream.RunSpacesSignals | binance/binance_stream.py:186-205 | over any run from any cooldown map, two signals for the same symbol are at least the cooldown apart; a positive cooldown needs only receive times that are not zero, even if the clock goes backwards, and a disabled one needs a clock that does not go backwards |
| BinanceStream.RunKeepsRecorded | binance/binance_stream.py:186-205 | with a positive cooldown and non-zero times, every emitted signal's symbol has a truthy recorded time no earlier than the signal, and the signals are spaced by the cooldown |
| BinanceStream.RunKeepsOrder | binance/binance_stream.py:123-205 | with a clock that does not go backwards, signals come out in time order and none is later than the last receive |
| Scenarios.SetupWindowRange | range/range_detector.py:12-36 | twelve identical bars with low 100 and high 110 give the range [100, 110], whatever the last two bars |
| Scenarios.SetupRange | range/range_detector.py:72-83 | that range passes the default 0.35% width filter |
| Scenarios.GateOfRange | range/range_detector.py:78-83 | a [100, 110] range (midpoint 105, width 9.5%) passes the 0.35% width filter |
| Scenarios.SweepClosingInsideIsRejected | range/range_detector.py:104-109 | a sweep to 98 closing at 101 (inside the range) is not a long setup |
| Scenarios.SweepClosingBelowIsLong | range/range_detector.py:104-120 | a sweep to 98 closing at 99.5, confirmed at 104, is a long on [100, 110] with sweep and confirm at bars 12 and 13 |
| Scenarios.ShallowSweepIsIgnored | range/range_detector.py:105-106 | a 0.04% penetration with a 0.05% minimum gives no candidate |
| Scenarios.AsWrittenDetectorRaises | range/range_detector.py:96 | the detector as written raises on that valid long setup |
| Scenarios.LongLevels | range/range_detector.py:157-206 | that long enters at 100, stops at 97.853, targets 102.5764 / 104.294 / 106.441 with a 2.147% stop and band (3,5) |
| Scenarios.LongAnalysis | range/range_detector.py:228-288 | the full analysis reports it with score 35 and tier NONE at minimum tier NONE, and stays silent at the default minimum tier |
| Scenarios.ScorerExample | range/range_tiers.py:23-105 | `has_range`, `rr_ok`, `htf_alignment` and a 0.4% stop score 65, tier NONE, not sent at minimum tier A |
| Scenarios.CooldownExample | binance/binance_stream.py:186-198 | with a 600 s cooldown and a signal at t, a closed bar at t+300 is skipped and one at t+601 is analysed |

## Left out

- Network and async plumbing. This covers the REST kline fetches, the
  websocket connect, `asyncio.wait_for` and `sleep`, and the reconnect on
  exceptions. Received messages are an already-decoded `Received` value, and
  fetch results are `Option` inputs. An exception while reading a message is
  the `Aborted` outcome, and one an analysis raises is the `Crashed` outcome.
  The sleep and reconnect that follow either one (binance_stream.py:215-218)
  are not modelled.
- The candle buffer. `OHLCBufferManager` (binance/ohlc_buffer.py) is not
  part of this model. The candles handed to the analyser are a parameter,
  and its update and eviction rules are not modelled.
- The preload of history after a refresh, and `get_usdt_pairs`. The new
  pair list is a parameter of `BinanceStream.Outer`.
- The Telegram broadcast, subscriber and VIP persistence, and the debug
  logging. These are side effects with no decision logic.
- The signal message text and its number formatting, range_detector.py:290-329.
  Building that text reads `range_settings.max_entry_age_candles` (line 299).
  Like lines 96 and 268, this reads an attribute that the settings class in
  core/range_settings.py:7-22 does not define, so it would raise. The
  corrected analyser stops before the text; the read itself is modelled by
  `RangeDetector.MessageAsWritten` (see Findings).
- The thread and event-loop startup in main.py, and the environment parsing
  in config.py.
- Symbol case. `.upper()` is not modelled, because strings have no case
  folding here. Symbols are compared as given.
- `_avg_body`. It is never called by the modelled code.
- IEEE floating-point rounding. Prices are exact reals, so the concrete
  values in `Scenarios` are exact.
- The settings fields of range/range_settings.py that nothing in the core
  reads, such as lookback, width, displacement and stop buffer. They appear
  only as fields of the defaults record.
- HtfContext.DiscountPremium: requires a positive window. The source always
  passes 60, and a zero window would raise on `max` of an empty list.
- BinanceStream.HandleMessage: `candles` is the buffer after the kline was
  applied to it, and `now` is the time read before analysis
  (binance_stream.py:186), used for the cooldown test and for the record.
  The refresh test is not part of this member: `BinanceStream.InnerGate`
  takes its own `now`, because the source reads the clock for it
  separately (binance_stream.py:131).
- RangeDetector.AnalyzeSymbolRange: `min_rr_tp2`, like the penetration
  minimum, is read from a settings object that does not define it
  (range_detector.py:268). The model takes it from `DetectorConfig` rather
  than guessing a value. In the code as written that line is never reached,
  because the detector raises first; on its own it would raise for every
  pattern (`RangeDetector.RrGuardAsWritten`, see Findings).
- BinanceStream.RunSpacesSignals: with the cooldown disabled, the lower
  bound (at most zero) is proved only for a clock that does not go
  backwards. With a clock that jumps back, two signals can be a negative
  gap apart.

Two behaviours of the code are easy to misread:

- A sweep bar that closes back inside the range is not a long setup. The
  code requires the sweep close to be at or below the range low
  (`Scenarios.SweepClosingInsideIsRejected`).
- The scorer has no weight for a valid sweep or for displacement. A meta
  with those flags set cannot reach A+; no meta can
  (`RangeTiers.APlusUnreachable`, `Scenarios.ScorerExample`).

## Findings

| source | as written | input that shows it | evidently intended | confidence | as-written member | corrected member |
|---|---|---|---|---|---|---|
| range/range_detector.py:96 | reads `range_settings.sweep_penetration_min`, but the imported settings class (core/range_settings.py:7-22) defines no such attribute, so an AttributeError is raised | twelve bars on [100, 110], a sweep to 98 closing at 99.5, a confirm at 104 (`Scenarios.AsWrittenDetectorRaises`) | the minimum penetration is a configured percentage, and the pattern is classified (`Scenarios.SweepClosingBelowIsLong`) | high that it raises on every range passing the width filter; not executed | RangeDetector.DetectFakeoutAsWritten | RangeDetector.DetectFakeout |
| range/range_detector.py:268 | reads `range_settings.min_rr_tp2`, which the settings class (core/range_settings.py:7-22) does not define, so an AttributeError is raised once the detector is fixed | any pattern the detector reports, whose stop always differs from its entry (`RangeDetector.RrGuardAsWrittenRaises`) | the RR threshold is a configured value, and a pattern meeting it goes on to scoring | high that it raises on every reported pattern; not executed | RangeDetector.RrGuardAsWritten | RangeDetector.SignalOf |
| range/range_detector.py:299 | reads `range_settings.max_entry_age_candles`, which the settings class does not define, so every signal that passes the tier gate raises instead of being sent | any pattern the detector reports, with minimum tier "NONE" and `min_rr_tp2` ≤ 2 (`RangeDetector.MessageAsWrittenRaises`) | the signal is returned (`RangeDetector.AnalyzeEmitsEveryPattern`) | high that it raises for every signal that passes the gate; not executed | RangeDetector.MessageAsWritten | RangeDetector.AnalyzeSymbolRange |
