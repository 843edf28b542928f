/** range/htf_context.py, pure part: row parsing, the coarse 1h trend, the
    discount/premium position inside a recent range, and the rules that
    combine them into the context flags. The two kline fetches are inputs. */
module HtfContext {
  import opened Outcomes
  import opened Candles

  /** One kline row after `float()` was tried on its high, low and close
      fields: `None` where the conversion (or the index) failed. */
  datatype Row = Row(high: Option<real>, low: Option<real>, close: Option<real>)

  /** The `{"high": ..., "low": ..., "close": ...}` dict of parallel lists. */
  datatype Hlc = Hlc(highs: seq<real>, lows: seq<real>, closes: seq<real>)

  /** The three lists describe the same bars. */
  predicate WellFormed(h: Hlc)
  {
    |h.highs| == |h.lows| == |h.closes|
  }

  /** All three fields of the row converted. */
  predicate Parses(row: Row)
  {
    row.high.Some? && row.low.Some? && row.close.Some?
  }

  /** Field-wise concatenation of two parses. */
  function Join(a: Hlc, b: Hlc): Hlc
  {
    Hlc(a.highs + b.highs, a.lows + b.lows, a.closes + b.closes)
  }

  /** `_parse_ohlc`: keep a row only when high, low and close all convert. */
  function ParseOhlc(rows: seq<Row>): (h: Hlc)
    ensures WellFormed(h)
    ensures |h.highs| <= |rows|
    ensures (forall i | 0 <= i < |rows| :: Parses(rows[i])) ==>
      && |h.highs| == |rows|
      && forall i | 0 <= i < |rows| ::
           h.highs[i] == rows[i].high.value && h.lows[i] == rows[i].low.value && h.closes[i] == rows[i].close.value
    ensures (forall i | 0 <= i < |rows| :: !Parses(rows[i])) ==> |h.highs| == 0
  {
    if |rows| == 0 then Hlc([], [], [])
    else
      var rest := ParseOhlc(rows[..|rows| - 1]);
      var row := rows[|rows| - 1];
      assert forall i | 0 <= i < |rows| - 1 :: rows[..|rows| - 1][i] == rows[i];
      if Parses(row) then Join(rest, Hlc([row.high.value], [row.low.value], [row.close.value]))
      else rest
  }

  /** Parsing preserves row order: the parse of a concatenation is the
      concatenation of the parses. */
  lemma {:induction false} ParseOhlcAppend(a: seq<Row>, b: seq<Row>)
    ensures ParseOhlc(a + b) == Join(ParseOhlc(a), ParseOhlc(b))
    decreases |b|
  {
    if |b| == 0 {
      assert a + b == a;
    } else {
      var b' := b[..|b| - 1];
      assert (a + b)[..|a + b| - 1] == a + b';
      assert (a + b)[|a + b| - 1] == b[|b| - 1];
      ParseOhlcAppend(a, b');
      var pa := ParseOhlc(a);
      var pb' := ParseOhlc(b');
      if Parses(b[|b| - 1]) {
        var one := Hlc([b[|b| - 1].high.value], [b[|b| - 1].low.value], [b[|b| - 1].close.value]);
        assert ParseOhlc(b) == Join(pb', one);
        assert pa.highs + pb'.highs + one.highs == pa.highs + (pb'.highs + one.highs);
        assert pa.lows + pb'.lows + one.lows == pa.lows + (pb'.lows + one.lows);
        assert pa.closes + pb'.closes + one.closes == pa.closes + (pb'.closes + one.closes);
      } else {
        assert ParseOhlc(b) == pb';
      }
    }
  }

  /** A row that does not convert contributes nothing; one that does
      contributes exactly its three values. */
  lemma ParseOhlcSingle(row: Row)
    ensures !Parses(row) ==> ParseOhlc([row]) == Hlc([], [], [])
    ensures Parses(row) ==> ParseOhlc([row]) == Hlc([row.high.value], [row.low.value], [row.close.value])
  {
    assert [row][..0] == [];
  }

  /** `len(s[::step])` for a list of `n` elements. */
  function StrideCount(n: nat, step: nat): nat
    requires step > 0
    decreases n
  {
    if n == 0 then 0 else if n <= step then 1 else 1 + StrideCount(n - step, step)
  }

  /** The index of the last element `s[::step]` takes from `n > 0` elements:
      the largest multiple of `step` below `n`. */
  function LastSample(n: nat, step: nat): (j: nat)
    requires n > 0 && step > 0
    ensures j < n
    ensures n - step <= j
    ensures StrideCount(n, step) >= 1 && j == SampleIndex(StrideCount(n, step) - 1, step)
    decreases n
  {
    if n <= step then 0 else step + LastSample(n - step, step)
  }

  /** Python's `s[::step]`: every `step`-th element starting at index 0. */
  function Stride(s: seq<real>, step: nat): (r: seq<real>)
    requires step > 0
    ensures |r| == StrideCount(|s|, step)
    ensures |s| > 0 ==> r[0] == s[0]
    ensures |s| > 0 ==> r[|r| - 1] == s[LastSample(|s|, step)]
    decreases |s|
  {
    if |s| == 0 then []
    else if |s| <= step then [s[0]]
    else [s[0]] + Stride(s[step..], step)
  }

  /** `i * step`, written as repeated addition so that the sampling proofs
      stay linear. */
  function SampleIndex(i: nat, step: nat): (k: nat)
    ensures k == i * step
  {
    if i == 0 then 0 else step + SampleIndex(i - 1, step)
  }

  /** Every sample of `s[::step]`: element `i` is `s[i * step]`. */
  lemma {:induction false} StrideElement(s: seq<real>, step: nat, i: nat)
    requires step > 0
    requires i < |Stride(s, step)|
    ensures SampleIndex(i, step) < |s|
    ensures Stride(s, step)[i] == s[SampleIndex(i, step)]
    decreases i
  {
    if i > 0 {
      var rest := Stride(s[step..], step);
      assert Stride(s, step) == [s[0]] + rest;
      StrideElement(s[step..], step, i - 1);
      assert Stride(s, step)[i] == rest[i - 1];
    }
  }

  /** The coarse trend of `_detect_trend_1h`; `Ranging` is "RANGE". */
  datatype Trend = Up | Down | Ranging

  /** Highs and lows both shifted up: by more than 1% and 0.5%. */
  predicate UpMove(firstH: real, lastH: real, firstL: real, lastL: real)
  {
    lastH > firstH * 1.01 && lastL > firstL * 1.005
  }

  /** Highs and lows both shifted down: by more than 1% and 0.5%. */
  predicate DownMove(firstH: real, lastH: real, firstL: real, lastL: real)
  {
    lastH < firstH * 0.99 && lastL < firstL * 0.995
  }

  /** For a positive first high both moves cannot hold at once. */
  lemma MovesExclusive(firstH: real, lastH: real, firstL: real, lastL: real)
    requires firstH > 0.0
    ensures !(UpMove(firstH, lastH, firstL, lastL) && DownMove(firstH, lastH, firstL, lastL))
  {
  }

  /** `max(n // 10, 2)` */
  function TrendStep(n: nat): (step: nat)
    ensures step >= 2 && step >= n / 10
    ensures step == 2 || step == n / 10
  {
    if n / 10 >= 2 then n / 10 else 2
  }

  /** `_detect_trend_1h`. */
  function DetectTrend1h(h: Hlc): (t: Trend)
    ensures |h.highs| < 20 ==> t == Ranging
  {
    var n := |h.highs|;
    if n < 20 then Ranging
    else
      var step := TrendStep(n);
      var swingHighs := Stride(h.highs, step);
      var swingLows := Stride(h.lows, step);
      if |swingHighs| < 3 || |swingLows| < 3 then Ranging
      else
        var firstH := swingHighs[0];
        var lastH := swingHighs[|swingHighs| - 1];
        var firstL := swingLows[0];
        var lastL := swingLows[|swingLows| - 1];
        if UpMove(firstH, lastH, firstL, lastL) then Up
        else if DownMove(firstH, lastH, firstL, lastL) then Down
        else Ranging
  }

  /** More than two strides of elements give at least three samples. */
  lemma {:induction false} StrideCountAtLeastThree(n: nat, step: nat)
    requires step > 0
    requires n > 2 * step
    ensures StrideCount(n, step) >= 3
  {
    assert StrideCount(n, step) == 1 + StrideCount(n - step, step);
    assert StrideCount(n - step, step) == 1 + StrideCount(n - 2 * step, step);
    assert StrideCount(n - 2 * step, step) >= 1;
  }

  /** With at least 20 bars the stride is `n // 10` and yields at least three
      samples, so the "fewer than 3 samples" guard never fires. */
  lemma TrendSampling(n: nat)
    requires n >= 20
    ensures TrendStep(n) == n / 10
    ensures StrideCount(n, TrendStep(n)) >= 3
  {
    StrideCountAtLeastThree(n, n / 10);
  }

  /** The trend as a function of the first and last sampled bar: for a
      well-formed parse with at least 20 bars it is UP exactly on an up move
      between bar 0 and bar `LastSample`, DOWN exactly on a down move that is
      not an up move, and RANGE otherwise; for a positive first high the
      "not an up move" condition is redundant. */
  lemma DetectTrendBySamples(h: Hlc)
    requires WellFormed(h)
    requires |h.highs| >= 20
    ensures var n := |h.highs|; var j := LastSample(n, TrendStep(n));
      && j < n
      && (DetectTrend1h(h) == Up <==> UpMove(h.highs[0], h.highs[j], h.lows[0], h.lows[j]))
      && (DetectTrend1h(h) == Down <==>
            !UpMove(h.highs[0], h.highs[j], h.lows[0], h.lows[j])
            && DownMove(h.highs[0], h.highs[j], h.lows[0], h.lows[j]))
      && (h.highs[0] > 0.0 ==>
            (DetectTrend1h(h) == Down <==> DownMove(h.highs[0], h.highs[j], h.lows[0], h.lows[j])))
  {
    var n := |h.highs|;
    var step := TrendStep(n);
    TrendSampling(n);
    var sh := Stride(h.highs, step);
    var sl := Stride(h.lows, step);
    var k := |sh|;
    assert |sl| == k && k >= 3;
    assert sh[0] == h.highs[0];
    assert sl[0] == h.lows[0];
    var j := LastSample(n, step);
    assert sh[k - 1] == h.highs[j];
    assert sl[k - 1] == h.lows[j];
    if h.highs[0] > 0.0 {
      MovesExclusive(h.highs[0], h.highs[j], h.lows[0], h.lows[j]);
    }
  }

  /** `position` of `_discount_premium`. */
  datatype Position = Discount | Premium | Mid

  /** The thresholds of `_discount_premium`: the three cases are exclusive
      and cover every relative position. */
  function ClassifyPosition(pos: real): (p: Position)
    ensures p == Discount <==> pos <= 0.35
    ensures p == Premium <==> pos >= 0.65
    ensures p == Mid <==> 0.35 < pos < 0.65
  {
    if pos <= 0.35 then Discount
    else if pos >= 0.65 then Premium
    else Mid
  }

  /** The dict `_discount_premium` returns. */
  datatype PositionInfo = PositionInfo(position: Position, rangeHigh: Option<real>, rangeLow: Option<real>, price: Option<real>)

  /** `max(0, n - window)`: the first bar of the window. */
  function SegmentStart(n: nat, window: nat): (start: nat)
    ensures start <= n
    ensures n - start == if window < n then window else n
  {
    if n > window then n - window else 0
  }

  /** `max(s[start:])`: the largest value from `start` on. */
  function SuffixMax(s: seq<real>, start: nat): (m: real)
    requires start < |s|
    ensures exists i | start <= i < |s| :: s[i] == m
    ensures forall i | start <= i < |s| :: s[i] <= m
  {
    var seg := s[start..];
    assert forall i | start <= i < |s| :: s[i] == seg[i - start];
    MaxOf(seg)
  }

  /** `min(s[start:])`: the smallest value from `start` on. */
  function SuffixMin(s: seq<real>, start: nat): (m: real)
    requires start < |s|
    ensures exists i | start <= i < |s| :: s[i] == m
    ensures forall i | start <= i < |s| :: m <= s[i]
  {
    var seg := s[start..];
    assert forall i | start <= i < |s| :: s[i] == seg[i - start];
    MinOf(seg)
  }

  /** `_discount_premium` over the last `window` bars. The source's `window`
      is always its default 60; a zero window would make `max` of an empty
      list raise, so it is excluded. */
  function DiscountPremium(h: Hlc, window: nat): (info: PositionInfo)
    requires WellFormed(h)
    requires window > 0
    ensures |h.highs| < 5 ==> info.position == Mid && info.rangeHigh == None && info.rangeLow == None
    ensures |h.highs| < 5 ==> info.price == if |h.closes| > 0 then Some(h.closes[|h.closes| - 1]) else None
    ensures |h.highs| >= 5 ==>
      var n := |h.highs|;
      var start := SegmentStart(n, window);
      && info.price == Some(h.closes[n - 1])
      && info.rangeHigh.Some? && info.rangeLow.Some?
      && (exists i | start <= i < n :: h.highs[i] == info.rangeHigh.value)
      && (forall i | start <= i < n :: h.highs[i] <= info.rangeHigh.value)
      && (exists i | start <= i < n :: h.lows[i] == info.rangeLow.value)
      && (forall i | start <= i < n :: info.rangeLow.value <= h.lows[i])
    ensures info.position != Mid ==>
      info.rangeLow.Some? && info.rangeHigh.Some? && info.rangeLow.value < info.rangeHigh.value
    ensures info.rangeHigh.Some? && info.rangeLow.Some? && info.rangeHigh.value <= info.rangeLow.value ==>
      info.position == Mid
    ensures info.rangeHigh.Some? && info.rangeLow.Some? && info.rangeLow.value < info.rangeHigh.value ==>
      info.price.Some? && info.position == ClassifyPosition(
        (info.price.value - info.rangeLow.value) / (info.rangeHigh.value - info.rangeLow.value))
  {
    var n := |h.highs|;
    if n < 5 then
      PositionInfo(Mid, None, None, if |h.closes| > 0 then Some(h.closes[|h.closes| - 1]) else None)
    else
      var start := SegmentStart(n, window);
      var price := h.closes[n - 1];
      var rangeHigh := SuffixMax(h.highs, start);
      var rangeLow := SuffixMin(h.lows, start);
      if rangeHigh <= rangeLow then PositionInfo(Mid, Some(rangeHigh), Some(rangeLow), Some(price))
      else
        var pos := (price - rangeLow) / (rangeHigh - rangeLow);
        PositionInfo(ClassifyPosition(pos), Some(rangeHigh), Some(rangeLow), Some(price))
  }

  /** The position read off the price itself, without the division: in a
      range with width, DISCOUNT means at most 35% of the way up from the low,
      PREMIUM at least 65%, MID strictly between. */
  lemma PositionByPrice(price: real, lo: real, hi: real)
    requires lo < hi
    ensures ClassifyPosition((price - lo) / (hi - lo)) == Discount <==> price <= lo + 0.35 * (hi - lo)
    ensures ClassifyPosition((price - lo) / (hi - lo)) == Premium <==> price >= lo + 0.65 * (hi - lo)
    ensures ClassifyPosition((price - lo) / (hi - lo)) == Mid <==>
      lo + 0.35 * (hi - lo) < price < lo + 0.65 * (hi - lo)
  {
    ScaleCompare(price - lo, hi - lo, 0.35);
    ScaleCompare(price - lo, hi - lo, 0.65);
  }

  /** `a / w <= c` exactly when `a <= c * w`, for a positive width `w`. */
  lemma ScaleCompare(a: real, w: real, c: real)
    requires w > 0.0
    ensures a / w <= c <==> a <= c * w
    ensures a / w >= c <==> a >= c * w
  {
    var q := a / w;
    assert a == q * w;
    if q <= c {
      assert q * w <= c * w;
    } else {
      assert q * w > c * w;
    }
    if q >= c {
      assert q * w >= c * w;
    } else {
      assert q * w < c * w;
    }
  }

  /** The dict `get_htf_context` returns. */
  datatype Context = Context(
    trend1h: Trend, pos1h: Position, pos15m: Position,
    isRanging1h: bool, midBandOk: bool, htfOkLong: bool, htfOkShort: bool)

  /** The neutral default returned when a fetch fails. */
  const Neutral: Context := Context(Ranging, Mid, Mid, true, true, true, true)

  /** `_fetch_klines` produced a truthy result: not `None` and not empty. */
  predicate Fetched(data: Option<seq<Row>>)
  {
    data.Some? && |data.value| > 0
  }

  /** The window `_discount_premium` is called with. */
  const PositionWindow: nat := 60

  /** `get_htf_context` with the 1h and 15m fetch results as inputs. */
  function GetHtfContext(data1h: Option<seq<Row>>, data15m: Option<seq<Row>>): (c: Context)
    ensures !Fetched(data1h) || !Fetched(data15m) ==> c == Neutral
    ensures Fetched(data1h) && Fetched(data15m) ==>
      && c.trend1h == DetectTrend1h(ParseOhlc(data1h.value))
      && c.pos1h == DiscountPremium(ParseOhlc(data1h.value), PositionWindow).position
      && c.pos15m == DiscountPremium(ParseOhlc(data15m.value), PositionWindow).position
    ensures c.isRanging1h <==> c.trend1h == Ranging
    ensures c.midBandOk <==> c.pos1h == Mid || c.pos15m == Mid
    ensures !c.htfOkLong <==> c.trend1h == Up && c.pos1h == Premium && c.pos15m == Premium
    ensures !c.htfOkShort <==> c.trend1h == Down && c.pos1h == Discount && c.pos15m == Discount
    ensures c.htfOkLong || c.htfOkShort
    ensures !c.htfOkLong ==> !c.isRanging1h && !c.midBandOk
    ensures !c.htfOkShort ==> !c.isRanging1h && !c.midBandOk
  {
    if !Fetched(data1h) || !Fetched(data15m) then Neutral
    else
      var hlc1h := ParseOhlc(data1h.value);
      var hlc15m := ParseOhlc(data15m.value);
      var trend := DetectTrend1h(hlc1h);
      var pos1h := DiscountPremium(hlc1h, PositionWindow).position;
      var pos15m := DiscountPremium(hlc15m, PositionWindow).position;
      var okLong := !(trend == Up && pos1h == Premium && pos15m == Premium);
      var okShort := !(trend == Down && pos1h == Discount && pos15m == Discount);
      Context(trend, pos1h, pos15m, trend == Ranging, pos1h == Mid || pos15m == Mid, okLong, okShort)
  }

  /** Fetches that return fewer than five usable bars each yield the same
      context as a failed fetch. */
  lemma ShortHistoryIsNeutral(data1h: seq<Row>, data15m: seq<Row>)
    requires |data1h| > 0 && |data15m| > 0
    requires |ParseOhlc(data1h).highs| < 5 && |ParseOhlc(data15m).highs| < 5
    ensures GetHtfContext(Some(data1h), Some(data15m)) == Neutral
  {
  }
}
