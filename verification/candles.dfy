/** The OHLC bar and the extremum helpers the detectors build ranges from. */
module Candles {

  /** One 5-minute bar as the candle buffer hands it to the detector. */
  datatype Candle = Candle(openTime: int, open: real, high: real, low: real, close: real, volume: real)

  /** Python's `min` over a non-empty list of floats. */
  function MinOf(s: seq<real>): (m: real)
    requires |s| > 0
    ensures exists i | 0 <= i < |s| :: m == s[i]
    ensures forall i | 0 <= i < |s| :: m <= s[i]
  {
    if |s| == 1 then s[0]
    else
      var rest := MinOf(s[1..]);
      assert forall i | 1 <= i < |s| :: s[i] == s[1..][i - 1];
      if s[0] <= rest then s[0] else rest
  }

  /** Python's `max` over a non-empty list of floats. */
  function MaxOf(s: seq<real>): (m: real)
    requires |s| > 0
    ensures exists i | 0 <= i < |s| :: m == s[i]
    ensures forall i | 0 <= i < |s| :: s[i] <= m
  {
    if |s| == 1 then s[0]
    else
      var rest := MaxOf(s[1..]);
      assert forall i | 1 <= i < |s| :: s[i] == s[1..][i - 1];
      if s[0] >= rest then s[0] else rest
  }

  /** `[c["low"] for c in cs]` */
  function Lows(cs: seq<Candle>): (r: seq<real>)
    ensures |r| == |cs|
    ensures forall i | 0 <= i < |cs| :: r[i] == cs[i].low
  {
    seq(|cs|, i requires 0 <= i < |cs| => cs[i].low)
  }

  /** `[c["high"] for c in cs]` */
  function Highs(cs: seq<Candle>): (r: seq<real>)
    ensures |r| == |cs|
    ensures forall i | 0 <= i < |cs| :: r[i] == cs[i].high
  {
    seq(|cs|, i requires 0 <= i < |cs| => cs[i].high)
  }

  /** Python's two-argument `min` on floats. */
  function Min2(a: real, b: real): (m: real)
    ensures m <= a && m <= b
    ensures m == a || m == b
  {
    if a <= b then a else b
  }

  /** Python's two-argument `max` on floats. */
  function Max2(a: real, b: real): (m: real)
    ensures a <= m && b <= m
    ensures m == a || m == b
  {
    if a >= b then a else b
  }
}
