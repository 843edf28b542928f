/** binance/binance_stream.py, pure part: when to refresh the pair list,
    when the inner receive loop exits, which messages are dropped, when a
    closed bar is analysed, and the per-symbol cooldown map. The network,
    the candle buffer and the broadcast are inputs or are left out. */
module BinanceStream {
  import opened Outcomes
  import opened Candles
  import opened RangeDetector

  /** The bot state the loop reads and writes (the shared `state` object plus
      the loop's own `symbols` and `last_pairs_refresh`). */
  datatype BotState = BotState(
    symbols: seq<string>,
    lastPairsRefresh: real,
    forcePairsRefresh: bool,
    requestSoftRestart: bool,
    running: bool,
    scanning: bool,
    cooldownSeconds: int,
    lastSignalTime: map<string, real>)

  /** The minimum buffer length before a closed bar is analysed. */
  const MinBufferedCandles: nat := 40

  // ---------------------------------------------------------------------
  // Pair refresh (outer loop)
  // ---------------------------------------------------------------------

  /** The outer loop's refresh condition. */
  function NeedRefreshPairs(st: BotState, now: real, interval: real): (b: bool)
    ensures |st.symbols| == 0 ==> b
    ensures st.forcePairsRefresh ==> b
    ensures !b <==> |st.symbols| > 0 && !st.forcePairsRefresh && now <= st.lastPairsRefresh + interval
  {
    |st.symbols| == 0 || now - st.lastPairsRefresh > interval || st.forcePairsRefresh
  }

  /** A refresh: the new pair list, stamped with `now`, force flag cleared. */
  function RefreshPairs(st: BotState, now: real, pairs: seq<string>): (st': BotState)
    ensures st'.symbols == pairs && st'.lastPairsRefresh == now && !st'.forcePairsRefresh
    ensures st'.(symbols := st.symbols, lastPairsRefresh := st.lastPairsRefresh,
                 forcePairsRefresh := st.forcePairsRefresh) == st
  {
    st.(symbols := pairs, lastPairsRefresh := now, forcePairsRefresh := false)
  }

  /** After a refresh that found pairs, no further refresh is due until more
      than `interval` seconds have passed, and one is due after that. */
  lemma RefreshQuietUntilInterval(st: BotState, now: real, pairs: seq<string>, interval: real, later: real)
    requires |pairs| > 0
    ensures NeedRefreshPairs(RefreshPairs(st, now, pairs), later, interval) <==> later - now > interval
  {
  }

  /** What the outer loop does after the refresh check. */
  datatype OuterAction = Finish | Sleep | Connect

  datatype OuterStep = OuterStep(action: OuterAction, state: BotState)

  /** One pass of the outer loop up to the connect: stop when not running,
      refresh when due (with `pairs` standing for `get_usdt_pairs`), sleep when
      there is nothing to scan, connect otherwise. */
  function Outer(st: BotState, now: real, interval: real, pairs: seq<string>): (o: OuterStep)
    ensures o.action == Finish <==> !st.running
    ensures o.action == Finish ==> o.state == st
    ensures st.running && NeedRefreshPairs(st, now, interval) ==> o.state == RefreshPairs(st, now, pairs)
    ensures st.running && !NeedRefreshPairs(st, now, interval) ==> o.state == st
    ensures o.action == Connect <==> st.running && |o.state.symbols| > 0
  {
    if !st.running then OuterStep(Finish, st)
    else
      var st1 := if NeedRefreshPairs(st, now, interval) then RefreshPairs(st, now, pairs) else st;
      if |st1.symbols| == 0 then OuterStep(Sleep, st1) else OuterStep(Connect, st1)
  }

  // ---------------------------------------------------------------------
  // Inner loop exits
  // ---------------------------------------------------------------------

  /** The inner loop's decision before each receive. */
  datatype Gate = Stop | SoftRestart | RefreshDue | Receive

  datatype GateStep = GateStep(gate: Gate, state: BotState)

  /** The checks at the top of the inner loop: leave when not running, leave
      on a soft-restart request (clearing it), leave when the refresh interval
      has elapsed, otherwise receive. */
  function InnerGate(st: BotState, now: real, interval: real): (g: GateStep)
    ensures g.gate == Stop <==> !st.running
    ensures g.gate == SoftRestart <==> st.running && st.requestSoftRestart
    ensures g.gate == RefreshDue <==>
      st.running && !st.requestSoftRestart && now - st.lastPairsRefresh > interval
    ensures g.gate == SoftRestart ==> g.state == st.(requestSoftRestart := false)
    ensures g.gate != SoftRestart ==> g.state == st
  {
    if !st.running then GateStep(Stop, st)
    else if st.requestSoftRestart then GateStep(SoftRestart, st.(requestSoftRestart := false))
    else if now - st.lastPairsRefresh > interval then GateStep(RefreshDue, st)
    else GateStep(Receive, st)
  }

  /** Leaving the inner loop for a refresh means the outer loop will refresh. */
  lemma RefreshDueLeadsToRefresh(st: BotState, now: real, interval: real)
    requires InnerGate(st, now, interval).gate == RefreshDue
    ensures NeedRefreshPairs(InnerGate(st, now, interval).state, now, interval)
    ensures Outer(InnerGate(st, now, interval).state, now, interval, st.symbols).state.lastPairsRefresh == now
  {
  }

  /** Right after connecting, the inner loop does not leave for a refresh at
      the same instant (for a non-negative interval). */
  lemma ConnectNotImmediatelyStale(st: BotState, now: real, interval: real, pairs: seq<string>)
    requires interval >= 0.0
    requires !st.requestSoftRestart
    requires Outer(st, now, interval, pairs).action == Connect
    ensures InnerGate(Outer(st, now, interval, pairs).state, now, interval).gate == Receive
  {
  }

  // ---------------------------------------------------------------------
  // Messages
  // ---------------------------------------------------------------------

  /** The fields of `data.k` the loop reads: the symbol and the closed flag. */
  datatype Kline = Kline(symbol: string, closed: bool)

  /** What one receive produced: a timeout; text that is not JSON; JSON of
      the wrong shape for the `.get` / `.upper()` chain, with the method the
      offending value lacks (`get` for a message, `data` or truthy `k` that
      is not an object, `upper` for an `s` that is not a string); or a JSON
      object whose `data.k` is present (`Some`) or missing or empty (`None`). */
  datatype Received =
    | TimedOut
    | Undecodable
    | WrongShape(attribute: string)
    | Decoded(kline: Option<Kline>)

  /** The message carries a kline with a non-empty symbol. */
  predicate WellFormedMessage(msg: Received)
  {
    msg.Decoded? && msg.kline.Some? && |msg.kline.value.symbol| > 0
  }

  /** The per-symbol cooldown test: enabled, a truthy last time, and less than
      the cooldown elapsed since it. */
  function CoolingDown(lastSignalTime: map<string, real>, symbol: string, now: real, cooldownSeconds: int): (b: bool)
    ensures cooldownSeconds <= 0 || symbol !in lastSignalTime ==> !b
    ensures b ==> lastSignalTime[symbol] != 0.0 && now < lastSignalTime[symbol] + cooldownSeconds as real
    ensures cooldownSeconds > 0 && symbol in lastSignalTime && lastSignalTime[symbol] != 0.0 ==>
      (b <==> now < lastSignalTime[symbol] + cooldownSeconds as real)
  {
    && cooldownSeconds > 0
    && symbol in lastSignalTime
    && lastSignalTime[symbol] != 0.0
    && now - lastSignalTime[symbol] < cooldownSeconds as real
  }

  /** How the loop disposed of one receive. */
  datatype Outcome =
    | Idle
    | Dropped
    | NotClosed
    | NotScanning
    | TooFewCandles
    | CoolingDownSkip
    | Rejected
    | Emitted(signal: Signal)
    | Crashed(fault: Fault)
    | Aborted(fault: Fault)

  /** The outcome reached the analyser. `Crashed` is an analysis that raised
      and `Aborted` a message that raised while being read; both leave the
      inner loop through the outer handler, which sleeps and reconnects. */
  predicate Analysed(o: Outcome)
  {
    o.Rejected? || o.Emitted? || o.Crashed?
  }

  datatype Step = Step(outcome: Outcome, state: BotState)

  /** The gates a well-formed message must pass before analysis. */
  predicate PassesGates(st: BotState, k: Kline, now: real, candles: seq<Candle>)
  {
    k.closed && st.scanning && |candles| >= MinBufferedCandles
    && !CoolingDown(st.lastSignalTime, k.symbol, now, st.cooldownSeconds)
  }

  /** The cooldown map update after a signal went out. */
  function RecordSignal(st: BotState, symbol: string, now: real): (st': BotState)
    ensures symbol in st'.lastSignalTime && st'.lastSignalTime[symbol] == now
    ensures forall other | other != symbol ::
      (other in st'.lastSignalTime <==> other in st.lastSignalTime)
      && (other in st.lastSignalTime ==> st'.lastSignalTime[other] == st.lastSignalTime[other])
    ensures st'.(lastSignalTime := st.lastSignalTime) == st
  {
    st.(lastSignalTime := st.lastSignalTime[symbol := now])
  }

  /** One receive of the inner loop. `candles` is the symbol's buffer after
      the kline was applied to it, and `now` the time read before analysis. */
  function HandleMessage(st: BotState, msg: Received, now: real, candles: seq<Candle>, cfg: DetectorConfig): (s: Step)
    ensures msg.TimedOut? ==> s.outcome == Idle
    ensures s.outcome == Dropped <==> !msg.TimedOut? && !msg.WrongShape? && !WellFormedMessage(msg)
    ensures s.outcome.Aborted? <==> msg.WrongShape?
    ensures s.outcome.Aborted? ==> s.outcome.fault == AttributeError(msg.attribute)
    ensures Analysed(s.outcome) <==>
      WellFormedMessage(msg) && PassesGates(st, msg.kline.value, now, candles)
    ensures s.outcome.Emitted? ==>
      && WellFormedMessage(msg)
      && AnalyzeSymbolRange(msg.kline.value.symbol, candles, cfg) == Ok(Some(s.outcome.signal))
      && s.outcome.signal.symbol == msg.kline.value.symbol
      && cfg.minTier == Some("NONE")
    ensures s.outcome.Crashed? ==>
      WellFormedMessage(msg) && AnalyzeSymbolRange(msg.kline.value.symbol, candles, cfg) == Raised(s.outcome.fault)
    ensures s.outcome == Rejected ==>
      WellFormedMessage(msg) && AnalyzeSymbolRange(msg.kline.value.symbol, candles, cfg) == Ok(None)
    ensures !s.outcome.Emitted? ==> s.state == st
    ensures s.outcome.Emitted? ==> s.state == RecordSignal(st, msg.kline.value.symbol, now)
  {
    match msg
    case TimedOut => Step(Idle, st)
    case Undecodable => Step(Dropped, st)
    case WrongShape(attribute) => Step(Aborted(AttributeError(attribute)), st)
    case Decoded(None) => Step(Dropped, st)
    case Decoded(Some(k)) =>
      if |k.symbol| == 0 then Step(Dropped, st)
      else if !k.closed then Step(NotClosed, st)
      else if !st.scanning then Step(NotScanning, st)
      else if |candles| < MinBufferedCandles then Step(TooFewCandles, st)
      else if CoolingDown(st.lastSignalTime, k.symbol, now, st.cooldownSeconds) then Step(CoolingDownSkip, st)
      else
        match AnalyzeSymbolRange(k.symbol, candles, cfg)
        case Raised(f) => Step(Crashed(f), st)
        case Ok(None) => Step(Rejected, st)
        case Ok(Some(sig)) => Step(Emitted(sig), RecordSignal(st, k.symbol, now))
  }

  // ---------------------------------------------------------------------
  // Cooldown properties
  // ---------------------------------------------------------------------

  /** A cooldown of zero or less never suppresses anything. */
  lemma CooldownDisabled(m: map<string, real>, symbol: string, now: real, cooldownSeconds: int)
    requires cooldownSeconds <= 0
    ensures !CoolingDown(m, symbol, now, cooldownSeconds)
  {
  }

  /** A gap of exactly the cooldown is allowed; anything shorter is not. */
  lemma CooldownBoundary(m: map<string, real>, symbol: string, cooldownSeconds: int, gap: real)
    requires cooldownSeconds > 0
    requires symbol in m && m[symbol] != 0.0
    ensures !CoolingDown(m, symbol, m[symbol] + cooldownSeconds as real, cooldownSeconds)
    ensures gap < cooldownSeconds as real ==> CoolingDown(m, symbol, m[symbol] + gap, cooldownSeconds)
  {
  }

  /** A symbol with no recorded signal, or a recorded time of zero, is never
      cooling down. */
  lemma CooldownNeedsTruthyTime(m: map<string, real>, symbol: string, now: real, cooldownSeconds: int)
    requires symbol !in m || m[symbol] == 0.0
    ensures !CoolingDown(m, symbol, now, cooldownSeconds)
  {
  }

  /** After a signal for `symbol` was recorded at time `t` (non-zero), a
      closed bar of the same symbol less than the cooldown later is skipped
      without analysis and changes nothing. */
  lemma AtMostOneSignalPerCooldown(
    st: BotState, symbol: string, t1: real, msg: Received, t2: real, candles: seq<Candle>, cfg: DetectorConfig)
    requires t1 != 0.0
    requires WellFormedMessage(msg) && msg.kline.value.symbol == symbol
    requires st.cooldownSeconds > 0 && t2 - t1 < st.cooldownSeconds as real
    ensures var st1 := RecordSignal(st, symbol, t1);
      && !HandleMessage(st1, msg, t2, candles, cfg).outcome.Emitted?
      && HandleMessage(st1, msg, t2, candles, cfg).state == st1
  {
    var st1 := RecordSignal(st, symbol, t1);
    assert CoolingDown(st1.lastSignalTime, symbol, t2, st1.cooldownSeconds);
  }

  // ---------------------------------------------------------------------
  // A run of messages
  // ---------------------------------------------------------------------

  /** One receive: the message, the time read for it, and the symbol's buffer. */
  datatype Event = Event(msg: Received, now: real, candles: seq<Candle>)

  /** A signal that went out: its symbol and the time recorded for it. */
  datatype Emission = Emission(symbol: string, time: real)

  datatype Trace = Trace(state: BotState, emissions: seq<Emission>)

  /** The inner loop over a sequence of receives, collecting the emissions. */
  function Run(st: BotState, evs: seq<Event>, cfg: DetectorConfig): (t: Trace)
    ensures t.state.cooldownSeconds == st.cooldownSeconds
    ensures t.state.(lastSignalTime := st.lastSignalTime) == st
    ensures |t.emissions| <= |evs|
    decreases |evs|
  {
    if |evs| == 0 then Trace(st, [])
    else
      var prev := Run(st, evs[..|evs| - 1], cfg);
      var ev := evs[|evs| - 1];
      var s := HandleMessage(prev.state, ev.msg, ev.now, ev.candles, cfg);
      if s.outcome.Emitted? then
        Trace(s.state, prev.emissions + [Emission(ev.msg.kline.value.symbol, ev.now)])
      else Trace(s.state, prev.emissions)
  }

  /** Every receive time is non-zero, so a recorded time is truthy. */
  predicate NonZeroTimes(evs: seq<Event>)
  {
    forall i | 0 <= i < |evs| :: evs[i].now != 0.0
  }

  /** Receive times never go backwards. */
  predicate MonotoneTimes(evs: seq<Event>)
  {
    forall i, j | 0 <= i < j < |evs| :: evs[i].now <= evs[j].now
  }

  /** Two signals for the same symbol are at least the cooldown apart. */
  predicate Spaced(es: seq<Emission>, cooldownSeconds: int)
  {
    forall i, j | 0 <= i < j < |es| && es[i].symbol == es[j].symbol ::
      es[j].time - es[i].time >= cooldownSeconds as real
  }

  /** What a run with a positive cooldown maintains: the symbol of each
      emission has a truthy recorded time no earlier than the emission. */
  predicate Recorded(m: map<string, real>, es: seq<Emission>)
  {
    forall i | 0 <= i < |es| ::
      es[i].symbol in m && m[es[i].symbol] != 0.0 && es[i].time <= m[es[i].symbol]
  }

  /** Emission times in order, none later than `latest`. */
  predicate InOrderUpTo(es: seq<Emission>, latest: real)
  {
    && (forall i | 0 <= i < |es| :: es[i].time <= latest)
    && (forall i, j | 0 <= i < j < |es| :: es[i].time <= es[j].time)
  }

  /** Over any run, from any cooldown map, signals for the same symbol are at
      least `cooldown_seconds` apart. With a positive cooldown it is enough
      that no receive happens at time zero: the clock may even go backwards,
      since the gate compares against the time recorded for the last signal.
      With the cooldown disabled the gap bound is not positive and holds as
      long as the clock does not go backwards. */
  lemma {:induction false} RunSpacesSignals(st: BotState, evs: seq<Event>, cfg: DetectorConfig)
    requires st.cooldownSeconds > 0 ==> NonZeroTimes(evs)
    requires st.cooldownSeconds <= 0 ==> MonotoneTimes(evs)
    ensures Spaced(Run(st, evs, cfg).emissions, st.cooldownSeconds)
  {
    if st.cooldownSeconds > 0 {
      RunKeepsRecorded(st, evs, cfg);
    } else {
      RunKeepsOrder(st, evs, cfg);
      var es := Run(st, evs, cfg).emissions;
      forall i, j | 0 <= i < j < |es| && es[i].symbol == es[j].symbol
        ensures es[j].time - es[i].time >= st.cooldownSeconds as real
      {
        assert es[i].time <= es[j].time;
      }
    }
  }

  /** With a positive cooldown, the spacing and the `Recorded` invariant
      hold after every prefix of the run. */
  lemma {:induction false} RunKeepsRecorded(st: BotState, evs: seq<Event>, cfg: DetectorConfig)
    requires st.cooldownSeconds > 0
    requires NonZeroTimes(evs)
    ensures Spaced(Run(st, evs, cfg).emissions, st.cooldownSeconds)
    ensures Recorded(Run(st, evs, cfg).state.lastSignalTime, Run(st, evs, cfg).emissions)
    decreases |evs|
  {
    if |evs| > 0 {
      var pre := evs[..|evs| - 1];
      assert NonZeroTimes(pre);
      RunKeepsRecorded(st, pre, cfg);
      var prev := Run(st, pre, cfg);
      var ev := evs[|evs| - 1];
      var s := HandleMessage(prev.state, ev.msg, ev.now, ev.candles, cfg);
      var cd := st.cooldownSeconds;
      var t := Run(st, evs, cfg);
      if s.outcome.Emitted? {
        var sym := ev.msg.kline.value.symbol;
        var m := prev.state.lastSignalTime;
        assert !CoolingDown(m, sym, ev.now, cd);
        assert t.emissions == prev.emissions + [Emission(sym, ev.now)];
        forall i | 0 <= i < |prev.emissions| && prev.emissions[i].symbol == sym
          ensures ev.now - prev.emissions[i].time >= cd as real
        {
          assert sym in m && m[sym] != 0.0 && prev.emissions[i].time <= m[sym];
        }
        SpacedAppend(prev.emissions, Emission(sym, ev.now), cd);
        RecordedAppend(m, prev.emissions, sym, ev.now, cd);
      }
    }
  }

  /** With a clock that does not go backwards, emissions come out in time
      order and none is later than the last receive. */
  lemma {:induction false} RunKeepsOrder(st: BotState, evs: seq<Event>, cfg: DetectorConfig)
    requires MonotoneTimes(evs)
    ensures |evs| > 0 ==> InOrderUpTo(Run(st, evs, cfg).emissions, evs[|evs| - 1].now)
    ensures |evs| == 0 ==> Run(st, evs, cfg).emissions == []
    decreases |evs|
  {
    if |evs| > 0 {
      var pre := evs[..|evs| - 1];
      assert MonotoneTimes(pre);
      RunKeepsOrder(st, pre, cfg);
      var prev := Run(st, pre, cfg);
      var ev := evs[|evs| - 1];
      if |pre| > 0 {
        assert pre[|pre| - 1].now <= ev.now;
      }
      assert InOrderUpTo(prev.emissions, ev.now);
      var s := HandleMessage(prev.state, ev.msg, ev.now, ev.candles, cfg);
      if s.outcome.Emitted? {
        OrderAppend(prev.emissions, ev.msg.kline.value.symbol, ev.now);
      }
    }
  }

  lemma OrderAppend(es: seq<Emission>, sym: string, now: real)
    requires InOrderUpTo(es, now)
    ensures InOrderUpTo(es + [Emission(sym, now)], now)
  {
    var es' := es + [Emission(sym, now)];
    forall i, j | 0 <= i < j < |es'|
      ensures es'[i].time <= es'[j].time
    {
      assert es'[i] == es[i];
    }
  }

  lemma SpacedAppend(es: seq<Emission>, e: Emission, cd: int)
    requires Spaced(es, cd)
    requires forall i | 0 <= i < |es| && es[i].symbol == e.symbol :: e.time - es[i].time >= cd as real
    ensures Spaced(es + [e], cd)
  {
    var es' := es + [e];
    forall i, j | 0 <= i < j < |es'| && es'[i].symbol == es'[j].symbol
      ensures es'[j].time - es'[i].time >= cd as real
    {
      if j < |es| {
        assert es'[i] == es[i] && es'[j] == es[j];
      } else {
        assert es'[i] == es[i] && es'[j] == e;
      }
    }
  }

  /** Recording a non-zero `now` for `sym` keeps the invariant, because the
      earlier emissions of `sym` lie at least a positive cooldown before it. */
  lemma RecordedAppend(m: map<string, real>, es: seq<Emission>, sym: string, now: real, cd: int)
    requires Recorded(m, es) && now != 0.0 && cd > 0
    requires forall i | 0 <= i < |es| && es[i].symbol == sym :: now - es[i].time >= cd as real
    ensures Recorded(m[sym := now], es + [Emission(sym, now)])
  {
    var es' := es + [Emission(sym, now)];
    forall i | 0 <= i < |es'|
      ensures es'[i].symbol in m[sym := now] && m[sym := now][es'[i].symbol] != 0.0
        && es'[i].time <= m[sym := now][es'[i].symbol]
    {
      if i < |es| {
        assert es'[i] == es[i];
      }
    }
  }
}
