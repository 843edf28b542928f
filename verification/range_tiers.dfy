/** range/range_tiers.py: the additive quality score, the tier it maps to,
    and the gate that compares a tier against the configured minimum. */
module RangeTiers {
  import opened Outcomes

  /** The `meta` dict handed to the scorer. A key that is absent is `None`.
      `fakeoutValid` and `rangePct` are keys the range analyser sets but the
      scorer never reads. */
  datatype Meta = Meta(
    hasRange: Option<bool>,
    cleanSwing: Option<bool>,
    breakoutClear: Option<bool>,
    fvgOk: Option<bool>,
    rrOk: Option<bool>,
    slPct: Option<real>,
    htfAlignment: Option<bool>,
    fakeoutValid: Option<bool>,
    rangePct: Option<real>)

  /** `bool(meta.get(key))`: a missing key reads as false. */
  predicate Flag(o: Option<bool>)
  {
    o == Some(true)
  }

  /** `float(meta.get("sl_pct", 0.0))` */
  function SlPctOf(m: Meta): real
  {
    match m.slPct
    case Some(v) => v
    case None => 0.0
  }

  /** The "healthy stop" band that earns 10 points. */
  predicate HealthySl(slPct: real)
  {
    0.25 <= slPct <= 1.20
  }

  /** The weighted sum before the clamp at 150. */
  function RawScore(m: Meta): int
  {
    (if Flag(m.hasRange) then 25 else 0)
    + (if Flag(m.cleanSwing) then 20 else 0)
    + (if Flag(m.breakoutClear) then 20 else 0)
    + (if Flag(m.fvgOk) then 10 else 0)
    + (if Flag(m.rrOk) then 10 else 0)
    + (if HealthySl(SlPctOf(m)) then 10 else 0)
    + (if Flag(m.htfAlignment) then 20 else 0)
  }

  /** The largest score any meta can earn: 25+20+20+10+10+10+20. */
  const MaxScore: int := 115

  /** `score_range_signal`. The clamp to 150 never fires because no meta
      can earn more than 115 points. */
  function ScoreRangeSignal(m: Meta): (s: int)
    ensures 0 <= s <= MaxScore
    ensures s == RawScore(m)
  {
    var raw := RawScore(m);
    if raw > 150 then 150 else raw
  }

  /** The bound 115 is reached: every flag set and a healthy stop. */
  lemma MaxScoreReached()
    ensures ScoreRangeSignal(Meta(Some(true), Some(true), Some(true), Some(true), Some(true),
                                  Some(0.5), Some(true), None, None)) == MaxScore
  {
  }

  /** `m2` has every flag `m1` has, and a stop in the healthy band if `m1` does. */
  predicate AtLeastAsGood(m1: Meta, m2: Meta)
  {
    && (Flag(m1.hasRange) ==> Flag(m2.hasRange))
    && (Flag(m1.cleanSwing) ==> Flag(m2.cleanSwing))
    && (Flag(m1.breakoutClear) ==> Flag(m2.breakoutClear))
    && (Flag(m1.fvgOk) ==> Flag(m2.fvgOk))
    && (Flag(m1.rrOk) ==> Flag(m2.rrOk))
    && (HealthySl(SlPctOf(m1)) ==> HealthySl(SlPctOf(m2)))
    && (Flag(m1.htfAlignment) ==> Flag(m2.htfAlignment))
  }

  /** Switching any scored flag from false to true never lowers the score. */
  lemma ScoreMonotone(m1: Meta, m2: Meta)
    requires AtLeastAsGood(m1, m2)
    ensures ScoreRangeSignal(m1) <= ScoreRangeSignal(m2)
  {
  }

  /** Keys the scorer does not read cannot change the score. */
  lemma ScoreIgnoresUnscoredKeys(m: Meta, fakeoutValid: Option<bool>, rangePct: Option<real>)
    ensures ScoreRangeSignal(m.(fakeoutValid := fakeoutValid, rangePct := rangePct))
         == ScoreRangeSignal(m)
  {
  }

  /** The four tiers `tier_from_score` can return. */
  datatype Tier = NoTier | TierB | TierA | TierAPlus {
    /** The string the source uses for the tier. */
    function Label(): string
    {
      match this
      case NoTier => "NONE"
      case TierB => "B"
      case TierA => "A"
      case TierAPlus => "A+"
    }
  }

  /** The names `Rank` orders. */
  const TierNames: set<string> := {"NONE", "B", "A", "A+"}

  /** Distinct tier names have distinct ranks, in the order NONE < B < A < A+. */
  lemma RankOrder(unknown: int)
    ensures Rank("NONE", unknown) < Rank("B", unknown) < Rank("A", unknown) < Rank("A+", unknown)
    ensures forall a, b | a in TierNames && b in TierNames && a != b :: Rank(a, unknown) != Rank(b, unknown)
  {
  }

  /** `order.get(name, unknown)` with order NONE=0 < B=1 < A=2 < A+=3. */
  function Rank(name: string, unknown: int): (r: int)
    ensures name in TierNames ==> 0 <= r <= 3
    ensures name !in TierNames ==> r == unknown
  {
    if name == "NONE" then 0
    else if name == "B" then 1
    else if name == "A" then 2
    else if name == "A+" then 3
    else unknown
  }

  /** `tier_from_score`: the thresholds 120 / 100 / 80, each inclusive. */
  function TierFromScore(score: int): (t: Tier)
    ensures t == TierAPlus <==> 120 <= score
    ensures t == TierA <==> 100 <= score < 120
    ensures t == TierB <==> 80 <= score < 100
    ensures t == NoTier <==> score < 80
  {
    if score >= 120 then TierAPlus
    else if score >= 100 then TierA
    else if score >= 80 then TierB
    else NoTier
  }

  /** A higher score never yields a lower-ranked tier. */
  lemma TierMonotone(s1: int, s2: int)
    requires s1 <= s2
    ensures Rank(TierFromScore(s1).Label(), 0) <= Rank(TierFromScore(s2).Label(), 0)
  {
  }

  /** No meta scores high enough for tier A+. */
  lemma APlusUnreachable(m: Meta)
    ensures TierFromScore(ScoreRangeSignal(m)) != TierAPlus
  {
  }

  /** `state.min_tier or "A"`: `None` and the empty string mean "A". */
  function EffectiveMinTier(minTier: Option<string>): (s: string)
    ensures s != ""
    ensures minTier.Some? && minTier.value != "" ==> s == minTier.value
  {
    match minTier
    case Some(v) => if v == "" then "A" else v
    case None => "A"
  }

  /** `should_send_tier`: the tier's rank (unknown = 0) reaches the minimum
      tier's rank (unknown = 2). */
  function ShouldSendTier(tier: string, minTier: Option<string>): (send: bool)
    ensures EffectiveMinTier(minTier) == "NONE" ==> send
    ensures tier == "A+" ==> send
    ensures Rank(EffectiveMinTier(minTier), 2) == 2 ==> (send <==> tier == "A" || tier == "A+")
    ensures EffectiveMinTier(minTier) == "B" ==> (send <==> tier in {"B", "A", "A+"})
    ensures EffectiveMinTier(minTier) == "A+" ==> (send <==> tier == "A+")
  {
    Rank(tier, 0) >= Rank(EffectiveMinTier(minTier), 2)
  }

  /** A tier ranked at least as high as one that is sent is sent too. */
  lemma ShouldSendMonotone(t1: string, t2: string, minTier: Option<string>)
    requires Rank(t1, 0) <= Rank(t2, 0)
    requires ShouldSendTier(t1, minTier)
    ensures ShouldSendTier(t2, minTier)
  {
  }

  /** The record `evaluate_signal_quality` returns. */
  datatype Quality = Quality(score: int, tier: Tier, send: bool)

  /** `evaluate_signal_quality`: score, tier and send decision, mutually
      consistent. */
  function EvaluateSignalQuality(m: Meta, minTier: Option<string>): (q: Quality)
    ensures 0 <= q.score <= MaxScore
    ensures q.score == RawScore(m)
    ensures q.tier == TierFromScore(q.score)
    ensures q.tier != TierAPlus
    ensures q.send <==> Rank(q.tier.Label(), 0) >= Rank(EffectiveMinTier(minTier), 2)
  {
    var score := ScoreRangeSignal(m);
    var tier := TierFromScore(score);
    Quality(score, tier, ShouldSendTier(tier.Label(), minTier))
  }
}
