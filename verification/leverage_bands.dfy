/** The stop-loss-percentage buckets shared by both leverage tables.

    Both `recommend_leverage_range` (range/range_detector.py) and
    `RangeSettings.leverage_from_sl` (range/range_settings.py) split the
    stop-loss percentage at the same inclusive upper edges 0.25 / 0.50 /
    0.80 / 1.20 and differ only in the band each bucket maps to. */
module LeverageBands {

  /** A suggested leverage interval `(lev_min, lev_max)`. */
  datatype Band = Band(lo: real, hi: real)

  /** Bucket 0 is "no usable stop" (`sl_pct <= 0`); buckets 1..5 are the
      positive ranges, each closed at its upper edge. */
  function SlBucket(slPct: real): (b: nat)
    ensures b <= 5
    ensures b == 0 <==> slPct <= 0.0
    ensures b == 1 <==> 0.0 < slPct <= 0.25
    ensures b == 2 <==> 0.25 < slPct <= 0.50
    ensures b == 3 <==> 0.50 < slPct <= 0.80
    ensures b == 4 <==> 0.80 < slPct <= 1.20
    ensures b == 5 <==> 1.20 < slPct
  {
    if slPct <= 0.0 then 0
    else if slPct <= 0.25 then 1
    else if slPct <= 0.50 then 2
    else if slPct <= 0.80 then 3
    else if slPct <= 1.20 then 4
    else 5
  }

  /** A wider stop never lands in an earlier bucket. */
  lemma SlBucketMonotone(a: real, b: real)
    requires 0.0 < a <= b
    ensures 1 <= SlBucket(a) <= SlBucket(b)
  {
  }

  /** The shape both tables share: six bands, every positive bucket a proper
      interval, and each positive bucket's upper bound equal to the lower
      bound of the bucket before it. */
  predicate StepTable(t: seq<Band>)
  {
    && |t| == 6
    && (forall i | 1 <= i <= 5 :: t[i].lo < t[i].hi)
    && (forall i | 2 <= i <= 5 :: t[i].hi == t[i - 1].lo)
  }

  /** In a step table both bounds shrink as the bucket index grows. */
  lemma {:induction false} StepTableMonotone(t: seq<Band>, i: nat, j: nat)
    requires StepTable(t)
    requires 1 <= i <= j <= 5
    ensures t[j].lo <= t[i].lo
    ensures t[j].hi <= t[i].hi
    decreases j - i
  {
    if i < j {
      StepTableMonotone(t, i + 1, j);
      assert t[i + 1].hi == t[i].lo;
      assert t[i + 1].lo < t[i + 1].hi;
    }
  }

  /** The band a table assigns to a stop-loss percentage. */
  function Lookup(t: seq<Band>, slPct: real): (b: Band)
    requires |t| == 6
  {
    t[SlBucket(slPct)]
  }

  /** For positive stop percentages the band is proper, both bounds are
      non-increasing, and stepping into the next bucket makes the new upper
      bound equal to the old lower bound. */
  lemma LookupMonotone(t: seq<Band>, a: real, b: real)
    requires StepTable(t)
    requires 0.0 < a <= b
    ensures Lookup(t, a).lo < Lookup(t, a).hi
    ensures Lookup(t, b).lo <= Lookup(t, a).lo
    ensures Lookup(t, b).hi <= Lookup(t, a).hi
    ensures SlBucket(b) == SlBucket(a) + 1 ==> Lookup(t, b).hi == Lookup(t, a).lo
  {
    SlBucketMonotone(a, b);
    StepTableMonotone(t, SlBucket(a), SlBucket(b));
  }
}
