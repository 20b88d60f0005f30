/** `DuckChart.percentToTimestamp`: reading a zoom percentage off the
    loaded, time-ordered overview timeline. */
module Timeline {

  /** A JavaScript array read: a number, or `undefined` past either end. */
  datatype TsValue = Num(v: int) | Undefined

  function At(timeline: seq<int>, i: int): (r: TsValue)
  {
    if 0 <= i < |timeline| then Num(timeline[i]) else Undefined
  }

  /** The value returned for a percentage outside [0, 100]. */
  const Sentinel: int := 0

  /** `Math.floor((percent / 100) * length)`, in exact arithmetic. */
  function PercentIndex(percent: real, len: nat): int {
    ((percent / 100.0) * (len as real)).Floor
  }

  /** `percentToTimestamp`: outside [0, 100] the sentinel; inside, one of
      the timeline's own values, or `undefined` exactly when the timeline is
      empty. */
  function PercentToTimestamp(timeline: seq<int>, percent: real): (r: TsValue)
    ensures percent < 0.0 || percent > 100.0 ==> r == Num(Sentinel)
    ensures 0.0 <= percent <= 100.0 ==> (r.Undefined? <==> |timeline| == 0)
    ensures 0.0 <= percent <= 100.0 && r.Num? ==> r.v in timeline
  {
    if percent < 0.0 || percent > 100.0 then Num(Sentinel)
    else if percent == 0.0 then At(timeline, 0)
    else if percent == 100.0 then At(timeline, |timeline| - 1)
    else
      var i := PercentIndex(percent, |timeline|);
      assert |timeline| > 0 ==> 0 <= i < |timeline| by {
        if |timeline| > 0 {
          PercentIndexInRange(percent, |timeline|);
        }
      }
      At(timeline, i)
  }

  ghost predicate Sorted(timeline: seq<int>) {
    forall i, j :: 0 <= i <= j < |timeline| ==> timeline[i] <= timeline[j]
  }

  lemma ScaleBelow(a: real, b: real)
    requires 0.0 <= a < 1.0 && 0.0 < b
    ensures 0.0 <= a * b < b
  {
  }

  lemma ScaleMonotone(a: real, a': real, b: real)
    requires a <= a' && 0.0 <= b
    ensures a * b <= a' * b
  {
  }

  /** Strictly inside (0, 100) the index read lies inside the timeline. */
  lemma PercentIndexInRange(percent: real, len: nat)
    requires 0.0 < percent < 100.0 && len > 0
    ensures 0 <= PercentIndex(percent, len) < len
  {
    ScaleBelow(percent / 100.0, len as real);
  }

  /** A larger percentage never reads an earlier index. */
  lemma PercentIndexMonotone(p: real, q: real, len: nat)
    requires p <= q
    ensures PercentIndex(p, len) <= PercentIndex(q, len)
  {
    ScaleMonotone(p / 100.0, q / 100.0, len as real);
  }

  /** Out-of-range percentages yield the sentinel without touching the
      timeline, whatever it holds. */
  lemma OutOfRangeIsSentinel(timeline: seq<int>, percent: real)
    requires percent < 0.0 || percent > 100.0
    ensures PercentToTimestamp(timeline, percent) == Num(Sentinel)
    ensures forall other: seq<int> :: PercentToTimestamp(other, percent) == PercentToTimestamp(timeline, percent)
  {
  }

  /** The ends of the scale are the ends of the timeline. */
  lemma EndsAreExact(timeline: seq<int>)
    requires |timeline| > 0
    ensures PercentToTimestamp(timeline, 0.0) == Num(timeline[0])
    ensures PercentToTimestamp(timeline, 100.0) == Num(timeline[|timeline| - 1])
  {
  }

  /** The position `PercentToTimestamp` reads for a percentage in [0, 100]. */
  function ReadIndex(percent: real, len: nat): int {
    if percent == 0.0 then 0
    else if percent == 100.0 then len - 1
    else PercentIndex(percent, len)
  }

  /** Any percentage in [0, 100] on a non-empty timeline yields one of the
      timeline's own values, read at an index inside it. */
  lemma {:induction false} InRangeIsMember(timeline: seq<int>, percent: real)
    requires 0.0 <= percent <= 100.0 && |timeline| > 0
    ensures 0 <= ReadIndex(percent, |timeline|) < |timeline|
    ensures PercentToTimestamp(timeline, percent) == Num(timeline[ReadIndex(percent, |timeline|)])
    ensures PercentToTimestamp(timeline, percent).v in timeline
  {
    if 0.0 < percent < 100.0 {
      PercentIndexInRange(percent, |timeline|);
    }
  }

  /** The read index grows with the percentage across all of [0, 100]. */
  lemma {:induction false} ReadIndexMonotone(p: real, q: real, len: nat)
    requires 0.0 <= p <= q <= 100.0 && len > 0
    ensures ReadIndex(p, len) <= ReadIndex(q, len)
  {
    if 0.0 < p < 100.0 {
      PercentIndexInRange(p, len);
    }
    if 0.0 < q < 100.0 {
      PercentIndexInRange(q, len);
      PercentIndexMonotone(p, q, len);
    }
  }

  /** On an ascending timeline the window a zoom range selects is never
      inverted: start <= end whenever startPercent <= endPercent. */
  lemma {:induction false} ZoomWindowOrdered(timeline: seq<int>, startPercent: real, endPercent: real)
    requires Sorted(timeline) && |timeline| > 0
    requires 0.0 <= startPercent <= endPercent <= 100.0
    ensures PercentToTimestamp(timeline, startPercent).Num?
    ensures PercentToTimestamp(timeline, endPercent).Num?
    ensures PercentToTimestamp(timeline, startPercent).v <= PercentToTimestamp(timeline, endPercent).v
  {
    InRangeIsMember(timeline, startPercent);
    InRangeIsMember(timeline, endPercent);
    ReadIndexMonotone(startPercent, endPercent, |timeline|);
  }
}
