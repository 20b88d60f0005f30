/** The timestamp expressions `DuckChart` writes into its SQL:
    `getTsCast` for the projected/filtered column and `getTsValueCast` for
    the window bounds compared against it. */
module TsCast {
  import opened Text
  import opened Timeline

  /** The one column type the source converts explicitly. */
  const MicrosecondTimestamp: string := "timestamp<microsecond>"

  /** `epoch_ms("ts")` or the bare quoted `"ts"`. */
  datatype TsExpr = EpochMs(column: string) | Column(column: string)

  /** `getTsCast`: always an expression over the timestamp column; epoch
      milliseconds only for the exact microsecond timestamp type. */
  function CastExpr(castType: string, tsColumn: string): (r: TsExpr)
    ensures r.column == tsColumn
    ensures r.EpochMs? <==> castType == MicrosecondTimestamp
  {
    if castType == MicrosecondTimestamp then EpochMs(tsColumn) else Column(tsColumn)
  }

  /** `getTsCast` logs "Unsupported timestamp cast type" for every type but
      the microsecond timestamp and `int64`. */
  predicate WarnsUnsupported(castType: string) {
    castType != MicrosecondTimestamp && castType != "int64"
  }

  /** `int64` is passed through as the bare column, silently. */
  lemma Int64IsPassthrough(tsColumn: string)
    ensures CastExpr("int64", tsColumn) == Column(tsColumn)
    ensures !WarnsUnsupported("int64")
  {
  }

  /** Arrow names the type `Timestamp<MICROSECOND>`; the source lower-cases
      it before the comparison, so that spelling gets the epoch conversion. */
  lemma ArrowSpellingIsRecognised(tsColumn: string)
    ensures CastExpr(ToLower("Timestamp<MICROSECOND>"), tsColumn) == EpochMs(tsColumn)
  {
    assert ToLower("Timestamp<MICROSECOND>") == MicrosecondTimestamp;
  }

  /** `getTsValueCast` as written: the bound is divided by 1000 exactly when
      the type name starts with `timestamp` (exact division stands in for
      the floating-point one). */
  function ValueLiteral(castType: string, ts: int): (r: real)
    ensures StartsWith(castType, "timestamp") ==> r * 1000.0 == ts as real
    ensures !StartsWith(castType, "timestamp") ==> r == ts as real
  {
    if StartsWith(castType, "timestamp") then (ts as real) / 1000.0 else ts as real
  }

  /** Whether a row whose projected timestamp is `v` passes
      `cast >= lower AND cast <= upper`. */
  predicate InWindow(v: int, lower: real, upper: real) {
    lower <= v as real <= upper
  }

  /** The bound the range query should compare against: the timeline was read
      through the same cast expression as the filtered column, so its values
      are already in the column's units and need no scaling. */
  function WindowLiteral(ts: int): real {
    ts as real
  }

  /** The worked example of `AsWrittenFullZoomDropsLastRow`: a
      microsecond-timestamp table whose only row has epoch-millisecond value
      1000 is loaded as the timeline [1000]; zooming to 0..100 then asks for
      `epoch_ms(ts) >= 1 AND epoch_ms(ts) <= 1`, which drops that very row. */
  lemma AsWrittenWindowMissesTimeline()
    ensures var timeline := [1000];
      var castType := MicrosecondTimestamp;
      && PercentToTimestamp(timeline, 0.0) == Num(1000)
      && PercentToTimestamp(timeline, 100.0) == Num(1000)
      && CastExpr(castType, "ts").EpochMs?
      && !InWindow(1000, ValueLiteral(castType, 1000), ValueLiteral(castType, 1000))
  {
  }

  /** As written, for any `timestamp...` column, a full zoom 0..100 over a
      timeline whose last value is positive drops that last row: the upper
      bound is a thousandth of it. */
  lemma {:induction false} AsWrittenFullZoomDropsLastRow(timeline: seq<int>, castType: string)
    requires StartsWith(castType, "timestamp")
    requires |timeline| > 0 && timeline[|timeline| - 1] > 0
    ensures var lo := PercentToTimestamp(timeline, 0.0);
      var hi := PercentToTimestamp(timeline, 100.0);
      && lo.Num? && hi.Num?
      && !InWindow(timeline[|timeline| - 1], ValueLiteral(castType, lo.v), ValueLiteral(castType, hi.v))
  {
    EndsAreExact(timeline);
  }

  /** With the unscaled bound a row is selected exactly when its timestamp
      lies between the two zoom timestamps. */
  lemma WindowSelectsBetween(v: int, startTs: int, endTs: int)
    ensures InWindow(v, WindowLiteral(startTs), WindowLiteral(endTs)) <==> startTs <= v <= endTs
  {
  }

  /** With the unscaled bound, the full zoom 0..100 selects every row of an
      ascending timeline, whatever the column type. */
  lemma {:induction false} FullZoomCoversTimeline(timeline: seq<int>)
    requires Sorted(timeline) && |timeline| > 0
    ensures var lo := PercentToTimestamp(timeline, 0.0);
      var hi := PercentToTimestamp(timeline, 100.0);
      lo.Num? && hi.Num? &&
      forall i :: 0 <= i < |timeline| ==> InWindow(timeline[i], WindowLiteral(lo.v), WindowLiteral(hi.v))
  {
    EndsAreExact(timeline);
  }
}
