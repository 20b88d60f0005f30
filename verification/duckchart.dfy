/** `DuckChart` without its database: the overview load (`load`) and the
    detail load (`loadRange`) as transitions of an immutable chart state.
    The database is an `Engine` value that answers a schema lookup and
    returns the batch stream of a query. */
module DuckChart {
  import opened Wrappers
  import opened Text
  import opened Fields
  import opened Timeline
  import opened TsCast
  import opened Batches

  /** The initial data-zoom window `load` hands to `loadRange`. */
  const ZoomStart: real := 38.0
  const ZoomEnd: real := 62.0

  /** `WHERE cast >= lower AND cast <= upper`. */
  datatype Window = Window(lower: real, upper: real)

  /** A query by its structure: `SELECT <ts>, <fields> FROM "<table>"
      [WHERE <window>] AND "<nonZero>" != 0 ORDER BY "<orderBy>"`. */
  datatype Query = Query(
    ts: TsExpr,
    fields: seq<string>,
    table: string,
    window: Option<Window>,
    nonZero: string,
    orderBy: string)

  /** The parts of an ECharts line series this core decides. `y` is the
      dataset column plotted (x is always column 0). */
  datatype LineSeries = LineSeries(name: string, datasetIndex: nat, y: nat, yAxisIndex: nat, width: nat)

  /** The data-bearing part of the chart option: the datasets (each a list
      of column arrays), the series and the legend entries. */
  datatype ChartOption = ChartOption(datasets: seq<seq<seq<int>>>, series: seq<LineSeries>, legend: seq<string>)

  /** The database as the chart sees it: the column names of a table, the
      type name of a table's column, and the batch stream of a query. */
  datatype Engine = Engine(
    columnNames: string -> seq<string>,
    columnType: string -> string -> string,
    stream: Query -> seq<Batch>)

  /** The chart's state: the table set on the database, the detected fields,
      the overview columns (`globalTimestamps` and the main column) and the
      option. */
  datatype Chart = Chart(
    table: Option<string>,
    fields: Option<DetectedFields>,
    timeline: seq<int>,
    mainValues: seq<int>,
    option: ChartOption)
  {
    /** Once fields are detected a table is set and the first series is the
        overview series of the main column. */
    ghost predicate Valid() {
      fields.Some? ==>
        && table.Some?
        && WellFormed(fields.value)
        && |option.series| > 0
        && option.series[0] == Overview(fields.value.mainColumn)
    }
  }

  function Init(): (c: Chart)
    ensures c.Valid()
  {
    Chart(None, None, [], [], ChartOption([], [], []))
  }

  datatype LoadError =
    | Detect(detect: DetectError)
    | NotInitialized              // `loadRange` before any `load`
    | NoTimestamp(percent: real)  // the zoom bound read `undefined` off the timeline
    | BatchError(missing: AssembleError)

  /** The thick green overview line over dataset 0. */
  function Overview(mainColumn: string): LineSeries {
    LineSeries(mainColumn, 0, 1, 0, 3)
  }

  /** Axis 1 is the percentage axis. */
  function AxisOf(name: string): nat {
    if EndsWith(name, "%") then 1 else 0
  }

  /** The detail series of a field plotted from column `y` of dataset 1. */
  function Detail(f: IndexedField, y: nat): LineSeries {
    LineSeries(f.name, 1, y, AxisOf(f.name), 1)
  }

  /** `[...mainFields, ...percentFields]`. */
  function Selected(f: DetectedFields): seq<IndexedField> {
    f.mainFields + f.percentFields
  }

  function Names(fs: seq<IndexedField>): (r: seq<string>)
    ensures |r| == |fs|
  {
    seq(|fs|, i requires 0 <= i < |fs| => fs[i].name)
  }

  /** The overview query of `load`: the cast timestamp and the main column
      of every row whose main value is non-zero, in timestamp order, with no
      window. */
  function OverviewQuery(table: string, f: DetectedFields): (q: Query)
    ensures q.ts.column == f.tsColumn && (q.ts.EpochMs? <==> f.tsCastType == MicrosecondTimestamp)
    ensures q.fields == [f.mainColumn] && q.table == table && q.window.None?
    ensures q.nonZero == f.mainColumn && q.orderBy == f.tsColumn
  {
    Query(CastExpr(f.tsCastType, f.tsColumn), [f.mainColumn], table, None, f.mainColumn, f.tsColumn)
  }

  /** The detail query of `loadRange` as written: the selected fields, in
      order, between the two bounds `getTsValueCast` renders, which are a
      thousandth of the zoom timestamps for any `timestamp...` type. */
  function RangeQuery(table: string, f: DetectedFields, startTs: int, endTs: int): (q: Query)
    ensures q.ts.column == f.tsColumn && (q.ts.EpochMs? <==> f.tsCastType == MicrosecondTimestamp)
    ensures |q.fields| == |Selected(f)| && forall i :: 0 <= i < |q.fields| ==> q.fields[i] == Selected(f)[i].name
    ensures q.table == table && q.nonZero == f.mainColumn && q.orderBy == f.tsColumn
    ensures q.window.Some?
    ensures StartsWith(f.tsCastType, "timestamp") ==>
      q.window.value.lower * 1000.0 == startTs as real && q.window.value.upper * 1000.0 == endTs as real
    ensures !StartsWith(f.tsCastType, "timestamp") ==>
      q.window.value.lower == startTs as real && q.window.value.upper == endTs as real
  {
    Query(
      CastExpr(f.tsCastType, f.tsColumn),
      Names(Selected(f)),
      table,
      Some(Window(ValueLiteral(f.tsCastType, startTs), ValueLiteral(f.tsCastType, endTs))),
      f.mainColumn,
      f.tsColumn)
  }

  /** The detail query with the window in the units of the cast timestamp
      (`TsCast.WindowLiteral`): a row passes the window exactly when its
      projected timestamp lies between the two zoom timestamps. */
  function RangeQueryCorrected(table: string, f: DetectedFields, startTs: int, endTs: int): (q: Query)
    ensures q.window.Some?
    ensures forall v :: InWindow(v, q.window.value.lower, q.window.value.upper) <==> startTs <= v <= endTs
    ensures q == RangeQuery(table, f, startTs, endTs).(window := q.window)
  {
    var q := RangeQuery(table, f, startTs, endTs).(window := Some(Window(WindowLiteral(startTs), WindowLiteral(endTs))));
    assert forall v :: InWindow(v, q.window.value.lower, q.window.value.upper) <==> startTs <= v <= endTs by {
      forall v
        ensures InWindow(v, q.window.value.lower, q.window.value.upper) <==> startTs <= v <= endTs
      {
        WindowSelectsBetween(v, startTs, endTs);
      }
    }
    q
  }

  /** The query as written and the corrected one coincide exactly when the
      type is not a `timestamp...` type, or both zoom timestamps are 0. */
  lemma RangeQueriesAgree(table: string, f: DetectedFields, startTs: int, endTs: int)
    ensures RangeQuery(table, f, startTs, endTs) == RangeQueryCorrected(table, f, startTs, endTs) <==>
      !StartsWith(f.tsCastType, "timestamp") || (startTs == 0 && endTs == 0)
  {
    var q := RangeQuery(table, f, startTs, endTs);
    var q' := RangeQueryCorrected(table, f, startTs, endTs);
    if StartsWith(f.tsCastType, "timestamp") && !(startTs == 0 && endTs == 0) {
      if startTs != 0 {
        assert q.window.value.lower != q'.window.value.lower;
      } else {
        assert q.window.value.upper != q'.window.value.upper;
      }
    }
  }

  /** The series list `loadRange` promises: the overview series first, then
      one series per selected field in order, each plotting its own
      1-based column of dataset 1, on the percentage axis exactly when its
      name ends with `%`. */
  ghost predicate DetailPlotted(series: seq<LineSeries>, overview: LineSeries, sel: seq<IndexedField>) {
    && |series| == |sel| + 1
    && series[0] == overview
    && forall i :: 0 <= i < |sel| ==>
         && series[i + 1].name == sel[i].name
         && series[i + 1].y == i + 1
         && series[i + 1].datasetIndex == 1
         && series[i + 1].yAxisIndex <= 1
         && (series[i + 1].yAxisIndex == 1 <==> EndsWith(sel[i].name, "%"))
  }

  /** `loadRange`: reads the zoom bounds off the timeline, queries the
      detail stream with the bounds as written (`RangeQuery`), folds it into
      dataset 1 and rebuilds series and legend. It changes
      nothing but the option, and the option only when it succeeds. */
  method LoadRange(c: Chart, startPercent: real, endPercent: real, engine: Engine)
    returns (r: Result<Chart, LoadError>)
    requires c.Valid()
    ensures r.Success? ==> r.value.Valid()
    ensures c.fields.None? ==> r == Failure(NotInitialized)
    ensures c.fields.Some? && PercentToTimestamp(c.timeline, startPercent).Undefined? ==>
      r == Failure(NoTimestamp(startPercent))
    ensures (c.fields.Some? && PercentToTimestamp(c.timeline, startPercent).Num?
             && PercentToTimestamp(c.timeline, endPercent).Undefined?) ==>
      r == Failure(NoTimestamp(endPercent))
    ensures (c.fields.Some? && PercentToTimestamp(c.timeline, startPercent).Num?
             && PercentToTimestamp(c.timeline, endPercent).Num?) ==>
      var f := c.fields.value;
      var q := RangeQuery(c.table.value, f,
        PercentToTimestamp(c.timeline, startPercent).v, PercentToTimestamp(c.timeline, endPercent).v);
      var bs := engine.stream(q);
      var sel := Selected(f);
      && (r.Success? <==> HasChildren(bs, |sel| + 1))
      && (r.Failure? ==> r.error.BatchError?)
      && (r.Success? ==>
        && r.value.table == c.table && r.value.fields == c.fields
        && r.value.timeline == c.timeline && r.value.mainValues == c.mainValues
        && |r.value.option.datasets| == 2
        && r.value.option.datasets[0] == [c.timeline, c.mainValues]
        && |r.value.option.datasets[1]| == |sel| + 1
        && (forall k :: 0 <= k <= |sel| ==> r.value.option.datasets[1][k] == Gather(bs, k))
        && DetailPlotted(r.value.option.series, c.option.series[0], sel)
        && r.value.option.legend == [f.mainColumn] + Names(sel))
  {
    if c.fields.None? {
      return Failure(NotInitialized);
    }
    var f := c.fields.value;
    var startTs := PercentToTimestamp(c.timeline, startPercent);
    var endTs := PercentToTimestamp(c.timeline, endPercent);
    if startTs.Undefined? {
      return Failure(NoTimestamp(startPercent));
    }
    if endTs.Undefined? {
      return Failure(NoTimestamp(endPercent));
    }
    var selected := Selected(f);
    var bs := engine.stream(RangeQuery(c.table.value, f, startTs.v, endTs.v));
    var assembled := Assemble(bs, |selected|);
    if assembled.Failure? {
      return Failure(BatchError(assembled.error));
    }
    var series := [c.option.series[0]];
    var seriesIdx := 0;
    while seriesIdx < |selected|
      invariant 0 <= seriesIdx <= |selected|
      invariant |series| == seriesIdx + 1
      invariant series[0] == c.option.series[0]
      invariant forall i :: 0 <= i < seriesIdx ==> series[i + 1] == Detail(selected[i], i + 1)
    {
      series := series + [Detail(selected[seriesIdx], seriesIdx + 1)];
      seriesIdx := seriesIdx + 1;
    }
    assert DetailPlotted(series, c.option.series[0], selected) by {
      forall i | 0 <= i < |selected|
        ensures series[i + 1].name == selected[i].name && series[i + 1].y == i + 1
        ensures series[i + 1].datasetIndex == 1 && series[i + 1].yAxisIndex <= 1
        ensures series[i + 1].yAxisIndex == 1 <==> EndsWith(selected[i].name, "%")
      {
        assert series[i + 1] == Detail(selected[i], i + 1);
      }
    }
    var datasets := [[c.timeline, c.mainValues], assembled.value.columns];
    r := Success(c.(option := ChartOption(datasets, series, [f.mainColumn] + Names(selected))));
    assert r.value.option.series == series && selected == Selected(c.fields.value);
  }

  /** Main fields are plotted first and on the value axis; percent fields
      follow and go on the percentage axis. */
  lemma {:induction false} DetailAxes(f: DetectedFields)
    requires WellFormed(f)
    ensures var sel := Selected(f);
      && (forall i :: 0 <= i < |f.mainFields| ==> sel[i] == f.mainFields[i] && AxisOf(sel[i].name) == 0)
      && (forall j :: 0 <= j < |f.percentFields| ==>
            sel[|f.mainFields| + j] == f.percentFields[j] && AxisOf(sel[|f.mainFields| + j].name) == 1)
  {
    var sel := Selected(f);
    forall i | 0 <= i < |f.mainFields|
      ensures sel[i] == f.mainFields[i] && AxisOf(sel[i].name) == 0
    {
      assert f.mainFields[i] in f.mainFields;
    }
    forall j | 0 <= j < |f.percentFields|
      ensures sel[|f.mainFields| + j] == f.percentFields[j] && AxisOf(sel[|f.mainFields| + j].name) == 1
    {
      assert f.percentFields[j] in f.percentFields;
    }
  }

  /** `load`: a no-op for the table already loaded; otherwise sets the
      table, detects fields, folds the overview stream into the timeline and
      main column, and then runs `loadRange` on the initial zoom window. The
      table is set before anything can fail, so after a failure a second
      `load` of the same URL returns at once. */
  method Load(c: Chart, url: string, config: ColumnConfig, engine: Engine)
    returns (r: Chart, err: Option<LoadError>)
    requires c.Valid()
    ensures r.Valid()
    ensures r.table == Some(url)
    ensures c.table == Some(url) ==> r == c && err == None
    ensures c.table != Some(url) ==>
      var d := DetectFields(engine.columnNames(url), config, engine.columnType(url));
      && (d.Failure? ==> err == Some(Detect(d.error)) && r == c.(table := Some(url)))
      && (d.Success? ==>
        var f := d.value;
        var bs := engine.stream(OverviewQuery(url, f));
        && (!HasChildren(bs, 2) ==> err.Some? && err.value.BatchError? && r == c.(table := Some(url)))
        && (HasChildren(bs, 2) ==>
          && r.fields == Some(f)
          && r.timeline == Gather(bs, 0)
          && r.mainValues == Gather(bs, 1)
          && r.option.series[0] == Overview(f.mainColumn)
          && (err.Some? ==> r.option == ChartOption([[r.timeline, r.mainValues]], [Overview(f.mainColumn)], [f.mainColumn]))
          && ZoomLoaded(r, err, url, f, engine)))
  {
    if c.table == Some(url) {
      return c, None;
    }
    var detected := DetectFields(engine.columnNames(url), config, engine.columnType(url));
    if detected.Failure? {
      return c.(table := Some(url)), Some(Detect(detected.error));
    }
    var f := detected.value;
    var bs := engine.stream(OverviewQuery(url, f));
    var overview := Assemble(bs, 1);
    if overview.Failure? {
      return c.(table := Some(url)), Some(BatchError(overview.error));
    }
    var timeline := overview.value.columns[0];
    var mainValues := overview.value.columns[1];
    var option := ChartOption([[timeline, mainValues]], [Overview(f.mainColumn)], [f.mainColumn]);
    var mid := Chart(Some(url), Some(f), timeline, mainValues, option);
    var ranged := LoadRange(mid, ZoomStart, ZoomEnd, engine);
    if ranged.Failure? {
      return mid, Some(ranged.error);
    }
    return ranged.value, None;
  }

  /** After a successful overview, `load` runs `loadRange` on the initial
      38..62 window: it succeeds exactly when both bounds read a timestamp
      off the timeline and every detail batch carries all selected columns,
      and then dataset 1 is the folded detail stream and the series and
      legend are those of the selected fields. */
  ghost predicate ZoomLoaded(r: Chart, err: Option<LoadError>, url: string, f: DetectedFields, engine: Engine) {
    var s := PercentToTimestamp(r.timeline, ZoomStart);
    var e := PercentToTimestamp(r.timeline, ZoomEnd);
    var sel := Selected(f);
    && (err.None? <==>
          s.Num? && e.Num? && HasChildren(engine.stream(RangeQuery(url, f, s.v, e.v)), |sel| + 1))
    && (err.None? ==>
          && s.Num? && e.Num?
          && |r.option.datasets| == 2
          && r.option.datasets[0] == [r.timeline, r.mainValues]
          && |r.option.datasets[1]| == |sel| + 1
          && (forall k :: 0 <= k <= |sel| ==>
                r.option.datasets[1][k] == Gather(engine.stream(RangeQuery(url, f, s.v, e.v)), k))
          && DetailPlotted(r.option.series, Overview(f.mainColumn), sel)
          && r.option.legend == [f.mainColumn] + Names(sel))
  }

  /** Loading the same URL twice in a row: the second call changes nothing. */
  method LoadTwice(c: Chart, url: string, config: ColumnConfig, engine: Engine)
    returns (first: Chart, second: Chart, err: Option<LoadError>)
    requires c.Valid()
    ensures first.table == Some(url)
    ensures second == first && err == None
  {
    var firstErr;
    first, firstErr := Load(c, url, config, engine);
    second, err := Load(first, url, config, engine);
  }
}
