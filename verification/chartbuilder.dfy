/** `TimeSeriesChartBuilder` restricted to the parts that carry data: the
    row dataset with its dimension names and the series list. Each builder
    call is a function from the builder's state to its next state; a call
    that throws in the source returns a `Failure` and leaves the caller's
    builder as it was. */
module ChartBuilder {
  import opened Wrappers
  import opened Seqs
  import opened Json

  /** A series option object. */
  type Series = map<string, Val>

  /** `s.key` on a series. */
  function Member(s: Series, key: string): Val {
    if key in s then s[key] else Undef
  }

  /** The builder's `dataset`: `dimensions` is absent until `setDataset`
      succeeds; `source` holds rows `[time, v1, v2, ...]`. */
  datatype Dataset = Dataset(dimensions: Option<seq<string>>, source: seq<seq<int>>)

  /** The data-bearing part of the builder: `option.dataset`,
      `option.series` and the private `yDimensions`. */
  datatype Builder = Builder(dataset: Dataset, series: seq<Series>, yDimensions: Option<seq<string>>)

  /** The state the constructor leaves: `dataset: { source: [] }`, no series. */
  function Init(): Builder {
    Builder(Dataset(None, []), [], None)
  }

  datatype BuildError =
    | DimensionMismatch(given: Option<nat>, expected: nat)
    | NoData
    | DimensionNotFound(dimName: string)
    | NoValue(dimName: string)

  /** The name of dimension 0. */
  const TimeDimension: string := "time"

  /** `Math.max(0, columns - 1)` where `columns` is the width of the first
      row, or 0 without rows. */
  function ValueColumnCount(data: seq<seq<int>>): nat {
    var columns := if |data| > 0 then |data[0]| else 0;
    if columns > 0 then columns - 1 else 0
  }

  /** The line series `setDataset` generates for one dimension. */
  function LineSeriesFor(dim: string): Series {
    map[
      "type" := Str("line"),
      "name" := Str(dim),
      "encode" := Obj(map["x" := Str(TimeDimension), "y" := Str(dim)]),
      "lineStyle" := Obj(map["width" := Num(1)])]
  }

  /** `setDataset`: fails exactly when the names are absent or their count
      differs from the first row's width minus the time column; otherwise
      installs the rows unchanged under `["time", ...names]` and replaces the
      series by one line per name, in order, keyed by that name. */
  function SetDataset(b: Builder, data: seq<seq<int>>, yDimensions: Option<seq<string>>)
    : (r: Result<Builder, BuildError>)
    ensures r.Failure? <==>
      yDimensions.None? || |yDimensions.value| != (if |data| == 0 || |data[0]| == 0 then 0 else |data[0]| - 1)
    ensures r.Failure? ==> r.error.DimensionMismatch?
    ensures r.Success? ==>
      && r.value.yDimensions == yDimensions
      && r.value.dataset.dimensions == Some([TimeDimension] + yDimensions.value)
      && r.value.dataset.source == data
      && |r.value.series| == |yDimensions.value|
    ensures r.Success? ==> forall i :: 0 <= i < |yDimensions.value| ==>
      && Member(r.value.series[i], "type") == Str("line")
      && Member(r.value.series[i], "name") == Str(yDimensions.value[i])
      && Get(Member(r.value.series[i], "encode"), "x") == Str(TimeDimension)
      && Get(Member(r.value.series[i], "encode"), "y") == Str(yDimensions.value[i])
      && Member(r.value.series[i], "markPoint") == Undef
  {
    var expected := ValueColumnCount(data);
    if yDimensions.None? || |yDimensions.value| != expected then
      Failure(DimensionMismatch(if yDimensions.Some? then Some(|yDimensions.value|) else None, expected))
    else
      var dims := yDimensions.value;
      var series := seq(|dims|, i requires 0 <= i < |dims| => LineSeriesFor(dims[i]));
      Success(Builder(Dataset(Some([TimeDimension] + dims), data), series, yDimensions))
  }

  /** `setSeriesStyle`: `{ ...s, ...style }` on every series. Count and
      order are kept; the style's keys win; every other key is kept. */
  function SetSeriesStyle(b: Builder, style: map<string, Val>): (r: Builder)
    ensures r.dataset == b.dataset && r.yDimensions == b.yDimensions
    ensures |r.series| == |b.series|
    ensures forall i :: 0 <= i < |r.series| ==> r.series[i].Keys == b.series[i].Keys + style.Keys
    ensures forall i, k :: 0 <= i < |r.series| && k in style ==> r.series[i][k] == style[k]
    ensures forall i, k :: 0 <= i < |r.series| && k in b.series[i] && k !in style ==>
      r.series[i][k] == b.series[i][k]
  {
    b.(series := seq(|b.series|, i requires 0 <= i < |b.series| => b.series[i] + style))
  }

  /** Applying the same style twice is applying it once. */
  lemma SetSeriesStyleIdempotent(b: Builder, style: map<string, Val>)
    ensures SetSeriesStyle(SetSeriesStyle(b, style), style) == SetSeriesStyle(b, style)
  {
    var once := SetSeriesStyle(b, style);
    var twice := SetSeriesStyle(once, style);
    forall i | 0 <= i < |twice.series|
      ensures twice.series[i] == once.series[i]
    {
      assert twice.series[i] == once.series[i] + style;
      assert once.series[i] == b.series[i] + style;
      assert (b.series[i] + style) + style == b.series[i] + style;
    }
  }

  /** A vertical marker line at each `xAxis` position. */
  datatype MarkerEvent = MarkerEvent(name: Option<string>, xAxis: seq<int>, icon: Option<string>, color: Option<string>)

  function MarkLine(e: MarkerEvent, widthLine: int): Val {
    Obj(map[
      "symbol" := Str(OrElse(e.icon, "none")),
      "label" := Obj(map["position" := Str("end"), "formatter" := Str(OrElse(e.name, ""))]),
      "lineStyle" := Obj(map["color" := OptStr(e.color), "width" := Num(widthLine), "type" := Str("dashed")]),
      "data" := Arr(seq(|e.xAxis|, j requires 0 <= j < |e.xAxis| => Obj(map["xAxis" := Num(e.xAxis[j])])))])
  }

  /** The series `addMarkerEvents` pushes for one event. */
  function MarkerSeries(e: MarkerEvent, widthLine: int): Series {
    map["type" := Str("line"), "data" := Arr([]), "markLine" := MarkLine(e, widthLine)]
  }

  function LineSymbol(s: Series): Val {
    Get(Member(s, "markLine"), "symbol")
  }

  function LineLabel(s: Series): Val {
    Get(Get(Member(s, "markLine"), "label"), "formatter")
  }

  function LineWidth(s: Series): Val {
    Get(Get(Member(s, "markLine"), "lineStyle"), "width")
  }

  /** The `markLine.data` entries of a series. */
  function LinePoints(s: Series): seq<Val> {
    var d := Get(Member(s, "markLine"), "data");
    if d.Arr? then d.items else []
  }

  /** `addMarkerEvents`: appends one unnamed series per event after the
      existing ones, which are left as they were (the shape of each added
      series is `MarkerEventDrawn`). Callers that omit `widthLine` get 2 in
      the source; here it is always passed. */
  function AddMarkerEvents(b: Builder, events: seq<MarkerEvent>, widthLine: int): (r: Builder)
    ensures r.dataset == b.dataset && r.yDimensions == b.yDimensions
    ensures |r.series| == |b.series| + |events|
    ensures r.series[..|b.series|] == b.series
    ensures forall k :: |b.series| <= k < |r.series| ==> Member(r.series[k], "name") == Undef
  {
    var added := seq(|events|, i requires 0 <= i < |events| => MarkerSeries(events[i], widthLine));
    var r := b.(series := b.series + added);
    assert forall k :: |b.series| <= k < |r.series| ==> r.series[k] == added[k - |b.series|];
    r
  }

  /** How the series drawn for one event looks: the symbol defaults to
      `none` and the label to the empty string, the line has the given
      width, and there is one mark-line entry per `xAxis` position. */
  predicate EventLineShaped(s: Series, e: MarkerEvent, widthLine: int) {
    && (e.icon.None? ==> LineSymbol(s) == Str("none"))
    && (e.icon.Some? && e.icon.value != "" ==> LineSymbol(s) == Str(e.icon.value))
    && (e.name.None? ==> LineLabel(s) == Str(""))
    && (e.name.Some? && e.name.value != "" ==> LineLabel(s) == Str(e.name.value))
    && LineWidth(s) == Num(widthLine)
    && |LinePoints(s)| == |e.xAxis|
    && forall j :: 0 <= j < |e.xAxis| ==> Get(LinePoints(s)[j], "xAxis") == Num(e.xAxis[j])
  }

  /** The i-th added series is drawn for the i-th event. */
  lemma MarkerEventDrawn(b: Builder, events: seq<MarkerEvent>, widthLine: int, i: nat)
    requires i < |events|
    ensures EventLineShaped(AddMarkerEvents(b, events, widthLine).series[|b.series| + i], events[i], widthLine)
  {
    var r := AddMarkerEvents(b, events, widthLine);
    assert r.series[|b.series| + i] == MarkerSeries(events[i], widthLine);
    MarkerLine(events[i], widthLine);
  }

  lemma MarkerLine(e: MarkerEvent, widthLine: int)
    ensures EventLineShaped(MarkerSeries(e, widthLine), e, widthLine)
  {
  }

  /** A shaded span between two x positions. */
  datatype MarkArea = MarkArea(name: Option<string>, from: int, to: int, color: Option<string>)

  const DefaultAreaColor: string := "rgba(0, 17, 255, 0.1)"

  /** The series `addMarkArea` pushes for one area. */
  function AreaSeries(a: MarkArea): Series {
    map[
      "type" := Str("line"),
      "data" := Arr([]),
      "markArea" := Obj(map[
        "itemStyle" := Obj(map["color" := Str(OrElse(a.color, DefaultAreaColor))]),
        "label" := Obj(map["position" := Str("top"), "formatter" := Str(OrElse(a.name, ""))]),
        "data" := Arr([Arr([Obj(map["xAxis" := Num(a.from)]), Obj(map["xAxis" := Num(a.to)])])])])]
  }

  /** `{ ...e, name: undefined }`: the two boundary lines of an area. */
  function Boundaries(a: MarkArea): MarkerEvent {
    MarkerEvent(None, [a.from, a.to], None, a.color)
  }

  /** The `[start, end]` pair of a mark-area series. */
  function AreaSpan(s: Series): Val {
    First(Get(Member(s, "markArea"), "data"))
  }

  /** `addMarkArea`: n areas add 2n series after the existing ones, which
      are left as they were; the n area series come first and then their n
      boundary line pairs (see `MarkAreaSpans` and `MarkAreaBoundaries`). */
  function AddMarkArea(b: Builder, areas: seq<MarkArea>): (r: Builder)
    ensures r.dataset == b.dataset && r.yDimensions == b.yDimensions
    ensures |r.series| == |b.series| + 2 * |areas|
    ensures r.series[..|b.series|] == b.series
  {
    var shaded := seq(|areas|, i requires 0 <= i < |areas| => AreaSeries(areas[i]));
    var lines := seq(|areas|, i requires 0 <= i < |areas| => MarkerSeries(Boundaries(areas[i]), 1));
    b.(series := b.series + shaded + lines)
  }

  /** The i-th added series shades the i-th area from `from` to `to`. */
  lemma MarkAreaSpans(b: Builder, areas: seq<MarkArea>, i: nat)
    requires i < |areas|
    ensures AreaSpanned(AddMarkArea(b, areas).series[|b.series| + i], areas[i])
  {
    var r := AddMarkArea(b, areas);
    assert r.series[|b.series| + i] == AreaSeries(areas[i]);
    AreaSeriesSpan(areas[i]);
  }

  /** The (n+i)-th added series draws the i-th area's two boundary lines,
      1 wide, with no symbol and an empty label. */
  lemma MarkAreaBoundaries(b: Builder, areas: seq<MarkArea>, i: nat)
    requires i < |areas|
    ensures BoundaryLineShaped(AddMarkArea(b, areas).series[|b.series| + |areas| + i], areas[i])
  {
    var r := AddMarkArea(b, areas);
    assert r.series[|b.series| + |areas| + i] == MarkerSeries(Boundaries(areas[i]), 1);
    BoundaryLine(areas[i]);
  }

  /** The boundary lines are exactly what `addMarkerEvents` draws for the
      areas' `{ ...area, name: undefined }` events with width 1, pushed after
      the area series. */
  lemma MarkAreaDelegatesToMarkerEvents(b: Builder, areas: seq<MarkArea>)
    ensures AddMarkArea(b, areas) ==
      AddMarkerEvents(b.(series := b.series + seq(|areas|, i requires 0 <= i < |areas| => AreaSeries(areas[i]))),
                      seq(|areas|, i requires 0 <= i < |areas| => Boundaries(areas[i])), 1)
  {
    var shaded := seq(|areas|, i requires 0 <= i < |areas| => AreaSeries(areas[i]));
    var lines := seq(|areas|, i requires 0 <= i < |areas| => MarkerSeries(Boundaries(areas[i]), 1));
    var events := seq(|areas|, i requires 0 <= i < |areas| => Boundaries(areas[i]));
    var added := seq(|events|, i requires 0 <= i < |events| => MarkerSeries(events[i], 1));
    assert added == lines;
  }

  /** A mark-area series spans exactly `[from, to]`. */
  predicate AreaSpanned(s: Series, a: MarkArea) {
    AreaSpan(s) == Arr([Obj(map["xAxis" := Num(a.from)]), Obj(map["xAxis" := Num(a.to)])])
  }

  /** The shape of the boundary-line series drawn for an area. */
  predicate BoundaryLineShaped(s: Series, a: MarkArea) {
    && LineSymbol(s) == Str("none")
    && LineLabel(s) == Str("")
    && LineWidth(s) == Num(1)
    && |LinePoints(s)| == 2
    && Get(LinePoints(s)[0], "xAxis") == Num(a.from)
    && Get(LinePoints(s)[1], "xAxis") == Num(a.to)
  }

  lemma BoundaryLine(a: MarkArea)
    ensures BoundaryLineShaped(MarkerSeries(Boundaries(a), 1), a)
  {
  }

  lemma AreaSeriesSpan(a: MarkArea)
    ensures AreaSpanned(AreaSeries(a), a)
  {
  }

  /** Which series, at which timestamp, `addMarkerPoint` annotates. */
  datatype PointRequest = PointRequest(dimName: string, timestamp: int, name: Option<string>)

  datatype PointOptions = PointOptions(icon: Option<string>, color: Option<string>, position: Option<string>)

  /** The `opt` default of `addMarkerPoint`. */
  const DefaultPointOptions: PointOptions := PointOptions(Some("pin"), None, Some("inside"))

  /** `series.find(s => s.name === dimName)`, as a position. */
  function SeriesIndex(series: seq<Series>, dimName: string): int {
    FindFirst(series, (s: Series) => Member(s, "name") == Str(dimName))
  }

  /** `source.find(row => row[0] === timestamp)`, as a position. */
  function RowIndex(source: seq<seq<int>>, timestamp: int): int {
    FindFirst(source, (row: seq<int>) => |row| > 0 && row[0] == timestamp)
  }

  /** `dimensions.findIndex(d => d === dimName)`. */
  function DimIndex(dims: seq<string>, dimName: string): int {
    FindFirst(dims, (d: string) => d == dimName)
  }

  /** `(source.find(...) || [])[dimensionKey]`: `undefined` when no row has
      the timestamp, the name is not a dimension, or the row is too short. */
  function LookupValue(dims: seq<string>, source: seq<seq<int>>, dimName: string, timestamp: int): (r: Val)
    ensures r.Undef? || r.Num?
    ensures dimName !in dims ==> r == Undef
    ensures (forall k :: 0 <= k < |source| ==> |source[k]| == 0 || source[k][0] != timestamp) ==> r == Undef
    ensures r.Num? ==>
      var row := RowIndex(source, timestamp);
      var key := DimIndex(dims, dimName);
      && 0 <= row < |source| && source[row][0] == timestamp
      && 0 <= key < |source[row]| && dims[key] == dimName
      && r.n == source[row][key]
  {
    var ri := RowIndex(source, timestamp);
    var row := if ri >= 0 then source[ri] else [];
    var key := DimIndex(dims, dimName);
    if 0 <= key < |row| then Num(row[key]) else Undef
  }

  /** The `markPoint` object written for a resolved value. */
  function MarkPoint(req: PointRequest, value: int, opt: PointOptions): Val {
    Obj(map[
      "symbol" := Str(OrElse(opt.icon, "pin")),
      "itemStyle" := Obj(map["color" := OptStr(opt.color)]),
      "data" := Arr([Obj(map[
        "coord" := Arr([Num(req.timestamp), Num(value)]),
        "label" := Obj(map[
          "show" := Bool(true),
          "position" := OptStr(opt.position),
          "formatter" := if req.name.Some? then Str(req.name.value) else Fixed(value, 2)])])])])
  }

  /** `markPoint.data[0].coord` of a series. */
  function PointCoord(s: Series): Val {
    Get(First(Get(Member(s, "markPoint"), "data")), "coord")
  }

  /** `addMarkerPoint`: fails without dimensions, without a series named
      `dimName`, and when the value found is falsy; otherwise gives the first
      series of that name a mark point, unless it already has one. Nothing
      but that one series changes. */
  function AddMarkerPoint(b: Builder, req: PointRequest, opt: PointOptions): (r: Result<Builder, BuildError>)
    ensures r == Failure(NoData) <==> b.dataset.dimensions.None? || |b.dataset.dimensions.value| == 0
    ensures b.dataset.dimensions.Some? && |b.dataset.dimensions.value| > 0 ==>
      (r == Failure(DimensionNotFound(req.dimName)) <==>
        forall i :: 0 <= i < |b.series| ==> Member(b.series[i], "name") != Str(req.dimName))
    ensures r.Success? ==>
      var i := SeriesIndex(b.series, req.dimName);
      && 0 <= i < |b.series|
      && Member(b.series[i], "name") == Str(req.dimName)
      && r.value.dataset == b.dataset && r.value.yDimensions == b.yDimensions
      && |r.value.series| == |b.series|
      && (forall j :: 0 <= j < |b.series| && j != i ==> r.value.series[j] == b.series[j])
      && Truthy(Member(r.value.series[i], "markPoint"))
    ensures r.Success? ==>
      var i := SeriesIndex(b.series, req.dimName);
      var v := LookupValue(b.dataset.dimensions.value, b.dataset.source, req.dimName, req.timestamp);
      && v.Num? && v.n != 0
      && (Truthy(Member(b.series[i], "markPoint")) ==> r.value == b)
      && (!Truthy(Member(b.series[i], "markPoint")) ==>
            PointCoord(r.value.series[i]) == Arr([Num(req.timestamp), v]))
    ensures b.dataset.dimensions.Some? && |b.dataset.dimensions.value| > 0 && SeriesIndex(b.series, req.dimName) >= 0 ==>
      (r.Success? <==>
        Truthy(LookupValue(b.dataset.dimensions.value, b.dataset.source, req.dimName, req.timestamp)))
    ensures r.Failure? ==> r.error in {NoData, DimensionNotFound(req.dimName), NoValue(req.dimName)}
    ensures r.Success? ==>
      var i := SeriesIndex(b.series, req.dimName);
      && r.value.series[i].Keys == b.series[i].Keys + {"markPoint"}
      && forall k :: k in b.series[i] && k != "markPoint" ==> r.value.series[i][k] == b.series[i][k]
  {
    if b.dataset.dimensions.None? || |b.dataset.dimensions.value| == 0 then Failure(NoData)
    else
      var i := SeriesIndex(b.series, req.dimName);
      if i < 0 then Failure(DimensionNotFound(req.dimName))
      else
        var value := LookupValue(b.dataset.dimensions.value, b.dataset.source, req.dimName, req.timestamp);
        if !Truthy(value) then Failure(NoValue(req.dimName))
        else if Truthy(Member(b.series[i], "markPoint")) then Success(b)
        else
          var marked := b.series[i]["markPoint" := MarkPoint(req, value.n, opt)];
          Success(b.(series := b.series[i := marked]))
  }

  /** A second `addMarkerPoint` on a series that got its mark point changes
      nothing, whatever options it is given. */
  lemma MarkerPointIdempotent(b: Builder, req: PointRequest, opt: PointOptions, opt': PointOptions)
    requires AddMarkerPoint(b, req, opt).Success?
    ensures var b' := AddMarkerPoint(b, req, opt).value;
      AddMarkerPoint(b', req, opt') == Success(b')
  {
    var b' := AddMarkerPoint(b, req, opt).value;
    var i := SeriesIndex(b.series, req.dimName);
    assert b'.series[..i] == b.series[..i];
    assert SeriesIndex(b'.series, req.dimName) == i;
  }

  /** A zero at the looked-up position is falsy, so the point is refused. */
  lemma ZeroValueIsRefused(b: Builder, req: PointRequest, opt: PointOptions)
    requires b.dataset.dimensions.Some? && |b.dataset.dimensions.value| > 0
    requires SeriesIndex(b.series, req.dimName) >= 0
    requires LookupValue(b.dataset.dimensions.value, b.dataset.source, req.dimName, req.timestamp) == Num(0)
    ensures AddMarkerPoint(b, req, opt) == Failure(NoValue(req.dimName))
  {
  }

  /** A timestamp no row starts with is refused (exact match only, no
      nearest neighbour). */
  lemma MissingTimestampIsRefused(b: Builder, req: PointRequest, opt: PointOptions)
    requires b.dataset.dimensions.Some? && |b.dataset.dimensions.value| > 0
    requires SeriesIndex(b.series, req.dimName) >= 0
    requires forall k :: 0 <= k < |b.dataset.source| ==>
      |b.dataset.source[k]| == 0 || b.dataset.source[k][0] != req.timestamp
    ensures AddMarkerPoint(b, req, opt) == Failure(NoValue(req.dimName))
  {
  }

  /** A series whose name is not a dataset dimension has no value to show. */
  lemma AbsentDimensionIsRefused(b: Builder, req: PointRequest, opt: PointOptions)
    requires b.dataset.dimensions.Some? && |b.dataset.dimensions.value| > 0
    requires SeriesIndex(b.series, req.dimName) >= 0
    requires req.dimName !in b.dataset.dimensions.value
    ensures AddMarkerPoint(b, req, opt) == Failure(NoValue(req.dimName))
  {
  }

  /** Round trip: after `setDataset(data, dims)`, a mark point for the
      `j`-th name at a timestamp whose first row holds a non-zero value sits
      on the `j`-th series at exactly `[timestamp, that value]`. */
  lemma MarkerPointRoundTrip(
    b: Builder, data: seq<seq<int>>, dims: seq<string>, loaded: Builder,
    j: nat, row: nat, req: PointRequest, opt: PointOptions)
    requires SetDataset(b, data, Some(dims)) == Success(loaded)
    requires j < |dims| && dims[j] == req.dimName && req.dimName != TimeDimension
    requires forall k :: 0 <= k < j ==> dims[k] != req.dimName
    requires row < |data| && j + 1 < |data[row]| && data[row][0] == req.timestamp
    requires forall k :: 0 <= k < row ==> |data[k]| == 0 || data[k][0] != req.timestamp
    requires data[row][j + 1] != 0
    ensures AddMarkerPoint(loaded, req, opt).Success?
    ensures SeriesIndex(loaded.series, req.dimName) == j
    ensures PointCoord(AddMarkerPoint(loaded, req, opt).value.series[j]) == Arr([Num(req.timestamp), Num(data[row][j + 1])])
  {
    FirstOccurrenceAfterTime(dims, j, req.dimName);
    FirstRowAt(data, req.timestamp, row);
    LoadedSeriesIndex(b, data, dims, j, req.dimName);
    LookupAt([TimeDimension] + dims, data, req.dimName, req.timestamp, row, j + 1);
    PointLands(loaded, req, opt, j, data[row][j + 1]);
  }

  /** The rows `[[1000, 10], [2000, 20], [3000, 30]]` under one dimension `v`. */
  function ExampleBuilder(): (b: Builder)
    ensures SetDataset(Init(), [[1000, 10], [2000, 20], [3000, 30]], Some(["v"])) == Success(b)
  {
    SetDataset(Init(), [[1000, 10], [2000, 20], [3000, 30]], Some(["v"])).value
  }

  /** On the example rows a point at 2000 lands on `[2000, 20]`. */
  lemma MarkerPointExampleLands()
    ensures var r := AddMarkerPoint(ExampleBuilder(), PointRequest("v", 2000, None), DefaultPointOptions);
      r.Success? && PointCoord(r.value.series[0]) == Arr([Num(2000), Num(20)])
  {
    var data := [[1000, 10], [2000, 20], [3000, 30]];
    MarkerPointRoundTrip(Init(), data, ["v"], ExampleBuilder(), 0, 1, PointRequest("v", 2000, None), DefaultPointOptions);
  }

  /** On the example rows a point at a timestamp no row has is refused. */
  lemma MarkerPointExampleRefused()
    ensures AddMarkerPoint(ExampleBuilder(), PointRequest("v", 9999, None), DefaultPointOptions) == Failure(NoValue("v"))
  {
    var data := [[1000, 10], [2000, 20], [3000, 30]];
    LoadedSeriesIndex(Init(), data, ["v"], 0, "v");
    MissingTimestampIsRefused(ExampleBuilder(), PointRequest("v", 9999, None), DefaultPointOptions);
  }

  lemma FirstRowAt(source: seq<seq<int>>, timestamp: int, row: nat)
    requires row < |source| && |source[row]| > 0 && source[row][0] == timestamp
    requires forall k :: 0 <= k < row ==> |source[k]| == 0 || source[k][0] != timestamp
    ensures RowIndex(source, timestamp) == row
  {
  }

  /** When the series is found, the value is non-zero and the series has no
      mark point yet, the point lands at `[timestamp, value]`. */
  lemma PointLands(b: Builder, req: PointRequest, opt: PointOptions, i: nat, v: int)
    requires b.dataset.dimensions.Some? && |b.dataset.dimensions.value| > 0
    requires SeriesIndex(b.series, req.dimName) == i
    requires LookupValue(b.dataset.dimensions.value, b.dataset.source, req.dimName, req.timestamp) == Num(v)
    requires v != 0 && !Truthy(Member(b.series[i], "markPoint"))
    ensures AddMarkerPoint(b, req, opt).Success?
    ensures PointCoord(AddMarkerPoint(b, req, opt).value.series[i]) == Arr([Num(req.timestamp), Num(v)])
  {
  }

  lemma LookupAt(dims: seq<string>, source: seq<seq<int>>, dimName: string, timestamp: int, row: nat, key: nat)
    requires RowIndex(source, timestamp) == row < |source|
    requires DimIndex(dims, dimName) == key < |source[row]|
    ensures LookupValue(dims, source, dimName, timestamp) == Num(source[row][key])
  {
  }

  /** Behind the time dimension, the first occurrence of a name moves up by one. */
  lemma FirstOccurrenceAfterTime(dims: seq<string>, j: nat, name: string)
    requires j < |dims| && dims[j] == name && name != TimeDimension
    requires forall k :: 0 <= k < j ==> dims[k] != name
    ensures DimIndex([TimeDimension] + dims, name) == j + 1
  {
    var all := [TimeDimension] + dims;
    assert all[j + 1] == name;
    assert forall k :: 0 <= k < j + 1 ==> all[k] != name by {
      forall k | 0 <= k < j + 1
        ensures all[k] != name
      {
        if k > 0 {
          assert all[k] == dims[k - 1];
        }
      }
    }
  }

  /** The series `setDataset` generates are found by name at their dimension's position. */
  lemma LoadedSeriesIndex(b: Builder, data: seq<seq<int>>, dims: seq<string>, j: nat, name: string)
    requires SetDataset(b, data, Some(dims)).Success?
    requires j < |dims| && dims[j] == name
    requires forall k :: 0 <= k < j ==> dims[k] != name
    ensures SeriesIndex(SetDataset(b, data, Some(dims)).value.series, name) == j
  {
    var series := SetDataset(b, data, Some(dims)).value.series;
    assert Member(series[j], "name") == Str(name);
    forall k | 0 <= k < j
      ensures Member(series[k], "name") != Str(name)
    {
      assert Member(series[k], "name") == Str(dims[k]);
    }
  }
}
