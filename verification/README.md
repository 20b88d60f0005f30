# svelte-timeseries core, modelled in Dafny

This project models the data-bearing core of two TypeScript classes.

- `DuckChart` (packages/svelte-timeseries) loads a table from DuckDB and
  keeps two ECharts datasets:
  - an overview: the timestamp and the main column of every row whose
    main value is non-zero;
  - a detail dataset: every plotted field, restricted to the zoom window.
- `TimeSeriesChartBuilder` (packages/sveltecharts) assembles an ECharts
  option from row data. It handles dimension names, one line series per
  dimension, and three kinds of annotation: marker lines, mark areas and
  mark points.

Everything is stated over immutable values:

- A chart state (`DuckChart.Chart`) or a builder state (`ChartBuilder.Builder`)
  is a datatype, and each public operation is a function or method from one
  state to the next.
- A thrown `Error`/`TypeError` becomes a `Failure` of a `Result`. The
  exception is `DuckChart.Load`. It returns the chart state together with an
  optional `LoadError`, because the source sets the table before anything can
  throw, and a failed `loadRange` leaves the overview loaded.
- A JavaScript `undefined` read off an array becomes an explicit constructor
  (`Timeline.Undefined`, `Json.Undef`).
- The database is the `DuckChart.Engine` parameter. It supplies three
  functions: the column names of a table, a column's type name, and the batch
  stream of a query. A query is described by its structure (`DuckChart.Query`),
  not by its SQL text.
- ECharts series in the builder are `map<string, Json.Val>`, so the spread
  `{ ...s, ...style }` is exactly map union.

Modules, one per concern:

| file | module | models |
|---|---|---|
| wrappers.dfy | Wrappers | `Option`, `Result` |
| seqs.dfy | Seqs | `Array.filter`, `Array.findIndex`/`find` |
| text.dfy | Text | `startsWith`, `endsWith`, `toLowerCase` |
| fields.dfy | Fields | `detectFields` |
| timeline.dfy | Timeline | `percentToTimestamp` |
| tscast.dfy | TsCast | `getTsCast`, `getTsValueCast` |
| batches.dfy | Batches | the `for await` batch fold of `load` and `loadRange` |
| duckchart.dfy | DuckChart | `load`, `loadRange` |
| json.dfy | Json | JavaScript values and truthiness |
| chartbuilder.dfy | ChartBuilder | `setDataset`, `setSeriesStyle`, `addMarkerEvents`, `addMarkArea`, `addMarkerPoint` |

Behaviour of the code worth noting:

- `addMarkerPoint` refuses a value of `0`, because the guard is `if (!value)`
  (`ChartBuilder.ZeroValueIsRefused`).
  - A timestamp that is missing is refused with the "no value" error, not a
    "no data in timestamp" one. The `|| []` fallback makes the
    `if (!dataFind)` check unreachable.
- `setDataset` assigns no y-axis. Sending `%` columns to axis 1 happens only
  in `DuckChart.loadRange` (`DuckChart.DetailAxes`).
- The out-of-range result of `percentToTimestamp` is the number `0`. A
  timeline may contain `0`, so the sentinel is not guaranteed to lie outside
  the timeline.
- The windowed query's bounds are divided by 1000 for every `timestamp...`
  type. `DuckChart.LoadRange` models this as written (`DuckChart.RangeQuery`).
  The fix is `DuckChart.RangeQueryCorrected`; see Findings.

## Model

| member | source | states |
|---|---|---|
| Seqs.Filter | packages/svelte-timeseries/src/lib/DuckChart.ts:277-285 | membership: each kept element satisfies the predicate and comes from the input, and every input element satisfying it is kept |
| Seqs.FilterCounts | packages/svelte-timeseries/src/lib/DuckChart.ts:277-285 | multiplicity: every element satisfying the predicate is kept exactly as often as it occurs in the input, and every other element occurs zero times |
| Seqs.FilterKeepsOrder | packages/svelte-timeseries/src/lib/DuckChart.ts:277-285 | filtering a list whose keys strictly increase (schema indices) leaves a list whose keys still strictly increase |
| Seqs.FindFirst | packages/sveltecharts/src/lib/TimeSeriesChartBuilder.ts:350-364 | `find`/`findIndex` give the first matching position, -1 exactly when nothing matches, and no earlier element matches |
| Fields.Classify | packages/svelte-timeseries/src/lib/DuckChart.ts:275-282 | main and percent fields keep each column's index and the schema order; main names have no `_` prefix and no `%` suffix; percent names have no `_` prefix and end in `%`; the two lists are disjoint; together they cover every non-`_` column |
| Fields.DetectFields | packages/svelte-timeseries/src/lib/DuckChart.ts:273-286 | fails iff no main column is configured and there are fewer than two main fields (`mainFields[1]` is read), or iff an empty schema has no configured timestamp; the timestamp defaults to column 0 and the main column to the second main field; the timestamp is removed from the main fields and nothing else is; percent fields are kept whole; the cast type is the lower-cased type name of the timestamp column |
| Fields.DefaultMainIsFirstValueColumn | packages/svelte-timeseries/src/lib/DuckChart.ts:283-285 | with no configuration, an ordinary first column and unique names, the default main column is the first main field left after the timestamp is removed |
| Text.ToLower | packages/svelte-timeseries/src/lib/DuckChart.ts:299 | the result has the same length and no upper-case ASCII letter; each upper-case letter becomes its lower-case letter, and every other character is kept |
| Timeline.PercentToTimestamp | packages/svelte-timeseries/src/lib/DuckChart.ts:328-333 | outside [0, 100] the result is the sentinel 0; inside, it is `undefined` exactly when the timeline is empty, and otherwise one of the timeline's own values |
| Timeline.PercentIndexInRange | packages/svelte-timeseries/src/lib/DuckChart.ts:332 | strictly between 0 and 100, `floor(p/100 * length)` is a valid index |
| Timeline.PercentIndexMonotone | packages/svelte-timeseries/src/lib/DuckChart.ts:332 | a larger percentage never reads an earlier index |
| Timeline.OutOfRangeIsSentinel | packages/svelte-timeseries/src/lib/DuckChart.ts:329 | below 0 or above 100 the result is the sentinel 0, whatever the timeline holds |
| Timeline.EndsAreExact | packages/svelte-timeseries/src/lib/DuckChart.ts:330-331 | 0 reads the first timestamp and 100 the last |
| Timeline.InRangeIsMember | packages/svelte-timeseries/src/lib/DuckChart.ts:328-333 | any percentage in [0, 100] on a non-empty timeline reads one of the timeline's own values at an index inside it |
| Timeline.ReadIndexMonotone | packages/svelte-timeseries/src/lib/DuckChart.ts:328-333 | across all of [0, 100], including the special-cased ends, the index read never decreases as the percentage grows |
| Timeline.ZoomWindowOrdered | packages/svelte-timeseries/src/lib/DuckChart.ts:186-188 | on an ascending timeline the start bound never exceeds the end bound when start percent <= end percent |
| TsCast.CastExpr | packages/svelte-timeseries/src/lib/DuckChart.ts:304-314 | the expression is always over the timestamp column, and is `epoch_ms` iff the type is exactly `timestamp<microsecond>` |
| TsCast.Int64IsPassthrough | packages/svelte-timeseries/src/lib/DuckChart.ts:308-313 | `int64` is passed through as the bare column, without a warning |
| TsCast.ArrowSpellingIsRecognised | packages/svelte-timeseries/src/lib/DuckChart.ts:299 | Arrow's `Timestamp<MICROSECOND>` is lower-cased before the comparison, so it gets the `epoch_ms` conversion |
| TsCast.ValueLiteral | packages/svelte-timeseries/src/lib/DuckChart.ts:316-321 | the window bound is divided by 1000 exactly when the type name starts with `timestamp`, and is otherwise passed through |
| TsCast.AsWrittenWindowMissesTimeline | packages/svelte-timeseries/src/lib/DuckChart.ts:195-196 | worked example of `TsCast.AsWrittenFullZoomDropsLastRow`: with the bound as written, a microsecond-timestamp table whose timeline is [1000] zoomed to 0..100 filters out its own only row |
| TsCast.AsWrittenFullZoomDropsLastRow | packages/svelte-timeseries/src/lib/DuckChart.ts:316-321 | with the bound as written, for every `timestamp...` type, a full zoom over a timeline whose last value is positive excludes that last row |
| TsCast.WindowSelectsBetween | packages/svelte-timeseries/src/lib/DuckChart.ts:195-196 | with the unscaled bound, a row passes the window iff its timestamp lies between the two zoom timestamps |
| TsCast.FullZoomCoversTimeline | packages/svelte-timeseries/src/lib/DuckChart.ts:186-198 | with the unscaled bound, the full zoom selects every row of an ascending timeline |
| Batches.Assemble | packages/svelte-timeseries/src/lib/DuckChart.ts:205-224 | succeeds iff every batch has a child per projected column; column c is child c of every batch concatenated in stream order; the row count is the sum of the batch lengths; a failure names the first short batch and its first missing child |
| Batches.GatherAppend | packages/svelte-timeseries/src/lib/DuckChart.ts:215-222 | folding a concatenated stream concatenates the folds of its parts |
| Batches.TotalRowsAppend | packages/svelte-timeseries/src/lib/DuckChart.ts:223 | the row count of a concatenated stream is the sum of the parts' counts |
| Batches.SplitBatchKeepsColumns | packages/svelte-timeseries/src/lib/DuckChart.ts:215-224 | cutting one batch into two at any row changes no folded column and not the row count |
| Batches.RowsCountIsColumnLength | packages/svelte-timeseries/src/lib/DuckChart.ts:213-223 | for well-shaped batches the running row count equals the length of every folded column |
| DuckChart.OverviewQuery | packages/svelte-timeseries/src/lib/DuckChart.ts:125-130 | the overview selects the cast timestamp (`epoch_ms` iff the type is `timestamp<microsecond>`) and the main column, with no window, drops rows whose main value is 0, and orders by the timestamp column |
| DuckChart.RangeQuery | packages/svelte-timeseries/src/lib/DuckChart.ts:192-199 | the detail query selects the cast timestamp and the selected field names in order, drops rows whose main value is 0, orders by the timestamp column, and bounds the window by the zoom timestamps divided by 1000 for `timestamp...` types and unscaled otherwise |
| DuckChart.RangeQueryCorrected | packages/svelte-timeseries/src/lib/DuckChart.ts:192-199 | the same query with a window that admits a projected timestamp exactly when it lies between the two zoom timestamps |
| DuckChart.RangeQueriesAgree | packages/svelte-timeseries/src/lib/DuckChart.ts:316-321 | the as-written and corrected queries coincide exactly when the type is not a `timestamp...` type or both zoom timestamps are 0 |
| DuckChart.LoadRange | packages/svelte-timeseries/src/lib/DuckChart.ts:186-267 | fails before `load`, on an `undefined` zoom bound, or iff a batch of the as-written range query's stream lacks a child; on success: dataset 0 is the overview and dataset 1 the folded detail columns; the overview series is kept first, then one series per selected field in order, plotting its own column, on axis 1 iff the name ends in `%`; the legend is the main column then the field names; nothing but the option changes |
| DuckChart.DetailAxes | packages/svelte-timeseries/src/lib/DuckChart.ts:190 | the selected fields are the main fields, all on axis 0, followed by the percent fields, all on axis 1 |
| DuckChart.Load | packages/svelte-timeseries/src/lib/DuckChart.ts:117-178 | loading the current table changes nothing; otherwise the table is set first; detection and overview failures are reported; on success the timeline and main column are the folded overview stream and the overview series is first; then the 38..62 zoom succeeds iff both bounds read a timestamp and every detail batch has all selected columns, in which case dataset 1 is the folded detail stream with its series and legend; if it fails, the overview-only state is kept |
| DuckChart.LoadTwice | packages/svelte-timeseries/src/lib/DuckChart.ts:118-121 | a second `load` of the same URL, even after a failed first one, changes nothing and reports nothing |
| ChartBuilder.SetDataset | packages/sveltecharts/src/lib/TimeSeriesChartBuilder.ts:114-171 | throws iff the names are absent or their count differs from the first row's width minus one; otherwise the rows are kept unchanged under `["time", ...names]` and the series are replaced by one line per name, in order, encoding x = `time` and y = that name, with no mark point |
| ChartBuilder.SetSeriesStyle | packages/sveltecharts/src/lib/TimeSeriesChartBuilder.ts:226-234 | count and order of series are kept; each series gains the style's keys with the style's values, and keeps its other keys and values |
| ChartBuilder.SetSeriesStyleIdempotent | packages/sveltecharts/src/lib/TimeSeriesChartBuilder.ts:226-234 | applying the same style twice is applying it once |
| ChartBuilder.AddMarkerEvents | packages/sveltecharts/src/lib/TimeSeriesChartBuilder.ts:247-275 | one series per event is appended after the existing ones, which are untouched; the new series are unnamed |
| ChartBuilder.MarkerEventDrawn | packages/sveltecharts/src/lib/TimeSeriesChartBuilder.ts:252-272 | the series for event i has symbol `icon` or `none`, label `name` or empty, the given line width, and one mark-line entry per x position, in order |
| ChartBuilder.AddMarkArea | packages/sveltecharts/src/lib/TimeSeriesChartBuilder.ts:280-319 | n areas append 2n series after the untouched existing ones |
| ChartBuilder.MarkAreaSpans | packages/sveltecharts/src/lib/TimeSeriesChartBuilder.ts:285-311 | the i-th added series shades exactly the i-th area's `[xAxis[0], xAxis[1]]` |
| ChartBuilder.MarkAreaBoundaries | packages/sveltecharts/src/lib/TimeSeriesChartBuilder.ts:313-316 | the (n+i)-th added series draws the i-th area's two boundaries, 1 wide, with no symbol and an empty label |
| ChartBuilder.MarkAreaDelegatesToMarkerEvents | packages/sveltecharts/src/lib/TimeSeriesChartBuilder.ts:285-316 | `addMarkArea` is its area series followed by `addMarkerEvents` of the name-less areas with width 1 |
| ChartBuilder.LookupValue | packages/sveltecharts/src/lib/TimeSeriesChartBuilder.ts:356-365 | the value is `undefined` or a number; it is `undefined` when the name is not a dimension or no row starts with the timestamp; a number is the cell of the first row with that timestamp at the name's first dimension index |
| ChartBuilder.AddMarkerPoint | packages/sveltecharts/src/lib/TimeSeriesChartBuilder.ts:321-397 | throws "no data" iff there are no dimensions; throws "not found" iff no series has the name; once both pass, succeeds iff the looked-up value is truthy, otherwise "no value"; on success the value is non-zero and only the first series with that name changes; it has a mark point, gains no key but `markPoint` and keeps every other value, and a new point sits at `[timestamp, value]` |
| ChartBuilder.MarkerPointIdempotent | packages/sveltecharts/src/lib/TimeSeriesChartBuilder.ts:371-394 | repeating a successful `addMarkerPoint`, with any options, changes nothing |
| ChartBuilder.ZeroValueIsRefused | packages/sveltecharts/src/lib/TimeSeriesChartBuilder.ts:365-369 | a looked-up value of 0 is refused as "no value" |
| ChartBuilder.MissingTimestampIsRefused | packages/sveltecharts/src/lib/TimeSeriesChartBuilder.ts:356-369 | a timestamp no row starts with is refused; matching is exact |
| ChartBuilder.AbsentDimensionIsRefused | packages/sveltecharts/src/lib/TimeSeriesChartBuilder.ts:364-369 | a series whose name is not a dataset dimension is refused |
| ChartBuilder.MarkerPointRoundTrip | packages/sveltecharts/src/lib/TimeSeriesChartBuilder.ts:349-394 | after `setDataset(data, dims)`, a point for the j-th name at a timestamp whose first row holds a non-zero value lands on the j-th series at exactly `[timestamp, data[row][j+1]]` |
| ChartBuilder.MarkerPointExampleLands | packages/sveltecharts/src/lib/TimeSeriesChartBuilder.ts:321-397 | on rows `[[1000,10],[2000,20],[3000,30]]` with dimension `v`, a point at 2000 lands on `[2000, 20]` |
| ChartBuilder.MarkerPointExampleRefused | packages/sveltecharts/src/lib/TimeSeriesChartBuilder.ts:356-369 | on the same rows, a point at 9999 is refused with "no value" |

## Left out

- `build`: the shallow copy `{ ...this.option }` only matters for aliasing, and the model has no aliasing.
- Styling constants have no effect on data. These are fonts, sizes, colours, animation flags, sampling and progressive-rendering settings, and the constructor's axis, grid and tooltip defaults.
- `setAxisTooltip`, `setLegendIcon`, `setDataZoom`, `setGrid` and `setTitle` only assign display options.
- The "Series must be an array" checks never fire here. `option.series` is always an array, and `option.dataset` is never an array, in every state these operations reach.
- Floating point is not modelled. Numbers are integers, `ts / 1000` is exact real division, and `toFixed(2)` is the unevaluated `Json.Fixed`. NaN and infinities are not modelled.
- `Number(ts)` on a 64-bit timestamp is the identity. Precision loss above 2^53 is not modelled.
- Debug logging, `performance.now()` timing and the `console.warn` of `getTsCast` have no effect on state. The warning's condition is `TsCast.WarnsUnsupported`.
- `async`/`await` is modelled as sequential calls. Concurrent `load`/`loadRange` calls are not modelled.
- DuckDB itself is not modelled. This covers packages/svelte-timeseries/src/lib/duckdb/DuckDB.ts, duckdb-wasm.ts, SQL execution, filtering and ordering. The engine is a parameter, and queries are compared by structure.
- `TimeSeriesFacade.ts`, `mockDataSet.ts` and `svelte.config.js` are not part of this model.
- DuckChart.Load: on a detection or overview failure the model keeps the previous state apart from the table name. The source leaves different partial state behind in each case.
  - A detection failure is the TypeError at DuckChart.ts line 284. By then the source has set new `columns`, `indexedFields`, `mainFields`, `percentFields` and `tsColumn`. It keeps the old `mainColumn`, `tsCastType` and option, because lines 142-157 have not run yet.
  - An overview failure happens when a batch lacks child 0 or 1. By then the source has the new fields and the overview series, dataset and legend of lines 142-157. Its timeline and main column are partly filled: every earlier batch is in, and when only child 1 is missing, the failing batch's timestamps are in too.
  - After the early return, a retry with the same URL returns at once in both the source and the model.
- Fields.DetectFields: an empty schema with no configured timestamp column is modelled as `NoTimestampColumn`. The source passes `undefined` on to the schema lookup, whose behaviour for it is not part of this model.
- DuckChart.LoadRange: an `undefined` zoom bound (empty timeline) is always `NoTimestamp`. In the source it throws a TypeError only for non-timestamp types. For `timestamp…` types it becomes the literal `NaN` in the query, and the database's NaN comparison semantics are not part of this model.
- Text.ToLower: lower-cases ASCII letters only, since the type names it is applied to are ASCII.
- Timeline.PercentToTimestamp: percentages are exact reals, so rounding in `(p / 100) * length` is not modelled.

## Findings

`DuckChart.LoadRange` keeps the bound as written so that it sends the
program's own query. `DuckChart.RangeQueriesAgree` says exactly where the
fix would change that query. `TsCast.FullZoomCoversTimeline` states the
property the fix restores.

| source | as written | input that shows it | evidently intended | confidence | as-written member | corrected member |
|---|---|---|---|---|---|---|
| packages/svelte-timeseries/src/lib/DuckChart.ts:316-321 | for a `timestamp<microsecond>` column the window bound is `ts / 1000`. The timeline it comes from was read through `epoch_ms(ts)` and so is already in milliseconds, and the filter compares `epoch_ms(ts)` (milliseconds) with a value in seconds | a table whose only row is at epoch millisecond 1000: the timeline is [1000], and zooming to 0..100 yields `epoch_ms(ts) >= 1 AND epoch_ms(ts) <= 1`, which excludes that row | compare in the units of the cast expression, with no scaling | medium, not executed | TsCast.AsWrittenFullZoomDropsLastRow | DuckChart.RangeQueryCorrected |
