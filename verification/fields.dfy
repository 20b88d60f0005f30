/** Column classification of `DuckChart.detectFields`: which columns are
    plotted as value series, which as percentages, which one is the
    timestamp and which one drives the overview. */
module Fields {
  import opened Wrappers
  import opened Seqs
  import opened Text

  /** A column name with its position in the table's schema. */
  datatype IndexedField = IndexedField(idx: nat, name: string)

  /** The role a column's name gives it: `_`-prefixed columns are internal,
      a trailing `%` marks a percentage, anything else is a main value. */
  datatype Role = Internal | Percent | Main

  function RoleOf(name: string): Role {
    if StartsWith(name, "_") then Internal
    else if EndsWith(name, "%") then Percent
    else Main
  }

  predicate IsMain(f: IndexedField) {
    RoleOf(f.name) == Main
  }

  predicate IsPercent(f: IndexedField) {
    RoleOf(f.name) == Percent
  }

  function Index(f: IndexedField): int {
    f.idx
  }

  /** `columns.map((name, idx) => ({ idx, name }))`. */
  function Indexed(columns: seq<string>): (r: seq<IndexedField>)
    ensures |r| == |columns|
    ensures forall i :: 0 <= i < |r| ==> r[i] == IndexedField(i, columns[i])
  {
    seq(|columns|, i requires 0 <= i < |columns| => IndexedField(i, columns[i]))
  }

  /** A field list drawn from `columns`: every entry names the column at its
      own index, and the indices strictly increase (schema order). */
  ghost predicate DrawnFrom(fs: seq<IndexedField>, columns: seq<string>) {
    && (forall i :: 0 <= i < |fs| ==> fs[i].idx < |columns| && columns[fs[i].idx] == fs[i].name)
    && Ascending(fs, Index)
  }

  /** The two lists `detectFields` builds before it knows the timestamp. */
  datatype Classified = Classified(main: seq<IndexedField>, percent: seq<IndexedField>)

  /** Splits the schema into main fields and percent fields. The two lists
      are disjoint, hold no internal name, keep each column's index and the
      schema order, and together cover every non-internal column. */
  function Classify(columns: seq<string>): (r: Classified)
    ensures DrawnFrom(r.main, columns) && DrawnFrom(r.percent, columns)
    ensures forall f :: f in r.main ==> !StartsWith(f.name, "_") && !EndsWith(f.name, "%")
    ensures forall f :: f in r.percent ==> !StartsWith(f.name, "_") && EndsWith(f.name, "%")
    ensures forall f :: f in r.main ==> f !in r.percent
    ensures forall i :: 0 <= i < |columns| && !StartsWith(columns[i], "_") ==>
      IndexedField(i, columns[i]) in r.main || IndexedField(i, columns[i]) in r.percent
  {
    var fs := Indexed(columns);
    FilterKeepsOrder(fs, IsMain, Index);
    FilterKeepsOrder(fs, IsPercent, Index);
    Classified(Filter(fs, IsMain), Filter(fs, IsPercent))
  }

  /** The optional explicit column choices a caller may pass to `load`. */
  datatype ColumnConfig = ColumnConfig(tsColumn: Option<string>, mainColumn: Option<string>)

  /** What `detectFields` leaves behind. `tsCastType` is the lower-cased
      type name of the timestamp column. */
  datatype DetectedFields = DetectedFields(
    columns: seq<string>,
    mainFields: seq<IndexedField>,
    percentFields: seq<IndexedField>,
    tsColumn: string,
    mainColumn: string,
    tsCastType: string)

  datatype DetectError =
    | NoMainColumn       // `this.mainFields[1].name` read past the end
    | NoTimestampColumn  // no configured timestamp and an empty schema

  /** The invariant every detected field set keeps: main fields are main,
      percent fields are percentages, and the timestamp is not plotted as a
      main field. */
  ghost predicate WellFormed(f: DetectedFields) {
    && DrawnFrom(f.mainFields, f.columns)
    && DrawnFrom(f.percentFields, f.columns)
    && (forall g :: g in f.mainFields ==> RoleOf(g.name) == Main && g.name != f.tsColumn)
    && (forall g :: g in f.percentFields ==> RoleOf(g.name) == Percent)
  }

  /** `detectFields`: the timestamp column defaults to the first column and
      the main column to the SECOND main field (the first is normally the
      timestamp itself); only then is the timestamp removed from the main
      fields. `columnType` is the schema's type lookup. */
  function DetectFields(columns: seq<string>, config: ColumnConfig, columnType: string -> string)
    : (r: Result<DetectedFields, DetectError>)
    ensures r == Failure(NoMainColumn) <==> config.mainColumn.None? && |Classify(columns).main| < 2
    ensures r == Failure(NoTimestampColumn) <==>
      (config.mainColumn.Some? || |Classify(columns).main| >= 2) && config.tsColumn.None? && |columns| == 0
    ensures r.Success? ==> WellFormed(r.value) && r.value.columns == columns
    ensures r.Success? && config.tsColumn.Some? ==> r.value.tsColumn == config.tsColumn.value
    ensures r.Success? && config.tsColumn.None? ==> |columns| > 0 && r.value.tsColumn == columns[0]
    ensures r.Success? && config.mainColumn.Some? ==> r.value.mainColumn == config.mainColumn.value
    ensures r.Success? && config.mainColumn.None? ==>
      |Classify(columns).main| >= 2 && r.value.mainColumn == Classify(columns).main[1].name
    ensures r.Success? ==> r.value.percentFields == Classify(columns).percent
    ensures r.Success? ==> forall g :: g in Classify(columns).main ==>
      (g in r.value.mainFields <==> g.name != r.value.tsColumn)
    ensures r.Success? ==> r.value.tsCastType == ToLower(columnType(r.value.tsColumn))
  {
    var c := Classify(columns);
    if config.mainColumn.None? && |c.main| < 2 then Failure(NoMainColumn)
    else if config.tsColumn.None? && |columns| == 0 then Failure(NoTimestampColumn)
    else
      var ts := if config.tsColumn.Some? then config.tsColumn.value else columns[0];
      var main := if config.mainColumn.Some? then config.mainColumn.value else c.main[1].name;
      var keep := (g: IndexedField) => g.name != ts;
      var mainFields := Filter(c.main, keep);
      FilterKeepsOrder(c.main, keep, Index);
      Success(DetectedFields(columns, mainFields, c.percent, ts, main, ToLower(columnType(ts))))
  }

  /** Why the default is `mainFields[1]`: when nothing is configured and the
      first column is an ordinary (non-internal, non-percent) name, it is the
      timestamp and the default main column is the first main field that is
      left after the timestamp has been removed, provided names are unique. */
  lemma DefaultMainIsFirstValueColumn(columns: seq<string>, columnType: string -> string)
    requires |columns| > 0 && RoleOf(columns[0]) == Main
    requires forall i, j :: 0 <= i < j < |columns| ==> columns[i] != columns[j]
    requires |Classify(columns).main| >= 2
    ensures var r := DetectFields(columns, ColumnConfig(None, None), columnType);
      r.Success? && |r.value.mainFields| > 0 && r.value.mainColumn == r.value.mainFields[0].name
  {
    var c := Classify(columns);
    var r := DetectFields(columns, ColumnConfig(None, None), columnType);
    assert IndexedField(0, columns[0]) in c.main;
    var second := c.main[1];
    assert second.name != columns[0];
    assert second in r.value.mainFields;
  }
}
