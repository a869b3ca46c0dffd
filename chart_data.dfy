/**
 The data adapter of the dashboard chart: it reshapes the loosely typed chart
 input `{labels, datasets, rows, columns}` into the sequence of records that a
 chart of the given kind plots. Over the typed input of this model (every
 series carries a `data` array), missing fields and unknown kinds give the
 empty sequence and nothing throws.
 */
module ChartData {
  import opened JsValues

  /** One series of a chart: `label`, `data` and the two optional colours. */
  datatype Series = Series(seriesLabel: JsValue, data: seq<JsValue>, borderColor: JsValue, backgroundColor: JsValue)

  /** A table column: the row field it shows and an optional header text. */
  datatype ColumnDef = ColumnDef(field: string, header: JsValue)

  /** The `data` prop; every field may be absent. */
  datatype ChartInput = ChartInput(
    labels: Option<seq<JsValue>>,
    datasets: Option<seq<Series>>,
    rows: Option<seq<JsValue>>,
    columns: Option<seq<ColumnDef>>)

  /** A plotted record: a JavaScript object built by the adapter. */
  type Record = map<string, JsValue>

  /** The kinds the adapter knows; the `type` prop is compared to these strings. */
  predicate Supported(kind: string) {
    kind == "line" || kind == "bar" || kind == "pie" || kind == "scatter" || kind == "table"
  }

  /** The property name a series is stored under: `dataset.label || 'value'`, as a key. */
  function SeriesKey(s: Series): string {
    if Truthy(s.seriesLabel) then ToString(s.seriesLabel) else "value"
  }

  /** Every key some series of `datasets` is stored under. */
  function KeysOf(datasets: seq<Series>): set<string> {
    set j | 0 <= j < |datasets| :: SeriesKey(datasets[j])
  }

  /** No series of `datasets` after the `j`-th one shares its key, so the `j`-th write is the one that stays. */
  predicate LastWriter(datasets: seq<Series>, j: int) {
    0 <= j < |datasets| &&
    forall j' :: j < j' < |datasets| ==> SeriesKey(datasets[j']) != SeriesKey(datasets[j])
  }

  /**
   The record of label number `index` for a line or bar chart: `{name: label}`,
   then one write `point[key] = dataset.data[index]` per series, in order.
   Defined by peeling off the last write.
   */
  function Point(category: JsValue, datasets: seq<Series>, index: nat): Record
    decreases |datasets|
  {
    if datasets == [] then map["name" := category]
    else
      var last := datasets[|datasets| - 1];
      Point(category, datasets[..|datasets| - 1], index)[SeriesKey(last) := At(last.data, index)]
  }

  /** Pivot of the series into one record per label (line and bar charts). */
  function Pivot(labels: seq<JsValue>, datasets: seq<Series>): seq<JsValue> {
    seq(|labels|, i requires 0 <= i < |labels| => Obj(Point(labels[i], datasets, i)))
  }

  /** One `{name, value}` record per label, taking values from the first series (pie charts). */
  function Slices(labels: seq<JsValue>, first: Series): seq<JsValue> {
    seq(|labels|, i requires 0 <= i < |labels| =>
      Obj(map["name" := labels[i], "value" := At(first.data, i)]))
  }

  /** The normalised chart data for chart kind `kind` and the `data` prop (`None` when it is falsy). */
  function Normalize(kind: string, data: Option<ChartInput>): seq<JsValue> {
    match data
    case None => []
    case Some(d) =>
      if kind == "line" || kind == "bar" then
        if d.labels.Some? && d.datasets.Some? then Pivot(d.labels.value, d.datasets.value) else []
      else if kind == "pie" then
        if d.labels.Some? && d.datasets.Some? && |d.datasets.value| > 0
        then Slices(d.labels.value, d.datasets.value[0]) else []
      else if kind == "scatter" then
        if d.datasets.Some? && |d.datasets.value| > 0 then d.datasets.value[0].data else []
      else if kind == "table" then
        if d.rows.Some? then d.rows.value else []
      else []
  }

  /** Builds one line/bar record with the component's `forEach` over the series, writing keys in place. */
  method BuildPoint(category: JsValue, datasets: seq<Series>, index: nat) returns (point: Record)
    ensures point == Point(category, datasets, index)
  {
    point := map["name" := category];
    var j := 0;
    while j < |datasets|
      invariant 0 <= j <= |datasets|
      invariant point == Point(category, datasets[..j], index)
    {
      var dataset := datasets[j];
      point := point[SeriesKey(dataset) := At(dataset.data, index)];
      j := j + 1;
      assert datasets[..j][..j - 1] == datasets[..j - 1];
    }
    assert datasets[..j] == datasets;
  }

  /** The `labels.map` of the line/bar branch: one record per label, built by `BuildPoint`. */
  method PivotSeries(labels: seq<JsValue>, datasets: seq<Series>) returns (points: seq<JsValue>)
    ensures points == Pivot(labels, datasets)
  {
    points := [];
    var i := 0;
    while i < |labels|
      invariant 0 <= i <= |labels|
      invariant |points| == i
      invariant forall k :: 0 <= k < i ==> points[k] == Obj(Point(labels[k], datasets, k))
    {
      var point := BuildPoint(labels[i], datasets, i);
      points := points + [Obj(point)];
      i := i + 1;
    }
  }

  /** The keys of all series are those of all but the last, plus the last one's. */
  lemma KeysOfSnoc(datasets: seq<Series>)
    requires datasets != []
    ensures KeysOf(datasets)
      == KeysOf(datasets[..|datasets| - 1]) + {SeriesKey(datasets[|datasets| - 1])}
  {
  }

  /** A line/bar record holds `name` and exactly the keys of the series. */
  lemma {:induction false} PointKeys(category: JsValue, datasets: seq<Series>, index: nat)
    ensures Point(category, datasets, index).Keys == {"name"} + KeysOf(datasets)
    decreases |datasets|
  {
    if datasets != [] {
      PointKeys(category, datasets[..|datasets| - 1], index);
      KeysOfSnoc(datasets);
    }
  }

  /** Later series overwrite earlier ones: under a key, the record holds the value of the last series with that key. */
  lemma {:induction false} PointLastWriterWins(category: JsValue, datasets: seq<Series>, index: nat, j: int)
    requires LastWriter(datasets, j)
    ensures SeriesKey(datasets[j]) in Point(category, datasets, index)
    ensures Point(category, datasets, index)[SeriesKey(datasets[j])] == At(datasets[j].data, index)
    decreases |datasets|
  {
    var n := |datasets| - 1;
    if j < n {
      assert SeriesKey(datasets[n]) != SeriesKey(datasets[j]);
      assert LastWriter(datasets[..n], j) by {
        forall j' | j < j' < n ensures SeriesKey(datasets[..n][j']) != SeriesKey(datasets[..n][j]) {
          assert datasets[..n][j'] == datasets[j'];
        }
      }
      PointLastWriterWins(category, datasets[..n], index, j);
    }
  }

  /** The category label survives under `name` unless some series is itself keyed `name`. */
  lemma {:induction false} PointKeepsName(category: JsValue, datasets: seq<Series>, index: nat)
    requires "name" !in KeysOf(datasets)
    ensures "name" in Point(category, datasets, index)
    ensures Point(category, datasets, index)["name"] == category
    decreases |datasets|
  {
    if datasets != [] {
      KeysOfSnoc(datasets);
      PointKeepsName(category, datasets[..|datasets| - 1], index);
    }
  }

  /**
   Line and bar charts with labels and datasets: one record per label; record
   `i` has `name` and one key per series, the key holding element `i` of the
   last series stored under it (`undefined` past the end of its data), and
   `name` is label `i` unless a series is keyed `name`.
   */
  lemma LineBarRecords(kind: string, d: ChartInput)
    requires kind == "line" || kind == "bar"
    requires d.labels.Some? && d.datasets.Some?
    ensures |Normalize(kind, Some(d))| == |d.labels.value|
    ensures forall i :: 0 <= i < |d.labels.value| ==>
      Normalize(kind, Some(d))[i].Obj? &&
      Normalize(kind, Some(d))[i].fields.Keys == {"name"} + KeysOf(d.datasets.value)
    ensures forall i, j :: 0 <= i < |d.labels.value| && LastWriter(d.datasets.value, j) ==>
      Normalize(kind, Some(d))[i].Obj? &&
      SeriesKey(d.datasets.value[j]) in Normalize(kind, Some(d))[i].fields &&
      Normalize(kind, Some(d))[i].fields[SeriesKey(d.datasets.value[j])] == At(d.datasets.value[j].data, i)
    ensures "name" !in KeysOf(d.datasets.value) ==>
      forall i :: 0 <= i < |d.labels.value| ==>
        Normalize(kind, Some(d))[i].Obj? && "name" in Normalize(kind, Some(d))[i].fields &&
        Normalize(kind, Some(d))[i].fields["name"] == d.labels.value[i]
  {
    var labels, datasets := d.labels.value, d.datasets.value;
    forall i | 0 <= i < |labels|
      ensures Point(labels[i], datasets, i).Keys == {"name"} + KeysOf(datasets)
      ensures forall j :: LastWriter(datasets, j) ==>
        Point(labels[i], datasets, i)[SeriesKey(datasets[j])] == At(datasets[j].data, i)
      ensures "name" !in KeysOf(datasets) ==> Point(labels[i], datasets, i)["name"] == labels[i]
    {
      PointKeys(labels[i], datasets, i);
      forall j | LastWriter(datasets, j)
        ensures Point(labels[i], datasets, i)[SeriesKey(datasets[j])] == At(datasets[j].data, i)
      {
        PointLastWriterWins(labels[i], datasets, i, j);
      }
      if "name" !in KeysOf(datasets) {
        PointKeepsName(labels[i], datasets, i);
      }
    }
  }

  /** Pie charts: one record per label, record `i` being exactly `{name: labels[i], value: datasets[0].data[i]}`. */
  lemma PieRecords(d: ChartInput)
    requires d.labels.Some? && d.datasets.Some? && |d.datasets.value| > 0
    ensures |Normalize("pie", Some(d))| == |d.labels.value|
    ensures forall i :: 0 <= i < |d.labels.value| ==>
      Normalize("pie", Some(d))[i]
        == Obj(map["name" := d.labels.value[i], "value" := At(d.datasets.value[0].data, i)])
  {
  }

  /** Pie charts read only the first series: replacing all later series changes nothing. */
  lemma PieIgnoresLaterDatasets(d: ChartInput, later: seq<Series>)
    requires d.datasets.Some? && |d.datasets.value| > 0
    ensures Normalize("pie", Some(d))
      == Normalize("pie", Some(d.(datasets := Some([d.datasets.value[0]] + later))))
  {
  }

  /** Scatter and table data are passed through unchanged. */
  lemma PassThrough(d: ChartInput)
    ensures d.datasets.Some? && |d.datasets.value| > 0 ==> Normalize("scatter", Some(d)) == d.datasets.value[0].data
    ensures d.rows.Some? ==> Normalize("table", Some(d)) == d.rows.value
  {
  }

  /**
   Every missing-input case, and every unknown kind, normalises to the empty
   sequence; so does a present but empty `labels` array for line, bar and pie.
   */
  lemma EmptyCases(kind: string, data: Option<ChartInput>)
    ensures data.None? ==> Normalize(kind, data) == []
    ensures !Supported(kind) ==> Normalize(kind, data) == []
    ensures (data.Some? && (kind == "line" || kind == "bar") &&
             (data.value.labels.None? || data.value.datasets.None?))
      ==> Normalize(kind, data) == []
    ensures (data.Some? && kind == "pie" &&
             (data.value.labels.None? || data.value.datasets.None? || data.value.datasets.value == []))
      ==> Normalize(kind, data) == []
    ensures (data.Some? && kind == "scatter" &&
             (data.value.datasets.None? || data.value.datasets.value == []))
      ==> Normalize(kind, data) == []
    ensures data.Some? && kind == "table" && data.value.rows.None? ==> Normalize(kind, data) == []
    ensures (data.Some? && (kind == "line" || kind == "bar" || kind == "pie") && data.value.labels == Some([]))
      ==> Normalize(kind, data) == []
  {
  }

  /** `line` and `bar` share one branch: they always normalise alike. */
  lemma LineAndBarAgree(data: Option<ChartInput>)
    ensures Normalize("line", data) == Normalize("bar", data)
  {
  }
}
