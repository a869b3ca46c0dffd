/**
 What the dashboard chart shows for normalised data, stated without the
 charting library: the uniform empty state, the series and wedge colours drawn
 from a fixed palette, and the table's header and body cells.
 */
module ChartView {
  import opened JsValues
  import opened ChartData

  /** The fallback colours, used in order and then cyclically. */
  const Palette: seq<string> := ["#3B82F6", "#10B981", "#F59E0B", "#EF4444", "#8B5CF6", "#EC4899"]

  /** `COLORS[k % COLORS.length]`. */
  function PaletteColour(k: nat): (c: string)
    ensures c in Palette
  {
    Palette[k % |Palette|]
  }

  /**
   One drawn line or bar series: its data key and its colour. The component
   passes the value `dataset.label || 'value'` as the data key; the model keeps
   the property key that value names when the records are written,
   `SeriesKey`.
   */
  datatype SeriesStyle = SeriesStyle(dataKey: string, colour: JsValue)

  /** What the component renders. */
  datatype Chart =
    | NoData                                                   // "No data available"
    | LineChart(points: seq<JsValue>, series: seq<SeriesStyle>)
    | BarChart(points: seq<JsValue>, series: seq<SeriesStyle>)
    | PieChart(points: seq<JsValue>, wedgeFills: seq<string>)
    | ScatterChart(points: seq<JsValue>, fill: string)
    | Table(headers: seq<JsValue>, body: seq<seq<string>>)
    | Unsupported                                              // "Unsupported chart type"

  /** `data.datasets`, or no series when it is absent (`data.datasets?.map`). */
  function DatasetsOf(data: Option<ChartInput>): seq<Series> {
    if data.Some? && data.value.datasets.Some? then data.value.datasets.value else []
  }

  /** `data.columns || []`. */
  function ColumnsOf(data: Option<ChartInput>): seq<ColumnDef> {
    if data.Some? && data.value.columns.Some? then data.value.columns.value else []
  }

  /** Line series: stroke is `borderColor` when truthy, else the palette colour of the series position. */
  function LineSeries(datasets: seq<Series>): seq<SeriesStyle> {
    seq(|datasets|, k requires 0 <= k < |datasets| =>
      SeriesStyle(SeriesKey(datasets[k]), Or(datasets[k].borderColor, Str(PaletteColour(k)))))
  }

  /** Bar series: fill is `backgroundColor` when truthy, else the palette colour of the series position. */
  function BarSeries(datasets: seq<Series>): seq<SeriesStyle> {
    seq(|datasets|, k requires 0 <= k < |datasets| =>
      SeriesStyle(SeriesKey(datasets[k]), Or(datasets[k].backgroundColor, Str(PaletteColour(k)))))
  }

  /** Pie wedge `i` is always filled with palette colour `i`. */
  function WedgeFills(n: nat): seq<string> {
    seq(n, i requires 0 <= i < n => PaletteColour(i))
  }

  /** Header text of a column: `col.header || col.field`. */
  function HeaderText(col: ColumnDef): JsValue {
    Or(col.header, Str(col.field))
  }

  function Headers(columns: seq<ColumnDef>): seq<JsValue> {
    seq(|columns|, j requires 0 <= j < |columns| => HeaderText(columns[j]))
  }

  /** A body cell: `String(row[col.field])`, or `-` when that is `undefined`. */
  function CellText(row: JsValue, col: ColumnDef): Result<string> {
    match Get(row, col.field)
    case Throws(e) => Throws(e)
    case Ok(v) => Ok(if v.Undefined? then "-" else ToString(v))
  }

  /** The cells of one body row, one per column in column order; the first failing read throws. */
  function RowCells(row: JsValue, columns: seq<ColumnDef>): (r: Result<seq<string>>)
    ensures r.Ok? <==> (columns == [] || !Nullish(row))
    ensures r.Ok? ==> |r.value| == |columns|
    ensures r.Ok? ==> forall j :: 0 <= j < |columns| ==> CellText(row, columns[j]) == Ok(r.value[j])
    decreases |columns|
  {
    if columns == [] then Ok([])
    else
      match CellText(row, columns[0])
      case Throws(e) => Throws(e)
      case Ok(first) =>
        match RowCells(row, columns[1..])
        case Throws(e) => Throws(e)
        case Ok(rest) => Ok([first] + rest)
  }

  /** The table body, one row of cells per normalised row, in order; the first failing row throws. */
  function TableBody(rows: seq<JsValue>, columns: seq<ColumnDef>): (r: Result<seq<seq<string>>>)
    ensures r.Ok? <==> (columns == [] || forall i :: 0 <= i < |rows| ==> !Nullish(rows[i]))
    ensures r.Ok? ==> |r.value| == |rows|
    ensures r.Ok? ==> forall i :: 0 <= i < |rows| ==> RowCells(rows[i], columns) == Ok(r.value[i])
    decreases |rows|
  {
    if rows == [] then Ok([])
    else
      match RowCells(rows[0], columns)
      case Throws(e) => Throws(e)
      case Ok(first) =>
        match TableBody(rows[1..], columns)
        case Throws(e) => Throws(e)
        case Ok(rest) => Ok([first] + rest)
  }

  /** The component: normalise, show the placeholder when there is nothing, else the chart of `kind`. */
  function Render(kind: string, data: Option<ChartInput>): Result<Chart> {
    var points := Normalize(kind, data);
    if points == [] then Ok(NoData)
    else if kind == "line" then Ok(LineChart(points, LineSeries(DatasetsOf(data))))
    else if kind == "bar" then Ok(BarChart(points, BarSeries(DatasetsOf(data))))
    else if kind == "pie" then Ok(PieChart(points, WedgeFills(|points|)))
    else if kind == "scatter" then Ok(ScatterChart(points, PaletteColour(0)))
    else if kind == "table" then
      var columns := ColumnsOf(data);
      match TableBody(points, columns)
      case Throws(e) => Throws(e)
      case Ok(body) => Ok(Table(Headers(columns), body))
    else Ok(Unsupported)
  }

  /** The placeholder is shown exactly when the normalised data is empty, whatever the kind. */
  lemma EmptyState(kind: string, data: Option<ChartInput>)
    ensures Render(kind, data) == Ok(NoData) <==> Normalize(kind, data) == []
  {
  }

  /** Unknown kinds always normalise to nothing, so "Unsupported chart type" is never shown. */
  lemma UnsupportedUnreachable(kind: string, data: Option<ChartInput>)
    ensures Render(kind, data) != Ok(Unsupported)
  {
    EmptyCases(kind, data);
  }

  /**
   Fallback colours cycle with period six, and any six consecutive series
   positions get six different colours.
   */
  lemma PaletteCycle(k: nat, j: nat)
    ensures PaletteColour(k + 6) == PaletteColour(k)
    ensures k < j < k + 6 ==> PaletteColour(j) != PaletteColour(k)
  {
  }

  /**
   Line and bar charts with data: one drawn series per dataset, in order (none
   for an empty `datasets`), each reading a key that every record holds,
   coloured with the dataset's own colour (`borderColor` for lines,
   `backgroundColor` for bars) when truthy and with palette colour `k` otherwise.
   */
  lemma LineBarSeries(kind: string, d: ChartInput)
    requires kind == "line" || kind == "bar"
    requires d.datasets.Some?
    requires Normalize(kind, Some(d)) != []
    ensures Render(kind, Some(d)).Ok?
    ensures Render(kind, Some(d)).value.LineChart? <==> kind == "line"
    ensures Render(kind, Some(d)).value.BarChart? <==> kind == "bar"
    ensures Render(kind, Some(d)).value.points == Normalize(kind, Some(d))
    ensures |Render(kind, Some(d)).value.series| == |d.datasets.value|
    ensures forall k :: 0 <= k < |d.datasets.value| ==>
      Render(kind, Some(d)).value.series[k].dataKey == SeriesKey(d.datasets.value[k])
    ensures forall i, k :: 0 <= i < |Render(kind, Some(d)).value.points| && 0 <= k < |d.datasets.value| ==>
      Render(kind, Some(d)).value.points[i].Obj? &&
      Render(kind, Some(d)).value.series[k].dataKey in Render(kind, Some(d)).value.points[i].fields
    ensures forall k :: 0 <= k < |d.datasets.value| ==>
      Render(kind, Some(d)).value.series[k].colour ==
        (var own := if kind == "line" then d.datasets.value[k].borderColor else d.datasets.value[k].backgroundColor;
         if Truthy(own) then own else Str(PaletteColour(k)))
  {
    LineBarRecords(kind, d);
    assert forall k :: 0 <= k < |d.datasets.value| ==> SeriesKey(d.datasets.value[k]) in KeysOf(d.datasets.value);
  }

  /** Pie charts plot the normalised records, one wedge per record, wedge `i` filled with palette colour `i`. */
  lemma PieWedges(d: ChartInput)
    requires Normalize("pie", Some(d)) != []
    ensures Render("pie", Some(d)).Ok? && Render("pie", Some(d)).value.PieChart?
    ensures Render("pie", Some(d)).value.points == Normalize("pie", Some(d))
    ensures |Render("pie", Some(d)).value.wedgeFills| == |Normalize("pie", Some(d))|
    ensures forall i :: 0 <= i < |Normalize("pie", Some(d))| ==>
      Render("pie", Some(d)).value.wedgeFills[i] == Palette[i % 6]
  {
  }

  /** Scatter charts plot the first series' points unchanged, filled with the first palette colour. */
  lemma ScatterPoints(d: ChartInput)
    requires d.datasets.Some? && |d.datasets.value| > 0 && d.datasets.value[0].data != []
    ensures Render("scatter", Some(d)) == Ok(ScatterChart(d.datasets.value[0].data, Palette[0]))
  {
  }

  /**
   A body cell: it throws exactly when the row is `null` or `undefined`; it is
   `-` whenever the field reads `undefined` (no such key, a key holding
   `undefined`, or a row that is not an object), and `String(value)` of any
   other value (which may itself print as `-`).
   */
  lemma CellRule(row: JsValue, col: ColumnDef)
    ensures CellText(row, col).Throws? <==> Nullish(row)
    ensures Get(row, col.field) == Ok(Undefined) ==> CellText(row, col) == Ok("-")
    ensures Get(row, col.field).Ok? && !Get(row, col.field).value.Undefined? ==>
      CellText(row, col) == Ok(ToString(Get(row, col.field).value))
    ensures !Nullish(row) && !row.Obj? ==> CellText(row, col) == Ok("-")
    ensures row.Obj? && (col.field !in row.fields || row.fields[col.field].Undefined?) ==>
      CellText(row, col) == Ok("-")
    ensures row.Obj? && col.field in row.fields && !row.fields[col.field].Undefined? ==>
      CellText(row, col) == Ok(ToString(row.fields[col.field]))
  {
  }

  /**
   Tables: one header per column (`header || field`) and one body row per
   record with one cell per column; the render throws exactly when there is a
   column and some row is `null` or `undefined`.
   */
  lemma TableProjection(d: ChartInput)
    requires d.rows.Some? && d.rows.value != []
    ensures
      var columns := ColumnsOf(Some(d));
      Render("table", Some(d)).Throws? <==>
        (columns != [] && exists i :: 0 <= i < |d.rows.value| && Nullish(d.rows.value[i]))
    ensures Render("table", Some(d)).Ok? ==>
      var columns, rows, chart := ColumnsOf(Some(d)), d.rows.value, Render("table", Some(d)).value;
      && chart.Table?
      && |chart.headers| == |columns|
      && (forall j :: 0 <= j < |columns| ==>
            chart.headers[j] == if Truthy(columns[j].header) then columns[j].header else Str(columns[j].field))
      && |chart.body| == |rows|
      && (forall i :: 0 <= i < |rows| ==> |chart.body[i]| == |columns|)
      && (forall i, j :: 0 <= i < |rows| && 0 <= j < |columns| ==>
            Ok(chart.body[i][j]) == CellText(rows[i], columns[j]))
  {
  }

  /** Without `columns` a table has no header cell and every body row is empty, whatever the rows hold. */
  lemma TableWithoutColumns(d: ChartInput)
    requires d.rows.Some? && d.rows.value != []
    requires d.columns.None?
    ensures Render("table", Some(d)).Ok?
    ensures Render("table", Some(d)).value.Table?
    ensures Render("table", Some(d)).value.headers == []
    ensures |Render("table", Some(d)).value.body| == |d.rows.value|
    ensures forall i :: 0 <= i < |d.rows.value| ==> Render("table", Some(d)).value.body[i] == []
  {
  }
}
