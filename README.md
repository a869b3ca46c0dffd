# Dashboard chart data adapter, in Dafny

This project models the one piece of decision logic in the dashboard: the
`DashboardChart` component. It takes a chart `type` string and a loosely typed
`data` object (`labels`, `datasets`, `rows`, `columns`, all optional). It first
normalises the data into the records the chart plots. Then it picks what to
show: a "No data available" placeholder, or a line, bar, pie, scatter or table
view. The model states and proves the rules for both steps.

- `js_values.dfy` (module `JsValues`): the JavaScript values the component
  reads. It covers truthiness for `||`, `String(...)`, reading past the end of
  an array (`undefined`), and property reads on a row. A read on `null` or
  `undefined` throws. The `&&` guards at lines 37, 49 and 58 are modelled by the
  input's optional fields and by a non-empty `datasets`, not by truthiness.
- `chart_data.dfy` (module `ChartData`): the normalisation step (`useMemo`
  body). The line/bar `forEach`, which writes one key per series into each
  record, is an imperative loop (`BuildPoint`). That loop is proved equal to the
  function `Point`. The outer `labels.map` is `PivotSeries`. Lemmas state the
  shape of every branch, the last-writer-wins rule for shared keys, and every
  case that gives an empty result.
- `chart_view.dfy` (module `ChartView`): the presentation rules. They cover the
  uniform empty state, the fixed six-colour palette and the series colour
  fallbacks, pie wedge fills, the scatter fill, and the table's header and body
  cells.
- `chart_examples.dfy` (module `ChartExamples`): worked inputs checked as
  lemmas.

Two behaviours of the code are worth stating up front:

- The series key is `dataset.label || 'value'` and the table header is
  `col.header || col.field`. Both use JavaScript truthiness, so an empty label
  also becomes `value`. A truthy non-string label is turned into a key by
  `String`.
- The component can throw. A table whose rows include `null` or `undefined`
  throws a `TypeError` when it reads a cell, as long as there is at least one
  column. `Render` returns `Throws` in exactly that case
  (`ChartView.TableProjection`).

## Model

| member | source | states |
|---|---|---|
| `ChartData.BuildPoint` | components/DashboardChart.tsx:39-42 | the in-place `forEach` over the series builds exactly the record `Point` specifies: `{name: label}` followed by one write per series, in order |
| `ChartData.PivotSeries` | components/DashboardChart.tsx:38-44 | the `labels.map` loop returns one record per label, and record `i` is `Point(labels[i], datasets, i)` |
| `ChartData.PointKeys` | components/DashboardChart.tsx:39-42 | a line/bar record's keys are exactly `name` plus the key of every series |
| `ChartData.PointLastWriterWins` | components/DashboardChart.tsx:40-42 | under a series key, the record holds `data[index]` of the LAST series with that key (later series overwrite earlier ones), and `undefined` when `index` is beyond that series' data |
| `ChartData.PointKeepsName` | components/DashboardChart.tsx:39-41 | `name` keeps the category label unless some series is itself keyed `name` |
| `ChartData.LineBarRecords` | components/DashboardChart.tsx:35-44 | line/bar with `labels` and `datasets` present gives one record per label (none for an empty `labels`). Every record `i` is an object with keys `{name} ∪ series keys`. Each key holds element `i` of its last series, and `name == labels[i]` when no series is keyed `name` |
| `ChartData.PieRecords` | components/DashboardChart.tsx:48-53 | pie gives one record per label (none for an empty `labels`), and every record `i` is exactly `{name: labels[i], value: datasets[0].data[i]}` (`undefined` past the end of the data) |
| `ChartData.PieIgnoresLaterDatasets` | components/DashboardChart.tsx:49-53 | replacing every series after the first leaves the pie data unchanged |
| `ChartData.PassThrough` | components/DashboardChart.tsx:57-64 | scatter data is exactly `datasets[0].data`, and table data is exactly `rows` |
| `ChartData.EmptyCases` | components/DashboardChart.tsx:32-67 | the result is empty when `data` is missing, when line/bar lacks `labels` or `datasets`, when pie lacks `labels` or `datasets` or has no first series, when scatter has no first series, when table lacks `rows`, for a present but empty `labels` on line, bar and pie, and for every unsupported type |
| `ChartData.LineAndBarAgree` | components/DashboardChart.tsx:35-36 | `line` and `bar` always normalise to the same records |
| `ChartView.PaletteColour` | components/DashboardChart.tsx:22 | every fallback colour `COLORS[k % 6]` is one of the six palette entries |
| `ChartView.PaletteCycle` | components/DashboardChart.tsx:90 | fallback colours repeat with period six, and six consecutive positions get six different colours |
| `ChartView.EmptyState` | components/DashboardChart.tsx:71-73 | the "No data available" placeholder is shown if and only if the normalised data is empty, for every type |
| `ChartView.UnsupportedUnreachable` | components/DashboardChart.tsx:188-189 | "Unsupported chart type" is never rendered, because unknown types always normalise to nothing |
| `ChartView.LineBarSeries` | components/DashboardChart.tsx:85-113 | a line/bar chart with data plots the normalised records and draws one series per dataset, in order (none for an empty `datasets`). Every series `k` reads the key of dataset `k`, and every plotted record holds that key. Its colour is the dataset's `borderColor` (line) or `backgroundColor` (bar) when truthy, otherwise palette colour `k mod 6` |
| `ChartView.PieWedges` | components/DashboardChart.tsx:123-134 | a pie with data plots exactly the normalised records (`data={chartData}`, line 123), with one wedge per record, and wedge `i` is filled with `COLORS[i mod 6]` |
| `ChartView.ScatterPoints` | components/DashboardChart.tsx:141-152 | non-empty scatter data is plotted unchanged, with fill `COLORS[0]` |
| `ChartView.RowCells` | components/DashboardChart.tsx:176-180 | a body row has one cell per column, in column order, each equal to that column's cell text. It throws if and only if there is a column and the row is `null`/`undefined` |
| `ChartView.TableBody` | components/DashboardChart.tsx:174-182 | the body has one row per normalised row, in order. It throws if and only if there is a column and some row is `null`/`undefined` |
| `ChartView.CellRule` | components/DashboardChart.tsx:178 | a cell throws if and only if the row is `null`/`undefined`. It is `-` whenever the field reads `undefined`: an absent key, a key holding `undefined`, or a row that is not an object. Otherwise it is `String(value)` |
| `ChartView.TableProjection` | components/DashboardChart.tsx:155-182 | a table has one header per column (`header` when truthy, else `field`). It has one body row per row, each with one cell per column, cell `(i, j)` being the cell text of row `i` and column `j`. It throws exactly when a column exists and a row is nullish |
| `ChartView.TableWithoutColumns` | components/DashboardChart.tsx:155 | missing `columns` gives no header cells and empty body rows, and never throws |
| `ChartExamples.LineExample` | components/DashboardChart.tsx:37-44 | labels `A`, `B` with series `Sales: [10, 20]` give `[{name: A, Sales: 10}, {name: B, Sales: 20}]` |
| `ChartExamples.LaterSeriesWinsExample` | components/DashboardChart.tsx:40-42 | two unlabelled series (one label empty) share key `value`, and the later one wins. A label beyond the data reads `undefined` |
| `ChartExamples.ZeroSeriesExample` | components/DashboardChart.tsx:37-44 | labels `A` with an empty `datasets` renders a line chart over `[{name: A}]` with no series |
| `ChartExamples.PieExample` | components/DashboardChart.tsx:49-53 | labels `X`, `Y` with data `[3, 1]` give `[{name: X, value: 3}, {name: Y, value: 1}]` |
| `ChartExamples.TableExample` | components/DashboardChart.tsx:155-181 | column `id` headed `ID` over rows `{id: 1}` and `{}` renders header `ID` and cells `1` and `-` |

## Left out

- Rendering by the charting library (containers, axes, grid, tooltips, legend, drawing): it is foreign code. The model stops at which data, keys and colours are handed to it.
- The pie label text `name: xx.x%`: the library computes the percentage, and the formatting is floating point.
- Caching of the normalised data on `[data, type]`: this is framework scheduling. The cached function is pure, so results are the same. Idempotence holds trivially because `Normalize` and `Render` are functions.
- CSS class names, sizes and JSX layout, the unused `config` prop, and the page shell `app/layout.tsx`.
- Numbers are integers. Fractions, `NaN` (which is falsy), infinities and `-0`, and how `String` prints them, are not modelled.
- Numbers are unbounded integers (`Num(n: int)`). Integers beyond ±2^53 have no exact JavaScript counterpart. `String` prints magnitudes of 10^21 or more in exponent form (`1e+21`), while `ToString`, built on `Decimal`, prints every digit. So table cells (`ChartView.CellText`) and series keys (`ChartData.SeriesKey`) differ from JavaScript for such values.
- `ChartView.LineBarSeries`: a series' data key is the property key `String(dataset.label || 'value')` that the records are written under (line 41), not the raw value the component passes at lines 89 and 110. How the charting library resolves a non-string data key is foreign code.
- `String(...)` is modelled for the values the model has. Every object prints as `[object Object]`, and a custom `toString` is not modelled.
- Series and column definitions are typed records, and `labels`, `datasets`, `rows` and `columns` are arrays when present. So a present field that is not an array is not modelled.
- A dataset that is `null` is not modelled. Line and bar throw a `TypeError` on a `null` dataset when there is a label (line 41). Pie and scatter treat a `null` first dataset as missing and give the empty result (lines 49 and 58). Pie never reads datasets after the first.
- A dataset without a `data` array is not modelled. Line and bar throw a `TypeError` on such a dataset when there is a label (line 41). Pie throws only when the first dataset lacks `data` and there is a label (line 52). Scatter normalises to `undefined` when the first dataset lacks `data`, and the placeholder is shown (lines 59 and 71).
- A truthy `data` that is not an object (such as `1` or `"abc"`) reads `undefined` for every field. It is covered as `Some(ChartInput(None, None, None, None))`, which normalises to the empty sequence and shows the placeholder.
- Property reads see only an object's own entries. Inherited members (`toString`, `constructor`) and array and string properties (`length`, indices) read as `undefined`.
- `ChartData.PointKeys`: the key `__proto__` is treated as a plain key. In JavaScript, the write `point['__proto__'] = v` at line 41 runs the prototype setter and creates no own key. So for a series labelled `__proto__`, the key set the lemma states differs from the JavaScript object. Reads of `__proto__` are also treated as plain reads.
- The insertion order of keys in a record is not modelled, because records are maps. Nothing in the component depends on it.
- The text of thrown `TypeError` messages is not modelled. Only the fact that the render throws is stated.
