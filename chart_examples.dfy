/** Worked inputs for the adapter and the table, each checked against the definitions. */
module ChartExamples {
  import opened JsValues
  import opened ChartData
  import opened ChartView

  function Plain(caption: JsValue, data: seq<JsValue>): Series {
    Series(caption, data, Undefined, Undefined)
  }

  function Input(labels: seq<JsValue>, datasets: seq<Series>): ChartInput {
    ChartInput(Some(labels), Some(datasets), None, None)
  }

  /** Two labels and one series `Sales` pivot into `[{name: "A", Sales: 10}, {name: "B", Sales: 20}]`. */
  lemma LineExample()
    ensures Normalize("line", Some(Input([Str("A"), Str("B")], [Plain(Str("Sales"), [Num(10), Num(20)])])))
      == [Obj(map["name" := Str("A"), "Sales" := Num(10)]), Obj(map["name" := Str("B"), "Sales" := Num(20)])]
  {
  }

  /**
   Two unlabelled series (an empty label is falsy too) share the key `value`;
   the later one wins, and a label beyond the data reads `undefined`.
   */
  lemma LaterSeriesWinsExample()
    ensures Normalize("bar", Some(Input([Str("A"), Str("B")],
        [Plain(Undefined, [Num(1), Num(2)]), Plain(Str(""), [Num(7)])])))
      == [Obj(map["name" := Str("A"), "value" := Num(7)]), Obj(map["name" := Str("B"), "value" := Undefined])]
  {
    var ds := [Plain(Undefined, [Num(1), Num(2)]), Plain(Str(""), [Num(7)])];
    assert ds[..1][..0] == [];
    assert Point(Str("A"), ds, 0) == map["name" := Str("A"), "value" := Num(7)];
    assert Point(Str("B"), ds, 1) == map["name" := Str("B"), "value" := Undefined];
  }

  /** A present but empty `datasets` still draws a line chart: records hold only `name`, and no series is drawn. */
  lemma ZeroSeriesExample()
    ensures Render("line", Some(Input([Str("A")], [])))
      == Ok(LineChart([Obj(map["name" := Str("A")])], []))
  {
    var data := Some(Input([Str("A")], []));
    assert Point(Str("A"), [], 0) == map["name" := Str("A")];
    assert Normalize("line", data) == [Obj(map["name" := Str("A")])];
    assert DatasetsOf(data) == [];
    assert LineSeries([]) == [];
  }

  /** A pie over labels `X`, `Y` and data `[3, 1]` gives `[{name: "X", value: 3}, {name: "Y", value: 1}]`. */
  lemma PieExample()
    ensures Normalize("pie", Some(Input([Str("X"), Str("Y")], [Plain(Undefined, [Num(3), Num(1)])])))
      == [Obj(map["name" := Str("X"), "value" := Num(3)]), Obj(map["name" := Str("Y"), "value" := Num(1)])]
  {
  }

  /** Column `id` headed `ID` over rows `{id: 1}` and `{}`: cells `1` and `-`. */
  lemma TableExample()
    ensures
      var rows := [Obj(map["id" := Num(1)]), Obj(map[])];
      var columns := [ColumnDef("id", Str("ID"))];
      Render("table", Some(ChartInput(None, None, Some(rows), Some(columns))))
        == Ok(Table([Str("ID")], [["1"], ["-"]]))
  {
    var rows := [Obj(map["id" := Num(1)]), Obj(map[])];
    var columns := [ColumnDef("id", Str("ID"))];
    assert Decimal(1) == "1";
    assert CellText(rows[0], columns[0]) == Ok("1");
    assert CellText(rows[1], columns[0]) == Ok("-");
    assert columns[1..] == [];
    var first, second := RowCells(rows[0], columns), RowCells(rows[1], columns);
    assert first.value == ["1"];
    assert second.value == ["-"];
    var body := TableBody(rows, columns);
    assert body.value == [["1"], ["-"]];
    var data := Some(ChartInput(None, None, Some(rows), Some(columns)));
    assert Normalize("table", data) == rows;
    assert Headers(columns) == [Str("ID")];
  }
}
