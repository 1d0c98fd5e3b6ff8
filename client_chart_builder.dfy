/** The client's copy of the chart builder. It differs from the server's:
    it knows 3d-scatter and pie-3d, keeps z for bar-3d, echoes the chart type
    in every shape and returns null for a type it does not know. */
module ClientChartBuilder {
  import opened Strings
  import opened JsValues
  import opened ChartPayload
  import Server = ServerChartBuilder

  function ScatterPoints(rows: seq<Row>, xKey: string, yKey: string): (ps: seq<Value>)
    ensures |ps| == |rows|
    ensures forall i :: 0 <= i < |rows| ==>
      ps[i] == Point(XY(NumberColumn(rows, xKey)[i], NumberColumn(rows, yKey)[i]))
  {
    var xs := NumberColumn(rows, xKey);
    var ys := NumberColumn(rows, yKey);
    seq(|rows|, i requires 0 <= i < |rows| => Point(XY(xs[i], ys[i])))
  }

  /** The pie dataset, shared by pie and pie-3d. */
  function PieSeries(rows: seq<Row>, yKey: string): Series {
    Series(DistributionLabel(yKey), NumValues(NumberColumn(rows, yKey)), Hues(PieHues(|rows|)), None, Some(1))
  }

  /** buildChartData, client version. */
  function Build(data: Option<seq<Row>>, chartType: string, xKey: string, yKey: string, zKey: string): (r: Option<Payload>)
    ensures data.None? || xKey == "" || yKey == "" ==> r.None?
    ensures r.Some? ==> TypeOf(r.value) == Some(chartType)
  {
    if data.None? || xKey == "" || yKey == "" then None
    else
      var rows := data.value;
      var labels := LabelColumn(rows, xKey);
      var xs := NumberColumn(rows, xKey);
      var ys := NumberColumn(rows, yKey);
      var zs := if zKey == "" then [] else NumberColumn(rows, zKey);
      if chartType in {"scatter3d", "3d-scatter", "line-3d", "bar-3d"} then
        Some(Chart3D(chartType, xs, ys, zs, labels))
      else if chartType == "pie-3d" || chartType == "pie" then
        Some(Chart2D(Some(chartType), Some(StrValues(labels)), [PieSeries(rows, yKey)]))
      else if chartType == "scatter" then
        Some(Chart2D(Some(chartType), None,
          [Series(VersusLabel(xKey, yKey), ScatterPoints(rows, xKey, yKey), Solid(BaseColor), None, None)]))
      else if chartType == "bar" || chartType == "line" then
        Some(Chart2D(Some(chartType), Some(StrValues(labels)),
          [Series(VersusLabel(xKey, yKey), NumValues(ys), Solid(BaseColor), Some(BorderColor), Some(1))]))
      else None
  }

  predicate IsKnownType(t: string) {
    t in {"scatter3d", "3d-scatter", "line-3d", "bar-3d", "pie-3d", "scatter", "pie", "bar", "line"}
  }

  /** Null exactly when the data is not an array, a key is missing, or the
      type is not one of the nine the switch knows. */
  lemma NullIff(data: Option<seq<Row>>, chartType: string, xKey: string, yKey: string, zKey: string)
    ensures Build(data, chartType, xKey, yKey, zKey).None?
        <==> data.None? || xKey == "" || yKey == "" || !IsKnownType(chartType)
  {
  }

  /** Every 3D type, bar-3d included, carries z as computed from the rows. */
  lemma ThreeDKeepsZ(rows: seq<Row>, chartType: string, xKey: string, yKey: string, zKey: string)
    requires xKey != "" && yKey != "" && chartType in {"scatter3d", "3d-scatter", "line-3d", "bar-3d"}
    ensures var p := Build(Some(rows), chartType, xKey, yKey, zKey).value;
      && p.Chart3D? && p.x == NumberColumn(rows, xKey) && p.y == NumberColumn(rows, yKey)
      && p.z == Server.ZColumn(rows, zKey) && p.pointLabels == LabelColumn(rows, xKey)
  {
  }

  /** pie and pie-3d build the same labels and datasets; only the type differs. */
  lemma PieThreeDIsPie(data: Option<seq<Row>>, xKey: string, yKey: string, zKey: string)
    ensures var a := Build(data, "pie-3d", xKey, yKey, zKey);
      var b := Build(data, "pie", xKey, yKey, zKey);
      && (a.None? <==> b.None?)
      && (a.Some? ==> a.value == b.value.(chartType := Some("pie-3d")))
  {
  }

  /** bar and line build the same shape; only the type differs. */
  lemma LineIsBar(data: Option<seq<Row>>, xKey: string, yKey: string, zKey: string)
    ensures var a := Build(data, "line", xKey, yKey, zKey);
      var b := Build(data, "bar", xKey, yKey, zKey);
      && (a.None? <==> b.None?)
      && (a.Some? ==> a.value == b.value.(chartType := Some("line")))
  {
  }

  /** For bar, line, pie, scatter, scatter3d and line-3d both builders produce the same payload. */
  lemma AgreesWithServer(data: Option<seq<Row>>, chartType: string, xKey: string, yKey: string, zKey: string)
    requires chartType in {"bar", "line", "pie", "scatter", "scatter3d", "line-3d"}
    ensures Build(data, chartType, xKey, yKey, zKey) == Server.Build(data, chartType, xKey, yKey, zKey)
  {
  }

  /** bar-3d is where the copies part: with a z column holding 5 the server
      sends depth 0 and the client sends 5. */
  lemma BarThreeDDiverges()
    ensures var rows := [[Entry("a", Zero), Entry("b", Zero), Entry("c", Num(Real(5.0)))]];
      && Build(Some(rows), "bar-3d", "a", "b", "c").value.z == [Real(5.0)]
      && Server.Build(Some(rows), "bar-3d", "a", "b", "c").value.z == [Real(0.0)]
  {
    var row := [Entry("a", Zero), Entry("b", Zero), Entry("c", Num(Real(5.0)))];
    assert "a" != "c" && "b" != "c";
    assert row[1..][1..] == [Entry("c", Num(Real(5.0)))];
    assert Get(row[1..][1..], "c") == Num(Real(5.0));
    assert Get(row, "c") == Num(Real(5.0));
  }

  /** pie-3d and 3d-scatter are where the copies part too: the server gives
      them the bar shape. */
  lemma ThreeDScatterDiverges(rows: seq<Row>, xKey: string, yKey: string, zKey: string)
    requires xKey != "" && yKey != ""
    ensures Build(Some(rows), "3d-scatter", xKey, yKey, zKey).value.Chart3D?
    ensures Server.Build(Some(rows), "3d-scatter", xKey, yKey, zKey).value.Chart2D?
  {
  }
}
