/** The server's chart builder: spreadsheet rows, a chart type and the axis
    keys become a chart payload. Unknown chart types get the bar shape. */
module ServerChartBuilder {
  import opened Strings
  import opened JsValues
  import opened ChartPayload

  /** One `{x, y}` point per row, from `Number(row[key] ?? 0)` on each axis. */
  function ScatterPoints(rows: seq<Row>, xKey: string, yKey: string): (ps: seq<Value>)
    ensures |ps| == |rows|
    ensures forall i :: 0 <= i < |rows| ==>
      ps[i] == Point(XY(NumberColumn(rows, xKey)[i], NumberColumn(rows, yKey)[i]))
  {
    var xs := NumberColumn(rows, xKey);
    var ys := NumberColumn(rows, yKey);
    seq(|rows|, i requires 0 <= i < |rows| => Point(XY(xs[i], ys[i])))
  }

  /** `zData`: empty without a z key, one number per row otherwise. */
  function ZColumn(rows: seq<Row>, zKey: string): (zs: seq<Number>)
    ensures zKey == "" ==> zs == []
    ensures zKey != "" ==> zs == NumberColumn(rows, zKey)
  {
    if zKey == "" then [] else NumberColumn(rows, zKey)
  }

  /** n zeros. */
  function Zeros(n: nat): (zs: seq<Number>)
    ensures |zs| == n && forall i :: 0 <= i < n ==> zs[i] == Real(0.0)
  {
    seq(n, _ => Real(0.0))
  }

  function BarSeries(rows: seq<Row>, xKey: string, yKey: string): Series {
    Series(VersusLabel(xKey, yKey), NumValues(NumberColumn(rows, yKey)), Solid(BaseColor), Some(BorderColor), Some(1))
  }

  function PieSeries(rows: seq<Row>, yKey: string): Series {
    Series(DistributionLabel(yKey), NumValues(NumberColumn(rows, yKey)), Hues(PieHues(|rows|)), None, Some(1))
  }

  function ScatterSeries(rows: seq<Row>, xKey: string, yKey: string): Series {
    Series(VersusLabel(xKey, yKey), ScatterPoints(rows, xKey, yKey), Solid(BaseColor), None, None)
  }

  /** buildChartData. `data` is None when it is not an array; an empty key
      stands for a missing (falsy) one. The caller supplies "bar" when no
      chart type is given. */
  function Build(data: Option<seq<Row>>, chartType: string, xKey: string, yKey: string, zKey: string): (r: Option<Payload>)
    ensures r.None? <==> data.None? || xKey == "" || yKey == ""
    ensures r.Some? ==> TypeOf(r.value) == Some(chartType)
  {
    if data.None? || xKey == "" || yKey == "" then None
    else
      var rows := data.value;
      var labels := LabelColumn(rows, xKey);
      var xs := NumberColumn(rows, xKey);
      var ys := NumberColumn(rows, yKey);
      var zs := ZColumn(rows, zKey);
      if chartType == "scatter3d" || chartType == "line-3d" then
        Some(Chart3D(chartType, xs, ys, zs, labels))
      else if chartType == "bar-3d" then
        Some(Chart3D(chartType, xs, ys, Zeros(|zs|), labels))
      else if chartType == "scatter" then
        Some(Chart2D(Some(chartType), None, [ScatterSeries(rows, xKey, yKey)]))
      else if chartType == "pie" then
        Some(Chart2D(Some(chartType), Some(StrValues(labels)), [PieSeries(rows, yKey)]))
      else
        Some(Chart2D(Some(chartType), Some(StrValues(labels)), [BarSeries(rows, xKey, yKey)]))
  }

  predicate IsKnownType(t: string) {
    t in {"scatter3d", "line-3d", "bar-3d", "scatter", "pie", "line", "bar"}
  }

  /** The 3D shapes carry one label, x and y per row, in row order, and a z
      per row exactly when a z key is given. */
  lemma ThreeDColumnsPerRow(rows: seq<Row>, chartType: string, xKey: string, yKey: string, zKey: string, i: nat)
    requires xKey != "" && yKey != "" && chartType in {"scatter3d", "line-3d", "bar-3d"}
    requires i < |rows|
    ensures var p := Build(Some(rows), chartType, xKey, yKey, zKey).value;
      && p.Chart3D?
      && |p.x| == |p.y| == |p.pointLabels| == |rows|
      && p.x[i] == ToNumber(Nullish(Get(rows[i], xKey), Zero))
      && p.y[i] == ToNumber(Nullish(Get(rows[i], yKey), Zero))
      && p.pointLabels[i] == ToString(Nullish(Get(rows[i], xKey), Str("")))
      && |p.z| == (if zKey == "" then 0 else |rows|)
  {
  }

  /** bar-3d flattens depth: z is all zeros, as long as zData. */
  lemma BarThreeDZeroDepth(rows: seq<Row>, xKey: string, yKey: string, zKey: string)
    requires xKey != "" && yKey != ""
    ensures var p := Build(Some(rows), "bar-3d", xKey, yKey, zKey).value;
      && |p.z| == |ZColumn(rows, zKey)|
      && (forall i :: 0 <= i < |p.z| ==> p.z[i] == Real(0.0))
      && (zKey == "" ==> p.z == [])
  {
  }

  /** scatter3d and line-3d keep z as computed. */
  lemma ThreeDKeepsZ(rows: seq<Row>, chartType: string, xKey: string, yKey: string, zKey: string, i: nat)
    requires xKey != "" && yKey != "" && zKey != "" && chartType in {"scatter3d", "line-3d"}
    requires i < |rows|
    ensures Build(Some(rows), chartType, xKey, yKey, zKey).value.z[i] == ToNumber(Nullish(Get(rows[i], zKey), Zero))
  {
  }

  /** scatter: one dataset holding one point per row, in row order. */
  lemma ScatterOnePointPerRow(rows: seq<Row>, xKey: string, yKey: string, zKey: string, i: nat)
    requires xKey != "" && yKey != "" && i < |rows|
    ensures var p := Build(Some(rows), "scatter", xKey, yKey, zKey).value;
      && p.Chart2D? && p.labels.None? && |p.datasets| == 1
      && |p.datasets[0].data| == |rows|
      && p.datasets[0].data[i] == Point(XY(ToNumber(Nullish(Get(rows[i], xKey), Zero)),
                                           ToNumber(Nullish(Get(rows[i], yKey), Zero))))
  {
  }

  /** pie: one label and one value per row (nothing is grouped), and slice i
      has hue (i * 40) mod 360. */
  lemma PieOneSlicePerRow(rows: seq<Row>, xKey: string, yKey: string, zKey: string, i: nat)
    requires xKey != "" && yKey != "" && i < |rows|
    ensures var p := Build(Some(rows), "pie", xKey, yKey, zKey).value;
      && p.Chart2D? && p.labels.Some? && |p.datasets| == 1
      && |p.labels.value| == |p.datasets[0].data| == |rows|
      && p.labels.value[i] == Str(ToString(Nullish(Get(rows[i], xKey), Str(""))))
      && p.datasets[0].data[i] == Num(ToNumber(Nullish(Get(rows[i], yKey), Zero)))
      && p.datasets[0].legend == yKey + " distribution"
      && p.datasets[0].background.Hues?
      && |p.datasets[0].background.hues| == |rows|
      && 0 <= p.datasets[0].background.hues[i] < 360
      && p.datasets[0].background.hues[i] == (i * 40) % 360
  {
  }

  /** bar, the default shape: one label and one value per row, in row
      order, nothing grouped, one solid-coloured dataset named "y vs x". */
  lemma BarOneValuePerRow(rows: seq<Row>, xKey: string, yKey: string, zKey: string, i: nat)
    requires xKey != "" && yKey != "" && i < |rows|
    ensures var p := Build(Some(rows), "bar", xKey, yKey, zKey).value;
      && p.Chart2D? && p.labels == Some(StrValues(LabelColumn(rows, xKey)))
      && |p.datasets| == 1
      && |p.labels.value| == |p.datasets[0].data| == |rows|
      && p.labels.value[i] == Str(ToString(Nullish(Get(rows[i], xKey), Str(""))))
      && p.datasets[0].data[i] == Num(NumberColumn(rows, yKey)[i])
      && p.datasets[0].data[i] == Num(ToNumber(Nullish(Get(rows[i], yKey), Zero)))
      && p.datasets[0].legend == yKey + " vs " + xKey
      && p.datasets[0].background == Solid(BaseColor)
  {
  }

  /** A type outside the switch (3d-scatter and pie-3d among them) gets the bar
      payload, with its own name as the type. */
  lemma UnknownTypeIsBar(data: Option<seq<Row>>, chartType: string, xKey: string, yKey: string, zKey: string)
    requires !IsKnownType(chartType)
    ensures var r := Build(data, chartType, xKey, yKey, zKey);
      var bar := Build(data, "bar", xKey, yKey, zKey);
      && (r.None? <==> bar.None?)
      && (r.Some? ==> r.value == bar.value.(chartType := Some(chartType)))
  {
  }

  /** The bar and line payloads differ only in their type. */
  lemma LineIsBar(data: Option<seq<Row>>, xKey: string, yKey: string, zKey: string)
    ensures var l := Build(data, "line", xKey, yKey, zKey);
      var b := Build(data, "bar", xKey, yKey, zKey);
      && (l.None? <==> b.None?)
      && (l.Some? ==> l.value == b.value.(chartType := Some("line")))
      && (l.Some? ==> l.value.datasets[0].legend == yKey + " vs " + xKey)
  {
  }
}
