/** The chart dispatcher of the client: the three 3D types go to their
    Plotly or three.js component with the rows they expect, an empty x or
    y column shows a "No data" notice, and bar, line, pie and scatter go to
    the Chart.js component with the supplied datasets or a default one. */
module ChartView {
  import opened JsValues
  import opened ChartPayload
  import opened Categories
  import ChartPage

  /** The title of each known chart type. */
  function Title(chartType: Option<string>): (t: Option<string>)
    ensures t.Some? <==> chartType.Some? && chartType.value in ChartPage.ChartTypes
  {
    match chartType
    case None => None
    case Some(c) =>
      if c == "bar" then Some("Bar Chart")
      else if c == "line" then Some("Line Chart")
      else if c == "pie" then Some("Pie Chart")
      else if c == "scatter" then Some("Scatter Chart")
      else if c == "bar-3d" then Some("3D Bar Chart")
      else if c == "pie-3d" then Some("3D Pie Chart")
      else if c == "3d-scatter" then Some("3D Scatter Chart")
      else None
  }

  /** A possibly missing title with its fallback (`title || fallback`). */
  function TitleOr(chartType: Option<string>, fallback: string): string {
    match Title(chartType)
    case Some(t) => t
    case None => fallback
  }

  /** The four Chart.js components. */
  datatype Kind = Bar | Line | Pie | Scatter

  /** `chartMap[chartType]`. */
  function KindOf(chartType: Option<string>): (k: Option<Kind>)
    ensures k.Some? <==> chartType in {Some("bar"), Some("line"), Some("pie"), Some("scatter")}
    ensures k == Some(Pie) <==> chartType == Some("pie")
  {
    if chartType == Some("bar") then Some(Bar)
    else if chartType == Some("line") then Some(Line)
    else if chartType == Some("pie") then Some(Pie)
    else if chartType == Some("scatter") then Some(Scatter)
    else None
  }

  /** Whether the type goes to one of the 3D components. */
  predicate Is3D(chartType: Option<string>) {
    chartType in {Some("bar-3d"), Some("pie-3d"), Some("3d-scatter")}
  }

  /** The axis titles of a Chart.js chart; a pie chart has none. */
  datatype Scales = NoScales | AxisTitles(x: string, y: string)

  datatype View =
    | MeshView(rows: seq<Row>, xKey: string, yKey: string, zKey: string, title: string)
    | PieView(rows: seq<Row>, labelKey: string, valueKey: string, title: string)
    | ScatterView(scatterType: string, xs: seq<Value>, ys: seq<Value>, zs: seq<Value>,
                  xKey: string, yKey: string, zKey: string, title: string)
    | NoData(message: string)
    | Chart2DView(kind: Kind, labels: Option<seq<Value>>, datasets: seq<Series>, title: string, scales: Scales)
    | Unsupported(unknownType: Option<string>)

  const DefaultColors: seq<string> := [
    "rgba(255, 99, 132, 0.6)", "rgba(54, 162, 235, 0.6)", "rgba(255, 206, 86, 0.6)",
    "rgba(75, 192, 192, 0.6)", "rgba(153, 102, 255, 0.6)", "rgba(255, 159, 64, 0.6)"]
  const DefaultBorder := "rgba(0,0,0,0.1)"

  /** A label prop that falls back to its default when it is not passed. */
  function PropOr(p: Option<string>, d: string): string {
    match p
    case Some(s) => s
    case None => d
  }

  /** `s || d` on a string. */
  function NonEmptyOr(s: string, d: string): (r: string)
    ensures r != []
    ensures s != [] ==> r == s
    requires d != []
  {
    if s != [] then s else d
  }

  /** The object literal `{[xKey]: x, [yKey]: y, [zKey]: z}`: a later
      computed key that repeats an earlier one overwrites its value. */
  function MeshRow(xKey: string, yKey: string, zKey: string, x: Value, y: Value, z: Value): (r: Row)
    ensures Get(r, zKey) == z
    ensures yKey != zKey ==> Get(r, yKey) == y
    ensures xKey != yKey && xKey != zKey ==> Get(r, xKey) == x
    ensures forall k :: k != xKey && k != yKey && k != zKey ==> Get(r, k) == Undefined
  {
    Put(Put(Put([], xKey, x), yKey, y), zKey, z)
  }

  /** The object literal `{[labelKey]: x, [valueKey]: y}`. */
  function PieRow(labelKey: string, valueKey: string, x: Value, y: Value): (r: Row)
    ensures Get(r, valueKey) == y
    ensures labelKey != valueKey ==> Get(r, labelKey) == x
    ensures forall k :: k != labelKey && k != valueKey ==> Get(r, k) == Undefined
  {
    Put(Put([], labelKey, x), valueKey, y)
  }

  /** One row per x value; y and z cells past the end of their columns are
      undefined. */
  function MeshRows(xs: seq<Value>, ys: seq<Value>, zs: seq<Value>, xKey: string, yKey: string, zKey: string): (rows: seq<Row>)
    ensures |rows| == |xs|
    ensures forall i :: 0 <= i < |xs| ==> rows[i] == MeshRow(xKey, yKey, zKey, xs[i], At(ys, i), At(zs, i))
  {
    seq(|xs|, i requires 0 <= i < |xs| => MeshRow(xKey, yKey, zKey, xs[i], At(ys, i), At(zs, i)))
  }

  function PieRows(xs: seq<Value>, ys: seq<Value>, labelKey: string, valueKey: string): (rows: seq<Row>)
    ensures |rows| == |xs|
    ensures forall i :: 0 <= i < |xs| ==> rows[i] == PieRow(labelKey, valueKey, xs[i], At(ys, i))
  {
    seq(|xs|, i requires 0 <= i < |xs| => PieRow(labelKey, valueKey, xs[i], At(ys, i)))
  }

  /** The dataset used when none is supplied. */
  function DefaultDataset(xKey: string, yKey: string, ys: seq<Value>): Series {
    Series(VersusLabel(xKey, yKey), ys, Palette(DefaultColors), Some(DefaultBorder), Some(1))
  }

  /** The component. */
  function Render(chartType: Option<string>, xs: seq<Value>, ys: seq<Value>, zs: seq<Value>,
                  datasets: Option<seq<Series>>, labels: Option<seq<Value>>,
                  xLabel: Option<string>, yLabel: Option<string>, zLabel: Option<string>): (v: View)
    ensures
      var x, y, z := PropOr(xLabel, "X Axis"), PropOr(yLabel, "Y Axis"), PropOr(zLabel, "Z Axis");
      && (chartType == Some("bar-3d") ==> v == MeshView(MeshRows(xs, ys, zs, x, y, z), x, y, z, "3D Bar Chart"))
      && (chartType == Some("pie-3d") ==>
            var lk, vk := NonEmptyOr(x, "Category"), NonEmptyOr(y, "Value");
            v == PieView(PieRows(xs, ys, lk, vk), lk, vk, "3D Pie Chart"))
      && (chartType == Some("3d-scatter") ==> v == ScatterView("3d-scatter", xs, ys, zs, x, y, z, "3D Scatter Chart"))
      && (!Is3D(chartType) ==>
            && (v.NoData? <==> xs == [] || ys == [])
            && (v.NoData? ==> v.message == "No data available for " + TitleOr(chartType, "this chart"))
            && (v.Chart2DView? <==> xs != [] && ys != [] && KindOf(chartType).Some?)
            && (v.Unsupported? <==> xs != [] && ys != [] && KindOf(chartType).None?)
            && (v.Unsupported? ==> v.unknownType == chartType)
            && (v.Chart2DView? ==>
                  && Some(v.kind) == KindOf(chartType)
                  && v.labels == labels
                  && v.title == TitleOr(chartType, "Chart")
                  && v.datasets == (if datasets.Some? then datasets.value else [DefaultDataset(x, y, ys)])
                  && (v.scales == NoScales <==> chartType == Some("pie"))
                  && (v.scales.AxisTitles? ==> v.scales == AxisTitles(x, y))))
  {
    var x, y, z := PropOr(xLabel, "X Axis"), PropOr(yLabel, "Y Axis"), PropOr(zLabel, "Z Axis");
    if chartType == Some("bar-3d") then
      MeshView(MeshRows(xs, ys, zs, x, y, z), x, y, z, "3D Bar Chart")
    else if chartType == Some("pie-3d") then
      var lk, vk := NonEmptyOr(x, "Category"), NonEmptyOr(y, "Value");
      PieView(PieRows(xs, ys, lk, vk), lk, vk, "3D Pie Chart")
    else if chartType == Some("3d-scatter") then
      ScatterView("3d-scatter", xs, ys, zs, x, y, z, "3D Scatter Chart")
    else if xs == [] || ys == [] then
      NoData("No data available for " + TitleOr(chartType, "this chart"))
    else
      var ds := if datasets.Some? then datasets.value else [DefaultDataset(x, y, ys)];
      match KindOf(chartType)
      case Some(k) => Chart2DView(k, labels, ds, TitleOr(chartType, "Chart"), if k == Pie then NoScales else AxisTitles(x, y))
      case None => Unsupported(chartType)
  }

  /** Every type the chart page can settle on is drawn by some component;
      only types outside that list reach the "unsupported" notice. */
  lemma NormalizedTypesRender(t: Option<string>, xs: seq<Value>, ys: seq<Value>, zs: seq<Value>,
                              datasets: Option<seq<Series>>, labels: Option<seq<Value>>,
                              xLabel: Option<string>, yLabel: Option<string>, zLabel: Option<string>)
    ensures !Render(Some(ChartPage.NormalizeChartType(t)), xs, ys, zs, datasets, labels, xLabel, yLabel, zLabel).Unsupported?
  {
    var r := ChartPage.NormalizeChartType(t);
    assert r in ChartPage.ChartTypes;
  }

  /** The 3D components read the x, y and z columns back out of the rows
      built for them, provided the three axis labels differ. */
  lemma MeshRowsRoundTrip(xs: seq<Value>, ys: seq<Value>, zs: seq<Value>, xKey: string, yKey: string, zKey: string)
    requires xKey != yKey && yKey != zKey && xKey != zKey
    ensures RawColumn(MeshRows(xs, ys, zs, xKey, yKey, zKey), xKey) == xs
    ensures forall i :: 0 <= i < |xs| ==>
      && RawColumn(MeshRows(xs, ys, zs, xKey, yKey, zKey), yKey)[i] == At(ys, i)
      && RawColumn(MeshRows(xs, ys, zs, xKey, yKey, zKey), zKey)[i] == At(zs, i)
  {
    var rows := MeshRows(xs, ys, zs, xKey, yKey, zKey);
    assert forall i :: 0 <= i < |xs| ==> RawColumn(rows, xKey)[i] == xs[i];
  }

  /** With one label used for both axes of a 3D pie, the value overwrites
      the category in every row. */
  lemma SharedPieKeyLosesLabel(xs: seq<Value>, ys: seq<Value>, key: string, i: nat)
    requires i < |xs|
    ensures Get(PieRows(xs, ys, key, key)[i], key) == At(ys, i)
    ensures |PieRows(xs, ys, key, key)[i]| == 1
  {
  }

  /** No empty label reaches the 3D pie: an empty axis label falls back to
      "Category" or "Value". */
  lemma PieKeysNonEmpty(xs: seq<Value>, ys: seq<Value>, xLabel: Option<string>, yLabel: Option<string>)
    ensures var v := Render(Some("pie-3d"), xs, ys, [], None, None, xLabel, yLabel, None);
      v.PieView? && v.labelKey != [] && v.valueKey != []
  {
  }
}
