/** The chart editor page: it loads an analysis, picks the saved or default
    axes, checks the chosen axes against the uploaded columns before saving,
    merges the saved chart into its copy of the analysis, and derives the
    x, y and z columns it hands to the chart dispatcher. */
module Visualize {
  import opened Strings
  import opened JsValues
  import opened ChartPayload
  import ClientChartBuilder
  import ChartView
  import Pie3D
  import AnalysisRoute

  /** The analysis as the page receives it; every field may be absent. */
  datatype ClientAnalysis = ClientAnalysis(
    filename: string, chartType: Option<string>,
    xAxis: Option<string>, yAxis: Option<string>, zAxis: Option<string>,
    availableColumns: Option<seq<string>>, rawData: Option<seq<Row>>,
    chartData: Option<Payload>)

  /** How the analysis fetch ended: with the record, with a status that is
      not ok, or with another error carrying its message. */
  datatype Fetched = Loaded(data: ClientAnalysis) | NotOk | FetchFailed(message: string)

  /** How the chart update request ended. */
  datatype Saved = SavedChart(chartData: Option<Payload>) | SaveFailed

  /** A present, non-empty string (a truthy string or null). */
  predicate Given(s: Option<string>) {
    s.Some? && s.value != ""
  }

  /** `a || b || ""` on strings that may be absent. */
  function FirstGiven(a: Option<string>, b: Option<string>): (r: string)
    ensures Given(a) ==> r == a.value
    ensures !Given(a) && Given(b) ==> r == b.value
    ensures !Given(a) && !Given(b) ==> r == ""
  {
    if Given(a) then a.value else if Given(b) then b.value else ""
  }

  /** `columns?.[i]`. */
  function ColumnAt(columns: Option<seq<string>>, i: nat): (c: Option<string>)
    ensures c.Some? <==> columns.Some? && i < |columns.value|
    ensures c.Some? ==> c.value == columns.value[i]
  {
    if columns.Some? && i < |columns.value| then Some(columns.value[i]) else None
  }

  /** `columns || []`. */
  function ColumnsOf(a: ClientAnalysis): seq<string> {
    if a.availableColumns.Some? then a.availableColumns.value else []
  }

  /** Whether the type names a three-dimensional chart. */
  predicate IsThreeD(chartType: string) {
    Contains(chartType, "3d")
  }

  /** The axes a chart type needs: x, y, and z too for a 3D type. */
  function RequiredAxes(chartType: string, x: string, y: string, z: string): (r: seq<string>)
    ensures IsThreeD(chartType) ==> r == [x, y, z]
    ensures !IsThreeD(chartType) ==> r == [x, y]
  {
    if IsThreeD(chartType) then [x, y, z] else [x, y]
  }

  /** `requiredAxes.every(col => allColumns.includes(col))`. */
  function AxesValid(chartType: string, x: string, y: string, z: string, columns: seq<string>): (ok: bool)
    ensures ok <==> x in columns && y in columns && (IsThreeD(chartType) ==> z in columns)
  {
    var req := RequiredAxes(chartType, x, y, z);
    assert req[0] == x && req[1] == y && (|req| == 3 ==> req[2] == z);
    forall i :: 0 <= i < |req| ==> req[i] in columns
  }

  /** A selection the page accepts for a 3D chart is one the server accepts. */
  lemma ThreeDSelectionPassesServer(chartType: string, x: string, y: string, z: string, columns: seq<string>)
    requires IsThreeD(chartType) && AxesValid(chartType, x, y, z, columns)
    ensures AnalysisRoute.AxesAccepted(x, y, z, columns)
  {
  }

  /** For a 2D chart the page does not look at z but still sends it, so a z
      left over from an earlier choice that is no longer a column passes
      the page and is refused by the server. */
  lemma StaleZPassesPageOnly(chartType: string, x: string, y: string, z: string, columns: seq<string>)
    requires !IsThreeD(chartType) && x in columns && y in columns && z != "" && z !in columns
    ensures AxesValid(chartType, x, y, z, columns)
    ensures !AnalysisRoute.AxesAccepted(x, y, z, columns)
  {
  }

  /** Without columns no selection is valid. */
  lemma NoColumnsNoSave(chartType: string, x: string, y: string, z: string)
    ensures !AxesValid(chartType, x, y, z, [])
  {
  }

  // ---- the chart shown on the page ----

  /** `payload?.x ?? payload?.labels ?? []`. */
  function DisplayX(p: Option<Payload>): (xs: seq<Value>)
    ensures p.Some? && p.value.Chart3D? ==> xs == NumValues(p.value.x)
    ensures p.Some? && p.value.Chart2D? && p.value.labels.Some? ==> xs == p.value.labels.value
    ensures p.None? || (p.value.Chart2D? && p.value.labels.None?) ==> xs == []
  {
    match p
    case None => []
    case Some(Chart3D(_, x, _, _, _)) => NumValues(x)
    case Some(Chart2D(_, labels, _)) => if labels.Some? then labels.value else []
  }

  /** `payload?.y ?? payload?.datasets?.[0]?.data ?? []`. */
  function DisplayY(p: Option<Payload>): (ys: seq<Value>)
    ensures p.Some? && p.value.Chart3D? ==> ys == NumValues(p.value.y)
    ensures p.Some? && p.value.Chart2D? && p.value.datasets != [] ==> ys == p.value.datasets[0].data
    ensures p.None? || (p.value.Chart2D? && p.value.datasets == []) ==> ys == []
  {
    match p
    case None => []
    case Some(Chart3D(_, _, y, _, _)) => NumValues(y)
    case Some(Chart2D(_, _, ds)) => if ds != [] then ds[0].data else []
  }

  /** `payload?.z ?? []`. */
  function DisplayZ(p: Option<Payload>): (zs: seq<Value>)
    ensures p.Some? && p.value.Chart3D? ==> zs == NumValues(p.value.z)
    ensures !(p.Some? && p.value.Chart3D?) ==> zs == []
  {
    if p.Some? && p.value.Chart3D? then NumValues(p.value.z) else []
  }

  /** `payload.datasets` and `payload.labels` as the dispatcher receives them. */
  function DatasetsOf(p: Payload): Option<seq<Series>> {
    if p.Chart2D? then Some(p.datasets) else None
  }

  function LabelsOf(p: Payload): Option<seq<Value>> {
    if p.Chart2D? then p.labels else Some(StrValues(p.pointLabels))
  }

  /** `!payload || (!payload.datasets && !payload.x)`. */
  predicate InvalidConfig(p: Option<Payload>) {
    p.None? || (DatasetsOf(p.value).None? && !p.value.Chart3D?)
  }

  /** The page shows "Invalid chart configuration" exactly when the builder
      returns null: no rows, an axis not chosen, or a type it does not know. */
  lemma InvalidConfigIff(data: Option<seq<Row>>, chartType: string, x: string, y: string, z: string)
    ensures InvalidConfig(ClientChartBuilder.Build(data, chartType, x, y, z))
        <==> data.None? || x == "" || y == "" || !ClientChartBuilder.IsKnownType(chartType)
  {
    ClientChartBuilder.NullIff(data, chartType, x, y, z);
  }

  // ---- summary of the PDF report ----

  /** Every entry is a finite number. */
  predicate AllReal(ys: seq<Value>) {
    forall i :: 0 <= i < |ys| ==> ys[i].Num? && ys[i].n.Real?
  }

  function Reals(ys: seq<Value>): (rs: seq<real>)
    requires AllReal(ys)
    ensures |rs| == |ys|
    ensures forall i :: 0 <= i < |ys| ==> rs[i] == ys[i].n.v
  {
    seq(|ys|, i requires 0 <= i < |ys| => ys[i].n.v)
  }

  /** The first position of the largest number. */
  function FirstMaxIndex(rs: seq<real>): (k: nat)
    requires rs != []
    ensures k < |rs|
    ensures forall j :: 0 <= j < |rs| ==> rs[j] <= rs[k]
    ensures forall j :: 0 <= j < k ==> rs[j] < rs[k]
  {
    if |rs| == 1 then 0
    else
      var k := FirstMaxIndex(rs[..|rs| - 1]);
      if rs[|rs| - 1] > rs[k] then |rs| - 1 else k
  }

  /** The first position of the smallest number. */
  function FirstMinIndex(rs: seq<real>): (k: nat)
    requires rs != []
    ensures k < |rs|
    ensures forall j :: 0 <= j < |rs| ==> rs[k] <= rs[j]
    ensures forall j :: 0 <= j < k ==> rs[k] < rs[j]
  {
    if |rs| == 1 then 0
    else
      var k := FirstMinIndex(rs[..|rs| - 1]);
      if rs[|rs| - 1] < rs[k] then |rs| - 1 else k
  }

  /** `ys.indexOf(Math.max(...ys))`: -1 for an empty list or one holding a
      value that is not a finite number (the maximum is then -Infinity or
      NaN, which indexOf never finds). */
  function TopIndex(ys: seq<Value>): (r: int)
    ensures r == -1 <==> ys == [] || !AllReal(ys)
    ensures r >= 0 ==> && r < |ys| && AllReal(ys)
                       && (forall j :: 0 <= j < |ys| ==> ys[j].n.v <= ys[r].n.v)
                       && (forall j :: 0 <= j < r ==> ys[j].n.v < ys[r].n.v)
  {
    if ys == [] || !AllReal(ys) then -1 else FirstMaxIndex(Reals(ys))
  }

  /** `ys.indexOf(Math.min(...ys))`. */
  function LowIndex(ys: seq<Value>): (r: int)
    ensures r == -1 <==> ys == [] || !AllReal(ys)
    ensures r >= 0 ==> && r < |ys| && AllReal(ys)
                       && (forall j :: 0 <= j < |ys| ==> ys[r].n.v <= ys[j].n.v)
                       && (forall j :: 0 <= j < r ==> ys[r].n.v < ys[j].n.v)
  {
    if ys == [] || !AllReal(ys) then -1 else FirstMinIndex(Reals(ys))
  }

  /** `ys.reduce((a, b) => a + b, 0)` with JavaScript's `+`: the sum of the
      numbers, NaN once a NaN is added, and a string from the first string
      or object on. */
  function Total(ys: seq<Value>): (r: Value)
    ensures AllReal(ys) ==> r == Num(Real(Pie3D.Sum(Reals(ys))))
    ensures (exists i :: 0 <= i < |ys| && (ys[i].Str? || ys[i].Point?)) ==> r.Str?
  {
    if ys == [] then Num(Real(0.0))
    else
      var p := ys[..|ys| - 1];
      var t := Total(p);
      assert AllReal(ys) ==> Reals(p) == Reals(ys)[..|ys| - 1];
      assert (exists i :: 0 <= i < |ys| && (ys[i].Str? || ys[i].Point?))
          ==> (exists i :: 0 <= i < |p| && (p[i].Str? || p[i].Point?)) || ys[|ys| - 1].Str? || ys[|ys| - 1].Point?
      by {
        if exists i :: 0 <= i < |ys| && (ys[i].Str? || ys[i].Point?) {
          var i :| 0 <= i < |ys| && (ys[i].Str? || ys[i].Point?);
          if i < |p| {
            assert p[i] == ys[i];
          }
        }
      }
      JsAdd(t, ys[|ys| - 1])
  }

  /** The Z selector and the z axis requirement go together. */
  lemma ZSelectorMeansZRequired(chartType: string, x: string, y: string, z: string)
    ensures IsThreeD(chartType) <==> |RequiredAxes(chartType, x, y, z)| == 3
  {
  }

  /** What the page shows. */
  datatype Screen =
    | SelectFile
    | ErrorText(text: string)
    | LoadingAnalysis
    | InvalidChart
    | ChartScreen(view: ChartView.View, showZ: bool)

  /** The page's state. */
  class Page {
    var fileId: Option<string>
    var analysis: Option<ClientAnalysis>
    var error: string
    var chartType: string
    var xAxis: string
    var yAxis: string
    var zAxis: string
    var saving: bool

    constructor (fileId: Option<string>)
      ensures this.fileId == fileId && analysis == None && error == ""
      ensures chartType == "bar" && xAxis == "" && yAxis == "" && zAxis == "" && !saving
    {
      this.fileId := fileId;
      analysis := None;
      error := "";
      chartType := "bar";
      xAxis := "";
      yAxis := "";
      zAxis := "";
      saving := false;
    }

    /** The effect that loads the analysis: nothing without a file id, an
        error without a token or when the fetch fails, and otherwise the
        record with its saved or default chart type and axes. */
    method Load(token: Option<string>, response: Fetched)
      modifies this
      ensures !Given(old(fileId)) ==> unchanged(this)
      ensures Given(old(fileId)) && !Given(token) ==>
        error == "Not authenticated" && analysis == old(analysis) && chartType == old(chartType)
        && xAxis == old(xAxis) && yAxis == old(yAxis) && zAxis == old(zAxis)
      ensures Given(old(fileId)) && Given(token) ==> match response
        case NotOk => error == "Failed to load analysis" && analysis == old(analysis)
        case FetchFailed(m) => error == m && analysis == old(analysis)
        case Loaded(d) =>
          && analysis == Some(d) && error == old(error)
          && chartType == FirstGiven(d.chartType, Some("bar"))
          && xAxis == FirstGiven(d.xAxis, ColumnAt(d.availableColumns, 0))
          && yAxis == FirstGiven(d.yAxis, ColumnAt(d.availableColumns, 1))
          && zAxis == FirstGiven(d.zAxis, None)
      ensures fileId == old(fileId) && saving == old(saving)
      ensures !(Given(old(fileId)) && Given(token) && response.Loaded?) ==>
        chartType == old(chartType) && xAxis == old(xAxis) && yAxis == old(yAxis) && zAxis == old(zAxis)
    {
      if !Given(fileId) {
        return;
      }
      if !Given(token) {
        error := "Not authenticated";
        return;
      }
      match response
      case NotOk =>
        error := "Failed to load analysis";
      case FetchFailed(m) =>
        error := m;
      case Loaded(d) =>
        analysis := Some(d);
        chartType := FirstGiven(d.chartType, Some("bar"));
        xAxis := FirstGiven(d.xAxis, ColumnAt(d.availableColumns, 0));
        yAxis := FirstGiven(d.yAxis, ColumnAt(d.availableColumns, 1));
        zAxis := FirstGiven(d.zAxis, None);
    }

    /** The chart type selector. */
    method SelectChartType(t: string)
      modifies this
      ensures chartType == t
      ensures analysis == old(analysis) && xAxis == old(xAxis) && yAxis == old(yAxis) && zAxis == old(zAxis)
      ensures fileId == old(fileId) && error == old(error) && saving == old(saving)
    {
      chartType := t;
    }

    /** The three axis selectors. */
    method SelectAxes(x: string, y: string, z: string)
      modifies this
      ensures xAxis == x && yAxis == y && zAxis == z
      ensures analysis == old(analysis) && chartType == old(chartType)
      ensures fileId == old(fileId) && error == old(error) && saving == old(saving)
    {
      xAxis, yAxis, zAxis := x, y, z;
    }

    /** `handleSave`: refused without a token or with an axis outside the
        columns, before any request; after a successful request the saved
        chart, type and axes replace those in the page's copy of the
        analysis and every other field is kept. */
    method Save(token: Option<string>, response: Saved) returns (alert: string, sent: bool)
      requires analysis.Some?
      modifies this
      ensures !Given(token) ==> alert == "Not authenticated" && !sent && unchanged(this)
      ensures Given(token) && !AxesValid(old(chartType), old(xAxis), old(yAxis), old(zAxis), ColumnsOf(old(analysis).value)) ==>
        alert == "Invalid axis selection" && !sent && unchanged(this)
      ensures sent <==> Given(token) && AxesValid(old(chartType), old(xAxis), old(yAxis), old(zAxis), ColumnsOf(old(analysis).value))
      ensures sent ==> !saving
      ensures sent && response.SavedChart? ==> (alert == "Chart configuration saved!" &&
        analysis == Some(old(analysis).value.(chartData := response.chartData, chartType := Some(old(chartType)),
                                                 xAxis := Some(old(xAxis)), yAxis := Some(old(yAxis)), zAxis := Some(old(zAxis)))))
      ensures sent && response.SaveFailed? ==> alert == "Failed to save chart config" && analysis == old(analysis)
      ensures fileId == old(fileId) && error == old(error) && chartType == old(chartType)
      ensures xAxis == old(xAxis) && yAxis == old(yAxis) && zAxis == old(zAxis)
    {
      if !Given(token) {
        return "Not authenticated", false;
      }
      if !AxesValid(chartType, xAxis, yAxis, zAxis, ColumnsOf(analysis.value)) {
        return "Invalid axis selection", false;
      }
      saving := true;
      sent := true;
      match response {
        case SavedChart(cd) =>
          analysis := Some(analysis.value.(chartData := cd, chartType := Some(chartType),
                                           xAxis := Some(xAxis), yAxis := Some(yAxis), zAxis := Some(zAxis)));
          alert := "Chart configuration saved!";
        case SaveFailed =>
          alert := "Failed to save chart config";
      }
      saving := false;
    }

    /** What the page renders: the chart built from the stored rows with the
        current selections, handed to the dispatcher. */
    function Shown(): (s: Screen)
      reads this
      ensures !Given(fileId) ==> s == SelectFile
      ensures Given(fileId) && error != "" ==> s == ErrorText(error)
      ensures Given(fileId) && error == "" && analysis.None? ==> s == LoadingAnalysis
      ensures s.InvalidChart? <==> Given(fileId) && error == "" && analysis.Some?
                                   && ClientChartBuilder.Build(analysis.value.rawData, chartType, xAxis, yAxis, zAxis).None?
      ensures s.ChartScreen? ==> s.showZ == IsThreeD(chartType)
    {
      if !Given(fileId) then SelectFile
      else if error != "" then ErrorText(error)
      else if analysis.None? then LoadingAnalysis
      else
        var p := ClientChartBuilder.Build(analysis.value.rawData, chartType, xAxis, yAxis, zAxis);
        if InvalidConfig(p) then InvalidChart
        else ChartScreen(ChartView.Render(Some(chartType), DisplayX(p), DisplayY(p), DisplayZ(p),
                                          DatasetsOf(p.value), LabelsOf(p.value),
                                          Some(xAxis), Some(yAxis), Some(zAxis)),
                         IsThreeD(chartType))
    }
  }

  /** The chart picker offers "line-3d", the builder gives it the 3D shape,
      and the dispatcher has no component for it: with rows and both axes
      chosen the page shows the unsupported-type notice. */
  lemma LineThreeDUnsupported(rows: seq<Row>, x: string, y: string, z: string)
    requires rows != [] && x != "" && y != ""
    ensures var p := ClientChartBuilder.Build(Some(rows), "line-3d", x, y, z);
      && !InvalidConfig(p)
      && ChartView.Render(Some("line-3d"), DisplayX(p), DisplayY(p), DisplayZ(p),
                          DatasetsOf(p.value), LabelsOf(p.value), Some(x), Some(y), Some(z)).Unsupported?
  {
    var p := ClientChartBuilder.Build(Some(rows), "line-3d", x, y, z);
    assert p.Some? && p.value.Chart3D?;
    assert |DisplayX(p)| == |rows|;
    assert |DisplayY(p)| == |rows|;
  }
}
