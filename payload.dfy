/** The chart payloads that the server stores in an analysis record and the
    client renders, and the per-row columns both chart builders derive from
    spreadsheet rows. */
module ChartPayload {
  import opened Strings
  import opened JsValues

  /** A dataset's backgroundColor: one colour for all points, one
      `hsl(h, 70%, 60%)` colour per point given by its hue, or a list of
      colours. */
  datatype Fill = Solid(color: string) | Hues(hues: seq<int>) | Palette(colors: seq<string>)

  /** One Chart.js dataset. */
  datatype Series = Series(legend: string, data: seq<Value>, background: Fill,
                           border: Option<string>, borderWidth: Option<nat>)

  /** A chart payload: the Chart.js shape `{type, labels, datasets}` (the type
      is absent in the payload built at upload time), or the 3D shape
      `{type, x, y, z, labels}`. */
  datatype Payload =
    | Chart2D(chartType: Option<string>, labels: Option<seq<Value>>, datasets: seq<Series>)
    | Chart3D(kind: string, x: seq<Number>, y: seq<Number>, z: seq<Number>, pointLabels: seq<string>)

  const BaseColor := "rgba(75, 192, 192, 0.6)"
  const BorderColor := "rgba(75, 192, 192, 1)"

  /** The colour string `hsl(h, 70%, 60%)` for a non-negative hue. */
  function Hsl(h: nat): string {
    "hsl(" + NatToDecimal(h) + ", 70%, 60%)"
  }

  /** `String(row[key] ?? "")` for every row. */
  function LabelColumn(rows: seq<Row>, key: string): (ls: seq<string>)
    ensures |ls| == |rows|
    ensures forall i :: 0 <= i < |rows| ==> ls[i] == ToString(Nullish(Get(rows[i], key), Str("")))
  {
    seq(|rows|, i requires 0 <= i < |rows| => ToString(Nullish(Get(rows[i], key), Str(""))))
  }

  /** `Number(row[key] ?? 0)` for every row. */
  function NumberColumn(rows: seq<Row>, key: string): (ns: seq<Number>)
    ensures |ns| == |rows|
    ensures forall i :: 0 <= i < |rows| ==> ns[i] == ToNumber(Nullish(Get(rows[i], key), Zero))
  {
    seq(|rows|, i requires 0 <= i < |rows| => ToNumber(Nullish(Get(rows[i], key), Zero)))
  }

  /** `row[key]` for every row, uncoerced. */
  function RawColumn(rows: seq<Row>, key: string): (vs: seq<Value>)
    ensures |vs| == |rows|
    ensures forall i :: 0 <= i < |rows| ==> vs[i] == Get(rows[i], key)
  {
    seq(|rows|, i requires 0 <= i < |rows| => Get(rows[i], key))
  }

  /** A cell that is missing gives the label "" and the number 0. */
  lemma MissingCellDefaults(rows: seq<Row>, key: string, i: nat)
    requires i < |rows| && key !in Keys(rows[i])
    ensures LabelColumn(rows, key)[i] == ""
    ensures NumberColumn(rows, key)[i] == Real(0.0)
  {
  }

  /** A cell that holds a number is taken as it is. */
  lemma NumericCellKept(rows: seq<Row>, key: string, i: nat)
    requires i < |rows| && Get(rows[i], key).Num?
    ensures NumberColumn(rows, key)[i] == Get(rows[i], key).n
  {
  }

  /** Hues `(i * 40) % 360` for i below n. */
  function PieHues(n: nat): (hs: seq<int>)
    ensures |hs| == n
    ensures forall i :: 0 <= i < n ==> 0 <= hs[i] < 360 && hs[i] == (i * 40) % 360
  {
    seq(n, i requires 0 <= i < n => (i * 40) % 360)
  }

  /** The label `"<y> vs <x>"`. */
  function VersusLabel(xKey: string, yKey: string): string {
    yKey + " vs " + xKey
  }

  /** The label `"<y> distribution"`. */
  function DistributionLabel(yKey: string): string {
    yKey + " distribution"
  }

  /** The type field of a payload, if it has one. */
  function TypeOf(p: Payload): Option<string> {
    match p
    case Chart2D(t, _, _) => t
    case Chart3D(t, _, _, _, _) => Some(t)
  }

  /** Label strings as JavaScript values. */
  function StrValues(ss: seq<string>): (vs: seq<Value>)
    ensures |vs| == |ss|
    ensures forall i :: 0 <= i < |ss| ==> vs[i] == Str(ss[i])
  {
    seq(|ss|, i requires 0 <= i < |ss| => Str(ss[i]))
  }
}
