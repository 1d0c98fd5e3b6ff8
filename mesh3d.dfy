/** The 3D bar component: one box per row, placed on a grid whose x and z
    positions are the indices of the row's x and z categories, with heights
    rescaled into [1, 10]. */
module Mesh3D {
  import opened JsValues
  import opened Categories
  import ChartPayload

  // ---- categorical axes ----

  /** The tick positions `cats.map(c => map[c])`. */
  function Ticks(cats: seq<Value>): (ts: seq<nat>)
    ensures |ts| == |cats|
    ensures forall i :: 0 <= i < |cats| ==> ts[i] == Position(cats, cats[i]) && ts[i] >= i
  {
    seq(|cats|, i requires 0 <= i < |cats| => Position(cats, cats[i]))
  }

  /** When no two categories share a key the ticks are exactly 0 .. n - 1. */
  lemma TicksAreIndices(cats: seq<Value>)
    requires Distinct(KeyStrings(cats))
    ensures forall i :: 0 <= i < |cats| ==> Ticks(cats)[i] == i
  {
  }

  /** The number 1 and the string "1" are distinct categories that share one
      key, so both ticks go to the second. */
  lemma CollidingKeysShareTick()
    ensures Ticks([Num(Real(1.0)), Str("1")]) == [1, 1]
  {
    var cats := [Num(Real(1.0)), Str("1")];
    IntegralNumberToString(1);
    assert KeyStrings(cats) == ["1", "1"];
  }

  // ---- heights ----

  /** Math.max of a non-empty list. */
  function MaxOf(xs: seq<real>): (m: real)
    requires |xs| > 0
    ensures m in xs && forall x :: x in xs ==> x <= m
  {
    if |xs| == 1 then xs[0]
    else
      var m := MaxOf(xs[..|xs| - 1]);
      assert forall x :: x in xs ==> x in xs[..|xs| - 1] || x == xs[|xs| - 1];
      if xs[|xs| - 1] > m then xs[|xs| - 1] else m
  }

  /** Math.min of a non-empty list. */
  function MinOf(xs: seq<real>): (m: real)
    requires |xs| > 0
    ensures m in xs && forall x :: x in xs ==> m <= x
  {
    if |xs| == 1 then xs[0]
    else
      var m := MinOf(xs[..|xs| - 1]);
      assert forall x :: x in xs ==> x in xs[..|xs| - 1] || x == xs[|xs| - 1];
      if xs[|xs| - 1] < m then xs[|xs| - 1] else m
  }

  /** `scaleY`: maps [lo, hi] linearly onto [1, 10] when the range is not
      empty, and is the identity otherwise. */
  function ScaleY(v: real, lo: real, hi: real): real {
    if hi > lo then (v - lo) / (hi - lo) * 9.0 + 1.0 else v
  }

  /** The ends of the range go to 1 and 10, the values between stay within
      [1, 10], and larger values never get shorter bars. */
  lemma ScaleYProperties(v: real, w: real, lo: real, hi: real)
    ensures hi > lo ==> ScaleY(lo, lo, hi) == 1.0 && ScaleY(hi, lo, hi) == 10.0
    ensures hi > lo && lo <= v <= hi ==> 1.0 <= ScaleY(v, lo, hi) <= 10.0
    ensures v <= w ==> ScaleY(v, lo, hi) <= ScaleY(w, lo, hi)
    ensures hi <= lo ==> ScaleY(v, lo, hi) == v
  {
    if hi > lo {
      var d := hi - lo;
      assert (hi - lo) / d == 1.0;
      if v <= w {
        assert (v - lo) / d <= (w - lo) / d by {
          DivMonotone(v - lo, w - lo, d);
        }
      }
      if lo <= v <= hi {
        DivMonotone(0.0, v - lo, d);
        DivMonotone(v - lo, hi - lo, d);
      }
    }
  }

  lemma DivMonotone(a: real, b: real, d: real)
    requires d > 0.0 && a <= b
    ensures a / d <= b / d
  {
    assert b / d - a / d == (b - a) / d;
  }

  // ---- one bar ----

  /** The twelve triangles of a box, two per side, over the eight corners
      numbered bottom 0-3 then top 4-7. */
  const BoxFaces: seq<(nat, nat, nat)> := [
    (0, 1, 2), (0, 2, 3),
    (4, 5, 6), (4, 6, 7),
    (0, 1, 5), (0, 5, 4),
    (1, 2, 6), (1, 6, 5),
    (2, 3, 7), (2, 7, 6),
    (3, 0, 4), (3, 4, 7)]

  /** The corners of the box of width and depth 0.7 centred on (xi, zi) and
      rising from 0 to h. */
  function CornersX(xi: real): seq<real> {
    var x0, x1 := xi - 0.35, xi + 0.35;
    [x0, x1, x1, x0, x0, x1, x1, x0]
  }

  function CornersY(h: real): seq<real> {
    [0.0, 0.0, 0.0, 0.0, h, h, h, h]
  }

  function CornersZ(zi: real): seq<real> {
    var z0, z1 := zi - 0.35, zi + 0.35;
    [z0, z0, z1, z1, z0, z0, z1, z1]
  }

  /** Each triangle names three different corners, and the three lie on one
      side of the box: they agree in x, in y or in z. */
  lemma BoxFacesOnSides(xi: real, zi: real, h: real, t: nat)
    requires t < |BoxFaces|
    ensures var (a, b, c) := BoxFaces[t];
      && a < 8 && b < 8 && c < 8 && a != b && b != c && a != c
      && ((CornersX(xi)[a] == CornersX(xi)[b] == CornersX(xi)[c])
       || (CornersY(h)[a] == CornersY(h)[b] == CornersY(h)[c])
       || (CornersZ(zi)[a] == CornersZ(zi)[b] == CornersZ(zi)[c]))
  {
  }

  function FaceLists(): (r: (seq<nat>, seq<nat>, seq<nat>))
    ensures |r.0| == |r.1| == |r.2| == |BoxFaces|
    ensures forall t :: 0 <= t < |BoxFaces| ==> (r.0[t], r.1[t], r.2[t]) == BoxFaces[t]
  {
    (seq(|BoxFaces|, t requires 0 <= t < |BoxFaces| => BoxFaces[t].0),
     seq(|BoxFaces|, t requires 0 <= t < |BoxFaces| => BoxFaces[t].1),
     seq(|BoxFaces|, t requires 0 <= t < |BoxFaces| => BoxFaces[t].2))
  }

  datatype Bar = Bar(x: seq<real>, y: seq<real>, z: seq<real>, i: seq<nat>, j: seq<nat>, k: seq<nat>,
                     hue: real, name: string)

  /** The value printed above a bar, at the centre of its top plus 0.2. */
  datatype BarLabel = BarLabel(x: real, y: real, z: real, text: string)

  datatype MeshView = NoMeshData
                    | MeshScene(bars: seq<Bar>, labels: seq<BarLabel>,
                                xTicks: seq<nat>, xText: seq<Value>, zTicks: seq<nat>, zText: seq<Value>)

  /** `Number(d[y]) || 0`. */
  function Height(row: Row, yLabel: string): real {
    OrZero(ToNumber(Get(row, yLabel)))
  }

  function Heights(data: seq<Row>, yLabel: string): (hs: seq<real>)
    ensures |hs| == |data|
    ensures forall i :: 0 <= i < |data| ==> hs[i] == Height(data[i], yLabel)
  {
    seq(|data|, i requires 0 <= i < |data| => Height(data[i], yLabel))
  }

  /** The hue of bar idx of n: an equal share of the colour wheel each. */
  function BarHue(idx: nat, n: nat): (h: real)
    requires idx < n
    ensures 0.0 <= h < 360.0
  {
    idx as real / n as real * 360.0
  }

  /** The box of width and depth 0.7 centred on (xi, zi) and rising from 0
      to h, with the box triangles, a colour and a legend name. */
  function BarAt(xi: real, zi: real, h: real, hue: real, name: string): Bar {
    var faces := FaceLists();
    Bar(CornersX(xi), CornersY(h), CornersZ(zi), faces.0, faces.1, faces.2, hue, name)
  }

  /** The bar's eight corners span 0.7 in x and in z around its centre,
      the first four on the floor and the last four at height h. */
  lemma BarAtGeometry(xi: real, zi: real, h: real, hue: real, name: string)
    ensures var b := BarAt(xi, zi, h, hue, name);
      && |b.x| == |b.y| == |b.z| == 8
      && b.x[1] - b.x[0] == 0.7 && (b.x[0] + b.x[1]) / 2.0 == xi
      && (forall c :: 0 <= c < 8 ==> b.x[c] == b.x[0] || b.x[c] == b.x[1])
      && b.z[2] - b.z[0] == 0.7 && (b.z[0] + b.z[2]) / 2.0 == zi
      && (forall c :: 0 <= c < 8 ==> b.z[c] == b.z[0] || b.z[c] == b.z[2])
      && (forall c :: 0 <= c < 4 ==> b.y[c] == 0.0)
      && (forall c :: 4 <= c < 8 ==> b.y[c] == h)
      && (b.i, b.j, b.k) == FaceLists()
      && b.hue == hue && b.name == name
  {
  }

  /** One call of the drawing callback: the bar and the label drawn for row
      idx of n whose cells are xc, zc and height yv. */
  function PlacedBar(xc: Value, zc: Value, yv: real,
                     xCats: seq<Value>, zCats: seq<Value>, lo: real, hi: real, idx: nat, n: nat): (Bar, BarLabel)
    requires idx < n && xc in xCats && zc in zCats
  {
    var xi, zi := Position(xCats, xc) as real, Position(zCats, zc) as real;
    var h := ScaleY(yv, lo, hi);
    var text := NumberToString(Real(yv));
    (BarAt(xi, zi, h, BarHue(idx, n), ToString(xc) + " / " + ToString(zc) + ": " + text),
     BarLabel(xi, h + 0.2, zi, text))
  }

  /** The label stands on the grid positions of the row's categories, at
      the rescaled height plus 0.2, and shows the unscaled value; the bar
      is the box under it, coloured by the row's index, its legend name the
      two categories and the label's text. */
  lemma PlacedBarOnTicks(xc: Value, zc: Value, yv: real,
                         xCats: seq<Value>, zCats: seq<Value>, lo: real, hi: real, idx: nat, n: nat)
    requires idx < n && xc in xCats && zc in zCats
    ensures var l := PlacedBar(xc, zc, yv, xCats, zCats, lo, hi, idx, n).1;
      && l.x == Position(xCats, xc) as real && l.z == Position(zCats, zc) as real
      && ToString(xCats[Position(xCats, xc)]) == ToString(xc)
      && ToString(zCats[Position(zCats, zc)]) == ToString(zc)
      && l.y == ScaleY(yv, lo, hi) + 0.2
      && l.text == NumberToString(Real(yv))
      && PlacedBar(xc, zc, yv, xCats, zCats, lo, hi, idx, n).0 ==
         BarAt(l.x, l.z, l.y - 0.2, BarHue(idx, n), ToString(xc) + " / " + ToString(zc) + ": " + l.text)
  {
  }

  /** The loop over the rows: bar and label p are the ones drawn for row p. */
  method DrawBars(xCol: seq<Value>, zCol: seq<Value>, ys: seq<real>,
                  xCats: seq<Value>, zCats: seq<Value>, lo: real, hi: real)
    returns (bars: seq<Bar>, labels: seq<BarLabel>)
    requires |xCol| == |zCol| == |ys|
    requires forall p :: 0 <= p < |ys| ==> xCol[p] in xCats && zCol[p] in zCats
    ensures |bars| == |labels| == |ys|
    ensures forall p :: 0 <= p < |ys| ==>
      (bars[p], labels[p]) == PlacedBar(xCol[p], zCol[p], ys[p], xCats, zCats, lo, hi, p, |ys|)
  {
    bars, labels := [], [];
    ghost var wantBars := seq(|ys|, p requires 0 <= p < |ys| =>
      PlacedBar(xCol[p], zCol[p], ys[p], xCats, zCats, lo, hi, p, |ys|).0);
    ghost var wantLabels := seq(|ys|, p requires 0 <= p < |ys| =>
      PlacedBar(xCol[p], zCol[p], ys[p], xCats, zCats, lo, hi, p, |ys|).1);
    var idx: nat := 0;
    while idx < |ys|
      invariant idx <= |ys| && bars == wantBars[..idx] && labels == wantLabels[..idx]
    {
      var bar := PlacedBar(xCol[idx], zCol[idx], ys[idx], xCats, zCats, lo, hi, idx, |ys|);
      PrefixSnoc(wantBars, idx);
      PrefixSnoc(wantLabels, idx);
      bars := bars + [bar.0];
      labels := labels + [bar.1];
      idx := idx + 1;
    }
    assert bars == wantBars && labels == wantLabels;
  }

  /** The component: the message when data is missing or empty; otherwise
      one bar and one label per row, in row order and never merged, placed at
      the indices of the row's categories, with axis ticks for every
      category. */
  method Render(data: Option<seq<Row>>, xLabel: string, yLabel: string, zLabel: string) returns (view: MeshView)
    ensures view.NoMeshData? <==> data.None? || data.value == []
    ensures view.MeshScene? ==>
      var rows := data.value;
      var xCats := Dedup(ChartPayload.RawColumn(rows, xLabel));
      var zCats := Dedup(ChartPayload.RawColumn(rows, zLabel));
      var ys := Heights(rows, yLabel);
      && view.xText == xCats && view.xTicks == Ticks(xCats)
      && view.zText == zCats && view.zTicks == Ticks(zCats)
      && |view.bars| == |view.labels| == |rows|
      && forall idx :: 0 <= idx < |rows| ==>
        var xc, zc := ChartPayload.RawColumn(rows, xLabel)[idx], ChartPayload.RawColumn(rows, zLabel)[idx];
        && xc in xCats && zc in zCats
        && (view.bars[idx], view.labels[idx]) == PlacedBar(xc, zc, ys[idx], xCats, zCats, MinOf(ys), MaxOf(ys), idx, |rows|)
  {
    if data.None? || data.value == [] {
      return NoMeshData;
    }
    var rows := data.value;
    var xCol := ChartPayload.RawColumn(rows, xLabel);
    var zCol := ChartPayload.RawColumn(rows, zLabel);
    var xCats := Dedup(xCol);
    var zCats := Dedup(zCol);
    var ys := Heights(rows, yLabel);
    var lo, hi := MinOf(ys), MaxOf(ys);
    AllInDedup(xCol);
    AllInDedup(zCol);
    var bars, labels := DrawBars(xCol, zCol, ys, xCats, zCats, lo, hi);
    return MeshScene(bars, labels, Ticks(xCats), xCats, Ticks(zCats), zCats);
  }
}
