/** The 3D pie component: rows are grouped by their label, values summed per
    category, and each category becomes one extruded wedge mesh and one text
    label. */
module Pie3D {
  import opened JsValues
  import opened Categories

  /** The category key of a row: its label cell as an object key. */
  function KeyOf(row: Row, labelKey: string): string {
    ToString(Get(row, labelKey))
  }

  /** `parseFloat(row[values]) || 0`. */
  function ValueOf(row: Row, valueKey: string): real {
    OrZero(ParseFloat(Get(row, valueKey)))
  }

  function KeysOf(data: seq<Row>, labelKey: string): (ks: seq<string>)
    ensures |ks| == |data|
    ensures forall i :: 0 <= i < |data| ==> ks[i] == KeyOf(data[i], labelKey)
  {
    seq(|data|, i requires 0 <= i < |data| => KeyOf(data[i], labelKey))
  }

  function ValuesOf(data: seq<Row>, valueKey: string): (vs: seq<real>)
    ensures |vs| == |data|
    ensures forall i :: 0 <= i < |data| ==> vs[i] == ValueOf(data[i], valueKey)
  {
    seq(|data|, i requires 0 <= i < |data| => ValueOf(data[i], valueKey))
  }

  /** The sum of the values whose key is c. */
  function CategorySum(ks: seq<string>, vs: seq<real>, c: string): real
    requires |ks| == |vs|
  {
    if ks == [] then 0.0
    else CategorySum(ks[..|ks| - 1], vs[..|vs| - 1], c) + (if ks[|ks| - 1] == c then vs[|vs| - 1] else 0.0)
  }

  function Sum(xs: seq<real>): real {
    if xs == [] then 0.0 else Sum(xs[..|xs| - 1]) + xs[|xs| - 1]
  }

  /** Adding v to one entry adds v to the sum. */
  lemma {:induction false} SumAddAt(xs: seq<real>, j: nat, v: real)
    requires j < |xs|
    ensures Sum(xs[j := xs[j] + v]) == Sum(xs) + v
  {
    var ys := xs[j := xs[j] + v];
    if j < |xs| - 1 {
      assert ys[..|ys| - 1] == xs[..|xs| - 1][j := xs[j] + v];
      SumAddAt(xs[..|xs| - 1], j, v);
    } else {
      assert ys[..|ys| - 1] == xs[..|xs| - 1];
    }
  }

  /** A key that does not occur sums to zero. */
  lemma {:induction false} CategorySumAbsent(ks: seq<string>, vs: seq<real>, c: string)
    requires |ks| == |vs| && c !in ks
    ensures CategorySum(ks, vs, c) == 0.0
  {
    if ks != [] {
      assert c !in ks[..|ks| - 1];
      CategorySumAbsent(ks[..|ks| - 1], vs[..|vs| - 1], c);
    }
  }

  /** One more row adds its value to its own category only. */
  lemma CategorySumSnoc(ks: seq<string>, vs: seq<real>, key: string, v: real, c: string)
    requires |ks| == |vs|
    ensures CategorySum(ks + [key], vs + [v], c) == CategorySum(ks, vs, c) + (if key == c then v else 0.0)
  {
    assert (ks + [key])[..|ks|] == ks;
    assert (vs + [v])[..|vs|] == vs;
  }

  /** One more value adds itself to the sum. */
  lemma SumSnoc(xs: seq<real>, v: real)
    ensures Sum(xs + [v]) == Sum(xs) + v
  {
    assert (xs + [v])[..|xs|] == xs;
  }

  /** vals holds, for each category, the sum of the values under its key. */
  predicate Aggregated(ks: seq<string>, vs: seq<real>, cats: seq<string>, vals: seq<real>)
    requires |ks| == |vs|
  {
    |vals| == |cats| && forall j :: 0 <= j < |cats| ==> vals[j] == CategorySum(ks, vs, cats[j])
  }

  /** A row whose key is already category j adds its value to that bucket. */
  lemma AggregateHit(ks: seq<string>, vs: seq<real>, cats: seq<string>, vals: seq<real>, key: string, v: real, j: nat)
    requires |ks| == |vs| && Aggregated(ks, vs, cats, vals) && Distinct(cats)
    requires j < |cats| && cats[j] == key
    ensures Aggregated(ks + [key], vs + [v], cats, vals[j := vals[j] + v])
  {
    forall k | 0 <= k < |cats|
      ensures vals[j := vals[j] + v][k] == CategorySum(ks + [key], vs + [v], cats[k])
    {
      CategorySumSnoc(ks, vs, key, v, cats[k]);
    }
  }

  /** A row with a new key opens a bucket holding its value. */
  lemma AggregateMiss(ks: seq<string>, vs: seq<real>, cats: seq<string>, vals: seq<real>, key: string, v: real)
    requires |ks| == |vs| && Aggregated(ks, vs, cats, vals)
    requires key !in cats && key !in ks
    ensures Aggregated(ks + [key], vs + [v], cats + [key], vals + [v])
  {
    forall k | 0 <= k < |cats| + 1
      ensures (vals + [v])[k] == CategorySum(ks + [key], vs + [v], (cats + [key])[k])
    {
      CategorySumSnoc(ks, vs, key, v, (cats + [key])[k]);
      if k == |cats| {
        CategorySumAbsent(ks, vs, key);
      }
    }
  }

  /** One call of the aggregation callback: the row's value is added to the
      bucket of its key, which is opened at the end when the key is new. */
  method AddRow(ghost ks: seq<string>, ghost vs: seq<real>, cats: seq<string>, vals: seq<real>, key: string, v: real)
    returns (cats': seq<string>, vals': seq<real>)
    requires |ks| == |vs| && cats == Dedup(ks) && Aggregated(ks, vs, cats, vals)
    ensures cats' == Dedup(ks + [key])
    ensures Aggregated(ks + [key], vs + [v], cats', vals')
    ensures Sum(vals') == Sum(vals) + v
  {
    DedupSnoc(ks, key);
    if key in cats {
      var j := IndexIn(cats, key);
      AggregateHit(ks, vs, cats, vals, key, v, j);
      SumAddAt(vals, j, v);
      cats', vals' := cats, vals[j := vals[j] + v];
    } else {
      AggregateMiss(ks, vs, cats, vals, key, v);
      SumSnoc(vals, v);
      cats', vals' := cats + [key], vals + [v];
    }
  }

  /** The aggregation loop over the rows' keys and values: categories in
      first-seen order, each with the sum of its values, and together they
      sum to the sum of all values. */
  method AggregatePairs(ks: seq<string>, vs: seq<real>) returns (cats: seq<string>, vals: seq<real>)
    requires |ks| == |vs|
    ensures cats == Dedup(ks)
    ensures |vals| == |cats|
    ensures forall j :: 0 <= j < |cats| ==> vals[j] == CategorySum(ks, vs, cats[j])
    ensures Sum(vals) == Sum(vs)
  {
    cats := [];
    vals := [];
    var i: nat := 0;
    while i < |ks|
      invariant i <= |ks|
      invariant cats == Dedup(ks[..i])
      invariant Aggregated(ks[..i], vs[..i], cats, vals)
      invariant Sum(vals) == Sum(vs[..i])
    {
      PrefixSnoc(ks, i);
      PrefixSnoc(vs, i);
      SumSnoc(vs[..i], vs[i]);
      cats, vals := AddRow(ks[..i], vs[..i], cats, vals, ks[i], vs[i]);
      i := i + 1;
    }
    assert ks[..i] == ks && vs[..i] == vs;
  }

  /** Aggregation of the rows by label: `parseFloat(row[value]) || 0` summed
      under the key `row[label]`. */
  method Aggregate(data: seq<Row>, labelKey: string, valueKey: string) returns (cats: seq<string>, vals: seq<real>)
    ensures cats == Dedup(KeysOf(data, labelKey))
    ensures |vals| == |cats| <= |data|
    ensures forall j :: 0 <= j < |cats| ==>
      vals[j] == CategorySum(KeysOf(data, labelKey), ValuesOf(data, valueKey), cats[j])
    ensures Sum(vals) == Sum(ValuesOf(data, valueKey))
  {
    cats, vals := AggregatePairs(KeysOf(data, labelKey), ValuesOf(data, valueKey));
  }

  /** Points on each rim of a wedge. */
  const NPTS: nat := 50

  /** A wedge vertex: the j-th point of the top or bottom rim, or the centre
      of the top or bottom face. Positions (cosine and sine of the rim angle)
      are not modelled; the height is. */
  datatype Vertex = Rim(j: nat, top: bool) | Centre(top: bool)

  /** A vertex's height: 0.3 on top, 0 at the bottom. */
  function Height(v: Vertex): real {
    if v.top then 0.3 else 0.0
  }

  /** The vertex list of a wedge with n rim points: the top ring, the bottom
      ring, then the top and the bottom centre. */
  function Vertices(n: nat): (vs: seq<Vertex>)
    ensures |vs| == 2 * n + 2
    ensures forall j :: 0 <= j < n ==> vs[j] == Rim(j, true) && vs[n + j] == Rim(j, false)
    ensures vs[2 * n] == Centre(true) && vs[2 * n + 1] == Centre(false)
  {
    seq(2 * n + 2, j requires 0 <= j < 2 * n + 2 =>
      if j < n then Rim(j, true) else if j < 2 * n then Rim(j - n, false) else Centre(j == 2 * n))
  }

  /** The two loops that fill the vertex list. */
  method BuildVertices(n: nat) returns (vs: seq<Vertex>)
    ensures vs == Vertices(n)
  {
    vs := [];
    var j := 0;
    while j < n
      invariant 0 <= j <= n && |vs| == j
      invariant forall k :: 0 <= k < j ==> vs[k] == Rim(k, true)
    {
      vs := vs + [Rim(j, true)];
      j := j + 1;
    }
    j := 0;
    while j < n
      invariant 0 <= j <= n && |vs| == n + j
      invariant forall k :: 0 <= k < n ==> vs[k] == Rim(k, true)
      invariant forall k :: 0 <= k < j ==> vs[n + k] == Rim(k, false)
    {
      vs := vs + [Rim(j, false)];
      j := j + 1;
    }
    vs := vs + [Centre(true), Centre(false)];
    forall k | 0 <= k < 2 * n + 2 ensures vs[k] == Vertices(n)[k] {
      if n <= k < 2 * n {
        assert vs[n + (k - n)] == Rim(k - n, false);
      }
    }
  }

  /** The rim point after j, wrapping to 0: `(j + 1) % n`. */
  function Next(n: nat, j: nat): (r: nat)
    requires j < n
    ensures r < n && r == (j + 1) % n
  {
    if j + 1 < n then j + 1 else 0
  }

  /** Triangle t of a wedge with n rim points, one vertex index per list, so
      that every index names one of the 2n + 2 vertices:
      t < n is the top fan around the top centre, n <= t < 2n the bottom fan
      around the bottom centre with reversed winding, and from 2n on each
      side quad j is the two triangles 2n + 2j and 2n + 2j + 1. */
  function FaceI(n: nat, t: nat): (v: nat)
    requires t < 4 * n
    ensures v < 2 * n + 2
    ensures t < n ==> v == 2 * n
    ensures n <= t < 2 * n ==> v == 2 * n + 1
    ensures 2 * n <= t ==> v < n
  {
    if t < n then 2 * n
    else if t < 2 * n then 2 * n + 1
    else if (t - 2 * n) % 2 == 0 then (t - 2 * n) / 2
    else Next(n, (t - 2 * n) / 2)
  }

  function FaceJ(n: nat, t: nat): (v: nat)
    requires t < 4 * n
    ensures t < n ==> v < n
    ensures n <= t ==> n <= v < 2 * n
  {
    if t < n then t
    else if t < 2 * n then n + Next(n, t - n)
    else n + (t - 2 * n) / 2
  }

  function FaceK(n: nat, t: nat): (v: nat)
    requires t < 4 * n
    ensures t < n || (2 * n <= t && (t - 2 * n) % 2 == 0) ==> v < n
    ensures (n <= t < 2 * n) || (2 * n <= t && (t - 2 * n) % 2 == 1) ==> n <= v < 2 * n
  {
    if t < n then Next(n, t)
    else if t < 2 * n then t
    else if (t - 2 * n) % 2 == 0 then Next(n, (t - 2 * n) / 2)
    else n + Next(n, (t - 2 * n) / 2)
  }

  /** The first m triangles of the face lists are in place. */
  predicate FacesUpTo(n: nat, I: seq<nat>, J: seq<nat>, K: seq<nat>, m: nat)
    requires m <= 4 * n
  {
    |I| == |J| == |K| == m &&
    forall t :: 0 <= t < m ==> I[t] == FaceI(n, t) && J[t] == FaceJ(n, t) && K[t] == FaceK(n, t)
  }

  /** Appending triangle m keeps the face lists in place. */
  lemma FacesSnoc(n: nat, I: seq<nat>, J: seq<nat>, K: seq<nat>, m: nat, i: nat, j: nat, k: nat)
    requires m < 4 * n && FacesUpTo(n, I, J, K, m)
    requires i == FaceI(n, m) && j == FaceJ(n, m) && k == FaceK(n, m)
    ensures FacesUpTo(n, I + [i], J + [j], K + [k], m + 1)
  {
    forall t | 0 <= t < m
      ensures (I + [i])[t] == I[t] && (J + [j])[t] == J[t] && (K + [k])[t] == K[t]
    {
    }
  }

  /** The two triangles of side quad j. */
  lemma SideFaces(n: nat, j: nat)
    requires j < n
    ensures FaceI(n, 2 * n + 2 * j) == j && FaceJ(n, 2 * n + 2 * j) == n + j && FaceK(n, 2 * n + 2 * j) == Next(n, j)
    ensures FaceI(n, 2 * n + 2 * j + 1) == Next(n, j) && FaceJ(n, 2 * n + 2 * j + 1) == n + j
    ensures FaceK(n, 2 * n + 2 * j + 1) == n + Next(n, j)
  {
    assert (2 * j) / 2 == j && (2 * j) % 2 == 0 && (2 * j + 1) / 2 == j && (2 * j + 1) % 2 == 1;
  }

  /** The top fan: triangle j joins the top centre to rim points j and j + 1. */
  method AddTopFan(n: nat, I0: seq<nat>, J0: seq<nat>, K0: seq<nat>) returns (I: seq<nat>, J: seq<nat>, K: seq<nat>)
    requires n > 0 && FacesUpTo(n, I0, J0, K0, 0)
    ensures FacesUpTo(n, I, J, K, n)
  {
    I, J, K := I0, J0, K0;
    var j: nat := 0;
    while j < n
      invariant j <= n && FacesUpTo(n, I, J, K, j)
    {
      FacesSnoc(n, I, J, K, j, 2 * n, j, Next(n, j));
      I, J, K := I + [2 * n], J + [j], K + [Next(n, j)];
      j := j + 1;
    }
  }

  /** The bottom fan, wound the other way round. */
  method AddBottomFan(n: nat, I0: seq<nat>, J0: seq<nat>, K0: seq<nat>) returns (I: seq<nat>, J: seq<nat>, K: seq<nat>)
    requires n > 0 && FacesUpTo(n, I0, J0, K0, n)
    ensures FacesUpTo(n, I, J, K, 2 * n)
  {
    I, J, K := I0, J0, K0;
    var j: nat := 0;
    while j < n
      invariant j <= n && FacesUpTo(n, I, J, K, n + j)
    {
      FacesSnoc(n, I, J, K, n + j, 2 * n + 1, n + Next(n, j), n + j);
      I, J, K := I + [2 * n + 1], J + [n + Next(n, j)], K + [n + j];
      j := j + 1;
    }
  }

  /** Appending the two triangles of side quad j. */
  lemma SideStep(n: nat, I: seq<nat>, J: seq<nat>, K: seq<nat>, j: nat)
    requires j < n && FacesUpTo(n, I, J, K, 2 * n + 2 * j)
    ensures FacesUpTo(n, I + [j] + [Next(n, j)], J + [n + j] + [n + j], K + [Next(n, j)] + [n + Next(n, j)], 2 * n + 2 * j + 2)
  {
    var nxt := Next(n, j);
    SideFaces(n, j);
    FacesSnoc(n, I, J, K, 2 * n + 2 * j, j, n + j, nxt);
    FacesSnoc(n, I + [j], J + [n + j], K + [nxt], 2 * n + 2 * j + 1, nxt, n + j, n + nxt);
  }

  /** The side: two triangles per quad between rim points j and j + 1. */
  method AddSides(n: nat, I0: seq<nat>, J0: seq<nat>, K0: seq<nat>) returns (I: seq<nat>, J: seq<nat>, K: seq<nat>)
    requires n > 0 && FacesUpTo(n, I0, J0, K0, 2 * n)
    ensures FacesUpTo(n, I, J, K, 4 * n)
  {
    I, J, K := I0, J0, K0;
    var j: nat := 0;
    while j < n
      invariant j <= n && FacesUpTo(n, I, J, K, 2 * n + 2 * j)
    {
      var nxt := Next(n, j);
      SideStep(n, I, J, K, j);
      I, J, K := I + [j], J + [n + j], K + [nxt];
      I, J, K := I + [nxt], J + [n + j], K + [n + nxt];
      j := j + 1;
    }
  }

  /** The face lists of a wedge with n rim points, filled by three loops. */
  method BuildFaces(n: nat) returns (I: seq<nat>, J: seq<nat>, K: seq<nat>)
    requires n > 0
    ensures |I| == |J| == |K| == 4 * n
    ensures forall t :: 0 <= t < 4 * n ==> I[t] == FaceI(n, t) && J[t] == FaceJ(n, t) && K[t] == FaceK(n, t)
  {
    I, J, K := AddTopFan(n, [], [], []);
    I, J, K := AddBottomFan(n, I, J, K);
    I, J, K := AddSides(n, I, J, K);
  }

  /** With at least two rim points no triangle repeats a vertex. */
  lemma TrianglesProper(n: nat, t: nat)
    requires 2 <= n && t < 4 * n
    ensures FaceI(n, t) != FaceJ(n, t) && FaceJ(n, t) != FaceK(n, t) && FaceI(n, t) != FaceK(n, t)
  {
  }

  /** One wedge: its vertices and faces, the hue of its colour and its
      legend name `"<category> (<value>)"`. */
  datatype MeshTrace = MeshTrace(vertices: seq<Vertex>, i: seq<nat>, j: seq<nat>, k: seq<nat>, hue: real, name: string)

  /** The text label drawn over a wedge: `"<category>: <value>"`. */
  datatype LabelTrace = LabelTrace(text: string)

  datatype PieView = NoPieData | PieScene(meshes: seq<MeshTrace>, labels: seq<LabelTrace>)

  /** The hue of slice idx of n: an equal share of the colour wheel each. */
  function Hue(idx: nat, n: nat): (h: real)
    requires idx < n
    ensures 0.0 <= h < 360.0
  {
    idx as real / n as real * 360.0
  }

  /** The face lists of a wedge with n rim points, in closed form. */
  function FacesI(n: nat): (r: seq<nat>)
    ensures |r| == 4 * n && forall t :: 0 <= t < 4 * n ==> r[t] == FaceI(n, t)
  {
    seq(4 * n, t requires 0 <= t < 4 * n => FaceI(n, t))
  }

  function FacesJ(n: nat): (r: seq<nat>)
    ensures |r| == 4 * n && forall t :: 0 <= t < 4 * n ==> r[t] == FaceJ(n, t)
  {
    seq(4 * n, t requires 0 <= t < 4 * n => FaceJ(n, t))
  }

  function FacesK(n: nat): (r: seq<nat>)
    ensures |r| == 4 * n && forall t :: 0 <= t < 4 * n ==> r[t] == FaceK(n, t)
  {
    seq(4 * n, t requires 0 <= t < 4 * n => FaceK(n, t))
  }

  /** A wedge with NPTS rim points: its vertices and its faces. */
  predicate IsWedge(m: MeshTrace) {
    m.vertices == Vertices(NPTS) && m.i == FacesI(NPTS) && m.j == FacesJ(NPTS) && m.k == FacesK(NPTS)
  }

  /** Slice idx of n, for category cat with summed value v. */
  predicate IsSlice(m: MeshTrace, l: LabelTrace, cat: string, v: real, idx: nat, n: nat)
    requires idx < n
  {
    && m.name == cat + " (" + NumberToString(Real(v)) + ")"
    && l.text == cat + ": " + NumberToString(Real(v))
    && m.hue == Hue(idx, n)
    && IsWedge(m)
  }

  /** The wedge and the label drawn for slice idx of n. */
  function Slice(cat: string, v: real, idx: nat, n: nat): (MeshTrace, LabelTrace)
    requires idx < n
  {
    var text := NumberToString(Real(v));
    (MeshTrace(Vertices(NPTS), FacesI(NPTS), FacesJ(NPTS), FacesK(NPTS), Hue(idx, n), cat + " (" + text + ")"),
     LabelTrace(cat + ": " + text))
  }

  /** What is drawn for a slice is a wedge named after its category and
      value, coloured by its index. */
  lemma SliceIsSlice(cat: string, v: real, idx: nat, n: nat)
    requires idx < n
    ensures IsSlice(Slice(cat, v, idx, n).0, Slice(cat, v, idx, n).1, cat, v, idx, n)
  {
  }

  /** One call of the drawing callback: the wedge and the label of slice
      idx of n, for category cat with summed value v. */
  method BuildSlice(cat: string, v: real, idx: nat, n: nat) returns (m: MeshTrace, l: LabelTrace)
    requires idx < n
    ensures (m, l) == Slice(cat, v, idx, n)
  {
    var text := NumberToString(Real(v));
    var xyz := BuildVertices(NPTS);
    var I, J, K := BuildFaces(NPTS);
    assert I == FacesI(NPTS) && J == FacesJ(NPTS) && K == FacesK(NPTS);
    m := MeshTrace(xyz, I, J, K, Hue(idx, n), cat + " (" + text + ")");
    l := LabelTrace(cat + ": " + text);
  }

  /** The loop over the categories: wedge and label p are those of slice p. */
  method DrawSlices(cats: seq<string>, vals: seq<real>) returns (meshes: seq<MeshTrace>, labels: seq<LabelTrace>)
    requires |cats| == |vals|
    ensures |meshes| == |labels| == |cats|
    ensures forall p :: 0 <= p < |cats| ==> (meshes[p], labels[p]) == Slice(cats[p], vals[p], p, |cats|)
  {
    meshes, labels := [], [];
    ghost var wantMeshes := seq(|cats|, p requires 0 <= p < |cats| => Slice(cats[p], vals[p], p, |cats|).0);
    ghost var wantLabels := seq(|cats|, p requires 0 <= p < |cats| => Slice(cats[p], vals[p], p, |cats|).1);
    var idx: nat := 0;
    while idx < |cats|
      invariant idx <= |cats| && meshes == wantMeshes[..idx] && labels == wantLabels[..idx]
    {
      var m, l := BuildSlice(cats[idx], vals[idx], idx, |cats|);
      PrefixSnoc(wantMeshes, idx);
      PrefixSnoc(wantLabels, idx);
      meshes := meshes + [m];
      labels := labels + [l];
      idx := idx + 1;
    }
    assert meshes == wantMeshes && labels == wantLabels;
  }

  /** The component: the message when data is missing or empty, otherwise
      one wedge and one label per category, in category order. */
  method Render(data: Option<seq<Row>>, labelKey: string, valueKey: string) returns (view: PieView)
    ensures view.NoPieData? <==> data.None? || data.value == []
    ensures view.PieScene? ==>
      var ks := KeysOf(data.value, labelKey);
      var vs := ValuesOf(data.value, valueKey);
      var cats := Dedup(ks);
      && |view.meshes| == |view.labels| == |cats| <= |data.value|
      && forall idx :: 0 <= idx < |cats| ==>
        IsSlice(view.meshes[idx], view.labels[idx], cats[idx], CategorySum(ks, vs, cats[idx]), idx, |cats|)
  {
    if data.None? || data.value == [] {
      return NoPieData;
    }
    var cats, vals := Aggregate(data.value, labelKey, valueKey);
    var meshes, labels := DrawSlices(cats, vals);
    forall idx | 0 <= idx < |cats|
      ensures IsSlice(meshes[idx], labels[idx], cats[idx], vals[idx], idx, |cats|)
    {
      SliceIsSlice(cats[idx], vals[idx], idx, |cats|);
    }
    return PieScene(meshes, labels);
  }
}
