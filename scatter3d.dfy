/** The 3D scatter and 3D line component: numeric z values are drawn as
    they are, any other z column is replaced by category codes, and a
    missing z column by zeros. */
module Scatter3D {
  import opened JsValues
  import opened Strings
  import opened Categories

  /** `arr.every(v => typeof v === "number")`; NaN is a number. */
  predicate IsNumericArray(arr: seq<Value>) {
    forall i :: 0 <= i < |arr| ==> arr[i].Num?
  }

  /** The code of each value: the position of its key among the distinct
      values. */
  function Encoding(values: seq<Value>): (codes: seq<nat>)
    ensures |codes| == |values|
    ensures forall i :: 0 <= i < |values| ==> codes[i] == Position(Dedup(values), values[i])
  {
    var unique := Dedup(values);
    seq(|values|, i requires 0 <= i < |values| => Position(unique, values[i]))
  }

  /** `unique.forEach((val, i) => map[val] = i)`: each key is mapped to
      the last position that holds it. */
  method KeyMap(ks: seq<string>) returns (m: map<string, nat>)
    ensures forall k :: k in m <==> k in ks
    ensures forall k :: k in ks ==> m[k] == KeyIndex(ks, k)
  {
    m := map[];
    var i := 0;
    while i < |ks|
      invariant 0 <= i <= |ks|
      invariant forall k :: k in m <==> k in ks[..i]
      invariant forall k :: k in m ==> m[k] == KeyIndex(ks[..i], k)
    {
      ghost var m0 := m;
      m := m[ks[i] := i];
      PrefixSnoc(ks, i);
      forall k | k in m
        ensures m[k] == KeyIndex(ks[..i + 1], k)
      {
        KeyIndexSnoc(ks, i, k);
      }
      i := i + 1;
    }
    assert ks[..i] == ks;
  }

  /** Extending the keys by one element: that element's key now indexes
      the new last position, every other key keeps its index. */
  lemma KeyIndexSnoc(ks: seq<string>, i: nat, k: string)
    requires i < |ks| && k in ks[..i + 1]
    ensures k != ks[i] ==> k in ks[..i]
    ensures KeyIndex(ks[..i + 1], k) == if k == ks[i] then i else KeyIndex(ks[..i], k)
  {
    PrefixSnoc(ks, i);
    assert ks[..i + 1][..i] == ks[..i];
  }

  /** `encodeCategories`: the distinct values become the keys of an object
      in first-seen order, each key mapped to its position, and every value
      is replaced by the number stored under its key. */
  method EncodeCategories(values: seq<Value>) returns (codes: seq<nat>)
    ensures codes == Encoding(values)
  {
    var ks := KeyStrings(Dedup(values));
    var keys := KeyStrings(values);
    var m := KeyMap(ks);
    ghost var enc := Encoding(values);
    codes := [];
    var p := 0;
    while p < |values|
      invariant 0 <= p <= |values|
      invariant codes == enc[..p]
    {
      CodeLookup(values, p);
      var c := m[keys[p]];
      assert c == enc[p];
      PrefixSnoc(enc, p);
      codes := codes + [c];
      p := p + 1;
    }
    assert enc[..p] == enc;
  }

  /** The code of the value at p is the index its key maps to. */
  lemma CodeLookup(values: seq<Value>, p: nat)
    requires p < |values|
    ensures KeyStrings(values)[p] in KeyStrings(Dedup(values))
    ensures KeyIndex(KeyStrings(Dedup(values)), KeyStrings(values)[p]) == Encoding(values)[p]
  {
    InDedup(values, p);
    var ks := KeyStrings(Dedup(values));
    var n := IndexIn(Dedup(values), values[p]);
    assert ks[n] == KeyStrings(values)[p];
  }

  /** Every code is a position among the distinct values; two values get
      the same code exactly when their keys are equal. */
  lemma {:induction false} EncodingSeparatesKeys(values: seq<Value>, i: nat, j: nat)
    requires i < |values| && j < |values|
    ensures Encoding(values)[i] < |Dedup(values)|
    ensures Encoding(values)[i] == Encoding(values)[j] <==> ToString(values[i]) == ToString(values[j])
  {
    var unique := Dedup(values);
    var ks := KeyStrings(unique);
    assert values[i] in unique && values[j] in unique;
    var a, b := Encoding(values)[i], Encoding(values)[j];
    if ToString(values[i]) == ToString(values[j]) {
      assert a == KeyIndex(ks, ToString(values[i])) == b;
    }
  }

  /** When no two distinct values share a key, equal values and only equal
      values get the same code, and the codes follow the order in which
      values are first seen. */
  lemma {:induction false} EncodingFirstSeen(values: seq<Value>, i: nat, j: nat)
    requires Distinct(KeyStrings(Dedup(values)))
    requires i < |values| && j < |values|
    ensures Encoding(values)[i] == Encoding(values)[j] <==> values[i] == values[j]
    ensures Encoding(values)[i] < Encoding(values)[j] <==> IndexIn(values, values[i]) < IndexIn(values, values[j])
  {
    var unique := Dedup(values);
    InDedup(values, i);
    InDedup(values, j);
    var a := IndexIn(unique, values[i]);
    var b := IndexIn(unique, values[j]);
    PositionOfDistinct(unique, a);
    PositionOfDistinct(unique, b);
    assert unique[a] == values[i] && unique[b] == values[j];
    assert Encoding(values)[i] == a && Encoding(values)[j] == b;
    if a < b {
      DedupFirstSeenOrder(values, a, b);
      assert values[i] != values[j];
    } else if b < a {
      DedupFirstSeenOrder(values, b, a);
      assert values[i] != values[j];
    } else {
      assert values[i] == values[j];
    }
  }

  function Zeros(n: nat): (zs: seq<Value>)
    ensures |zs| == n && forall i :: 0 <= i < n ==> zs[i] == Num(Real(0.0))
  {
    seq(n, i requires 0 <= i < n => Num(Real(0.0)))
  }

  function CodeValues(codes: seq<nat>): (vs: seq<Value>)
    ensures |vs| == |codes| && forall i :: 0 <= i < |codes| ==> vs[i] == Num(Real(codes[i] as real))
  {
    seq(|codes|, i requires 0 <= i < |codes| => Num(Real(codes[i] as real)))
  }

  /** `safeZData`: zeros for every y when z is empty, z itself when all
      numeric, else the category codes of z. */
  function SafeZ(yData: seq<Value>, zData: seq<Value>): (z: seq<Value>)
    ensures zData == [] ==> z == Zeros(|yData|)
    ensures zData != [] && IsNumericArray(zData) ==> z == zData
    ensures zData != [] && !IsNumericArray(zData) ==> z == CodeValues(Encoding(zData))
    ensures zData != [] ==> |z| == |zData|
    ensures IsNumericArray(z)
  {
    if zData != [] then (if IsNumericArray(zData) then zData else CodeValues(Encoding(zData)))
    else Zeros(|yData|)
  }

  /** The hover text of point i: `"<x label>: <x>, <y label>: <y>, <z label>: <z>"`,
      with "N/A" for a missing z cell. */
  function HoverLine(xLabel: string, yLabel: string, zLabel: string, x: Value, y: Value, z: Value): string {
    xLabel + ": " + ToString(x) + ", " + yLabel + ": " + ToString(y) + ", " + zLabel + ": " + ToString(Nullish(z, Str("N/A")))
  }

  function HoverText(xData: seq<Value>, yData: seq<Value>, zData: seq<Value>,
                     xLabel: string, yLabel: string, zLabel: string): (text: seq<string>)
    ensures |text| == |xData|
    ensures forall i :: 0 <= i < |xData| ==> text[i] == HoverLine(xLabel, yLabel, zLabel, xData[i], At(yData, i), At(zData, i))
  {
    seq(|xData|, i requires 0 <= i < |xData| => HoverLine(xLabel, yLabel, zLabel, xData[i], At(yData, i), At(zData, i)))
  }

  /** A point past the end of z, or with a missing z cell, shows "N/A". */
  lemma MissingZShowsNA(xLabel: string, yLabel: string, zLabel: string, x: Value, y: Value, z: Value)
    requires z == Undefined
    ensures EndsWith(HoverLine(xLabel, yLabel, zLabel, x, y, z), zLabel + ": N/A")
  {
    var h := HoverLine(xLabel, yLabel, zLabel, x, y, z);
    var pre := xLabel + ": " + ToString(x) + ", " + yLabel + ": " + ToString(y) + ", ";
    assert h == pre + (zLabel + ": N/A");
    assert h[|h| - |zLabel + ": N/A"|..] == zLabel + ": N/A";
  }

  /** The drawing style: lines without markers for a 3D line chart, markers
      coloured by z otherwise. */
  datatype Style = Lines | Markers(color: seq<Value>)

  datatype ScatterView = NoScatterData
                       | ScatterTrace(style: Style, x: seq<Value>, y: seq<Value>, z: seq<Value>, text: seq<string>)

  function StyleFor(chartType: Option<string>, z: seq<Value>): (s: Style)
    ensures s.Lines? <==> chartType == Some("line-3d")
    ensures s.Markers? ==> s.color == z
  {
    if chartType == Some("line-3d") then Lines else Markers(z)
  }

  /** The component. */
  function Render(chartType: Option<string>, xData: seq<Value>, yData: seq<Value>, zData: seq<Value>,
                  xLabel: string, yLabel: string, zLabel: string): (v: ScatterView)
    ensures v.NoScatterData? <==> xData == [] || yData == []
    ensures v.ScatterTrace? ==>
      && v.x == xData && v.y == yData && v.z == SafeZ(yData, zData)
      && v.style == StyleFor(chartType, v.z)
      && v.text == HoverText(xData, yData, zData, xLabel, yLabel, zLabel)
  {
    if xData == [] || yData == [] then NoScatterData
    else
      var z := SafeZ(yData, zData);
      ScatterTrace(StyleFor(chartType, z), xData, yData, z, HoverText(xData, yData, zData, xLabel, yLabel, zLabel))
  }
}
