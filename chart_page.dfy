/** The chart page: it checks the file id, fetches the analysis, settles
    the chart type to one it offers, reads the three axis columns as
    numbers and, for a line chart, reorders the points by x. */
module ChartPage {
  import opened Strings
  import opened JsValues

  // ---- the file id ----

  /** `fileId.trim().length !== 24` is refused before any request; otherwise
      the analysis is fetched from the trimmed id. */
  function AnalysisPath(fileId: Option<string>): (r: Option<string>)
    ensures r.None? <==> fileId.None? || |Trim(fileId.value)| != 24
    ensures r.Some? ==> r.value == "/api/analysis/" + Trim(fileId.value) && |r.value| == 14 + 24
  {
    if fileId.None? || |Trim(fileId.value)| != 24 then None
    else Some("/api/analysis/" + Trim(fileId.value))
  }

  const InvalidFileId := "Invalid file ID format"

  /** The message shown when loading fails: the server's error, else the
      exception message, else a fixed text. */
  function LoadError(serverError: Option<string>, message: string): (e: string)
    ensures serverError.Some? && serverError.value != "" ==> e == serverError.value
    ensures (serverError.None? || serverError.value == "") && message != "" ==> e == message
    ensures e != ""
  {
    if serverError.Some? && serverError.value != "" then serverError.value
    else if message != "" then message
    else "Failed to load chart"
  }

  // ---- the chart type ----

  /** The types the page offers in its selector. */
  const ChartTypes: seq<string> := ["bar", "line", "pie", "scatter", "3d-scatter", "bar-3d", "pie-3d"]

  /** The aliases the page accepts for the 3D types. */
  function Alias(t: string): Option<string> {
    if t == "3d-bar" || t == "bar-3d" then Some("bar-3d")
    else if t == "scatter-3d" then Some("3d-scatter")
    else if t == "pie-3d" then Some("pie-3d")
    else None
  }

  /** `normalizeChartType`: lower-cased, an alias resolved, and anything the
      page does not offer (a missing type included) becomes "bar". */
  function NormalizeChartType(t: Option<string>): (r: string)
    ensures r in ChartTypes
    ensures t.None? || t.value == "" ==> r == "bar"
  {
    var n := ToLower(if t.None? || t.value == "" then "bar" else t.value);
    if Alias(n).Some? then Alias(n).value
    else if n in ChartTypes then n
    else "bar"
  }

  /** The offered types are already lower case. */
  lemma ChartTypesLower(r: string)
    requires r in ChartTypes
    ensures ToLower(r) == r
  {
    assert r == "bar" || r == "line" || r == "pie" || r == "scatter" || r == "3d-scatter" || r == "bar-3d" || r == "pie-3d";
    forall i | 0 <= i < |r|
      ensures LowerChar(r[i]) == r[i]
    {
    }
    assert ToLower(r) == r;
  }

  /** Normalising twice is normalising once. */
  lemma NormalizeIdempotent(t: Option<string>)
    ensures NormalizeChartType(Some(NormalizeChartType(t))) == NormalizeChartType(t)
  {
    var r := NormalizeChartType(t);
    ChartTypesLower(r);
  }

  /** Case is ignored. */
  lemma NormalizeIgnoresCase(t: string)
    ensures NormalizeChartType(Some(t)) == NormalizeChartType(Some(ToLower(t)))
  {
    ToLowerIdempotent(t);
    assert t == "" <==> ToLower(t) == "";
  }

  /** A type already in lower case is only looked up. */
  lemma NormalizeLower(s: string)
    requires s != [] && forall i :: 0 <= i < |s| ==> !('A' <= s[i] <= 'Z')
    ensures NormalizeChartType(Some(s)) == if Alias(s).Some? then Alias(s).value else if s in ChartTypes then s else "bar"
  {
    ChartTypesLowerChars(s);
  }

  /** The two alternative spellings of the 3D types are resolved. */
  lemma NormalizeAliases()
    ensures NormalizeChartType(Some("3d-bar")) == "bar-3d"
    ensures NormalizeChartType(Some("scatter-3d")) == "3d-scatter"
  {
    NormalizeLower("3d-bar");
    NormalizeLower("scatter-3d");
  }

  /** A 3D line chart, which the page does not offer, falls back to a bar chart. */
  lemma NormalizeLineThreeD()
    ensures NormalizeChartType(Some("line-3d")) == "bar"
  {
    NormalizeLower("line-3d");
    assert Alias("line-3d").None?;
    assert "line-3d" != "bar" && "line-3d" != "line" && "line-3d" != "pie" && "line-3d" != "scatter";
    assert "line-3d" != "3d-scatter" && "line-3d" != "bar-3d" && "line-3d" != "pie-3d";
  }

  /** A string without upper-case ASCII letters is its own lower case. */
  lemma ChartTypesLowerChars(s: string)
    requires forall i :: 0 <= i < |s| ==> !('A' <= s[i] <= 'Z')
    ensures ToLower(s) == s
  {
  }

  // ---- the series ----

  /** `parseFloat(p[key] ?? 0)`. */
  function Cell(p: Row, key: string): Number {
    ParseFloat(Nullish(Get(p, key), Zero))
  }

  function Column(points: seq<Row>, key: string): (c: seq<Number>)
    ensures |c| == |points|
    ensures forall i :: 0 <= i < |points| ==> c[i] == Cell(points[i], key)
  {
    seq(|points|, i requires 0 <= i < |points| => Cell(points[i], key))
  }

  /** The comparator `(a, b) => x[a] - x[b]` read as "a goes before b":
      its result is negative. NaN never is. */
  predicate Before(a: Number, b: Number) {
    a.Real? && b.Real? && a.v < b.v
  }

  /** No adjacent pair of the order is inverted. */
  predicate NoInversion(keys: seq<Number>, order: seq<nat>)
    requires forall k :: 0 <= k < |order| ==> order[k] < |keys|
  {
    forall p :: 0 <= p < |order| - 1 ==> !Before(keys[order[p + 1]], keys[order[p]])
  }

  function Range(n: nat): (r: seq<nat>)
    ensures |r| == n && forall i :: 0 <= i < n ==> r[i] == i
  {
    seq(n, i requires 0 <= i < n => i)
  }

  /** A permutation of 0 .. n - 1. */
  predicate IsPermutation(order: seq<nat>, n: nat) {
    multiset(order) == multiset(Range(n))
  }

  /** Exchanging two neighbours keeps the elements. */
  function SwapDown(s: seq<nat>, j: nat): (r: seq<nat>)
    requires 0 < j < |s|
    ensures |r| == |s| && multiset(r) == multiset(s)
    ensures r[j - 1] == s[j] && r[j] == s[j - 1]
    ensures forall k :: 0 <= k < |s| && k != j && k != j - 1 ==> r[k] == s[k]
  {
    s[j := s[j - 1]][j - 1 := s[j]]
  }

  predicate Indices(keys: seq<Number>, order: seq<nat>) {
    forall k :: 0 <= k < |order| ==> order[k] < |keys|
  }

  /** The order is stable among its first n entries: two indices stand out
      of their input order only when the comparator puts the later one
      first, so entries with equal keys keep their input order. */
  predicate Stable(keys: seq<Number>, order: seq<nat>, n: nat)
    requires n <= |order| && Indices(keys, order)
  {
    forall p, q :: 0 <= p < q < n && !Before(keys[order[p]], keys[order[q]]) ==> order[p] < order[q]
  }

  /** The insertion loop's ordering facts while the moving entry is at j:
      no adjacent inversion below it or above it, and its two neighbours
      are in order. */
  predicate InsertOrdered(keys: seq<Number>, b: seq<nat>, i: nat, j: nat)
    requires j <= i < |b| && Indices(keys, b)
  {
    && (forall p :: 0 <= p < j - 1 ==> !Before(keys[b[p + 1]], keys[b[p]]))
    && (forall p :: j <= p < i ==> !Before(keys[b[p + 1]], keys[b[p]]))
    && (0 < j < i ==> !Before(keys[b[j + 1]], keys[b[j - 1]]))
  }

  /** The insertion loop's stability facts while the moving entry is at j:
      the other entries are stable, the moving entry goes before every entry
      it has passed, and it is the largest index of the prefix. */
  predicate InsertStable(keys: seq<Number>, b: seq<nat>, i: nat, j: nat)
    requires j <= i < |b| && Indices(keys, b)
  {
    && (forall p, q :: 0 <= p < q <= i && p != j && q != j && !Before(keys[b[p]], keys[b[q]]) ==> b[p] < b[q])
    && (forall q :: j < q <= i ==> Before(keys[b[j]], keys[b[q]]))
    && (forall k :: 0 <= k <= i && k != j ==> b[k] < b[j])
  }

  /** Before the first swap the loop's facts are those of the prefix. */
  lemma InsertStart(keys: seq<Number>, a: seq<nat>, i: nat)
    requires i < |a| && Indices(keys, a)
    requires forall p :: 0 <= p < i - 1 ==> !Before(keys[a[p + 1]], keys[a[p]])
    requires Stable(keys, a, i)
    requires forall k :: 0 <= k < i ==> a[k] < a[i]
    ensures InsertOrdered(keys, a, i, i) && InsertStable(keys, a, i, i)
  {
  }

  /** Moving b[j] below its lower neighbour, which it goes before, keeps
      the loop's ordering facts with the gap one place further down. */
  lemma SwapKeepsOrder(keys: seq<Number>, b: seq<nat>, i: nat, j: nat)
    requires 0 < j <= i < |b| && Indices(keys, b)
    requires Before(keys[b[j]], keys[b[j - 1]])
    requires InsertOrdered(keys, b, i, j)
    ensures Indices(keys, SwapDown(b, j)) && InsertOrdered(keys, SwapDown(b, j), i, j - 1)
  {
    var c := SwapDown(b, j);
    forall p | j - 1 <= p < i
      ensures !Before(keys[c[p + 1]], keys[c[p]])
    {
      if p == j - 1 {
        assert c[p] == b[j] && c[p + 1] == b[j - 1];
      } else if p == j {
        assert c[p] == b[j - 1] && c[p + 1] == b[j + 1];
      } else {
        assert c[p] == b[p] && c[p + 1] == b[p + 1];
      }
    }
    forall p | 0 <= p < j - 2
      ensures !Before(keys[c[p + 1]], keys[c[p]])
    {
      assert c[p] == b[p] && c[p + 1] == b[p + 1];
    }
    if 1 < j {
      assert c[j] == b[j - 1] && c[j - 2] == b[j - 2];
    }
  }

  /** The same swap keeps the stability facts: every other pair keeps its
      relative position, and the moving entry has passed one more entry it
      goes before. */
  lemma SwapKeepsStable(keys: seq<Number>, b: seq<nat>, i: nat, j: nat)
    requires 0 < j <= i < |b| && Indices(keys, b)
    requires Before(keys[b[j]], keys[b[j - 1]])
    requires InsertStable(keys, b, i, j)
    ensures Indices(keys, SwapDown(b, j)) && InsertStable(keys, SwapDown(b, j), i, j - 1)
  {
    var c := SwapDown(b, j);
    forall p, q | 0 <= p < q <= i && p != j - 1 && q != j - 1 && !Before(keys[c[p]], keys[c[q]])
      ensures c[p] < c[q]
    {
      var mp := if p == j then j - 1 else p;
      var mq := if q == j then j - 1 else q;
      assert c[p] == b[mp] && c[q] == b[mq];
    }
    forall q | j - 1 < q <= i
      ensures Before(keys[c[j - 1]], keys[c[q]])
    {
      if q == j {
        assert c[j - 1] == b[j] && c[q] == b[j - 1];
      } else {
        assert c[j - 1] == b[j] && c[q] == b[q];
      }
    }
    forall k | 0 <= k <= i && k != j - 1
      ensures c[k] < c[j - 1]
    {
      if k == j {
        assert c[k] == b[j - 1];
      } else {
        assert c[k] == b[k];
      }
    }
  }

  /** When the moving entry stops, the prefix up to i has no adjacent
      inversion, is stable, and holds no index above the moving one. */
  lemma InsertDone(keys: seq<Number>, b: seq<nat>, i: nat, j: nat)
    requires j <= i < |b| && Indices(keys, b)
    requires InsertOrdered(keys, b, i, j) && InsertStable(keys, b, i, j)
    requires j == 0 || !Before(keys[b[j]], keys[b[j - 1]])
    ensures forall p :: 0 <= p < i ==> !Before(keys[b[p + 1]], keys[b[p]])
    ensures Stable(keys, b, i + 1)
    ensures forall k :: 0 <= k <= i ==> b[k] <= b[j]
  {
    forall p | 0 <= p < i
      ensures !Before(keys[b[p + 1]], keys[b[p]])
    {
      if p == j - 1 {
      } else if p == j {
        assert j < i;
      }
    }
    forall p, q | 0 <= p < q < i + 1 && !Before(keys[b[p]], keys[b[q]])
      ensures b[p] < b[q]
    {
      if p == j {
        assert false;
      }
    }
  }

  /** The insertion loop's invariant while a[i] is at j: only the prefix up
      to i has moved, and the ordering and stability facts hold. */
  predicate InsertInvariant(keys: seq<Number>, a: seq<nat>, b: seq<nat>, i: nat, j: nat) {
    && j <= i < |a| == |b| && Indices(keys, b)
    && (forall k :: i < k < |a| ==> b[k] == a[k])
    && b[j] == a[i]
    && InsertOrdered(keys, b, i, j) && InsertStable(keys, b, i, j)
  }

  /** One swap of the loop keeps its invariant. */
  lemma InsertStep(keys: seq<Number>, a: seq<nat>, b: seq<nat>, i: nat, j: nat)
    requires InsertInvariant(keys, a, b, i, j) && 0 < j
    requires Before(keys[b[j]], keys[b[j - 1]])
    ensures InsertInvariant(keys, a, SwapDown(b, j), i, j - 1)
  {
    SwapKeepsOrder(keys, b, i, j);
    SwapKeepsStable(keys, b, i, j);
  }

  /** One insertion step: a[i], which is larger than every index below it,
      moves down past every element it goes before. */
  method Insert(keys: seq<Number>, a: seq<nat>, i: nat) returns (b: seq<nat>)
    requires i < |a| && Indices(keys, a)
    requires forall p :: 0 <= p < i - 1 ==> !Before(keys[a[p + 1]], keys[a[p]])
    requires Stable(keys, a, i)
    requires forall k :: 0 <= k < i ==> a[k] < a[i]
    ensures |b| == |a| && multiset(b) == multiset(a)
    ensures Indices(keys, b)
    ensures forall k :: i < k < |a| ==> b[k] == a[k]
    ensures forall p :: 0 <= p < i ==> !Before(keys[b[p + 1]], keys[b[p]])
    ensures Stable(keys, b, i + 1)
    ensures forall k :: 0 <= k <= i ==> b[k] <= a[i]
  {
    InsertStart(keys, a, i);
    b := a;
    var j: nat := i;
    while j > 0 && Before(keys[b[j]], keys[b[j - 1]])
      invariant multiset(b) == multiset(a)
      invariant InsertInvariant(keys, a, b, i, j)
    {
      InsertStep(keys, a, b, i, j);
      b := SwapDown(b, j);
      j := j - 1;
    }
    InsertDone(keys, b, i, j);
  }

  /** The index array `keys.map((_, i) => i)` sorted by the comparator, here
      by insertion, which like the engine's sort is stable: entries whose x
      values the comparator does not separate keep their row order. */
  method SortOrder(keys: seq<Number>) returns (order: seq<nat>)
    ensures |order| == |keys| && IsPermutation(order, |keys|)
    ensures forall k :: 0 <= k < |order| ==> order[k] < |keys|
    ensures Indices(keys, order)
    ensures NoInversion(keys, order)
    ensures Stable(keys, order, |order|)
  {
    var n := |keys|;
    order := Range(n);
    var i := 0;
    while i < n
      invariant 0 <= i <= n && |order| == n
      invariant multiset(order) == multiset(Range(n))
      invariant forall k :: 0 <= k < n ==> order[k] < n
      invariant forall p :: 0 <= p < i - 1 ==> !Before(keys[order[p + 1]], keys[order[p]])
      invariant Stable(keys, order, i)
      invariant forall k :: 0 <= k < i ==> order[k] < i
      invariant forall k :: i <= k < n ==> order[k] == k
    {
      order := Insert(keys, order, i);
      i := i + 1;
    }
  }

  /** Without NaN, a list with no adjacent inversion is non-decreasing. */
  lemma {:induction false} NoInversionSorted(keys: seq<Number>, order: seq<nat>, p: nat, q: nat)
    requires forall k :: 0 <= k < |order| ==> order[k] < |keys|
    requires forall k :: 0 <= k < |keys| ==> keys[k].Real?
    requires NoInversion(keys, order)
    requires p <= q < |order|
    ensures keys[order[p]].v <= keys[order[q]].v
    decreases q - p
  {
    if p < q {
      NoInversionSorted(keys, order, p + 1, q);
    }
  }

  function Gather(xs: seq<Number>, order: seq<nat>): (r: seq<Number>)
    requires forall k :: 0 <= k < |order| ==> order[k] < |xs|
    ensures |r| == |order| && forall k :: 0 <= k < |order| ==> r[k] == xs[order[k]]
  {
    seq(|order|, k requires 0 <= k < |order| => xs[order[k]])
  }

  /** `xData.map(v => String(v))`. */
  function Labels(xs: seq<Number>): (ls: seq<string>)
    ensures |ls| == |xs| && forall i :: 0 <= i < |xs| ==> ls[i] == NumberToString(xs[i])
  {
    seq(|xs|, i requires 0 <= i < |xs| => NumberToString(xs[i]))
  }

  datatype Series = Series(x: seq<Number>, y: seq<Number>, z: seq<Number>, labels: seq<string>)

  /** The series the page draws, given the chart type selected and the
      axis names (each defaulting as the page's destructuring does). For a
      line chart the three columns are reordered together by x; every other
      type keeps the row order. */
  method BuildSeries(chartType: string, points: seq<Row>, xAxis: Option<string>, yAxis: Option<string>, zAxis: Option<string>)
    returns (s: Series, ghost order: seq<nat>)
    ensures var xk := if xAxis.Some? then xAxis.value else "X-Axis";
      var yk := if yAxis.Some? then yAxis.value else "Y-Axis";
      var zk := if zAxis.Some? then zAxis.value else "Z-Axis";
      var rawX, rawY, rawZ := Column(points, xk), Column(points, yk), Column(points, zk);
      && |order| == |points| && IsPermutation(order, |points|)
      && (forall k :: 0 <= k < |order| ==> order[k] < |points|)
      && (chartType != "line" ==> order == Range(|points|))
      && (chartType == "line" ==> NoInversion(rawX, order) && Stable(rawX, order, |order|))
      && s.x == Gather(rawX, order) && s.y == Gather(rawY, order) && s.z == Gather(rawZ, order)
      && s.labels == Labels(s.x)
  {
    var xk := if xAxis.Some? then xAxis.value else "X-Axis";
    var yk := if yAxis.Some? then yAxis.value else "Y-Axis";
    var zk := if zAxis.Some? then zAxis.value else "Z-Axis";
    var rawX, rawY, rawZ := Column(points, xk), Column(points, yk), Column(points, zk);
    var xData, yData, zData := rawX, rawY, rawZ;
    order := Range(|points|);
    assert Gather(rawX, order) == rawX && Gather(rawY, order) == rawY && Gather(rawZ, order) == rawZ;
    if chartType == "line" {
      var o := SortOrder(rawX);
      order := o;
      xData, yData, zData := Gather(rawX, o), Gather(rawY, o), Gather(rawZ, o);
    }
    s := Series(xData, yData, zData, Labels(xData));
  }

  /** Each point keeps its own y and z: the triple at position k is the
      triple of one input row. */
  lemma TriplesStayTogether(rawX: seq<Number>, rawY: seq<Number>, rawZ: seq<Number>, order: seq<nat>, k: nat)
    requires |rawX| == |rawY| == |rawZ| && k < |order|
    requires forall q :: 0 <= q < |order| ==> order[q] < |rawX|
    ensures exists i :: (0 <= i < |rawX| &&
                         (Gather(rawX, order)[k], Gather(rawY, order)[k], Gather(rawZ, order)[k]) == (rawX[i], rawY[i], rawZ[i]))
  {
    var i := order[k];
    assert (Gather(rawX, order)[k], Gather(rawY, order)[k], Gather(rawZ, order)[k]) == (rawX[i], rawY[i], rawZ[i]);
  }
}
