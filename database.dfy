/** The MongoDB collections the server keeps (users, files, analyses) as an
    in-memory record store, with the query shapes the route handlers use:
    filtering by fields, deleting the first match or every match, newest
    first ordering and skip/limit pages. */
module Database {
  import opened Strings
  import opened JsValues
  import opened ChartPayload

  /** A stored spreadsheet upload. The file's bytes are not modelled. */
  datatype FileRecord = FileRecord(id: string, filename: string, mimetype: string, size: nat, owner: string)

  /** An analysis record, with the fields the route handlers write. An empty
      axis stands for an absent one; chartType is None when a chart update
      did not send one. */
  datatype AnalysisRecord = AnalysisRecord(
    id: string, file: string, user: string, filename: string,
    chartType: Option<string>, chartData: Option<Payload>,
    rawData: seq<Row>, availableColumns: seq<string>,
    xAxis: string, yAxis: string, zAxis: string,
    verified: bool, createdAt: Option<int>)

  datatype Role = UserRole | Analyst | Admin

  /** A user account; the password is the stored hash. */
  datatype UserRecord = UserRecord(id: string, name: string, email: string, role: Role,
                                   password: string, isActive: bool)

  /** The three collections. */
  class Store {
    var users: seq<UserRecord>
    var files: seq<FileRecord>
    var analyses: seq<AnalysisRecord>

    constructor ()
      ensures users == [] && files == [] && analyses == []
    {
      users := [];
      files := [];
      analyses := [];
    }
  }

  /** An HTTP reply: a status with a value, or a status with an error message. */
  datatype Reply<T> = Ok(status: nat, value: T) | Fail(status: nat, error: string)

  /** mongoose.Types.ObjectId.isValid on a string: 24 hexadecimal digits, or
      any 12 characters (read as 12 raw bytes). A query on an id that is not
      valid in this sense fails with a cast error. */
  predicate IsValidObjectId(s: string) {
    |s| == 12 || (|s| == 24 && forall i :: 0 <= i < 24 ==> IsHexDigit(s[i]))
  }

  // ---- sequences ----

  /** The elements of xs that satisfy p, in order (Array.prototype.filter,
      Model.deleteMany's complement, Model.find). */
  function Filter<T(==,!new)>(xs: seq<T>, p: T -> bool): (r: seq<T>)
    ensures |r| <= |xs|
    ensures forall x :: x in r <==> x in xs && p(x)
  {
    if xs == [] then [] else (if p(xs[0]) then [xs[0]] else []) + Filter(xs[1..], p)
  }

  /** a is an order-preserving subsequence of b. */
  predicate IsSubsequence<T(==)>(a: seq<T>, b: seq<T>)
    decreases |b|
  {
    a == [] || (b != [] && if a[0] == b[0] then IsSubsequence(a[1..], b[1..]) else IsSubsequence(a, b[1..]))
  }

  lemma {:induction false} FilterIsSubsequence<T(!new)>(xs: seq<T>, p: T -> bool)
    ensures IsSubsequence(Filter(xs, p), xs)
  {
    if xs != [] {
      var f := Filter(xs, p);
      FilterIsSubsequence(xs[1..], p);
      if p(xs[0]) {
        assert f[0] == xs[0] && f[1..] == Filter(xs[1..], p);
      } else if f != [] {
        assert f == Filter(xs[1..], p);
        assert f[0] in f;
        assert f[0] != xs[0];
      }
    }
  }

  /** Filtering splits a sequence without losing count: what is kept and
      what is dropped add up to the whole. */
  lemma {:induction false} FilterPartition<T(!new)>(xs: seq<T>, p: T -> bool)
    ensures |Filter(xs, p)| + |Filter(xs, x => !p(x))| == |xs|
  {
    if xs != [] {
      FilterPartition(xs[1..], p);
    }
  }

  /** Filtering twice by the same test is filtering once. */
  lemma {:induction false} FilterIdempotent<T(!new)>(xs: seq<T>, p: T -> bool)
    ensures Filter(Filter(xs, p), p) == Filter(xs, p)
  {
    if xs != [] {
      FilterIdempotent(xs[1..], p);
      var f := Filter(xs, p);
      if p(xs[0]) {
        assert f != [] && f[0] == xs[0] && f[1..] == Filter(xs[1..], p);
        assert Filter(f, p) == [f[0]] + Filter(f[1..], p);
        assert f == [xs[0]] + Filter(xs[1..], p);
      } else {
        assert f == Filter(xs[1..], p);
      }
    }
  }

  /** The index of the first element satisfying p (findOne, findOneAndDelete). */
  function FirstIndex<T>(xs: seq<T>, p: T -> bool): (r: Option<nat>)
    ensures r.None? <==> forall i :: 0 <= i < |xs| ==> !p(xs[i])
    ensures r.Some? ==> r.value < |xs| && p(xs[r.value]) && forall j :: 0 <= j < r.value ==> !p(xs[j])
  {
    if xs == [] then None
    else if p(xs[0]) then Some(0)
    else match FirstIndex(xs[1..], p)
      case None => None
      case Some(i) => Some(i + 1)
  }

  /** `findOne({file, user})` on the analyses: the first analysis of that
      file owned by that user. */
  function FindAnalysis(analyses: seq<AnalysisRecord>, fileId: string, user: string): (r: Option<nat>)
    ensures r.Some? ==> r.value < |analyses| && analyses[r.value].file == fileId && analyses[r.value].user == user
    ensures r.Some? ==> forall j :: 0 <= j < r.value ==> !(analyses[j].file == fileId && analyses[j].user == user)
    ensures r.None? <==> forall a :: a in analyses ==> !(a.file == fileId && a.user == user)
  {
    FirstIndex(analyses, (a: AnalysisRecord) => a.file == fileId && a.user == user)
  }

  /** xs without its element at i. */
  function RemoveAt<T>(xs: seq<T>, i: nat): (r: seq<T>)
    requires i < |xs|
    ensures |r| == |xs| - 1
    ensures forall j :: 0 <= j < i ==> r[j] == xs[j]
    ensures forall j :: i <= j < |r| ==> r[j] == xs[j + 1]
  {
    xs[..i] + xs[i + 1..]
  }

  /** Newest first: the collections hold records in creation order, so
      sorting by createdAt descending reverses them. */
  function Reverse<T>(xs: seq<T>): (r: seq<T>)
    ensures |r| == |xs|
    ensures forall i :: 0 <= i < |xs| ==> r[i] == xs[|xs| - 1 - i]
  {
    if xs == [] then [] else Reverse(xs[1..]) + [xs[0]]
  }

  /** `.skip(skip).limit(limit)` with a non-negative skip: at most limit
      records starting at position skip. */
  function Page<T>(xs: seq<T>, skip: nat, limit: nat): (r: seq<T>)
    ensures |r| <= limit
    ensures skip <= |xs| ==> |r| == Min(limit, |xs| - skip)
    ensures forall i :: 0 <= i < |r| ==> skip + i < |xs| && r[i] == xs[skip + i]
  {
    if skip >= |xs| then [] else xs[skip..skip + Min(limit, |xs| - skip)]
  }

  /** A page of the newest-first list holds only records of the list. */
  lemma PageOfReverseIn<T>(xs: seq<T>, skip: nat, limit: nat)
    ensures forall x :: x in Page(Reverse(xs), skip, limit) ==> x in xs
  {
    var listed := Page(Reverse(xs), skip, limit);
    forall x | x in listed
      ensures x in xs
    {
      var i :| 0 <= i < |listed| && listed[i] == x;
      assert Reverse(xs)[skip + i] == xs[|xs| - 1 - (skip + i)];
    }
  }

  function Min(a: int, b: int): int {
    if a <= b then a else b
  }

  /** Math.ceil(a / b) on integers, b nonzero. */
  function CeilDiv(a: int, b: int): (r: int)
    requires b != 0
    ensures b > 0 ==> (r - 1) * b < a <= r * b
  {
    if b > 0 then -((-a) / b) else -(a / -b)
  }

  /** Consecutive pages of one size share no record and leave none out. */
  lemma {:induction false} PagesTile<T>(xs: seq<T>, skip: nat, limit: nat)
    requires skip + limit <= |xs|
    ensures Page(xs, skip, limit) + Page(xs, skip + limit, |xs|) == xs[skip..]
  {
    var a := Page(xs, skip, limit);
    var b := Page(xs, skip + limit, |xs|);
    assert |a| == limit;
    assert |b| == |xs| - skip - limit;
    assert forall i :: 0 <= i < |xs| - skip ==> (a + b)[i] == xs[skip..][i];
  }
}
