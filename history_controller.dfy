/** The history controller: a user's analyses, optionally filtered by chart
    type and file name, ten per page, newest first, each reduced to a summary
    whose upload time falls back to the time inside the record's ObjectId. */
module HistoryController {
  import opened Strings
  import opened JsValues
  import opened Database
  import AnalysisRoute

  /** The query object: the owner, plus chartType and a file-name pattern
      when the request gives them. */
  datatype Query = Query(user: string, chartType: Option<string>, filename: Option<string>)

  /** The query is built field by field: the owner always, each filter only
      when its parameter is non-empty. */
  method BuildQuery(user: string, chartTypeQ: string, filenameQ: string) returns (q: Query)
    ensures q.user == user
    ensures chartTypeQ == "" <==> q.chartType.None?
    ensures chartTypeQ != "" ==> q.chartType == Some(chartTypeQ)
    ensures filenameQ == "" <==> q.filename.None?
    ensures filenameQ != "" ==> q.filename == Some(filenameQ)
  {
    q := Query(user, None, None);
    if chartTypeQ != "" {
      q := q.(chartType := Some(chartTypeQ));
    }
    if filenameQ != "" {
      q := q.(filename := Some(filenameQ));
    }
  }

  /** Whether a record satisfies the query. The case-insensitive regular
      expression built from the file-name parameter is `nameMatches`. */
  predicate Matches(a: AnalysisRecord, q: Query, nameMatches: (string, string) -> bool) {
    && a.user == q.user
    && (q.chartType.None? || a.chartType == q.chartType)
    && (q.filename.None? || nameMatches(q.filename.value, a.filename))
  }

  /** With no filter parameters the query selects exactly the user's records. */
  lemma UnfilteredQueryIsOwner(a: AnalysisRecord, user: string, nameMatches: (string, string) -> bool)
    ensures Matches(a, Query(user, None, None), nameMatches) <==> a.user == user
  {
  }

  /** `parseInt(s.substring(0, 8), 16)`: white space, a sign and a "0x" may
      lead, then as many hexadecimal digits as there are; None for NaN. */
  function HexPrefix(s: string): (r: Option<int>)
  {
    var t := TrimStart(s[..Min(8, |s|)]);
    var neg := |t| > 0 && t[0] == '-';
    var u := if |t| > 0 && (t[0] == '-' || t[0] == '+') then t[1..] else t;
    var w := if |u| >= 2 && u[0] == '0' && (u[1] == 'x' || u[1] == 'X') then u[2..] else u;
    var h := HexRun(w);
    if h == 0 then None
    else
      var m := HexValue(w[..h]);
      Some(if neg then -(m as int) else m as int)
  }

  /** The upload time: createdAt when it is there, else the leading four
      bytes of the id, which hold seconds since the epoch, in milliseconds.
      An id that gives NaN makes an invalid date, sent as null. */
  function UploadedAt(a: AnalysisRecord): (t: Option<int>)
    ensures a.createdAt.Some? ==> t == a.createdAt
  {
    if a.createdAt.Some? then a.createdAt
    else match HexPrefix(a.id)
      case None => None
      case Some(v) => Some(v * 1000)
  }

  /** A string of hexadecimal digits is one hexadecimal run. */
  lemma {:induction false} HexRunOfHexDigits(s: string)
    requires forall i :: 0 <= i < |s| ==> IsHexDigit(s[i])
    ensures HexRun(s) == |s|
  {
    if s != [] {
      HexRunOfHexDigits(s[1..]);
    }
  }

  /** An ObjectId whose first eight characters encode the second t gives the
      upload time t * 1000 when createdAt is missing. */
  lemma UploadedAtFromObjectId(a: AnalysisRecord, t: nat, rest: string)
    requires t < Pow16(8) && a.createdAt.None?
    requires a.id == HexDigits(t, 8) + rest
    ensures UploadedAt(a) == Some(t * 1000)
  {
    var p := HexDigits(t, 8);
    assert a.id[..8] == p;
    assert IsHexDigit(p[0]) && !IsWhitespace(p[0]);
    TrimStartOfTrimmed(p);
    assert p[0] != '-' && p[0] != '+' && p[1] != 'x' && p[1] != 'X';
    HexRunOfHexDigits(p);
    assert p[..8] == p;
    HexRoundTrip(t, 8);
  }

  /** The populated `file` field: the file record, a bare reference, or null. */
  datatype FileRef = Populated(record: FileRecord) | Reference(ref: string) | NoFile

  /** `file?._id || file?.toString() || null`. */
  function FileIdOf(f: FileRef): (r: Option<string>)
    ensures f.Populated? ==> r == Some(f.record.id)
    ensures f.Reference? ==> r == Some(f.ref)
    ensures f.NoFile? ==> r.None?
  {
    match f
    case Populated(rec) => Some(rec.id)
    case Reference(id) => Some(id)
    case NoFile => None
  }

  datatype Summary = Summary(analysisId: string, fileId: Option<string>, filename: string,
                             uploadedAt: Option<int>, chartType: Option<string>,
                             xAxis: string, yAxis: string, columns: seq<string>,
                             fileSize: Option<nat>, fileType: Option<string>)

  /** One history entry. */
  function Summarise(a: AnalysisRecord, f: FileRef): (s: Summary)
    ensures s.analysisId == a.id && s.filename == a.filename && s.chartType == a.chartType
    ensures s.fileId == FileIdOf(f) && s.uploadedAt == UploadedAt(a)
    ensures s.columns == a.availableColumns
    ensures s.xAxis == a.xAxis && s.yAxis == a.yAxis
    ensures s.fileSize == (if f.Populated? then Some(f.record.size) else None)
    ensures s.fileType == (if f.Populated? then Some(f.record.mimetype) else None)
  {
    Summary(a.id, FileIdOf(f), a.filename, UploadedAt(a), a.chartType, a.xAxis, a.yAxis,
      a.availableColumns,
      if f.Populated? then Some(f.record.size) else None,
      if f.Populated? then Some(f.record.mimetype) else None)
  }

  /** `populate("file")` on one record: the file when it exists, else null. */
  function PopulateFile(files: seq<FileRecord>, a: AnalysisRecord): (f: FileRef)
    ensures f.Populated? || f.NoFile?
  {
    match AnalysisRoute.Populate(files, a.file)
    case Some(rec) => Populated(rec)
    case None => NoFile
  }

  function SummariseAll(rs: seq<AnalysisRecord>, files: seq<FileRecord>): (ss: seq<Summary>)
    ensures |ss| == |rs|
    ensures forall i :: 0 <= i < |rs| ==> ss[i] == Summarise(rs[i], PopulateFile(files, rs[i]))
  {
    seq(|rs|, i requires 0 <= i < |rs| => Summarise(rs[i], PopulateFile(files, rs[i])))
  }

  datatype HistoryPage = HistoryPage(uploads: seq<Summary>, page: int, total: nat, pageSize: nat, hasMore: bool)

  function Selected(analyses: seq<AnalysisRecord>, q: Query, nameMatches: (string, string) -> bool): (r: seq<AnalysisRecord>)
    ensures forall a :: a in r <==> a in analyses && Matches(a, q, nameMatches)
  {
    Filter(analyses, (a: AnalysisRecord) => Matches(a, q, nameMatches))
  }

  /** getUserHistory. */
  method GetUserHistory(analyses: seq<AnalysisRecord>, files: seq<FileRecord>, user: string,
                        pageQ: Option<string>, chartTypeQ: string, filenameQ: string,
                        nameMatches: (string, string) -> bool)
    returns (r: Reply<HistoryPage>)
    ensures var page := ParseIntOr(pageQ, 1);
      && (r.Fail? <==> page < 1)
      && (r.Fail? ==> r == Fail(500, "Failed to retrieve upload history"))
      && (r.Ok? ==>
        var q := Query(user, if chartTypeQ != "" then Some(chartTypeQ) else None,
                             if filenameQ != "" then Some(filenameQ) else None);
        var chosen := Selected(analyses, q, nameMatches);
        && r.status == 200 && r.value.page == page && r.value.pageSize == 10
        && r.value.total == |chosen|
        && (r.value.hasMore <==> page * 10 < |chosen|)
        && r.value.uploads == SummariseAll(Page(Reverse(chosen), (page - 1) * 10, 10), files))
  {
    var page := ParseIntOr(pageQ, 1);
    var limit := 10;
    var skip := (page - 1) * limit;
    var q := BuildQuery(user, chartTypeQ, filenameQ);
    if skip < 0 {
      return Fail(500, "Failed to retrieve upload history");
    }
    var chosen := Selected(analyses, q, nameMatches);
    var uploads := SummariseAll(Page(Reverse(chosen), skip, limit), files);
    return Ok(200, HistoryPage(uploads, page, |chosen|, limit, page * limit < |chosen|));
  }

  /** Every entry on a page is one of the user's own records. */
  lemma PageEntriesAreOwn(analyses: seq<AnalysisRecord>, q: Query, nameMatches: (string, string) -> bool, skip: nat, i: nat)
    requires i < |Page(Reverse(Selected(analyses, q, nameMatches)), skip, 10)|
    ensures var a := Page(Reverse(Selected(analyses, q, nameMatches)), skip, 10)[i];
      a in analyses && a.user == q.user
  {
    var chosen := Selected(analyses, q, nameMatches);
    assert Reverse(chosen)[skip + i] == chosen[|chosen| - 1 - (skip + i)];
  }
}
