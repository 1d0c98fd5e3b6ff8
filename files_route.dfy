/** The /files routes: upload a spreadsheet and create its analysis, list a
    user's files page by page, fetch the analysis of a file, and delete a
    file with its analyses. */
module FilesRoute {
  import opened Strings
  import opened JsValues
  import opened ChartPayload
  import opened Database

  /** The uploaded file as multer hands it over. */
  datatype Upload = Upload(originalname: string, mimetype: string, size: nat)

  /** Every row holds a number (`typeof === "number"`) under key. */
  predicate NumericColumn(rows: seq<Row>, key: string) {
    forall i :: 0 <= i < |rows| ==> IsNumber(Get(rows[i], key))
  }

  /** The keys, in their order, whose column is numeric in every row. */
  function NumericKeys(keys: seq<string>, rows: seq<Row>): (r: seq<string>)
    ensures |r| <= |keys|
    ensures forall k :: k in r <==> k in keys && NumericColumn(rows, k)
  {
    if keys == [] then []
    else (if NumericColumn(rows, keys[0]) then [keys[0]] else []) + NumericKeys(keys[1..], rows)
  }

  /** The numeric keys keep the order the first row gives them. */
  lemma {:induction false} NumericKeysInOrder(keys: seq<string>, rows: seq<Row>)
    ensures IsSubsequence(NumericKeys(keys, rows), keys)
  {
    if keys != [] {
      var r := NumericKeys(keys, rows);
      NumericKeysInOrder(keys[1..], rows);
      if NumericColumn(rows, keys[0]) {
        assert r[0] == keys[0] && r[1..] == NumericKeys(keys[1..], rows);
      } else if r != [] {
        assert r == NumericKeys(keys[1..], rows);
        assert r[0] in r;
        assert r[0] != keys[0];
      }
    }
  }

  /** The chart built at upload time: when at least two columns are numeric,
      labels and values are the raw cells of the x and y columns (the request
      may name them; otherwise the first two numeric columns), else null. */
  function UploadChart(rows: seq<Row>, bodyX: string, bodyY: string): (r: Option<Payload>)
    requires |rows| > 0
    ensures var nk := NumericKeys(Keys(rows[0]), rows);
      && (r.Some? <==> |nk| >= 2)
      && (r.Some? ==>
        var xKey := if bodyX != "" then bodyX else nk[0];
        var yKey := if bodyY != "" then bodyY else nk[1];
        && r.value.Chart2D? && r.value.chartType.None?
        && r.value.labels == Some(RawColumn(rows, xKey))
        && |r.value.datasets| == 1
        && r.value.datasets[0].data == RawColumn(rows, yKey)
        && r.value.datasets[0].legend == yKey + " vs " + xKey)
  {
    var nk := NumericKeys(Keys(rows[0]), rows);
    if |nk| < 2 then None
    else
      var xKey := if bodyX != "" then bodyX else nk[0];
      var yKey := if bodyY != "" then bodyY else nk[1];
      Some(Chart2D(None, Some(RawColumn(rows, xKey)),
        [Series(VersusLabel(xKey, yKey), RawColumn(rows, yKey), Solid(BaseColor), Some(BorderColor), Some(1))]))
  }

  /** With the default axes, every label and every value of the upload chart
      is a number, as both columns are numeric. */
  lemma DefaultUploadChartIsNumeric(rows: seq<Row>, i: nat)
    requires |rows| > 0 && i < |rows|
    requires UploadChart(rows, "", "").Some?
    ensures var p := UploadChart(rows, "", "").value;
      IsNumber(p.labels.value[i]) && IsNumber(p.datasets[0].data[i])
  {
    var nk := NumericKeys(Keys(rows[0]), rows);
    assert nk[0] in nk && nk[1] in nk;
  }

  /** POST /files/upload. The parsed first sheet is None when parsing
      throws; `tokenUser` is the decoded token; fileId, analysisId and now
      are the ids and time the database assigns. */
  method UploadFile(db: Store, file: Option<Upload>, tokenUser: Row, sheet: Option<seq<Row>>,
                    bodyX: string, bodyY: string, fileId: string, analysisId: string, now: int)
    returns (reply: Reply<(string, string)>)
    modifies db
    ensures file.None? ==> reply == Fail(400, "No file uploaded") && unchanged(db)
    ensures file.Some? && !Truthy(Get(tokenUser, "_id")) ==>
      reply == Fail(401, "User ID missing from token") && unchanged(db)
    ensures file.Some? && Truthy(Get(tokenUser, "_id")) && sheet.None? ==>
      reply == Fail(500, "File upload failed") && unchanged(db)
    ensures file.Some? && Truthy(Get(tokenUser, "_id")) && sheet == Some([]) ==>
      reply == Fail(400, "Excel file is empty or malformed") && unchanged(db)
    ensures reply.Ok? <==> file.Some? && Truthy(Get(tokenUser, "_id")) && sheet.Some? && sheet.value != []
    ensures reply.Ok? ==>
      var f := file.value;
      var rows := sheet.value;
      var owner := ToString(Get(tokenUser, "_id"));
      && reply == Ok(201, (fileId, analysisId))
      && db.files == old(db.files) + [FileRecord(fileId, f.originalname, f.mimetype, f.size, owner)]
      && db.analyses == old(db.analyses) + [AnalysisRecord(analysisId, fileId, owner, f.originalname,
           Some("bar"), UploadChart(rows, bodyX, bodyY), rows, Keys(rows[0]), "", "", "", false, Some(now))]
      && db.users == old(db.users)
  {
    if file.None? {
      return Fail(400, "No file uploaded");
    }
    var userId := Get(tokenUser, "_id");
    if !Truthy(userId) {
      return Fail(401, "User ID missing from token");
    }
    if sheet.None? {
      return Fail(500, "File upload failed");
    }
    var rows := sheet.value;
    if |rows| == 0 {
      return Fail(400, "Excel file is empty or malformed");
    }
    var chartData := UploadChart(rows, bodyX, bodyY);
    var owner := ToString(userId);
    var f := file.value;
    db.files := db.files + [FileRecord(fileId, f.originalname, f.mimetype, f.size, owner)];
    db.analyses := db.analyses + [AnalysisRecord(analysisId, fileId, owner, f.originalname,
      Some("bar"), chartData, rows, Keys(rows[0]), "", "", "", false, Some(now))];
    return Ok(201, (fileId, analysisId));
  }

  /** The listing reply. */
  datatype FileListing = FileListing(page: int, limit: int, totalFiles: nat, totalPages: int, files: seq<FileRecord>)

  function OwnedBy(files: seq<FileRecord>, user: string): (r: seq<FileRecord>)
    ensures forall f :: f in r <==> f in files && f.owner == user
  {
    Filter(files, (f: FileRecord) => f.owner == user)
  }

  /** `Math.abs`. A negative limit makes MongoDB return at most that many
      records in absolute value. */
  function Abs(n: int): nat {
    if n < 0 then -n else n
  }

  /** GET /files for a page number and a page size already read from the
      query; a negative skip makes the query fail. */
  function ListFiles(files: seq<FileRecord>, user: string, page: int, limit: int): (r: Reply<FileListing>)
    requires limit != 0
    ensures r.Fail? <==> (page - 1) * limit < 0
    ensures r.Fail? ==> r == Fail(500, "Could not retrieve files")
    ensures r.Ok? ==>
      && r.status == 200
      && r.value.page == page && r.value.limit == limit
      && r.value.totalFiles == |OwnedBy(files, user)|
      && r.value.totalPages == CeilDiv(|OwnedBy(files, user)|, limit)
      && |r.value.files| <= Abs(limit)
      && r.value.files == Page(Reverse(OwnedBy(files, user)), (page - 1) * limit, Abs(limit))
      && forall f :: f in r.value.files ==> f in files && f.owner == user
  {
    var skip := (page - 1) * limit;
    if skip < 0 then Fail(500, "Could not retrieve files")
    else
      var mine := OwnedBy(files, user);
      var listed := Page(Reverse(mine), skip, Abs(limit));
      PageOfReverseIn(mine, skip, Abs(limit));
      Ok(200, FileListing(page, limit, |mine|, CeilDiv(|mine|, limit), listed))
  }

  /** The query parameters: `parseInt(page) || 1` and `parseInt(limit) || 10`. */
  function ListingRequest(files: seq<FileRecord>, user: string, pageQ: Option<string>, limitQ: Option<string>): (r: Reply<FileListing>)
    ensures r.Ok? ==> r.value.page != 0 && r.value.limit != 0
    ensures ParseInt(pageQ).None? && ParseInt(limitQ).None? ==> r.Ok? && r.value.page == 1 && r.value.limit == 10
  {
    ListFiles(files, user, ParseIntOr(pageQ, 1), ParseIntOr(limitQ, 10))
  }

  /** Without query parameters the first page holds the ten newest files. */
  lemma ListingDefaults(files: seq<FileRecord>, user: string)
    ensures var r := ListingRequest(files, user, None, None);
      && r.Ok? && r.value.page == 1 && r.value.limit == 10
      && r.value.files == Page(Reverse(OwnedBy(files, user)), 0, 10)
  {
  }

  /** With a positive page size the page count is just enough for every file. */
  lemma TotalPagesCoverFiles(files: seq<FileRecord>, user: string, page: int, limit: int)
    requires limit > 0 && ListFiles(files, user, page, limit).Ok?
    ensures var v := ListFiles(files, user, page, limit).value;
      (v.totalPages - 1) * limit < v.totalFiles <= v.totalPages * limit
  {
    var n := |OwnedBy(files, user)|;
    assert (CeilDiv(n, limit) - 1) * limit < n <= CeilDiv(n, limit) * limit;
  }

  /** GET /files/:id/analysis. */
  function FetchAnalysis(analyses: seq<AnalysisRecord>, id: string, user: string): (r: Reply<AnalysisRecord>)
    ensures !IsValidObjectId(id) ==> r == Fail(400, "Invalid file ID format")
    ensures IsValidObjectId(id) && FindAnalysis(analyses, id, user).None? ==>
      r == Fail(404, "No analysis found for this file")
    ensures IsValidObjectId(id) && FindAnalysis(analyses, id, user).Some? ==>
      r == Ok(200, analyses[FindAnalysis(analyses, id, user).value])
    ensures r.Ok? ==> r.status == 200 && r.value in analyses && r.value.file == id && r.value.user == user
  {
    if !IsValidObjectId(id) then Fail(400, "Invalid file ID format")
    else match FindAnalysis(analyses, id, user)
      case None => Fail(404, "No analysis found for this file")
      case Some(i) => Ok(200, analyses[i])
  }

  /** The analyses that DELETE /files/:id keeps: those of other files or
      other users. */
  function KeptAfterFileDelete(analyses: seq<AnalysisRecord>, id: string, user: string): (r: seq<AnalysisRecord>)
    ensures forall a :: a in r <==> a in analyses && !(a.file == id && a.user == user)
  {
    Filter(analyses, (a: AnalysisRecord) => !(a.file == id && a.user == user))
  }

  /** DELETE /files/:id: only the requester's own file, and then only the
      requester's analyses of it. */
  method DeleteFile(db: Store, id: string, user: string) returns (reply: Reply<()>)
    modifies db
    ensures !IsValidObjectId(id) ==> reply == Fail(400, "Invalid file ID format") && unchanged(db)
    ensures var hit := FirstIndex(old(db.files), (f: FileRecord) => f.id == id && f.owner == user);
      && (IsValidObjectId(id) && hit.None? ==> reply == Fail(404, "File not found or unauthorized") && unchanged(db))
      && (IsValidObjectId(id) && hit.Some? ==>
        && reply == Ok(200, ())
        && db.files == RemoveAt(old(db.files), hit.value)
        && db.analyses == KeptAfterFileDelete(old(db.analyses), id, user)
        && db.users == old(db.users))
  {
    if !IsValidObjectId(id) {
      return Fail(400, "Invalid file ID format");
    }
    var hit := FirstIndex(db.files, (f: FileRecord) => f.id == id && f.owner == user);
    if hit.None? {
      return Fail(404, "File not found or unauthorized");
    }
    db.files := RemoveAt(db.files, hit.value);
    db.analyses := KeptAfterFileDelete(db.analyses, id, user);
    return Ok(200, ());
  }

  /** After the delete the file's analyses are gone for that user, and a
      second delete of the same file finds nothing to cascade. */
  lemma FileDeleteCascadeIdempotent(analyses: seq<AnalysisRecord>, id: string, user: string)
    ensures var kept := KeptAfterFileDelete(analyses, id, user);
      && FetchAnalysis(kept, id, user).Fail?
      && KeptAfterFileDelete(kept, id, user) == kept
  {
    FilterIdempotent(analyses, (a: AnalysisRecord) => !(a.file == id && a.user == user));
  }
}
