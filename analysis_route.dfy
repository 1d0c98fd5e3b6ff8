/** The /analysis routes: upload a spreadsheet with default axes, the
    paginated history, fetch and preview an analysis, update its chart
    settings, and delete a file with every analysis of it. */
module AnalysisRoute {
  import opened Strings
  import opened JsValues
  import opened ChartPayload
  import opened Database
  import Server = ServerChartBuilder
  import FilesRoute

  /** `cols[i]`, or undefined (the empty key) past the end. */
  function Column(cols: seq<string>, i: nat): (c: string)
    ensures i < |cols| ==> c == cols[i]
    ensures i >= |cols| ==> c == ""
  {
    if i < |cols| then cols[i] else ""
  }

  /** The chart stored at upload time: a bar chart of the second column
      against the first. */
  function DefaultChart(rows: seq<Row>): Option<Payload>
    requires |rows| > 0
  {
    var cols := Keys(rows[0]);
    Server.Build(Some(rows), "bar", Column(cols, 0), Column(cols, 1), "")
  }

  /** The upload chart exists exactly when the first row has two columns with
      non-empty names; with a single column yAxis is undefined and the chart
      is null. */
  lemma DefaultChartIffTwoColumns(rows: seq<Row>)
    requires |rows| > 0
    ensures var cols := Keys(rows[0]);
      DefaultChart(rows).Some? <==> |cols| >= 2 && cols[0] != "" && cols[1] != ""
  {
  }

  /** When it exists, the upload chart is the bar payload over the first two
      columns, one label and one value per row. */
  lemma DefaultChartShape(rows: seq<Row>, i: nat)
    requires |rows| > 0 && i < |rows| && DefaultChart(rows).Some?
    ensures var cols := Keys(rows[0]);
      var p := DefaultChart(rows).value;
      && p.Chart2D? && p.chartType == Some("bar")
      && p.labels == Some(StrValues(LabelColumn(rows, cols[0])))
      && |p.datasets| == 1 && |p.datasets[0].data| == |rows|
      && p.datasets[0].data[i] == Num(ToNumber(Nullish(Get(rows[i], cols[1]), Zero)))
  {
  }

  /** POST /analysis/upload. The sheet is None when reading the file
      throws; userId is the token's id. */
  method UploadAnalysis(db: Store, file: Option<FilesRoute.Upload>, userId: string, sheet: Option<seq<Row>>,
                        fileId: string, analysisId: string, now: int)
    returns (reply: Reply<(string, string)>)
    modifies db
    ensures file.None? ==> reply == Fail(400, "No file uploaded") && unchanged(db)
    ensures file.Some? && sheet.None? ==> reply == Fail(500, "Upload failed") && unchanged(db)
    ensures file.Some? && sheet == Some([]) ==> reply == Fail(400, "Empty or malformed Excel") && unchanged(db)
    ensures reply.Ok? <==> file.Some? && sheet.Some? && sheet.value != []
    ensures reply.Ok? ==>
      var f := file.value;
      var rows := sheet.value;
      var cols := Keys(rows[0]);
      && reply == Ok(201, (fileId, analysisId))
      && db.files == old(db.files) + [FileRecord(fileId, f.originalname, f.mimetype, f.size, userId)]
      && db.analyses == old(db.analyses) + [AnalysisRecord(analysisId, fileId, userId, f.originalname,
           Some("bar"), DefaultChart(rows), rows, cols, Column(cols, 0), Column(cols, 1), "", false, Some(now))]
      && db.users == old(db.users)
  {
    if file.None? {
      return Fail(400, "No file uploaded");
    }
    if sheet.None? {
      return Fail(500, "Upload failed");
    }
    var rows := sheet.value;
    if |rows| == 0 {
      return Fail(400, "Empty or malformed Excel");
    }
    var cols := Keys(rows[0]);
    var chartData := Server.Build(Some(rows), "bar", Column(cols, 0), Column(cols, 1), "");
    var f := file.value;
    db.files := db.files + [FileRecord(fileId, f.originalname, f.mimetype, f.size, userId)];
    db.analyses := db.analyses + [AnalysisRecord(analysisId, fileId, userId, f.originalname,
      Some("bar"), chartData, rows, cols, Column(cols, 0), Column(cols, 1), "", false, Some(now))];
    return Ok(201, (fileId, analysisId));
  }

  // ---- history ----

  /** One entry of the history list. */
  datatype HistoryEntry = HistoryEntry(analysisId: string, fileId: Option<string>, filename: string,
                                       chartType: Option<string>, uploadedAt: Option<int>,
                                       size: Option<nat>, mimetype: Option<string>)

  datatype HistoryPage = HistoryPage(uploads: seq<HistoryEntry>, page: int, total: nat, pageSize: nat, hasMore: bool)

  /** `populate("file")`: the file record the reference points to, if any. */
  function Populate(files: seq<FileRecord>, id: string): (r: Option<FileRecord>)
    ensures r.Some? ==> r.value in files && r.value.id == id
    ensures r.None? ==> forall f :: f in files ==> f.id != id
  {
    match FirstIndex(files, (f: FileRecord) => f.id == id)
    case None => None
    case Some(i) => Some(files[i])
  }

  /** The simplified entry; `||` falls back to the file's name, then to
      "Unnamed File", and a zero size or empty mimetype reads as null. */
  function Simplify(a: AnalysisRecord, file: Option<FileRecord>): (e: HistoryEntry)
    ensures e.analysisId == a.id && e.chartType == a.chartType && e.uploadedAt == a.createdAt
    ensures e.fileId == (if file.Some? then Some(file.value.id) else None)
    ensures e.filename != ""
    ensures a.filename != "" ==> e.filename == a.filename
    ensures a.filename == "" && file.Some? && file.value.filename != "" ==> e.filename == file.value.filename
    ensures a.filename == "" && (file.None? || file.value.filename == "") ==> e.filename == "Unnamed File"
    ensures e.size == (if file.Some? && file.value.size != 0 then Some(file.value.size) else None)
    ensures e.mimetype == (if file.Some? && file.value.mimetype != "" then Some(file.value.mimetype) else None)
  {
    HistoryEntry(a.id,
      if file.Some? then Some(file.value.id) else None,
      if a.filename != "" then a.filename
      else if file.Some? && file.value.filename != "" then file.value.filename
      else "Unnamed File",
      a.chartType, a.createdAt,
      if file.Some? && file.value.size != 0 then Some(file.value.size) else None,
      if file.Some? && file.value.mimetype != "" then Some(file.value.mimetype) else None)
  }

  function SimplifyAll(rs: seq<AnalysisRecord>, files: seq<FileRecord>): (es: seq<HistoryEntry>)
    ensures |es| == |rs|
    ensures forall i :: 0 <= i < |rs| ==> es[i] == Simplify(rs[i], Populate(files, rs[i].file))
  {
    seq(|rs|, i requires 0 <= i < |rs| => Simplify(rs[i], Populate(files, rs[i].file)))
  }

  function OwnAnalyses(analyses: seq<AnalysisRecord>, user: string): (r: seq<AnalysisRecord>)
    ensures forall a :: a in r <==> a in analyses && a.user == user
  {
    Filter(analyses, (a: AnalysisRecord) => a.user == user)
  }

  /** GET /analysis/history/all for a page already read with
      `parseInt(page) || 1`: ten entries per page, newest first. */
  function History(analyses: seq<AnalysisRecord>, files: seq<FileRecord>, user: string, page: int): (r: Reply<HistoryPage>)
    ensures r.Fail? <==> page < 1
    ensures r.Fail? ==> r == Fail(500, "History fetch failed")
    ensures r.Ok? ==>
      var mine := OwnAnalyses(analyses, user);
      && r.value.total == |mine| && r.value.pageSize == 10 && r.value.page == page
      && (r.value.hasMore <==> page * 10 < |mine|)
      && |r.value.uploads| <= 10
      && r.value.uploads == SimplifyAll(Page(Reverse(mine), (page - 1) * 10, 10), files)
  {
    var skip := (page - 1) * 10;
    if skip < 0 then Fail(500, "History fetch failed")
    else
      var mine := OwnAnalyses(analyses, user);
      Ok(200, HistoryPage(SimplifyAll(Page(Reverse(mine), skip, 10), files), page, |mine|, 10, page * 10 < |mine|))
  }

  /** `hasMore` says exactly whether a further page has entries. */
  lemma HasMoreIffNextPageNonEmpty(analyses: seq<AnalysisRecord>, files: seq<FileRecord>, user: string, page: int)
    requires page >= 1
    ensures History(analyses, files, user, page).value.hasMore <==>
            |History(analyses, files, user, page + 1).value.uploads| > 0
  {
    var n := |OwnAnalyses(analyses, user)|;
    assert page * 10 == (page + 1 - 1) * 10;
  }

  /** One entry of the dashboard shortcut, which leaves out the chart type. */
  datatype ShortcutEntry = ShortcutEntry(analysisId: string, fileId: Option<string>, filename: string,
                                         uploadedAt: Option<int>, size: Option<nat>, mimetype: Option<string>)

  /** The shortcut's entry: the same fallbacks as the paged history. */
  function Shortcut(a: AnalysisRecord, file: Option<FileRecord>): (e: ShortcutEntry)
    ensures e.analysisId == a.id && e.uploadedAt == a.createdAt
    ensures e.fileId == (if file.Some? then Some(file.value.id) else None)
    ensures e.filename != ""
    ensures a.filename != "" ==> e.filename == a.filename
    ensures a.filename == "" && file.Some? && file.value.filename != "" ==> e.filename == file.value.filename
    ensures a.filename == "" && (file.None? || file.value.filename == "") ==> e.filename == "Unnamed File"
    ensures e.size == (if file.Some? && file.value.size != 0 then Some(file.value.size) else None)
    ensures e.mimetype == (if file.Some? && file.value.mimetype != "" then Some(file.value.mimetype) else None)
  {
    ShortcutEntry(a.id,
      if file.Some? then Some(file.value.id) else None,
      if a.filename != "" then a.filename
      else if file.Some? && file.value.filename != "" then file.value.filename
      else "Unnamed File",
      a.createdAt,
      if file.Some? && file.value.size != 0 then Some(file.value.size) else None,
      if file.Some? && file.value.mimetype != "" then Some(file.value.mimetype) else None)
  }

  /** A history entry with its chart type dropped. */
  function WithoutChartType(e: HistoryEntry): ShortcutEntry {
    ShortcutEntry(e.analysisId, e.fileId, e.filename, e.uploadedAt, e.size, e.mimetype)
  }

  /** GET /analysis/history: the ten newest entries, with no paging and no
      chart type; each is the entry page 1 of the paged history shows, with
      its chart type removed. */
  function RecentHistory(analyses: seq<AnalysisRecord>, files: seq<FileRecord>, user: string): (es: seq<ShortcutEntry>)
    ensures |es| == Min(10, |OwnAnalyses(analyses, user)|)
    ensures var page := History(analyses, files, user, 1).value.uploads;
      |es| == |page| && forall i :: 0 <= i < |es| ==> es[i] == WithoutChartType(page[i])
  {
    var newest := Page(Reverse(OwnAnalyses(analyses, user)), 0, 10);
    seq(|newest|, i requires 0 <= i < |newest| => Shortcut(newest[i], Populate(files, newest[i].file)))
  }

  // ---- fetch and preview ----

  /** The body GET /analysis/:fileId sends: eight fields of the stored
      analysis, with `rawData` sent as `data` and `availableColumns` as
      `columns`; the ids, the owner and the dates stay on the server. */
  datatype FetchReply = FetchReply(
    filename: string, data: seq<Row>, chartType: Option<string>, columns: seq<string>,
    chartData: Option<Payload>, xAxis: string, yAxis: string, zAxis: string)

  function ReplyOf(a: AnalysisRecord): FetchReply {
    FetchReply(a.filename, a.rawData, a.chartType, a.availableColumns, a.chartData, a.xAxis, a.yAxis, a.zAxis)
  }

  /** GET /analysis/:fileId. */
  function Fetch(analyses: seq<AnalysisRecord>, fileId: string, user: string): (r: Reply<FetchReply>)
    ensures !IsValidObjectId(fileId) ==> r == Fail(400, "Invalid ID")
    ensures IsValidObjectId(fileId) && FindAnalysis(analyses, fileId, user).None? ==> r == Fail(404, "Not found")
    ensures IsValidObjectId(fileId) && FindAnalysis(analyses, fileId, user).Some? ==>
      var a := analyses[FindAnalysis(analyses, fileId, user).value];
      && r.Ok? && r.status == 200
      && r.value.filename == a.filename && r.value.data == a.rawData
      && r.value.chartType == a.chartType && r.value.columns == a.availableColumns
      && r.value.chartData == a.chartData
      && r.value.xAxis == a.xAxis && r.value.yAxis == a.yAxis && r.value.zAxis == a.zAxis
    ensures r.Ok? ==> exists a :: a in analyses && a.file == fileId && a.user == user && r.value == ReplyOf(a)
  {
    if !IsValidObjectId(fileId) then Fail(400, "Invalid ID")
    else match FindAnalysis(analyses, fileId, user)
      case None => Fail(404, "Not found")
      case Some(i) =>
        assert analyses[i] in analyses;
        Ok(200, ReplyOf(analyses[i]))
  }

  /** The two fetch routes find the same analysis; this one sends its
      eight-field projection where the files route sends the whole record. */
  lemma FetchProjectsFilesRoute(analyses: seq<AnalysisRecord>, fileId: string, user: string)
    ensures Fetch(analyses, fileId, user).Ok? <==> FilesRoute.FetchAnalysis(analyses, fileId, user).Ok?
    ensures Fetch(analyses, fileId, user).Ok? ==>
      Fetch(analyses, fileId, user).value == ReplyOf(FilesRoute.FetchAnalysis(analyses, fileId, user).value)
  {
  }

  datatype Preview = Preview(filename: string, columns: seq<string>, sample: seq<Row>)

  /** GET /analysis/:fileId/preview. There is no id check first, so an id
      that is not an ObjectId fails the query with 500. */
  function PreviewOf(analyses: seq<AnalysisRecord>, fileId: string, user: string): (r: Reply<Preview>)
    ensures !IsValidObjectId(fileId) ==> r == Fail(500, "Preview failed")
    ensures IsValidObjectId(fileId) && FindAnalysis(analyses, fileId, user).None? ==> r == Fail(404, "Not found")
    ensures r.Ok? <==> IsValidObjectId(fileId) && FindAnalysis(analyses, fileId, user).Some?
    ensures r.Ok? ==>
      var a := analyses[FindAnalysis(analyses, fileId, user).value];
      && r.status == 200
      && r.value.filename == a.filename
      && r.value.columns == a.availableColumns
      && |r.value.sample| == Min(5, |a.rawData|)
      && (forall i :: 0 <= i < |r.value.sample| ==> r.value.sample[i] == a.rawData[i])
  {
    if !IsValidObjectId(fileId) then Fail(500, "Preview failed")
    else match FindAnalysis(analyses, fileId, user)
      case None => Fail(404, "Not found")
      case Some(i) =>
        var a := analyses[i];
        Ok(200, Preview(a.filename, a.availableColumns, a.rawData[..Min(5, |a.rawData|)]))
  }

  // ---- chart update ----

  /** `[x, y, z].filter(Boolean).every(col => columns.includes(col))`. */
  function AxesAccepted(x: string, y: string, z: string, columns: seq<string>): (ok: bool)
    ensures ok <==> forall c :: c in [x, y, z] && c != "" ==> c in columns
  {
    (x == "" || x in columns) && (y == "" || y in columns) && (z == "" || z in columns)
  }

  /** No axis at all passes the check. */
  lemma NoAxesAccepted(columns: seq<string>)
    ensures AxesAccepted("", "", "", columns)
  {
  }

  /** The record after a successful chart update: type, axes and chart are
      replaced, the chart rebuilt from the stored rows ("bar" when no type is
      sent); everything else stays. */
  function Updated(a: AnalysisRecord, chartType: Option<string>, x: string, y: string, z: string): (b: AnalysisRecord)
    ensures b.chartType == chartType && b.xAxis == x && b.yAxis == y && b.zAxis == z
    ensures b.chartData == Server.Build(Some(a.rawData), if chartType.Some? then chartType.value else "bar", x, y, z)
    ensures b.id == a.id && b.file == a.file && b.user == a.user && b.filename == a.filename
    ensures b.rawData == a.rawData && b.availableColumns == a.availableColumns
    ensures b.verified == a.verified && b.createdAt == a.createdAt
  {
    a.(chartType := chartType, xAxis := x, yAxis := y, zAxis := z,
       chartData := Server.Build(Some(a.rawData), if chartType.Some? then chartType.value else "bar", x, y, z))
  }

  /** PUT /analysis/:fileId/chart. The record is found first (404), then the
      axes are checked (400); only then is anything written. */
  method UpdateChart(db: Store, fileId: string, user: string, chartType: Option<string>, x: string, y: string, z: string)
    returns (reply: Reply<Option<Payload>>)
    modifies db
    ensures !IsValidObjectId(fileId) ==> reply == Fail(500, "Chart update failed") && unchanged(db)
    ensures var hit := FindAnalysis(old(db.analyses), fileId, user);
      && (IsValidObjectId(fileId) && hit.None? ==> reply == Fail(404, "Not found") && unchanged(db))
      && (IsValidObjectId(fileId) && hit.Some? ==>
        var a := old(db.analyses)[hit.value];
        && (!AxesAccepted(x, y, z, a.availableColumns) ==> reply == Fail(400, "Invalid axes") && unchanged(db))
        && (AxesAccepted(x, y, z, a.availableColumns) ==>
          && db.analyses == old(db.analyses)[hit.value := Updated(a, chartType, x, y, z)]
          && reply == Ok(200, Updated(a, chartType, x, y, z).chartData)
          && db.files == old(db.files) && db.users == old(db.users)))
  {
    if !IsValidObjectId(fileId) {
      return Fail(500, "Chart update failed");
    }
    var hit := FindAnalysis(db.analyses, fileId, user);
    if hit.None? {
      return Fail(404, "Not found");
    }
    var a := db.analyses[hit.value];
    if !AxesAccepted(x, y, z, a.availableColumns) {
      return Fail(400, "Invalid axes");
    }
    var b := Updated(a, chartType, x, y, z);
    db.analyses := db.analyses[hit.value := b];
    return Ok(200, b.chartData);
  }

  /** Updating twice with the same settings leaves the record as one update does. */
  lemma UpdateIdempotent(a: AnalysisRecord, chartType: Option<string>, x: string, y: string, z: string)
    ensures Updated(Updated(a, chartType, x, y, z), chartType, x, y, z) == Updated(a, chartType, x, y, z)
  {
  }

  // ---- delete ----

  function OtherFilesAnalyses(analyses: seq<AnalysisRecord>, fileId: string): (r: seq<AnalysisRecord>)
    ensures forall a :: a in r <==> a in analyses && a.file != fileId
  {
    Filter(analyses, (a: AnalysisRecord) => a.file != fileId)
  }

  /** DELETE /analysis/:fileId: the file goes only if the requester owns it,
      but every analysis of that file goes, whoever owns it and whether or
      not a file was found. */
  method DeleteAnalysis(db: Store, fileId: string, user: string) returns (reply: Reply<()>)
    modifies db
    ensures !IsValidObjectId(fileId) ==> reply == Fail(400, "Invalid ID") && unchanged(db)
    ensures IsValidObjectId(fileId) ==>
      var hit := FirstIndex(old(db.files), (f: FileRecord) => f.id == fileId && f.owner == user);
      && reply == Ok(200, ())
      && db.files == (if hit.Some? then RemoveAt(old(db.files), hit.value) else old(db.files))
      && db.analyses == OtherFilesAnalyses(old(db.analyses), fileId)
      && db.users == old(db.users)
  {
    if !IsValidObjectId(fileId) {
      return Fail(400, "Invalid ID");
    }
    var hit := FirstIndex(db.files, (f: FileRecord) => f.id == fileId && f.owner == user);
    if hit.Some? {
      db.files := RemoveAt(db.files, hit.value);
    }
    db.analyses := OtherFilesAnalyses(db.analyses, fileId);
    return Ok(200, ());
  }

  /** After the delete no user can fetch an analysis of that file. */
  lemma NothingLeftToFetch(analyses: seq<AnalysisRecord>, fileId: string, anyUser: string)
    ensures var kept := OtherFilesAnalyses(analyses, fileId);
      IsValidObjectId(fileId) ==> Fetch(kept, fileId, anyUser) == Fail(404, "Not found")
  {
  }

  /** This route removes more than the /files delete does: a superset of its
      losses, with other users' analyses of the file among them. */
  lemma DeletesMoreThanFilesRoute(analyses: seq<AnalysisRecord>, fileId: string, user: string)
    ensures forall a :: a in OtherFilesAnalyses(analyses, fileId) ==> a in FilesRoute.KeptAfterFileDelete(analyses, fileId, user)
  {
  }
}
