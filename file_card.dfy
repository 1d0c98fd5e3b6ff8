/** The card that lists one uploaded file: its size in KB or MB, a type
    label, a name that is never blank, and a delete button that asks
    first. */
module FileCard {
  import opened Strings
  import opened JsValues

  const MiB: nat := 1024 * 1024

  datatype Unit = KB | MB

  /** The size shown: the number of kilobytes or megabytes and its unit.
      The two-decimal rounding of toFixed is not modelled. */
  datatype Size = Size(amount: real, unit: Unit)

  function SizeOf(bytes: nat): (s: Size)
    ensures s.unit == MB <==> bytes >= MiB
    ensures s.unit == MB ==> s.amount * (MiB as real) == bytes as real && s.amount >= 1.0
    ensures s.unit == KB ==> s.amount * 1024.0 == bytes as real && 0.0 <= s.amount < 1024.0
  {
    if bytes >= MiB then Size(bytes as real / MiB as real, MB)
    else Size(bytes as real / 1024.0, KB)
  }

  const ExcelLabel := "Excel Spreadsheet"

  /** The type label. The tests are case-sensitive. */
  function FileType(mimetype: Option<string>): (t: string)
    ensures mimetype.Some? && (Contains(mimetype.value, "spreadsheet") || Contains(mimetype.value, "excel")) ==> t == ExcelLabel
    ensures (mimetype.None? || mimetype.value == "") ==> t == "Unknown"
    ensures mimetype.Some? && mimetype.value != "" && !Contains(mimetype.value, "spreadsheet") && !Contains(mimetype.value, "excel")
            ==> t == mimetype.value
  {
    match mimetype
    case None => "Unknown"
    case Some(m) =>
      if Contains(m, "spreadsheet") || Contains(m, "excel") then ExcelLabel
      else if m == "" then "Unknown"
      else m
  }

  /** The name shown for a file. */
  function DisplayName(filename: Option<string>): (n: string)
    ensures n != ""
    ensures filename.Some? && filename.value != "" ==> n == filename.value
  {
    if filename.Some? && filename.value != "" then filename.value else "Unnamed File"
  }

  /** The delete button: the id handed to onDelete, only after the dialog
      is confirmed. */
  function DeleteClick(confirmed: bool, fileId: string): (call: Option<string>)
    ensures call.Some? <==> confirmed
    ensures call.Some? ==> call.value == fileId
  {
    if confirmed then Some(fileId) else None
  }

  /** The analysis link of a file. */
  function AnalysisLink(fileId: string): (path: string)
    ensures StartsWith(path, "/dashboard/analytics/") && EndsWith(path, fileId)
  {
    var p := "/dashboard/analytics/" + fileId;
    assert p[..|"/dashboard/analytics/"|] == "/dashboard/analytics/";
    assert p[|p| - |fileId|..] == fileId;
    p
  }

  /** The MIME types of .xlsx and .xls files both get the spreadsheet label. */
  lemma SpreadsheetTypes()
    ensures FileType(Some("application/vnd.openxmlformats-officedocument.spreadsheetml.sheet")) == ExcelLabel
    ensures FileType(Some("application/vnd.ms-excel")) == ExcelLabel
  {
    var x := "application/vnd.openxmlformats-officedocument.spreadsheetml.sheet";
    assert OccursAt(x, "spreadsheet", 46);
    var y := "application/vnd.ms-excel";
    assert OccursAt(y, "excel", 19);
  }

  /** The match is case-sensitive: an upper-case type keeps its own name. */
  lemma UpperCaseTypeNotRecognised()
    ensures FileType(Some("EXCEL")) == "EXCEL"
  {
    assert !Contains("EXCEL", "spreadsheet");
    assert !OccursAt("EXCEL", "excel", 0) by {
      assert "EXCEL"[0] != "excel"[0];
    }
  }
}
