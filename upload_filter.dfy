/** The upload middleware's file filter and stored file name: only .xls
    and .xlsx files are accepted, judged by the extension as Node's
    path.extname finds it, and a file is stored under a time-stamped name. */
module UploadFilter {
  import opened Strings
  import opened JsValues

  /** The position of the last occurrence of c in s. */
  function LastIndexOf(s: string, c: char): (r: Option<nat>)
    ensures r.None? <==> c !in s
    ensures r.Some? ==> r.value < |s| && s[r.value] == c && c !in s[r.value + 1..]
    ensures r.Some? ==> forall k :: r.value < k < |s| ==> s[k] != c
  {
    if s == [] then None
    else if s[|s| - 1] == c then
      assert s[|s|..] == [];
      Some(|s| - 1)
    else
      var r := LastIndexOf(s[..|s| - 1], c);
      assert forall x :: x in s <==> x in s[..|s| - 1] || x == s[|s| - 1];
      if r.Some? then
        assert s[r.value + 1..] == s[..|s| - 1][r.value + 1..] + [s[|s| - 1]];
        r
      else r
  }

  /** `path.extname` of a base name: from the last dot to the end, or
      empty when there is no dot, when the only candidate dot starts the
      name, or for "..". */
  function Extname(name: string): (e: string)
    ensures e != [] ==> && e[0] == '.' && '.' !in e[1..] && 0 < |name| - |e|
                        && name[|name| - |e|..] == e
    ensures '.' !in name ==> e == []
  {
    match LastIndexOf(name, '.')
    case None => []
    case Some(i) =>
      if i == 0 || name == ".." then []
      else
        assert name[i..][1..] == name[i + 1..];
        name[i..]
  }

  /** The extension of `<base>.<ext>`, for a base name with something
      before the dot and an extension without dots, is `.<ext>`. */
  lemma ExtnameOf(base: string, ext: string)
    requires base != [] && '.' !in ext && (ext != [] || base != ".")
    ensures Extname(base + "." + ext) == "." + ext
  {
    var name := base + "." + ext;
    var b := |base|;
    assert name[b] == '.';
    forall k | b < k < |name| ensures name[k] != '.' {
      assert name[k] == ext[k - b - 1];
    }
    LastDotAt(name, b);
    assert name != ".." by {
      assert |name| == 2 ==> base == [name[0]] && ext == [];
    }
    assert name[b..] == "." + ext;
  }

  const AllowedExtensions: seq<string> := [".xls", ".xlsx"]

  /** `fileFilter`'s verdict. */
  predicate Accepted(originalname: string) {
    ToLower(Extname(originalname)) in AllowedExtensions
  }

  /** Accepted exactly when the name is some base name followed by ".xls"
      or ".xlsx" in any case. */
  lemma AcceptedIff(name: string)
    ensures Accepted(name) <==>
      exists k :: 0 < k < |name| && ToLower(name[k..]) in AllowedExtensions && name[k..] == Extname(name)
  {
    var e := Extname(name);
    if Accepted(name) {
      assert e != [] by {
        assert ToLower([]) == [];
      }
      var k := |name| - |e|;
      assert name[k..] == e;
    }
  }

  /** The last dot is at i when s[i] is one and no later character is. */
  lemma LastDotAt(s: string, i: nat)
    requires i < |s| && s[i] == '.'
    requires forall k :: i < k < |s| ==> s[k] != '.'
    ensures LastIndexOf(s, '.') == Some(i)
  {
  }

  /** Case is ignored: an upper-case extension is accepted. */
  lemma UpperCaseAccepted()
    ensures Accepted("REPORT.XLSX")
  {
    var s := "REPORT.XLSX";
    assert s[6] == '.' && s[7] != '.' && s[8] != '.' && s[9] != '.' && s[10] != '.';
    LastDotAt(s, 6);
    assert Extname(s) == ".XLSX";
    assert ToLower(".XLSX") == ".xlsx";
  }

  /** Only the last suffix counts: a spreadsheet suffix before it does not. */
  lemma LastSuffixCounts()
    ensures Accepted("a.csv.xlsx")
  {
    var s := "a.csv.xlsx";
    assert s[5] == '.' && s[6] != '.' && s[7] != '.' && s[8] != '.' && s[9] != '.';
    LastDotAt(s, 5);
    assert Extname(s) == ".xlsx";
    assert ToLower(".xlsx") == ".xlsx";
  }

  lemma EarlierSuffixIgnored()
    ensures !Accepted("a.xlsx.csv")
  {
    var s := "a.xlsx.csv";
    assert s[6] == '.' && s[7] != '.' && s[8] != '.' && s[9] != '.';
    LastDotAt(s, 6);
    assert Extname(s) == ".csv";
    assert ToLower(".csv") == ".csv";
    assert ".csv"[1] == 'c' && ".xls"[1] == 'x' && ".xlsx"[1] == 'x';
  }

  /** A dot file, or a name without a dot, has no extension. */
  lemma NoExtensionRefused()
    ensures !Accepted(".xlsx")
    ensures !Accepted("xlsx")
  {
    assert ".xlsx"[0] == '.' && ".xlsx"[1..] == "xlsx";
    assert LastIndexOf(".xlsx", '.') == Some(0);
    assert ToLower([]) == [];
  }

  /** The stored name `<timestamp>-<originalname>`; the clock reading is a
      parameter. */
  function StoredName(now: nat, originalname: string): (s: string)
    ensures EndsWith(s, originalname)
    ensures StartsWith(s, NatToDecimal(now) + "-")
  {
    var s := NatToDecimal(now) + "-" + originalname;
    assert s[|s| - |originalname|..] == originalname;
    assert s[..|NatToDecimal(now) + "-"|] == NatToDecimal(now) + "-";
    s
  }

  /** The time stamp can be read back from the stored name. */
  lemma StoredNameTimestamp(now: nat, originalname: string)
    ensures var s := StoredName(now, originalname);
      var d := NatToDecimal(now);
      AllDigits(d) && s[|d|] == '-' && DecimalValue(s[..|d|]) == now
  {
    var s := StoredName(now, originalname);
    var d := NatToDecimal(now);
    assert s[..|d|] == d;
    DecimalRoundTrip(now);
  }
}
