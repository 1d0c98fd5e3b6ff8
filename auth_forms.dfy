/** What the login and registration pages share: the e-mail test
    `/\S+@\S+\.\S+/.test(email)`, the server's answer to an
    authentication request, and the page an account lands on. */
module AuthForms {
  import opened Strings
  import opened JsValues

  /** s[i..j] holds no white space. */
  predicate NonSpaceRun(s: string, i: int, j: int)
    requires 0 <= i <= j <= |s|
  {
    forall k :: i <= k < j ==> !IsWhitespace(s[k])
  }

  /** The regular expression matches s[a..e] with its three runs of
      non-space characters s[a..p], s[p + 1..d] and s[d + 1..e]. */
  predicate MatchAt(s: string, a: int, p: int, d: int, e: int) {
    && 0 <= a < p && p + 1 < d && d + 1 < e <= |s|
    && NonSpaceRun(s, a, p) && s[p] == '@'
    && NonSpaceRun(s, p + 1, d) && s[d] == '.'
    && NonSpaceRun(s, d + 1, e)
  }

  /** The regular expression matches somewhere in s; it is not anchored. */
  ghost predicate EmailPattern(s: string) {
    exists a, p, d, e :: MatchAt(s, a, p, d, e)
  }

  /** An "@" at p after a non-space character, then non-space characters
      up to a "." at d that is followed by a non-space character. */
  predicate AnchorAt(s: string, p: int, d: int)
    requires 1 <= p < |s| && p + 1 < d < |s| - 1
  {
    !IsWhitespace(s[p - 1]) && s[p] == '@' && NonSpaceRun(s, p + 1, d) && s[d] == '.' && !IsWhitespace(s[d + 1])
  }

  /** The test as it can be decided. */
  predicate ValidEmail(s: string) {
    exists p, d | 1 <= p < |s| && p + 1 < d < |s| - 1 :: AnchorAt(s, p, d)
  }

  /** The decided test is the regular expression. */
  lemma ValidEmailIff(s: string)
    ensures ValidEmail(s) <==> EmailPattern(s)
  {
    if ValidEmail(s) {
      var p, d :| 1 <= p < |s| && p + 1 < d < |s| - 1 && AnchorAt(s, p, d);
      assert NonSpaceRun(s, p - 1, p);
      assert NonSpaceRun(s, d + 1, d + 2);
      assert MatchAt(s, p - 1, p, d, d + 2);
    }
    if EmailPattern(s) {
      var a, p, d, e :| MatchAt(s, a, p, d, e);
      assert !IsWhitespace(s[p - 1]);
      assert !IsWhitespace(s[d + 1]);
      assert AnchorAt(s, p, d);
    }
  }

  /** The pattern may sit anywhere: text around an address does not stop it. */
  lemma EmailExamples()
    ensures ValidEmail("a@b.c")
    ensures ValidEmail("say a@b.c please")
    ensures !ValidEmail("a@b")
    ensures !ValidEmail("ab.c")
  {
    assert "a@b.c"[1] == '@' && "a@b.c"[3] == '.';
    assert NonSpaceRun("a@b.c", 2, 3);
    assert AnchorAt("a@b.c", 1, 3);
    var t := "say a@b.c please";
    assert t[5] == '@' && t[7] == '.' && t[4] == 'a' && t[8] == 'c';
    assert NonSpaceRun(t, 6, 7);
    assert AnchorAt(t, 5, 7);
    assert forall i :: 0 <= i < 4 ==> "ab.c"[i] != '@';
  }

  /** The server's answer to a login or registration request. */
  datatype AuthResponse =
    | Authenticated(token: string, role: string)
    | Rejected(serverError: Option<string>, message: Option<string>)

  /** What a page does outside its own state, in order: a localStorage
      write, an alert, or a navigation. */
  datatype Effect = SetItem(key: string, value: string) | Alert(text: string) | Navigate(path: string)

  /** The page an account lands on. */
  function HomeFor(role: string): (path: string)
    ensures path == "/admin-dashboard" <==> role == "admin"
    ensures path != "/admin-dashboard" ==> path == "/dashboard"
  {
    if role == "admin" then "/admin-dashboard" else "/dashboard"
  }

  /** `a || b || fallback` on optional strings. */
  function FirstMessage(a: Option<string>, b: Option<string>, fallback: string): (m: string)
    ensures a.Some? && a.value != "" ==> m == a.value
    ensures !(a.Some? && a.value != "") && b.Some? && b.value != "" ==> m == b.value
    ensures !(a.Some? && a.value != "") && !(b.Some? && b.value != "") ==> m == fallback
  {
    if a.Some? && a.value != "" then a.value
    else if b.Some? && b.value != "" then b.value
    else fallback
  }
}
