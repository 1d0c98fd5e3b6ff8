/** The role gate placed in front of the admin and analyst routes: the
    request's role and the allowed roles are compared without regard to
    case. */
module AuthorizeRole {
  import opened Strings
  import opened JsValues

  /** What a middleware does with a request: pass it on, or answer it. */
  datatype Outcome = Next | Denied(status: nat, error: string)

  const InsufficientPermissions := "Access denied: Insufficient permissions"

  /** `allowedRoles.map(r => r.toLowerCase())`. */
  function LowerAll(roles: seq<string>): (r: seq<string>)
    ensures |r| == |roles|
    ensures forall i :: 0 <= i < |roles| ==> r[i] == ToLower(roles[i])
  {
    seq(|roles|, i requires 0 <= i < |roles| => ToLower(roles[i]))
  }

  /** `authorizeRole(...allowed)` applied to a request whose user has the
      given role (absent when there is no user or no role). */
  function Authorize(allowed: seq<string>, role: Option<string>): (o: Outcome)
    ensures o.Next? <==> role.Some? && role.value != [] &&
                         exists i :: 0 <= i < |allowed| && ToLower(allowed[i]) == ToLower(role.value)
    ensures o.Denied? ==> o == Denied(403, InsufficientPermissions)
  {
    if role.None? then Denied(403, InsufficientPermissions)
    else
      var userRole := ToLower(role.value);
      var normalized := LowerAll(allowed);
      if userRole == [] || userRole !in normalized then Denied(403, InsufficientPermissions)
      else Next
  }

  /** Two roles that differ only in case are treated alike. */
  lemma RoleCaseIgnored(allowed: seq<string>, r1: string, r2: string)
    requires ToLower(r1) == ToLower(r2)
    ensures Authorize(allowed, Some(r1)) == Authorize(allowed, Some(r2))
  {
  }

  /** Listing the allowed roles in another case changes nothing. */
  lemma AllowedCaseIgnored(a1: seq<string>, a2: seq<string>, role: Option<string>)
    requires LowerAll(a1) == LowerAll(a2)
    ensures Authorize(a1, role) == Authorize(a2, role)
  {
    if role.Some? {
      forall i | 0 <= i < |a1|
        ensures ToLower(a1[i]) == LowerAll(a2)[i]
      {
        assert LowerAll(a1)[i] == ToLower(a1[i]);
      }
    }
  }

  /** A request without a role, or any request when no role is allowed,
      is refused. */
  lemma MissingRoleDenied(allowed: seq<string>, role: Option<string>)
    requires role.None? || allowed == []
    ensures Authorize(allowed, role) == Denied(403, InsufficientPermissions)
  {
  }

  /** A stored "admin" passes `authorizeRole("Admin")`. */
  lemma AdminPassesCapitalised()
    ensures Authorize(["Admin"], Some("admin")) == Next
  {
    assert ToLower("Admin") == "admin";
    assert ToLower("admin") == "admin";
    assert ToLower(["Admin"][0]) == ToLower("admin");
  }
}
