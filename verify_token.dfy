/** The bearer-token check in front of every authenticated route. Token
    verification itself is a parameter: it maps a token to its decoded
    payload, or to nothing when the signature or expiry check fails. */
module VerifyToken {
  import opened Strings
  import opened JsValues
  import opened AuthorizeRole

  const BearerPrefix := "Bearer "
  const NoToken := "Access denied: No token provided"
  const BadToken := "Token invalid or expired"

  /** `header.split(" ")[1]` for a header that starts with "Bearer ": the
      text after the prefix up to the next space. */
  function BearerToken(header: string): (t: string)
    requires StartsWith(header, BearerPrefix)
    ensures ' ' !in t
    ensures StartsWith(header, BearerPrefix + t)
    ensures |header| > |BearerPrefix + t| ==> header[|BearerPrefix + t|] == ' '
  {
    var rest := header[|BearerPrefix|..];
    assert header == "Bearer" + " " + rest;
    SplitSpaceAfterWord("Bearer", rest);
    var t := SplitSpace(header)[1];
    assert t == SplitSpace(rest)[0];
    FirstPiece(rest);
    assert header[..|BearerPrefix + t|] == BearerPrefix + rest[..|t|];
    t
  }

  /** The first piece of a split is the text up to the first space. */
  lemma FirstPiece(s: string)
    ensures var p := SplitSpace(s)[0];
      && p == s[..|p|] && (|p| < |s| ==> s[|p|] == ' ')
  {
    if ' ' in s {
      var i := IndexOf(s, ' ');
      assert SplitSpace(s)[0] == s[..i];
    }
  }

  /** The header the client sends for a token without spaces yields that
      token back. */
  lemma HeaderRoundTrip(token: string)
    requires ' ' !in token
    ensures StartsWith(BearerPrefix + token, BearerPrefix)
    ensures BearerToken(BearerPrefix + token) == token
  {
    var h := BearerPrefix + token;
    assert h[..|BearerPrefix|] == BearerPrefix;
    var t := BearerToken(h);
    assert h[..|BearerPrefix + t|] == BearerPrefix + t;
  }

  /** With two spaces after "Bearer" the token is empty. */
  lemma DoubleSpaceEmptyToken(rest: string)
    ensures StartsWith("Bearer  " + rest, BearerPrefix)
    ensures BearerToken("Bearer  " + rest) == ""
  {
    var h := "Bearer  " + rest;
    assert h[..|BearerPrefix|] == BearerPrefix;
    assert h[|BearerPrefix|] == ' ';
  }

  /** A request as the middleware sees it: its authorization header and
      the user it attaches. */
  class Request {
    var authorization: Option<string>
    var user: Option<Row>

    constructor (authorization: Option<string>)
      ensures this.authorization == authorization && user == None
    {
      this.authorization := authorization;
      user := None;
    }
  }

  /** A header that is present and starts with the exact, case-sensitive
      prefix "Bearer ". */
  predicate HasBearer(h: Option<string>) {
    h.Some? && StartsWith(h.value, BearerPrefix)
  }

  /** `verifyToken`: 403 without verifying for a missing or malformed
      header, 401 with no user set when verification fails, otherwise the
      decoded payload becomes the request's user and the request goes on. */
  method Check(req: Request, verify: string -> Option<Row>) returns (o: Outcome, verified: Option<string>)
    modifies req
    ensures !HasBearer(old(req.authorization)) ==> o == Denied(403, NoToken) && verified == None && unchanged(req)
    ensures HasBearer(old(req.authorization)) ==>
      var t := BearerToken(old(req.authorization).value);
      && verified == Some(t)
      && (verify(t).None? ==> o == Denied(401, BadToken) && unchanged(req))
      && (verify(t).Some? ==> o == Next && req.user == verify(t) && req.authorization == old(req.authorization))
  {
    var header := req.authorization;
    if !HasBearer(header) {
      return Denied(403, NoToken), None;
    }
    var token := BearerToken(header.value);
    verified := Some(token);
    var decoded := verify(token);
    if decoded.None? {
      return Denied(401, BadToken), verified;
    }
    req.user := decoded;
    o := Next;
  }

  /** The payload of a token the server issues: `generateToken` signs only
      `{id}`, and the signing library adds the issue and expiry times. */
  function IssuedPayload(userId: string, iat: int, exp: int): Row {
    [Entry("id", Str(userId)), Entry("iat", Num(Real(iat as real))), Entry("exp", Num(Real(exp as real)))]
  }

  /** A verified server-issued token gives a user with `id`, but with no
      `_id` (which the files routes and the history controller read) and no
      `role` (which the role check reads), so the role check refuses it. */
  lemma IssuedPayloadLacksIdAndRole(userId: string, iat: int, exp: int, allowed: seq<string>)
    ensures Get(IssuedPayload(userId, iat, exp), "id") == Str(userId)
    ensures Get(IssuedPayload(userId, iat, exp), "_id") == Undefined
    ensures Get(IssuedPayload(userId, iat, exp), "role") == Undefined
    ensures Authorize(allowed, None) == Denied(403, InsufficientPermissions)
  {
  }

  /** The prefix test is case-sensitive. */
  lemma LowercaseBearerRefused(token: string)
    ensures !HasBearer(Some("bearer " + token))
  {
    var h := "bearer " + token;
    assert h[0] == 'b';
  }
}
