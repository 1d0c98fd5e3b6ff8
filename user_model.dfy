/** The user schema: names and e-mail addresses are normalised when set,
    the role is one of three and defaults to "user", the JSON form drops
    the password and the internal fields, and a changed password is hashed
    before the record is saved. */
module UserModel {
  import opened Strings
  import opened JsValues
  import opened Database

  /** The role a document gets: the default for a missing role, the
      enumerated one for a known name (case-sensitive), none otherwise. */
  function RoleOf(role: Option<string>): (r: Option<Role>)
    ensures role.None? ==> r == Some(UserRole)
    ensures role.Some? ==> (r.Some? <==> role.value in ["user", "analyst", "admin"])
    ensures r == Some(Admin) <==> role == Some("admin")
  {
    match role
    case None => Some(UserRole)
    case Some(s) =>
      if s == "user" then Some(UserRole)
      else if s == "analyst" then Some(Analyst)
      else if s == "admin" then Some(Admin)
      else None
  }

  /** The stored name of a role. */
  function RoleName(r: Role): string {
    match r
    case UserRole => "user"
    case Analyst => "analyst"
    case Admin => "admin"
  }

  /** Every stored role reads back as itself. */
  lemma RoleNameRoundTrip(r: Role)
    ensures RoleOf(Some(RoleName(r))) == Some(r)
  {
  }

  /** An e-mail as stored: lower-cased, then trimmed. */
  function NormalizeEmail(s: string): (r: string)
    ensures r == [] || (!IsWhitespace(r[0]) && !IsWhitespace(r[|r| - 1]))
    ensures forall i :: 0 <= i < |r| ==> !('A' <= r[i] <= 'Z')
    ensures exists k :: TrimmedAt(ToLower(s), k, r)
  {
    TrimmedLower(s);
    Trim(ToLower(s))
  }

  /** The trim of the lower-cased s is unpadded, has no ASCII capital and
      is a slice of the lower-cased s. */
  lemma TrimmedLower(s: string)
    ensures Trim(ToLower(s)) == [] || (!IsWhitespace(Trim(ToLower(s))[0]) && !IsWhitespace(Trim(ToLower(s))[|Trim(ToLower(s))| - 1]))
    ensures forall i :: 0 <= i < |Trim(ToLower(s))| ==> !('A' <= Trim(ToLower(s))[i] <= 'Z')
    ensures exists k :: TrimmedAt(ToLower(s), k, Trim(ToLower(s)))
  {
    var l := ToLower(s);
    var t := Trim(l);
    TrimEndKeepsFirst(TrimStart(l));
    var k := |l| - |TrimStart(l)|;
    TrimIsSlice(l);
    forall i | 0 <= i < |t|
      ensures !('A' <= t[i] <= 'Z')
    {
      assert t[i] == l[k + i];
    }
  }

  /** A name as stored: trimmed. */
  function NormalizeName(s: string): (r: string)
    ensures r == [] || (!IsWhitespace(r[0]) && !IsWhitespace(r[|r| - 1]))
    ensures exists k :: TrimmedAt(s, k, r)
  {
    TrimEndKeepsFirst(TrimStart(s));
    TrimIsSlice(s);
    Trim(s)
  }

  /** Setting a stored value again changes nothing. */
  lemma NormalizeIdempotent(s: string)
    ensures NormalizeEmail(NormalizeEmail(s)) == NormalizeEmail(s)
    ensures NormalizeName(NormalizeName(s)) == NormalizeName(s)
  {
    var e := NormalizeEmail(s);
    assert ToLower(e) == e;
    TrimUnpadded(e);
    TrimIdempotent(s);
  }

  /** A failed schema validation names the failing paths. */
  datatype Created = Created(user: UserRecord) | ValidationFailed(paths: seq<string>)

  /** The schema paths that fail, in schema order. */
  function FailedPaths(nameBad: bool, emailBad: bool, passwordBad: bool, roleBad: bool): (f: seq<string>)
    ensures f == [] <==> !nameBad && !emailBad && !passwordBad && !roleBad
    ensures forall p :: p in f <==>
      || (p == "name" && nameBad)
      || (p == "email" && emailBad)
      || (p == "password" && passwordBad)
      || (p == "role" && roleBad)
  {
    (if nameBad then ["name"] else []) + (if emailBad then ["email"] else [])
    + (if passwordBad then ["password"] else []) + (if roleBad then ["role"] else [])
  }

  /** A new user document: the values are normalised first, and then
      name, email and password are required (an empty string fails) and
      the role must be one of the three. */
  function NewUser(id: string, name: string, email: string, passwordHash: string, role: Option<string>): (c: Created)
    ensures c.Created? <==> NormalizeName(name) != "" && NormalizeEmail(email) != "" && passwordHash != "" && RoleOf(role).Some?
    ensures c.Created? ==> c.user == UserRecord(id, NormalizeName(name), NormalizeEmail(email), RoleOf(role).value, passwordHash, true)
    ensures c.ValidationFailed? ==> forall p :: p in c.paths <==>
      || (p == "name" && NormalizeName(name) == "")
      || (p == "email" && NormalizeEmail(email) == "")
      || (p == "password" && passwordHash == "")
      || (p == "role" && RoleOf(role).None?)
  {
    var n, e, r := NormalizeName(name), NormalizeEmail(email), RoleOf(role);
    var failed := FailedPaths(n == "", e == "", passwordHash == "", r.None?);
    if failed == [] then Created(UserRecord(id, n, e, r.value, passwordHash, true))
    else ValidationFailed(failed)
  }

  /** The JSON form: `id` takes the value of `_id`, and `_id`, `__v` and
      `password` are gone; every other property is kept. */
  function Scrubbed(ret: Row): (r: Row)
    ensures Get(r, "id") == Get(ret, "_id")
    ensures "_id" !in Keys(r) && "__v" !in Keys(r) && "password" !in Keys(r)
    ensures forall k :: k !in ["id", "_id", "__v", "password"] ==> Get(r, k) == Get(ret, k)
  {
    var a := Put(ret, "id", Get(ret, "_id"));
    var b := Delete(a, "_id");
    var c := Delete(b, "__v");
    var d := Delete(c, "password");
    assert "_id" !in Keys(c);
    d
  }

  /** The object the transform receives and edits in place. */
  class JsonObject {
    var props: Row

    constructor (props: Row)
      ensures this.props == props
    {
      this.props := props;
    }
  }

  /** The toJSON transform, one assignment or deletion at a time. */
  method Transform(ret: JsonObject)
    modifies ret
    ensures ret.props == Scrubbed(old(ret.props))
  {
    ret.props := Put(ret.props, "id", Get(ret.props, "_id"));
    ret.props := Delete(ret.props, "_id");
    ret.props := Delete(ret.props, "__v");
    ret.props := Delete(ret.props, "password");
  }

  /** The JSON of a stored user never shows its password hash, whatever
      the other properties are. */
  lemma NoPasswordInJson(ret: Row)
    ensures Get(Scrubbed(ret), "password") == Undefined
  {
  }

  /** A document being saved, with mongoose's record of whether its
      password was changed. */
  class UserDocument {
    var password: string
    var passwordModified: bool

    constructor (password: string, passwordModified: bool)
      ensures this.password == password && this.passwordModified == passwordModified
    {
      this.password := password;
      this.passwordModified := passwordModified;
    }

    /** The pre-save hook: an unchanged password is kept, a changed one is
        replaced by its hash with a fresh salt. bcrypt is a parameter. */
    method PreSave(salt: string, hash: (string, string) -> string)
      modifies this
      ensures !old(passwordModified) ==> unchanged(this)
      ensures old(passwordModified) ==> password == hash(old(password), salt) && passwordModified == old(passwordModified)
    {
      if !passwordModified {
        return;
      }
      password := hash(password, salt);
    }
  }
}
