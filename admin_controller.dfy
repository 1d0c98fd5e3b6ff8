/** The admin controller: dashboard statistics, and deactivating or deleting
    a user and deleting a user's analyses. */
module AdminController {
  import opened JsValues
  import opened Database

  /** A user as the dashboard lists it, without the password hash. */
  datatype UserView = UserView(id: string, name: string, email: string, role: Role, isActive: bool)

  datatype Stats = Stats(totalUsers: nat, totalUploads: nat, verifiedUploads: nat, activeUsers: nat)

  datatype Dashboard = Dashboard(stats: Stats, recentUploads: seq<AnalysisRecord>, users: seq<UserView>)

  function View(u: UserRecord): UserView {
    UserView(u.id, u.name, u.email, u.role, u.isActive)
  }

  function Views(users: seq<UserRecord>): (vs: seq<UserView>)
    ensures |vs| == |users|
    ensures forall i :: 0 <= i < |users| ==> vs[i] == View(users[i])
  {
    seq(|users|, i requires 0 <= i < |users| => View(users[i]))
  }

  /** `f.user?._id` after populating the uploader: the id when that user still
      exists, undefined (None) when the account is gone. */
  function UploaderKey(users: seq<UserRecord>, a: AnalysisRecord): Option<string> {
    if exists u :: u in users && u.id == a.user then Some(a.user) else None
  }

  /** The distinct values of a sequence, as a set. */
  function Distinct<T(==,!new)>(xs: seq<T>): (s: set<T>)
    ensures forall x :: x in s <==> x in xs
  {
    if xs == [] then {} else {xs[0]} + Distinct(xs[1..])
  }

  /** A sequence has no more distinct values than elements. */
  lemma {:induction false} DistinctBound<T(!new)>(xs: seq<T>)
    ensures |Distinct(xs)| <= |xs|
  {
    if xs != [] {
      DistinctBound(xs[1..]);
      assert Distinct(xs) == {xs[0]} + Distinct(xs[1..]);
    }
  }

  function UploaderKeys(users: seq<UserRecord>, uploads: seq<AnalysisRecord>): (ks: seq<Option<string>>)
    ensures |ks| == |uploads|
    ensures forall i :: 0 <= i < |uploads| ==> ks[i] == UploaderKey(users, uploads[i])
  {
    seq(|uploads|, i requires 0 <= i < |uploads| => UploaderKey(users, uploads[i]))
  }

  /** GET the admin dashboard: every upload newest first, the verified ones
      counted, distinct uploaders counted, the five newest listed. */
  function GetDashboard(users: seq<UserRecord>, analyses: seq<AnalysisRecord>): (d: Dashboard)
    ensures d.stats.totalUsers == |users| && d.stats.totalUploads == |analyses|
    ensures d.stats.verifiedUploads == |Filter(analyses, (a: AnalysisRecord) => a.verified)|
    ensures d.stats.activeUsers == |Distinct(UploaderKeys(users, Reverse(analyses)))|
    ensures |d.recentUploads| == Min(5, |analyses|)
    ensures forall i :: 0 <= i < |d.recentUploads| ==> d.recentUploads[i] == analyses[|analyses| - 1 - i]
    ensures d.users == Views(users)
  {
    var uploads := Reverse(analyses);
    Dashboard(
      Stats(|users|, |uploads|, |Filter(analyses, (a: AnalysisRecord) => a.verified)|,
            |Distinct(UploaderKeys(users, uploads))|),
      Page(uploads, 0, 5),
      Views(users))
  }

  /** Neither the verified count nor the count of distinct uploaders can
      exceed the number of uploads. */
  lemma StatsBounded(users: seq<UserRecord>, analyses: seq<AnalysisRecord>)
    ensures var s := GetDashboard(users, analyses).stats;
      s.verifiedUploads <= s.totalUploads && s.activeUsers <= s.totalUploads
  {
    DistinctBound(UploaderKeys(users, Reverse(analyses)));
  }

  /** The index of the user with this id (findById). */
  function FindUser(users: seq<UserRecord>, id: string): (r: Option<nat>)
    ensures r.Some? ==> r.value < |users| && users[r.value].id == id
    ensures r.None? <==> forall u :: u in users ==> u.id != id
  {
    FirstIndex(users, (u: UserRecord) => u.id == id)
  }

  /** PATCH deactivate: a missing id is 400, an id that is not an ObjectId
      fails the cast (500), an unknown one is 404; otherwise only that user's
      isActive becomes false. */
  method DeactivateUser(db: Store, id: string) returns (reply: Reply<UserRecord>)
    modifies db
    ensures id == "" ==> reply == Fail(400, "Missing user ID") && unchanged(db)
    ensures id != "" && !IsValidObjectId(id) ==> reply == Fail(500, "Failed to deactivate user") && unchanged(db)
    ensures id != "" && IsValidObjectId(id) && FindUser(old(db.users), id).None? ==>
      reply == Fail(404, "User not found") && unchanged(db)
    ensures id != "" && IsValidObjectId(id) && FindUser(old(db.users), id).Some? ==>
      var i := FindUser(old(db.users), id).value;
      && db.users == old(db.users)[i := old(db.users)[i].(isActive := false)]
      && reply == Ok(200, db.users[i])
      && db.files == old(db.files) && db.analyses == old(db.analyses)
  {
    if id == "" {
      return Fail(400, "Missing user ID");
    }
    if !IsValidObjectId(id) {
      return Fail(500, "Failed to deactivate user");
    }
    var hit := FindUser(db.users, id);
    if hit.None? {
      return Fail(404, "User not found");
    }
    var u := db.users[hit.value].(isActive := false);
    db.users := db.users[hit.value := u];
    return Ok(200, u);
  }

  /** DELETE user: removes exactly that account and leaves its analyses. */
  method DeleteUser(db: Store, id: string) returns (reply: Reply<UserRecord>)
    modifies db
    ensures id == "" ==> reply == Fail(400, "Missing user ID") && unchanged(db)
    ensures id != "" && !IsValidObjectId(id) ==> reply == Fail(500, "Failed to delete user") && unchanged(db)
    ensures id != "" && IsValidObjectId(id) && FindUser(old(db.users), id).None? ==>
      reply == Fail(404, "User not found") && unchanged(db)
    ensures id != "" && IsValidObjectId(id) && FindUser(old(db.users), id).Some? ==>
      var i := FindUser(old(db.users), id).value;
      && db.users == RemoveAt(old(db.users), i)
      && reply == Ok(200, old(db.users)[i])
      && db.files == old(db.files) && db.analyses == old(db.analyses)
  {
    if id == "" {
      return Fail(400, "Missing user ID");
    }
    if !IsValidObjectId(id) {
      return Fail(500, "Failed to delete user");
    }
    var hit := FindUser(db.users, id);
    if hit.None? {
      return Fail(404, "User not found");
    }
    var u := db.users[hit.value];
    db.users := RemoveAt(db.users, hit.value);
    return Ok(200, u);
  }

  function OthersAnalyses(analyses: seq<AnalysisRecord>, userId: string): (r: seq<AnalysisRecord>)
    ensures forall a :: a in r <==> a in analyses && a.user != userId
  {
    Filter(analyses, (a: AnalysisRecord) => a.user != userId)
  }

  /** DELETE a user's files: every analysis of that user goes, and the reply
      counts them. */
  method DeleteUserFiles(db: Store, userId: string) returns (reply: Reply<nat>)
    modifies db
    ensures userId == "" ==> reply == Fail(400, "Missing user ID") && unchanged(db)
    ensures userId != "" && !IsValidObjectId(userId) ==> reply == Fail(500, "Failed to delete user files") && unchanged(db)
    ensures userId != "" && IsValidObjectId(userId) ==>
      && db.analyses == OthersAnalyses(old(db.analyses), userId)
      && reply == Ok(200, |old(db.analyses)| - |db.analyses|)
      && db.users == old(db.users) && db.files == old(db.files)
  {
    if userId == "" {
      return Fail(400, "Missing user ID");
    }
    if !IsValidObjectId(userId) {
      return Fail(500, "Failed to delete user files");
    }
    var before := |db.analyses|;
    db.analyses := OthersAnalyses(db.analyses, userId);
    return Ok(200, before - |db.analyses|);
  }

  function UsersAnalyses(analyses: seq<AnalysisRecord>, userId: string): (r: seq<AnalysisRecord>)
    ensures forall a :: a in r <==> a in analyses && a.user == userId
  {
    Filter(analyses, (a: AnalysisRecord) => a.user == userId)
  }

  /** The count deleteUserFiles reports is the number of that user's analyses. */
  lemma {:induction false} DeletedCountIsUsersAnalyses(analyses: seq<AnalysisRecord>, userId: string)
    ensures |analyses| - |OthersAnalyses(analyses, userId)| == |UsersAnalyses(analyses, userId)|
  {
    if analyses != [] {
      DeletedCountIsUsersAnalyses(analyses[1..], userId);
    }
  }
}
