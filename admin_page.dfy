/** The admin dashboard page: it loads the user and upload lists once an
    admin is signed in, and after each confirmed and successful request it
    updates its own copy of those lists instead of fetching them again. */
module AdminPage {
  import opened JsValues
  import opened Database

  /** A user as listed on the page. The page reads the user's `_id`, which
      the user record's JSON transform (server/models/user.js:33-38) renames
      to `id`, so against this server the field `id` stands for a value the
      page actually reads as `undefined`. */
  datatype AdminUser = AdminUser(id: string, name: string, email: string)

  /** An upload as listed on the page; the uploader is absent when the
      upload's user was not populated. */
  datatype AdminUpload = AdminUpload(id: string, uploader: Option<string>, filename: string, verified: bool)

  /** The part of the dashboard response the page keeps. */
  datatype DashboardData = DashboardData(users: Option<seq<AdminUser>>, recentUploads: Option<seq<AdminUpload>>)

  const LoadFailed := "Failed to load admin data. Please try again."

  /** `users.filter(u => u._id !== userId)`. */
  function WithoutUser(users: seq<AdminUser>, userId: string): (r: seq<AdminUser>)
    ensures forall u :: u in r <==> u in users && u.id != userId
    ensures IsSubsequence(r, users)
  {
    var keep := (u: AdminUser) => u.id != userId;
    FilterIsSubsequence(users, keep);
    Filter(users, keep)
  }

  /** `uploads.filter(f => f.user?._id !== userId)`: uploads without a
      known uploader are kept. */
  function WithoutUploadsBy(uploads: seq<AdminUpload>, userId: string): (r: seq<AdminUpload>)
    ensures forall f :: f in r <==> f in uploads && f.uploader != Some(userId)
    ensures IsSubsequence(r, uploads)
  {
    var keep := (f: AdminUpload) => f.uploader != Some(userId);
    FilterIsSubsequence(uploads, keep);
    Filter(uploads, keep)
  }

  /** `uploads.filter(f => f._id !== uploadId)`. */
  function WithoutUpload(uploads: seq<AdminUpload>, uploadId: string): (r: seq<AdminUpload>)
    ensures forall f :: f in r <==> f in uploads && f.id != uploadId
    ensures IsSubsequence(r, uploads)
  {
    var keep := (f: AdminUpload) => f.id != uploadId;
    FilterIsSubsequence(uploads, keep);
    Filter(uploads, keep)
  }

  /** `uploads.map(f => f._id === uploadId ? {...f, verified: !current} : f)`. */
  function Toggled(uploads: seq<AdminUpload>, uploadId: string, current: bool): (r: seq<AdminUpload>)
    ensures |r| == |uploads|
    ensures forall i :: 0 <= i < |uploads| && uploads[i].id != uploadId ==> r[i] == uploads[i]
    ensures forall i :: 0 <= i < |uploads| && uploads[i].id == uploadId ==>
      r[i].verified == !current && r[i].(verified := uploads[i].verified) == uploads[i]
  {
    seq(|uploads|, i requires 0 <= i < |uploads| =>
      if uploads[i].id == uploadId then uploads[i].(verified := !current) else uploads[i])
  }

  /** Toggling an upload whose flag the page showed correctly, and then
      toggling it back, restores the list. */
  lemma ToggleBack(uploads: seq<AdminUpload>, uploadId: string, current: bool)
    requires forall i :: 0 <= i < |uploads| && uploads[i].id == uploadId ==> uploads[i].verified == current
    ensures Toggled(Toggled(uploads, uploadId, current), uploadId, !current) == uploads
  {
    var once := Toggled(uploads, uploadId, current);
    var twice := Toggled(once, uploadId, !current);
    forall i | 0 <= i < |uploads|
      ensures twice[i] == uploads[i]
    {
      if uploads[i].id == uploadId {
        assert once[i] == uploads[i].(verified := !current);
      }
    }
  }

  /** The panel state after clicking a panel's card. */
  function NextPanel(prev: string, panel: string): (next: string)
    ensures prev == panel ==> next == ""
    ensures prev != panel ==> next == panel
  {
    if prev == panel then "" else panel
  }

  /** Clicking a card opens its panel exactly when it was closed, and
      clicking it twice returns to the state before, unless another panel
      had been open, which is then closed. */
  lemma PanelClickTwice(prev: string, panel: string)
    requires panel != ""
    ensures NextPanel(prev, panel) == panel <==> prev != panel
    ensures NextPanel(NextPanel(prev, panel), panel) == if prev == panel then panel else ""
  {
  }

  /** Deleting a user leaves none of that user's uploads on the page. */
  lemma DeletedUserLeavesNoUploads(uploads: seq<AdminUpload>, userId: string)
    ensures forall f :: f in WithoutUploadsBy(uploads, userId) ==> f.uploader != Some(userId)
    ensures WithoutUploadsBy(WithoutUploadsBy(uploads, userId), userId) == WithoutUploadsBy(uploads, userId)
  {
    var keep := (f: AdminUpload) => f.uploader != Some(userId);
    FilterIdempotent(uploads, keep);
  }

  class Page {
    var users: seq<AdminUser>
    var uploads: seq<AdminUpload>
    var activePanel: string
    var loading: bool
    var error: string
    var location: Option<string>

    constructor ()
      ensures users == [] && uploads == [] && activePanel == "users"
      ensures loading && error == "" && location == None
    {
      users := [];
      uploads := [];
      activePanel := "users";
      loading := true;
      error := "";
      location := None;
    }

    /** The mount effect: without a token or with a role other than
        "admin" the page goes to the login page and fetches nothing;
        otherwise it fetches the dashboard and stops loading either way. */
    method Mount(token: Option<string>, role: Option<string>, response: Option<DashboardData>) returns (fetched: bool)
      modifies this
      ensures fetched <==> token.Some? && token.value != "" && role == Some("admin")
      ensures !fetched ==> location == Some("/login") && users == old(users) && uploads == old(uploads)
                           && loading == old(loading) && error == old(error) && activePanel == old(activePanel)
      ensures fetched ==> !loading && location == old(location) && activePanel == old(activePanel)
      ensures fetched && response.Some? ==>
        && users == (if response.value.users.Some? then response.value.users.value else [])
        && uploads == (if response.value.recentUploads.Some? then response.value.recentUploads.value else [])
        && error == old(error)
      ensures fetched && response.None? ==> error == LoadFailed && users == old(users) && uploads == old(uploads)
    {
      if token.None? || token.value == "" || role != Some("admin") {
        location := Some("/login");
        return false;
      }
      fetched := true;
      match response {
        case Some(d) =>
          users := if d.users.Some? then d.users.value else [];
          uploads := if d.recentUploads.Some? then d.recentUploads.value else [];
        case None =>
          error := LoadFailed;
      }
      loading := false;
    }

    /** Deleting a user: nothing happens unless the dialog is confirmed; the
        lists change only after the request succeeds, and then lose the user
        and every upload by the user. `requestOk` is whether the DELETE
        request succeeded, a parameter because the server's reply is not
        modelled here. `userId` is the `_id` the page reads; the server's
        JSON carries it as `id` only, so the page sends `undefined`. */
    method DeleteUser(confirmed: bool, requestOk: bool, userId: string) returns (sent: bool)
      modifies this
      ensures sent == confirmed
      ensures !(confirmed && requestOk) ==> unchanged(this)
      ensures confirmed && requestOk ==>
        && users == WithoutUser(old(users), userId)
        && uploads == WithoutUploadsBy(old(uploads), userId)
        && activePanel == old(activePanel) && loading == old(loading)
        && error == old(error) && location == old(location)
    {
      if !confirmed {
        return false;
      }
      sent := true;
      if requestOk {
        users := WithoutUser(users, userId);
        uploads := WithoutUploadsBy(uploads, userId);
      }
    }

    /** Deleting an upload: confirmed first, then only that upload goes.
        `requestOk` is whether the DELETE request succeeded. On this server
        the request reaches `deleteUserFiles`, which treats `uploadId` as a
        user id, deletes no upload and still replies 200, so the page drops
        an upload that the database keeps. */
    method DeleteUpload(confirmed: bool, requestOk: bool, uploadId: string) returns (sent: bool)
      modifies this
      ensures sent == confirmed
      ensures !(confirmed && requestOk) ==> unchanged(this)
      ensures confirmed && requestOk ==>
        && uploads == WithoutUpload(old(uploads), uploadId)
        && users == old(users) && activePanel == old(activePanel) && loading == old(loading)
        && error == old(error) && location == old(location)
    {
      if !confirmed {
        return false;
      }
      sent := true;
      if requestOk {
        uploads := WithoutUpload(uploads, uploadId);
      }
    }

    /** Flipping an upload's verified flag, without a confirmation dialog;
        the new flag is the negation of the one the page showed.
        `requestOk` is whether the PATCH request succeeded. The admin router
        has no `/uploads/:id/verify` route, so against this server the
        request fails and the page keeps its lists. */
    method ToggleVerify(requestOk: bool, uploadId: string, currentlyVerified: bool)
      modifies this
      ensures !requestOk ==> unchanged(this)
      ensures requestOk ==>
        && uploads == Toggled(old(uploads), uploadId, currentlyVerified)
        && users == old(users) && activePanel == old(activePanel) && loading == old(loading)
        && error == old(error) && location == old(location)
    {
      if requestOk {
        uploads := Toggled(uploads, uploadId, currentlyVerified);
      }
    }

    /** Clicking a panel's card. */
    method TogglePanel(panel: string)
      modifies this
      ensures activePanel == NextPanel(old(activePanel), panel)
      ensures users == old(users) && uploads == old(uploads) && loading == old(loading)
      ensures error == old(error) && location == old(location)
    {
      activePanel := NextPanel(activePanel, panel);
    }
  }
}
