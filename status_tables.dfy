/**
 * The per-operation tables from HTTP status to the exception reported for it. The source
 * fills an Android `SparseArray`, which keeps its keys in ascending order and holds at most one
 * value per key; `keyAt(i)` and `valueAt(i)` read the i-th entry in that order.
 */
module StatusTables {
  import opened Outcomes
  import opened Executor

  predicate Ascending(table: seq<StatusEntry>) {
    forall i, j :: 0 <= i < j < |table| ==> table[i].code < table[j].code
  }

  /** `SparseArray.put`: replace the entry with the same key, or insert in key order. */
  function Put(table: seq<StatusEntry>, e: StatusEntry): seq<StatusEntry>
    decreases |table|
  {
    if table == [] then [e]
    else if e.code < table[0].code then [e] + table
    else if e.code == table[0].code then [e] + table[1..]
    else [table[0]] + Put(table[1..], e)
  }

  /** `SparseArray.append`: add at the end when the key is above every key, else `put`. */
  function Append(table: seq<StatusEntry>, e: StatusEntry): seq<StatusEntry> {
    if |table| > 0 && e.code <= table[|table| - 1].code then Put(table, e) else table + [e]
  }

  /** A `put` adds the new entry and keeps only entries already there. */
  lemma {:induction false} PutMembers(table: seq<StatusEntry>, e: StatusEntry)
    ensures e in Put(table, e)
    ensures forall i :: 0 <= i < |Put(table, e)| ==> Put(table, e)[i] == e || Put(table, e)[i] in table
    decreases |table|
  {
    if table != [] && e.code > table[0].code {
      var r, rest := Put(table, e), table[1..];
      PutMembers(rest, e);
      assert r[1..] == Put(rest, e);
      forall i | 0 < i < |r|
        ensures r[i] == e || r[i] in table
      {
        assert r[i] == Put(rest, e)[i - 1];
      }
    }
  }

  /** A `put` of a key above `low` into a table whose keys are above `low` keeps them above it. */
  lemma {:induction false} PutAbove(table: seq<StatusEntry>, e: StatusEntry, low: int)
    requires e.code > low
    requires forall i :: 0 <= i < |table| ==> table[i].code > low
    ensures forall i :: 0 <= i < |Put(table, e)| ==> Put(table, e)[i].code > low
    decreases |table|
  {
    if table != [] && e.code > table[0].code {
      PutAbove(table[1..], e, low);
      assert Put(table, e)[1..] == Put(table[1..], e);
    }
  }

  /** A `put` keeps the keys ascending. */
  lemma {:induction false} PutAscending(table: seq<StatusEntry>, e: StatusEntry)
    requires Ascending(table)
    ensures Ascending(Put(table, e))
    decreases |table|
  {
    if table != [] && e.code > table[0].code {
      var r, rest := Put(table, e), table[1..];
      var t := Put(rest, e);
      PutAscending(rest, e);
      PutAbove(rest, e, table[0].code);
      assert r == [table[0]] + t;
      forall i, j | 0 <= i < j < |r|
        ensures r[i].code < r[j].code
      {
        assert r[j] == t[j - 1];
        if i > 0 {
          assert r[i] == t[i - 1];
        }
      }
    }
  }

  /** After a `put` the key maps to the new entry and every other key to what it did before. */
  lemma {:induction false} PutLookup(table: seq<StatusEntry>, e: StatusEntry, c: int)
    ensures FirstMatch(Put(table, e), e.code) == Some(e)
    ensures c != e.code ==> FirstMatch(Put(table, e), c) == FirstMatch(table, c)
    decreases |table|
  {
    var r := Put(table, e);
    if table == [] {
    } else if e.code < table[0].code {
      assert r[1..] == table;
    } else if e.code == table[0].code {
      assert r[1..] == table[1..];
    } else {
      PutLookup(table[1..], e, c);
      assert r[1..] == Put(table[1..], e);
    }
  }

  /** A `put` grows an ascending table by one entry exactly when its key was absent. */
  lemma {:induction false} PutSize(table: seq<StatusEntry>, e: StatusEntry)
    requires Ascending(table)
    ensures |Put(table, e)| == if FirstMatch(table, e.code).Some? then |table| else |table| + 1
    decreases |table|
  {
    if table != [] && e.code > table[0].code {
      PutSize(table[1..], e);
    }
  }

  /** A key above every key present is put at the end. */
  lemma {:induction false} PutAfterAll(table: seq<StatusEntry>, e: StatusEntry)
    requires forall i :: 0 <= i < |table| ==> table[i].code < e.code
    ensures Put(table, e) == table + [e]
    decreases |table|
  {
    if table != [] {
      PutAfterAll(table[1..], e);
      assert table == [table[0]] + table[1..];
    }
  }

  /** On an ascending table, `append` is `put`. */
  lemma AppendIsPut(table: seq<StatusEntry>, e: StatusEntry)
    requires Ascending(table)
    ensures Append(table, e) == Put(table, e)
  {
    if !(|table| > 0 && e.code <= table[|table| - 1].code) {
      PutAfterAll(table, e);
    }
  }

  /** A table built by appending the entries in order. */
  function AppendAll(entries: seq<StatusEntry>): seq<StatusEntry>
    decreases |entries|
  {
    if entries == [] then [] else Append(AppendAll(entries[..|entries| - 1]), entries[|entries| - 1])
  }

  /** A table built by putting the entries in order. */
  function PutAll(entries: seq<StatusEntry>): seq<StatusEntry>
    decreases |entries|
  {
    if entries == [] then [] else Put(PutAll(entries[..|entries| - 1]), entries[|entries| - 1])
  }

  /** Entries given in ascending key order are kept as given, by `append` and by `put` alike. */
  lemma {:induction false} AscendingKept(entries: seq<StatusEntry>)
    requires Ascending(entries)
    ensures AppendAll(entries) == entries
    ensures PutAll(entries) == entries
    decreases |entries|
  {
    if entries != [] {
      var init := entries[..|entries| - 1];
      var last := entries[|entries| - 1];
      AscendingKept(init);
      assert entries == init + [last];
      PutAfterAll(init, last);
    }
  }

  const AuthenticateEntries: seq<StatusEntry> := [
    StatusEntry(HttpBadRequest, InvalidParameter, "Please provide a valid email"),
    StatusEntry(HttpUnauthorized, InvalidCredentials, "Please provide valid credentials"),
    StatusEntry(HttpForbidden, EmailNotVerified, "Email hasn't been verified")]

  const RegisterEntries: seq<StatusEntry> := [
    StatusEntry(HttpBadRequest, InvalidParameter, "The email provided isn't valid or the passwords don't match"),
    StatusEntry(HttpConflict, UserAlreadyExists, "An account with the same email already exists")]

  const GetOwnProjectsEntries: seq<StatusEntry> := [
    StatusEntry(HttpUnauthorized, UserNotAuthenticated, "User not authenticated")]

  const CreateNewProjectEntries: seq<StatusEntry> := [
    StatusEntry(HttpBadRequest, InvalidParameter, "One or more of the fields are incorrectly formatted"),
    StatusEntry(HttpConflict, ProjectAlreadyExists, "Another project with the same title already exists")]

  const GetProjectByIdEntries: seq<StatusEntry> := [
    StatusEntry(HttpNotFound, NotFound, "Project with that ID wasn't found")]

  const GetAllProjectsEntries: seq<StatusEntry> := [
    StatusEntry(HttpServerError, IO, "Server error")]

  const UpdateProjectEntries: seq<StatusEntry> := [
    StatusEntry(HttpBadRequest, InvalidParameter, "One or more of the fields in the updated project is invalid"),
    StatusEntry(HttpUnauthorized, UserNotAuthenticated, "User didn't provide a token"),
    StatusEntry(HttpNotFound, NotFound, "Project with such ID doesn't exist")]

  const DeleteProjectEntries: seq<StatusEntry> := [
    StatusEntry(HttpUnauthorized, UserNotAuthenticated, "User hasn't been authenticated"),
    StatusEntry(HttpNotFound, NotFound, "Project with that ID wasn't found")]

  const JoinProjectEntries: seq<StatusEntry> := [
    StatusEntry(HttpBadRequest, IllegalAccess, "You can't join the project as the owner of the project"),
    StatusEntry(HttpUnauthorized, UserNotAuthenticated, "User hasn't been authenticated"),
    StatusEntry(HttpForbidden, IllegalAccess, "You can't join this project"),
    StatusEntry(HttpNotFound, NotFound, "Project with that ID wasn't found"),
    StatusEntry(HttpConflict, IllegalAccess, "You're already a member of this project")]

  const LeaveProjectEntries: seq<StatusEntry> := [
    StatusEntry(HttpBadRequest, IllegalAccess, "You can't leave the project as the owner"),
    StatusEntry(HttpUnauthorized, UserNotAuthenticated, "User not authenticated"),
    StatusEntry(HttpForbidden, IllegalAccess, "User not a member of the project"),
    StatusEntry(HttpNotFound, NotFound, "Project with that ID wasn't found")]

  const GetOwnProfileEntries: seq<StatusEntry> := [
    StatusEntry(HttpUnauthorized, UserNotAuthenticated, "User not authenticated"),
    StatusEntry(HttpNotFound, NotFound, "Profile hasn't been created yet")]

  const GetProfileByAccountIdEntries: seq<StatusEntry> := [
    StatusEntry(HttpBadRequest, IllegalAccess, "Profile of that account hasn't been created yet"),
    StatusEntry(HttpNotFound, NotFound, "Account with such ID wasn't found")]

  const CreateOwnProfileEntries: seq<StatusEntry> := [
    StatusEntry(HttpNotFound, NotFound, "Account wasn't found"),
    StatusEntry(HttpConflict, IllegalAccess, "Profile already exists, try updating instead")]

  /** Two entries under the same key: the second replaces the first. */
  const UpdateOwnProfileEntries: seq<StatusEntry> := [
    StatusEntry(HttpNotFound, NotFound, "A profile doesn't exist on this account, try creating one instead"),
    StatusEntry(HttpNotFound, NotFound, "Account wasn't found")]

  /** Every table but updateOwnProfile's lists its keys in ascending order. */
  lemma EntriesAscending()
    ensures Ascending(AuthenticateEntries) && Ascending(RegisterEntries)
    ensures Ascending(GetOwnProjectsEntries) && Ascending(CreateNewProjectEntries)
    ensures Ascending(GetProjectByIdEntries) && Ascending(GetAllProjectsEntries)
    ensures Ascending(UpdateProjectEntries) && Ascending(DeleteProjectEntries)
    ensures Ascending(JoinProjectEntries) && Ascending(LeaveProjectEntries)
    ensures Ascending(GetOwnProfileEntries) && Ascending(GetProfileByAccountIdEntries)
    ensures Ascending(CreateOwnProfileEntries)
    ensures !Ascending(UpdateOwnProfileEntries)
  {
    assert UpdateOwnProfileEntries[0].code == UpdateOwnProfileEntries[1].code;
  }

  /** The updateOwnProfile table holds a single entry: the second 404 message. */
  lemma UpdateOwnProfileTableCollapses()
    ensures AppendAll(UpdateOwnProfileEntries) == [UpdateOwnProfileEntries[1]]
  {
    var e0, e1 := UpdateOwnProfileEntries[0], UpdateOwnProfileEntries[1];
    assert UpdateOwnProfileEntries[..1] == [e0];
    assert [e0][..0] == [];
    assert AppendAll([e0]) == [e0];
  }

  /** A table and the status outcomes `makeRequest` gives it, as written and as intended. */
  ghost predicate Reports(table: seq<StatusEntry>, i: nat)
    requires i < |table|
  {
    forall c: Call, body: Body ::
      c.url.Http? && c.table == table ==>
        Execute(c, Answered(table[i].code, body)) == Failure(table[i].kind, table[i].message)
  }

  /** The status of the entry at `i` acts like 200, though the intended lookup maps it. */
  ghost predicate Loses(table: seq<StatusEntry>, i: nat)
    requires i < |table|
  {
    forall c: Call, body: Body ::
      c.url.Http? && c.table == table ==>
        Execute(c, Answered(table[i].code, body)) == Execute(c, Answered(HttpOk, body))
        && ExecuteIntended(c, Answered(table[i].code, body)) == Failure(table[i].kind, table[i].message)
  }

  /** On an ascending table, an entry before the last is reported. */
  lemma EntryReported(table: seq<StatusEntry>, i: nat)
    requires Ascending(table) && i < |table| - 1 && table[i].code != HttpOk
    ensures Reports(table, i)
  {
    forall c: Call, body: Body | c.url.Http? && c.table == table
      ensures Execute(c, Answered(table[i].code, body)) == Failure(table[i].kind, table[i].message)
    {
      MappedStatus(c, table[i].code, body, i);
    }
  }

  /** On an ascending table, the last entry is lost. */
  lemma LastEntryLost(table: seq<StatusEntry>)
    requires Ascending(table) && |table| > 0 && table[|table| - 1].code != HttpOk
    ensures Loses(table, |table| - 1)
  {
    var n := |table| - 1;
    forall c: Call, body: Body | c.url.Http? && c.table == table
      ensures Execute(c, Answered(table[n].code, body)) == Execute(c, Answered(HttpOk, body))
      ensures ExecuteIntended(c, Answered(table[n].code, body))
              == Failure(table[n].kind, table[n].message)
    {
      LastEntryNeverMapped(c, body);
      IntendedMapsEveryEntry(c, table[n].code, body, n);
    }
  }

  /** On an ascending table every entry but the last is reported and the last one is lost. */
  lemma AscendingOutcomes(table: seq<StatusEntry>)
    requires Ascending(table)
    requires forall i :: 0 <= i < |table| ==> table[i].code != HttpOk
    ensures forall i :: 0 <= i < |table| - 1 ==> Reports(table, i)
    ensures |table| > 0 ==> Loses(table, |table| - 1)
  {
    forall i | 0 <= i < |table| - 1
      ensures Reports(table, i)
    {
      EntryReported(table, i);
    }
    if |table| > 0 {
      LastEntryLost(table);
    }
  }

  /** The tables the operations build, each as the `SparseArray` holds it. */
  lemma TablesAsBuilt()
    ensures AppendAll(AuthenticateEntries) == AuthenticateEntries
    ensures AppendAll(RegisterEntries) == RegisterEntries
    ensures AppendAll(GetOwnProjectsEntries) == GetOwnProjectsEntries
    ensures AppendAll(CreateNewProjectEntries) == CreateNewProjectEntries
    ensures AppendAll(GetProjectByIdEntries) == GetProjectByIdEntries
    ensures AppendAll(GetAllProjectsEntries) == GetAllProjectsEntries
    ensures AppendAll(UpdateProjectEntries) == UpdateProjectEntries
    ensures AppendAll(DeleteProjectEntries) == DeleteProjectEntries
    ensures PutAll(JoinProjectEntries) == JoinProjectEntries
    ensures AppendAll(LeaveProjectEntries) == LeaveProjectEntries
    ensures AppendAll(GetOwnProfileEntries) == GetOwnProfileEntries
    ensures AppendAll(GetProfileByAccountIdEntries) == GetProfileByAccountIdEntries
    ensures AppendAll(CreateOwnProfileEntries) == CreateOwnProfileEntries
    ensures AppendAll(UpdateOwnProfileEntries) == [UpdateOwnProfileEntries[1]]
  {
    EntriesAscending();
    AscendingKept(AuthenticateEntries);
    AscendingKept(RegisterEntries);
    AscendingKept(GetOwnProjectsEntries);
    AscendingKept(CreateNewProjectEntries);
    AscendingKept(GetProjectByIdEntries);
    AscendingKept(GetAllProjectsEntries);
    AscendingKept(UpdateProjectEntries);
    AscendingKept(DeleteProjectEntries);
    AscendingKept(JoinProjectEntries);
    AscendingKept(LeaveProjectEntries);
    AscendingKept(GetOwnProfileEntries);
    AscendingKept(GetProfileByAccountIdEntries);
    AscendingKept(CreateOwnProfileEntries);
    UpdateOwnProfileTableCollapses();
  }

  /** The table of authenticate: 400 and 401 are reported; 403, the unverified email, is lost. */
  lemma AuthenticateOutcomes()
    ensures AppendAll(AuthenticateEntries) == AuthenticateEntries
    ensures Reports(AuthenticateEntries, 0) && Reports(AuthenticateEntries, 1)
    ensures Loses(AuthenticateEntries, 2)
  {
    EntriesAscending();
    AscendingKept(AuthenticateEntries);
    AscendingOutcomes(AuthenticateEntries);
  }

  /** The table of register: 400 is reported; 409, the existing account, is lost. */
  lemma RegisterOutcomes()
    ensures AppendAll(RegisterEntries) == RegisterEntries
    ensures Reports(RegisterEntries, 0)
    ensures Loses(RegisterEntries, 1)
  {
    EntriesAscending();
    AscendingKept(RegisterEntries);
    AscendingOutcomes(RegisterEntries);
  }

  /** The table of getOwnProjects: its only status, 401, is lost. */
  lemma GetOwnProjectsOutcomes()
    ensures AppendAll(GetOwnProjectsEntries) == GetOwnProjectsEntries
    ensures Loses(GetOwnProjectsEntries, 0)
  {
    EntriesAscending();
    AscendingKept(GetOwnProjectsEntries);
    AscendingOutcomes(GetOwnProjectsEntries);
  }

  /** The table of createNewProject: 400 is reported; 409, the duplicate title, is lost. */
  lemma CreateNewProjectOutcomes()
    ensures AppendAll(CreateNewProjectEntries) == CreateNewProjectEntries
    ensures Reports(CreateNewProjectEntries, 0)
    ensures Loses(CreateNewProjectEntries, 1)
  {
    EntriesAscending();
    AscendingKept(CreateNewProjectEntries);
    AscendingOutcomes(CreateNewProjectEntries);
  }

  /** The table of getProjectById: its only status, 404, is lost. */
  lemma GetProjectByIdOutcomes()
    ensures AppendAll(GetProjectByIdEntries) == GetProjectByIdEntries
    ensures Loses(GetProjectByIdEntries, 0)
  {
    EntriesAscending();
    AscendingKept(GetProjectByIdEntries);
    AscendingOutcomes(GetProjectByIdEntries);
  }

  /** The table of getAllProjects: its only status, 500, is lost. */
  lemma GetAllProjectsOutcomes()
    ensures AppendAll(GetAllProjectsEntries) == GetAllProjectsEntries
    ensures Loses(GetAllProjectsEntries, 0)
  {
    EntriesAscending();
    AscendingKept(GetAllProjectsEntries);
    AscendingOutcomes(GetAllProjectsEntries);
  }

  /** The table of updateProject: 400 and 401 are reported; 404 is lost. */
  lemma UpdateProjectOutcomes()
    ensures AppendAll(UpdateProjectEntries) == UpdateProjectEntries
    ensures Reports(UpdateProjectEntries, 0) && Reports(UpdateProjectEntries, 1)
    ensures Loses(UpdateProjectEntries, 2)
  {
    EntriesAscending();
    AscendingKept(UpdateProjectEntries);
    AscendingOutcomes(UpdateProjectEntries);
  }

  /** The table of deleteProject: 401 is reported; 404 is lost. */
  lemma DeleteProjectOutcomes()
    ensures AppendAll(DeleteProjectEntries) == DeleteProjectEntries
    ensures Reports(DeleteProjectEntries, 0)
    ensures Loses(DeleteProjectEntries, 1)
  {
    EntriesAscending();
    AscendingKept(DeleteProjectEntries);
    AscendingOutcomes(DeleteProjectEntries);
  }

  /** The table of joinProject (filled with `put`): 400, 401, 403 and 404 are reported; 409 is lost. */
  lemma JoinProjectOutcomes()
    ensures PutAll(JoinProjectEntries) == JoinProjectEntries
    ensures Reports(JoinProjectEntries, 0) && Reports(JoinProjectEntries, 1) && Reports(JoinProjectEntries, 2) && Reports(JoinProjectEntries, 3)
    ensures Loses(JoinProjectEntries, 4)
  {
    EntriesAscending();
    AscendingKept(JoinProjectEntries);
    AscendingOutcomes(JoinProjectEntries);
  }

  /**
   * The table of leaveProject, as a call with an http URL would consult it: 400, 401 and 403
   * are reported; 404 is lost. leaveProject itself never reaches the lookup, since its URL has
   * no scheme and every call fails when the URL is parsed (`Middleware.LeaveProject`).
   */
  lemma LeaveProjectOutcomes()
    ensures AppendAll(LeaveProjectEntries) == LeaveProjectEntries
    ensures Reports(LeaveProjectEntries, 0) && Reports(LeaveProjectEntries, 1) && Reports(LeaveProjectEntries, 2)
    ensures Loses(LeaveProjectEntries, 3)
  {
    EntriesAscending();
    AscendingKept(LeaveProjectEntries);
    AscendingOutcomes(LeaveProjectEntries);
  }

  /** The table of getOwnProfile: 401 is reported; 404 is lost. */
  lemma GetOwnProfileOutcomes()
    ensures AppendAll(GetOwnProfileEntries) == GetOwnProfileEntries
    ensures Reports(GetOwnProfileEntries, 0)
    ensures Loses(GetOwnProfileEntries, 1)
  {
    EntriesAscending();
    AscendingKept(GetOwnProfileEntries);
    AscendingOutcomes(GetOwnProfileEntries);
  }

  /** The table of getProfileByAccountID: 400 is reported; 404 is lost. */
  lemma GetProfileByAccountIdOutcomes()
    ensures AppendAll(GetProfileByAccountIdEntries) == GetProfileByAccountIdEntries
    ensures Reports(GetProfileByAccountIdEntries, 0)
    ensures Loses(GetProfileByAccountIdEntries, 1)
  {
    EntriesAscending();
    AscendingKept(GetProfileByAccountIdEntries);
    AscendingOutcomes(GetProfileByAccountIdEntries);
  }

  /** The table of createOwnProfile: 404 is reported; 409, the existing profile, is lost. */
  lemma CreateOwnProfileOutcomes()
    ensures AppendAll(CreateOwnProfileEntries) == CreateOwnProfileEntries
    ensures Reports(CreateOwnProfileEntries, 0)
    ensures Loses(CreateOwnProfileEntries, 1)
  {
    EntriesAscending();
    AscendingKept(CreateOwnProfileEntries);
    AscendingOutcomes(CreateOwnProfileEntries);
  }

  /**
   * The table of updateOwnProfile holds one entry, "Account wasn't found", and loses it; the
   * first 404 message is never reported, not even by the intended lookup.
   */
  lemma UpdateOwnProfileOutcomes()
    ensures AppendAll(UpdateOwnProfileEntries) == [UpdateOwnProfileEntries[1]]
    ensures Loses([UpdateOwnProfileEntries[1]], 0)
  {
    UpdateOwnProfileTableCollapses();
    AscendingOutcomes([UpdateOwnProfileEntries[1]]);
  }

  /**
   * An unverified account that tries to authenticate is never told so: the 403 is handled like
   * 200, so the result is whatever reading the body gives, and when reading fails (as it does
   * for an error status) the caught exception is reported instead. The intended lookup reports
   * the unverified email.
   */
  lemma UnverifiedEmailNotReported(c: Call, body: Body)
    requires c.url.Http? && c.input && c.table == AppendAll(AuthenticateEntries)
    ensures Execute(c, Answered(HttpForbidden, body)).Success?
            || Execute(c, Answered(HttpForbidden, body)).kind != EmailNotVerified
    ensures body.ReadFailed? ==>
              Execute(c, Answered(HttpForbidden, body)) == Failure(ConnectionFailure, body.message)
    ensures ExecuteIntended(c, Answered(HttpForbidden, body))
            == Failure(EmailNotVerified, "Email hasn't been verified")
  {
    AuthenticateOutcomes();
    assert AuthenticateEntries[2].code == HttpForbidden;
    if body.Lines? {
      OkResponse(c, body.lines);
    }
  }
}
