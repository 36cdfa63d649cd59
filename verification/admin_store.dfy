/**
 The client's user administration store (frontend/src/stores/admin.js). Its
 actions never rethrow: a failure records the message and returns an empty
 value. Users are held as the server shows them, without passwords.
 */
module AdminStore {
  import opened Common
  import opened Docs
  import opened ClientApi
  import opened Ordering
  import AS = AdminService

  datatype State = State(
    users: seq<AS.PublicUser>,
    current: Option<AS.PublicUser>,
    loading: bool,
    error: Option<string>)

  datatype Step<+T> = Step(state: State, result: T)

  const Initial: State := State([], None, false, None)

  const FetchUsersFailed: string := "Failed to fetch users"
  const FetchUserFailed: string := "Failed to fetch user"
  const UpdateRoleFailed: string := "Failed to update user role"

  function PublicId(u: AS.PublicUser): Id { u.id }

  /** The common failure path: the error text recorded, the users kept. */
  function Failed<T>(s: State, res: ApiResult<T>, fallback: string): (st: State)
    requires !res.Ok?
    ensures st.users == s.users && st.current == s.current
    ensures !st.loading && st.error == Some(ErrorText(res, fallback))
  {
    s.(loading := false, error := Some(ErrorText(res, fallback)))
  }

  /** `fetchUsers`: the list becomes the server's; on failure it is kept and `[]` returned. */
  function FetchUsers(s: State, res: ApiResult<seq<AS.PublicUser>>): (t: Step<seq<AS.PublicUser>>)
    ensures !t.state.loading && t.state.current == s.current
    ensures res.Ok? ==> t == Step(s.(users := res.data, loading := false, error := None), res.data)
    ensures !res.Ok? ==> t == Step(Failed(s, res, FetchUsersFailed), [])
  {
    match res
    case Ok(users) => Step(s.(users := users, loading := false, error := None), users)
    case _ => Step(Failed(s, res, FetchUsersFailed), [])
  }

  /** `fetchUser(id)`: the user on display becomes the server's; on failure `null` is returned. */
  function FetchUser(s: State, res: ApiResult<AS.PublicUser>): (t: Step<Option<AS.PublicUser>>)
    ensures !t.state.loading && t.state.users == s.users
    ensures res.Ok? ==> t.state.current == Some(res.data) && t.result == Some(res.data) && t.state.error.None?
    ensures !res.Ok? ==> t == Step(Failed(s, res, FetchUserFailed), None)
  {
    match res
    case Ok(u) => Step(s.(current := Some(u), loading := false, error := None), Some(u))
    case _ => Step(Failed(s, res, FetchUserFailed), None)
  }

  /**
   `updateUserRole(userId, role)`: the first listed user with that id, if
   any, becomes the server's version. The user on display is left as it was.
   */
  function UpdateUserRole(s: State, userId: Id, res: ApiResult<AS.PublicUser>): (t: Step<Option<AS.PublicUser>>)
    ensures !t.state.loading && t.state.current == s.current
    ensures res.Ok? ==> t.state.users == ReplaceFirst(s.users, PublicId, userId, res.data)
    ensures res.Ok? ==> t.result == Some(res.data) && t.state.error.None?
    ensures !res.Ok? ==> t == Step(Failed(s, res, UpdateRoleFailed), None)
  {
    match res
    case Ok(u) => Step(s.(users := ReplaceFirst(s.users, PublicId, userId, u), loading := false, error := None), Some(u))
    case _ => Step(Failed(s, res, UpdateRoleFailed), None)
  }

  // ---------------------------------------------------------------------
  // Properties
  // ---------------------------------------------------------------------

  /**
   Fetching the listing the server answers shows every stored user once,
   passwords stripped, newest first.
   */
  lemma FetchUsersShowsServerListing(s: State, store: seq<AS.UserRecord>)
    ensures var t := FetchUsers(s, ApiResult.Ok(AS.GetUsers(store).payload.data));
            && |t.state.users| == |store|
            && (forall i :: 0 <= i < |store| ==> AS.Strip(store[i]) in t.state.users)
            && (forall k :: 0 <= k < |t.state.users| ==> exists i :: 0 <= i < |store| && t.state.users[k] == AS.Strip(store[i]))
            && (forall i, j :: 0 <= i < j < |t.state.users| ==> t.state.users[i].createdAt >= t.state.users[j].createdAt)
  {
    var sorted := SortDesc(store, AS.JoinedAt);
    assert FetchUsers(s, ApiResult.Ok(AS.GetUsers(store).payload.data)).state.users == AS.StripAll(sorted);
    StrippedListing(store, sorted);
  }

  /** A newest-first arrangement of the stored users, stripped, lists each of them and only them. */
  lemma StrippedListing(store: seq<AS.UserRecord>, sorted: seq<AS.UserRecord>)
    requires multiset(sorted) == multiset(store) && SortedDesc(sorted, AS.JoinedAt)
    ensures var users := AS.StripAll(sorted);
            && |users| == |store|
            && (forall i :: 0 <= i < |store| ==> AS.Strip(store[i]) in users)
            && (forall k :: 0 <= k < |users| ==> exists i :: 0 <= i < |store| && users[k] == AS.Strip(store[i]))
            && (forall i, j :: 0 <= i < j < |users| ==> users[i].createdAt >= users[j].createdAt)
  {
    var users := AS.StripAll(sorted);
    assert |sorted| == |store| by {
      assert |multiset(sorted)| == |multiset(store)|;
    }
    forall i | 0 <= i < |store|
      ensures AS.Strip(store[i]) in users
    {
      assert multiset(sorted)[store[i]] > 0;
      var j :| 0 <= j < |sorted| && sorted[j] == store[i];
      assert users[j] == AS.Strip(store[i]);
    }
    forall k | 0 <= k < |users|
      ensures exists i :: 0 <= i < |store| && users[k] == AS.Strip(store[i])
    {
      assert multiset(store)[sorted[k]] > 0;
      var i :| 0 <= i < |store| && store[i] == sorted[k];
      assert users[k] == AS.Strip(store[i]);
    }
    forall i, j | 0 <= i < j < |users|
      ensures users[i].createdAt >= users[j].createdAt
    {
      assert AS.JoinedAt(sorted[i]) >= AS.JoinedAt(sorted[j]);
    }
  }

  /**
   Fetching one user shows what the server answers: the stripped record for
   a known id; for an unknown id the server's "User not found", with the
   user on display kept and `null` returned.
   */
  lemma FetchUserShowsServerRecord(s: State, store: seq<AS.UserRecord>, id: Id)
    ensures var r := AS.GetUser(store, id);
            var t := FetchUser(s, if r.Ok? then ApiResult.Ok(r.payload.user) else HttpError(Some(r.message)));
            && (Find(store, AS.UserId, id).Some? ==>
                  t.state.current == Some(AS.Strip(Find(store, AS.UserId, id).value)) && t.result == t.state.current)
            && (Find(store, AS.UserId, id).None? ==>
                  t.state.error == Some(AS.UserNotFound) && t.state.current == s.current && t.result.None?)
  {
  }

  /**
   A role change made by the server shows in the list: when the listed user
   was the server's record before the change, the list afterwards holds the
   record with the new role and everything else as it was.
   */
  lemma RoleChangeReachesList(s: State, k: nat, store: seq<AS.UserRecord>, role: Role)
    requires AS.Valid(store) && UniqueKeys(s.users, PublicId)
    requires k < |s.users|
    requires exists i :: 0 <= i < |store| && AS.Strip(store[i]) == s.users[k]
    ensures var o := AS.UpdateUserRole(store, s.users[k].id, Some(RoleName(role)));
            && o.reply.Ok?
            && var t := UpdateUserRole(s, s.users[k].id, ApiResult.Ok(o.reply.payload.user));
               && t.state.users == s.users[k := s.users[k].(role := role)]
  {
    var id := s.users[k].id;
    var i :| 0 <= i < |store| && AS.Strip(store[i]) == s.users[k];
    ParseRoleName(role);
    FindUnique(store, AS.UserId, i);
    assert FirstIndex(store, AS.UserId, id) == Some(i) by {
      FirstIndexOfUnique(store, AS.UserId, i);
    }
    FirstIndexOfUnique(s.users, PublicId, k);
  }
}
