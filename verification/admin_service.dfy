/**
 The user administration handlers of backend/controllers/adminController.js
 over an in-memory collection of user records (insertion order, distinct
 ids). Every answer carries the record without its password hash; the role
 update persists the role and nothing else.
 */
module AdminService {
  import opened Common
  import opened Docs
  import opened Ordering

  /** A stored user record; the password is the stored hash. */
  datatype UserRecord = UserRecord(id: Id, name: string, email: string, password: string, role: Role, createdAt: int)

  /** A user record as the API shows it: `select('-password')`. */
  datatype PublicUser = PublicUser(id: Id, name: string, email: string, role: Role, createdAt: int)

  datatype Payload = Users(count: nat, data: seq<PublicUser>) | OneUser(user: PublicUser)

  datatype Reply = Ok(status: int, payload: Payload) | Error(status: int, message: string)

  datatype Outcome = Outcome(store: seq<UserRecord>, reply: Reply)

  const UserNotFound: string := "User not found"
  const InvalidRole: string := "Invalid role specified"

  function UserId(u: UserRecord): Id { u.id }
  function JoinedAt(u: UserRecord): int { u.createdAt }

  ghost predicate Valid(store: seq<UserRecord>)
  {
    UniqueKeys(store, UserId)
  }

  /** Drops the password hash and keeps every other field. */
  function Strip(u: UserRecord): (p: PublicUser)
    ensures p.id == u.id && p.name == u.name && p.email == u.email
    ensures p.role == u.role && p.createdAt == u.createdAt
  {
    PublicUser(u.id, u.name, u.email, u.role, u.createdAt)
  }

  function StripAll(us: seq<UserRecord>): (ps: seq<PublicUser>)
    ensures |ps| == |us|
    ensures forall i :: 0 <= i < |us| ==> ps[i] == Strip(us[i])
  {
    if |us| == 0 then [] else [Strip(us[0])] + StripAll(us[1..])
  }

  /** `GET /api/admin/users`: every user, newest first, passwords stripped. */
  function GetUsers(store: seq<UserRecord>): (r: Reply)
    ensures r.Ok? && r.status == StatusOk && r.payload.Users?
    ensures r.payload.count == |r.payload.data| == |store|
    ensures exists sorted: seq<UserRecord> ::
              && SortedDesc(sorted, JoinedAt)
              && multiset(sorted) == multiset(store)
              && r.payload.data == StripAll(sorted)
  {
    var sorted := SortDesc(store, JoinedAt);
    Ok(StatusOk, Users(|sorted|, StripAll(sorted)))
  }

  /** `GET /api/admin/users/:id`: the stripped record, or 404. */
  function GetUser(store: seq<UserRecord>, id: Id): (r: Reply)
    ensures Find(store, UserId, id).None? <==> r == Error(StatusNotFound, UserNotFound)
    ensures r.Ok? <==> Find(store, UserId, id).Some?
    ensures r.Ok? ==> r == Ok(StatusOk, OneUser(Strip(Find(store, UserId, id).value)))
  {
    match Find(store, UserId, id)
    case None => Error(StatusNotFound, UserNotFound)
    case Some(u) => Ok(StatusOk, OneUser(Strip(u)))
  }

  /**
   `PUT /api/admin/users/:id/role`: the role in the body is checked before the
   user is looked up (400, then 404); on success only the role changes, and
   the password hash the projection left out stays in the store.
   */
  function UpdateUserRole(store: seq<UserRecord>, id: Id, role: Option<string>): (o: Outcome)
    ensures (role.None? || ParseRole(role.value).None?) ==> o == Outcome(store, Error(StatusBadRequest, InvalidRole))
    ensures (role.Some? && ParseRole(role.value).Some? && Find(store, UserId, id).None?)
              ==> o == Outcome(store, Error(StatusNotFound, UserNotFound))
    ensures o.reply.Ok? <==> role.Some? && ParseRole(role.value).Some? && Find(store, UserId, id).Some?
    ensures o.reply.Ok? ==>
              && FirstIndex(store, UserId, id).Some?
              && var i := FirstIndex(store, UserId, id).value;
                 && o.store == store[i := store[i].(role := ParseRole(role.value).value)]
                 && o.reply == Ok(StatusOk, OneUser(Strip(o.store[i])))
  {
    if role.None? || ParseRole(role.value).None? then
      Outcome(store, Error(StatusBadRequest, InvalidRole))
    else
      match FirstIndex(store, UserId, id)
      case None => Outcome(store, Error(StatusNotFound, UserNotFound))
      case Some(i) =>
        var updated := store[i].(role := ParseRole(role.value).value);
        Outcome(ReplaceFirst(store, UserId, id, updated), Ok(StatusOk, OneUser(Strip(updated))))
  }

  // ---------------------------------------------------------------------
  // Properties
  // ---------------------------------------------------------------------

  /** No answer of the admin handlers contains a password: the reply type has no such field, and stripping forgets only it. */
  lemma StripForgetsOnlyPassword(a: UserRecord, b: UserRecord)
    ensures Strip(a) == Strip(b) <==> a.(password := b.password) == b
  {
  }

  /** A role update keeps the ids unique. */
  lemma UpdateRolePreservesValid(store: seq<UserRecord>, id: Id, role: Option<string>)
    requires Valid(store)
    ensures Valid(UpdateUserRole(store, id, role).store)
  {
    if role.Some? && ParseRole(role.value).Some? {
      match FirstIndex(store, UserId, id)
      case None =>
      case Some(i) =>
        ReplaceUnique(store, UserId, i, store[i].(role := ParseRole(role.value).value));
    }
  }

  /** Setting the same role twice is the same as setting it once. */
  lemma {:induction false} UpdateRoleIdempotent(store: seq<UserRecord>, id: Id, role: Option<string>)
    ensures UpdateUserRole(UpdateUserRole(store, id, role).store, id, role) == UpdateUserRole(store, id, role)
  {
    var o := UpdateUserRole(store, id, role);
    if o.reply.Ok? {
      var i := FirstIndex(store, UserId, id).value;
      FirstIndexSameKeys(store, o.store, id, i);
      assert o.store[i].(role := ParseRole(role.value).value) == o.store[i];
    }
  }

  /** Two collections with the same keys position by position find a key at the same index. */
  lemma {:induction false} FirstIndexSameKeys(a: seq<UserRecord>, b: seq<UserRecord>, id: Id, i: nat)
    requires |a| == |b|
    requires forall j :: 0 <= j < |a| ==> a[j].id == b[j].id
    requires FirstIndex(a, UserId, id) == Some(i)
    ensures FirstIndex(b, UserId, id) == Some(i)
  {
    forall j | 0 <= j < i
      ensures b[j].id != id
    {
      assert a[j].id == b[j].id;
    }
    assert b[i].id == id;
  }

  /** After a successful role update, reading the user back answers what the update answered. */
  lemma ReadAfterRoleUpdate(store: seq<UserRecord>, id: Id, role: Option<string>)
    requires UpdateUserRole(store, id, role).reply.Ok?
    ensures var o := UpdateUserRole(store, id, role);
            GetUser(o.store, id) == Ok(StatusOk, o.reply.payload)
  {
    var updated := store[FirstIndex(store, UserId, id).value].(role := ParseRole(role.value).value);
    FindAfterReplace(store, UserId, id, updated);
  }

  /** The password hash of every user survives a role update. */
  lemma UpdateRoleKeepsPasswords(store: seq<UserRecord>, id: Id, role: Option<string>)
    ensures var s := UpdateUserRole(store, id, role).store;
            |s| == |store| && forall i :: 0 <= i < |s| ==> s[i].password == store[i].password && s[i].id == store[i].id
  {
  }
}
