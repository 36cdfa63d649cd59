/**
 backend/routes/softwareRoutes.js: the two reads are mounted without any
 middleware, creation and update behind `protect, authorize('admin',
 'editor')`, deletion behind `protect, authorize('admin')`.

 Because nothing runs `protect` on the reads, `req.user` is never set there,
 and the handlers' "signed-in users see private software" branches cannot be
 reached. `Dispatch` is the routing as written; `DispatchIntended` hands the
 reads the requester, as the handlers expect.
 */
module SoftwareRoutes {
  import opened Common
  import opened RoleGate
  import opened Docs
  import S = SoftwareService
  import SoftwareSchema

  datatype Request =
    | ListSoftware
    | ReadSoftware(id: Id)
    | CreateSoftware(body: SoftwareSchema.SoftwareInput, newId: Id)
    | UpdateSoftware(id: Id, body: SoftwareSchema.SoftwareInput)
    | DeleteSoftware(id: Id)

  const Writers: seq<Role> := [AdminRole, EditorRole]
  const Deleters: seq<Role> := [AdminRole]

  predicate IsRead(req: Request)
  {
    req.ListSoftware? || req.ReadSoftware?
  }

  /** The middleware chain in front of each endpoint. */
  function Gate(req: Request, user: Option<Principal>): (g: GateResult)
    ensures IsRead(req) ==> g.Next?
    ensures (req.CreateSoftware? || req.UpdateSoftware?) ==> (g.Next? <==> user.Some? && user.value.role in {AdminRole, EditorRole})
    ensures req.DeleteSoftware? ==> (g.Next? <==> user.Some? && user.value.role == AdminRole)
    ensures (!IsRead(req) && user.None?) ==> g == Reject(StatusUnauthorized, NotAuthenticated)
    ensures (g.Reject? && user.Some?) ==> g == Reject(StatusForbidden, InsufficientPermissions)
  {
    match req
    case ListSoftware => Next
    case ReadSoftware(_) => Next
    case CreateSoftware(_, _) => ProtectAndAuthorize(Writers, user)
    case UpdateSoftware(_, _) => ProtectAndAuthorize(Writers, user)
    case DeleteSoftware(_) => ProtectAndAuthorize(Deleters, user)
  }

  /** The request after its gate, given the user the handler sees on a read. */
  function Route(store: seq<SoftwareSchema.Software>, req: Request, user: Option<Principal>, reader: Option<Principal>, now: int): (o: S.Outcome)
    ensures Gate(req, user).Reject? ==> o == S.Outcome(store, S.Error(Gate(req, user).status, Gate(req, user).message))
    ensures IsRead(req) ==> o.store == store
    ensures o.store != store ==> !IsRead(req) && user.Some? && user.value.role in Writers && o.reply.Ok?
  {
    match Gate(req, user)
    case Reject(status, message) => S.Outcome(store, S.Error(status, message))
    case Next =>
      match req
      case ListSoftware => S.Outcome(store, S.GetSoftware(store, reader))
      case ReadSoftware(id) => S.Outcome(store, S.GetSingleSoftware(store, id, reader))
      case CreateSoftware(body, newId) => S.CreateSoftware(store, body, user.value, newId, now)
      case UpdateSoftware(id, body) => S.UpdateSoftware(store, id, body, now)
      case DeleteSoftware(id) => S.DeleteSoftware(store, id)
  }

  /** As written: the reads never learn who is asking, so they only ever return public records. */
  function Dispatch(store: seq<SoftwareSchema.Software>, req: Request, user: Option<Principal>, now: int): (o: S.Outcome)
    ensures IsRead(req) ==> o.store == store
    ensures (req.ListSoftware? && o.reply.Ok?) ==> o.reply.payload.Many? && forall k :: 0 <= k < |o.reply.payload.data| ==> o.reply.payload.data[k].isPublic
    ensures (req.ReadSoftware? && o.reply.Ok?) ==> o.reply.payload.One? && o.reply.payload.software.isPublic
  {
    Route(store, req, user, None, now)
  }

  /** As the handlers expect: the reads see the signed-in user, if any. */
  function DispatchIntended(store: seq<SoftwareSchema.Software>, req: Request, user: Option<Principal>, now: int): (o: S.Outcome)
    ensures IsRead(req) ==> o.store == store
    ensures (req.ReadSoftware? && user.Some?) ==> (o.reply.Ok? <==> Find(store, S.SoftwareId, req.id).Some?)
  {
    Route(store, req, user, user, now)
  }

  /** The two routings differ only on reads by a signed-in user. */
  lemma RoutingsAgree(store: seq<SoftwareSchema.Software>, req: Request, user: Option<Principal>, now: int)
    requires !IsRead(req) || user.None?
    ensures Dispatch(store, req, user, now) == DispatchIntended(store, req, user, now)
  {
  }

  // ---------------------------------------------------------------------
  // The routing as written
  // ---------------------------------------------------------------------

  /** A private record read by a signed-in user is refused as if they were anonymous. */
  lemma SignedInRefusedPrivate(store: seq<SoftwareSchema.Software>, i: nat, user: Principal, now: int)
    requires S.Valid(store) && i < |store| && !store[i].isPublic
    ensures Dispatch(store, ReadSoftware(store[i].id), Some(user), now).reply
              == S.Error(StatusUnauthorized, S.PrivateSoftware)
  {
    FindUnique(store, S.SoftwareId, i);
  }

  /** A signed-in listing omits every private record. */
  lemma SignedInListsOnlyPublic(store: seq<SoftwareSchema.Software>, user: Principal, s: SoftwareSchema.Software, now: int)
    ensures s in Dispatch(store, ListSoftware, Some(user), now).reply.payload.data <==> s in store && s.isPublic
  {
    S.AnonymousSeesExactlyPublic(store, s);
  }

  // ---------------------------------------------------------------------
  // The intended routing
  // ---------------------------------------------------------------------

  /** A signed-in user reads a private record. */
  lemma IntendedSignedInReadsPrivate(store: seq<SoftwareSchema.Software>, i: nat, user: Principal, now: int)
    requires S.Valid(store) && i < |store|
    ensures DispatchIntended(store, ReadSoftware(store[i].id), Some(user), now).reply
              == S.Ok(StatusOk, S.One(store[i]))
  {
    S.SignedInReadsPrivate(store, i, user);
  }

  /** A signed-in listing holds every record; an anonymous one only the public ones. */
  lemma IntendedListing(store: seq<SoftwareSchema.Software>, user: Option<Principal>, s: SoftwareSchema.Software, now: int)
    ensures (s in DispatchIntended(store, ListSoftware, user, now).reply.payload.data)
              <==> s in store && (s.isPublic || user.Some?)
  {
    if user.None? {
      S.AnonymousSeesExactlyPublic(store, s);
    } else {
      S.SignedInSeesAll(store, user.value, s);
    }
  }

  // ---------------------------------------------------------------------
  // The write gates
  // ---------------------------------------------------------------------

  /** Plain users cannot write at all, and editors cannot delete. */
  lemma WriteGates(store: seq<SoftwareSchema.Software>, req: Request, user: Principal, now: int)
    requires !IsRead(req)
    requires user.role == UserRole || (user.role == EditorRole && req.DeleteSoftware?)
    ensures Dispatch(store, req, Some(user), now) == S.Outcome(store, S.Error(StatusForbidden, InsufficientPermissions))
  {
  }

  /** No ownership on software: any editor or admin updates any record with the same result. */
  lemma UpdateIgnoresOwnership(store: seq<SoftwareSchema.Software>, id: Id, body: SoftwareSchema.SoftwareInput, u: Principal, v: Principal, now: int)
    requires u.role in Writers && v.role in Writers
    ensures Dispatch(store, UpdateSoftware(id, body), Some(u), now) == Dispatch(store, UpdateSoftware(id, body), Some(v), now)
  {
  }
}
