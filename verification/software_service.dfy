/**
 The software handlers of backend/controllers/softwareController.js over an
 in-memory collection of Software documents (insertion order, distinct ids).
 `req.user` is an optional `Principal`; the clock and the id the database
 assigns are parameters. A validation error escapes the handler with the
 status still 200 and is answered 500 by the error middleware, which is not
 part of this model.
 */
module SoftwareService {
  import opened Common
  import opened Docs
  import opened Ordering
  import opened SoftwareSchema

  datatype Payload = Many(count: nat, data: seq<Software>) | One(software: Software) | NoData

  /** `{ success: true, ... }` with its status, or `{ success: false, message }`. */
  datatype Reply = Ok(status: int, payload: Payload) | Error(status: int, message: string)

  datatype Outcome = Outcome(store: seq<Software>, reply: Reply)

  const NotFound: string := "Software not found"
  const PrivateSoftware: string := "Not authorized to access this software"

  function SoftwareId(s: Software): Id { s.id }
  function CreatedAt(s: Software): int { s.createdAt }
  function IsPublic(s: Software): bool { s.isPublic }

  /** The test that keeps every document but the one with id `id`. */
  function OtherThan(id: Id): Software -> bool
  {
    (s: Software) => s.id != id
  }

  /** Distinct ids, and every document within the schema. */
  ghost predicate Valid(store: seq<Software>)
  {
    && UniqueKeys(store, SoftwareId)
    && forall i :: 0 <= i < |store| ==> WellFormed(store[i])
  }

  /** The text of a Mongoose document validation error on creation: every failed path with its message. */
  function ValidationMessage(errors: seq<FieldError>): string
  {
    "Software validation failed: " + JoinErrors(errors)
  }

  /** The text of the error the update validators of `findByIdAndUpdate` raise. */
  function UpdateValidationMessage(errors: seq<FieldError>): string
  {
    "Validation failed: " + JoinErrors(errors)
  }

  function JoinErrors(errors: seq<FieldError>): string
  {
    if |errors| == 0 then ""
    else if |errors| == 1 then errors[0].path + ": " + errors[0].message
    else errors[0].path + ": " + errors[0].message + ", " + JoinErrors(errors[1..])
  }

  /**
   `GET /api/software`: without a user only public documents are listed;
   with one, all of them. Either way newest first, with `count` the length.
   */
  function GetSoftware(store: seq<Software>, user: Option<Principal>): (r: Reply)
    ensures r.Ok? && r.status == StatusOk && r.payload.Many?
    ensures r.payload.count == |r.payload.data|
    ensures SortedDesc(r.payload.data, CreatedAt)
    ensures user.Some? ==> multiset(r.payload.data) == multiset(store)
    ensures user.None? ==> forall s :: multiset(r.payload.data)[s] == if s.isPublic then multiset(store)[s] else 0
    ensures user.None? ==> forall k :: 0 <= k < |r.payload.data| ==> r.payload.data[k].isPublic
  {
    var visible := if user.None? then Filter(store, IsPublic) else store;
    var data := SortDesc(visible, CreatedAt);
    assert user.None? ==> forall k :: 0 <= k < |data| ==> data[k].isPublic by {
      if user.None? {
        forall k | 0 <= k < |data|
          ensures data[k].isPublic
        {
          assert multiset(data)[data[k]] > 0;
        }
      }
    }
    Ok(StatusOk, Many(|data|, data))
  }

  /**
   `GET /api/software/:id`: 404 for an unknown id first; then 401 for a
   private document when no user is attached.
   */
  function GetSingleSoftware(store: seq<Software>, id: Id, user: Option<Principal>): (r: Reply)
    ensures Find(store, SoftwareId, id).None? ==> r == Error(StatusNotFound, NotFound)
    ensures (Find(store, SoftwareId, id).Some? && !Find(store, SoftwareId, id).value.isPublic && user.None?)
              ==> r == Error(StatusUnauthorized, PrivateSoftware)
    ensures r.Ok? ==> r == Ok(StatusOk, One(Find(store, SoftwareId, id).value))
    ensures r.Ok? <==> Find(store, SoftwareId, id).Some? && (Find(store, SoftwareId, id).value.isPublic || user.Some?)
  {
    match Find(store, SoftwareId, id)
    case None => Error(StatusNotFound, NotFound)
    case Some(s) =>
      if !s.isPublic && user.None? then Error(StatusUnauthorized, PrivateSoftware)
      else Ok(StatusOk, One(s))
  }

  /** `POST /api/software`: the body's author is replaced by the requester before validation. */
  function CreateSoftware(store: seq<Software>, body: SoftwareInput, user: Principal, newId: Id, now: int): (o: Outcome)
    ensures o.reply.Ok? <==> CreateInputOk(body, Some(user.id))
    ensures o.reply.Error? ==> o.store == store && o.reply.status == StatusServerError
    ensures o.reply.Ok? ==>
              && o.reply.status == StatusCreated && o.reply.payload.One?
              && o.reply.payload.software.author == user.id
              && o.reply.payload.software.id == newId
              && WellFormed(o.reply.payload.software)
              && o.reply.payload.software == Normalise(body, Some(user.id), newId, now).value
              && o.store == store + [o.reply.payload.software]
  {
    match Normalise(body, Some(user.id), newId, now)
    case Failure(errors) => Outcome(store, Error(StatusServerError, ValidationMessage(errors)))
    case Success(s) => Outcome(store + [s], Ok(StatusCreated, One(s)))
  }

  /**
   `PUT /api/software/:id`: 404 for an unknown id, otherwise the validated
   update with `updatedAt` stamped. Nobody's ownership is checked: the
   handler does not look at the requester at all.
   */
  function UpdateSoftware(store: seq<Software>, id: Id, body: SoftwareInput, now: int): (o: Outcome)
    ensures Find(store, SoftwareId, id).None? ==> o == Outcome(store, Error(StatusNotFound, NotFound))
    ensures o.reply.Error? ==> o.store == store
    ensures o.reply.Ok? ==>
              && Find(store, SoftwareId, id).Some?
              && ApplyUpdate(Find(store, SoftwareId, id).value, body, now).Success?
              && o.reply == Ok(StatusOk, One(ApplyUpdate(Find(store, SoftwareId, id).value, body, now).value))
              && |o.store| == |store|
              && (forall i :: 0 <= i < |store| && store[i].id != id ==> o.store[i] == store[i])
              && Find(o.store, SoftwareId, id) == Some(o.reply.payload.software)
    ensures (Find(store, SoftwareId, id).Some? && ApplyUpdate(Find(store, SoftwareId, id).value, body, now).Success?)
              ==> o.reply.Ok?
  {
    match FirstIndex(store, SoftwareId, id)
    case None => Outcome(store, Error(StatusNotFound, NotFound))
    case Some(i) =>
      match ApplyUpdate(store[i], body, now)
      case Failure(errors) => Outcome(store, Error(StatusServerError, UpdateValidationMessage(errors)))
      case Success(u) =>
        FindAfterReplace(store, SoftwareId, id, u);
        Outcome(ReplaceFirst(store, SoftwareId, id, u), Ok(StatusOk, One(u)))
  }

  /** `DELETE /api/software/:id`: 404 for an unknown id, otherwise removal answered with `data: {}`. */
  function DeleteSoftware(store: seq<Software>, id: Id): (o: Outcome)
    ensures Find(store, SoftwareId, id).None? <==> o.reply.Error?
    ensures o.reply.Error? ==> o == Outcome(store, Error(StatusNotFound, NotFound))
    ensures o.reply.Ok? ==> o.reply == Ok(StatusOk, NoData)
    ensures o.reply.Ok? ==> o.store == Filter(store, OtherThan(id))
    ensures forall s :: s in o.store <==> s in store && s.id != id
  {
    match Find(store, SoftwareId, id)
    case None => Outcome(store, Error(StatusNotFound, NotFound))
    case Some(_) =>
      var rest := Filter(store, OtherThan(id));
      assert forall s :: s in rest <==> s in store && s.id != id by {
        forall s
          ensures s in rest <==> s in store && s.id != id
        {
          assert multiset(rest)[s] == if s.id != id then multiset(store)[s] else 0;
        }
      }
      Outcome(rest, Ok(StatusOk, NoData))
  }

  // ---------------------------------------------------------------------
  // Properties
  // ---------------------------------------------------------------------

  /** An anonymous listing shows exactly the public documents. */
  lemma AnonymousSeesExactlyPublic(store: seq<Software>, s: Software)
    ensures s in GetSoftware(store, None).payload.data <==> s in store && s.isPublic
  {
    var data := GetSoftware(store, None).payload.data;
    assert multiset(data)[s] == if s.isPublic then multiset(store)[s] else 0;
  }

  /** A signed-in listing shows every document. */
  lemma SignedInSeesAll(store: seq<Software>, user: Principal, s: Software)
    ensures s in GetSoftware(store, Some(user)).payload.data <==> s in store
  {
    var data := GetSoftware(store, Some(user)).payload.data;
    assert multiset(data)[s] == multiset(store)[s];
  }

  /** A private document read by a signed-in user is returned. */
  lemma SignedInReadsPrivate(store: seq<Software>, i: nat, user: Principal)
    requires Valid(store) && i < |store|
    ensures GetSingleSoftware(store, store[i].id, Some(user)) == Ok(StatusOk, One(store[i]))
  {
    FindUnique(store, SoftwareId, i);
  }

  /** The handlers keep the collection valid (creation needs a fresh id). */
  lemma CreatePreservesValid(store: seq<Software>, body: SoftwareInput, user: Principal, newId: Id, now: int)
    requires Valid(store)
    requires forall i :: 0 <= i < |store| ==> store[i].id != newId
    ensures Valid(CreateSoftware(store, body, user, newId, now).store)
  {
    var o := CreateSoftware(store, body, user, newId, now);
    if o.reply.Ok? {
      AppendValid(store, o.reply.payload.software);
    }
  }

  lemma AppendValid(store: seq<Software>, sw: Software)
    requires Valid(store) && WellFormed(sw)
    requires forall i :: 0 <= i < |store| ==> store[i].id != sw.id
    ensures Valid(store + [sw])
  {
    AppendUnique(store, sw, SoftwareId);
    var s := store + [sw];
    forall j | 0 <= j < |s|
      ensures WellFormed(s[j])
    {
      if j < |store| {
        assert s[j] == store[j];
      }
    }
  }

  lemma UpdatePreservesValid(store: seq<Software>, id: Id, body: SoftwareInput, now: int)
    requires Valid(store)
    ensures Valid(UpdateSoftware(store, id, body, now).store)
  {
    match FirstIndex(store, SoftwareId, id)
    case None =>
    case Some(i) =>
      match ApplyUpdate(store[i], body, now)
      case Failure(_) =>
      case Success(u) =>
        UpdateFrame(store[i], body, now);
        UpdateKeepsWellFormed(store[i], body, now);
        ReplaceValid(store, i, u);
  }

  lemma ReplaceValid(store: seq<Software>, i: nat, sw: Software)
    requires Valid(store) && WellFormed(sw)
    requires i < |store| && sw.id == store[i].id
    ensures Valid(store[i := sw])
  {
    ReplaceUnique(store, SoftwareId, i, sw);
  }

  lemma DeletePreservesValid(store: seq<Software>, id: Id)
    requires Valid(store)
    ensures Valid(DeleteSoftware(store, id).store)
    ensures Find(DeleteSoftware(store, id).store, SoftwareId, id).None?
  {
    var s := DeleteSoftware(store, id).store;
    if Find(store, SoftwareId, id).Some? {
      FilterUnique(store, OtherThan(id), SoftwareId);
    }
    forall j | 0 <= j < |s|
      ensures WellFormed(s[j])
    {
      assert s[j] in store;
    }
  }
}
