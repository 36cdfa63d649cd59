/**
 The client's software store (frontend/src/stores/software.js): the list of
 software records, the record on display, and the last error. Each action
 is a function from the state before the request and the request's result
 to the state after it settles, with what the action returns or throws.
 `loading` is true only while a request is pending, which is not observable
 here: every settled state has it false. The development-only mock data
 is not part of this model.
 */
module SoftwareStore {
  import opened Common
  import opened Docs
  import opened ClientApi
  import opened SoftwareSchema
  import opened Ordering
  import S = SoftwareService

  datatype State = State(
    software: seq<Software>,
    current: Option<Software>,
    loading: bool,
    error: Option<string>)

  datatype Step<+T> = Step(state: State, result: Completion<T>)

  const Initial: State := State([], None, false, None)

  const FetchFailed: string := "Failed to fetch software"
  const FetchOneFailed: string := "Failed to fetch software details"
  const CreateFailed: string := "Failed to create software"
  const UpdateFailed: string := "Failed to update software"
  const DeleteFailed: string := "Failed to delete software"

  function SoftwareId(s: Software): Id { s.id }

  /** Every action ends the same way on failure: the error text recorded, nothing else touched, the error rethrown. */
  function Failed<T>(s: State, res: ApiResult<T>, fallback: string): (st: State)
    requires !res.Ok?
    ensures st.software == s.software && st.current == s.current && !st.loading
    ensures st.error == Some(ErrorText(res, fallback))
    ensures fallback != "" ==> st.error.value != ""
  {
    s.(loading := false, error := Some(ErrorText(res, fallback)))
  }

  /** The test the `softwareByStatus` getter applies to each record. */
  function HasStatus(status: string): Software -> bool
  {
    (sw: Software) => sw.meta.status == status
  }

  /** The `softwareByStatus` getter: everything for `all`, otherwise the records whose `meta.status` matches, in list order. */
  function ByStatus(s: State, status: string): (r: seq<Software>)
    ensures status == "all" ==> r == s.software
    ensures status != "all" ==> forall k :: 0 <= k < |r| ==> r[k].meta.status == status
    ensures status != "all" ==> forall x :: multiset(r)[x] == if x.meta.status == status then multiset(s.software)[x] else 0
    ensures status != "all" ==> r == Filter(s.software, HasStatus(status))
  {
    if status == "all" then s.software
    else Filter(s.software, HasStatus(status))
  }

  /** `fetchSoftware`: the list becomes the server's list. */
  function FetchSoftware(s: State, res: ApiResult<seq<Software>>): (t: Step<seq<Software>>)
    ensures !t.state.loading
    ensures res.Ok? ==> t == Step(s.(software := res.data, loading := false, error := None), Returned(res.data))
    ensures !res.Ok? ==> t == Step(Failed(s, res, FetchFailed), Threw)
    ensures !res.Ok? ==> t.state.software == s.software && t.state.error.Some?
  {
    match res
    case Ok(data) => Step(s.(software := data, loading := false, error := None), Returned(data))
    case _ => Step(Failed(s, res, FetchFailed), Threw)
  }

  /** `fetchSoftwareById`: the record on display becomes the server's record. */
  function FetchSoftwareById(s: State, res: ApiResult<Software>): (t: Step<Software>)
    ensures !t.state.loading
    ensures t.state.software == s.software
    ensures res.Ok? ==> t.state.current == Some(res.data) && t.state.error.None? && t.result == Returned(res.data)
    ensures !res.Ok? ==> t == Step(Failed(s, res, FetchOneFailed), Threw)
  {
    match res
    case Ok(data) => Step(s.(current := Some(data), loading := false, error := None), Returned(data))
    case _ => Step(Failed(s, res, FetchOneFailed), Threw)
  }

  /** `createSoftware`: the created record goes to the front of the list. */
  function CreateSoftware(s: State, res: ApiResult<Software>): (t: Step<Software>)
    ensures !t.state.loading && t.state.current == s.current
    ensures res.Ok? ==> t.state.software == [res.data] + s.software && t.state.error.None? && t.result == Returned(res.data)
    ensures !res.Ok? ==> t == Step(Failed(s, res, CreateFailed), Threw)
  {
    match res
    case Ok(data) => Step(s.(software := [data] + s.software, loading := false, error := None), Returned(data))
    case _ => Step(Failed(s, res, CreateFailed), Threw)
  }

  /**
   `updateSoftware(id)`: the first listed record with that id, if any, is
   replaced by the server's record, and so is the record on display when it
   has that id.
   */
  function UpdateSoftware(s: State, id: Id, res: ApiResult<Software>): (t: Step<Software>)
    ensures !t.state.loading
    ensures res.Ok? ==> t.state.software == ReplaceFirst(s.software, SoftwareId, id, res.data)
    ensures res.Ok? ==> t.state.current == if s.current.Some? && s.current.value.id == id then Some(res.data) else s.current
    ensures res.Ok? ==> t.state.error.None? && t.result == Returned(res.data)
    ensures !res.Ok? ==> t == Step(Failed(s, res, UpdateFailed), Threw)
  {
    match res
    case Ok(data) =>
      var current := if s.current.Some? && s.current.value.id == id then Some(data) else s.current;
      Step(State(ReplaceFirst(s.software, SoftwareId, id, data), current, false, None), Returned(data))
    case _ => Step(Failed(s, res, UpdateFailed), Threw)
  }

  /** `deleteSoftware(id)`: every listed record with that id goes, the others keep their order, and the display is cleared if it showed one. */
  function DeleteSoftware(s: State, id: Id, res: ApiResult<()>): (t: Step<bool>)
    ensures !t.state.loading
    ensures res.Ok? ==> forall x :: x in t.state.software <==> x in s.software && x.id != id
    ensures res.Ok? ==> t.state.software == Filter(s.software, S.OtherThan(id))
    ensures res.Ok? ==> t.state.current == if s.current.Some? && s.current.value.id == id then None else s.current
    ensures res.Ok? ==> t.state.error.None? && t.result == Returned(true)
    ensures !res.Ok? ==> t == Step(Failed(s, res, DeleteFailed), Threw)
  {
    match res
    case Ok(_) =>
      var rest := Filter(s.software, S.OtherThan(id));
      assert forall x :: x in rest <==> x in s.software && x.id != id by {
        forall x
          ensures x in rest <==> x in s.software && x.id != id
        {
          assert multiset(rest)[x] == if x.id != id then multiset(s.software)[x] else 0;
        }
      }
      var current := if s.current.Some? && s.current.value.id == id then None else s.current;
      Step(State(rest, current, false, None), Returned(true))
    case _ => Step(Failed(s, res, DeleteFailed), Threw)
  }

  // ---------------------------------------------------------------------
  // Properties
  // ---------------------------------------------------------------------

  /**
   Fetching the list the server answers shows it newest first: everything
   for a signed-in user, exactly the public records for an anonymous one.
   */
  lemma FetchShowsServerListing(s: State, store: seq<Software>, user: Option<Principal>)
    ensures var t := FetchSoftware(s, ApiResult.Ok(S.GetSoftware(store, user).payload.data));
            && t.state.error.None?
            && SortedDesc(t.state.software, S.CreatedAt)
            && forall x :: x in t.state.software <==> x in store && (user.Some? || x.isPublic)
  {
    forall x
      ensures x in S.GetSoftware(store, user).payload.data <==> x in store && (user.Some? || x.isPublic)
    {
      if user.None? {
        S.AnonymousSeesExactlyPublic(store, x);
      } else {
        S.SignedInSeesAll(store, user.value, x);
      }
    }
  }

  /**
   Fetching one record shows what the server answers: the stored record
   when the requester may see it, otherwise the server's refusal recorded,
   the display kept and the error rethrown.
   */
  lemma FetchByIdShowsServerRecord(s: State, store: seq<Software>, id: Id, user: Option<Principal>)
    ensures var r := S.GetSingleSoftware(store, id, user);
            var t := FetchSoftwareById(s, if r.Ok? then ApiResult.Ok(r.payload.software) else HttpError(Some(r.message)));
            && (r.Ok? ==> t.state.current == Find(store, S.SoftwareId, id) && t.result.Returned?)
            && (Find(store, S.SoftwareId, id).None? ==>
                  t.state.error == Some(S.NotFound) && t.state.current == s.current && t.result.Threw?)
            && ((Find(store, S.SoftwareId, id).Some? && !Find(store, S.SoftwareId, id).value.isPublic && user.None?) ==>
                  t.state.error == Some(S.PrivateSoftware) && t.state.current == s.current && t.result.Threw?)
  {
  }

  /** A status filter holds exactly the listed records with that status. */
  lemma ByStatusMembership(s: State, status: string, x: Software)
    requires status != "all"
    ensures x in ByStatus(s, status) <==> x in s.software && x.meta.status == status
  {
    assert multiset(ByStatus(s, status))[x] == if x.meta.status == status then multiset(s.software)[x] else 0;
  }

  /** With distinct ids, creating and then deleting the created record restores the list. */
  lemma CreateThenDelete(s: State, created: Software)
    requires UniqueKeys(s.software, SoftwareId)
    requires forall k :: 0 <= k < |s.software| ==> s.software[k].id != created.id
    ensures DeleteSoftware(CreateSoftware(s, Ok(created)).state, created.id, Ok(())).state.software == s.software
  {
    var after := CreateSoftware(s, Ok(created)).state.software;
    assert after == [created] + s.software;
    FilterAll(s.software, S.OtherThan(created.id));
    assert after[1..] == s.software;
  }

  /** A successful update keeps a list with distinct ids distinct when the server keeps the id. */
  lemma UpdateKeepsIdsUnique(s: State, id: Id, updated: Software)
    requires UniqueKeys(s.software, SoftwareId) && updated.id == id
    ensures UniqueKeys(UpdateSoftware(s, id, Ok(updated)).state.software, SoftwareId)
  {
    match FirstIndex(s.software, SoftwareId, id)
    case None =>
    case Some(i) => ReplaceUnique(s.software, SoftwareId, i, updated);
  }

  /** After a successful delete no listed record has the id, and the display does not show it. */
  lemma DeleteRemovesEverywhere(s: State, id: Id)
    ensures var t := DeleteSoftware(s, id, Ok(())).state;
            (forall k :: 0 <= k < |t.software| ==> t.software[k].id != id)
            && (t.current.Some? ==> t.current.value.id != id)
  {
    var t := DeleteSoftware(s, id, Ok(())).state;
    forall k | 0 <= k < |t.software|
      ensures t.software[k].id != id
    {
      assert t.software[k] in t.software;
    }
  }
}
