/**
 The client's article store (frontend/src/stores/articles.js). Unlike the
 software store its actions never rethrow: they record the failure and
 return an empty value. A request that got no response at all is told apart
 from an error response: it sets `connectionError` and a fixed message, and
 for the two reads also drops what was cached.
 */
module ArticleStore {
  import opened Common
  import opened Docs
  import opened ClientApi
  import opened ArticleService

  datatype State = State(
    articles: seq<Article>,
    current: Option<Article>,
    loading: bool,
    error: Option<string>,
    connectionError: bool,
    pagination: Pagination)

  /** The body of a listing response: the page of articles and its pagination. */
  datatype Page = Page(data: seq<Article>, pagination: Pagination)

  datatype Step<+T> = Step(state: State, result: T)

  const FirstPage: Pagination := Pagination(0, 1, 1)
  const Initial: State := State([], None, false, None, false, FirstPage)

  const ConnectionLost: string := "Unable to connect to the server. Please check your connection or try again later."
  const FetchListFailed: string := "Failed to fetch articles"
  const FetchOneFailed: string := "Failed to fetch article"
  const CreateFailed: string := "Failed to create article"
  const UpdateFailed: string := "Failed to update article"
  const DeleteFailed: string := "Failed to delete article"

  /**
   The common failure path: no response means a connection error with the
   fixed message; an error response means the server's message or the
   action's fallback.
   */
  function Failed<T>(s: State, res: ApiResult<T>, fallback: string): (st: State)
    requires !res.Ok?
    ensures st.articles == s.articles && st.current == s.current && st.pagination == s.pagination
    ensures !st.loading && st.error.Some?
    ensures st.connectionError <==> res.NetworkError?
    ensures res.NetworkError? ==> st.error == Some(ConnectionLost)
    ensures res.HttpError? ==> st.error == Some(ErrorText(res, fallback))
  {
    if res.NetworkError? then s.(loading := false, error := Some(ConnectionLost), connectionError := true)
    else s.(loading := false, error := Some(ErrorText(res, fallback)), connectionError := false)
  }

  /** Everything a successful action resets. */
  function Settled(s: State): State
  {
    s.(loading := false, error := None, connectionError := false)
  }

  /** `fetchArticles(page)`: the page and its pagination replace the cached ones; a lost connection empties the list. */
  function FetchArticles(s: State, res: ApiResult<Page>): (t: Step<seq<Article>>)
    ensures !t.state.loading && t.state.current == s.current
    ensures res.Ok? ==> t.state.articles == res.data.data && t.state.pagination == res.data.pagination
                        && t.state.error.None? && !t.state.connectionError && t.result == res.data.data
    ensures res.NetworkError? ==> t == Step(Failed(s, res, FetchListFailed).(articles := []), [])
    ensures res.HttpError? ==> t == Step(Failed(s, res, FetchListFailed), [])
    ensures res.NetworkError? ==> t.state.articles == [] && t.state.connectionError
    ensures res.HttpError? ==> t.state.articles == s.articles && !t.state.connectionError
    ensures !res.Ok? ==> t.state.pagination == s.pagination && t.state.error.Some?
  {
    match res
    case Ok(page) => Step(Settled(s).(articles := page.data, pagination := page.pagination), page.data)
    case NetworkError => Step(Failed(s, res, FetchListFailed).(articles := []), [])
    case HttpError(_) => Step(Failed(s, res, FetchListFailed), [])
  }

  /** `fetchArticle(id)`: the article on display becomes the server's; a lost connection clears it. */
  function FetchArticle(s: State, res: ApiResult<Article>): (t: Step<Option<Article>>)
    ensures !t.state.loading && t.state.articles == s.articles
    ensures res.Ok? ==> t.state.current == Some(res.data) && t.result == Some(res.data) && t.state.error.None?
    ensures res.NetworkError? ==> t == Step(Failed(s, res, FetchOneFailed).(current := None), None)
    ensures res.HttpError? ==> t == Step(Failed(s, res, FetchOneFailed), None)
    ensures res.NetworkError? ==> t.state.current.None? && t.state.connectionError
    ensures res.HttpError? ==> t.state.current == s.current && !t.state.connectionError
  {
    match res
    case Ok(a) => Step(Settled(s).(current := Some(a)), Some(a))
    case NetworkError => Step(Failed(s, res, FetchOneFailed).(current := None), None)
    case HttpError(_) => Step(Failed(s, res, FetchOneFailed), None)
  }

  /** `createArticle`: the new article is listed first, but only while the first page is shown. */
  function CreateArticle(s: State, res: ApiResult<Article>): (t: Step<Option<Article>>)
    ensures !t.state.loading && t.state.current == s.current && t.state.pagination == s.pagination
    ensures (res.Ok? && s.pagination.page == 1) ==> t.state.articles == [res.data] + s.articles
    ensures (res.Ok? && s.pagination.page != 1) ==> t.state.articles == s.articles
    ensures res.Ok? ==> t.result == Some(res.data) && t.state.error.None?
    ensures !res.Ok? ==> t == Step(Failed(s, res, CreateFailed), None)
  {
    match res
    case Ok(a) =>
      var articles := if s.pagination.page == 1 then [a] + s.articles else s.articles;
      Step(Settled(s).(articles := articles), Some(a))
    case _ => Step(Failed(s, res, CreateFailed), None)
  }

  /** `updateArticle(id)`: the first listed article with that id, if any, becomes the server's version. */
  function UpdateArticle(s: State, id: Id, res: ApiResult<Article>): (t: Step<Option<Article>>)
    ensures !t.state.loading && t.state.current == s.current && t.state.pagination == s.pagination
    ensures res.Ok? ==> t.state.articles == ReplaceFirst(s.articles, ArticleId, id, res.data)
    ensures res.Ok? ==> t.result == Some(res.data) && t.state.error.None?
    ensures !res.Ok? ==> t == Step(Failed(s, res, UpdateFailed), None)
  {
    match res
    case Ok(a) => Step(Settled(s).(articles := ReplaceFirst(s.articles, ArticleId, id, a)), Some(a))
    case _ => Step(Failed(s, res, UpdateFailed), None)
  }

  /** `deleteArticle(id)`: every listed article with that id goes, the others keep their order; the answer says whether the request succeeded. */
  function DeleteArticle(s: State, id: Id, res: ApiResult<()>): (t: Step<bool>)
    ensures !t.state.loading && t.state.current == s.current && t.state.pagination == s.pagination
    ensures t.result <==> res.Ok?
    ensures res.Ok? ==> forall a :: a in t.state.articles <==> a in s.articles && a.id != id
    ensures res.Ok? ==> t.state.articles == Filter(s.articles, OtherThan(id))
    ensures !res.Ok? ==> t.state == Failed(s, res, DeleteFailed)
  {
    match res
    case Ok(_) =>
      var rest := Filter(s.articles, OtherThan(id));
      assert forall a :: a in rest <==> a in s.articles && a.id != id by {
        forall a
          ensures a in rest <==> a in s.articles && a.id != id
        {
          assert multiset(rest)[a] == if a.id != id then multiset(s.articles)[a] else 0;
        }
      }
      Step(Settled(s).(articles := rest), true)
    case _ => Step(Failed(s, res, DeleteFailed), false)
  }

  /** `resetState`: back to the initial state, except that a pending request stays pending. */
  function ResetState(s: State): (t: State)
    ensures t == Initial.(loading := s.loading)
  {
    State([], None, s.loading, None, false, FirstPage)
  }

  // ---------------------------------------------------------------------
  // Properties
  // ---------------------------------------------------------------------

  /** Fetching the listing the server answers puts its page and pagination in the store. */
  lemma FetchShowsServerListing(s: State, store: seq<Article>, pageQuery: Option<string>, limitQuery: Option<string>)
    requires GetArticles(store, pageQuery, limitQuery).Ok?
    ensures var reply := GetArticles(store, pageQuery, limitQuery);
            var t := FetchArticles(s, ApiResult.Ok(Page(reply.payload.data, reply.payload.pagination)));
            && t.state.articles == reply.payload.data
            && t.state.pagination.total == |store|
            && (forall i, j :: 0 <= i < j < |t.state.articles| ==> t.state.articles[i].createdAt >= t.state.articles[j].createdAt)
  {
    var reply := GetArticles(store, pageQuery, limitQuery);
    ListingNewestFirst(store, ReadPaging(pageQuery, limitQuery), reply);
  }

  /**
   Fetching one article shows what the server answers: a stored article
   with that id, or, for an unknown id, "Article not found" with the
   display kept.
   */
  lemma FetchShowsServerArticle(s: State, store: seq<Article>, id: Id)
    ensures var r := GetArticle(store, id);
            var t := FetchArticle(s, if r.Ok? then ApiResult.Ok(r.payload.article) else HttpError(Some(r.message)));
            && (Find(store, ArticleId, id).Some? ==>
                  t.state.current.Some? && t.state.current.value in store && t.state.current.value.id == id
                  && t.result == t.state.current && t.state.error.None?)
            && (Find(store, ArticleId, id).None? ==>
                  t.state.error == Some(NotFound) && t.state.current == s.current && t.result.None?)
  {
  }

  /** A successful update keeps a list with distinct ids distinct when the server keeps the id. */
  lemma UpdateKeepsIdsUnique(s: State, id: Id, updated: Article)
    requires UniqueKeys(s.articles, ArticleId) && updated.id == id
    ensures UniqueKeys(UpdateArticle(s, id, ApiResult.Ok(updated)).state.articles, ArticleId)
  {
    match FirstIndex(s.articles, ArticleId, id)
    case None =>
    case Some(i) => ReplaceUnique(s.articles, ArticleId, i, updated);
  }

  /** The server's answer to an update is what the list shows for that id afterwards, when the id was listed. */
  lemma UpdateShowsServerVersion(s: State, store: seq<Article>, id: Id, body: ArticleBody, user: Principal, now: int)
    requires Find(s.articles, ArticleId, id).Some?
    requires ArticleService.UpdateArticle(store, id, body, user, now).reply.Ok?
    ensures var o := ArticleService.UpdateArticle(store, id, body, user, now);
            var t := UpdateArticle(s, id, ApiResult.Ok(o.reply.payload.article));
            Find(t.state.articles, ArticleId, id) == Some(o.reply.payload.article)
  {
    var a := ArticleService.UpdateArticle(store, id, body, user, now).reply.payload.article;
    FindAfterReplace(s.articles, ArticleId, id, a);
  }

  /** After a reset no error of an earlier request is left, whatever happened before. */
  lemma ResetClearsFailures(s: State)
    ensures var t := ResetState(s);
            t.error.None? && !t.connectionError && t.articles == [] && t.pagination.page == 1
  {
  }

  /** A creation while the first page is shown, then its deletion, leaves an id-unique list as it was. */
  lemma CreateThenDelete(s: State, created: Article)
    requires s.pagination.page == 1
    requires UniqueKeys(s.articles, ArticleId)
    requires forall k :: 0 <= k < |s.articles| ==> s.articles[k].id != created.id
    ensures DeleteArticle(CreateArticle(s, ApiResult.Ok(created)).state, created.id, ApiResult.Ok(())).state.articles == s.articles
  {
    var after := CreateArticle(s, ApiResult.Ok(created)).state.articles;
    assert after == [created] + s.articles;
    FilterAll(s.articles, OtherThan(created.id));
    assert after[1..] == s.articles;
  }
}
