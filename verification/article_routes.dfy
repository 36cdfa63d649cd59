/**
 backend/routes/articleRoutes.js: reading articles is public, and every
 write runs `protect` before its handler. No role gate is involved.
 */
module ArticleRoutes {
  import opened Common
  import opened RoleGate
  import A = ArticleService

  /** The five endpoints under `/api/articles`, with what each handler needs from the request. */
  datatype Request =
    | ListArticles(page: Option<string>, limit: Option<string>)
    | ReadArticle(id: Id)
    | CreateArticle(body: A.ArticleBody, newId: Id)
    | UpdateArticle(id: Id, body: A.ArticleBody)
    | DeleteArticle(id: Id, fault: Option<string>)

  /** The endpoints mounted behind `protect`. */
  predicate Protected(req: Request)
  {
    req.CreateArticle? || req.UpdateArticle? || req.DeleteArticle?
  }

  /** The middleware chain in front of each endpoint. */
  function Gate(req: Request, user: Option<Principal>): (g: GateResult)
    ensures g.Next? <==> !Protected(req) || user.Some?
    ensures g.Reject? ==> g == Reject(StatusUnauthorized, NotAuthenticated)
  {
    if Protected(req) then Protect(user) else Next
  }

  /** A request routed through its gate to its handler; a rejected request changes nothing. */
  function Dispatch(store: seq<A.Article>, req: Request, user: Option<Principal>, now: int): (o: A.Outcome)
    ensures Gate(req, user).Reject? ==> o == A.Outcome(store, A.Error(Gate(req, user).status, Gate(req, user).message))
    ensures !Protected(req) ==> o.store == store
    ensures o.store != store ==> Protected(req) && user.Some? && o.reply.Ok?
  {
    match Gate(req, user)
    case Reject(status, message) => A.Outcome(store, A.Error(status, message))
    case Next =>
      match req
      case ListArticles(page, limit) => A.Outcome(store, A.GetArticles(store, page, limit))
      case ReadArticle(id) => A.Outcome(store, A.GetArticle(store, id))
      case CreateArticle(body, newId) => A.CreateArticle(store, body, user.value, newId, now)
      case UpdateArticle(id, body) => A.UpdateArticle(store, id, body, user.value, now)
      case DeleteArticle(id, fault) => A.DeleteArticle(store, id, user.value, fault)
  }

  /** Reads are answered the same whoever asks, signed in or not. */
  lemma ReadsArePublic(store: seq<A.Article>, req: Request, u: Option<Principal>, v: Option<Principal>, now: int)
    requires !Protected(req)
    ensures Dispatch(store, req, u, now) == Dispatch(store, req, v, now)
  {
  }

  /** Every write without a user is answered 401 and leaves the articles alone. */
  lemma AnonymousCannotWrite(store: seq<A.Article>, req: Request, now: int)
    requires Protected(req)
    ensures Dispatch(store, req, None, now) == A.Outcome(store, A.Error(StatusUnauthorized, NotAuthenticated))
  {
  }

  /** The role never matters on these routes: only the requester's id does. */
  lemma RoleIsIrrelevant(store: seq<A.Article>, req: Request, u: Principal, role: Role, now: int)
    ensures Dispatch(store, req, Some(u), now) == Dispatch(store, req, Some(u.(role := role)), now)
  {
  }
}
