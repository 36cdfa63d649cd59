/**
 The article handlers of backend/controllers/articleController.js over an
 in-memory collection. The collection is the list of stored articles in
 insertion order with distinct ids; `Date.now()` and the id the database
 assigns are parameters. The Article schema is not part of this model, so
 creation and update accept every body.
 */
module ArticleService {
  import opened Common
  import opened Docs
  import opened Ordering
  import opened JsText

  datatype Article = Article(
    id: Id,
    title: Option<string>,
    content: Option<string>,
    tags: seq<string>,
    author: Id,
    createdAt: int,
    updatedAt: int)

  /** The fields a request body may set; absent fields are left alone. */
  datatype ArticleBody = ArticleBody(
    title: Option<string>,
    content: Option<string>,
    tags: Option<seq<string>>,
    author: Option<Id>)

  datatype Pagination = Pagination(total: nat, page: int, pages: int)

  /** The `data` (and, for a listing, `count` and `pagination`) of a success envelope. */
  datatype Payload =
    | Listing(count: nat, pagination: Pagination, data: seq<Article>)
    | One(article: Article)
    | NoData

  /** `{ success: true, ... }` with its status, or `{ success: false, message }`. */
  datatype Reply = Ok(status: int, payload: Payload) | Error(status: int, message: string)

  datatype Outcome = Outcome(store: seq<Article>, reply: Reply)

  const NotFound: string := "Article not found"
  const NotOwnerUpdate: string := "Not authorized to update this article"
  const NotOwnerDelete: string := "Not authorized to delete this article"
  /** The store refuses a negative `skip`; the exact wording is the database's. */
  const NegativeSkip: string := "skip value must be non-negative"

  const DefaultPage: int := 1
  const DefaultLimit: int := 10

  function ArticleId(a: Article): Id { a.id }
  function CreatedAt(a: Article): int { a.createdAt }

  /** The test that keeps every article but the one with id `id`. */
  function OtherThan(id: Id): Article -> bool
  {
    (a: Article) => a.id != id
  }

  ghost predicate Valid(store: seq<Article>)
  {
    UniqueKeys(store, ArticleId)
  }

  /** Round-up division `Math.ceil(a / b)` for a non-zero divisor of either sign. */
  function CeilDiv(a: nat, b: int): (q: int)
    requires b != 0
    ensures b > 0 ==> (q - 1) * b < a <= q * b
    ensures b < 0 ==> q * b <= a < (q - 1) * b
  {
    if b > 0 then (a + b - 1) / b else -(a / -b)
  }

  function Abs(n: int): nat { if n < 0 then -n else n }

  /** At most `limit` elements of `xs`, starting at index `skip`. */
  function Window<T>(xs: seq<T>, skip: nat, limit: nat): (r: seq<T>)
    ensures IsWindow(r, xs, skip, limit)
  {
    if skip >= |xs| then []
    else if |xs| - skip < limit then xs[skip..]
    else xs[skip..skip + limit]
  }

  /** The `page` and `limit` a listing request asks for, after defaulting. */
  datatype Paging = Paging(page: int, limit: int)
  {
    /** `startIndex` of the handler. */
    function Skip(): int { (page - 1) * limit }
  }

  function ReadPaging(pageQuery: Option<string>, limitQuery: Option<string>): (p: Paging)
    ensures p.limit != 0 && p.page != 0
  {
    Paging(QueryNumber(pageQuery, DefaultPage), QueryNumber(limitQuery, DefaultLimit))
  }

  /**
   `GET /api/articles?page=&limit=`. Both parameters go through
   `parseInt(_, 10) || default`; the newest-first list is cut at
   `(page - 1) * limit`. A negative skip is refused by the store (500); a
   negative limit is taken by the driver as its absolute value.
   */
  function GetArticles(store: seq<Article>, pageQuery: Option<string>, limitQuery: Option<string>): (r: Reply)
    ensures r.Ok? <==> ReadPaging(pageQuery, limitQuery).Skip() >= 0
    ensures r.Error? ==> r.status == StatusServerError
    ensures r.Ok? ==> ListingOf(store, ReadPaging(pageQuery, limitQuery), r)
    ensures r.Ok? ==> r.payload.count <= Abs(ReadPaging(pageQuery, limitQuery).limit)
  {
    var p := ReadPaging(pageQuery, limitQuery);
    if p.Skip() < 0 then Error(StatusServerError, NegativeSkip)
    else
      var data := Window(SortDesc(store, CreatedAt), p.Skip(), Abs(p.limit));
      Ok(StatusOk, Listing(|data|, Pagination(|store|, p.page, CeilDiv(|store|, p.limit)), data))
  }

  /**
   `r` answers a listing request for page `p`: the count is the number of
   articles returned and at most the limit, `total` counts every article,
   `pages` is `ceil(total / limit)`, and the articles are those of the
   newest-first order from index `skip` on, as many as the limit allows.
   */
  ghost predicate ListingOf(store: seq<Article>, p: Paging, r: Reply)
  {
    && p.limit != 0 && p.Skip() >= 0
    && r.Ok? && r.status == StatusOk && r.payload.Listing?
    && r.payload.count == |r.payload.data|
    && r.payload.pagination == Pagination(|store|, p.page, CeilDiv(|store|, p.limit))
    && IsWindow(r.payload.data, SortDesc(store, CreatedAt), p.Skip(), Abs(p.limit))
  }

  /** `w` is what `skip(skip).limit(limit)` leaves of `xs`. */
  ghost predicate IsWindow<T>(w: seq<T>, xs: seq<T>, skip: nat, limit: nat)
  {
    && |w| <= limit
    && (|w| == 0 || skip + |w| <= |xs|)
    && (forall i :: 0 <= i < |w| ==> w[i] == xs[skip + i])
    && (|w| < limit ==> skip + |w| >= |xs|)
  }

  /** `GET /api/articles/:id`. */
  function GetArticle(store: seq<Article>, id: Id): (r: Reply)
    ensures r.Error? <==> forall i :: 0 <= i < |store| ==> store[i].id != id
    ensures r.Error? ==> r == Error(StatusNotFound, NotFound)
    ensures r.Ok? ==> r.status == StatusOk && r.payload.One? && r.payload.article in store
                      && r.payload.article.id == id
  {
    match Find(store, ArticleId, id)
    case None => Error(StatusNotFound, NotFound)
    case Some(a) => Ok(StatusOk, One(a))
  }

  /**
   `POST /api/articles`: the body's `author` is overwritten with the
   requester's id before the article is stored under the fresh id `newId`.
   */
  function CreateArticle(store: seq<Article>, body: ArticleBody, user: Principal, newId: Id, now: int): (o: Outcome)
    ensures o.reply.Ok? && o.reply.status == StatusCreated && o.reply.payload.One?
    ensures var a := o.reply.payload.article;
            && a.author == user.id && a.id == newId
            && a.title == body.title && a.content == body.content
            && a.tags == (if body.tags.Some? then body.tags.value else [])
            && a.createdAt == now && a.updatedAt == now
            && o.store == store + [a]
  {
    var a := Article(newId, body.title, body.content,
                     if body.tags.Some? then body.tags.value else [],
                     user.id, now, now);
    Outcome(store + [a], Ok(StatusCreated, One(a)))
  }

  /** `findByIdAndUpdate(id, body)`: every field present in the body replaces the stored one. */
  function ApplyBody(a: Article, body: ArticleBody, now: int): (b: Article)
    ensures b.id == a.id && b.createdAt == a.createdAt && b.updatedAt == now
    ensures b.author == (if body.author.Some? then body.author.value else a.author)
    ensures b.title == (if body.title.Some? then body.title else a.title)
    ensures b.content == (if body.content.Some? then body.content else a.content)
    ensures b.tags == (if body.tags.Some? then body.tags.value else a.tags)
  {
    Article(a.id,
            if body.title.Some? then body.title else a.title,
            if body.content.Some? then body.content else a.content,
            if body.tags.Some? then body.tags.value else a.tags,
            if body.author.Some? then body.author.value else a.author,
            a.createdAt, now)
  }

  /**
   `PUT /api/articles/:id`: 404 for an unknown id, then 401 unless the
   requester is the author (whatever the requester's role), then the update
   with `updatedAt` stamped.
   */
  function UpdateArticle(store: seq<Article>, id: Id, body: ArticleBody, user: Principal, now: int): (o: Outcome)
    ensures Find(store, ArticleId, id).None? ==> o == Outcome(store, Error(StatusNotFound, NotFound))
    ensures (Find(store, ArticleId, id).Some? && Find(store, ArticleId, id).value.author != user.id)
              ==> o == Outcome(store, Error(StatusUnauthorized, NotOwnerUpdate))
    ensures o.reply.Ok? ==>
              && Find(store, ArticleId, id).Some?
              && Find(store, ArticleId, id).value.author == user.id
              && o.reply == Ok(StatusOk, One(ApplyBody(Find(store, ArticleId, id).value, body, now)))
              && |o.store| == |store|
              && (forall i :: 0 <= i < |store| && store[i].id != id ==> o.store[i] == store[i])
              && Find(o.store, ArticleId, id) == Some(ApplyBody(Find(store, ArticleId, id).value, body, now))
    ensures (Find(store, ArticleId, id).Some? && Find(store, ArticleId, id).value.author == user.id) ==> o.reply.Ok?
  {
    match FirstIndex(store, ArticleId, id)
    case None => Outcome(store, Error(StatusNotFound, NotFound))
    case Some(i) =>
      var a := store[i];
      if a.author != user.id then Outcome(store, Error(StatusUnauthorized, NotOwnerUpdate))
      else
        var b := ApplyBody(a, body, now);
        FindAfterReplace(store, ArticleId, id, b);
        Outcome(ReplaceFirst(store, ArticleId, id, b), Ok(StatusOk, One(b)))
  }

  /**
   `DELETE /api/articles/:id`: 404, then 401 for a non-author, then removal
   answered with `data: {}`. `fault` is an error the store may raise while
   deleting; the status is still 200 then, so the handler reports 500.
   */
  function DeleteArticle(store: seq<Article>, id: Id, user: Principal, fault: Option<string>): (o: Outcome)
    ensures Find(store, ArticleId, id).None? ==> o == Outcome(store, Error(StatusNotFound, NotFound))
    ensures (Find(store, ArticleId, id).Some? && Find(store, ArticleId, id).value.author != user.id)
              ==> o == Outcome(store, Error(StatusUnauthorized, NotOwnerDelete))
    ensures o.reply.Error? ==> o.store == store
    ensures o.reply.Error? && o.reply.status == StatusServerError ==> fault.Some?
    ensures o.reply.Ok? ==>
              && o.reply == Ok(StatusOk, NoData)
              && fault.None?
              && Find(store, ArticleId, id).Some? && Find(store, ArticleId, id).value.author == user.id
              && (forall a :: a in o.store <==> a in store && a.id != id)
              && o.store == Filter(store, OtherThan(id))
    ensures (Find(store, ArticleId, id).Some? && Find(store, ArticleId, id).value.author == user.id && fault.None?)
              ==> o.reply.Ok?
  {
    match Find(store, ArticleId, id)
    case None => Outcome(store, Error(StatusNotFound, NotFound))
    case Some(a) =>
      if a.author != user.id then Outcome(store, Error(StatusUnauthorized, NotOwnerDelete))
      else if fault.Some? then Outcome(store, Error(StatusServerError, fault.value))
      else
        var rest := Filter(store, OtherThan(id));
        assert forall x :: x in rest <==> x in store && x.id != id by {
          forall x
            ensures x in rest <==> x in store && x.id != id
          {
            assert multiset(rest)[x] == if x.id != id then multiset(store)[x] else 0;
          }
        }
        Outcome(rest, Ok(StatusOk, NoData))
  }

  // ---------------------------------------------------------------------
  // Properties relating several calls
  // ---------------------------------------------------------------------

  /** Without query parameters the first ten articles, newest first, are returned. */
  lemma DefaultPaging(store: seq<Article>)
    ensures var r := GetArticles(store, None, None);
            && r.Ok? && r.payload.pagination.page == 1
            && r.payload.data == SortDesc(store, CreatedAt)[..if |store| < 10 then |store| else 10]
  {
    var r := GetArticles(store, None, None);
    assert ReadPaging(None, None) == Paging(1, 10);
    assert ListingOf(store, Paging(1, 10), r);
    WindowFromStart(r.payload.data, SortDesc(store, CreatedAt), 10);
  }

  /** A window that skips nothing is a prefix. */
  lemma WindowFromStart<T>(w: seq<T>, xs: seq<T>, limit: nat)
    requires IsWindow(w, xs, 0, limit)
    ensures w == xs[..if |xs| < limit then |xs| else limit]
  {
  }

  /** A window of a newest-first list is newest first, and made of the list's elements. */
  lemma WindowOfSorted<T(!new)>(w: seq<T>, xs: seq<T>, skip: nat, limit: nat, key: T -> int)
    requires IsWindow(w, xs, skip, limit) && SortedDesc(xs, key)
    ensures SortedDesc(w, key)
    ensures forall i :: 0 <= i < |w| ==> w[i] in xs
  {
    forall i, j | 0 <= i < j < |w|
      ensures key(w[i]) >= key(w[j])
    {
      assert w[i] == xs[skip + i] && w[j] == xs[skip + j];
    }
  }

  /** Every listed article is stored, and a listing runs newest first. */
  lemma ListingNewestFirst(store: seq<Article>, p: Paging, r: Reply)
    requires ListingOf(store, p, r)
    ensures SortedDesc(r.payload.data, CreatedAt)
    ensures forall i :: 0 <= i < |r.payload.data| ==> r.payload.data[i] in store
  {
    var sorted := SortDesc(store, CreatedAt);
    WindowOfSorted(r.payload.data, sorted, p.Skip(), Abs(p.limit), CreatedAt);
    forall i | 0 <= i < |r.payload.data|
      ensures r.payload.data[i] in store
    {
      assert multiset(sorted)[r.payload.data[i]] > 0;
    }
  }

  /** Page `page` of `n` articles starts inside the list exactly when `page <= ceil(n / limit)`. */
  lemma PageStartsInside(n: nat, page: int, limit: int)
    requires page >= 1 && limit >= 1
    ensures (page - 1) * limit < n <==> page <= CeilDiv(n, limit)
  {
    var pages := CeilDiv(n, limit);
    if page <= pages {
      MulMonotone(page - 1, pages - 1, limit);
    } else {
      MulMonotone(pages, page - 1, limit);
    }
  }

  lemma MulMonotone(a: int, b: int, c: nat)
    requires a <= b
    ensures a * c <= b * c
  {
    assert b * c - a * c == (b - a) * c;
  }

  /**
   With a positive limit, page `p >= 1` of a listing holds articles exactly
   when `p <= pages`: the page count is the number of non-empty pages.
   */
  lemma PagesCountNonEmptyPages(store: seq<Article>, p: Paging, r: Reply)
    requires p.page >= 1 && p.limit >= 1
    requires ListingOf(store, p, r)
    ensures |r.payload.data| > 0 <==> p.page <= r.payload.pagination.pages
  {
    PageStartsInside(|store|, p.page, p.limit);
  }

  /** The page and limit the client renders into the query are the ones the handler uses. */
  lemma RenderedPaging(page: int, limit: int)
    requires page != 0 && limit != 0
    requires IsSafeInteger(page) && IsSafeInteger(limit)
    ensures ReadPaging(Some(DecimalString(page)), Some(DecimalString(limit))) == Paging(page, limit)
  {
    QueryOfRenderedNumber(page, DefaultPage);
    QueryOfRenderedNumber(limit, DefaultLimit);
  }

  /** A new article with a fresh id keeps the ids unique. */
  lemma CreatePreservesValid(store: seq<Article>, body: ArticleBody, user: Principal, newId: Id, now: int)
    requires Valid(store)
    requires forall i :: 0 <= i < |store| ==> store[i].id != newId
    ensures Valid(CreateArticle(store, body, user, newId, now).store)
  {
    var s := CreateArticle(store, body, user, newId, now).store;
    forall i, j | 0 <= i < j < |s|
      ensures s[i].id != s[j].id
    {
      if j < |store| {
        assert s[i] == store[i] && s[j] == store[j];
      }
    }
  }

  /** Updates keep the ids unique. */
  lemma UpdatePreservesValid(store: seq<Article>, id: Id, body: ArticleBody, user: Principal, now: int)
    requires Valid(store)
    ensures Valid(UpdateArticle(store, id, body, user, now).store)
  {
    match FirstIndex(store, ArticleId, id)
    case None =>
    case Some(i) =>
      if store[i].author == user.id {
        ReplaceUnique(store, ArticleId, i, ApplyBody(store[i], body, now));
      }
  }

  /** Deletions keep the ids unique and remove the article for good. */
  lemma DeletePreservesValid(store: seq<Article>, id: Id, user: Principal, fault: Option<string>)
    requires Valid(store)
    ensures Valid(DeleteArticle(store, id, user, fault).store)
    ensures DeleteArticle(store, id, user, fault).reply.Ok? ==>
              Find(DeleteArticle(store, id, user, fault).store, ArticleId, id).None?
  {
    FilterUnique(store, OtherThan(id), ArticleId);
  }

  /** Role does not matter: an admin who is not the author is refused like anyone else. */
  lemma NoAdminBypass(store: seq<Article>, id: Id, body: ArticleBody, admin: Principal, now: int)
    requires admin.role == AdminRole
    requires Find(store, ArticleId, id).Some? && Find(store, ArticleId, id).value.author != admin.id
    ensures UpdateArticle(store, id, body, admin, now).reply.status == StatusUnauthorized
    ensures DeleteArticle(store, id, admin, None).reply.status == StatusUnauthorized
    ensures UpdateArticle(store, id, body, admin, now).store == store
    ensures DeleteArticle(store, id, admin, None).store == store
  {
  }

  /**
   The update body is applied as sent, `author` included, so the author of an
   article can hand it over to another user, who then owns it.
   */
  lemma AuthorCanHandOver(store: seq<Article>, id: Id, owner: Principal, other: Principal, now: int)
    requires Valid(store)
    requires Find(store, ArticleId, id).Some? && Find(store, ArticleId, id).value.author == owner.id
    requires other.id != owner.id
    ensures var o := UpdateArticle(store, id, ArticleBody(None, None, None, Some(other.id)), owner, now);
            && o.reply.Ok?
            && Find(o.store, ArticleId, id).Some?
            && Find(o.store, ArticleId, id).value.author == other.id
            && UpdateArticle(o.store, id, ArticleBody(None, None, None, None), owner, now).reply.status
                 == StatusUnauthorized
  {
    var i := FirstIndex(store, ArticleId, id).value;
    var body := ArticleBody(None, None, None, Some(other.id));
    var o := UpdateArticle(store, id, body, owner, now);
    UpdatePreservesValid(store, id, body, owner, now);
    assert o.store[i].id == id;
    FindUnique(o.store, ArticleId, i);
  }
}
