# CygnusOne catalog: a Dafny model of the API handlers and the client stores

CygnusOne is an Express/MongoDB backend with a Vue/Pinia single-page client.
It publishes articles and a catalog of software applications, and lets
administrators manage user roles. This project models its core:

- the article, software and user-administration request handlers, and
  the route tables that put `protect` (authentication) and
  `authorize(...roles)` (role check) in front of them;
- the Software document schema: trimming, required fields, the
  100-character title, enumerations and defaults;
- the client's Pinia stores for software, articles, user administration,
  the session and the content-scraping page, and the router's global
  navigation guard.

The model is functional.

- A backend collection is a sequence of documents in insertion order with
  distinct ids.
- A handler maps the collection, the request and the optional signed-in
  user to the new collection and the reply: a status and either the
  success envelope or an error message.
- A client action maps the store's state and the settled HTTP result
  (`ClientApi.ApiResult`: a response body, an error response with its
  optional message, or no response) to the new state and to what the
  action returns or rethrows.
- Clocks and the ids the database assigns are parameters.
- Local storage is a field of the session state.
- The route the session store pushes is returned with each step.

Modules, following the program's files:

| module | file it models |
|---|---|
| `Common` | shared vocabulary: ids, roles, the signed-in user, status codes |
| `Docs`, `Ordering` | the collection operations the handlers use (find by id, replace, filter, newest-first sort) |
| `JsText` | `String.prototype.trim`, `parseInt(_, 10)`, UTF-16 length |
| `RoleGate` | backend/middleware/roleMiddleware.js and the 401 of `protect` |
| `ArticleService`, `ArticleRoutes` | backend/controllers/articleController.js, backend/routes/articleRoutes.js |
| `SoftwareSchema`, `SoftwareService`, `SoftwareRoutes` | backend/models/Software.js, backend/controllers/softwareController.js, backend/routes/softwareRoutes.js |
| `AdminService`, `AdminRoutes` | backend/controllers/adminController.js, backend/routes/adminRoutes.js |
| `ClientApi` | the error envelope the stores read, `error.response?.data?.message` |
| `SoftwareStore`, `ArticleStore`, `AdminStore`, `AuthStore`, `PantheonStore` | frontend/src/stores/*.js |
| `RouterGuard` | frontend/src/router/index.js |

Where the code and its comments or documentation disagree, the model follows the code:

- The two software GET routes run no authentication middleware (see Findings).
- An article's author can change the `author` field of their own article
  with an update, because the body is applied as sent.
- backend/server.js mounts only the auth and article routers. The software
  and admin routers are modelled as their route files define them.
- The client's `requiresGuest`, `editorOnly` and `requiresEditor` route
  flags are enforced by nothing. The admin pages carry no role flag.

## Model

| member | source | states |
|---|---|---|
| `Common.ParseRole` | backend/controllers/adminController.js:40 | a role string is accepted exactly when it is the spelling of one of `user`, `editor`, `admin`, and then it denotes that role |
| `Common.ParseRoleName` | backend/controllers/adminController.js:40-53 | the spelling of every role parses back to that role (round trip of the stored role) |
| `Ordering.SortDesc` | backend/controllers/articleController.js:15 | `sort({ createdAt: -1 })`: the result is ordered newest first and is a permutation of the input |
| `Docs.Filter` | frontend/src/stores/software.js:229 | `Array.prototype.filter`: the result holds each element the test keeps, as often as in the input, and nothing else |
| `Docs.FilterAppend` | frontend/src/stores/software.js:229 | filtering two lists one after the other is filtering each and joining the results, so the kept elements stay in their order |
| `Docs.FilterSingleton` | frontend/src/stores/software.js:229 | a one-element list keeps its element exactly when the test holds; with `Docs.FilterAppend` this fixes the filter result completely |
| `Docs.FindAfterReplace` | backend/controllers/softwareController.js:75-78 | after the first element with a key is replaced by a value with that key, looking the key up finds the new value |
| `JsText.Trim` | backend/models/Software.js:7 | the result is the input with leading and trailing JS white space removed, and neither end of a non-empty result is white space |
| `JsText.TrimIdempotent` | backend/models/Software.js:7 | trimming a trimmed title changes nothing |
| `JsText.TrimUntouched` | backend/models/Software.js:7 | a string whose ends are not white space is its own trim |
| `JsText.TrimBlank` | backend/models/Software.js:6-7 | a string made only of white space trims to the empty string |
| `JsText.Utf16Length` | backend/models/Software.js:8 | the length `maxlength` counts in UTF-16 code units lies between the number of code points and twice it, and equals it exactly when no character lies outside the basic multilingual plane |
| `JsText.ParseInt` | backend/controllers/articleController.js:9-10 | `parseInt(s, 10)`: no number for an empty or blank string or one whose first non-blank character is not a digit or sign; a non-negative number when it starts with a digit; a negative one only after a minus sign |
| `JsText.QueryNumber` | backend/controllers/articleController.js:9-10 | `parseInt(q, 10)` or else the default: an absent, unparsable or zero parameter gives the default, any other parsed value is used, and with a non-zero default the result is never zero |
| `JsText.ParseDecimalString` | backend/controllers/articleController.js:9-10 | `parseInt` of the decimal rendering of any safe integer (at most 2^53 - 1 in size) gives that integer back |
| `JsText.QueryOfRenderedNumber` | backend/controllers/articleController.js:9-10 | a rendered safe integer read as a query parameter is itself, except that zero falls back to the default |
| `RoleGate.Authorize` | backend/middleware/roleMiddleware.js:1-11 | the request passes exactly when a user is attached and their role is in the list; otherwise 403 with the fixed message |
| `RoleGate.Protect` | backend/routes/articleRoutes.js:16 | the request passes exactly when a user is attached; otherwise 401 |
| `RoleGate.Then` | backend/routes/softwareRoutes.js:17 | a middleware chain passes exactly when both middlewares pass, and the first rejection is the answer |
| `RoleGate.ProtectAndAuthorize` | backend/routes/softwareRoutes.js:17 | `protect, authorize(...)`: passes exactly for a signed-in user with a listed role; 401 without a user, 403 with the wrong role |
| `RoleGate.EmptyRoleListRejectsAll` | backend/middleware/roleMiddleware.js:3-8 | `authorize()` with no roles refuses everybody with 403 |
| `RoleGate.AuthorizeMonotone` | backend/middleware/roleMiddleware.js:3 | listing more roles never refuses a user that fewer roles admit |
| `RoleGate.AuthorizeIgnoresIdentity` | backend/middleware/roleMiddleware.js:3 | the role gate looks only at the role, never at who the user is |
| `ArticleService.CeilDiv` | backend/controllers/articleController.js:27 | `Math.ceil(total / limit)` for either sign of limit: the result is the least multiple count covering `total` |
| `ArticleService.Window` | backend/controllers/articleController.js:16-17 | `skip(s).limit(l)`: at most `l` elements, each the element `s` places further on, and fewer than `l` only when the list runs out |
| `ArticleService.ReadPaging` | backend/controllers/articleController.js:9-10 | the page and limit after defaulting are never zero |
| `ArticleService.GetArticles` | backend/controllers/articleController.js:7-31 | succeeds exactly when the start index is not negative (otherwise 500); the data is the window of the newest-first list at `(page - 1) * limit`, count is its length and at most the limit, total counts every article, pages is `ceil(total / limit)` |
| `ArticleService.GetArticle` | backend/controllers/articleController.js:36-48 | 404 exactly when no article has the id; otherwise the stored article with that id |
| `ArticleService.CreateArticle` | backend/controllers/articleController.js:53-62 | 201; the stored article carries the requester as author whatever the body says, the fresh id, the body's title, content and tags (none when absent), both timestamps at creation time, and is appended to the collection |
| `ArticleService.ApplyBody` | backend/controllers/articleController.js:81-86 | an update keeps id and creation time, stamps `updatedAt`, and takes each of title, content, tags and `author` the body sends, keeping the stored value of each it does not (a JSON `null` counts as not sent) |
| `ArticleService.UpdateArticle` | backend/controllers/articleController.js:67-92 | 404 for an unknown id, then 401 unless the requester is the author; the author's update always succeeds, the reply is the updated article, the id then finds it in the collection, and every other article is unchanged |
| `ArticleService.DeleteArticle` | backend/controllers/articleController.js:97-131 | 404, then 401 for a non-author, then a database fault answered 500; without a fault the author's delete always succeeds, and exactly the articles with other ids remain, in their order (`Docs.Filter`); every error leaves the collection unchanged |
| `ArticleService.DefaultPaging` | backend/controllers/articleController.js:9-17 | without query parameters the reply is page 1 holding the first ten articles of the newest-first list |
| `ArticleService.WindowOfSorted` | backend/controllers/articleController.js:15-17 | a window of a newest-first list is newest first and made of the list's elements |
| `ArticleService.ListingNewestFirst` | backend/controllers/articleController.js:13-17 | every listed article is stored and the listing runs newest first |
| `ArticleService.PageStartsInside` | backend/controllers/articleController.js:11-27 | page `p` starts inside `n` articles exactly when `p <= ceil(n / limit)` |
| `ArticleService.PagesCountNonEmptyPages` | backend/controllers/articleController.js:11-27 | with a positive limit, a page at or after the first holds articles exactly when its number is at most `pages` |
| `ArticleService.RenderedPaging` | frontend/src/services/api.js:37-38 | the page and limit the client puts in the query string are the ones the handler reads back, for safe integers |
| `ArticleService.CreatePreservesValid` | backend/controllers/articleController.js:53-62 | creation under a fresh id keeps article ids distinct |
| `ArticleService.UpdatePreservesValid` | backend/controllers/articleController.js:67-92 | updates keep article ids distinct |
| `ArticleService.DeletePreservesValid` | backend/controllers/articleController.js:97-131 | deletion keeps ids distinct, and after a successful delete the id is gone |
| `ArticleService.NoAdminBypass` | backend/controllers/articleController.js:76-79 | an administrator who is not the author is refused 401 on update and delete and changes nothing |
| `ArticleService.AuthorCanHandOver` | backend/controllers/articleController.js:81-86 | an author can move their article to another user, and afterwards can no longer update it |
| `ArticleRoutes.Gate` | backend/routes/articleRoutes.js:13-22 | reads always pass; writes pass exactly when a user is attached, and otherwise get 401 |
| `ArticleRoutes.Dispatch` | backend/routes/articleRoutes.js:13-22 | a rejected request changes nothing; reads never change the articles; any change comes from a signed-in write that succeeded |
| `ArticleRoutes.ReadsArePublic` | backend/routes/articleRoutes.js:15-20 | the answer to a read is the same whoever asks |
| `ArticleRoutes.AnonymousCannotWrite` | backend/routes/articleRoutes.js:16-22 | every write without a user is answered 401 and leaves the articles alone |
| `ArticleRoutes.RoleIsIrrelevant` | backend/routes/articleRoutes.js:13-22 | no article endpoint depends on the requester's role |
| `SoftwareSchema.CheckTitle` | backend/models/Software.js:4-9 | a title is accepted exactly when its trim is non-empty and at most 100 UTF-16 units; the stored title is the trim |
| `SoftwareSchema.CheckRequired` | backend/models/Software.js:10-21 | a required string is accepted exactly when present and non-empty; otherwise the field's message |
| `SoftwareSchema.CheckEnum` | backend/models/Software.js:51-80 | an enumerated field is accepted exactly when absent or listed; absent takes the default |
| `SoftwareSchema.NormaliseMeta` | backend/models/Software.js:35-107 | `meta` is accepted exactly when its four enumerations are; the result satisfies them and has every default filled in |
| `SoftwareSchema.Normalise` | backend/models/Software.js:3-120 | a body is stored exactly when title, description, appUrl, author and `meta` validate; the document has the trimmed title, each optional field from the body or its default (version 1.0.0, private, no tags, `meta` defaults), and each timestamp from the body or else the creation time |
| `SoftwareSchema.ApplyUpdate` | backend/controllers/softwareController.js:73-78 | an update succeeds exactly when each sent field is valid; the result keeps the id, takes every sent field (title trimmed, `meta` read back with its defaults) and keeps every other stored field, with `updatedAt` always the update time |
| `SoftwareSchema.MinimalBodyDefaults` | backend/models/Software.js:14-106 | a body with only title, description and appUrl gets every schema default, and all three timestamps are the creation time |
| `SoftwareSchema.BlankTitleRejected` | backend/models/Software.js:4-9 | a white-space title is a missing title |
| `SoftwareSchema.AuthorRequiredOnCreate` | backend/models/Software.js:29-33 | a document without an author is refused with the author error |
| `SoftwareSchema.NormaliseMetaStored` | backend/models/Software.js:35-107 | casting a stored `meta` gives it back unchanged |
| `SoftwareSchema.NormaliseStored` | backend/models/Software.js:3-120 | creating from all of a stored document's fields, timestamps included, gives that document back |
| `SoftwareSchema.UpdateFrame` | backend/controllers/softwareController.js:73-78 | an update keeps the id, stamps `updatedAt`, and keeps every field the body does not send, the creation and modification times included |
| `SoftwareSchema.UpdateKeepsWellFormed` | backend/controllers/softwareController.js:75-78 | an update run with validators keeps a stored document within the schema |
| `SoftwareSchema.UpdateWithStoredIsNoChange` | backend/controllers/softwareController.js:73-78 | sending a stored document back as an update changes only `updatedAt` |
| `SoftwareService.GetSoftware` | backend/controllers/softwareController.js:7-23 | newest first with count its length; without a user exactly the public documents, each as often as stored; with one, a permutation of all of them |
| `SoftwareService.GetSingleSoftware` | backend/controllers/softwareController.js:28-46 | 404 for an unknown id, then 401 for a private document without a user; succeeds exactly when the document exists and is public or read by a user, and then answers the stored document |
| `SoftwareService.CreateSoftware` | backend/controllers/softwareController.js:51-60 | 201 exactly when the body validates with the requester as author; the stored document is the validated body under the fresh id, well-formed, authored by the requester and appended; a failure is 500 and stores nothing |
| `SoftwareService.UpdateSoftware` | backend/controllers/softwareController.js:65-84 | 404 for an unknown id; a validation failure stores nothing; a valid update succeeds, answers the updated document, which the id then finds in the collection, and leaves every other document alone |
| `SoftwareService.DeleteSoftware` | backend/controllers/softwareController.js:89-103 | 404 exactly when the id is unknown; otherwise exactly the documents with other ids remain, in their order (`Docs.Filter`), and `data` is empty |
| `SoftwareService.AnonymousSeesExactlyPublic` | backend/controllers/softwareController.js:8-16 | an anonymous listing holds a document exactly when it is stored and public |
| `SoftwareService.SignedInSeesAll` | backend/controllers/softwareController.js:9-16 | a listing for a user holds every stored document |
| `SoftwareService.SignedInReadsPrivate` | backend/controllers/softwareController.js:36-45 | a user reading any stored document by its id gets it |
| `SoftwareService.CreatePreservesValid` | backend/controllers/softwareController.js:51-60 | creation under a fresh id keeps ids distinct and every document well-formed |
| `SoftwareService.UpdatePreservesValid` | backend/controllers/softwareController.js:65-84 | updates keep ids distinct and every document well-formed |
| `SoftwareService.DeletePreservesValid` | backend/controllers/softwareController.js:89-103 | deletion keeps the collection valid and the id is gone afterwards |
| `SoftwareRoutes.Gate` | backend/routes/softwareRoutes.js:14-23 | reads pass; create and update pass exactly for admins and editors, delete exactly for admins; 401 without a user, 403 with the wrong role |
| `SoftwareRoutes.Route` | backend/routes/softwareRoutes.js:14-23 | a rejected request changes nothing; reads change nothing; any change comes from a signed-in admin or editor whose write succeeded |
| `SoftwareRoutes.Dispatch` | backend/routes/softwareRoutes.js:14-23 | as mounted: reads return only public software, whoever asks |
| `SoftwareRoutes.DispatchIntended` | backend/controllers/softwareController.js:8-40 | with the requester passed to the reads, a signed-in read succeeds exactly when the id exists |
| `SoftwareRoutes.RoutingsAgree` | backend/routes/softwareRoutes.js:14-23 | the mounted and the intended routing differ only on reads by a signed-in user |
| `SoftwareRoutes.SignedInRefusedPrivate` | backend/routes/softwareRoutes.js:21 | as mounted, a signed-in user reading a private document is refused 401 |
| `SoftwareRoutes.SignedInListsOnlyPublic` | backend/routes/softwareRoutes.js:16 | as mounted, a signed-in user's listing holds exactly the public documents |
| `SoftwareRoutes.IntendedSignedInReadsPrivate` | backend/controllers/softwareController.js:36-45 | with the requester passed on, a signed-in user reads a private document |
| `SoftwareRoutes.IntendedListing` | backend/controllers/softwareController.js:8-16 | with the requester passed on, a listing holds a stored document exactly when it is public or a user asks |
| `SoftwareRoutes.WriteGates` | backend/routes/softwareRoutes.js:17-23 | plain users cannot write and editors cannot delete: 403 and no change |
| `SoftwareRoutes.UpdateIgnoresOwnership` | backend/controllers/softwareController.js:65-84 | any two admins or editors updating a document get the same outcome; no ownership is checked |
| `AdminService.Strip` | backend/controllers/adminController.js:8 | `select('-password')`: every field but the password is kept |
| `AdminService.StripAll` | backend/controllers/adminController.js:8 | every record of a listing is stripped, position by position |
| `AdminService.GetUsers` | backend/controllers/adminController.js:7-15 | every user, newest first, without passwords, count the total |
| `AdminService.GetUser` | backend/controllers/adminController.js:20-32 | succeeds exactly when the id is known, with the stored user without the password; 404 exactly when it is unknown |
| `AdminService.UpdateUserRole` | backend/controllers/adminController.js:37-59 | 400 for a missing or unknown role before 404 for an unknown id; on success only that user's role changes and the reply is the user without the password |
| `AdminService.StripForgetsOnlyPassword` | backend/controllers/adminController.js:8-21 | two records look alike without passwords exactly when they differ at most in the password |
| `AdminService.UpdateRolePreservesValid` | backend/controllers/adminController.js:52-53 | a role update keeps user ids distinct |
| `AdminService.UpdateRoleIdempotent` | backend/controllers/adminController.js:37-59 | setting the same role twice is the same as setting it once |
| `AdminService.UpdateRoleKeepsPasswords` | backend/controllers/adminController.js:45-53 | saving a role keeps every user's id and password hash |
| `AdminService.ReadAfterRoleUpdate` | backend/controllers/adminController.js:20-59 | after a successful role update, reading the user back answers exactly what the update answered |
| `AdminRoutes.Dispatch` | backend/routes/adminRoutes.js:13-22 | without a user 401 and with a non-admin 403, changing nothing; only an admin's role update changes the users |
| `AdminRoutes.AdminReachesHandlers` | backend/routes/adminRoutes.js:13-22 | for an administrator every request reaches its handler unchanged |
| `AdminRoutes.AdminCanDemoteSelf` | backend/controllers/adminController.js:37-59 | an administrator can take away their own admin role |
| `ClientApi.ErrorText` | frontend/src/stores/software.js:62 | `error.response?.data?.message || fallback`: the server's message when the error response carries a non-empty one, the fallback otherwise (and always for a lost connection) |
| `ClientApi.ErrorTextNeverEmpty` | frontend/src/stores/software.js:62 | with a non-empty fallback the recorded error text is never empty |
| `SoftwareStore.Failed` | frontend/src/stores/software.js:60-65 | a failure keeps the list and the displayed record and records the server's message or the action's fallback, never an empty text when the fallback is not empty |
| `SoftwareStore.ByStatus` | frontend/src/stores/software.js:35-38 | `all` gives the whole list; any other status gives the listed records with that status, each as often as listed, in list order (`Docs.Filter`) |
| `SoftwareStore.FetchSoftware` | frontend/src/stores/software.js:42-74 | the list becomes the server's and is returned; a failure is exactly the common failure path (list kept, error recorded) and rethrows |
| `SoftwareStore.FetchSoftwareById` | frontend/src/stores/software.js:160-175 | the displayed record becomes the server's; a failure records the error and rethrows; the list is never touched |
| `SoftwareStore.CreateSoftware` | frontend/src/stores/software.js:177-192 | the created record goes to the front of the list; a failure changes only the error |
| `SoftwareStore.UpdateSoftware` | frontend/src/stores/software.js:194-219 | the first listed record with the id, and the displayed record if it has the id, become the server's |
| `SoftwareStore.DeleteSoftware` | frontend/src/stores/software.js:221-243 | exactly the listed records with other ids remain, in their order (`Docs.Filter`); the display is cleared if it showed the id; `true` is returned |
| `SoftwareStore.ByStatusMembership` | frontend/src/stores/software.js:35-38 | a record is in a status view exactly when it is listed with that status |
| `SoftwareStore.CreateThenDelete` | frontend/src/stores/software.js:177-243 | creating a record with a fresh id and deleting it restores the list |
| `SoftwareStore.UpdateKeepsIdsUnique` | frontend/src/stores/software.js:194-219 | an update that keeps the id keeps listed ids distinct |
| `SoftwareStore.DeleteRemovesEverywhere` | frontend/src/stores/software.js:221-243 | after a delete neither the list nor the display holds the id |
| `SoftwareStore.FetchShowsServerListing` | frontend/src/stores/software.js:42-74 | fetching the handler's listing shows it newest first: every stored record for a user, exactly the public ones for an anonymous visitor |
| `SoftwareStore.FetchByIdShowsServerRecord` | frontend/src/stores/software.js:160-175 | fetching by id shows the stored record the handler answers; an unknown id records "Software not found" and a private one read anonymously the refusal, keeping the display and rethrowing |
| `ArticleStore.Failed` | frontend/src/stores/articles.js:29-39 | no response sets the connection flag and the fixed message; an error response records the server's message or the fallback; the cached data stays |
| `ArticleStore.FetchArticles` | frontend/src/stores/articles.js:19-43 | the page and pagination become the server's; an error response is exactly the common failure path; a lost connection is that path with the list emptied; a failure returns `[]` |
| `ArticleStore.FetchArticle` | frontend/src/stores/articles.js:45-67 | the displayed article becomes the server's; an error response is exactly the common failure path; a lost connection is that path with the display cleared; a failure returns `null` |
| `ArticleStore.CreateArticle` | frontend/src/stores/articles.js:69-92 | the created article is listed first only while page 1 is shown |
| `ArticleStore.UpdateArticle` | frontend/src/stores/articles.js:94-118 | the first listed article with the id becomes the server's version |
| `ArticleStore.DeleteArticle` | frontend/src/stores/articles.js:120-141 | the result is whether the request succeeded; on success exactly the listed articles with other ids remain, in their order (`Docs.Filter`) |
| `ArticleStore.ResetState` | frontend/src/stores/articles.js:144-154 | everything returns to the initial state except the pending flag |
| `ArticleStore.FetchShowsServerListing` | frontend/src/stores/articles.js:19-28 | fetching the handler's listing shows its page newest first with the total of all articles |
| `ArticleStore.ResetClearsFailures` | frontend/src/stores/articles.js:144-154 | after a reset no earlier error or connection failure remains and page 1 is shown |
| `ArticleStore.CreateThenDelete` | frontend/src/stores/articles.js:69-141 | on page 1, creating an article with a fresh id and deleting it restores the list |
| `ArticleStore.FetchShowsServerArticle` | frontend/src/stores/articles.js:45-67 | fetching by id shows a stored article with that id; an unknown id records "Article not found", keeps the display and returns `null` |
| `ArticleStore.UpdateKeepsIdsUnique` | frontend/src/stores/articles.js:94-118 | an update that keeps the id keeps listed ids distinct |
| `ArticleStore.UpdateShowsServerVersion` | frontend/src/stores/articles.js:94-118 | after the handler's successful update, looking the id up in the list finds the server's version |
| `AdminStore.FetchUsers` | frontend/src/stores/admin.js:32-46 | the list becomes the server's; a failure keeps it, records the error and returns `[]` |
| `AdminStore.FetchUser` | frontend/src/stores/admin.js:48-62 | the displayed user becomes the server's; a failure returns `null` |
| `AdminStore.UpdateUserRole` | frontend/src/stores/admin.js:64-84 | the first listed user with the id becomes the server's version; the displayed user is not updated |
| `AdminStore.Failed` | frontend/src/stores/admin.js:40-43 | a failure keeps the users and the displayed user and records the server's message or the action's fallback |
| `AdminStore.RoleChangeReachesList` | frontend/src/stores/admin.js:64-84 | a role change the server makes shows in the list as exactly that user's new role |
| `AdminStore.FetchUsersShowsServerListing` | frontend/src/stores/admin.js:32-46 | fetching the handler's listing shows every stored user once, without the password, newest first, and nothing else |
| `AdminStore.StrippedListing` | backend/controllers/adminController.js:8 | a newest-first arrangement of the users, stripped, holds each stored user and only them, newest first |
| `AdminStore.FetchUserShowsServerRecord` | frontend/src/stores/admin.js:48-62 | fetching one user shows the stored user without the password; an unknown id records "User not found", keeps the display and returns `null` |
| `AuthStore.Initial` | frontend/src/stores/auth.js:6-11 | a token is held exactly when a non-empty one is stored |
| `AuthStore.IsAuthenticated` | frontend/src/stores/auth.js:14 | `!!token && !!user`: authenticated exactly when there is a user and a token that a reload would read back as a token, that is, a non-empty one |
| `AuthStore.SignIn` | frontend/src/stores/auth.js:18-56 | success stores user and token, persists the token and opens the articles page; failure only records the error |
| `AuthStore.Register` | frontend/src/stores/auth.js:18-36 | returns whether registration succeeded; a failure keeps the session and records the server's message or "Registration failed" |
| `AuthStore.Login` | frontend/src/stores/auth.js:38-56 | returns whether login succeeded; a failure keeps the session and records the server's message or "Login failed" |
| `AuthStore.Logout` | frontend/src/stores/auth.js:75-80 | user, token and stored token are dropped and the login page opened |
| `AuthStore.FetchCurrentUser` | frontend/src/stores/auth.js:58-73 | without a token nothing happens; otherwise the user is refreshed, or a failure logs out; no error is ever recorded |
| `AuthStore.SignInAuthenticates` | frontend/src/stores/auth.js:14-48 | a successful sign-in authenticates and its token survives a reload |
| `AuthStore.FailedSignInKeepsSession` | frontend/src/stores/auth.js:30-32 | a failed sign-in leaves authentication and the stored token as they were |
| `AuthStore.LogoutIsFinal` | frontend/src/stores/auth.js:75-80 | after logout nobody is authenticated, now or after a reload |
| `AuthStore.ReloadThenFetch` | frontend/src/stores/auth.js:6-73 | a reloaded page is unauthenticated until the fetch, which authenticates exactly when a non-empty token was stored and the request succeeds |
| `PantheonStore.Stamped` | frontend/src/stores/pantheon.js:100-104 | the new object has the data's keys plus `id` and `createdAt`; `createdAt` is the time, `id` is the data's own id if it has one, else the clock |
| `PantheonStore.ContentFeed` | frontend/src/stores/pantheon.js:34-39 | every scraped item, latest first |
| `PantheonStore.ContentBySource` | frontend/src/stores/pantheon.js:41-43 | exactly the items of the source, each as often as stored, in stored order (see `PantheonStore.ContentBySourceKeepsOrder`) |
| `PantheonStore.AddSource` | frontend/src/stores/pantheon.js:92-114 | the stamped source is put at the front and returned |
| `PantheonStore.UpdateSource` | frontend/src/stores/pantheon.js:116-140 | the first source with the id is merged with the data and stamped; without one nothing changes and `null` is returned |
| `PantheonStore.AddSchedule` | frontend/src/stores/pantheon.js:142-164 | the stamped schedule is put at the front and returned |
| `PantheonStore.RunScraper` | frontend/src/stores/pantheon.js:166-181 | reports success and changes nothing |
| `PantheonStore.FeedHoldsEverySourceItem` | frontend/src/stores/pantheon.js:34-43 | an item of a source is in the feed exactly when it is in that source's view |
| `PantheonStore.DataIdWins` | frontend/src/stores/pantheon.js:100-103 | an `id` in the data overrides the clock's id |
| `PantheonStore.UpdateSourceFrame` | frontend/src/stores/pantheon.js:124-133 | an update without an `id` keeps the source's id and touches no other source |
| `PantheonStore.ContentBySourceKeepsOrder` | frontend/src/stores/pantheon.js:41-43 | the view of two stretches of content one after the other is the view of the first followed by that of the second |
| `PantheonStore.ContentBySourceSingle` | frontend/src/stores/pantheon.js:41-43 | a single item is in the view exactly when it is from the source; with the previous row this fixes the view and its order |
| `PantheonStore.ScheduleDataIdWins` | frontend/src/stores/pantheon.js:150-153 | an `id` in a schedule's data overrides the clock's id |
| `PantheonStore.AddedScheduleFoundFirst` | frontend/src/stores/pantheon.js:142-164 | a schedule just added is the first one its id finds, and sources and content are untouched |
| `PantheonStore.AddThenUpdateSource` | frontend/src/stores/pantheon.js:92-140 | updating the id of a source just added merges the data into that source |
| `PantheonStore.ScraperRunKeepsData` | frontend/src/stores/pantheon.js:166-181 | running the scraper leaves sources, schedules and both content views as they were |
| `RouterGuard.RequiresAuth` | frontend/src/router/index.js:183 | true exactly when some matched record requires authentication |
| `RouterGuard.BeforeEach` | frontend/src/router/index.js:181-190 | navigation proceeds exactly when the target needs no authentication or the session is authenticated; otherwise login with the target as redirect |
| `RouterGuard.OnlyRequiresAuthCounts` | frontend/src/router/index.js:183 | targets that agree record by record on `requiresAuth` are guarded alike |
| `RouterGuard.GuestFlagIgnored` | frontend/src/router/index.js:30-41 | the login and register pages open whether or not someone is signed in |
| `RouterGuard.AdminPagesOpenToEveryRole` | frontend/src/router/index.js:155-169 | the user-management pages open for any signed-in user whatever the role |
| `RouterGuard.OnlyFourOpenPages` | frontend/src/router/index.js:24-177 | every page but home, login, register and the catch-all requires authentication |

## Left out

- Authentication itself: verifying the JWT, loading the user and the
  auth routes are not part of this model. `protect` is modelled only as
  "no user means 401", with the message "Not authorized".
- backend/models/Article.js and backend/models/User.js are not part of
  this model. Only title, content, tags and author are read from an
  article body, with no validation; the id, the timestamps and, on
  creation, the author are set by the handler.
  User records are taken as given.
- The error middleware is not part of this model. A thrown error is
  assumed to become `{ success: false, message }` with the status the
  handler set, or 500 when it left 200. A validation message is modelled
  as "Software validation failed: " on creation and "Validation failed: "
  on update, followed by the failed paths with their messages; the order
  in which Mongoose lists the paths is not claimed.
- `populate('author', 'name email')` is left out: a reply carries the
  author's id, not the author's name and e-mail.
- Cast errors for malformed ids are left out. An id is an opaque string,
  and an unknown id answers 404.
- Date parsing, time zones and ISO strings are left out. Times are
  integers and ISO strings are parameters.
- The pending state of requests is left out. Every settled client state
  has `loading` false, and no two requests overlap.
- The development-only mock data of the software store, and the mock
  loads `fetchSources`, `fetchScrapedContent` and `fetchSchedules` of the
  content store, are left out. They read fixed demo data and call no
  server.
- frontend/src/stores/theme.js, autobots.js, the views and the seed
  scripts are outside the modelled core.
- The axios interceptor that adds the bearer header is left out.
- `router.push` is left out: its target is returned, not followed.
- ArticleService.GetArticles: the negative-skip refusal is modelled as a
  500 with a fixed message. The real text is the database driver's. The
  order of articles with equal `createdAt` is not stated, as MongoDB does
  not define it.
- JsText.QueryNumber: integers are exact and unbounded, while JavaScript
  numbers are doubles. `parseInt` rounds beyond 2^53 - 1, `String` switches
  to exponent notation from 10^21, and `(page - 1) * limit` and
  `Math.ceil(total / limit)` round as well. So `JsText.ParseDecimalString`,
  `JsText.QueryOfRenderedNumber` and `ArticleService.RenderedPaging` promise
  their round trip only for safe integers, and beyond them the model
  computes exactly where the program would round.
- Handlers are treated as atomic: no other request runs between a
  handler's lookup and its write. So the second 404 "Failed to delete
  article" of articleController.js:113-118, which needs a concurrent delete,
  is never produced, and `findByIdAndUpdate` in the software update always
  finds the document its lookup found.
- PantheonStore.Value: numbers, strings, booleans and `null` only. The
  store compares ids with `===`, which compares objects and arrays by
  identity, and a value model has no identity to compare.
- ArticleService.CreateArticle: it never fails, because the Article
  schema that could refuse a body is not part of this model.
- ArticleService.ApplyBody: an explicit JSON `null` for title, content,
  tags or author is read as a field not sent, and the stored value is
  kept. `findByIdAndUpdate` would set the field to null instead, or fail
  with 500 if the Article schema requires it.
- ArticleService.UpdateArticle: it inherits ApplyBody's reading of
  `null`. It answers 200 with the old value where the program stores null
  or answers 500. After an update with `"author": null`, the program
  answers 500 to every later update or delete of that article, because
  `article.author.toString()` throws; the model has no null author.
- PantheonStore.ContentFeed: it states the newest-first order and the
  permutation but not how items scraped at the same instant are ordered.
  It assumes every `scrapedAt` parses to a date.
- SoftwareService.GetSoftware: the order of documents with equal
  `createdAt` is not stated. MongoDB does not define it either.
- SoftwareSchema.Normalise: it refuses a missing author with Mongoose's
  default message. A body's `_id` is not read: the id is a parameter.
  An explicit JSON `null` in the body is read as an absent field, while
  Mongoose applies a default only to `undefined`: a body with
  `"version": null` (or `null` for any other defaulted field) is stored
  with that field null, where the model fills in the default.
- SoftwareSchema.ApplyUpdate: an explicit JSON `null` is read as a field
  not sent, while Mongoose sets the field to null. So `"title": null` (or
  `null` for description or appUrl) fails the `required` validator under
  `runValidators` and is answered 500, where the model keeps the stored
  value and succeeds; and `"iconUrl": null` clears the icon, where the
  model keeps it. SoftwareService.CreateSoftware and
  SoftwareService.UpdateSoftware inherit both. The checks for `ObjectId` format and for casting
  non-string values are left out.

## Findings

| source | as written | input that shows it | evidently intended | confidence | as-written member | corrected member |
|---|---|---|---|---|---|---|
| backend/routes/softwareRoutes.js:16-21 | the two GET routes run no `protect`, so `req.user` is never set and the handlers treat every reader as anonymous | a signed-in editor requests `GET /api/software/:id` for a private document and gets 401; a signed-in listing omits every private document | the handlers' comments (softwareController.js:6-11 and 27-40) promise signed-in users private software, so the reads should see the requester when one is signed in (optional authentication) | not executed | `SoftwareRoutes.Dispatch` (with `SoftwareRoutes.SignedInRefusedPrivate`, `SoftwareRoutes.SignedInListsOnlyPublic`) | `SoftwareRoutes.DispatchIntended` (with `SoftwareRoutes.IntendedSignedInReadsPrivate`, `SoftwareRoutes.IntendedListing`) |
