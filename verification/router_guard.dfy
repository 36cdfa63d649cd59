/**
 The client's route table and its global navigation guard
 (frontend/src/router/index.js). Only `requiresAuth` is enforced: the
 `requiresGuest`, `editorOnly` and `requiresEditor` flags some routes carry
 are read by nothing, and the admin pages carry no role flag at all. Which
 records a URL matches is decided by the router library and is an input
 here.
 */
module RouterGuard {
  import opened Common
  import AuthStore

  datatype RouteMeta = RouteMeta(requiresAuth: bool, requiresGuest: bool, editorOnly: bool, requiresEditor: bool)

  datatype RouteRecord = RouteRecord(name: string, path: string, meta: RouteMeta)

  /** A resolved navigation target: the records it matched, outermost first, and its full path. */
  datatype Location = Location(matched: seq<RouteRecord>, fullPath: string)

  /** `next()`, or `next({ name: 'login', query: { redirect: fullPath } })`. */
  datatype Decision = Proceed | RedirectToLogin(redirect: string)

  const Open: RouteMeta := RouteMeta(false, false, false, false)
  const Guest: RouteMeta := RouteMeta(false, true, false, false)
  const Auth: RouteMeta := RouteMeta(true, false, false, false)

  const Home: RouteRecord := RouteRecord("home", "/", Open)
  const Login: RouteRecord := RouteRecord("login", "/login", Guest)
  const Register: RouteRecord := RouteRecord("register", "/register", Guest)
  const Admin: RouteRecord := RouteRecord("admin", "/admin", Auth)
  const AdminUsers: RouteRecord := RouteRecord("admin-users", "users", Auth)
  const NotFound: RouteRecord := RouteRecord("not-found", "/:pathMatch(.*)*", Open)

  /** The top-level route table in declaration order; `AdminUsers` is the child of `Admin`. */
  const Routes: seq<RouteRecord> := [
    Home, Login, Register,
    RouteRecord("articles", "/articles", Auth),
    RouteRecord("article-create", "/articles/create", Auth),
    RouteRecord("article-edit", "/articles/:id/edit", Auth),
    RouteRecord("article-detail", "/articles/:id", Auth),
    RouteRecord("software", "/software", Auth),
    RouteRecord("software-detail", "/software/:id", Auth),
    RouteRecord("software-create", "/software/create", RouteMeta(true, false, true, false)),
    RouteRecord("taskapp", "/apps/taskapp", Auth),
    RouteRecord("budgettracker", "/apps/budgettracker", Auth),
    RouteRecord("weatherdashboard", "/apps/weatherdashboard", RouteMeta(true, false, false, true)),
    RouteRecord("cms", "/apps/cms", Auth),
    RouteRecord("ecommerce", "/apps/ecommerce", Auth),
    RouteRecord("autobots", "/autobots", Auth),
    RouteRecord("autobot-detail", "/autobots/:id", Auth),
    RouteRecord("pantheon", "/pantheon", Auth),
    RouteRecord("pantheon-configure", "/pantheon/configure", Auth),
    RouteRecord("pantheon-schedule", "/pantheon/schedule", Auth),
    Admin,
    NotFound
  ]

  /** `to.matched.some(record => record.meta.requiresAuth)`. */
  function RequiresAuth(matched: seq<RouteRecord>): (b: bool)
    ensures b <==> exists k :: 0 <= k < |matched| && matched[k].meta.requiresAuth
  {
    if |matched| == 0 then false
    else matched[0].meta.requiresAuth || RequiresAuth(matched[1..])
  }

  /** The `beforeEach` guard. */
  function BeforeEach(to: Location, auth: AuthStore.State): (d: Decision)
    ensures d.Proceed? <==> !RequiresAuth(to.matched) || AuthStore.IsAuthenticated(auth)
    ensures d.RedirectToLogin? ==> d.redirect == to.fullPath
  {
    if RequiresAuth(to.matched) && !AuthStore.IsAuthenticated(auth) then RedirectToLogin(to.fullPath)
    else Proceed
  }

  // ---------------------------------------------------------------------
  // Properties
  // ---------------------------------------------------------------------

  /** The guard sees only `requiresAuth`: targets that agree on it record by record are treated alike. */
  lemma {:induction false} OnlyRequiresAuthCounts(a: seq<RouteRecord>, b: seq<RouteRecord>)
    requires |a| == |b|
    requires forall k :: 0 <= k < |a| ==> a[k].meta.requiresAuth == b[k].meta.requiresAuth
    ensures RequiresAuth(a) == RequiresAuth(b)
  {
    if |a| > 0 {
      OnlyRequiresAuthCounts(a[1..], b[1..]);
    }
  }

  /** Signed-in users are not kept off the login and register pages, and the login page is never redirected. */
  lemma GuestFlagIgnored(auth: AuthStore.State, fullPath: string)
    ensures BeforeEach(Location([Login], fullPath), auth) == Proceed
    ensures BeforeEach(Location([Register], fullPath), auth) == Proceed
  {
  }

  /** The user-management page opens for any signed-in user, whatever the role. */
  lemma AdminPagesOpenToEveryRole(auth: AuthStore.State, fullPath: string)
    requires AuthStore.IsAuthenticated(auth)
    ensures BeforeEach(Location([Admin, AdminUsers], fullPath), auth) == Proceed
  {
  }

  /** Every page but home, login, register and the catch-all requires a signed-in user. */
  lemma OnlyFourOpenPages(k: nat)
    requires k < |Routes|
    ensures !Routes[k].meta.requiresAuth <==> Routes[k].name in {"home", "login", "register", "not-found"}
  {
  }
}
