/**
 backend/routes/adminRoutes.js: the whole router sits behind `protect` and
 `authorize('admin')`, so every endpoint answers only administrators.
 */
module AdminRoutes {
  import opened Common
  import opened RoleGate
  import AS = AdminService

  datatype Request =
    | ListUsers
    | ReadUser(id: Id)
    | UpdateRole(id: Id, role: Option<string>)

  const Admins: seq<Role> := [AdminRole]

  /** The request after the router-wide gate. */
  function Dispatch(store: seq<AS.UserRecord>, req: Request, user: Option<Principal>): (o: AS.Outcome)
    ensures (user.None? || user.value.role != AdminRole) ==> o.store == store && o.reply.Error?
    ensures user.None? ==> o.reply == AS.Error(StatusUnauthorized, NotAuthenticated)
    ensures (user.Some? && user.value.role != AdminRole) ==> o.reply == AS.Error(StatusForbidden, InsufficientPermissions)
    ensures o.store != store ==> req.UpdateRole? && user.Some? && user.value.role == AdminRole
  {
    match ProtectAndAuthorize(Admins, user)
    case Reject(status, message) => AS.Outcome(store, AS.Error(status, message))
    case Next =>
      match req
      case ListUsers => AS.Outcome(store, AS.GetUsers(store))
      case ReadUser(id) => AS.Outcome(store, AS.GetUser(store, id))
      case UpdateRole(id, role) => AS.UpdateUserRole(store, id, role)
  }

  /** For an administrator the router is transparent: each request reaches its handler. */
  lemma AdminReachesHandlers(store: seq<AS.UserRecord>, req: Request, admin: Principal)
    requires admin.role == AdminRole
    ensures req.ListUsers? ==> Dispatch(store, req, Some(admin)).reply == AS.GetUsers(store)
    ensures req.ReadUser? ==> Dispatch(store, req, Some(admin)).reply == AS.GetUser(store, req.id)
    ensures req.UpdateRole? ==> Dispatch(store, req, Some(admin)) == AS.UpdateUserRole(store, req.id, req.role)
  {
  }

  /** An administrator may demote themselves; nothing in the router or handler prevents it. */
  lemma AdminCanDemoteSelf(admin: AS.UserRecord)
    requires admin.role == AdminRole
    ensures var o := Dispatch([admin], UpdateRole(admin.id, Some("user")), Some(Principal(admin.id, AdminRole)));
            o.reply.Ok? && o.store == [admin.(role := UserRole)]
  {
  }
}
