/**
 The role middleware `authorize(...roles)` (backend/middleware/roleMiddleware.js)
 and the authentication middleware `protect`, seen from the routes that chain
 them. `protect` itself (token parsing, JWT verification, user lookup) is not
 part of this model: its outcome is the optional `Principal` handed in.
 */
module RoleGate {
  import opened Common

  /** What a middleware does with a request: hand it on, or answer it. */
  datatype GateResult = Next | Reject(status: int, message: string)

  const InsufficientPermissions: string := "Unauthorized: Insufficient permissions"

  /** The message of `protect`'s 401 answer; the middleware's source is not part of this model. */
  const NotAuthenticated: string := "Not authorized"

  /**
   `authorize(...roles)`: a request passes exactly when a user is attached and
   that user's role is one of `roles`; every other request is answered 403.
   */
  function Authorize(roles: seq<Role>, user: Option<Principal>): (g: GateResult)
    ensures g.Next? <==> user.Some? && user.value.role in roles
    ensures g.Reject? ==> g == Reject(StatusForbidden, InsufficientPermissions)
  {
    if user.None? || user.value.role !in roles then
      Reject(StatusForbidden, InsufficientPermissions)
    else
      Next
  }

  /** `protect`, abstracted: a request with no authenticated user is answered 401. */
  function Protect(user: Option<Principal>): (g: GateResult)
    ensures g.Next? <==> user.Some?
    ensures g.Reject? ==> g.status == StatusUnauthorized
  {
    if user.Some? then Next else Reject(StatusUnauthorized, NotAuthenticated)
  }

  /** Two middlewares in a row: the second runs only when the first hands the request on. */
  function Then(first: GateResult, second: GateResult): (g: GateResult)
    ensures g.Next? <==> first.Next? && second.Next?
    ensures first.Reject? ==> g == first
  {
    if first.Reject? then first else second
  }

  /** `protect, authorize(...roles)`: 401 without a user, 403 for a role outside `roles`. */
  function ProtectAndAuthorize(roles: seq<Role>, user: Option<Principal>): (g: GateResult)
    ensures g.Next? <==> user.Some? && user.value.role in roles
    ensures user.None? ==> g == Reject(StatusUnauthorized, NotAuthenticated)
    ensures user.Some? && user.value.role !in roles ==> g == Reject(StatusForbidden, InsufficientPermissions)
  {
    Then(Protect(user), Authorize(roles, user))
  }

  /** With no accepted role, every request is refused. */
  lemma EmptyRoleListRejectsAll(user: Option<Principal>)
    ensures Authorize([], user) == Reject(StatusForbidden, InsufficientPermissions)
  {
  }

  /** Accepting more roles never refuses a request that was let through. */
  lemma AuthorizeMonotone(roles: seq<Role>, more: seq<Role>, user: Option<Principal>)
    requires forall r :: r in roles ==> r in more
    ensures Authorize(roles, user).Next? ==> Authorize(more, user).Next?
  {
  }

  /** The gate looks at the role only: two users with the same role get the same answer. */
  lemma AuthorizeIgnoresIdentity(roles: seq<Role>, a: Principal, b: Principal)
    requires a.role == b.role
    ensures Authorize(roles, Some(a)) == Authorize(roles, Some(b))
  {
  }
}
