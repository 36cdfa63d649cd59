/**
 Shared vocabulary of the catalog backend and its single-page client:
 optional values, document ids, the three user roles, the user that the
 authentication middleware attaches to a request, and the HTTP status codes
 the handlers answer with.
 */
module Common {

  /** A value that may be absent (`undefined` in the source; an explicit `null` is read as absent too). */
  datatype Option<+T> = None | Some(value: T)

  /** The outcome of an operation that can fail with an error value. */
  datatype Result<+T, +E> = Success(value: T) | Failure(error: E)

  /** Document ids are opaque strings; their ObjectId format is not modelled. */
  type Id = string

  /** The `role` field of a user record: `user`, `editor` or `admin`. */
  datatype Role = UserRole | EditorRole | AdminRole

  /** The role as it is written in the database and in request bodies. */
  function RoleName(r: Role): string
  {
    match r
    case UserRole => "user"
    case EditorRole => "editor"
    case AdminRole => "admin"
  }

  /** Reads a role from its wire spelling; every other string is no role. */
  function ParseRole(s: string): (r: Option<Role>)
    ensures r.Some? ==> RoleName(r.value) == s
    ensures r.None? ==> forall role: Role :: RoleName(role) != s
  {
    if s == "user" then Some(UserRole)
    else if s == "editor" then Some(EditorRole)
    else if s == "admin" then Some(AdminRole)
    else None
  }

  /** Parsing the spelling of a role gives that role back. */
  lemma ParseRoleName(r: Role)
    ensures ParseRole(RoleName(r)) == Some(r)
  {
  }

  /** The user attached to a request once authentication has succeeded. */
  datatype Principal = Principal(id: Id, role: Role)

  const StatusOk: int := 200
  const StatusCreated: int := 201
  const StatusBadRequest: int := 400
  const StatusUnauthorized: int := 401
  const StatusForbidden: int := 403
  const StatusNotFound: int := 404
  const StatusServerError: int := 500
}
