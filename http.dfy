/**
 * What the route handlers share: the signed-in user of a session, the
 * organization it belongs to, the roles that may write, and the
 * responses, reduced to their status codes and bodies.
 */
module Http {
  import opened Js

  /**
   * `session.user`: its `organizationId`, the `id` of its `organization`
   * relation (`None` when the relation is not loaded) and its role.
   */
  datatype User = User(organizationId: string, organizationRef: Option<string>, role: string)

  /** `session.user.organizationId || session.user.organization?.id`; `None` is a falsy result. */
  function OrganizationOf(user: User): (org: Option<string>)
    ensures org.Some? <==> user.organizationId != "" || TruthyText(user.organizationRef)
    ensures org.Some? ==> org.value != ""
    ensures user.organizationId != "" ==> org == Some(user.organizationId)
    ensures user.organizationId == "" && org.Some? ==> org == user.organizationRef
  {
    if user.organizationId != "" then Some(user.organizationId)
    else if TruthyText(user.organizationRef) then user.organizationRef
    else None
  }

  /** The roles allowed to create records. */
  const WriterRoles: seq<string> := ["ADMIN", "STAFF"]

  /** `['ADMIN', 'STAFF'].includes(role)` */
  predicate CanWrite(role: string) {
    role in WriterRoles
  }

  const StatusOk: int := 200
  const StatusCreated: int := 201
  const StatusBadRequest: int := 400
  const StatusUnauthorized: int := 401
  const StatusForbidden: int := 403

  /** A JSON response: an error status, or a success status with its body. */
  datatype Response<T> = Fail(status: int) | Done(status: int, body: T)
}
