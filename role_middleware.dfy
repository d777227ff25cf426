/**
 * The role gate built by `role(allowedRoles)`: it lets a request through to
 * the next handler when the caller's role is one of the allowed ones and
 * answers 403 "Forbidden" otherwise. It only decides; it changes nothing on
 * the request.
 */
module RoleMiddleware {
  import opened Wrappers
  import opened Requests

  /** Exactly one of the two happens per call. */
  datatype GateOutcome = Forbid | Next

  /** The gate for `allowedRoles`, whose default is the empty list. */
  function Gate(user: Option<User>, allowedRoles: seq<string> := []): (o: GateOutcome)
    ensures o == Forbid <==> user.None? || user.value.role !in allowedRoles
    ensures o == Next <==> user.Some? && user.value.role in allowedRoles
  {
    if user.None? || user.value.role !in allowedRoles then Forbid else Next
  }

  /** Built with the default list, the gate forbids every request. */
  lemma DefaultGateForbidsAll(user: Option<User>)
    ensures Gate(user) == Forbid
  {
  }

  /** Allowing more roles never forbids a request that was let through. */
  lemma GateMonotone(user: Option<User>, allowed: seq<string>, more: seq<string>)
    requires forall r :: r in allowed ==> r in more
    requires Gate(user, allowed) == Next
    ensures Gate(user, more) == Next
  {
  }

  /** Only the caller's role matters: the user id and the order of the list do not. */
  lemma GateDependsOnRoleOnly(u: User, v: User, allowed: seq<string>, same: seq<string>)
    requires u.role == v.role
    requires forall r :: r in allowed <==> r in same
    ensures Gate(Some(u), allowed) == Gate(Some(v), same)
  {
  }
}
