/**
 * The shared Express guards `checkRole`, `checkPermission` and
 * `checkMinimumRole`. Each is a closure that, given the request's attached
 * user (if any), either calls `next()` or throws an `AppError`: 401 when no
 * user is attached, 403 when the user falls short. Permissions always come
 * from a fresh lookup of the role table, and one required permission is
 * enough (ANY-match).
 */
module RoleGuard {
  import opened Wrappers
  import opened Http
  import opened UserTypes
  import opened Roles
  import opened ErrorTypes
  import opened TokenService

  /** What a guard does with the request. */
  datatype GuardOutcome = Next | Throw(error: AppError)

  const UNAUTHENTICATED_ERROR: AppError := NewAppError(UNAUTHORIZED, MSG_UNAUTHORIZED)
  const FORBIDDEN_ERROR: AppError := NewAppError(FORBIDDEN, MSG_FORBIDDEN)

  /** `required.some(p => held.includes(p))`. */
  function AnyHeld(required: seq<Permission>, held: seq<Permission>): (b: bool)
    ensures b <==> exists i :: 0 <= i < |required| && required[i] in held
  {
    if |required| == 0 then false
    else if required[0] in held then true
    else
      var b := AnyHeld(required[1..], held);
      assert forall i :: 1 <= i < |required| ==> required[i] == required[1..][i - 1];
      b
  }

  /** The role named `role` grants one of `required`. */
  ghost predicate RoleGrantsAny(role: string, required: seq<Permission>)
  {
    exists r, i :: RoleName(r) == role && 0 <= i < |required| && required[i] in RolePermissions(r)
  }

  /** `checkRole(...allowedRoles)`. */
  function CheckRole(allowedRoles: seq<UserRole>, user: Option<Claims>): (o: GuardOutcome)
    ensures user.None? ==> o == Throw(UNAUTHENTICATED_ERROR)
    ensures user.Some? ==> (o.Next? <==> exists i :: 0 <= i < |allowedRoles| && RoleName(allowedRoles[i]) == user.value.role)
    ensures user.Some? && o.Throw? ==> o.error == FORBIDDEN_ERROR
  {
    if user.None? then Throw(UNAUTHENTICATED_ERROR)
    else if exists i :: 0 <= i < |allowedRoles| && RoleName(allowedRoles[i]) == user.value.role then Next
    else Throw(FORBIDDEN_ERROR)
  }

  /** `checkPermission(...requiredPermissions)`. */
  function CheckPermission(required: seq<Permission>, user: Option<Claims>): (o: GuardOutcome)
    ensures user.None? ==> o == Throw(UNAUTHENTICATED_ERROR)
    ensures user.Some? ==> (o.Next? <==> RoleGrantsAny(user.value.role, required))
    ensures user.Some? && o.Throw? ==> o.error == FORBIDDEN_ERROR
  {
    if user.None? then Throw(UNAUTHENTICATED_ERROR)
    else if AnyHeld(required, HeldPermissions(user.value.role)) then Next
    else Throw(FORBIDDEN_ERROR)
  }

  /** `checkMinimumRole(minimumRole)`; an unknown role is level 0. */
  function CheckMinimumRole(minimumRole: UserRole, user: Option<Claims>): (o: GuardOutcome)
    ensures user.None? ==> o == Throw(UNAUTHENTICATED_ERROR)
    ensures user.Some? ==> (o.Next? <==> exists r :: RoleName(r) == user.value.role && Level(r) >= Level(minimumRole))
    ensures user.Some? && o.Throw? ==> o.error == FORBIDDEN_ERROR
  {
    if user.None? then Throw(UNAUTHENTICATED_ERROR)
    else if LevelOfName(user.value.role) < Level(minimumRole) then Throw(FORBIDDEN_ERROR)
    else Next
  }

  /** An empty required list denies every authenticated user: `.some` over nothing is false. */
  lemma EmptyRequiredDenies(c: Claims)
    ensures CheckPermission([], Some(c)) == Throw(FORBIDDEN_ERROR)
  {
  }

  /** The token's embedded `permissions` snapshot plays no part in the decision. */
  lemma SnapshotIgnored(required: seq<Permission>, c: Claims, snapshot: Option<seq<Permission>>)
    ensures CheckPermission(required, Some(c)) == CheckPermission(required, Some(c.(permissions := snapshot)))
  {
  }

  /** ANY-match is monotone: adding required permissions never turns an allow into a deny. */
  lemma {:induction false} PermissionMonotone(required: seq<Permission>, extra: seq<Permission>, user: Option<Claims>)
    requires CheckPermission(required, user).Next?
    ensures CheckPermission(required + extra, user).Next?
    ensures CheckPermission(extra + required, user).Next?
  {
    var r, i :| RoleName(r) == user.value.role && 0 <= i < |required| && required[i] in RolePermissions(r);
    assert (required + extra)[i] == required[i];
    assert (extra + required)[|extra| + i] == required[i];
  }

  /** A user whose role is not one of the five is refused by every permission guard. */
  lemma UnknownRoleDenied(required: seq<Permission>, c: Claims)
    requires forall r :: RoleName(r) != c.role
    ensures CheckPermission(required, Some(c)) == Throw(FORBIDDEN_ERROR)
    ensures CheckMinimumRole(STUDENT, Some(c)) == Throw(FORBIDDEN_ERROR)
  {
  }

  /** `checkMinimumRole` lets the minimum role itself through, and every role above it. */
  lemma {:induction false} MinimumRoleUpwardClosed(minimumRole: UserRole, r: UserRole, c: Claims)
    requires c.role == RoleName(r) && Level(r) >= Level(minimumRole)
    ensures CheckMinimumRole(minimumRole, Some(c)) == Next
  {
  }

  /** `checkRole` with exactly the user's role in the list allows. */
  lemma CheckRoleOwnRole(r: UserRole, c: Claims)
    requires c.role == RoleName(r)
    ensures CheckRole([r], Some(c)) == Next
  {
    assert RoleName([r][0]) == c.role;
  }
}
