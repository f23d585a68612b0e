/**
 * The Bun (Elysia) authentication plugins: `authPlugin.derive` turns the
 * header into a user or `null`, and the `onBeforeHandle` hooks of
 * `requireAuth` and `requirePermission` set `set.status` and return an
 * envelope to stop the request, or return nothing to let it through.
 */
module BunAuth {
  import opened Wrappers
  import opened Http
  import opened UserTypes
  import opened Roles
  import opened TokenService
  import opened Bearer
  import opened Responses
  import opened RoleGuard
  import opened ExpressAuth

  /** `authPlugin.derive`: any failure, missing header or bad token, gives `null`. */
  function Derive(issued: map<string, Jwt>, accessSecret: string, header: Option<string>, now: int): (user: Option<Claims>)
    ensures BearerToken(header).None? ==> user.None?
    ensures user.Some? <==> BearerToken(header).Some? && Verify(issued, BearerToken(header).value, accessSecret, now).Ok?
    ensures user.Some? ==> user == Some(Verify(issued, BearerToken(header).value, accessSecret, now).value)
  {
    match BearerToken(header)
    case None => None
    case Some(token) =>
      match Verify(issued, token, accessSecret, now)
      case Ok(payload) => Some(payload)
      case Err(_) => None
  }

  /** Bun lets through exactly the requests Express's `authenticate` lets through, with the same user. */
  lemma DeriveAgreesWithExpress(issued: map<string, Jwt>, accessSecret: string, header: Option<string>, now: int)
    ensures var o := AuthenticateOutcome(issued, accessSecret, header, now);
            Derive(issued, accessSecret, header, now) == (if o.Ok? then Some(o.value) else None)
  {
  }

  /** Elysia's `set`: the response status a hook may write. */
  class ElysiaSet {
    var status: int

    constructor ()
      ensures status == 200
    {
      status := 200;
    }
  }

  /** The `onBeforeHandle` hook of `requireAuth`. */
  method RequireAuth(ctx: ElysiaSet, user: Option<Claims>) returns (stop: Option<ErrorBody>)
    modifies ctx
    ensures stop.Some? <==> user.None?
    ensures user.None? ==> ctx.status == UNAUTHORIZED && stop == Some(Envelope(MSG_UNAUTHORIZED))
    ensures user.Some? ==> ctx.status == old(ctx.status)
  {
    stop := None;
    if user.None? {
      ctx.status := UNAUTHORIZED;
      stop := Some(Envelope(MSG_UNAUTHORIZED));
    }
  }

  /** The `onBeforeHandle` hook of `requirePermission(...permissions)`. */
  method RequirePermission(ctx: ElysiaSet, permissions: seq<Permission>, user: Option<Claims>) returns (stop: Option<ErrorBody>)
    modifies ctx
    ensures user.None? ==> ctx.status == UNAUTHORIZED && stop == Some(Envelope(MSG_UNAUTHORIZED))
    ensures user.Some? && RoleGrantsAny(user.value.role, permissions) ==> stop.None? && ctx.status == old(ctx.status)
    ensures user.Some? && !RoleGrantsAny(user.value.role, permissions) ==> ctx.status == FORBIDDEN && stop == Some(Envelope(MSG_FORBIDDEN))
  {
    stop := None;
    if user.None? {
      ctx.status := UNAUTHORIZED;
      stop := Some(Envelope(MSG_UNAUTHORIZED));
      return;
    }
    var userPermissions := HeldPermissions(user.value.role);
    var hasPermission := AnyHeld(permissions, userPermissions);
    if !hasPermission {
      ctx.status := FORBIDDEN;
      stop := Some(Envelope(MSG_FORBIDDEN));
    }
  }

  /** Bun's `requirePermission` stops a request exactly when the shared `checkPermission` throws, with the same status. */
  method RequirePermissionAgreesWithGuard(permissions: seq<Permission>, user: Option<Claims>) returns (stop: Option<ErrorBody>, status: int)
    ensures stop.Some? <==> CheckPermission(permissions, user).Throw?
    ensures stop.Some? ==>
              status == CheckPermission(permissions, user).error.statusCode &&
              stop.value.message == CheckPermission(permissions, user).error.message
  {
    var ctx := new ElysiaSet();
    stop := RequirePermission(ctx, permissions, user);
    status := ctx.status;
  }
}
