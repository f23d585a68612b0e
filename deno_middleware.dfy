/**
 * The Deno (Oak) middlewares `authenticate` and `checkPermission`. Both write
 * `ctx.response.status` and `ctx.response.body` and return early to stop a
 * request, or call `next()` to pass it on. `authenticate` wraps its whole
 * body, including the call of `next()`, in a `try`, so an error thrown
 * downstream with a `jsonwebtoken` name is answered here too.
 */
module DenoMiddleware {
  import opened Wrappers
  import opened Http
  import opened UserTypes
  import opened Roles
  import opened ErrorTypes
  import opened TokenService
  import opened Bearer
  import opened Responses
  import opened RoleGuard
  import opened ExpressAuth

  const DENO_TOKEN_EXPIRED: string := "Token expired"
  const DENO_TOKEN_INVALID: string := "Invalid token"

  /** The message `authenticate`'s `catch` answers a thrown value with, or `None` to rethrow it. */
  function CatchMessage(t: Thrown): (m: Option<string>)
    ensures m.Some? <==> IsErrorInstance(t) && NameOf(t) in {Some("TokenExpiredError"), Some("JsonWebTokenError")}
  {
    if IsErrorInstance(t) && NameOf(t) == Some("TokenExpiredError") then Some(DENO_TOKEN_EXPIRED)
    else if IsErrorInstance(t) && NameOf(t) == Some("JsonWebTokenError") then Some(DENO_TOKEN_INVALID)
    else None
  }

  /** An Oak context: the request header, the response being written and `ctx.state.user`. */
  class OakContext {
    const authorization: Option<string>
    var status: int
    var body: Option<ErrorBody>
    var user: Option<Claims>
    /** How many times `next()` has been called. */
    var nextCalls: nat

    /** A fresh context; Oak's response status starts at 404 until something writes it. */
    constructor (authorization: Option<string>)
      ensures this.authorization == authorization
      ensures status == NOT_FOUND && body.None? && user.None? && nextCalls == 0
    {
      this.authorization := authorization;
      status := NOT_FOUND;
      body := None;
      user := None;
      nextCalls := 0;
    }

    /**
     * `authenticate(ctx, next)` at time `now`; `downstream` is what the
     * call of `next()` throws, if anything, and `rethrown` what escapes.
     */
    method Authenticate(util: JwtUtil, now: int, downstream: Option<Thrown>) returns (rethrown: Option<Thrown>)
      modifies this
      ensures BearerToken(authorization).None? ==>
                status == UNAUTHORIZED && body == Some(Envelope(MSG_UNAUTHORIZED)) &&
                user == old(user) && nextCalls == old(nextCalls) && rethrown.None?
      ensures BearerToken(authorization).Some? ==>
                var v := util.VerifyAccessToken(BearerToken(authorization).value, now);
                && (v.Err? ==>
                      status == UNAUTHORIZED &&
                      body == Some(Envelope(if v.error.Expired? then DENO_TOKEN_EXPIRED else DENO_TOKEN_INVALID)) &&
                      user == old(user) && nextCalls == old(nextCalls) && rethrown.None?)
                && (v.Ok? ==>
                      user == Some(v.value) && nextCalls == old(nextCalls) + 1 &&
                      (downstream.None? ==> rethrown.None? && status == old(status) && body == old(body)) &&
                      (downstream.Some? && CatchMessage(downstream.value).Some? ==>
                         rethrown.None? && status == UNAUTHORIZED && body == Some(Envelope(CatchMessage(downstream.value).value))) &&
                      (downstream.Some? && CatchMessage(downstream.value).None? ==>
                         rethrown == downstream && status == old(status) && body == old(body)))
    {
      rethrown := None;
      var thrown: Option<Thrown> := None;
      var token := BearerToken(authorization);
      if token.None? {
        status := UNAUTHORIZED;
        body := Some(Envelope(MSG_UNAUTHORIZED));
        return;
      }
      var verified := util.VerifyAccessToken(token.value, now);
      if verified.Err? {
        thrown := Some(VerifyErrorThrown(verified.error));
      } else {
        user := Some(verified.value);
        nextCalls := nextCalls + 1;
        thrown := downstream;
      }
      if thrown.Some? {
        var message := CatchMessage(thrown.value);
        if message.Some? {
          status := UNAUTHORIZED;
          body := Some(Envelope(message.value));
        } else {
          rethrown := thrown;
        }
      }
    }

    /** `checkPermission(...requiredPermissions)(ctx, next)`. */
    method CheckPermission(requiredPermissions: seq<Permission>)
      modifies this
      ensures user == old(user)
      ensures user.None? ==> status == UNAUTHORIZED && body == Some(Envelope(MSG_UNAUTHORIZED)) && nextCalls == old(nextCalls)
      ensures user.Some? && RoleGrantsAny(user.value.role, requiredPermissions) ==>
                nextCalls == old(nextCalls) + 1 && status == old(status) && body == old(body)
      ensures user.Some? && !RoleGrantsAny(user.value.role, requiredPermissions) ==>
                status == FORBIDDEN && body == Some(Envelope(MSG_FORBIDDEN)) && nextCalls == old(nextCalls)
    {
      if user.None? {
        status := UNAUTHORIZED;
        body := Some(Envelope(MSG_UNAUTHORIZED));
        return;
      }
      var userRole := user.value.role;
      var userPermissions := if userRole != "" then HeldPermissions(userRole) else [];
      var hasPermission := AnyHeld(requiredPermissions, userPermissions);
      if !hasPermission {
        status := FORBIDDEN;
        body := Some(Envelope(MSG_FORBIDDEN));
        return;
      }
      nextCalls := nextCalls + 1;
    }
  }

  /**
   * The Deno chain `authenticate, checkPermission(...)` reaches the route
   * handler exactly when the shared Express guards let the request through,
   * and stops it with the same status otherwise.
   */
  method DenoChainAgreesWithExpress(util: JwtUtil, header: Option<string>, now: int, required: seq<Permission>)
      returns (reached: bool, status: int)
    ensures var o := AuthenticateOutcome(util.ledger.issued, util.accessSecret, header, now);
            && (o.Err? ==> !reached && status == o.error.app.statusCode)
            && (o.Ok? ==> (reached <==> CheckPermission(required, Some(o.value)).Next?))
            && (o.Ok? && !reached ==> status == CheckPermission(required, Some(o.value)).error.statusCode)
  {
    var ctx := new OakContext(header);
    var rethrown := ctx.Authenticate(util, now, None);
    if ctx.nextCalls == 0 {
      reached := false;
      status := ctx.status;
      return;
    }
    ctx.CheckPermission(required);
    reached := ctx.nextCalls == 2;
    status := ctx.status;
  }
}
