/**
 * The shared Express `authenticate` middleware: read the bearer token,
 * verify it with the access secret, attach the payload to `req.user` and
 * call `next()`; on failure call `next(err)` with a 401 `AppError` whose
 * message tells an expired token from an invalid one, or forward any other
 * error unchanged.
 */
module ExpressAuth {
  import opened Wrappers
  import opened Http
  import opened ErrorTypes
  import opened TokenService
  import opened Bearer
  import opened RoleGuard

  /** The `catch` block: the two `jsonwebtoken` error names become 401s, anything else passes through. */
  function CatchAuthError(t: Thrown): (r: Thrown)
  {
    if IsErrorInstance(t) && NameOf(t) == Some("TokenExpiredError") then App(NewAppError(UNAUTHORIZED, MSG_TOKEN_EXPIRED))
    else if IsErrorInstance(t) && NameOf(t) == Some("JsonWebTokenError") then App(NewAppError(UNAUTHORIZED, MSG_TOKEN_INVALID))
    else t
  }

  /**
   * What `authenticate` decides for a request carrying `header`: the payload
   * to attach, or the error handed to `next`.
   */
  function AuthenticateOutcome(issued: map<string, Jwt>, accessSecret: string, header: Option<string>, now: int): (o: Result<Claims, Thrown>)
    ensures BearerToken(header).None? ==> o == Err(App(UNAUTHENTICATED_ERROR))
    ensures o.Err? ==> o.error.App? && o.error.app.statusCode == UNAUTHORIZED
    ensures o.Ok? ==> BearerToken(header).Some? && Verify(issued, BearerToken(header).value, accessSecret, now) == Ok(o.value)
    ensures o.Err? && o.error.app.message == MSG_TOKEN_EXPIRED <==>
              BearerToken(header).Some? && Verify(issued, BearerToken(header).value, accessSecret, now).Err? &&
              Verify(issued, BearerToken(header).value, accessSecret, now).error.Expired?
    ensures o.Err? && o.error.app.message == MSG_TOKEN_INVALID <==>
              BearerToken(header).Some? && Verify(issued, BearerToken(header).value, accessSecret, now).Err? &&
              Verify(issued, BearerToken(header).value, accessSecret, now).error.Invalid?
  {
    match BearerToken(header)
    case None => Err(CatchAuthError(App(UNAUTHENTICATED_ERROR)))
    case Some(token) =>
      match Verify(issued, token, accessSecret, now)
      case Ok(payload) => Ok(payload)
      case Err(e) => Err(CatchAuthError(VerifyErrorThrown(e)))
  }

  /**
   * A request passes exactly when its header is "Bearer " followed by a
   * token the signer issued under the access secret and that has not expired.
   */
  lemma {:induction false} AuthenticatePassesIff(issued: map<string, Jwt>, accessSecret: string, header: Option<string>, now: int)
    ensures AuthenticateOutcome(issued, accessSecret, header, now).Ok? <==>
              exists t :: header == Some(BEARER_PREFIX + t) && t in issued && issued[t].secret == accessSecret && now < issued[t].exp
  {
    if AuthenticateOutcome(issued, accessSecret, header, now).Ok? {
      var t := BearerToken(header).value;
      assert header == Some(BEARER_PREFIX + t);
    }
    if exists t :: header == Some(BEARER_PREFIX + t) && t in issued && issued[t].secret == accessSecret && now < issued[t].exp {
      var t :| header == Some(BEARER_PREFIX + t) && t in issued && issued[t].secret == accessSecret && now < issued[t].exp;
      BearerRoundTrip(t);
    }
  }

  /** A refresh token is refused with 401 "Invalid token" whenever the two secrets differ. */
  lemma RefreshTokenRefused(util: JwtUtil, t: string, now: int)
    requires t in util.ledger.issued && util.ledger.issued[t].secret == util.refreshSecret
    requires util.refreshSecret != util.accessSecret
    ensures AuthenticateOutcome(util.ledger.issued, util.accessSecret, Some(BEARER_PREFIX + t), now)
              == Err(App(NewAppError(UNAUTHORIZED, MSG_TOKEN_INVALID)))
  {
    BearerRoundTrip(t);
  }

  /** An Express request as `authenticate` sees it. */
  class ExpressRequest {
    const authorization: Option<string>
    var user: Option<Claims>
    /** Every call of `next`, with its error argument if any. */
    var nextCalls: seq<Option<Thrown>>

    constructor (authorization: Option<string>)
      ensures this.authorization == authorization && user.None? && nextCalls == []
    {
      this.authorization := authorization;
      user := None;
      nextCalls := [];
    }

    /** `authenticate(req, res, next)` at time `now`. */
    method Authenticate(util: JwtUtil, now: int)
      modifies this
      ensures var o := AuthenticateOutcome(util.ledger.issued, util.accessSecret, authorization, now);
              && nextCalls == old(nextCalls) + [if o.Ok? then None else Some(o.error)]
              && user == (if o.Ok? then Some(o.value) else old(user))
    {
      var thrown: Option<Thrown> := None;
      var token := BearerToken(authorization);
      if token.None? {
        thrown := Some(App(NewAppError(UNAUTHORIZED, MSG_UNAUTHORIZED)));
      } else {
        var verified := util.VerifyAccessToken(token.value, now);
        if verified.Ok? {
          user := Some(verified.value);
          nextCalls := nextCalls + [None];
        } else {
          thrown := Some(VerifyErrorThrown(verified.error));
        }
      }
      if thrown.Some? {
        nextCalls := nextCalls + [Some(CatchAuthError(thrown.value))];
      }
    }
  }
}
