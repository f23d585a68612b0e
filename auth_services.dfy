/**
 * The three `AuthService`s: `login`, `refreshToken` and `getCurrentUser`.
 *
 * The user collection is a sequence searched in order, as `findOne` returns
 * the first match; the bcrypt comparison is a parameter. Express and Bun sign
 * with `JwtUtil` (two secrets); Deno signs both of its tokens with one HMAC
 * key through djwt and puts no permissions in them.
 */
module AuthServices {
  import opened Wrappers
  import opened Http
  import opened UserTypes
  import opened Roles
  import opened Config
  import opened ErrorTypes
  import opened TokenService

  /** `{ accessToken, refreshToken, expiresIn }`. */
  datatype AuthTokens = AuthTokens(accessToken: string, refreshToken: string, expiresIn: int)

  /** The public part of a user in Bun's login response. */
  datatype PublicUser = PublicUser(id: string, email: string, firstName: string, lastName: string)

  /** Bun's `{ accessToken, refreshToken, user }`: no `expiresIn`. */
  datatype LoginResponse = LoginResponse(accessToken: string, refreshToken: string, user: PublicUser)

  /** `AuthenticatedUser`; Deno's `getCurrentUser` carries no permissions. */
  datatype AuthenticatedUser = AuthenticatedUser(
    id: string, email: string, role: UserRole, permissions: Option<seq<Permission>>,
    firstName: string, lastName: string)

  /** The `expiresIn` every access-token response reports. */
  const EXPIRES_IN: int := 900

  /** `findOne({ email, isActive: true })`: the first active user with that email. */
  function FindActiveByEmail(users: seq<User>, email: string): (u: Option<User>)
    ensures u.Some? ==> u.value in users && u.value.email == email && u.value.isActive
    ensures u.None? <==> forall i :: 0 <= i < |users| ==> !(users[i].email == email && users[i].isActive)
  {
    if |users| == 0 then None
    else if users[0].email == email && users[0].isActive then Some(users[0])
    else
      var rest := FindActiveByEmail(users[1..], email);
      assert forall i :: 1 <= i < |users| ==> users[i] == users[1..][i - 1];
      rest
  }

  /** `findById(userId)`: the user with that id, active or not. */
  function FindById(users: seq<User>, id: string): (u: Option<User>)
    ensures u.Some? ==> u.value in users && u.value.id == id
    ensures u.None? <==> forall i :: 0 <= i < |users| ==> users[i].id != id
  {
    if |users| == 0 then None
    else if users[0].id == id then Some(users[0])
    else
      var rest := FindById(users[1..], id);
      assert forall i :: 1 <= i < |users| ==> users[i] == users[1..][i - 1];
      rest
  }

  /** Whether `login` accepts the credentials. */
  predicate CredentialsAccepted(users: seq<User>, compare: (string, string) -> bool, email: string, password: string)
  {
    FindActiveByEmail(users, email).Some? && compare(password, FindActiveByEmail(users, email).value.password)
  }

  /** The payload `login` signs (Express and Bun): identity plus the role's permission list. */
  function LoginClaims(u: User): (c: Claims)
    ensures c.userId == u.id && c.email == u.email && ParseRole(c.role) == Some(u.role)
    ensures c.permissions == Some(RolePermissions(u.role))
  {
    RoleRoundTrip(u.role);
    Claims(u.id, u.email, RoleName(u.role), Some(RolePermissions(u.role)))
  }

  /**
   * The payload `refreshToken` signs (Express and Bun): identity copied from
   * the verified refresh payload, permissions looked up again from the role
   * (absent for a role the table does not know).
   */
  function RefreshClaims(c: Claims): (r: Claims)
    ensures r.userId == c.userId && r.email == c.email && r.role == c.role
    ensures forall role :: RoleName(role) == c.role ==> r.permissions == Some(RolePermissions(role))
    ensures r.permissions.None? <==> forall role :: RoleName(role) != c.role
  {
    Claims(c.userId, c.email, c.role, LookupPermissions(c.role))
  }

  /** The permissions snapshot in the old token plays no part in the new one. */
  lemma RefreshIgnoresSnapshot(c: Claims, stale: Option<seq<Permission>>)
    ensures RefreshClaims(c.(permissions := stale)) == RefreshClaims(c)
  {
  }

  /** Refreshing a token `login` issued re-signs the same payload. */
  lemma {:induction false} RefreshOfLoginIsStable(u: User)
    ensures RefreshClaims(LoginClaims(u)) == LoginClaims(u)
  {
    assert RoleName(u.role) == LoginClaims(u).role;
  }

  /** Express `login(email, password)` at time `now`. */
  method ExpressLogin(util: JwtUtil, users: seq<User>, compare: (string, string) -> bool, email: string, password: string, now: int)
      returns (r: Result<AuthTokens, AppError>)
    requires util.Valid()
    modifies util.ledger
    ensures util.Valid()
    ensures r.Err? <==> !CredentialsAccepted(users, compare, email, password)
    ensures r.Err? ==> r.error == NewAppError(UNAUTHORIZED, MSG_INVALID_CREDENTIALS) && util.ledger.issued == old(util.ledger.issued)
    ensures r.Ok? ==>
              var c := LoginClaims(FindActiveByEmail(users, email).value);
              && r.value.expiresIn == JWT_EXPIRY_SECONDS
              && r.value.accessToken != r.value.refreshToken
              && util.ledger.issued == old(util.ledger.issued)
                   [r.value.accessToken := Jwt(c, util.accessSecret, now + JWT_EXPIRY_SECONDS)]
                   [r.value.refreshToken := Jwt(c, util.refreshSecret, now + JWT_REFRESH_EXPIRY_SECONDS)]
  {
    var user := FindActiveByEmail(users, email);
    if user.None? || !compare(password, user.value.password) {
      return Err(NewAppError(UNAUTHORIZED, MSG_INVALID_CREDENTIALS));
    }
    var payload := LoginClaims(user.value);
    var accessToken := util.GenerateAccessToken(payload, now);
    var refreshToken := util.GenerateRefreshToken(payload, now);
    return Ok(AuthTokens(accessToken, refreshToken, EXPIRES_IN));
  }

  /**
   * Express `refreshToken(token)`: any failure, an expired token included,
   * becomes 401 "Invalid token".
   */
  method ExpressRefresh(util: JwtUtil, token: string, now: int) returns (r: Result<AuthTokens, AppError>)
    requires util.Valid()
    modifies util.ledger
    ensures util.Valid()
    ensures var v := Verify(old(util.ledger.issued), token, util.refreshSecret, now);
            && (r.Err? <==> v.Err?)
            && (r.Err? ==> r.error == NewAppError(UNAUTHORIZED, MSG_TOKEN_INVALID) && util.ledger.issued == old(util.ledger.issued))
            && (r.Ok? ==>
                  r.value.expiresIn == JWT_EXPIRY_SECONDS &&
                  util.ledger.issued == old(util.ledger.issued)
                    [r.value.accessToken := Jwt(RefreshClaims(v.value), util.accessSecret, now + JWT_EXPIRY_SECONDS)]
                    [r.value.refreshToken := Jwt(RefreshClaims(v.value), util.refreshSecret, now + JWT_REFRESH_EXPIRY_SECONDS)])
  {
    var payload := util.VerifyRefreshToken(token, now);
    if payload.Err? {
      return Err(NewAppError(UNAUTHORIZED, MSG_TOKEN_INVALID));
    }
    var newPayload := RefreshClaims(payload.value);
    var accessToken := util.GenerateAccessToken(newPayload, now);
    var newRefreshToken := util.GenerateRefreshToken(newPayload, now);
    return Ok(AuthTokens(accessToken, newRefreshToken, EXPIRES_IN));
  }

  /** The current user with the permissions of their role, as Express and Bun report it. */
  function CurrentUser(u: User): (a: AuthenticatedUser)
    ensures a.id == u.id && a.email == u.email && a.role == u.role
    ensures a.permissions == Some(RolePermissions(u.role))
  {
    AuthenticatedUser(u.id, u.email, u.role, Some(RolePermissions(u.role)), u.firstName, u.lastName)
  }

  /** Express `getCurrentUser(userId)`: 404 "User not found" for an unknown id. */
  function ExpressGetCurrentUser(users: seq<User>, userId: string): (r: Result<AuthenticatedUser, AppError>)
    ensures r.Err? <==> forall i :: 0 <= i < |users| ==> users[i].id != userId
    ensures r.Err? ==> r.error.statusCode == NOT_FOUND && r.error.message == MSG_USER_NOT_FOUND
    ensures r.Ok? ==> r.value.id == userId && r.value.permissions == Some(RolePermissions(r.value.role))
  {
    match FindById(users, userId)
    case None => Err(NewAppError(NOT_FOUND, MSG_USER_NOT_FOUND))
    case Some(u) => Ok(CurrentUser(u))
  }

  /** Bun `login(email, password)`: the same checks and payload as Express, a different response. */
  method BunLogin(util: JwtUtil, users: seq<User>, compare: (string, string) -> bool, email: string, password: string, now: int)
      returns (r: Result<LoginResponse, AppError>)
    requires util.Valid()
    modifies util.ledger
    ensures util.Valid()
    ensures r.Err? <==> !CredentialsAccepted(users, compare, email, password)
    ensures r.Err? ==> r.error == NewAppError(UNAUTHORIZED, MSG_INVALID_CREDENTIALS) && util.ledger.issued == old(util.ledger.issued)
    ensures r.Ok? ==>
              var u := FindActiveByEmail(users, email).value;
              && r.value.user == PublicUser(u.id, u.email, u.firstName, u.lastName)
              && util.ledger.issued == old(util.ledger.issued)
                   [r.value.accessToken := Jwt(LoginClaims(u), util.accessSecret, now + JWT_EXPIRY_SECONDS)]
                   [r.value.refreshToken := Jwt(LoginClaims(u), util.refreshSecret, now + JWT_REFRESH_EXPIRY_SECONDS)]
  {
    var user := FindActiveByEmail(users, email);
    if user.None? || !compare(password, user.value.password) {
      return Err(NewAppError(UNAUTHORIZED, MSG_INVALID_CREDENTIALS));
    }
    var payload := LoginClaims(user.value);
    var accessToken := util.GenerateAccessToken(payload, now);
    var refreshToken := util.GenerateRefreshToken(payload, now);
    var u := user.value;
    return Ok(LoginResponse(accessToken, refreshToken, PublicUser(u.id, u.email, u.firstName, u.lastName)));
  }

  /**
   * Bun `refreshToken(token)`: verification errors are not caught, so the
   * `jsonwebtoken` error itself reaches the error handler.
   */
  method BunRefresh(util: JwtUtil, token: string, now: int) returns (r: Result<AuthTokens, Thrown>)
    requires util.Valid()
    modifies util.ledger
    ensures util.Valid()
    ensures var v := Verify(old(util.ledger.issued), token, util.refreshSecret, now);
            && (r.Err? <==> v.Err?)
            && (r.Err? ==> r.error == VerifyErrorThrown(v.error) && util.ledger.issued == old(util.ledger.issued))
            && (r.Ok? ==>
                  r.value.expiresIn == JWT_EXPIRY_SECONDS &&
                  util.ledger.issued == old(util.ledger.issued)
                    [r.value.accessToken := Jwt(RefreshClaims(v.value), util.accessSecret, now + JWT_EXPIRY_SECONDS)]
                    [r.value.refreshToken := Jwt(RefreshClaims(v.value), util.refreshSecret, now + JWT_REFRESH_EXPIRY_SECONDS)])
  {
    var payload := util.VerifyRefreshToken(token, now);
    if payload.Err? {
      return Err(VerifyErrorThrown(payload.error));
    }
    var newPayload := RefreshClaims(payload.value);
    var accessToken := util.GenerateAccessToken(newPayload, now);
    var newRefreshToken := util.GenerateRefreshToken(newPayload, now);
    return Ok(AuthTokens(accessToken, newRefreshToken, EXPIRES_IN));
  }

  /** Bun `getCurrentUser(userId)`: a plain `Error('User not found')` for an unknown id. */
  function BunGetCurrentUser(users: seq<User>, userId: string): (r: Result<AuthenticatedUser, Thrown>)
    ensures r.Err? <==> forall i :: 0 <= i < |users| ==> users[i].id != userId
    ensures r.Err? ==> !r.error.App? && NameOf(r.error) == Some("Error") && MessageOf(r.error) == Some(MSG_USER_NOT_FOUND)
    ensures r.Ok? ==> r.value.id == userId && r.value.permissions == Some(RolePermissions(r.value.role))
  {
    match FindById(users, userId)
    case None => Err(SimpleError("Error", MSG_USER_NOT_FOUND))
    case Some(u) => Ok(CurrentUser(u))
  }

  /** The Express and Bun lookups agree on every id, differing only in the error they throw. */
  lemma CurrentUserAgrees(users: seq<User>, userId: string)
    ensures ExpressGetCurrentUser(users, userId).Ok? <==> BunGetCurrentUser(users, userId).Ok?
    ensures ExpressGetCurrentUser(users, userId).Ok? ==> ExpressGetCurrentUser(users, userId).value == BunGetCurrentUser(users, userId).value
  {
  }

  /** A djwt verification failure: a plain `Error`, named neither of the `jsonwebtoken` names. */
  function DjwtError(e: VerifyError): (t: Thrown)
    ensures NameOf(t) == Some("Error") && IsErrorInstance(t)
  {
    SimpleError("Error", if e.Expired? then "The jwt is expired." else e.reason)
  }

  /** The payload Deno signs: identity only, no permissions. */
  function DenoClaims(userId: string, email: string, role: string): (c: Claims)
    ensures c.userId == userId && c.email == email && c.role == role && c.permissions.None?
  {
    Claims(userId, email, role, None)
  }

  /** The Deno service: one HMAC key for both kinds of token, over the ideal signer. */
  class DenoAuthService {
    const key: string
    const ledger: TokenLedger

    ghost predicate Valid()
      reads this, ledger
    {
      ledger.Valid()
    }

    constructor (key: string, ledger: TokenLedger)
      requires ledger.Valid()
      ensures Valid() && this.key == key && this.ledger == ledger
    {
      this.key := key;
      this.ledger := ledger;
    }

    /** Deno `login(email, password)`: access expires at now + 900, refresh at now + 604800, both under `key`. */
    method Login(users: seq<User>, compare: (string, string) -> bool, email: string, password: string, now: int)
        returns (r: Result<AuthTokens, AppError>)
      requires Valid()
      modifies ledger
      ensures Valid()
      ensures r.Err? <==> !CredentialsAccepted(users, compare, email, password)
      ensures r.Err? ==> r.error == NewAppError(UNAUTHORIZED, MSG_INVALID_CREDENTIALS) && ledger.issued == old(ledger.issued)
      ensures r.Ok? ==>
                var u := FindActiveByEmail(users, email).value;
                var c := DenoClaims(u.id, u.email, RoleName(u.role));
                && r.value.expiresIn == JWT_EXPIRY_SECONDS
                && r.value.accessToken != r.value.refreshToken
                && ledger.issued == old(ledger.issued)
                     [r.value.accessToken := Jwt(c, key, now + JWT_EXPIRY_SECONDS)]
                     [r.value.refreshToken := Jwt(c, key, now + JWT_REFRESH_EXPIRY_SECONDS)]
    {
      var user := FindActiveByEmail(users, email);
      if user.None? || !compare(password, user.value.password) {
        return Err(NewAppError(UNAUTHORIZED, MSG_INVALID_CREDENTIALS));
      }
      var payload := DenoClaims(user.value.id, user.value.email, RoleName(user.value.role));
      var accessToken := ledger.Mint(Jwt(payload, key, now + 900));
      var refreshToken := ledger.Mint(Jwt(payload, key, now + 604800));
      return Ok(AuthTokens(accessToken, refreshToken, EXPIRES_IN));
    }

    /** Deno `refreshToken(token)`: verified with the one key; identity copied into both new tokens. */
    method Refresh(token: string, now: int) returns (r: Result<AuthTokens, Thrown>)
      requires Valid()
      modifies ledger
      ensures Valid()
      ensures var v := Verify(old(ledger.issued), token, key, now);
              && (r.Err? <==> v.Err?)
              && (r.Err? ==> r.error == DjwtError(v.error) && ledger.issued == old(ledger.issued))
              && (r.Ok? ==>
                    var c := DenoClaims(v.value.userId, v.value.email, v.value.role);
                    && r.value.expiresIn == JWT_EXPIRY_SECONDS
                    && ledger.issued == old(ledger.issued)
                         [r.value.accessToken := Jwt(c, key, now + JWT_EXPIRY_SECONDS)]
                         [r.value.refreshToken := Jwt(c, key, now + JWT_REFRESH_EXPIRY_SECONDS)])
    {
      var payload := Verify(ledger.issued, token, key, now);
      if payload.Err? {
        return Err(DjwtError(payload.error));
      }
      var newPayload := DenoClaims(payload.value.userId, payload.value.email, payload.value.role);
      var accessToken := ledger.Mint(Jwt(newPayload, key, now + 900));
      var newRefreshToken := ledger.Mint(Jwt(newPayload, key, now + 604800));
      return Ok(AuthTokens(accessToken, newRefreshToken, EXPIRES_IN));
    }

    /** Deno `getCurrentUser(userId)`: no permissions; a plain `Error('User not found')` for an unknown id. */
    function GetCurrentUser(users: seq<User>, userId: string): (r: Result<AuthenticatedUser, Thrown>)
      ensures r.Err? <==> forall i :: 0 <= i < |users| ==> users[i].id != userId
      ensures r.Err? ==> NameOf(r.error) == Some("Error") && MessageOf(r.error) == Some(MSG_USER_NOT_FOUND)
      ensures r.Ok? ==> r.value.id == userId && r.value.permissions.None?
    {
      match FindById(users, userId)
      case None => Err(SimpleError("Error", MSG_USER_NOT_FOUND))
      case Some(u) => Ok(AuthenticatedUser(u.id, u.email, u.role, None, u.firstName, u.lastName))
    }

    /** Deno `getCurrentUserFromToken(token)`: any token under `key`, access or refresh, is accepted. */
    function GetCurrentUserFromToken(users: seq<User>, token: string, now: int): (r: Result<AuthenticatedUser, Thrown>)
      reads this, ledger
      ensures r.Ok? ==> token in ledger.issued && ledger.issued[token].secret == key && now < ledger.issued[token].exp
      ensures r.Ok? ==> r.value.id == ledger.issued[token].claims.userId
      ensures Verify(ledger.issued, token, key, now).Ok? ==>
                r == GetCurrentUser(users, Verify(ledger.issued, token, key, now).value.userId)
      ensures Verify(ledger.issued, token, key, now).Err? ==>
                r == Err(DjwtError(Verify(ledger.issued, token, key, now).error))
    {
      match Verify(ledger.issued, token, key, now)
      case Err(e) => Err(DjwtError(e))
      case Ok(payload) => GetCurrentUser(users, payload.userId)
    }
  }

  /**
   * Because Deno signs both tokens with one key, the refresh token from a
   * login is accepted wherever an access token is, and still is after the
   * access token has expired.
   */
  method DenoRefreshTokenWorksAsAccess(svc: DenoAuthService, users: seq<User>, compare: (string, string) -> bool,
                                       email: string, password: string, now: int)
      returns (r: Result<AuthTokens, AppError>)
    requires svc.Valid()
    modifies svc.ledger
    ensures svc.Valid()
    ensures r.Ok? ==>
              && Verify(svc.ledger.issued, r.value.refreshToken, svc.key, now).Ok?
              && Verify(svc.ledger.issued, r.value.accessToken, svc.key, now + JWT_EXPIRY_SECONDS).Err?
              && Verify(svc.ledger.issued, r.value.refreshToken, svc.key, now + JWT_EXPIRY_SECONDS).Ok?
  {
    r := svc.Login(users, compare, email, password, now);
  }
}
