/**
 * The token service (`JwtUtil`) over an ideal signer.
 *
 * A token's text is opaque; the signer remembers, for every text it handed
 * out, what it signed: the claims, the secret and the expiry (`exp`, section
 * 4.1.4 of RFC 7519). Verification follows `jsonwebtoken`: a text the signer
 * never produced, or one checked against another secret, is a
 * `JsonWebTokenError`; a genuine one at or after its expiry is a
 * `TokenExpiredError`. With an ideal signer no secret but the signing one
 * validates a signature (the HMAC assumption of section 3.2 of RFC 7518).
 */
module TokenService {
  import opened Wrappers
  import opened UserTypes
  import opened Roles
  import opened Config
  import opened ErrorTypes

  /** The identity a token carries; `role` is a string once it has been through JSON. */
  datatype Claims = Claims(userId: string, email: string, role: string, permissions: Option<seq<Permission>>)

  /** What the signer signed. */
  datatype Jwt = Jwt(claims: Claims, secret: string, exp: int)

  datatype VerifyError = Expired(expiredAt: int) | Invalid(reason: string)

  /** The `name` of the error `jsonwebtoken` throws. */
  function VerifyErrorName(e: VerifyError): string
  {
    if e.Expired? then "TokenExpiredError" else "JsonWebTokenError"
  }

  /** The verification error as a thrown JavaScript value. */
  function VerifyErrorThrown(e: VerifyError): (t: Thrown)
    ensures t.Plain? && NameOf(t) == Some(VerifyErrorName(e))
  {
    SimpleError(VerifyErrorName(e), if e.Expired? then "jwt expired" else e.reason)
  }

  /** `jwt.verify(token, secret)` at time `now` (seconds). */
  function Verify(issued: map<string, Jwt>, token: string, secret: string, now: int): (r: Result<Claims, VerifyError>)
    ensures r.Ok? <==> token in issued && issued[token].secret == secret && now < issued[token].exp
    ensures r.Ok? ==> r.value == issued[token].claims
    ensures r.Err? && r.error.Expired? <==> token in issued && issued[token].secret == secret && now >= issued[token].exp
  {
    if token !in issued then Err(Invalid("jwt malformed"))
    else if issued[token].secret != secret then Err(Invalid("invalid signature"))
    else if now >= issued[token].exp then Err(Expired(issued[token].exp))
    else Ok(issued[token].claims)
  }

  /** `jwt.decode(token)`: the claims of any genuine token, with no signature or expiry check. */
  function Decode(issued: map<string, Jwt>, token: string): (r: Option<Claims>)
    ensures r.Some? <==> token in issued
    ensures forall secret, now :: Verify(issued, token, secret, now).Ok? ==> r == Some(Verify(issued, token, secret, now).value)
  {
    if token in issued then Some(issued[token].claims) else None
  }

  /** Signing and verifying with the same secret before expiry gives back the claims. */
  lemma SignThenVerify(issued: map<string, Jwt>, token: string, c: Claims, secret: string, signedAt: int, lifetime: nat, now: int)
    requires token in issued && issued[token] == Jwt(c, secret, signedAt + lifetime)
    requires now < signedAt + lifetime
    ensures Verify(issued, token, secret, now) == Ok(c)
  {
  }

  /** A token checked against a secret other than the one that signed it always fails, expired or not. */
  lemma WrongSecretRejected(issued: map<string, Jwt>, token: string, secret: string, now: int)
    requires token in issued && issued[token].secret != secret
    ensures Verify(issued, token, secret, now) == Err(Invalid("invalid signature"))
  {
  }

  /** The ideal signer's memory: every text it handed out and what it signed. */
  class TokenLedger {
    var issued: map<string, Jwt>
    var minted: nat

    /** Every text handed out so far is at most `minted` long, so a longer one is fresh. */
    ghost predicate Valid()
      reads this
    {
      forall t :: t in issued ==> |t| <= minted
    }

    constructor ()
      ensures Valid() && issued == map[]
    {
      issued := map[];
      minted := 0;
    }

    /** Signs `j` and hands out a text never handed out before. */
    method Mint(j: Jwt) returns (token: string)
      requires Valid()
      modifies this
      ensures Valid()
      ensures token !in old(issued) && issued == old(issued)[token := j]
    {
      token := seq(minted + 1, _ => 't');
      issued := issued[token := j];
      minted := minted + 1;
    }
  }

  /**
   * `JwtUtil`: two secrets, set by `initialize`; access tokens are signed and
   * verified with the access secret and live JWT_EXPIRY, refresh tokens with
   * the refresh secret and live JWT_REFRESH_EXPIRY.
   */
  class JwtUtil {
    var accessSecret: string
    var refreshSecret: string
    const ledger: TokenLedger

    ghost predicate Valid()
      reads this, ledger
    {
      ledger.Valid()
    }

    /**
     * The secrets start empty until `Initialize` sets them; jsonwebtoken
     * refuses to sign or verify with an empty secret, a refusal this model
     * does not reproduce, so callers are expected to initialize first.
     */
    constructor (ledger: TokenLedger)
      requires ledger.Valid()
      ensures Valid() && this.ledger == ledger
    {
      this.ledger := ledger;
      accessSecret := "";
      refreshSecret := "";
    }

    /** `initialize`: overwrites both secrets and nothing else. */
    method Initialize(accessSecret: string, refreshSecret: string)
      modifies this
      ensures this.accessSecret == accessSecret && this.refreshSecret == refreshSecret
    {
      this.accessSecret := accessSecret;
      this.refreshSecret := refreshSecret;
    }

    /** `generateAccessToken(payload)` at time `now`. */
    method GenerateAccessToken(c: Claims, now: int) returns (token: string)
      requires Valid()
      modifies ledger
      ensures Valid()
      ensures token !in old(ledger.issued)
      ensures ledger.issued == old(ledger.issued)[token := Jwt(c, accessSecret, now + JWT_EXPIRY_SECONDS)]
    {
      token := ledger.Mint(Jwt(c, accessSecret, now + JWT_EXPIRY_SECONDS));
    }

    /** `generateRefreshToken(payload)` at time `now`. */
    method GenerateRefreshToken(c: Claims, now: int) returns (token: string)
      requires Valid()
      modifies ledger
      ensures Valid()
      ensures token !in old(ledger.issued)
      ensures ledger.issued == old(ledger.issued)[token := Jwt(c, refreshSecret, now + JWT_REFRESH_EXPIRY_SECONDS)]
    {
      token := ledger.Mint(Jwt(c, refreshSecret, now + JWT_REFRESH_EXPIRY_SECONDS));
    }

    /** `verifyAccessToken(token)`. */
    function VerifyAccessToken(token: string, now: int): (r: Result<Claims, VerifyError>)
      reads this, ledger
      ensures r.Ok? ==> token in ledger.issued && ledger.issued[token].secret == accessSecret
    {
      Verify(ledger.issued, token, accessSecret, now)
    }

    /** `verifyRefreshToken(token)`. */
    function VerifyRefreshToken(token: string, now: int): (r: Result<Claims, VerifyError>)
      reads this, ledger
      ensures r.Ok? ==> token in ledger.issued && ledger.issued[token].secret == refreshSecret
    {
      Verify(ledger.issued, token, refreshSecret, now)
    }

    /** `decodeToken(token)`. */
    function DecodeToken(token: string): (r: Option<Claims>)
      reads ledger
      ensures r.Some? <==> token in ledger.issued
    {
      Decode(ledger.issued, token)
    }
  }

  /**
   * Round trip: an access token generated at `now` verifies as an access
   * token at any time before `now + JWT_EXPIRY` and yields the same identity.
   */
  method AccessRoundTrip(util: JwtUtil, c: Claims, now: int, later: int) returns (token: string)
    requires util.Valid()
    requires now <= later < now + JWT_EXPIRY_SECONDS
    modifies util.ledger
    ensures util.Valid()
    ensures util.VerifyAccessToken(token, later) == Ok(c)
  {
    token := util.GenerateAccessToken(c, now);
  }

  /**
   * With distinct secrets, a refresh token never passes access verification
   * and an access token never passes refresh verification.
   */
  method SecretsSeparateTokenKinds(util: JwtUtil, c: Claims, now: int, at: int)
      returns (access: string, refresh: string)
    requires util.Valid() && util.accessSecret != util.refreshSecret
    modifies util.ledger
    ensures util.Valid()
    ensures util.VerifyAccessToken(refresh, at).Err? && util.VerifyRefreshToken(access, at).Err?
  {
    access := util.GenerateAccessToken(c, now);
    refresh := util.GenerateRefreshToken(c, now);
  }
}
