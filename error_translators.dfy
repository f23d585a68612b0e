/**
 * `JWTErrorHandler` and `MongoDBErrorHandler`: each `handle` never returns
 * normally, so it is modelled as the function giving the value it throws —
 * either a translated `AppError` or the original error, rethrown unchanged.
 */
module ErrorTranslators {
  import opened Wrappers
  import opened Http
  import opened ErrorTypes

  // ---------------------------------------------------------------- JWT errors

  const JSON_WEB_TOKEN_ERROR: string := "JsonWebTokenError"
  const TOKEN_EXPIRED_ERROR: string := "TokenExpiredError"

  /** `JWTErrorHandler.isJWTError`: a non-null object named like a `jsonwebtoken` error. */
  function IsJwtError(t: Thrown): (b: bool)
    ensures b <==> !t.Primitive? && (NameOf(t) == Some(JSON_WEB_TOKEN_ERROR) || NameOf(t) == Some(TOKEN_EXPIRED_ERROR))
    ensures b ==> t.Plain?
  {
    match NameOf(t)
    case Some(n) => n == JSON_WEB_TOKEN_ERROR || n == TOKEN_EXPIRED_ERROR
    case None => false
  }

  /** `JWTErrorHandler.handle`: what it throws. */
  function JwtHandle(t: Thrown): (r: Thrown)
    // it translates exactly the errors isJWTError recognises, into a 401
    ensures r != t <==> IsJwtError(t)
    ensures r != t ==> r.App? && r.app.cls == Unauthorized && r.app.statusCode == UNAUTHORIZED
    ensures NameOf(t) == Some(JSON_WEB_TOKEN_ERROR) ==> r.app.message == "Invalid token"
    ensures NameOf(t) == Some(TOKEN_EXPIRED_ERROR) ==> r.app.message == "Token expired"
  {
    if NameOf(t) == Some(JSON_WEB_TOKEN_ERROR) then App(NewUnauthorizedError(Some("Invalid token")))
    else if NameOf(t) == Some(TOKEN_EXPIRED_ERROR) then App(NewUnauthorizedError(Some("Token expired")))
    else t
  }

  // ------------------------------------------------------------ MongoDB errors

  /** `MongoDBErrorHandler.isMongoError`. */
  function IsMongoError(t: Thrown): (b: bool)
    ensures b <==> t.Plain? &&
                   (t.name in {"MongoError", "MongoServerError", "MongoNetworkError", "MongoTimeoutError",
                               "ValidationError", "CastError"}
                    || t.code == NumCode(11000) || t.code == NumCode(121))
  {
    match t
    case Plain(name, _, code, _, _, _, _, _) =>
      || name == "MongoError" || name == "MongoServerError"
      || name == "MongoNetworkError" || name == "MongoTimeoutError"
      || name == "ValidationError" || name == "CastError"
      || code == NumCode(11000) || code == NumCode(121)
    case _ => false
  }

  /** The errors `handle` translates rather than rethrows. */
  predicate Translatable(t: Thrown)
  {
    || CodeOf(t) == NumCode(11000) || CodeOf(t) == NumCode(121)
    || NameOf(t) == Some("MongoNetworkError") || NameOf(t) == Some("MongoTimeoutError")
    || NameOf(t) == Some("ValidationError") || NameOf(t) == Some("CastError")
  }

  /** `Object.keys(keyPattern || {})[0] || 'field'`: the first key unless there is none (or it is ""). */
  function DuplicateField(keyPattern: seq<string>): (f: string)
    ensures f != ""
    ensures |keyPattern| > 0 && keyPattern[0] != "" ==> f == keyPattern[0]
  {
    if |keyPattern| > 0 && keyPattern[0] != "" then keyPattern[0] else "field"
  }

  /** `parts.join(sep)`. */
  function Join(parts: seq<string>, sep: string): string
  {
    if |parts| == 0 then ""
    else if |parts| == 1 then parts[0]
    else parts[0] + sep + Join(parts[1..], sep)
  }

  /** `.map(e => e.message or '').filter(Boolean)`: the non-empty messages, in order. */
  function NonEmptyMessages(errors: seq<FieldError>): (ms: seq<string>)
    ensures forall i :: 0 <= i < |ms| ==> ms[i] != ""
    ensures |ms| == 0 <==> forall i :: 0 <= i < |errors| ==> !(errors[i].WithMessage? && errors[i].m != "")
    ensures |errors| == 1 ==> ms == (if errors[0].WithMessage? && errors[0].m != "" then [errors[0].m] else [])
  {
    if |errors| == 0 then []
    else
      var rest := NonEmptyMessages(errors[1..]);
      assert forall i :: 1 <= i < |errors| ==> errors[i] == errors[1..][i - 1];
      if errors[0].WithMessage? && errors[0].m != "" then [errors[0].m] + rest else rest
  }

  /** The messages of two runs of sub-errors are those of the first followed by those of the second. */
  lemma {:induction false} NonEmptyMessagesAppend(a: seq<FieldError>, b: seq<FieldError>)
    ensures NonEmptyMessages(a + b) == NonEmptyMessages(a) + NonEmptyMessages(b)
  {
    if |a| > 0 {
      assert (a + b)[0] == a[0];
      assert (a + b)[1..] == a[1..] + b;
      NonEmptyMessagesAppend(a[1..], b);
    } else {
      assert a + b == b;
    }
  }

  /** A message is kept exactly when it is non-empty and some sub-error carries it. */
  lemma {:induction false} NonEmptyMessagesMembers(errors: seq<FieldError>, s: string)
    ensures s in NonEmptyMessages(errors) <==>
              s != "" && exists i :: 0 <= i < |errors| && errors[i].WithMessage? && errors[i].m == s
  {
    if |errors| > 0 {
      NonEmptyMessagesMembers(errors[1..], s);
      if s != "" && (exists i :: 0 <= i < |errors| && errors[i].WithMessage? && errors[i].m == s) {
        var i :| 0 <= i < |errors| && errors[i].WithMessage? && errors[i].m == s;
        if i > 0 {
          assert errors[1..][i - 1] == errors[i];
        }
      }
      if s in NonEmptyMessages(errors[1..]) {
        var i :| 0 <= i < |errors[1..]| && errors[1..][i].WithMessage? && errors[1..][i].m == s;
        assert errors[i + 1] == errors[1..][i];
      }
    }
  }

  /** Joining non-empty parts gives the empty string only when there are no parts. */
  lemma {:induction false} JoinEmptyIff(parts: seq<string>, sep: string)
    requires forall i :: 0 <= i < |parts| ==> parts[i] != ""
    ensures Join(parts, sep) == "" <==> |parts| == 0
  {
    if |parts| > 1 {
      assert |parts[0] + sep + Join(parts[1..], sep)| >= |parts[0]| > 0;
    }
  }

  /** The message of the `BadRequestError` a Mongoose `ValidationError` becomes. */
  function ValidationMessage(errors: seq<FieldError>): (m: string)
    ensures m != ""
    ensures m == "Validation failed" || m == Join(NonEmptyMessages(errors), ", ")
    ensures NonEmptyMessages(errors) != [] ==> m == Join(NonEmptyMessages(errors), ", ")
    ensures (forall i :: 0 <= i < |errors| ==> !(errors[i].WithMessage? && errors[i].m != ""))
            ==> m == "Validation failed"
  {
    var joined := Join(NonEmptyMessages(errors), ", ");
    JoinEmptyIff(NonEmptyMessages(errors), ", ");
    if joined != "" then joined else "Validation failed"
  }

  /** `${error.path}`: an absent path prints as "undefined". */
  function PathText(path: Option<string>): string
  {
    if path.Some? then path.value else "undefined"
  }

  /** `MongoDBErrorHandler.handle`: what it throws. Code checks come before name checks. */
  function MongoHandle(t: Thrown): (r: Thrown)
    ensures r == t <==> !Translatable(t)
    ensures r != t ==> r.App? && WellFormed(r.app) && r.app.statusCode in {CONFLICT, BAD_REQUEST, SERVICE_UNAVAILABLE}
    ensures CodeOf(t) == NumCode(11000) ==>
              r.App? && r.app.cls == Conflict &&
              r.app.message == "Duplicate value for " + DuplicateField(t.keyPattern) + ". This "
                               + DuplicateField(t.keyPattern) + " already exists."
    ensures CodeOf(t) == NumCode(121) ==>
              r.App? && r.app.cls == BadRequest && r.app.message == "Document validation failed"
    ensures CodeOf(t) !in {NumCode(11000), NumCode(121)} &&
            (NameOf(t) == Some("MongoNetworkError") || NameOf(t) == Some("MongoTimeoutError")) ==>
              r.App? && r.app.cls == ServiceUnavailable
    ensures CodeOf(t) !in {NumCode(11000), NumCode(121)} && NameOf(t) == Some("ValidationError") ==>
              r.App? && r.app.cls == BadRequest && r.app.message == ValidationMessage(t.errors)
    ensures CodeOf(t) !in {NumCode(11000), NumCode(121)} && NameOf(t) == Some("CastError") ==>
              r.App? && r.app.cls == BadRequest && r.app.message == "Invalid " + PathText(t.path) + ": " + t.value
  {
    if CodeOf(t) == NumCode(11000) then
      var field := DuplicateField(t.keyPattern);
      App(NewConflictError("Duplicate value for " + field + ". This " + field + " already exists."))
    else if CodeOf(t) == NumCode(121) then
      App(NewBadRequestError("Document validation failed"))
    else if NameOf(t) == Some("MongoNetworkError") || NameOf(t) == Some("MongoTimeoutError") then
      App(NewServiceUnavailableError(Some("Database connection error. Please try again later.")))
    else if NameOf(t) == Some("ValidationError") then
      App(NewBadRequestError(ValidationMessage(t.errors)))
    else if NameOf(t) == Some("CastError") then
      App(NewBadRequestError("Invalid " + PathText(t.path) + ": " + t.value))
    else
      t
  }

  /** Everything `handle` translates is recognised by `isMongoError` first. */
  lemma TranslatableIsMongo(t: Thrown)
    requires Translatable(t)
    ensures IsMongoError(t)
  {
  }

  /**
   * `isMongoError` also accepts the generic driver names "MongoError" and
   * "MongoServerError", which `handle` rethrows untranslated unless the code is
   * 11000 or 121.
   */
  lemma GenericDriverErrorsRethrown(t: Thrown)
    requires t.Plain? && t.name in {"MongoError", "MongoServerError"}
    requires t.code != NumCode(11000) && t.code != NumCode(121)
    ensures IsMongoError(t) && MongoHandle(t) == t
  {
  }

  /**
   * Apart from the two MongoDB codes, which any error can carry, no error is
   * both translated by the MongoDB handler and recognised as a JWT error.
   */
  lemma TranslatorsDisjointByName(t: Thrown)
    requires CodeOf(t) != NumCode(11000) && CodeOf(t) != NumCode(121)
    ensures !(Translatable(t) && IsJwtError(t))
  {
  }
}
