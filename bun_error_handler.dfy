/**
 * `BunErrorHandler.handle({ code, error, set })`. It only consults the
 * translators for an error-like value (a non-null object with a `message`),
 * and catches what they throw itself: a translated `AppError` is answered,
 * anything else is swallowed and the dispatch goes on. The default answer is
 * 404 when Elysia's `code` is "NOT_FOUND" and 500 otherwise.
 */
module BunErrorHandler {
  import opened Wrappers
  import opened Http
  import opened ErrorTypes
  import opened ErrorTranslators
  import opened Responses
  import opened BunAuth

  datatype Answer = Answer(status: int, body: ErrorBody)

  /** `String(error)` for a value that is not error-like. */
  function StringOf(t: Thrown): string
  {
    if t.Primitive? then t.text else "[object Object]"
  }

  /** The `error` field of the default answer. */
  function DefaultDetail(t: Thrown): string
  {
    if IsErrorInstance(t) then MessageOf(t).value else StringOf(t)
  }

  /** The status and body `handle` produces. */
  function BunErrorAnswer(code: Option<string>, t: Thrown): (a: Answer)
    ensures !a.body.success
    ensures t.App? ==> a.status == t.app.statusCode && a.body.message == t.app.message && a.body.error == Some(APP_ERROR_NAME)
    ensures !t.App? && !(IsErrorInstance(t) && (Translatable(t) || IsJwtError(t))) ==>
              a.status == (if code == Some("NOT_FOUND") then NOT_FOUND else INTERNAL_SERVER_ERROR) &&
              a.body.message == (if code == Some("NOT_FOUND") then "Resource not found" else MSG_INTERNAL_ERROR) &&
              a.body.error == Some(DefaultDetail(t))
  {
    var mongo := if IsErrorInstance(t) && IsMongoError(t) then MongoHandle(t) else t;
    if mongo.App? && mongo != t then
      Answer(mongo.app.statusCode, NamedEnvelope(mongo.app.message, Some(APP_ERROR_NAME)))
    else
      var jwt := if IsErrorInstance(t) && IsJwtError(t) then JwtHandle(t) else t;
      if jwt.App? && jwt != t then
        Answer(jwt.app.statusCode, NamedEnvelope(jwt.app.message, Some(APP_ERROR_NAME)))
      else if t.App? then
        Answer(t.app.statusCode, NamedEnvelope(t.app.message, Some(APP_ERROR_NAME)))
      else
        Answer(
          if code == Some("NOT_FOUND") then NOT_FOUND else INTERNAL_SERVER_ERROR,
          NamedEnvelope(if code == Some("NOT_FOUND") then "Resource not found" else MSG_INTERNAL_ERROR,
                        Some(DefaultDetail(t))))
  }

  /** A MongoDB error `handle` translates is answered with the status and message of its `AppError`. */
  lemma TranslatedMongoAnswer(code: Option<string>, t: Thrown)
    requires IsErrorInstance(t) && Translatable(t)
    ensures BunErrorAnswer(code, t).status == MongoHandle(t).app.statusCode
    ensures BunErrorAnswer(code, t).body.message == MongoHandle(t).app.message
  {
    TranslatableIsMongo(t);
    assert MongoHandle(t) != t;
  }

  /** A JWT error that is not a translated MongoDB error is answered with 401 and the translator's message. */
  lemma JwtAnswer(code: Option<string>, t: Thrown)
    requires IsErrorInstance(t) && IsJwtError(t) && !Translatable(t)
    ensures BunErrorAnswer(code, t).status == UNAUTHORIZED
    ensures BunErrorAnswer(code, t).body.message == JwtHandle(t).app.message
  {
  }

  /**
   * A MongoDB error `handle` does not translate (a generic driver error) is
   * swallowed and answered by the default branch, never as "UnexpectedError".
   */
  lemma UntranslatedMongoFallsThrough(code: Option<string>, t: Thrown)
    requires IsErrorInstance(t) && IsMongoError(t) && !Translatable(t)
    ensures BunErrorAnswer(code, t).status == (if code == Some("NOT_FOUND") then NOT_FOUND else INTERNAL_SERVER_ERROR)
    ensures BunErrorAnswer(code, t).body.error == MessageOf(t)
  {
    assert !IsJwtError(t);
  }

  /** `handle({ code, error, set })`: writes `set.status` and returns the body. */
  method Handle(ctx: ElysiaSet, code: Option<string>, error: Thrown) returns (body: ErrorBody)
    modifies ctx
    ensures Answer(ctx.status, body) == BunErrorAnswer(code, error)
  {
    var errorLike := IsErrorInstance(error);
    if errorLike && IsMongoError(error) {
      var handled := MongoHandle(error);
      if handled.App? && handled != error {
        ctx.status := handled.app.statusCode;
        return NamedEnvelope(handled.app.message, Some(APP_ERROR_NAME));
      }
    }
    if errorLike && IsJwtError(error) {
      var handled := JwtHandle(error);
      if handled.App? && handled != error {
        ctx.status := handled.app.statusCode;
        return NamedEnvelope(handled.app.message, Some(APP_ERROR_NAME));
      }
    }
    if error.App? {
      ctx.status := error.app.statusCode;
      return NamedEnvelope(error.app.message, Some(APP_ERROR_NAME));
    }
    ctx.status := if code == Some("NOT_FOUND") then NOT_FOUND else INTERNAL_SERVER_ERROR;
    body := NamedEnvelope(if code == Some("NOT_FOUND") then "Resource not found" else MSG_INTERNAL_ERROR,
                          Some(DefaultDetail(error)));
  }
}
