/**
 * The shared Express `errorHandler`. It answers a `ZodError` with 422 and
 * one entry per issue; it lets the MongoDB and then the JWT translator throw
 * (both only ever throw), answers an `AppError` with its own status, and
 * anything else with 500. What a translator throws is caught once more: an
 * `AppError` is answered with its status, anything else with 500
 * "Unexpected error".
 */
module ExpressErrorHandler {
  import opened Wrappers
  import opened Http
  import opened ErrorTypes
  import opened ErrorTranslators
  import opened Responses

  datatype Response = Response(status: int, body: ErrorBody)

  /** `err.errors.map(e => ({ field: e.path.join('.'), message: e.message, code: e.code }))`. */
  function ZodEntries(issues: seq<ZodIssue>): (es: seq<ValidationEntry>)
    ensures |es| == |issues|
    ensures forall i :: 0 <= i < |issues| ==>
              es[i] == ValidationEntry(Join(issues[i].path, "."), issues[i].message, issues[i].code)
  {
    seq(|issues|, i requires 0 <= i < |issues| => ValidationEntry(Join(issues[i].path, "."), issues[i].message, issues[i].code))
  }

  /** The answer for an `AppError`, whether thrown by a handler or by a translator. */
  function AppErrorResponse(e: AppError): Response
  {
    Response(e.statusCode, FormatterError(e.message, e.statusCode, APP_ERROR_NAME))
  }

  /** The `catch (handledError)` block. */
  function CatchTranslated(h: Thrown): Response
  {
    if h.App? then AppErrorResponse(h.app)
    else Response(INTERNAL_SERVER_ERROR, FormatterError(MSG_INTERNAL_ERROR, INTERNAL_SERVER_ERROR, "Unexpected error"))
  }

  /** `error.message || 'Unknown error'`. */
  function DetailOf(t: Thrown): string
  {
    var m := MessageOf(t);
    if m.Some? && m.value != "" then m.value else "Unknown error"
  }

  /** The response `errorHandler` writes for a thrown value. */
  function ExpressErrorResponse(t: Thrown): (r: Response)
    ensures !r.body.success
    ensures t.Zod? ==> r.status == UNPROCESSABLE_ENTITY && r.body.errors == Some(ZodEntries(t.issues))
    ensures t.App? ==> r.status == t.app.statusCode && r.body.message == t.app.message
    ensures !t.App? && !t.Zod? && !IsMongoError(t) && !IsJwtError(t) ==>
              r.status == INTERNAL_SERVER_ERROR && r.body.message == MSG_INTERNAL_ERROR && r.body.error == Some(DetailOf(t))
    ensures !t.App? ==> IsErrorStatus(r.status)
  {
    if t.Zod? then
      Response(UNPROCESSABLE_ENTITY, FormatterValidationError(ZodEntries(t.issues)))
    else if IsMongoError(t) then
      CatchTranslated(MongoHandle(t))
    else if IsJwtError(t) then
      CatchTranslated(JwtHandle(t))
    else if t.App? then
      AppErrorResponse(t.app)
    else
      Response(INTERNAL_SERVER_ERROR, FormatterError(MSG_INTERNAL_ERROR, INTERNAL_SERVER_ERROR, DetailOf(t)))
  }

  /** A Mongo error the translator knows is answered with the status and message of its `AppError`. */
  lemma TranslatedMongoResponse(t: Thrown)
    requires Translatable(t)
    ensures ExpressErrorResponse(t).status == MongoHandle(t).app.statusCode
    ensures ExpressErrorResponse(t).body.message == MongoHandle(t).app.message
  {
    TranslatableIsMongo(t);
    assert MongoHandle(t) != t;
  }

  /** A Mongo error the translator does not know is answered with 500 'Unexpected error'. */
  lemma UntranslatedMongoResponse(t: Thrown)
    requires IsMongoError(t) && !Translatable(t)
    ensures ExpressErrorResponse(t).status == INTERNAL_SERVER_ERROR
    ensures ExpressErrorResponse(t).body.error == Some("Unexpected error")
  {
  }

  /** A JWT error (that is not also a Mongo error) is answered with 401 and the translator's message. */
  lemma JwtResponse(t: Thrown)
    requires IsJwtError(t) && !IsMongoError(t)
    ensures ExpressErrorResponse(t).status == UNAUTHORIZED
    ensures ExpressErrorResponse(t).body.message == JwtHandle(t).app.message
  {
  }

  /** Express's response object, as far as the handler touches it. */
  class ExpressResponse {
    var status: int
    var body: Option<ErrorBody>
    /** How many times `res.status(...).json(...)` has been called. */
    var writes: nat

    constructor ()
      ensures status == 200 && body.None? && writes == 0
    {
      status := 200;
      body := None;
      writes := 0;
    }

    /** `res.status(s).json(b)`. */
    method Send(s: int, b: ErrorBody)
      modifies this
      ensures status == s && body == Some(b) && writes == old(writes) + 1
    {
      status := s;
      body := Some(b);
      writes := writes + 1;
    }
  }

  /** `errorHandler(err, req, res, next)`: exactly one response, the one `ExpressErrorResponse` gives. */
  method ErrorHandler(res: ExpressResponse, err: Thrown)
    modifies res
    ensures res.writes == old(res.writes) + 1
    ensures res.body.Some? && Response(res.status, res.body.value) == ExpressErrorResponse(err)
  {
    if err.Zod? {
      res.Send(UNPROCESSABLE_ENTITY, FormatterValidationError(ZodEntries(err.issues)));
      return;
    }
    var handled: Option<Thrown> := None;
    if IsMongoError(err) {
      handled := Some(MongoHandle(err));
    } else if IsJwtError(err) {
      handled := Some(JwtHandle(err));
    }
    if handled.None? {
      if err.App? {
        res.Send(err.app.statusCode, FormatterError(err.app.message, err.app.statusCode, APP_ERROR_NAME));
        return;
      }
      res.Send(INTERNAL_SERVER_ERROR, FormatterError(MSG_INTERNAL_ERROR, INTERNAL_SERVER_ERROR, DetailOf(err)));
      return;
    }
    var h := handled.value;
    if h.App? {
      res.Send(h.app.statusCode, FormatterError(h.app.message, h.app.statusCode, APP_ERROR_NAME));
      return;
    }
    res.Send(INTERNAL_SERVER_ERROR, FormatterError(MSG_INTERNAL_ERROR, INTERNAL_SERVER_ERROR, "Unexpected error"));
  }

  /** A duplicate-key error becomes 409 and a broken connection 503. */
  lemma MongoStatuses(t: Thrown)
    requires t.Plain?
    ensures t.code == NumCode(11000) ==> ExpressErrorResponse(t).status == CONFLICT
    ensures t.code !in {NumCode(11000), NumCode(121)} && t.name == "MongoNetworkError" ==>
              ExpressErrorResponse(t).status == SERVICE_UNAVAILABLE
  {
  }
}
