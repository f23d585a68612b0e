/**
 * The Deno `errorHandler` middleware: it calls `next()` and answers whatever
 * is thrown downstream. A translated MongoDB or JWT error and an `AppError`
 * are answered with their status; anything else with `err.status || 500`
 * and `err.message || 'Internal server error'`.
 */
module DenoErrorHandler {
  import opened Wrappers
  import opened Http
  import opened ErrorTypes
  import opened ErrorTranslators
  import opened Responses
  import opened DenoMiddleware
  import ExpressErrorHandler
  import BunErrorHandler

  datatype Answer = Answer(status: int, body: ErrorBody)

  /** `err.status || 500`: a missing or zero status gives 500. */
  function StatusOr500(t: Thrown): int
  {
    if t.Plain? && t.status.Some? && t.status.value != 0 then t.status.value else INTERNAL_SERVER_ERROR
  }

  /** The status and body the `catch` block writes. */
  function DenoErrorAnswer(t: Thrown): (a: Answer)
    ensures !a.body.success
    ensures t.App? ==> a.status == t.app.statusCode && a.body.message == t.app.message
    ensures !t.App? && !Translatable(t) && !IsJwtError(t) ==>
              a.status == StatusOr500(t) && a.body.error == NameOf(t) &&
              (MessageOf(t).None? || MessageOf(t) == Some("") ==> a.body.message == MSG_INTERNAL_ERROR)
    ensures !t.App? && !Translatable(t) && !IsJwtError(t) && MessageOf(t).Some? && MessageOf(t).value != "" ==>
              a.body.message == MessageOf(t).value
  {
    var mongo := if IsMongoError(t) then MongoHandle(t) else t;
    if mongo.App? && mongo != t then
      Answer(mongo.app.statusCode, NamedEnvelope(mongo.app.message, Some(APP_ERROR_NAME)))
    else
      var jwt := if IsJwtError(t) then JwtHandle(t) else t;
      if jwt.App? && jwt != t then
        Answer(jwt.app.statusCode, NamedEnvelope(jwt.app.message, Some(APP_ERROR_NAME)))
      else if t.App? then
        Answer(t.app.statusCode, NamedEnvelope(t.app.message, Some(APP_ERROR_NAME)))
      else
        var m := MessageOf(t);
        Answer(StatusOr500(t), NamedEnvelope(if m.Some? && m.value != "" then m.value else MSG_INTERNAL_ERROR, NameOf(t)))
  }

  /** A MongoDB error the translator knows is answered with the status and message of its `AppError`. */
  lemma TranslatedMongoAnswer(t: Thrown)
    requires Translatable(t)
    ensures DenoErrorAnswer(t).status == MongoHandle(t).app.statusCode
    ensures DenoErrorAnswer(t).body.message == MongoHandle(t).app.message
  {
    TranslatableIsMongo(t);
    assert MongoHandle(t) != t;
  }

  /** A JWT error that is not a translated MongoDB error is answered with 401 and the translator's message. */
  lemma JwtAnswer(t: Thrown)
    requires IsJwtError(t) && !Translatable(t)
    ensures DenoErrorAnswer(t).status == UNAUTHORIZED
    ensures DenoErrorAnswer(t).body.message == JwtHandle(t).app.message
  {
  }

  /**
   * `errorHandler(ctx, next)`; `downstream` is what `next()` throws, if
   * anything. With nothing thrown the response is left as downstream wrote it.
   */
  method ErrorHandler(ctx: OakContext, downstream: Option<Thrown>)
    modifies ctx
    ensures ctx.nextCalls == old(ctx.nextCalls) + 1 && ctx.user == old(ctx.user)
    ensures downstream.None? ==> ctx.status == old(ctx.status) && ctx.body == old(ctx.body)
    ensures downstream.Some? ==> ctx.body.Some? && Answer(ctx.status, ctx.body.value) == DenoErrorAnswer(downstream.value)
  {
    ctx.nextCalls := ctx.nextCalls + 1;
    if downstream.None? {
      return;
    }
    var err := downstream.value;
    if IsMongoError(err) {
      var handled := MongoHandle(err);
      if handled.App? && handled != err {
        ctx.status := handled.app.statusCode;
        ctx.body := Some(NamedEnvelope(handled.app.message, Some(APP_ERROR_NAME)));
        assert DenoErrorAnswer(err) == Answer(ctx.status, ctx.body.value);
        return;
      }
    }
    if IsJwtError(err) {
      var handled := JwtHandle(err);
      if handled.App? && handled != err {
        ctx.status := handled.app.statusCode;
        ctx.body := Some(NamedEnvelope(handled.app.message, Some(APP_ERROR_NAME)));
        return;
      }
    }
    assert !(IsMongoError(err) && MongoHandle(err).App? && MongoHandle(err) != err);
    if err.App? {
      ctx.status := err.app.statusCode;
      ctx.body := Some(NamedEnvelope(err.app.message, Some(APP_ERROR_NAME)));
      return;
    }
    ctx.status := StatusOr500(err);
    var m := MessageOf(err);
    ctx.body := Some(NamedEnvelope(if m.Some? && m.value != "" then m.value else MSG_INTERNAL_ERROR, NameOf(err)));
  }

  /**
   * The three runtimes answer an `AppError`, a translated MongoDB error and
   * a JWT error with the same status and message.
   */
  lemma {:induction false} DispatchersAgree(code: Option<string>, t: Thrown)
    requires t.App? || (IsErrorInstance(t) && (Translatable(t) || IsJwtError(t)))
    ensures var e := ExpressErrorHandler.ExpressErrorResponse(t);
            var b := BunErrorHandler.BunErrorAnswer(code, t);
            var d := DenoErrorAnswer(t);
            e.status == b.status == d.status && e.body.message == b.body.message == d.body.message
  {
    if t.App? {
    } else if Translatable(t) {
      ExpressErrorHandler.TranslatedMongoResponse(t);
      BunErrorHandler.TranslatedMongoAnswer(code, t);
      TranslatedMongoAnswer(t);
    } else {
      assert !IsMongoError(t);
      ExpressErrorHandler.JwtResponse(t);
      BunErrorHandler.JwtAnswer(code, t);
      JwtAnswer(t);
    }
  }

  /**
   * Where the runtimes part: a generic driver error is 500 "Unexpected error"
   * in Express, but Bun and Deno answer it from their default branches, with
   * its own message.
   */
  lemma GenericDriverErrorAnswers(t: Thrown, m: string)
    requires t.Plain? && t.name == "MongoServerError" && t.code == NoCode && t.message == Some(m) && m != ""
    requires t.status.None?
    ensures ExpressErrorHandler.ExpressErrorResponse(t).body.error == Some("Unexpected error")
    ensures BunErrorHandler.BunErrorAnswer(None, t).body.error == Some(m)
    ensures DenoErrorAnswer(t).status == INTERNAL_SERVER_ERROR && DenoErrorAnswer(t).body.message == m
  {
  }
}
