/**
 * The `AppError` hierarchy and the other values a request handler can throw.
 *
 * Every subclass of `AppError` only fixes a status code (and sometimes a
 * default message), so one datatype with a class tag models the hierarchy;
 * `instanceof AppError` is the `App?` test and holds for every subclass. None of
 * the classes sets `name`, so an `AppError`'s name is the inherited "Error".
 */
module ErrorTypes {
  import opened Wrappers
  import opened Http

  datatype ErrorClass =
    | Base | NotFound | Validation | Unauthorized | Forbidden
    | Conflict | BadRequest | ServiceUnavailable

  datatype AppError = AppError(cls: ErrorClass, statusCode: int, message: string, isOperational: bool)

  /** The `name` every `AppError` carries (the one inherited from `Error`). */
  const APP_ERROR_NAME: string := "Error"

  /** The status code a subclass fixes; the base class takes one from its caller. */
  function SubclassStatus(c: ErrorClass): (s: Option<int>)
    ensures s.None? <==> c == Base
    ensures s.Some? ==> IsErrorStatus(s.value)
  {
    match c
    case Base => None
    case NotFound => Some(NOT_FOUND)
    case Validation => Some(UNPROCESSABLE_ENTITY)
    case Unauthorized => Some(UNAUTHORIZED)
    case Forbidden => Some(FORBIDDEN)
    case Conflict => Some(CONFLICT)
    case BadRequest => Some(BAD_REQUEST)
    case ServiceUnavailable => Some(SERVICE_UNAVAILABLE)
  }

  /** The invariant every constructor establishes: a subclass carries its fixed status. */
  predicate WellFormed(e: AppError)
  {
    e.cls != Base ==> SubclassStatus(e.cls) == Some(e.statusCode)
  }

  /** `new AppError(statusCode, message)`: both kept as given, operational by default. */
  function NewAppError(statusCode: int, message: string): (e: AppError)
    ensures WellFormed(e) && e.isOperational
    ensures e.statusCode == statusCode && e.message == message
  {
    AppError(Base, statusCode, message, true)
  }

  /** `new NotFoundError(resource)`. */
  function NewNotFoundError(resource: string): (e: AppError)
    ensures WellFormed(e) && e.statusCode == NOT_FOUND
    ensures e.message == resource + " not found"
  {
    AppError(NotFound, NOT_FOUND, resource + " not found", true)
  }

  /** `new ValidationError(message)`. */
  function NewValidationError(message: string): (e: AppError)
    ensures WellFormed(e) && e.statusCode == UNPROCESSABLE_ENTITY && e.message == message
  {
    AppError(Validation, UNPROCESSABLE_ENTITY, message, true)
  }

  /** `new UnauthorizedError(message?)`; the message defaults to "Unauthorized". */
  function NewUnauthorizedError(message: Option<string>): (e: AppError)
    ensures WellFormed(e) && e.statusCode == UNAUTHORIZED
    ensures e.message == (if message.Some? then message.value else "Unauthorized")
  {
    AppError(Unauthorized, UNAUTHORIZED, if message.Some? then message.value else "Unauthorized", true)
  }

  /** `new ForbiddenError(message?)`; the message defaults to "Forbidden". */
  function NewForbiddenError(message: Option<string>): (e: AppError)
    ensures WellFormed(e) && e.statusCode == FORBIDDEN
    ensures e.message == (if message.Some? then message.value else "Forbidden")
  {
    AppError(Forbidden, FORBIDDEN, if message.Some? then message.value else "Forbidden", true)
  }

  /** `new ConflictError(message)`. */
  function NewConflictError(message: string): (e: AppError)
    ensures WellFormed(e) && e.statusCode == CONFLICT && e.message == message
  {
    AppError(Conflict, CONFLICT, message, true)
  }

  /** `new BadRequestError(message)`. */
  function NewBadRequestError(message: string): (e: AppError)
    ensures WellFormed(e) && e.statusCode == BAD_REQUEST && e.message == message
  {
    AppError(BadRequest, BAD_REQUEST, message, true)
  }

  /** `new ServiceUnavailableError(message?)`, defaulting to "Service temporarily unavailable". */
  function NewServiceUnavailableError(message: Option<string>): (e: AppError)
    ensures WellFormed(e) && e.statusCode == SERVICE_UNAVAILABLE
    ensures e.message == (if message.Some? then message.value else "Service temporarily unavailable")
  {
    AppError(ServiceUnavailable, SERVICE_UNAVAILABLE,
             if message.Some? then message.value else "Service temporarily unavailable", true)
  }

  /** The `code` property of a thrown object: absent, a number (MongoDB) or a string. */
  datatype Code = NoCode | NumCode(n: int) | TextCode(s: string)

  /** One value of a Mongoose `ValidationError.errors` record. */
  datatype FieldError = WithMessage(m: string) | WithoutMessage

  /** One issue of a `ZodError`; path segments as `join('.')` renders them. */
  datatype ZodIssue = ZodIssue(path: seq<string>, message: string, code: string)

  /**
   * Anything a handler can throw: an `AppError`, a `ZodError`, any other
   * object (a driver error, a `jsonwebtoken` error, a plain `Error`), or a
   * value that is not an object at all, such as a string.
   */
  datatype Thrown =
    | App(app: AppError)
    | Zod(issues: seq<ZodIssue>, zodMessage: string)
    | Plain(name: string, message: Option<string>, code: Code, keyPattern: seq<string>,
            errors: seq<FieldError>, path: Option<string>, value: string, status: Option<int>)
    | Primitive(text: string)

  /** `err.name`, or `undefined` for a non-object. */
  function NameOf(t: Thrown): Option<string>
  {
    match t
    case App(_) => Some(APP_ERROR_NAME)
    case Zod(_, _) => Some("ZodError")
    case Plain(name, _, _, _, _, _, _, _) => Some(name)
    case Primitive(_) => None
  }

  /** `err.message`, or `undefined`. */
  function MessageOf(t: Thrown): Option<string>
  {
    match t
    case App(e) => Some(e.message)
    case Zod(_, m) => Some(m)
    case Plain(_, m, _, _, _, _, _, _) => m
    case Primitive(_) => None
  }

  /** `err.code`; neither an `AppError` nor a `ZodError` has one. */
  function CodeOf(t: Thrown): Code
  {
    if t.Plain? then t.code else NoCode
  }

  /**
   * An `Error` instance, as far as the handlers can tell: an object that has
   * a `message`. A thrown object literal without one is not.
   */
  predicate IsErrorInstance(t: Thrown)
  {
    !t.Primitive? && MessageOf(t).Some?
  }

  /** A plain JavaScript error with only a name and a message. */
  function SimpleError(name: string, message: string): (t: Thrown)
    ensures NameOf(t) == Some(name) && MessageOf(t) == Some(message) && CodeOf(t) == NoCode
    ensures IsErrorInstance(t)
  {
    Plain(name, Some(message), NoCode, [], [], None, "undefined", None)
  }
}
