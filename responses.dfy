/**
 * The JSON bodies the three runtimes send on an error. Express builds them
 * with `ResponseFormatter.error` / `ResponseFormatter.validationError`; the
 * Bun and Deno handlers and middlewares write `{success, message, error}`
 * literals. Absent fields are `None`; the `timestamp` every body carries is
 * a clock reading and is not modelled.
 */
module Responses {
  import opened Wrappers

  /** One entry of a validation error list: the dotted field path, message and code. */
  datatype ValidationEntry = ValidationEntry(field: string, message: string, code: string)

  datatype ErrorBody = ErrorBody(
    success: bool,
    message: string,
    error: Option<string>,
    errors: Option<seq<ValidationEntry>>,
    statusCode: Option<int>)

  /** `ResponseFormatter.error(message, statusCode, error)`. */
  function FormatterError(message: string, statusCode: int, error: string): (b: ErrorBody)
    ensures !b.success && b.message == message && b.statusCode == Some(statusCode) && b.error == Some(error)
  {
    ErrorBody(false, message, Some(error), None, Some(statusCode))
  }

  /** `ResponseFormatter.validationError(errors)`. */
  function FormatterValidationError(errors: seq<ValidationEntry>): (b: ErrorBody)
    ensures !b.success && b.message == "Validation failed" && b.errors == Some(errors)
  {
    ErrorBody(false, "Validation failed", None, Some(errors), None)
  }

  /** `{ success: false, message, timestamp }` as the Bun and Deno middlewares write it. */
  function Envelope(message: string): (b: ErrorBody)
    ensures !b.success && b.message == message && b.error.None?
  {
    ErrorBody(false, message, None, None, None)
  }

  /** `{ success: false, message, error, timestamp }` as the Bun and Deno error handlers write it. */
  function NamedEnvelope(message: string, error: Option<string>): (b: ErrorBody)
    ensures !b.success && b.message == message && b.error == error
  {
    ErrorBody(false, message, error, None, None)
  }
}
