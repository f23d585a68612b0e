/**
 * Status codes (section 15 of RFC 9110) and the fixed user-facing messages the
 * API answers with.
 */
module Http {
  const BAD_REQUEST: int := 400
  const UNAUTHORIZED: int := 401
  const FORBIDDEN: int := 403
  const NOT_FOUND: int := 404
  const CONFLICT: int := 409
  const UNPROCESSABLE_ENTITY: int := 422
  const INTERNAL_SERVER_ERROR: int := 500
  const SERVICE_UNAVAILABLE: int := 503

  /** A 4xx or 5xx code: the request failed. */
  predicate IsErrorStatus(s: int)
  {
    400 <= s <= 599
  }

  // ERROR_MESSAGES of packages/shared-constants/src/messages.ts
  const MSG_UNAUTHORIZED: string := "Authentication required"
  const MSG_FORBIDDEN: string := "You do not have permission to perform this action"
  const MSG_NOT_FOUND: string := "Resource not found"
  const MSG_VALIDATION_ERROR: string := "Validation failed"
  const MSG_INTERNAL_ERROR: string := "Internal server error"
  const MSG_INVALID_CREDENTIALS: string := "Invalid email or password"
  const MSG_TOKEN_EXPIRED: string := "Token has expired"
  const MSG_TOKEN_INVALID: string := "Invalid token"
  const MSG_USER_NOT_FOUND: string := "User not found"
  const MSG_STUDENT_NOT_FOUND: string := "Student not found"
  const MSG_CLASS_NOT_FOUND: string := "Class not found"
}
