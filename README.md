# Student records API: access control, tokens, error mapping and grading

This project is a Dafny model of the decision logic shared by the three
implementations of the student-records API: Express, Bun (Elysia) and Deno
(oak). The three apps also share a set of packages. The model covers four
parts, and in each it proves what the code promises.

1. **Access-control policy.**
   - The closed `UserRole` and `Permission` enumerations.
   - The `ROLE_PERMISSIONS` and `ROLE_HIERARCHY` tables.
   - The guards `checkRole`, `checkPermission` and `checkMinimumRole`, and the Bun and Deno equivalents.
   - The Express route tables for classes, students, grades and reports, with the 200/401/403 outcomes that the role-permission test suite asserts.
2. **Bearer-token authentication and the token lifecycle.**
   - `Authorization: Bearer <token>` parsing (section 2.1 of RFC 6750).
   - `JwtUtil`, with separate access and refresh secrets.
   - The Deno single-key service.
   - The three login, refresh and current-user services.
   - Signing is an ideal signer. A ledger records, for every token text, its payload, the secret that signed it and its `exp` (section 4.1.4 of RFC 7519). Verification succeeds only with that secret and before `exp`.
3. **Error-to-status classification.**
   - The `AppError` hierarchy.
   - The JWT and MongoDB error translators.
   - The three top-level error handlers. Each is a total function from a thrown value to a status (section 15 of RFC 9110) and an envelope, plus an imperative wrapper that writes the response.
4. **Grading arithmetic.**
   - The `GRADE_SCALE` bands.
   - The banded letter lookup and the Deno threshold ladder.
   - The GPA table.
   - Per-class report aggregation, in the Express skip-missing-class form and the Bun/Deno abort form. Each runtime keeps its own letter rule: Express and Bun the banded lookup, Deno the ladder.
   - Pagination.
   - Percentages and GPAs are Dafny `real`s. `Math.round(x)` is `floor(x + 1/2)`.

State that the source changes step by step is modelled imperatively:

- **Classes.**
  - `JwtUtil` and the token ledger.
  - Express `req`/`res`.
  - Elysia's `set`.
  - oak's `ctx`.
- **Methods with loops.**
  - The report `reduce` grouping.
  - The report `for` loops.

Pure rules are functions, and lemmas relate them.

## Model

| member | source | states |
|---|---|---|
| UserTypes.AllRoles | packages/shared-types/src/user.types.ts:3-9 | the role enumeration has exactly five distinct members, and every role is among them |
| UserTypes.AllPermissions | packages/shared-types/src/user.types.ts:11-25 | the permission enumeration has exactly thirteen distinct members, and every permission is among them |
| UserTypes.ParseRole | packages/shared-types/src/user.types.ts:3-9 | a string parses to a role exactly when it is that role's string value, and otherwise names no role |
| UserTypes.ParsePermission | packages/shared-types/src/user.types.ts:11-25 | a string parses to a permission exactly when it is that permission's string value, and otherwise names no permission |
| UserTypes.RoleRoundTrip | packages/shared-types/src/user.types.ts:4-8 | each role's string value is its own name, so writing and parsing a role gives it back |
| UserTypes.PermissionRoundTrip | packages/shared-types/src/user.types.ts:12-24 | each permission's string value parses back to the same permission |
| UserTypes.RoleNameInjective | packages/shared-types/src/user.types.ts:3-9 | distinct roles have distinct string values |
| Roles.RolePermissions | packages/shared-constants/src/roles.ts:3-35 | every role holds VIEW_CLASSES. DELETE_GRADES, MANAGE_USERS and MANAGE_GRADES are held exactly by SUPER_ADMIN |
| Roles.PermissionListsDistinct | packages/shared-constants/src/roles.ts:3-35 | no role's list names a permission twice |
| Roles.SuperAdminList | packages/shared-constants/src/roles.ts:4-16 | SUPER_ADMIN's list is explicit: eleven permissions, without VIEW_OWN_GRADES and VIEW_CHILD_GRADES |
| Roles.StudentAndParentLists | packages/shared-constants/src/roles.ts:33-34 | STUDENT holds exactly {VIEW_OWN_GRADES, VIEW_CLASSES} and PARENT exactly {VIEW_CHILD_GRADES, VIEW_CLASSES} |
| Roles.LookupPermissions | packages/shared-constants/src/roles.ts:3-35 | the table, keyed by role string, finds a list exactly for the five role names, and that list is the role's |
| Roles.HeldPermissions | packages/shared-middleware/src/role-guard.ts:27 | with the empty-list fallback, a permission is held exactly when some role bearing that name lists it |
| Roles.Level | packages/shared-constants/src/roles.ts:37-43 | levels lie in 1..5, with 5 only for SUPER_ADMIN and 1 only for STUDENT |
| Roles.LevelOfName | packages/shared-middleware/src/role-guard.ts:46 | a string that names no role is level 0, and a role name gets its role's level |
| Roles.LevelsDistinct | packages/shared-constants/src/roles.ts:37-43 | distinct roles have distinct levels |
| Roles.HierarchyOrder | packages/shared-constants/src/roles.ts:37-43 | SUPER_ADMIN > ADMIN > TEACHER > PARENT > STUDENT |
| Roles.HierarchyIsNotInclusion | packages/shared-constants/src/roles.ts:17-32 | ADMIN outranks TEACHER but lacks CREATE_GRADES and UPDATE_GRADES, which TEACHER holds |
| RoleGuard.AnyHeld | packages/shared-middleware/src/role-guard.ts:28-30 | `some`/`includes` is true exactly when one required permission is in the held list |
| RoleGuard.CheckRole | packages/shared-middleware/src/role-guard.ts:7-19 | with no user it raises 401 UNAUTHORIZED. Otherwise it passes exactly when the role is among the allowed roles, and raises 403 FORBIDDEN when not |
| RoleGuard.CheckPermission | packages/shared-middleware/src/role-guard.ts:21-38 | with no user it raises 401. Otherwise it passes exactly when the role's table entry holds one required permission, and raises 403 when not |
| RoleGuard.CheckMinimumRole | packages/shared-middleware/src/role-guard.ts:40-55 | with no user it raises 401. Otherwise it passes exactly when the named role's level is at least the minimum's, and raises 403 when not |
| RoleGuard.EmptyRequiredDenies | packages/shared-middleware/src/role-guard.ts:28-30 | an empty required list denies every authenticated user with 403 |
| RoleGuard.SnapshotIgnored | packages/shared-middleware/src/role-guard.ts:27 | the token's embedded permissions snapshot never changes the verdict |
| RoleGuard.PermissionMonotone | packages/shared-middleware/src/role-guard.ts:28-30 | adding permissions to the required list, before or after, never turns an allow into a deny |
| RoleGuard.UnknownRoleDenied | packages/shared-middleware/src/role-guard.ts:27-51 | a role string naming no role is denied by checkPermission and by checkMinimumRole(STUDENT) |
| RoleGuard.MinimumRoleUpwardClosed | packages/shared-middleware/src/role-guard.ts:46-51 | a role at or above the minimum level passes, including the equal level |
| RoleGuard.CheckRoleOwnRole | packages/shared-middleware/src/role-guard.ts:13 | a user passes checkRole for their own role |
| Bearer.BearerToken | apps/bun-api/src/middleware/auth.middleware.ts:10-14 | a token is found exactly when the header is present and starts with the case-sensitive "Bearer ", and the header is "Bearer " followed by that token |
| Bearer.BearerRoundTrip | packages/shared-middleware/src/auth-middleware.ts:23 | the header "Bearer " + t yields exactly t |
| Bearer.SchemeIsCaseSensitive | apps/bun-api/src/middleware/auth.middleware.ts:10-12 | "bearer t" and a bare "Bearer" yield no token |
| TokenService.VerifyErrorThrown | packages/shared-utils/src/jwt.ts:26-32 | a verification failure is thrown as a plain error named TokenExpiredError or JsonWebTokenError |
| TokenService.Verify | packages/shared-utils/src/jwt.ts:26-32 | succeeds exactly for a token issued under the same secret and before its exp, returning the payload it was signed with. It reports "expired" exactly for a correctly signed token at or after its exp |
| TokenService.Decode | packages/shared-utils/src/jwt.ts:34-36 | returns a payload, checking no signature, exactly for an issued token; whenever verification succeeds the payloads agree |
| TokenService.SignThenVerify | packages/shared-utils/src/jwt.ts:14-28 | a token signed with a secret verifies with that secret before its expiry and returns its claims |
| TokenService.WrongSecretRejected | packages/shared-utils/src/jwt.ts:26-32 | a token verified with a secret other than its own is an invalid signature |
| TokenService.TokenLedger.Mint | packages/shared-utils/src/jwt.ts:14-24 | signing produces a token text not issued before and records its payload, secret and expiry, leaving other tokens unchanged |
| TokenService.JwtUtil.Initialize | packages/shared-utils/src/jwt.ts:9-12 | overwrites both secrets and nothing else |
| TokenService.JwtUtil.GenerateAccessToken | packages/shared-utils/src/jwt.ts:14-18 | issues a fresh token signed with the access secret that expires JWT_EXPIRY (900 s) later |
| TokenService.JwtUtil.GenerateRefreshToken | packages/shared-utils/src/jwt.ts:20-24 | issues a fresh token signed with the refresh secret that expires JWT_REFRESH_EXPIRY (604800 s) later |
| TokenService.JwtUtil.VerifyAccessToken | packages/shared-utils/src/jwt.ts:26-28 | accepts only tokens signed with the access secret |
| TokenService.JwtUtil.VerifyRefreshToken | packages/shared-utils/src/jwt.ts:30-32 | accepts only tokens signed with the refresh secret |
| TokenService.JwtUtil.DecodeToken | packages/shared-utils/src/jwt.ts:34-36 | returns a payload exactly for an issued token, whatever its secret or expiry |
| TokenService.AccessRoundTrip | packages/shared-utils/src/jwt.ts:14-28 | a freshly generated access token verifies before its expiry, with the same claims |
| TokenService.SecretsSeparateTokenKinds | packages/shared-utils/src/jwt.ts:26-32 | with distinct secrets, a refresh token fails access verification and an access token fails refresh verification |
| ExpressAuth.AuthenticateOutcome | packages/shared-middleware/src/auth-middleware.ts:15-37 | no bearer header gives the 401 UNAUTHORIZED AppError, and every failure is a 401 AppError. Success means the token verified with the access secret, and its payload is attached. TOKEN_EXPIRED comes exactly from an expired token and TOKEN_INVALID exactly from an invalid one |
| ExpressAuth.AuthenticatePassesIff | packages/shared-middleware/src/auth-middleware.ts:19-27 | a request passes exactly when its header is "Bearer " + t for an unexpired token t signed with the access secret |
| ExpressAuth.RefreshTokenRefused | packages/shared-middleware/src/auth-middleware.ts:24 | with distinct secrets, a refresh token presented as a bearer token is refused with 401 TOKEN_INVALID |
| ExpressAuth.ExpressRequest.Authenticate | packages/shared-middleware/src/auth-middleware.ts:15-37 | `next` is called exactly once: with no error and `req.user` set to the payload on success, or with the mapped error and `req.user` unchanged |
| BunAuth.Derive | apps/bun-api/src/middleware/auth.middleware.ts:6-22 | the user is present exactly when a bearer token verifies with the access secret. Every failure, expired or invalid, gives no user |
| BunAuth.DeriveAgreesWithExpress | apps/bun-api/src/middleware/auth.middleware.ts:6-22 | the derived user is the Express `req.user` on success and absent on every failure |
| BunAuth.RequireAuth | apps/bun-api/src/middleware/auth.middleware.ts:24-35 | stops with status 401 and the UNAUTHORIZED envelope exactly when there is no user, and otherwise leaves the status alone |
| BunAuth.RequirePermission | apps/bun-api/src/middleware/auth.middleware.ts:37-64 | no user gives 401. A role that holds no required permission, unknown roles included, gives 403 FORBIDDEN. Otherwise it does not stop and the status is unchanged |
| BunAuth.RequirePermissionAgreesWithGuard | apps/bun-api/src/middleware/auth.middleware.ts:37-64 | it stops exactly when the shared checkPermission throws, with the same status and message |
| DenoMiddleware.CatchMessage | apps/deno-api/src/middleware/auth.middleware.ts:27-45 | only errors named TokenExpiredError or JsonWebTokenError are answered; everything else is rethrown |
| DenoMiddleware.OakContext.Authenticate | apps/deno-api/src/middleware/auth.middleware.ts:5-49 | no bearer header gives 401 without calling `next`. A verification failure gives 401 'Token expired' or 'Invalid token'. Success sets the user and calls `next` once, and an error from downstream is answered with 401 when JWT-named and rethrown otherwise |
| DenoMiddleware.OakContext.CheckPermission | apps/deno-api/src/middleware/permission.middleware.ts:5-35 | no user gives 401 without `next`. A role holding none of the required permissions (a missing role holds none) gives 403 without `next`. Otherwise `next` is called once and the response is untouched |
| DenoMiddleware.DenoChainAgreesWithExpress | apps/deno-api/src/middleware/permission.middleware.ts:5-35 | the Deno authenticate/permission chain reaches the handler exactly when the Express chain does, and refuses with the same status |
| AuthServices.FindActiveByEmail | apps/express-api/src/services/auth.service.ts:9-13 | finds an active user with that email, or none exactly when no active user has it |
| AuthServices.FindById | apps/express-api/src/services/auth.service.ts:59-63 | finds a user with that id, or none exactly when no user has it |
| AuthServices.LoginClaims | apps/express-api/src/services/auth.service.ts:15-21 | the login payload carries the user's id, email and role, and permissions equal to ROLE_PERMISSIONS[role] |
| AuthServices.RefreshClaims | apps/express-api/src/services/auth.service.ts:36-43 | the refreshed payload copies userId, email and role, and recomputes permissions from the role |
| AuthServices.RefreshIgnoresSnapshot | apps/express-api/src/services/auth.service.ts:36 | the old permissions snapshot has no effect on the refreshed payload |
| AuthServices.RefreshOfLoginIsStable | apps/express-api/src/services/auth.service.ts:15-43 | refreshing a login payload gives the same payload |
| AuthServices.ExpressLogin | apps/express-api/src/services/auth.service.ts:8-31 | fails with 401 INVALID_CREDENTIALS exactly when no active user has the email or the password check fails, issuing nothing. Otherwise it issues two distinct tokens (access and refresh) over the login payload, with expiresIn 900 |
| AuthServices.ExpressRefresh | apps/express-api/src/services/auth.service.ts:33-56 | any verification failure of the refresh token becomes 401 TOKEN_INVALID. Otherwise a new token pair is issued over the refreshed payload, with expiresIn 900 |
| AuthServices.CurrentUser | apps/express-api/src/services/auth.service.ts:61-69 | the current user has the stored id, email and role, and the role's permissions |
| AuthServices.ExpressGetCurrentUser | apps/express-api/src/services/auth.service.ts:58-73 | 404 USER_NOT_FOUND exactly for an unknown id; otherwise the user, with the role's permissions |
| AuthServices.BunLogin | apps/bun-api/src/services/auth.service.ts:9-34 | the same credential rule and error as Express. The response carries both tokens and the public user fields, without expiresIn |
| AuthServices.BunRefresh | apps/bun-api/src/services/auth.service.ts:36-51 | a verification failure propagates as the jsonwebtoken error. Otherwise a new pair is issued over the refreshed payload, with expiresIn 900 |
| AuthServices.BunGetCurrentUser | apps/bun-api/src/services/auth.service.ts:53-68 | an unknown id throws a plain Error 'User not found'; otherwise the user with the role's permissions |
| AuthServices.CurrentUserAgrees | apps/bun-api/src/services/auth.service.ts:53-68 | Express and Bun find the same current users and answer the same value |
| AuthServices.DjwtError | apps/deno-api/src/services/auth.service.ts:38-54 | a djwt failure is a plain Error, not a JWT-named one |
| AuthServices.DenoClaims | apps/deno-api/src/services/auth.service.ts:27 | Deno payloads carry userId, email and role, and no permissions |
| AuthServices.DenoAuthService.Login | apps/deno-api/src/services/auth.service.ts:19-36 | 401 INVALID_CREDENTIALS on a missing user or a password mismatch. Otherwise both tokens are signed with the single key, expiring now+900 s and now+604800 s |
| AuthServices.DenoAuthService.Refresh | apps/deno-api/src/services/auth.service.ts:38-54 | the token is verified with the single key. The identity fields are copied into both new tokens, and a failure is the djwt error |
| AuthServices.DenoAuthService.GetCurrentUser | apps/deno-api/src/services/auth.service.ts:56-70 | an unknown id throws 'User not found'; otherwise the user, without permissions |
| AuthServices.DenoAuthService.GetCurrentUserFromToken | apps/deno-api/src/services/auth.service.ts:72-75 | a token that verifies under the key, access or refresh, is answered exactly as GetCurrentUser answers the user id it names; one that does not verify gives the djwt error. It succeeds only for an unexpired token signed with the key |
| AuthServices.DenoRefreshTokenWorksAsAccess | apps/deno-api/src/services/auth.service.ts:10-16 | with one shared key, the refresh token verifies wherever the access token does, and still verifies after the access token has expired |
| ErrorTypes.SubclassStatus | packages/shared-middleware/src/error-types.ts:14-54 | every subclass fixes an error status; only the base class leaves it to the caller |
| ErrorTypes.NewAppError | packages/shared-middleware/src/error-types.ts:3-12 | stores the status and message as given, and isOperational is true |
| ErrorTypes.NewNotFoundError | packages/shared-middleware/src/error-types.ts:14-18 | 404, message resource + " not found" |
| ErrorTypes.NewValidationError | packages/shared-middleware/src/error-types.ts:20-24 | 422 with the given message |
| ErrorTypes.NewUnauthorizedError | packages/shared-middleware/src/error-types.ts:26-30 | 401, default message 'Unauthorized' |
| ErrorTypes.NewForbiddenError | packages/shared-middleware/src/error-types.ts:32-36 | 403, default message 'Forbidden' |
| ErrorTypes.NewConflictError | packages/shared-middleware/src/error-types.ts:38-42 | 409 with the given message |
| ErrorTypes.NewBadRequestError | packages/shared-middleware/src/error-types.ts:44-48 | 400 with the given message |
| ErrorTypes.NewServiceUnavailableError | packages/shared-middleware/src/error-types.ts:50-54 | 503, default message 'Service temporarily unavailable' |
| ErrorTranslators.IsJwtError | packages/shared-middleware/src/jwt-error-handler.ts:17-21 | true exactly for a non-primitive error named JsonWebTokenError or TokenExpiredError |
| ErrorTranslators.IsMongoError | packages/shared-middleware/src/mongodb-error-handler.ts:47-60 | true exactly for an error object named MongoError, MongoServerError, MongoNetworkError, MongoTimeoutError, ValidationError or CastError, or carrying code 11000 or 121 |
| ErrorTranslators.JwtHandle | packages/shared-middleware/src/jwt-error-handler.ts:4-15 | translates exactly the errors isJWTError recognises into a 401 UnauthorizedError: 'Invalid token' or 'Token expired'. Anything else is rethrown unchanged |
| ErrorTranslators.DuplicateField | packages/shared-middleware/src/mongodb-error-handler.ts:14-17 | the first keyPattern key, or 'field' when there is none |
| ErrorTranslators.NonEmptyMessages | packages/shared-middleware/src/mongodb-error-handler.ts:30-36 | one sub-error contributes its message exactly when it has a non-empty one; every kept message is non-empty, and there are none exactly when no sub-error has one |
| ErrorTranslators.NonEmptyMessagesAppend | packages/shared-middleware/src/mongodb-error-handler.ts:30-36 | the messages of two runs of sub-errors are those of the first followed by those of the second, so they come in sub-error order |
| ErrorTranslators.NonEmptyMessagesMembers | packages/shared-middleware/src/mongodb-error-handler.ts:30-36 | a string is kept exactly when it is non-empty and some sub-error carries it as its message |
| ErrorTranslators.JoinEmptyIff | packages/shared-middleware/src/mongodb-error-handler.ts:30-36 | joining non-empty messages gives "" exactly when there are none |
| ErrorTranslators.ValidationMessage | packages/shared-middleware/src/mongodb-error-handler.ts:30-36 | the non-empty messages joined with ', ' whenever there is at least one, and 'Validation failed' when there are none; never empty |
| ErrorTranslators.MongoHandle | packages/shared-middleware/src/mongodb-error-handler.ts:12-45 | an untranslated error is rethrown unchanged, and a translated one is a 409, 400 or 503 AppError. Code 11000 is a Conflict naming the field and code 121 is 'Document validation failed'. After those codes: the network and timeout names give 503, ValidationError gives 400 with the joined messages, and CastError gives 400 "Invalid path: value" |
| ErrorTranslators.TranslatableIsMongo | packages/shared-middleware/src/mongodb-error-handler.ts:12-60 | every error the handler translates is one isMongoError recognises |
| ErrorTranslators.GenericDriverErrorsRethrown | packages/shared-middleware/src/mongodb-error-handler.ts:47-60 | MongoError and MongoServerError are recognised but, without code 11000 or 121, rethrown untranslated |
| ErrorTranslators.TranslatorsDisjointByName | packages/shared-middleware/src/mongodb-error-handler.ts:25-41 | apart from the two codes, no error is both translated by the MongoDB handler and a JWT error |
| Responses.FormatterError | packages/shared-utils/src/response-formatter.ts:13-27 | success false, with the given message, status and error |
| Responses.FormatterValidationError | packages/shared-utils/src/response-formatter.ts:29-36 | success false, 'Validation failed', with the entries |
| Responses.Envelope | apps/bun-api/src/middleware/auth.middleware.ts:28-33 | the `{success: false, message}` envelope |
| Responses.NamedEnvelope | apps/bun-api/src/utils/error-handler.ts:62-70 | the `{success: false, message, error}` envelope |
| ExpressErrorHandler.ZodEntries | packages/shared-middleware/src/error-handler.ts:33-42 | one entry per issue, whose field is the path joined by '.' |
| ExpressErrorHandler.ExpressErrorResponse | packages/shared-middleware/src/error-handler.ts:14-90 | Zod gives 422 with exactly the entries ZodEntries builds from the issues, and an AppError its own status and message. A value that is neither Zod, AppError, Mongo nor JWT gives 500 INTERNAL_ERROR with its message or 'Unknown error'. Every answer to a non-AppError has an error status. success is always false |
| ExpressErrorHandler.TranslatedMongoResponse | packages/shared-middleware/src/error-handler.ts:44-77 | a Mongo error the translator knows is answered with the status and message of the AppError it throws |
| ExpressErrorHandler.UntranslatedMongoResponse | packages/shared-middleware/src/error-handler.ts:44-88 | a Mongo error the translator rethrows unchanged is answered with 500 and error 'Unexpected error' |
| ExpressErrorHandler.JwtResponse | packages/shared-middleware/src/error-handler.ts:49-77 | a JWT error is answered with 401 and the translator's message |
| ExpressErrorHandler.ErrorHandler | packages/shared-middleware/src/error-handler.ts:14-90 | writes exactly one response, the one ExpressErrorResponse chooses |
| ExpressErrorHandler.MongoStatuses | packages/shared-middleware/src/error-handler.ts:45-47 | a duplicate key answers 409 and a network error 503 |
| BunErrorHandler.BunErrorAnswer | apps/bun-api/src/utils/error-handler.ts:13-90 | an AppError gives its own status and message with error 'Error'. A value that is neither an AppError nor an error-like translated Mongo or JWT error gives 404 'Resource not found' when the code is NOT_FOUND and 500 'Internal server error' otherwise, with its detail as error. success is always false |
| BunErrorHandler.TranslatedMongoAnswer | apps/bun-api/src/utils/error-handler.ts:27-42 | an error-like Mongo error the translator knows is answered with the status and message of its AppError |
| BunErrorHandler.JwtAnswer | apps/bun-api/src/utils/error-handler.ts:44-59 | an error-like JWT error is answered with 401 and the translator's message |
| BunErrorHandler.UntranslatedMongoFallsThrough | apps/bun-api/src/utils/error-handler.ts:28-43 | an untranslated Mongo error is swallowed and answered by the default branch, not 'UnexpectedError' |
| BunErrorHandler.Handle | apps/bun-api/src/utils/error-handler.ts:13-90 | sets `set.status` and returns the body BunErrorAnswer chooses |
| DenoErrorHandler.DenoErrorAnswer | apps/deno-api/src/utils/error-handler.ts:6-87 | an AppError gives its own status and message. Anything else that is neither a translated Mongo error nor a JWT error gives `err.status` or 500 and its name as error, with its own message when it has a non-empty one and 'Internal server error' otherwise. success is always false |
| DenoErrorHandler.TranslatedMongoAnswer | apps/deno-api/src/utils/error-handler.ts:20-36 | a Mongo error the translator knows is answered with the status and message of its AppError |
| DenoErrorHandler.JwtAnswer | apps/deno-api/src/utils/error-handler.ts:38-54 | a JWT error is answered with 401 and the translator's message |
| DenoErrorHandler.ErrorHandler | apps/deno-api/src/utils/error-handler.ts:6-87 | calls `next` once. An error thrown downstream is answered as DenoErrorAnswer says; with none, the response is untouched |
| DenoErrorHandler.DispatchersAgree | apps/deno-api/src/utils/error-handler.ts:21-66 | for AppErrors and translated Mongo or JWT errors, the three handlers answer the same status and message |
| DenoErrorHandler.GenericDriverErrorAnswers | apps/deno-api/src/utils/error-handler.ts:69-75 | an untranslated MongoServerError with any non-empty message m gets three different answers: 'Unexpected error' in Express, m as the Bun error field, and 500 with message m in Deno |
| Config.GradeScale | packages/shared-constants/src/config.ts:12-24 | eleven bands with integer bounds 0 <= min <= max <= 100, descending and pairwise disjoint, from 100 down to 0, with adjacent integer ranges |
| Config.BandOf | packages/shared-constants/src/config.ts:13-23 | every integer from 0 to 100 lies in some band |
| Config.BandsCoverIntegersOnce | packages/shared-constants/src/config.ts:13-23 | that band is the only one containing the integer |
| Config.BandsDescend | packages/shared-constants/src/config.ts:13-23 | every later band lies wholly below every earlier one |
| Config.GapBetweenBands | packages/shared-constants/src/config.ts:13-14 | 96.5 lies in no band |
| Config.ConstantsConsistent | packages/shared-constants/src/config.ts:3-6 | DEFAULT_PAGE_SIZE <= MAX_PAGE_SIZE, '15m' is 900 s and '7d' is 604800 s |
| GradeCalculator.Round | packages/shared-utils/src/grade-calculator.ts:6 | `Math.round(x)` is the integer within one half of x, halves rounding up |
| GradeCalculator.Round2 | packages/shared-utils/src/grade-calculator.ts:6 | `Math.round(x*100)/100` is a whole number of hundredths within 0.005 of x, which fixes it uniquely |
| GradeCalculator.Round2Within | packages/shared-utils/src/grade-calculator.ts:6 | rounding keeps a value inside integer bounds |
| GradeCalculator.CalculatePercentage | packages/shared-utils/src/grade-calculator.ts:4-7 | 0 when maxScore is 0, otherwise score/maxScore*100 rounded to a whole number of hundredths (within 0.005 of it), and in [0, 100] when 0 <= score <= maxScore |
| GradeCalculator.FirstBand | packages/shared-utils/src/grade-calculator.ts:10-14 | the first band in table order that contains p, or past the end when none does |
| GradeCalculator.BandedLetter | packages/shared-utils/src/grade-calculator.ts:9-16 | the letter of a band containing p, and 'F' when no band contains it |
| GradeCalculator.LadderLetter | apps/deno-api/src/services/report.service.ts:5-17 | the Deno ladder gives 'A+' exactly from 97 up and 'F' exactly below 60 |
| GradeCalculator.LadderLetterTotal | apps/deno-api/src/services/grade.service.ts:8-20 | the ladder always returns one of the eleven letters, 'A+' for every p >= 97 (even above 100), and 'F' below 60 |
| GradeCalculator.LetterBand | packages/shared-constants/src/config.ts:12-24 | the first band whose minimum p reaches; none exactly for negative p |
| GradeCalculator.Letter | packages/shared-constants/src/config.ts:12-24 | the intended letter: that of the best GRADE_SCALE band whose minimum p reaches, and 'F' below 0 |
| GradeCalculator.LetterBandIsRung | apps/deno-api/src/services/grade.service.ts:8-20 | the first band whose minimum p reaches is the rung of the Deno threshold ladder p lands on, for every p |
| GradeCalculator.LetterIsLadder | apps/deno-api/src/services/grade.service.ts:8-20 | the corrected letter equals the Deno threshold ladder's letter for every p |
| GradeCalculator.LetterOfBand | packages/shared-utils/src/grade-calculator.ts:10-14 | inside a band, the corrected letter is that band's letter |
| GradeCalculator.BandedAgreesOnIntegers | packages/shared-utils/src/grade-calculator.ts:10-14 | on every integer from 0 to 100, the banded lookup, the corrected letter and so the ladder agree |
| GradeCalculator.BandedGapCounterexample | packages/shared-utils/src/grade-calculator.ts:15 | calculatePercentage(193, 200) = 96.5, which the banded lookup grades 'F' and the ladder 'A' |
| GradeCalculator.LetterMonotone | apps/deno-api/src/services/grade.service.ts:9-19 | a higher percentage never gets a lower letter |
| GradeCalculator.Gpa | packages/shared-utils/src/grade-calculator.ts:18-33 | every GPA lies in [0, 4] |
| GradeCalculator.GpaZeroIff | packages/shared-utils/src/grade-calculator.ts:18-33 | GPA 0 exactly for 'F' and for strings that are not letters |
| GradeCalculator.GpaFollowsScale | packages/shared-utils/src/grade-calculator.ts:19-31 | GPA never increases along GRADE_SCALE order |
| GradeCalculator.GpaMonotone | apps/deno-api/src/services/report.service.ts:19-34 | a higher percentage never gets a lower GPA |
| Reports.ClassOrder | apps/express-api/src/services/report.service.ts:18-32 | the classes in first-grade order, no more of them than grades, and none exactly when there are no grades |
| Reports.OfClass | apps/express-api/src/services/report.service.ts:18-28 | a class's array never holds more grades than the student has |
| Reports.OfClassMembers | apps/express-api/src/services/report.service.ts:18-28 | a class's group holds exactly the grades with that classId |
| Reports.ClassOrderListsGroups | apps/express-api/src/services/report.service.ts:18-28 | a class is a key exactly when its group is non-empty |
| Reports.ClassOrderDistinct | apps/express-api/src/services/report.service.ts:18-28 | no class is a key twice |
| Reports.GradeInExactlyOneGroup | apps/deno-api/src/services/report.service.ts:40-44 | every grade lands in the group of its own class and in no other |
| Reports.GroupSizesAddUp | apps/bun-api/src/services/report.service.ts:11-18 | the group sizes add up to the number of grades, so the groups partition the input |
| Reports.GroupMap | apps/express-api/src/services/report.service.ts:18-28 | every array the `reduce` builds is non-empty, since an array is created only to receive a grade |
| Reports.GroupMapKeys | apps/express-api/src/services/report.service.ts:18-28 | the object the `reduce` builds has a property for exactly the classes that have a grade |
| Reports.GroupMapGroups | apps/express-api/src/services/report.service.ts:18-28 | each property of that object holds exactly its class's grades, in retrieval order |
| Reports.GroupByClass | apps/express-api/src/services/report.service.ts:18-28 | the loop builds that object and the classes in first-occurrence order; each key maps to its class's non-empty array of grades |
| Reports.SumsInRange | apps/express-api/src/services/report.service.ts:37-38 | when each score is in [0, maxScore], the summed score lies in [0, summed maxScore] |
| Reports.ClassReportFields | apps/express-api/src/services/report.service.ts:37-64 | a class report (ClassReport, under either letter rule) copies the student, the class and the group, and averageScore times the group size is the total score |
| Reports.ClassReportPercentage | apps/express-api/src/services/report.service.ts:37-39 | a class report's averagePercentage is 0 when the summed maxScore is 0, and in [0, 100] when every score is in range |
| Reports.ClassReportLetter | apps/express-api/src/services/report.service.ts:39-64 | under the Deno ladder the letter is the intended GRADE_SCALE letter of averagePercentage; under the banded lookup of Express and Bun it is the letter of a band holding averagePercentage, and 'F' when no band holds it |
| Reports.ClassReportLettersAgreeOnIntegers | apps/deno-api/src/services/report.service.ts:51-61 | on a whole-number percentage from 0 to 100, the banded and ladder reports of a class carry the same letter |
| Reports.ReportGapCounterexample | apps/express-api/src/services/report.service.ts:39-64 | one grade of 193/200 is reported 'F' by Express and Bun and 'A' by Deno |
| Reports.ReportsFor | apps/bun-api/src/services/report.service.ts:20-36 | one report per listed class |
| Reports.ReportsForFields | apps/bun-api/src/services/report.service.ts:26-35 | the i-th report names the student, the i-th class and its record's name, and holds that class's array |
| Reports.ReportHoldsClassGrades | apps/bun-api/src/services/report.service.ts:11-35 | built from the grouped grades, the i-th report holds exactly the grades of its class |
| Reports.ReportsForAppend | apps/bun-api/src/services/report.service.ts:26-35 | each loop step appends the next class's report |
| Reports.ReportsForAt | apps/bun-api/src/services/report.service.ts:26-35 | the i-th report is the class report of the i-th class |
| Reports.ReportsDifferOnlyInLetter | apps/deno-api/src/services/report.service.ts:46-63 | the banded and ladder report lists are equal report by report except for letterGrade |
| Reports.ReportLettersAgreeOnIntegers | apps/deno-api/src/services/report.service.ts:51-61 | where a class's percentage is a whole number from 0 to 100, its banded and ladder letters are equal |
| Reports.ListedClassesHaveGrades | apps/express-api/src/services/report.service.ts:18-62 | every listed class has a non-empty group, so averageScore never divides by zero |
| Reports.PresentMembers | apps/express-api/src/services/report.service.ts:33-35 | the kept classes are exactly the listed classes whose record exists |
| Reports.PresentAll | apps/express-api/src/services/report.service.ts:33-35 | when every class exists, none is skipped |
| Reports.ExpressStudentReport | apps/express-api/src/services/report.service.ts:9-69 | a missing student gives 404 STUDENT_NOT_FOUND. Otherwise the result is one report per class in first-grade order, built from the grouped grades with the banded letter, skipping classes whose record is missing |
| Reports.KeepingReports | apps/express-api/src/services/report.service.ts:32-66 | the Express loop over the grouped classes returns the banded reports of exactly the classes with a record, in order |
| Reports.KeepingStep | apps/express-api/src/services/report.service.ts:32-64 | a loop step over a class with a record keeps it and appends its report |
| Reports.SkippingStep | apps/express-api/src/services/report.service.ts:33-35 | a loop step over a class without a record keeps nothing |
| Reports.NotFoundError | apps/bun-api/src/services/student.service.ts:54 | the Bun/Deno lookups throw a plain Error with the not-found message |
| Reports.AbortingStudentReport | apps/bun-api/src/services/report.service.ts:8-38 | a missing student throws 'Student not found'. The report succeeds exactly when every class exists, and otherwise throws 'Class not found'. On success it is one report per class in first-grade order, with the banded letter for Bun and the ladder letter for Deno |
| Reports.AbortingReports | apps/bun-api/src/services/report.service.ts:21-36 | the Bun/Deno loop succeeds exactly when every class has a record, throws 'Class not found' otherwise, and on success returns one report per class in order |
| Reports.AbortingStep | apps/bun-api/src/services/report.service.ts:21-35 | a loop step over a class with a record appends its report |
| Reports.StudentReportsCompared | apps/deno-api/src/services/report.service.ts:37-65 | Express always succeeds for an existing student; Bun and Deno succeed exactly when every class exists. Then Bun's reports equal Express's, and Deno's have the same length and equal them in every field but the letter |
| Reports.TotalGpa | apps/express-api/src/services/report.service.ts:79-82 | the summed GPA lies in [0, 4 x number of reports] |
| Reports.OverallGpaUnguarded | apps/bun-api/src/services/report.service.ts:48 | the unguarded mean is undefined (NaN) exactly when there are no reports, and otherwise the mean per-class GPA rounded to a whole number of hundredths, in [0, 4] |
| Reports.MeanGpaInRange | apps/express-api/src/services/report.service.ts:84 | the mean GPA of at least one report lies in [0, 4] |
| Reports.OverallGpa | apps/express-api/src/services/report.service.ts:84-88 | in [0, 4]; 0 with no reports; otherwise the mean per-class GPA rounded to a whole number of hundredths (within 0.005 of it) |
| Reports.NoReportsCounterexample | apps/deno-api/src/services/report.service.ts:75 | with no reports the unguarded division is undefined while the guarded one gives 0 |
| Reports.GuardOnlyMattersForNoReports | apps/express-api/src/services/report.service.ts:84 | with at least one report the guarded and unguarded GPAs agree |
| Reports.Performance | apps/express-api/src/services/report.service.ts:77-91 | the Express performance report carries the student id, the reports and their count, and overallGPA is the guarded rounded mean OverallGpa, in [0, 4] and 0 with no reports |
| Reports.UnguardedPerformance | apps/bun-api/src/services/report.service.ts:40-52 | the Bun/Deno performance report carries the student id, the reports and their count, and overallGPA is the unguarded rounded mean, NaN exactly when there are no reports |
| Reports.PerformancesAgreeWithReports | apps/deno-api/src/services/report.service.ts:67-79 | with at least one report, the Bun/Deno performance report equals the Express one |
| Reports.ExpressPerformanceReport | apps/express-api/src/services/report.service.ts:71-92 | 404 for a missing student; otherwise the Express performance report of exactly the reports ExpressStudentReport gives (banded letters, skipped missing classes), with overallGPA 0 when there are none |
| Reports.AbortingPerformanceReport | apps/bun-api/src/services/report.service.ts:40-52 | throws 'Student not found' for a missing student; for an existing one succeeds exactly when every class exists and otherwise throws 'Class not found'. On success it is the unguarded performance report of the AbortingStudentReport reports, whose overallGPA is NaN exactly when the student has no grades |
| Pagination.CeilDiv | packages/shared-utils/src/pagination.ts:5 | `Math.ceil(total / limit)`: the least whole number at or above the quotient |
| Pagination.Paginate | packages/shared-utils/src/pagination.ts:4-16 | data, page, limit and total pass through unchanged, and totalPages is 0 exactly when total is 0 |
| Pagination.GetOffset | packages/shared-utils/src/pagination.ts:18-20 | page 1 starts at 0, and no page from 1 on has a negative offset |
| Pagination.OffsetsStepByLimit | packages/shared-utils/src/pagination.ts:18-20 | consecutive pages start `limit` records apart |
| Pagination.PagesCoverTotal | packages/shared-utils/src/pagination.ts:5 | (totalPages - 1) x limit < total <= totalPages x limit for total > 0 |
| Pagination.CeilDivFormula | packages/shared-utils/src/pagination.ts:5 | totalPages equals the integer formula (total + limit - 1) / limit |
| Pagination.PageAfterLastIsPastEnd | packages/shared-utils/src/pagination.ts:5-19 | the page after the last starts at or past total, so it is empty |
| Pagination.RecordOnOnePage | packages/shared-utils/src/pagination.ts:18-20 | every record lies on exactly one page, between 1 and totalPages |
| Routes.Dispatch | apps/express-api/src/routes/class.routes.ts:20-132 | authenticate runs first, so every authentication failure answers 401 and a missing header answers UNAUTHORIZED. The handler is reached exactly for an authenticated user whose role grants a required permission and whose input is valid. A user without permission gets 403 FORBIDDEN whatever the input, because the guard runs before validation |
| Routes.DispatchAsRole | apps/express-api/src/routes/class.routes.ts:127-132 | for a user of role r, the outcome is 403 unless the endpoint's guard admits r, and otherwise the validation verdict |
| Routes.ClassRoutesRule | apps/express-api/src/routes/class.routes.ts:45-207 | every role may list and read classes; only SUPER_ADMIN and ADMIN may create, update or delete them. So TEACHER and STUDENT get 403 on POST /classes |
| Routes.StudentReadRule | apps/express-api/src/routes/student.routes.ts:31-48 | STUDENT and PARENT may not list or read students; every other role may |
| Routes.StudentWriteRule | apps/express-api/src/routes/student.routes.ts:59-93 | only SUPER_ADMIN and ADMIN may create, update or delete students, so TEACHER gets 403 |
| Routes.SuperAdminPassesEverywhere | apps/express-api/src/routes/student.routes.ts:33-90 | SUPER_ADMIN passes the guard of every class, student, grade and report route |
| Routes.GradeReadDeleteRule | apps/express-api/src/routes/grade.routes.ts:42-178 | VIEW_GRADES or VIEW_OWN_GRADES reads a student's grades, so STUDENT passes for any id and PARENT does not. Only SUPER_ADMIN deletes |
| Routes.GradeWriteRule | apps/express-api/src/routes/grade.routes.ts:98-148 | TEACHER and SUPER_ADMIN create and update grades while STUDENT, PARENT and ADMIN cannot |
| Routes.ReportRoutesRule | apps/express-api/src/routes/report.routes.ts:44-91 | both report routes have the same guard, passed exactly by SUPER_ADMIN, ADMIN and TEACHER |
| Routes.UnauthenticatedEverywhere | apps/express-api/src/routes/report.routes.ts:9 | without a token every route of the four routers answers 401 |

## Left out

- CRUD services, controllers, Mongoose models and the database connection are not modelled. Neither is the grade-update rule that recomputes percentage and letter only when a score changes. These are database I/O.
- Seed scripts, benchmarks, process handlers, Swagger/OpenAPI material and the Logger are not modelled.
- Zod request validation (the `validate*` middlewares and schemas) appears only as whether the input passed, in `Routes.Dispatch`.
- bcrypt comparison is a parameter (`compare`) of the login services. Random-string generation and the internals of jsonwebtoken/djwt signing are replaced by the ideal signer. Token texts are fresh opaque strings.
- The clock is a parameter `now` in whole seconds. Deno computes `exp` as a fractional `Date.now()/1000 + 900`, and djwt's expiry leeway is not modelled.
- djwt's own error messages are not modelled: `AuthServices.DjwtError` keeps only that the failure is a plain Error.
- The Deno authentication middleware verifies with `JwtUtil`'s access secret, while the Deno auth service signs with its own key. The model keeps them as two parameters, so a Deno token passes the middleware only when the two agree.
- `TokenService.Verify` checks the signature before expiry, as jsonwebtoken does: a token signed with another secret is reported invalid even when it is also expired.
- A token payload's role is a string. A payload without a role is the empty string, which names no role, so the guards and `checkMinimumRole` give it no permissions and level 0.
- JavaScript prototype keys (`ROLE_PERMISSIONS['constructor']` and similar lookups) are not modelled. Any string that is not a role name finds nothing.
- The grouping `reduce` keys groups by class id. Iterating the groups with `Object.entries` follows insertion order, because class ids are 24-hex ObjectIds, never array-index strings.
- The `gradeDate` sort is done by the database. The model takes the grades in the order retrieved.
- The report grade records are kept as the model's `Grade` (id, classId, score, maxScore). The Express field-by-field copy of the other grade fields is not modelled.
- `studentName` is a parameter, since composing "first last" depends on a populated database record.
- IEEE-754 doubles are not modelled: percentages and GPAs are exact reals, and `Math.round` is floor(x + 1/2). A NaN from an unguarded division is modelled as the absent value of `Reports.OverallGpaUnguarded`, which the Bun/Deno performance report carries as an `overallGPA` of `None`.
- The Deno report service's own `calculateGPA` (apps/deno-api/src/services/report.service.ts:19-34) has the same table as the shared one, so one `GradeCalculator.Gpa` serves all three runtimes.
- `TokenService.JwtUtil` starts with empty secrets until `Initialize`; jsonwebtoken refuses an empty secret, and that refusal is not modelled.
- Bun and Deno register the grade and report routes with no permission guard at all. Bun also hard-codes `teacherId = 'temp-teacher-id'` when creating grades. Only the Express route tables are modelled.
- Elysia hook scoping and oak router registration are not modelled.
- Thrown `null`/`undefined` and other values that make the handlers' own property reads throw are not modelled. So the Bun and Deno fallback answer 'UnexpectedError', reached only through such a throw inside the handler, is never produced.
- Response timestamps, the Logger calls and ObjectId parse errors are not modelled. oak's default status is taken as 404 before a handler sets it.
- Writes made by downstream handlers before an error reaches a handler are not modelled.
- The numeric HTTP status constants file is not part of this model. The statuses used are the standard codes of section 15 of RFC 9110: 400, 401, 403, 404, 409, 422, 500 and 503.
- `UpdateUserDto` has no code path in the core and is not modelled.

## Findings

| source | as written | input that shows it | evidently intended | confidence | as-written member | corrected member |
|---|---|---|---|---|---|---|
| packages/shared-utils/src/grade-calculator.ts:9-16 | `calculateLetterGrade` returns the letter of the band with `min <= p <= max`, and 'F' when no band matches. The bands have integer bounds with gaps between them | calculatePercentage(193, 200) = 96.5 lies between A (93-96) and A+ (97-100), so a 96.5% class average gets 'F' | the letter of the highest band whose minimum p reaches, which is the Deno threshold ladder ('A' for 96.5) | not executed | GradeCalculator.BandedLetter (with GradeCalculator.BandedGapCounterexample and Reports.ReportGapCounterexample) | GradeCalculator.Letter (with GradeCalculator.LetterIsLadder and GradeCalculator.BandedAgreesOnIntegers) |
| apps/bun-api/src/services/report.service.ts:48 | `overallGPA` divides the summed GPA by `reports.length` with no guard; apps/deno-api/src/services/report.service.ts:75 does the same | a student with no grades: 0 / 0 is NaN, serialised as null | 0 when there are no reports, as the Express service guards | not executed | Reports.OverallGpaUnguarded (with Reports.NoReportsCounterexample and Reports.UnguardedPerformance) | Reports.OverallGpa (with Reports.GuardOnlyMattersForNoReports) |
