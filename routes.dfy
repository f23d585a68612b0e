/**
 * The Express route tables for classes, students, grades and reports. Every
 * router first runs `authenticate` (`router.use`), and each endpoint then
 * runs `checkPermission` with its own permissions before validating its
 * input and reaching the controller. The input validators are Zod schemas
 * and appear here only as whether the input passed.
 */
module Routes {
  import opened Wrappers
  import opened Http
  import opened UserTypes
  import opened Roles
  import opened ErrorTypes
  import opened TokenService
  import opened RoleGuard
  import opened ExpressAuth

  datatype Verb = Get | Post | Put | Delete

  /** One registration: verb, path under the router's mount point, and the permissions of its guard. */
  datatype Endpoint = Endpoint(verb: Verb, path: string, required: seq<Permission>)

  // /v1/classes (class.routes.ts)
  const CLASS_LIST: Endpoint := Endpoint(Get, "/", [VIEW_CLASSES])
  const CLASS_GET: Endpoint := Endpoint(Get, "/:id", [VIEW_CLASSES])
  const CLASS_CREATE: Endpoint := Endpoint(Post, "/", [MANAGE_CLASSES])
  const CLASS_UPDATE: Endpoint := Endpoint(Put, "/:id", [MANAGE_CLASSES])
  const CLASS_DELETE: Endpoint := Endpoint(Delete, "/:id", [MANAGE_CLASSES])
  const CLASS_ROUTES: seq<Endpoint> := [CLASS_LIST, CLASS_GET, CLASS_CREATE, CLASS_UPDATE, CLASS_DELETE]

  // /v1/students (student.routes.ts)
  const STUDENT_LIST: Endpoint := Endpoint(Get, "/", [VIEW_STUDENTS])
  const STUDENT_GET: Endpoint := Endpoint(Get, "/:id", [VIEW_STUDENTS])
  const STUDENT_CREATE: Endpoint := Endpoint(Post, "/", [MANAGE_STUDENTS])
  const STUDENT_UPDATE: Endpoint := Endpoint(Put, "/:id", [MANAGE_STUDENTS])
  const STUDENT_DELETE: Endpoint := Endpoint(Delete, "/:id", [MANAGE_STUDENTS])
  const STUDENT_ROUTES: seq<Endpoint> := [STUDENT_LIST, STUDENT_GET, STUDENT_CREATE, STUDENT_UPDATE, STUDENT_DELETE]

  // /v1/grades (grade.routes.ts)
  const GRADES_OF_STUDENT: Endpoint := Endpoint(Get, "/student/:id", [VIEW_GRADES, VIEW_OWN_GRADES])
  const GRADE_CREATE: Endpoint := Endpoint(Post, "/", [CREATE_GRADES])
  const GRADE_UPDATE: Endpoint := Endpoint(Put, "/:id", [UPDATE_GRADES])
  const GRADE_DELETE: Endpoint := Endpoint(Delete, "/:id", [DELETE_GRADES])
  const GRADE_ROUTES: seq<Endpoint> := [GRADES_OF_STUDENT, GRADE_CREATE, GRADE_UPDATE, GRADE_DELETE]

  // /v1/reports (report.routes.ts)
  const STUDENT_REPORT: Endpoint := Endpoint(Get, "/students/:id", [VIEW_REPORTS])
  const PERFORMANCE_REPORT: Endpoint := Endpoint(Get, "/performance/:id", [VIEW_REPORTS])
  const REPORT_ROUTES: seq<Endpoint> := [STUDENT_REPORT, PERFORMANCE_REPORT]

  /** How a request ends: refused with an error status, refused by input validation, or handled. */
  datatype Outcome = Refused(status: int, message: string) | BadInput | Handled

  /** Whether the guard of `e` lets a user of role `r` through. */
  function Allowed(e: Endpoint, r: UserRole): bool
  {
    AnyHeld(e.required, RolePermissions(r))
  }

  /**
   * A request to endpoint `e`: `authenticate`, then the endpoint's
   * `checkPermission`, then input validation, then the controller.
   */
  function Dispatch(e: Endpoint, issued: map<string, Jwt>, accessSecret: string, header: Option<string>,
                    now: int, inputValid: bool): (o: Outcome)
    ensures AuthenticateOutcome(issued, accessSecret, header, now).Err? ==> o.Refused? && o.status == UNAUTHORIZED
    ensures header.None? ==> o == Refused(UNAUTHORIZED, MSG_UNAUTHORIZED)
    ensures o == Handled <==>
              AuthenticateOutcome(issued, accessSecret, header, now).Ok? &&
              RoleGrantsAny(AuthenticateOutcome(issued, accessSecret, header, now).value.role, e.required) &&
              inputValid
    // the guard runs before validation: a refused user is refused whatever the input
    ensures AuthenticateOutcome(issued, accessSecret, header, now).Ok? &&
            !RoleGrantsAny(AuthenticateOutcome(issued, accessSecret, header, now).value.role, e.required) ==>
              o == Refused(FORBIDDEN, MSG_FORBIDDEN)
  {
    match AuthenticateOutcome(issued, accessSecret, header, now)
    case Err(t) => Refused(t.app.statusCode, t.app.message)
    case Ok(user) =>
      match CheckPermission(e.required, Some(user))
      case Throw(err) => Refused(err.statusCode, err.message)
      case Next => if inputValid then Handled else BadInput
  }

  /** For a user authenticated with role `r`, the outcome is decided by `Allowed(e, r)` and the input. */
  lemma {:induction false} DispatchAsRole(e: Endpoint, issued: map<string, Jwt>, accessSecret: string,
                                          header: Option<string>, now: int, inputValid: bool, r: UserRole)
    requires AuthenticateOutcome(issued, accessSecret, header, now).Ok?
    requires AuthenticateOutcome(issued, accessSecret, header, now).value.role == RoleName(r)
    ensures Dispatch(e, issued, accessSecret, header, now, inputValid)
         == if !Allowed(e, r) then Refused(FORBIDDEN, MSG_FORBIDDEN)
            else if inputValid then Handled
            else BadInput
  {
    var role := RoleName(r);
    if RoleGrantsAny(role, e.required) {
      var r', i :| RoleName(r') == role && 0 <= i < |e.required| && e.required[i] in RolePermissions(r');
      RoleNameInjective(r, r');
    }
  }

  /** Every role reads classes; only SUPER_ADMIN and ADMIN create, update or delete them. */
  lemma ClassRoutesRule(r: UserRole)
    ensures Allowed(CLASS_LIST, r) && Allowed(CLASS_GET, r)
    ensures Allowed(CLASS_CREATE, r) <==> r == SUPER_ADMIN || r == ADMIN
    ensures Allowed(CLASS_UPDATE, r) <==> r == SUPER_ADMIN || r == ADMIN
    ensures Allowed(CLASS_DELETE, r) <==> r == SUPER_ADMIN || r == ADMIN
  {
  }

  /** STUDENT and PARENT may not list or read students. */
  lemma StudentReadRule(r: UserRole)
    ensures Allowed(STUDENT_LIST, r) <==> r != STUDENT && r != PARENT
    ensures Allowed(STUDENT_GET, r) <==> r != STUDENT && r != PARENT
  {
  }

  /** Only SUPER_ADMIN and ADMIN create, update or delete students; TEACHER may not. */
  lemma StudentWriteRule(r: UserRole)
    ensures Allowed(STUDENT_CREATE, r) <==> r == SUPER_ADMIN || r == ADMIN
    ensures Allowed(STUDENT_UPDATE, r) <==> r == SUPER_ADMIN || r == ADMIN
    ensures Allowed(STUDENT_DELETE, r) <==> r == SUPER_ADMIN || r == ADMIN
  {
  }

  /** SUPER_ADMIN passes the guard of every route in the four routers. */
  lemma SuperAdminPassesEverywhere(e: Endpoint)
    requires e in CLASS_ROUTES + STUDENT_ROUTES + GRADE_ROUTES + REPORT_ROUTES
    ensures Allowed(e, SUPER_ADMIN)
  {
  }

  /**
   * A student's grades may be read with VIEW_GRADES or VIEW_OWN_GRADES, so
   * STUDENT passes (for any student id) and PARENT does not; only
   * SUPER_ADMIN deletes grades.
   */
  lemma GradeReadDeleteRule(r: UserRole)
    ensures Allowed(GRADES_OF_STUDENT, r) <==> r != PARENT
    ensures Allowed(GRADE_DELETE, r) <==> r == SUPER_ADMIN
  {
  }

  /** TEACHER creates and updates grades while ADMIN cannot. */
  lemma GradeWriteRule(r: UserRole)
    ensures Allowed(GRADE_CREATE, r) <==> r == SUPER_ADMIN || r == TEACHER
    ensures Allowed(GRADE_UPDATE, r) <==> r == SUPER_ADMIN || r == TEACHER
  {
  }

  /** Both report routes have the same guard, which SUPER_ADMIN, ADMIN and TEACHER pass. */
  lemma ReportRoutesRule(r: UserRole)
    ensures STUDENT_REPORT.required == PERFORMANCE_REPORT.required
    ensures Allowed(STUDENT_REPORT, r) <==> r == SUPER_ADMIN || r == ADMIN || r == TEACHER
    ensures Allowed(PERFORMANCE_REPORT, r) == Allowed(STUDENT_REPORT, r)
  {
  }

  /** Without a token every guarded route answers 401, before its guard or validator runs. */
  lemma UnauthenticatedEverywhere(e: Endpoint, issued: map<string, Jwt>, accessSecret: string, now: int, inputValid: bool)
    requires e in CLASS_ROUTES + STUDENT_ROUTES + GRADE_ROUTES + REPORT_ROUTES
    ensures Dispatch(e, issued, accessSecret, None, now, inputValid) == Refused(UNAUTHORIZED, MSG_UNAUTHORIZED)
  {
  }
}
