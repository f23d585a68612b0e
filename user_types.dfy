/**
 * The closed `UserRole` and `Permission` enumerations and their string values.
 * Each enum member's string value is its own name, so a role or permission that
 * travels through JSON (inside a token, say) is recovered by parsing the name.
 */
module UserTypes {
  import opened Wrappers

  datatype UserRole = SUPER_ADMIN | ADMIN | TEACHER | STUDENT | PARENT

  datatype Permission =
    | MANAGE_USERS | MANAGE_STUDENTS | MANAGE_CLASSES | MANAGE_GRADES
    | VIEW_STUDENTS | VIEW_CLASSES | VIEW_GRADES | VIEW_REPORTS
    | CREATE_GRADES | UPDATE_GRADES | DELETE_GRADES
    | VIEW_OWN_GRADES | VIEW_CHILD_GRADES

  /**
   * A stored user. The password is its bcrypt hash; a user has exactly one
   * role. Creation and lastLogin timestamps are not modelled.
   */
  datatype User = User(
    id: string,
    email: string,
    password: string,
    firstName: string,
    lastName: string,
    role: UserRole,
    isActive: bool)

  /** The enumeration in declaration order, each role at its `RoleIndex`: exactly five distinct roles. */
  function AllRoles(): (rs: seq<UserRole>)
    ensures |rs| == 5
    ensures forall r :: RoleIndex(r) < |rs| && rs[RoleIndex(r)] == r
    ensures forall i, j :: 0 <= i < j < |rs| ==> rs[i] != rs[j]
  {
    var rs := [SUPER_ADMIN, ADMIN, TEACHER, STUDENT, PARENT];
    rs
  }

  /** The position of a role in declaration order. */
  function RoleIndex(r: UserRole): (i: nat)
    ensures i < 5
  {
    match r
    case SUPER_ADMIN => 0
    case ADMIN => 1
    case TEACHER => 2
    case STUDENT => 3
    case PARENT => 4
  }

  /** The enumeration in declaration order, each permission at its `PermissionIndex`: exactly thirteen distinct permissions. */
  function AllPermissions(): (ps: seq<Permission>)
    ensures |ps| == 13
    ensures forall p :: PermissionIndex(p) < |ps| && ps[PermissionIndex(p)] == p
    ensures forall i, j :: 0 <= i < j < |ps| ==> ps[i] != ps[j]
  {
    var ps := [MANAGE_USERS, MANAGE_STUDENTS, MANAGE_CLASSES, MANAGE_GRADES,
               VIEW_STUDENTS, VIEW_CLASSES, VIEW_GRADES, VIEW_REPORTS,
               CREATE_GRADES, UPDATE_GRADES, DELETE_GRADES,
               VIEW_OWN_GRADES, VIEW_CHILD_GRADES];
    ps
  }

  /** The position of a permission in declaration order. */
  function PermissionIndex(p: Permission): (i: nat)
    ensures i < 13
  {
    match p
    case MANAGE_USERS => 0
    case MANAGE_STUDENTS => 1
    case MANAGE_CLASSES => 2
    case MANAGE_GRADES => 3
    case VIEW_STUDENTS => 4
    case VIEW_CLASSES => 5
    case VIEW_GRADES => 6
    case VIEW_REPORTS => 7
    case CREATE_GRADES => 8
    case UPDATE_GRADES => 9
    case DELETE_GRADES => 10
    case VIEW_OWN_GRADES => 11
    case VIEW_CHILD_GRADES => 12
  }

  /** The string value of a role. */
  function RoleName(r: UserRole): string
  {
    match r
    case SUPER_ADMIN => "SUPER_ADMIN"
    case ADMIN => "ADMIN"
    case TEACHER => "TEACHER"
    case STUDENT => "STUDENT"
    case PARENT => "PARENT"
  }

  /** The string value of a permission. */
  function PermissionName(p: Permission): string
  {
    match p
    case MANAGE_USERS => "MANAGE_USERS"
    case MANAGE_STUDENTS => "MANAGE_STUDENTS"
    case MANAGE_CLASSES => "MANAGE_CLASSES"
    case MANAGE_GRADES => "MANAGE_GRADES"
    case VIEW_STUDENTS => "VIEW_STUDENTS"
    case VIEW_CLASSES => "VIEW_CLASSES"
    case VIEW_GRADES => "VIEW_GRADES"
    case VIEW_REPORTS => "VIEW_REPORTS"
    case CREATE_GRADES => "CREATE_GRADES"
    case UPDATE_GRADES => "UPDATE_GRADES"
    case DELETE_GRADES => "DELETE_GRADES"
    case VIEW_OWN_GRADES => "VIEW_OWN_GRADES"
    case VIEW_CHILD_GRADES => "VIEW_CHILD_GRADES"
  }

  /** Reads a role back from its string value; any other string is not a role. */
  function ParseRole(s: string): (r: Option<UserRole>)
    ensures r.Some? ==> RoleName(r.value) == s
    ensures r.None? ==> forall x :: RoleName(x) != s
  {
    if s == "SUPER_ADMIN" then Some(SUPER_ADMIN)
    else if s == "ADMIN" then Some(ADMIN)
    else if s == "TEACHER" then Some(TEACHER)
    else if s == "STUDENT" then Some(STUDENT)
    else if s == "PARENT" then Some(PARENT)
    else None
  }

  /** Reads a permission back from its string value; any other string is not a permission. */
  function ParsePermission(s: string): (p: Option<Permission>)
    ensures p.Some? ==> PermissionName(p.value) == s
    ensures p.None? ==> forall x :: PermissionName(x) != s
  {
    if s == "MANAGE_USERS" then Some(MANAGE_USERS)
    else if s == "MANAGE_STUDENTS" then Some(MANAGE_STUDENTS)
    else if s == "MANAGE_CLASSES" then Some(MANAGE_CLASSES)
    else if s == "MANAGE_GRADES" then Some(MANAGE_GRADES)
    else if s == "VIEW_STUDENTS" then Some(VIEW_STUDENTS)
    else if s == "VIEW_CLASSES" then Some(VIEW_CLASSES)
    else if s == "VIEW_GRADES" then Some(VIEW_GRADES)
    else if s == "VIEW_REPORTS" then Some(VIEW_REPORTS)
    else if s == "CREATE_GRADES" then Some(CREATE_GRADES)
    else if s == "UPDATE_GRADES" then Some(UPDATE_GRADES)
    else if s == "DELETE_GRADES" then Some(DELETE_GRADES)
    else if s == "VIEW_OWN_GRADES" then Some(VIEW_OWN_GRADES)
    else if s == "VIEW_CHILD_GRADES" then Some(VIEW_CHILD_GRADES)
    else None
  }

  /** Writing a role as its string and parsing it back gives the same role. */
  lemma RoleRoundTrip(r: UserRole)
    ensures ParseRole(RoleName(r)) == Some(r)
  {
  }

  /** Writing a permission as its string and parsing it back gives the same permission. */
  lemma PermissionRoundTrip(p: Permission)
    ensures ParsePermission(PermissionName(p)) == Some(p)
  {
  }

  /** Distinct roles have distinct string values, so a role string names one role. */
  lemma RoleNameInjective(a: UserRole, b: UserRole)
    requires RoleName(a) == RoleName(b)
    ensures a == b
  {
    RoleRoundTrip(a);
    RoleRoundTrip(b);
  }
}
