/**
 * The two static tables of the access-control policy: `ROLE_PERMISSIONS`, an
 * explicit permission list per role (no inheritance between roles), and
 * `ROLE_HIERARCHY`, a numeric level per role.
 */
module Roles {
  import opened Wrappers
  import opened UserTypes

  predicate NoDuplicates<T(==)>(s: seq<T>)
  {
    forall i, j :: 0 <= i < j < |s| ==> s[i] != s[j]
  }

  /** `ROLE_PERMISSIONS[r]`, in the order the table lists it. */
  function RolePermissions(r: UserRole): (ps: seq<Permission>)
    ensures VIEW_CLASSES in ps
    // the three SUPER_ADMIN-only permissions
    ensures DELETE_GRADES in ps <==> r == SUPER_ADMIN
    ensures MANAGE_USERS in ps <==> r == SUPER_ADMIN
    ensures MANAGE_GRADES in ps <==> r == SUPER_ADMIN
  {
    match r
    case SUPER_ADMIN =>
      [MANAGE_USERS, MANAGE_STUDENTS, MANAGE_CLASSES, MANAGE_GRADES, VIEW_STUDENTS,
       VIEW_CLASSES, VIEW_GRADES, VIEW_REPORTS, CREATE_GRADES, UPDATE_GRADES, DELETE_GRADES]
    case ADMIN =>
      [MANAGE_STUDENTS, MANAGE_CLASSES, VIEW_STUDENTS, VIEW_CLASSES, VIEW_GRADES, VIEW_REPORTS]
    case TEACHER =>
      [VIEW_STUDENTS, VIEW_CLASSES, VIEW_GRADES, CREATE_GRADES, UPDATE_GRADES, VIEW_REPORTS]
    case STUDENT =>
      [VIEW_OWN_GRADES, VIEW_CLASSES]
    case PARENT =>
      [VIEW_CHILD_GRADES, VIEW_CLASSES]
  }

  /** No role's list names a permission twice. */
  lemma PermissionListsDistinct(r: UserRole)
    ensures NoDuplicates(RolePermissions(r))
  {
  }

  /** SUPER_ADMIN's list is explicit, not "everything": eleven permissions, without the two own-record ones. */
  lemma SuperAdminList()
    ensures |RolePermissions(SUPER_ADMIN)| == 11
    ensures VIEW_OWN_GRADES !in RolePermissions(SUPER_ADMIN)
    ensures VIEW_CHILD_GRADES !in RolePermissions(SUPER_ADMIN)
  {
  }

  /** STUDENT and PARENT each hold VIEW_CLASSES and their own kind of grade view, and nothing else. */
  lemma StudentAndParentLists()
    ensures (set p | p in RolePermissions(STUDENT)) == {VIEW_OWN_GRADES, VIEW_CLASSES}
    ensures (set p | p in RolePermissions(PARENT)) == {VIEW_CHILD_GRADES, VIEW_CLASSES}
  {
  }

  /**
   * `ROLE_PERMISSIONS[role]` where `role` is the string carried by a token:
   * the table is keyed by the roles' string values, so any other string
   * finds nothing (`undefined`).
   */
  function LookupPermissions(role: string): (ps: Option<seq<Permission>>)
    ensures ps.Some? <==> exists r :: RoleName(r) == role
    ensures forall r :: RoleName(r) == role ==> ps == Some(RolePermissions(r))
  {
    match ParseRole(role)
    case Some(r) => Some(RolePermissions(r))
    case None => None
  }

  /** `ROLE_PERMISSIONS[role] || []`: the permissions a guard grants a token's role. */
  function HeldPermissions(role: string): (ps: seq<Permission>)
    ensures forall p :: p in ps <==> exists r :: RoleName(r) == role && p in RolePermissions(r)
  {
    match LookupPermissions(role)
    case Some(list) => list
    case None => []
  }

  /** `ROLE_HIERARCHY[r]`: five distinct levels, SUPER_ADMIN highest and STUDENT lowest. */
  function Level(r: UserRole): (l: nat)
    ensures 1 <= l <= 5
    ensures l == 5 <==> r == SUPER_ADMIN
    ensures l == 1 <==> r == STUDENT
  {
    match r
    case SUPER_ADMIN => 5
    case ADMIN => 4
    case TEACHER => 3
    case PARENT => 2
    case STUDENT => 1
  }

  /** `ROLE_HIERARCHY[role] || 0`: a string that names no role sits at level 0. */
  function LevelOfName(role: string): (l: nat)
    ensures l == 0 <==> forall r :: RoleName(r) != role
    ensures forall r :: RoleName(r) == role ==> l == Level(r)
  {
    match ParseRole(role)
    case Some(r) => Level(r)
    case None => 0
  }

  /** The hierarchy is a strict total order: distinct roles have distinct levels. */
  lemma LevelsDistinct(a: UserRole, b: UserRole)
    requires a != b
    ensures Level(a) != Level(b)
  {
  }

  /** SUPER_ADMIN > ADMIN > TEACHER > PARENT > STUDENT. */
  lemma HierarchyOrder()
    ensures Level(SUPER_ADMIN) > Level(ADMIN) > Level(TEACHER) > Level(PARENT) > Level(STUDENT)
  {
  }

  /**
   * A higher level does not mean more permissions: ADMIN outranks TEACHER but
   * lacks CREATE_GRADES and UPDATE_GRADES, which TEACHER holds.
   */
  lemma HierarchyIsNotInclusion()
    ensures Level(ADMIN) > Level(TEACHER)
    ensures CREATE_GRADES in RolePermissions(TEACHER) && CREATE_GRADES !in RolePermissions(ADMIN)
    ensures UPDATE_GRADES in RolePermissions(TEACHER) && UPDATE_GRADES !in RolePermissions(ADMIN)
  {
  }
}
