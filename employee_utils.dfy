/**
 * lib/utils/employee-utils.ts: the role type an employee is shown with, the
 * badge variant and label of each role type, and the badge of a department.
 */
module EmployeeUtils {
  import opened Values

  /** A JavaScript value that may be `undefined`, `null` or defined: `=== null` tells the first two apart. */
  datatype Nullable<+T> = Undefined | Null | Defined(value: T)

  /**
   * The fields of a user the role type depends on: its role names (absent
   * when `undefined` or `null`), its reports, its manager id and its
   * department, whatever value that holds.
   */
  datatype User = User(
    roles: Option<seq<string>>, reports: Option<seq<Json>>, managerId: Nullable<string>, department: Option<Json>)

  datatype RoleType = Admin | Manager | DeptManager | Employee

  /** JavaScript truthiness of a decoded value: null, false, 0 and "" are false; arrays and objects are true. */
  predicate JsTruthy(v: Json) {
    match v
    case JNull => false
    case JBool(b) => b
    case JInt(i) => i != 0
    case JStr(s) => s != ""
    case JArr(_) => true
    case JObj(_) => true
  }

  /** `user.roles || []` */
  function RolesOf(u: User): seq<string> {
    match u.roles case Some(rs) => rs case None => []
  }

  /** The user has direct reports, or no manager (`managerId === null`) and a truthy department. */
  predicate HeadsDepartment(u: User) {
    (u.reports.Some? && |u.reports.value| > 0)
    || (u.managerId == Null && u.department.Some? && JsTruthy(u.department.value))
  }

  /** `getEmployeeRoleType`: the first role found, by priority, decides; otherwise the reporting structure does. */
  function EmployeeRoleType(u: User): (r: RoleType)
    ensures "ADMIN" in RolesOf(u) ==> r == Admin
    ensures "ADMIN" !in RolesOf(u) && ("HR_ADMIN" in RolesOf(u) || "HR" in RolesOf(u) || "DEPT_MANAGER" in RolesOf(u)) ==>
      r == DeptManager
    ensures r == Manager <==>
      "MANAGER" in RolesOf(u) && (forall x :: x in ["ADMIN", "HR_ADMIN", "HR", "DEPT_MANAGER"] ==> x !in RolesOf(u))
    ensures (forall x :: x in ["ADMIN", "HR_ADMIN", "HR", "DEPT_MANAGER", "MANAGER"] ==> x !in RolesOf(u)) ==>
      (r == DeptManager <==> HeadsDepartment(u)) && (r == Employee <==> !HeadsDepartment(u))
  {
    var roles := RolesOf(u);
    if "ADMIN" in roles then Admin
    else if "HR_ADMIN" in roles || "HR" in roles then DeptManager
    else if "DEPT_MANAGER" in roles then DeptManager
    else if "MANAGER" in roles then Manager
    else if HeadsDepartment(u) then DeptManager
    else Employee
  }

  /** A user without roles is classified by the reporting structure only: missing roles count as none. */
  lemma MissingRolesAsEmpty(u: User)
    requires u.roles.None?
    ensures EmployeeRoleType(u) == EmployeeRoleType(u.(roles := Some([])))
    ensures EmployeeRoleType(u) == (if HeadsDepartment(u) then DeptManager else Employee)
  {
  }

  /** `getRoleBadgeVariant` */
  function RoleBadgeVariant(t: RoleType): (r: string)
    ensures r in ["destructive", "dept_manager", "default", "secondary"]
  {
    match t
    case Admin => "destructive"
    case DeptManager => "dept_manager"
    case Manager => "default"
    case Employee => "secondary"
  }

  /** `getRoleDisplayText` */
  function RoleDisplayText(t: RoleType): (r: string)
    ensures r in ["Admin", "Department Manager", "Manager", "Employee"]
  {
    match t
    case Admin => "Admin"
    case DeptManager => "Department Manager"
    case Manager => "Manager"
    case Employee => "Employee"
  }

  /** Each role type has its own badge and its own label: either one tells the role type back. */
  lemma RoleLabelsDistinct(t1: RoleType, t2: RoleType)
    ensures RoleBadgeVariant(t1) == RoleBadgeVariant(t2) <==> t1 == t2
    ensures RoleDisplayText(t1) == RoleDisplayText(t2) <==> t1 == t2
  {
  }

  datatype Badge = Badge(icon: string, color: string)

  /** The departments `departmentBadgeConfig` lists, in order; "default" is listed last. */
  const BadgeNames := ["Human Resources", "Finance", "Marketing", "Sales", "IT", "Operations",
                       "Customer Service", "Research & Development", "Legal", "default"]

  const BadgeTable := map[
    "Human Resources" := Badge("Users", "bg-blue-100 text-blue-800 dark:bg-blue-900 dark:text-blue-300"),
    "Finance" := Badge("DollarSign", "bg-green-100 text-green-800 dark:bg-green-900 dark:text-green-300"),
    "Marketing" := Badge("TrendingUp", "bg-purple-100 text-purple-800 dark:bg-purple-900 dark:text-purple-300"),
    "Sales" := Badge("ShoppingCart", "bg-yellow-100 text-yellow-800 dark:bg-yellow-900 dark:text-yellow-300"),
    "IT" := Badge("Laptop", "bg-gray-100 text-gray-800 dark:bg-gray-800 dark:text-gray-300"),
    "Operations" := Badge("Settings", "bg-orange-100 text-orange-800 dark:bg-orange-900 dark:text-orange-300"),
    "Customer Service" := Badge("HeadPhones", "bg-pink-100 text-pink-800 dark:bg-pink-900 dark:text-pink-300"),
    "Research & Development" := Badge("Beaker", "bg-indigo-100 text-indigo-800 dark:bg-indigo-900 dark:text-indigo-300"),
    "Legal" := Badge("FileText", "bg-red-100 text-red-800 dark:bg-red-900 dark:text-red-300"),
    "default" := Badge("Building", "bg-slate-100 text-slate-800 dark:bg-slate-800 dark:text-slate-300")]

  const DefaultBadge := Badge("Building", "bg-slate-100 text-slate-800 dark:bg-slate-800 dark:text-slate-300")

  /** `getDepartmentBadgeConfig`: a missing or empty name, or one the table does not list, gets the default badge. */
  function DepartmentBadge(name: Option<string>): (r: Badge)
    ensures name.None? || name.value == "" || name.value !in BadgeNames ==> r == DefaultBadge
    ensures name.Some? && name.value in BadgeNames ==> r == BadgeTable[name.value]
  {
    if name.None? || name.value == "" then BadgeTable["default"]
    else if name.value in BadgeTable then BadgeTable[name.value]
    else BadgeTable["default"]
  }

  /** Distinct listed departments, "default" among them, have distinct badges. */
  lemma ListedBadgesDiffer(a: string, b: string)
    requires a in BadgeNames && b in BadgeNames && a != b
    ensures DepartmentBadge(Some(a)) != DepartmentBadge(Some(b))
  {
  }
}
