// The closed set of permissions, their "family:action" strings and the static
// role-to-permission table `RolePermissions`
// (libs/data/src/lib/enums/permission.enum.ts).
module Permissions {
  import opened Common
  import opened Roles

  datatype Permission =
    | TaskCreate | TaskRead | TaskUpdate | TaskDelete
    | OrgManage | OrgView
    | UserManage | UserView
    | AuditView

  /** The resource family a permission belongs to. */
  datatype Family = TaskFamily | OrgFamily | UserFamily | AuditFamily

  /** The string value of each permission. */
  function PermissionName(p: Permission): string {
    match p
    case TaskCreate => "task:create"
    case TaskRead => "task:read"
    case TaskUpdate => "task:update"
    case TaskDelete => "task:delete"
    case OrgManage => "org:manage"
    case OrgView => "org:view"
    case UserManage => "user:manage"
    case UserView => "user:view"
    case AuditView => "audit:view"
  }

  function FamilyOf(p: Permission): Family {
    match p
    case TaskCreate | TaskRead | TaskUpdate | TaskDelete => TaskFamily
    case OrgManage | OrgView => OrgFamily
    case UserManage | UserView => UserFamily
    case AuditView => AuditFamily
  }

  function FamilyName(f: Family): string {
    match f
    case TaskFamily => "task"
    case OrgFamily => "org"
    case UserFamily => "user"
    case AuditFamily => "audit"
  }

  function ActionName(p: Permission): string {
    match p
    case TaskCreate => "create"
    case TaskRead => "read"
    case TaskUpdate => "update"
    case TaskDelete => "delete"
    case OrgManage | UserManage => "manage"
    case OrgView | UserView | AuditView => "view"
  }

  /** All nine permissions in declaration order. */
  const AllPermissions: seq<Permission> :=
    [TaskCreate, TaskRead, TaskUpdate, TaskDelete, OrgManage, OrgView, UserManage, UserView, AuditView]

  /** `RolePermissions[role] || []`: the table, with no permissions for a null or unknown role. */
  function RolePermissions(role: Option<Role>): seq<Permission> {
    match role
    case Some(Owner) =>
      [TaskCreate, TaskRead, TaskUpdate, TaskDelete, OrgManage, OrgView, UserManage, UserView, AuditView]
    case Some(Admin) =>
      [TaskCreate, TaskRead, TaskUpdate, TaskDelete, OrgView, UserView, AuditView]
    case Some(Viewer) =>
      [TaskRead, OrgView]
    case None => []
  }

  /** Every permission string is "family:action", and the strings are pairwise distinct. */
  lemma PermissionNameForm(p: Permission, q: Permission)
    ensures PermissionName(p) == FamilyName(FamilyOf(p)) + ":" + ActionName(p)
    ensures PermissionName(p) == PermissionName(q) ==> p == q
  {
  }

  /** Owner holds all nine permissions. */
  lemma OwnerHoldsEveryPermission(p: Permission)
    ensures p in RolePermissions(Some(Owner))
    ensures p in AllPermissions
  {
  }

  /** The table is nested: Viewer within Admin within Owner. */
  lemma PermissionsAreNested(p: Permission)
    ensures p in RolePermissions(Some(Viewer)) ==> p in RolePermissions(Some(Admin))
    ensures p in RolePermissions(Some(Admin)) ==> p in RolePermissions(Some(Owner))
  {
  }

  /** Admin holds everything except ORG_MANAGE and USER_MANAGE. */
  lemma AdminPermissions(p: Permission)
    ensures p in RolePermissions(Some(Admin)) <==> p != OrgManage && p != UserManage
  {
  }

  /** Viewer holds exactly TASK_READ and ORG_VIEW: no task mutation and no audit view. */
  lemma ViewerPermissions(p: Permission)
    ensures p in RolePermissions(Some(Viewer)) <==> p == TaskRead || p == OrgView
  {
  }

  /** A null or unknown role holds nothing. */
  lemma NoRoleNoPermissions(p: Permission)
    ensures p !in RolePermissions(None)
  {
  }
}
