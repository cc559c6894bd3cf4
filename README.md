# Multi-tenant task manager: access control and task lifecycle

This project models the role-based access control (RBAC) core of a
multi-tenant task manager. Its API is a NestJS backend and its dashboard is
an Angular/NgRx frontend. The model states and proves what the core
promises. Users belong to organizations. Each user has one of three ranked
roles (Owner > Admin > Viewer) or none. A self-registered account stays
Pending until an Owner or Admin approves or rejects it.

The model covers:

- **Roles and permissions.** The role ranking, and the permission table
  each role is granted (`role.dfy`, `permission.dfy`).
- **Guards.** `RolesGuard`, `PermissionsGuard`, `OrganizationGuard` and the
  API's `ActiveUserGuard`, and how NestJS runs a controller's guard list. Route
  metadata is resolved handler-first, then class. A guard that returns
  `false` yields the generic 403 "Forbidden resource". A guard that throws
  passes its own error through (`routing.dfy`).
- **Task service.** `TasksService`: organization scoping (a Viewer only sees
  tasks it created or is assigned), filters, ordering and paging of
  `findAll`, `findOne`, the ownership checks, and create, update, remove and
  reorder with their audit rows. It is a class over the tasks table and the
  audit repository. Each method is proved equal to a pure step function,
  and the properties are lemmas about those functions (`tasks_service.dfy`).
- **Task controller.** Which roles reach each task route, and what the
  service does behind them (`tasks_controller.dfy`).
- **Audit log.** The org-scoped audit log listing, the two distinct-value
  endpoints and `create` (`audit_log_service.dfy`,
  `audit_log_controller.dfy`).
- **Admin.** Pending registrations, approve and reject with their error
  order, and the user and organization listings (`admin_service.dfy`,
  `admin_controller.dfy`).
- **Authentication.** Register, login, refresh, and the JWT strategy's user
  lookup (`auth_service.dfy`).
- **Dashboard store.** The tasks reducer and selectors, and the auth reducer
  (`tasks_reducer.dfy`, `tasks_selectors.dfy`, `auth_reducer.dfy`).
- **Scenarios.** End-to-end runs that chain these together (`scenarios.dfy`).

Shared definitions:

- `common.dfy` holds `Option`, `Result`, `Outcome`, the HTTP error kinds, and
  JavaScript truthiness.
- `entities.dfy` holds the entities and DTOs.
- `query.dfy` holds the SQL building blocks: WHERE, DISTINCT, ORDER BY with
  NULLS LAST on ascending sorts, OFFSET/LIMIT, and `Math.ceil` page counts.

The model keeps the code's behaviour as written. Some of it a reader of an
RBAC system might not expect:

- Register stores the role the registrant asks for, Owner included, with
  Viewer as the default. The dashboard's register form always asks for
  Owner. Only the Pending status holds such an account back
  (`Auth.SelfChosenRoleStored`).
- Login never looks at the account status. A Pending account receives
  tokens (`Auth.Login`, `Auth.RegisteredUserCanLogIn`).
- The task routes carry no `ActiveUserGuard`. A Pending or Rejected account
  with a role is admitted exactly as an Active one
  (`TasksController.StatusIgnored`, `Scenarios.SelfRegisteredOwnerReachesTasks`).
- Only the Viewer role is narrowed to created or assigned tasks. A user with
  a null role sees its whole organization in the service
  (`Tasks.NonViewerSeesWholeOrganization`). The guards stop it before the
  service is reached.
- The service's creator and assignee carve-outs exist, but through the
  controller only Owners and Admins reach update, reorder and remove. Those
  checks therefore never refuse there (`TasksController.OwnershipChecksUnreachable`).
- Writing to a task of another organization answers 404 "Task not found",
  not 403 (`Scenarios.CrossOrganizationWriteNotFound`).
- A Viewer cannot create tasks. The scenario of a colleague who cannot see
  a task is therefore played with an Admin creator
  (`Scenarios.ApprovedAdminTaskHiddenFromColleague`).
- Every refresh failure reads "Invalid refresh token". The JWT strategy
  trusts only the token's subject and re-reads role and organization from
  the table.
- `OrganizationGuard` lets an Owner through before it even extracts the
  target organization.

## Model

| member | source | states |
|---|---|---|
| Roles.ParseRole | libs/data/src/lib/enums/role.enum.ts:1-5 | a string parses to the role whose wire name it is, and to nothing when no role has that name |
| Roles.Rank | libs/data/src/lib/enums/role.enum.ts:8-12 | the hierarchy levels: Owner 3, Admin 2, Viewer 1 |
| Roles.RankOf | libs/auth/src/lib/guards/roles.guard.ts:32-36 | a missing role ranks 0, below every role, and a present one ranks at its level, at least 1 |
| Roles.RankIsStrictTotalOrder | libs/data/src/lib/enums/role.enum.ts:8-12 | distinct roles have distinct ranks, Owner > Admin > Viewer, and every rank lies between Viewer's and Owner's |
| Roles.RoleNameRoundTrip | libs/data/src/lib/enums/role.enum.ts:1-5 | parsing a role's name gives the role back, and role names are distinct |
| Permissions.PermissionNameForm | libs/data/src/lib/enums/permission.enum.ts:1-18 | every permission's name is `family:action`, and names are distinct |
| Permissions.OwnerHoldsEveryPermission | libs/data/src/lib/enums/permission.enum.ts:22-32 | the Owner is granted every permission there is |
| Permissions.PermissionsAreNested | libs/data/src/lib/enums/permission.enum.ts:20-46 | the Viewer's grants are contained in the Admin's, and the Admin's in the Owner's |
| Permissions.AdminPermissions | libs/data/src/lib/enums/permission.enum.ts:33-41 | the Admin holds exactly the permissions other than org:manage and user:manage |
| Permissions.ViewerPermissions | libs/data/src/lib/enums/permission.enum.ts:42-45 | the Viewer holds exactly task:read and org:view |
| Permissions.NoRoleNoPermissions | libs/auth/src/lib/guards/permissions.guard.ts:26 | a missing role is granted nothing (the empty-list fallback) |
| RolesGuard.AnyRoleSatisfied | libs/auth/src/lib/guards/roles.guard.ts:27-29 | true iff some required role is reached by the user's rank or a higher one |
| RolesGuard.NoRequirementAllows | libs/auth/src/lib/guards/roles.guard.ts:16-18 | no roles metadata, or an empty list, lets every request through, with or without a user |
| RolesGuard.RequirementDecision | libs/auth/src/lib/guards/roles.guard.ts:20-29 | with a requirement: no user is denied, and a user passes iff its rank reaches some required role |
| RolesGuard.NullRoleDenied | libs/auth/src/lib/guards/roles.guard.ts:32-36 | a user with a null role fails every non-empty requirement |
| RolesGuard.MonotoneInActor | libs/auth/src/lib/guards/roles.guard.ts:32-36 | a user of equal or higher rank passes whatever a lower one passes |
| RolesGuard.MoreRolesNeverDeny | libs/auth/src/lib/guards/roles.guard.ts:27-29 | adding a role to the requirement never turns an allowed user away |
| RolesGuard.OwnerAndViewerFloors | libs/auth/src/lib/guards/roles.guard.ts:27-36 | an Owner passes every requirement; a Viewer passes iff Viewer is listed |
| PermissionsGuard.AllIncluded | libs/auth/src/lib/guards/permissions.guard.ts:28-30 | true iff every required permission is among the granted ones |
| PermissionsGuard.NoRequirementAllows | libs/auth/src/lib/guards/permissions.guard.ts:16-18 | no permissions metadata, or an empty list, lets every request through |
| PermissionsGuard.RequirementDecision | libs/auth/src/lib/guards/permissions.guard.ts:20-30 | with a requirement: no user is denied, and a user passes iff its role's table holds every required permission |
| PermissionsGuard.NullRoleDenied | libs/auth/src/lib/guards/permissions.guard.ts:26-30 | a null role fails every non-empty requirement |
| PermissionsGuard.MorePermissionsNeverAllow | libs/auth/src/lib/guards/permissions.guard.ts:28-30 | adding a permission to the requirement never admits a denied user |
| PermissionsGuard.OrderAndDuplicatesIrrelevant | libs/auth/src/lib/guards/permissions.guard.ts:28-30 | two requirements listing the same permissions, in any order or multiplicity, decide alike |
| OrganizationGuard.GetResourceOrgId | libs/auth/src/lib/guards/organization.guard.ts:59-67 | an extracted organization id is never empty |
| OrganizationGuard.ResourceOrgIdSources | libs/auth/src/lib/guards/organization.guard.ts:59-67 | the key defaults to "organizationId", params win over body and body over query, and nothing is found iff no source has a truthy value |
| OrganizationGuard.OptionsAndUser | libs/auth/src/lib/guards/organization.guard.ts:24-33 | without options every request passes; with options, a request without a user is denied |
| OrganizationGuard.OwnerOrNoTargetAllowed | libs/auth/src/lib/guards/organization.guard.ts:36-44 | an Owner, or a request naming no target organization, passes |
| OrganizationGuard.SameOrDifferentOrg | libs/auth/src/lib/guards/organization.guard.ts:47-56 | a non-Owner passes for its own organization, and is denied for another one when neither parent nor child access is allowed |
| OrganizationGuard.HierarchyAccess | libs/auth/src/lib/guards/organization.guard.ts:69-86 | for another organization: a matching parent or a listed child grants access when allowed; an unloaded organization, or no children with parent access off, denies |
| ActiveUserGuard.CanActivate | apps/api/src/modules/auth/guards/active-user.guard.ts:9-33 | the guard allows iff there is a user and it is Active |
| ActiveUserGuard.GateCases | apps/api/src/modules/auth/guards/active-user.guard.ts:12-30 | no user gives `false`; Pending and Rejected throw 403 with ACCOUNT_PENDING_APPROVAL and ACCOUNT_REJECTED |
| ActiveUserGuard.OnlyStatusMatters | apps/api/src/modules/auth/guards/active-user.guard.ts:16-32 | two users with the same status get the same answer |
| Routing.Override | libs/auth/src/lib/guards/roles.guard.ts:11-14 | `getAllAndOverride`: handler metadata when present, else the class's |
| Routing.RunGuards | apps/api/src/modules/tasks/tasks.controller.ts:28 | a guard list admits iff every guard in it admits |
| Routing.FirstDenialDecides | apps/api/src/modules/admin/admin.controller.ts:23 | a denied request carries the denial of the first guard that refused, after all earlier guards admitted |
| Routing.AdmitDecision | apps/api/src/modules/admin/admin.controller.ts:23-24 | a route admits iff each guard it lists (status, roles, permissions) allows with the resolved metadata |
| Routing.DenialIsGeneric | libs/auth/src/lib/guards/roles.guard.ts:22-29 | without the status guard, every denial is the generic 403 "Forbidden resource" |
| Routing.HandlerOverridesClass | libs/auth/src/lib/guards/permissions.guard.ts:11-14 | the required roles and permissions are the handler's when it has them, else the controller's |
| Routing.StatusGateFirst | apps/api/src/modules/admin/admin.controller.ts:23 | with the status guard first, a Pending or Rejected user gets that guard's message whatever its role |
| Entities.TaskStatusNamesDistinct | libs/data/src/lib/data.spec.ts:52-58 | the task status wire names are distinct |
| Query.Where | apps/api/src/modules/tasks/tasks.service.ts:126-166 | the WHERE clause keeps exactly the rows that pass, in stored order, as a subsequence |
| Query.WhereMultiplicity | apps/api/src/modules/tasks/tasks.service.ts:126-166 | a passing row is kept as many times as it is stored, and a failing one never |
| Query.Map | apps/api/src/modules/audit-log/audit-log.service.ts:59-72 | a projection keeps the length and maps each row in place |
| Query.Distinct | apps/api/src/modules/audit-log/audit-log.service.ts:106-113 | DISTINCT lists each stored value exactly once and nothing else |
| Query.KeyLeTotalOrder | apps/api/src/modules/tasks/tasks.service.ts:47-49 | the ORDER BY key order (NULL after every value) is total, antisymmetric and transitive |
| Query.SortBy | apps/api/src/modules/tasks/tasks.service.ts:47-49 | ORDER BY returns a permutation of its input, sorted in the requested direction |
| Query.PageRowsSelected | apps/api/src/modules/tasks/tasks.service.ts:47-56 | every row of a page of the sorted selection is a stored row that passes the selection |
| Query.WindowSorted | apps/api/src/modules/tasks/tasks.service.ts:52-56 | a page of a sorted list is sorted |
| Query.Window | apps/api/src/modules/tasks/tasks.service.ts:52-56 | OFFSET/LIMIT returns at most `take` rows, row `skip + i` at position i, and none past the end |
| Query.TotalPages | apps/api/src/modules/tasks/tasks.service.ts:66 | the ceiling of total/limit: the fewest pages of `limit` rows holding every row, 0 iff there are no rows |
| Query.PageContaining | apps/api/src/modules/tasks/tasks.service.ts:54-56 | row k lies on a page at least 1, inside that page's window |
| Query.WindowHoldsRow | apps/api/src/modules/tasks/tasks.service.ts:52-56 | every row appears on the page that contains its index |
| Tasks.NoOrganizationNoTasks | apps/api/src/modules/tasks/tasks.service.ts:126-137 | a user without an organization is in scope of no task, since NULL never equals |
| Tasks.NonViewerSeesWholeOrganization | apps/api/src/modules/tasks/tasks.service.ts:126-137 | any non-Viewer sees exactly the tasks whose organization equals its own |
| Tasks.ViewerScopeIsNarrowest | apps/api/src/modules/tasks/tasks.service.ts:126-137 | a task a Viewer sees is seen by the same user under any role |
| Tasks.Lower | apps/api/src/modules/tasks/tasks.service.ts:158-165 | case folding keeps the length and folds each character |
| Tasks.ContainsAt | apps/api/src/modules/tasks/tasks.service.ts:158-165 | the substring search succeeds iff the needle occurs at some position |
| Tasks.ILikeReflexive | apps/api/src/modules/tasks/tasks.service.ts:158-165 | a present text matches the empty search and its own text |
| Tasks.EmptyFilterKeepsAll | apps/api/src/modules/tasks/tasks.service.ts:139-166 | a filter with no criteria keeps every task |
| Tasks.EmptyStringFiltersIgnored | apps/api/src/modules/tasks/tasks.service.ts:139-166 | empty-string assignee, creator and search filters are falsy and ignored |
| Tasks.PageOf | apps/api/src/modules/tasks/tasks.service.ts:52 | the page is at least 1, and 1 when absent |
| Tasks.LimitOf | apps/api/src/modules/tasks/dto/task-filter.dto.ts:40-45 | the limit lies in 1..100, and is 10 when absent |
| Tasks.Matching | apps/api/src/modules/tasks/tasks.service.ts:34-45 | the selected rows are exactly the stored tasks in the user's scope that pass the filters |
| Tasks.FindAll | apps/api/src/modules/tasks/tasks.service.ts:34-69 | the meta block: page and limit as resolved, total as the count of matching rows, totalPages as its ceiling, and the page size as the window of that total |
| Tasks.FindAllRows | apps/api/src/modules/tasks/tasks.service.ts:34-69 | every task returned is stored, in the user's scope and passes the filters |
| Tasks.FindAllOrdered | apps/api/src/modules/tasks/tasks.service.ts:47-49 | the page is sorted by the chosen column (createdAt by default) in the chosen direction (DESC by default) |
| Tasks.OrderIgnoresPage | apps/api/src/modules/tasks/tasks.service.ts:47-56 | the page number changes neither which rows are selected nor their order |
| Tasks.FindAllPagesCover | apps/api/src/modules/tasks/tasks.service.ts:52-56 | every visible matching task appears on some page |
| Tasks.PageHolds | apps/api/src/modules/tasks/tasks.service.ts:52-56 | a row in window p of the ordered selection is returned for page p |
| Tasks.FindOne | apps/api/src/modules/tasks/tasks.service.ts:71-87 | a row with that id in the user's scope is returned; otherwise 404 "Task not found", for a missing task and an out-of-scope one alike |
| Tasks.FindOneFindsRow | apps/api/src/modules/tasks/tasks.service.ts:71-87 | with unique ids, findOne returns the in-scope row itself |
| Tasks.CheckUpdatePermission | apps/api/src/modules/tasks/tasks.service.ts:168-178 | passes iff Owner, Admin, creator or assignee; otherwise 403 with the update message |
| Tasks.CheckDeletePermission | apps/api/src/modules/tasks/tasks.service.ts:180-190 | passes iff Owner, Admin or creator; otherwise 403 with the delete message |
| Tasks.DeleteImpliesUpdate | apps/api/src/modules/tasks/tasks.service.ts:168-190 | whoever may delete a task may also update it |
| Tasks.NewTask | apps/api/src/modules/tasks/tasks.service.ts:18-25 | the DTO's fields with defaults (todo, other, priority 0), created by the actor in the actor's organization, both timestamps now |
| Tasks.ApplyUpdate | apps/api/src/modules/tasks/tasks.service.ts:96-98 | each present DTO field (title, description, status, priority, category, assignee, due date) overwrites and each absent one stays; id, creator, organization and createdAt never change; updatedAt is stamped with the request time exactly when some column changed, since `save` sends no UPDATE otherwise |
| Tasks.UnchangedUpdateKeepsStamp | apps/api/src/modules/tasks/tasks.service.ts:96-98 | a PATCH with no fields, or only the stored values, leaves the row as stored, updatedAt included |
| Tasks.Reprioritize | apps/api/src/modules/tasks/tasks.service.ts:120-121 | the priority becomes the requested one and no other column changes; updatedAt moves only when the priority does |
| Tasks.Replace | apps/api/src/modules/tasks/tasks.service.ts:97 | saving replaces the row with that id and keeps all others in place |
| Tasks.RemoveId | apps/api/src/modules/tasks/tasks.service.ts:113 | removing keeps exactly the rows with another id |
| Tasks.RemoveIdDropsOne | apps/api/src/modules/tasks/tasks.service.ts:113 | with unique ids, removing a present id drops exactly one row |
| Tasks.RemoveIdAbsent | apps/api/src/modules/tasks/tasks.service.ts:113 | removing an absent id changes nothing |
| Tasks.CreateVisibleIffOrganization | apps/api/src/modules/tasks/tasks.service.ts:17-32 | create appends one CREATE audit row with no old value and the new task's snapshot as new value; the re-read succeeds iff the creator has an organization, and then returns the new task appended to the table |
| Tasks.CreateKeepsIdsUnique | apps/api/src/modules/tasks/tasks.service.ts:17-32 | with a fresh generated id, create keeps the primary key unique |
| Tasks.UpdateEffect | apps/api/src/modules/tasks/tasks.service.ts:89-103 | not found or refused leaves everything unchanged with the matching error; accepted appends one UPDATE row with old and new snapshots, stores exactly `ApplyUpdate` of the found task in the target's place and leaves every other task as it was |
| Tasks.UpdateByManagerReadsBack | apps/api/src/modules/tasks/tasks.service.ts:89-103 | an Owner or Admin gets back exactly the updated row |
| Tasks.ViewerReassignLosesSight | apps/api/src/modules/tasks/tasks.service.ts:89-103 | a Viewer who is only the assignee and reassigns the task saves the change and the audit row, yet is answered "Task not found"; this holds where the new `assignedToId` reaches the stored row, which the loaded `assignedTo` relation may prevent (see Left out) |
| Tasks.RemoveEffect | apps/api/src/modules/tasks/tasks.service.ts:105-114 | not found or refused changes nothing; accepted appends one DELETE row with the old snapshot and removes exactly the target |
| Tasks.ViewerDeletesOnlyOwn | apps/api/src/modules/tasks/tasks.service.ts:180-190 | a successful delete by a Viewer was of a task it created |
| Tasks.ReorderEffect | apps/api/src/modules/tasks/tasks.service.ts:116-124 | reorder writes no audit row, fails like update, and otherwise stores `Reprioritize` of the target: its new priority, with updatedAt refreshed only if the priority changed |
| Tasks.ReplaceKeepsIdsUnique | apps/api/src/modules/tasks/tasks.service.ts:97 | saving an existing row keeps ids unique |
| Tasks.RemoveKeepsIdsUnique | apps/api/src/modules/tasks/tasks.service.ts:113 | deleting keeps ids unique |
| Tasks.TasksService.constructor | apps/api/src/modules/tasks/tasks.service.ts:11-15 | an empty tasks table wired to the given audit repository |
| Tasks.TasksService.LogAudit | apps/api/src/modules/tasks/tasks.service.ts:192-210 | appends exactly one audit row with the given user, action, task and snapshots |
| Tasks.TasksService.Create | apps/api/src/modules/tasks/tasks.service.ts:17-32 | the new table, audit log and result are those of the create step, and the primary key stays unique |
| Tasks.TasksService.Update | apps/api/src/modules/tasks/tasks.service.ts:89-103 | the new table, audit log and result are those of the update step, and the primary key stays unique |
| Tasks.TasksService.Remove | apps/api/src/modules/tasks/tasks.service.ts:105-114 | the new table, audit log and result are those of the remove step, and the primary key stays unique |
| Tasks.TasksService.Reorder | apps/api/src/modules/tasks/tasks.service.ts:116-124 | the new table, audit log and result are those of the reorder step, and the primary key stays unique |
| TasksController.CreateAdmission | apps/api/src/modules/tasks/tasks.controller.ts:32-40 | POST /tasks admits exactly Owners and Admins |
| TasksController.ReadAdmission | apps/api/src/modules/tasks/tasks.controller.ts:42-58 | listing and reading a task admit exactly the users that have a role |
| TasksController.WriteAdmission | apps/api/src/modules/tasks/tasks.controller.ts:60-88 | update, delete and reorder admit exactly Owners and Admins |
| TasksController.NoUserRefused | apps/api/src/modules/tasks/tasks.controller.ts:28 | behind the global JWT guard, which already answers 401 without a token: a request that still reaches the controller without a user is refused by its own guard list with the generic 403 |
| TasksController.StatusIgnored | apps/api/src/modules/tasks/tasks.controller.ts:28 | account status never changes a task route's decision |
| TasksController.NonManagerChangesNothing | apps/api/src/modules/tasks/tasks.controller.ts:60-88 | a user that is not an Owner or Admin gets the generic 403 from every write route, and nothing changes |
| TasksController.OwnershipChecksUnreachable | apps/api/src/modules/tasks/tasks.controller.ts:60-88 | through the controller the service's ownership 403s never occur |
| TasksController.ViewerCannotCreate | apps/api/src/modules/tasks/tasks.controller.ts:32-40 | a Viewer's POST /tasks is refused and changes nothing |
| AuditLogs.AuditLogRepository.constructor | apps/api/src/modules/audit-log/audit-log.service.ts:8-12 | the repository starts empty |
| AuditLogs.AuditLogRepository.Save | apps/api/src/modules/audit-log/audit-log.service.ts:103 | saving appends exactly the given row |
| AuditLogs.AuditPageOf | apps/api/src/modules/audit-log/audit-log.service.ts:50 | the page is at least 1, and 1 when absent |
| AuditLogs.AuditLimitOf | apps/api/src/modules/audit-log/dto/audit-filter.dto.ts:39-44 | the limit lies in 1..100, and is 20 when absent |
| AuditLogs.Author | apps/api/src/modules/audit-log/audit-log.service.ts:15-18 | the joined author is a stored user with that id, and none exists when the join is empty |
| AuditLogs.Project | apps/api/src/modules/audit-log/audit-log.service.ts:59-72 | the log's fields are copied; with an author, its email and "first last" name (a null name reads "null"); without one, no email or name |
| AuditLogs.FindAll | apps/api/src/modules/audit-log/audit-log.service.ts:14-80 | the meta block: page and limit as resolved, total as the count of matching rows, totalPages as its ceiling, and exactly `min(limit, total - (page - 1) * limit)` rows on a page that starts inside the matches, none past the end |
| AuditLogs.FindAllPagesCover | apps/api/src/modules/audit-log/audit-log.service.ts:50-54 | every stored entry the caller may see and the filters keep appears, projected with its author, on some page of the listing |
| AuditLogs.AuditPageHolds | apps/api/src/modules/audit-log/audit-log.service.ts:50-54 | an entry in a page's window of the sorted matches is returned when that page is asked for, whatever page the filter named before |
| AuditLogs.FindAllRows | apps/api/src/modules/audit-log/audit-log.service.ts:14-72 | every row returned is a stored entry whose author shares the caller's organization and which passes the filters, projected with its author |
| AuditLogs.FindAllNamesAuthors | apps/api/src/modules/audit-log/audit-log.service.ts:15-18 | every row returned names its author, because the organization join needs one |
| AuditLogs.FindAllOrdered | apps/api/src/modules/audit-log/audit-log.service.ts:46-47 | rows come newest first unless ascending order is asked for |
| AuditLogs.GetActions | apps/api/src/modules/audit-log/audit-log.service.ts:106-113 | every stored action is listed once, and nothing else |
| AuditLogs.GetResources | apps/api/src/modules/audit-log/audit-log.service.ts:115-122 | every stored resource is listed once, and nothing else |
| AuditLogs.AuditLogService.constructor | apps/api/src/modules/audit-log/audit-log.service.ts:8-12 | the service writes to the given repository |
| AuditLogs.AuditLogService.Create | apps/api/src/modules/audit-log/audit-log.service.ts:82-104 | stores exactly the given fields with the generated id and time, appended to the repository |
| AuditLogController.AuditAdmission | apps/api/src/modules/audit-log/audit-log.controller.ts:15-17 | the audit routes admit exactly Owners and Admins; a request that reaches the controller without a user (the global JWT guard answers 401 before that) is refused by the controller's own guards with the generic 403 |
| AuditLogController.FindAllEndpoint | apps/api/src/modules/audit-log/audit-log.controller.ts:21-27 | Owners and Admins get the org-scoped listing; anyone else the generic 403 |
| AuditLogController.GetActionsEndpoint | apps/api/src/modules/audit-log/audit-log.controller.ts:29-32 | Owners and Admins get exactly `GetActions` of the whole table, across organizations: every stored action once and nothing else |
| AuditLogController.GetResourcesEndpoint | apps/api/src/modules/audit-log/audit-log.controller.ts:34-37 | Owners and Admins get exactly `GetResources` of the whole table, across organizations: every stored resource once and nothing else |
| Query.FindFirst | apps/api/src/modules/admin/admin.service.ts:31-37 | `findOne`: the result, if any, is the first element satisfying the condition, and there is none iff no element does |
| Entities.UserById | apps/api/src/modules/admin/admin.service.ts:31-37 | the lookup returns a stored user with that id, and none iff no such user exists |
| Admin.SaveUser | apps/api/src/modules/admin/admin.service.ts:58-62 | saving replaces the row with that id and keeps all others |
| Admin.ApproveEffect | apps/api/src/modules/admin/admin.service.ts:30-65 | approval succeeds iff the user exists, is Pending, the organization exists and an Owner role is granted only by an Owner; it then sets that user Active with the granted role and organization, and changes nothing on failure |
| Admin.ApproveErrorOrder | apps/api/src/modules/admin/admin.service.ts:35-55 | the error raised: 404 user, then 400 not pending, then 404 organization, then 400 Owner-only |
| Admin.OnlyOwnersMintOwners | apps/api/src/modules/admin/admin.service.ts:51-55 | an approval by a non-Owner never makes anybody an Owner |
| Admin.RejectEffect | apps/api/src/modules/admin/admin.service.ts:67-85 | rejection succeeds iff the user exists and is Pending, then changes only its status to Rejected; 404 or 400 otherwise, with nothing changed |
| Admin.LifecycleOnlyFromPending | apps/api/src/modules/admin/admin.service.ts:30-85 | the only status moves are Pending to Active and Pending to Rejected |
| Admin.SaveKeepsIdsUnique | apps/api/src/modules/admin/admin.service.ts:58-62 | saving a user keeps ids unique |
| Admin.PendingUsers | apps/api/src/modules/admin/admin.service.ts:17-28 | exactly the stored Pending users, newest first |
| Admin.GetPendingRegistrations | apps/api/src/modules/admin/admin.service.ts:17-28 | one entry per Pending user, newest first; which users are listed is stated by Admin.PendingRegistrationsExact |
| Admin.PendingRegistrationsExact | apps/api/src/modules/admin/admin.service.ts:17-28 | each entry is the id, email and time of a stored Pending user, and every Pending user is listed |
| Admin.GetUsers | apps/api/src/modules/admin/admin.service.ts:93-112 | exactly the Active users, of the given organization when a truthy id is given, sorted by first then last name |
| Admin.GetUserViews | apps/api/src/modules/admin/admin.service.ts:93-112 | one view per Active user kept by the organization filter; the contents are stated by Admin.UserViewsExact |
| Admin.UserViewsExact | apps/api/src/modules/admin/admin.service.ts:93-112 | each view is the credential-free view of a listed Active user, and every such user has one |
| Admin.GetOrganizations | apps/api/src/modules/admin/admin.service.ts:87-91 | every organization, by name |
| Admin.AdminService.constructor | apps/api/src/modules/admin/admin.service.ts:11-15 | the service holds the given users and organizations |
| Admin.AdminService.ApproveUser | apps/api/src/modules/admin/admin.service.ts:30-65 | the new users and result are those of the approve step; organizations and the id invariant are kept |
| Admin.AdminService.RejectUser | apps/api/src/modules/admin/admin.service.ts:67-85 | the new users and result are those of the reject step; organizations and the id invariant are kept |
| AdminController.AdminAdmission | apps/api/src/modules/admin/admin.controller.ts:23-24 | an Active Owner or Admin is admitted; Pending and Rejected get their own 403 message; any other Active user the generic 403 |
| AdminController.ApprovalAuthority | apps/api/src/modules/admin/admin.controller.ts:33-45 | only an Active Owner or Admin changes an account, only an Owner grants the Owner role, and a failure changes nothing |
| AdminController.PendingOwnerKeptOut | apps/api/src/modules/admin/admin.controller.ts:23-45 | a Pending caller, whatever its role, is refused approve and reject with the pending message |
| Auth.UserByEmail | apps/api/src/modules/auth/auth.service.ts:21-27 | the lookup returns a stored user with that email, and none iff no such user exists |
| Auth.RegisterEffect | apps/api/src/modules/auth/auth.service.ts:20-66 | a taken email is 409 with nothing changed; no resolvable organization is refused; otherwise one Pending user is appended with the requested role (default Viewer), the bcrypt hash at cost 10 and the resolved organization, and an organization is added iff only a name was given |
| Auth.RegisterKeepsEmailsUnique | apps/api/src/modules/auth/auth.service.ts:21-27 | registration keeps emails unique |
| Auth.SelfChosenRoleStored | apps/api/src/modules/auth/auth.service.ts:46-53 | a registrant asking for Owner is stored as a Pending Owner |
| Auth.Login | apps/api/src/modules/auth/auth.service.ts:68-109 | succeeds iff the email is known and the password matches, with one 401 message for both failures; on success both tokens carry the user's claims, signed with the access and refresh secrets |
| Auth.RegisteredUserCanLogIn | apps/api/src/modules/auth/auth.service.ts:68-109 | a fresh registration logs in at once with its password, while still Pending |
| Auth.RefreshToken | apps/api/src/modules/auth/auth.service.ts:118-145 | succeeds iff the token is signed with the refresh secret and its subject exists, and returns an access token of the current row's claims; every failure is 401 "Invalid refresh token" |
| Auth.AccessTokenCannotRefresh | apps/api/src/modules/auth/auth.service.ts:118-145 | an access token is never accepted as a refresh token |
| Auth.ValidateUser | apps/api/src/modules/auth/auth.service.ts:111-116 | the user with that id if one is stored, none iff none is |
| Auth.AuthenticatedUser | apps/api/src/modules/auth/strategies/jwt.strategy.ts:28-39 | a request is authenticated iff its token has the access secret and its subject exists, and the request's user is that stored row |
| Auth.TokenClaimsNotTrusted | apps/api/src/modules/auth/strategies/jwt.strategy.ts:28-39 | tokens with the same subject authenticate the same user, whatever role or organization they claim |
| Auth.AuthService.constructor | apps/api/src/modules/auth/auth.service.ts:12-18 | the service holds the given users and organizations |
| Auth.AuthService.Register | apps/api/src/modules/auth/auth.service.ts:20-66 | the new users, organizations and result are those of the register step, and emails stay unique |
| TasksStore.Merge | apps/dashboard/src/app/store/tasks/tasks.reducer.ts:111-114 | the merged filters have both key sets, the update's values winning |
| TasksStore.Reduce | apps/dashboard/src/app/store/tasks/tasks.reducer.ts:8-129 | only the success actions change the task list; only load, set and clear change the filters; only load, create and delete successes change the total; a new error comes only from a failure |
| TasksStore.CreateSuccessPrepends | apps/dashboard/src/app/store/tasks/tasks.reducer.ts:54-59 | the created task goes first, the old list follows, the total grows by one, loading stops |
| TasksStore.ReplaceByIdEffect | apps/dashboard/src/app/store/tasks/tasks.reducer.ts:73-78 | the id-matching entries are replaced in place and the rest kept |
| TasksStore.UpdateSuccessEffect | apps/dashboard/src/app/store/tasks/tasks.reducer.ts:73-78 | matching entries are replaced, the selection follows when it has that id, total and error stay, loading stops |
| TasksStore.ReorderSuccessEffect | apps/dashboard/src/app/store/tasks/tasks.reducer.ts:106-109 | matching entries are replaced and nothing else changes, loading included |
| TasksStore.ReorderRequestIgnored | apps/dashboard/src/app/store/tasks/tasks.actions.ts:27-29 | 'Reorder Task' and 'Reorder Task Failure' have no handler and leave the state unchanged |
| TasksStore.DeleteSuccessEffect | apps/dashboard/src/app/store/tasks/tasks.reducer.ts:92-98 | no entry keeps the id, the others stay in order, the total drops by one, a selection with that id is cleared |
| TasksStore.DeleteAbsentStillDecrements | apps/dashboard/src/app/store/tasks/tasks.reducer.ts:92-98 | the total drops by one even when no listed task had the id |
| TasksStore.FilterEffects | apps/dashboard/src/app/store/tasks/tasks.reducer.ts:111-119 | setFilters merges with the new keys winning and changes nothing else; clearFilters empties the filters only |
| TasksStore.FailureEffect | apps/dashboard/src/app/store/tasks/tasks.reducer.ts:25-104 | each failure stops loading and records its message, keeping tasks, total, filters and selection |
| TasksStore.LoadTasksEffect | apps/dashboard/src/app/store/tasks/tasks.reducer.ts:8-13 | loadTasks keeps the old filters when none are given, starts loading and clears the error |
| TasksStore.LoadTaskKeepsError | apps/dashboard/src/app/store/tasks/tasks.reducer.ts:31-34 | loadTask only starts loading and leaves an earlier error in place |
| TasksStore.RequestsAndFailuresKeepTasks | apps/dashboard/src/app/store/tasks/tasks.reducer.ts:8-104 | any run of request and failure actions keeps the task list and total |
| TasksSelectors.CountStatus | apps/dashboard/src/app/store/tasks/tasks.selectors.ts:42-45 | no status has more tasks than the list |
| TasksSelectors.PaginationMovesOnlyWithServer | apps/dashboard/src/app/store/tasks/tasks.selectors.ts:32-40 | the pagination view moves only with the server: a load replaces it, a created or deleted task moves the total by one, and every other action, filter changes included, leaves it as it was |
| TasksSelectors.ByStatusCount | apps/dashboard/src/app/store/tasks/tasks.selectors.ts:42-45 | the status filter has as many tasks as that status's count |
| TasksSelectors.ByStatusExact | apps/dashboard/src/app/store/tasks/tasks.selectors.ts:42-45 | the filter returns exactly the tasks with that status, in list order |
| TasksSelectors.ColumnsAreByStatus | apps/dashboard/src/app/store/tasks/tasks.selectors.ts:52-62 | the todo, in-progress and completed selectors equal the status filter |
| TasksSelectors.CountsPartition | apps/dashboard/src/app/store/tasks/tasks.selectors.ts:52-69 | the four status counts add up to the list length |
| TasksSelectors.NoArchivedCount | apps/dashboard/src/app/store/tasks/tasks.selectors.ts:64-69 | the Archived count is 0 iff no task is Archived |
| TasksSelectors.StatsPartition | apps/dashboard/src/app/store/tasks/tasks.selectors.ts:64-69 | the stats total is the list length; the three columns add up to at most that, and to exactly that iff no task is Archived |
| TasksSelectors.PaginationAfterLoad | apps/dashboard/src/app/store/tasks/tasks.reducer.ts:15-23 | after a load the pagination shown is the one the server sent |
| AuthStore.Reduce | apps/dashboard/src/app/store/auth/auth.reducer.ts:8-71 | only loginSuccess and userLoaded sign in; only they and logoutComplete change the user; a new error comes only from a failure |
| AuthStore.LoginSuccessEffect | apps/dashboard/src/app/store/auth/auth.reducer.ts:14-21 | user and token from the response, signed in, not loading, no error |
| AuthStore.LogoutCompleteResets | apps/dashboard/src/app/store/auth/auth.reducer.ts:52-54 | logoutComplete restores the initial state, signed out with no user |
| AuthStore.FailureKeepsSession | apps/dashboard/src/app/store/auth/auth.reducer.ts:23-45 | a login or register failure records the error, stops loading and keeps the session |
| AuthStore.RegisterSuccessNeverAuthenticates | apps/dashboard/src/app/store/auth/auth.reducer.ts:35-39 | a registration signs nobody in and changes no session field |
| AuthStore.StorageEffects | apps/dashboard/src/app/store/auth/auth.reducer.ts:56-66 | userLoaded signs in the stored user; noUserFound only clears isAuthenticated; loadUserFromStorage has no handler |
| AuthStore.ClearErrorOnly | apps/dashboard/src/app/store/auth/auth.reducer.ts:68-71 | clearError changes only the error, to null |
| AuthStore.LogoutKeepsSession | apps/dashboard/src/app/store/auth/auth.reducer.ts:47-50 | logout only starts loading; the user stays signed in |
| AuthStore.OnlySignInActionsAuthenticate | apps/dashboard/src/app/store/auth/auth.reducer.ts:8-71 | from signed out, no run of actions without loginSuccess or userLoaded signs anybody in |
| Scenarios.SelfRegisteredOwnerReachesTasks | apps/dashboard/src/app/features/auth/register/register.component.ts:37 | a fresh self-registered Owner logs in while Pending, its token resolves to that row, it reaches create, update and delete on tasks, and the admin routes refuse it as pending |
| Scenarios.ApprovedAdminTaskHiddenFromColleague | apps/api/src/modules/tasks/tasks.service.ts:126-137 | an Admin approved by an Owner creates a task and reads it back, while a Viewer of the same organization who neither created nor is assigned it finds it neither by id nor in any listing |
| Scenarios.CrossOrganizationWriteNotFound | apps/api/src/modules/tasks/tasks.service.ts:71-114 | a manager writing to another organization's task gets "Task not found" and nothing changes |
| Scenarios.AdminCannotApproveOwner | apps/api/src/modules/admin/admin.service.ts:51-55 | an Active Admin approving someone as Owner gets 400 and no account changes |

## Left out

- I/O, `async`/`await` and concurrency are not modelled. Two requests racing between a `findOne` and a `save` are outside the model.
- Passport's bearer-token extraction and the global JWT authentication guard are assumed. Tokens are symbolic (claims plus which secret signed them), with no signature bytes, expiry or secret values.
- bcrypt is a symbolic digest: `compare` is true exactly for the password the hash was made from.
- Ids and timestamps generated by the database are parameters. `Tasks.TasksService.Create` requires the generated id to be fresh, as a UUID primary key is.
- Tasks.ApplyUpdate: sets `assignedToId` from the request. `findOne` also loads the `assignedTo` relation (tasks.service.ts:75), and TypeORM may take the join column from that loaded object on `save`. Whether it does depends on the task entity, which is not part of this model. If it does, a reassignment of an already-assigned task is not stored, and `Tasks.ViewerReassignLosesSight` does not apply.
- TypeORM mechanics are not modelled: relations loaded by `relations`/joins beyond the audit author, and foreign-key enforcement on a dangling organization id.
- ILIKE is modelled as ASCII lower-casing plus substring search. The `%` and `_` wildcards inside a search string, Unicode case folding and database collation are not modelled.
- Text keys sort by code point, not by database collation. The order of rows with equal sort keys is whatever the model's sort gives, where PostgreSQL leaves it unspecified.
- `OrganizationGuard`'s loaded organization (with parent and children) is an input rather than a repository read.
- `ParseUUIDPipe` on the admin routes' `:userId` is not modelled: any string is accepted as an id.
- `ParseUUIDPipe` on the task routes' `:id` (apps/api/src/modules/tasks/tasks.controller.ts:54, 63, 74, 83) is not modelled: a malformed id answers 400 after the guards in the code, where the model answers 404 "Task not found".
- `sortBy` and `sortOrder` are checked only as strings (apps/api/src/modules/tasks/dto/task-filter.dto.ts:26-32, apps/api/src/modules/audit-log/dto/audit-filter.dto.ts:29-31). The model's sort-field and direction types cannot express other strings such as `sortBy=password` or `sortOrder=asc`, so what TypeORM does with them is not modelled.
- The reorder route's `@Body('priority')` (apps/api/src/modules/tasks/tasks.controller.ts:84) is not validated; the model takes it as an integer, so a missing, fractional or non-numeric priority is not modelled.
- Clearing `assignedToId` to null through an update is not modelled, because an absent DTO field and an explicit null are one `None`.
- Admin listings (registrations, organizations, users) are reached through `AdminController.AdminAdmission`; their endpoints have no separate member.
- `Admin.GetPendingRegistrations`: its own contract states only length and order; `Admin.PendingRegistrationsExact` states the contents.
- `Admin.GetUserViews`: its own contract states only length; `Admin.UserViewsExact` states the contents.
- The NgRx effects and HTTP services, the Angular components and routing guards, and local storage are not modelled. The reducers are pure functions of state and action.
- The dashboard's filter values are modelled as strings keyed by filter field, since the reducer only merges them.
- The dashboard selectors that only read one field of the state (tasks, loading, error, selected task, filters) have no member, and neither has `selectTasksByCategory` (apps/dashboard/src/app/store/tasks/tasks.selectors.ts:47-50), a category filter of the same shape as `TasksSelectors.ByStatus`; `selectTasksPagination`, the status filters and the stats do.
