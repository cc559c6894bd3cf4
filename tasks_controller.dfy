// TasksController (apps/api/src/modules/tasks/tasks.controller.ts): the
// guards and metadata of each /tasks route, and each endpoint as "guards,
// then the service operation".
module TasksController {
  import opened Common
  import opened Roles
  import opened Permissions
  import opened Entities
  import opened Routing
  import opened Tasks
  import RolesGuard
  import PermissionsGuard

  /** `@UseGuards(RolesGuard, PermissionsGuard)` on the class, with no class metadata. */
  const TaskGuards: seq<GuardKind> := [RolesCheck, PermissionsCheck]

  function TaskRoute(roles: Option<seq<Role>>, permission: Permission): Route {
    Route(TaskGuards, NoMetadata, Metadata(roles, Some([permission])))
  }

  const CreateRoute: Route := TaskRoute(Some([Owner, Admin]), TaskCreate)
  const FindAllRoute: Route := TaskRoute(None, TaskRead)
  const FindOneRoute: Route := TaskRoute(None, TaskRead)
  const UpdateRoute: Route := TaskRoute(None, TaskUpdate)
  const RemoveRoute: Route := TaskRoute(None, TaskDelete)
  const ReorderRoute: Route := TaskRoute(None, TaskUpdate)

  predicate IsManager(u: User) {
    u.role == Some(Owner) || u.role == Some(Admin)
  }

  /** POST /tasks admits exactly Owners and Admins. */
  lemma CreateAdmission(u: User)
    ensures Admit(CreateRoute, Some(u)).Admitted? <==> IsManager(u)
  {
    AdmitDecision(CreateRoute, Some(u));
    RolesGuard.RequirementDecision([Owner, Admin], Some(u));
  }

  /** GET /tasks and GET /tasks/:id admit every user that has a role. */
  lemma ReadAdmission(u: User)
    ensures Admit(FindAllRoute, Some(u)).Admitted? <==> u.role.Some?
    ensures Admit(FindOneRoute, Some(u)).Admitted? <==> u.role.Some?
  {
    AdmitDecision(FindAllRoute, Some(u));
  }

  /** PUT /tasks/:id, PUT /tasks/:id/reorder and DELETE /tasks/:id admit exactly Owners and Admins. */
  lemma WriteAdmission(u: User)
    ensures Admit(UpdateRoute, Some(u)).Admitted? <==> IsManager(u)
    ensures Admit(ReorderRoute, Some(u)).Admitted? <==> IsManager(u)
    ensures Admit(RemoveRoute, Some(u)).Admitted? <==> IsManager(u)
  {
    AdmitDecision(UpdateRoute, Some(u));
    AdmitDecision(RemoveRoute, Some(u));
  }

  /** Every task route refuses a request without a user with the generic 403. */
  lemma NoUserRefused()
    ensures Admit(CreateRoute, None) == Denied(ForbiddenResource)
    ensures Admit(FindAllRoute, None) == Denied(ForbiddenResource)
    ensures Admit(UpdateRoute, None) == Denied(ForbiddenResource)
    ensures Admit(RemoveRoute, None) == Denied(ForbiddenResource)
  {
  }

  /** No task route looks at account status: a Pending or Rejected account is treated like an Active one. */
  lemma StatusIgnored(route: Route, u: User, status: UserStatus)
    requires route in [CreateRoute, FindAllRoute, FindOneRoute, UpdateRoute, RemoveRoute, ReorderRoute]
    ensures Admit(route, Some(u)) == Admit(route, Some(u.(status := status)))
  {
    var v := u.(status := status);
    AdmitDecision(route, Some(u));
    AdmitDecision(route, Some(v));
    DenialIsGeneric(route, Some(u));
    DenialIsGeneric(route, Some(v));
  }

  // ----------------------------------------------------------- endpoints

  function CreateEndpoint(s: TaskStore, dto: CreateTaskDto, u: User, taskId: Id, logId: Id, now: int): (TaskStore, Result<Task>) {
    match Admit(CreateRoute, Some(u))
    case Denied(e) => (s, Err(e))
    case Admitted => CreateStep(s, dto, u, taskId, logId, now)
  }

  function UpdateEndpoint(s: TaskStore, id: Id, dto: UpdateTaskDto, u: User, logId: Id, now: int): (TaskStore, Result<Task>) {
    match Admit(UpdateRoute, Some(u))
    case Denied(e) => (s, Err(e))
    case Admitted => UpdateStep(s, id, dto, u, logId, now)
  }

  function RemoveEndpoint(s: TaskStore, id: Id, u: User, logId: Id, now: int): (TaskStore, Outcome) {
    match Admit(RemoveRoute, Some(u))
    case Denied(e) => (s, Fail(e))
    case Admitted => RemoveStep(s, id, u, logId, now)
  }

  function ReorderEndpoint(s: TaskStore, id: Id, priority: int, u: User, now: int): (TaskStore, Result<Task>) {
    match Admit(ReorderRoute, Some(u))
    case Denied(e) => (s, Err(e))
    case Admitted => ReorderStep(s, id, priority, u, now)
  }

  /**
   * Through the controller, a Viewer (or a user without a role) can change
   * no task: the service's creator/assignee allowance for such users is
   * never reached.
   */
  lemma NonManagerChangesNothing(s: TaskStore, id: Id, dto: UpdateTaskDto, priority: int, u: User, logId: Id, now: int)
    requires !IsManager(u)
    ensures UpdateEndpoint(s, id, dto, u, logId, now) == (s, Err(ForbiddenResource))
    ensures ReorderEndpoint(s, id, priority, u, now) == (s, Err(ForbiddenResource))
    ensures RemoveEndpoint(s, id, u, logId, now) == (s, Fail(ForbiddenResource))
  {
    WriteAdmission(u);
    DenialIsGeneric(UpdateRoute, Some(u));
    DenialIsGeneric(ReorderRoute, Some(u));
    DenialIsGeneric(RemoveRoute, Some(u));
  }

  /** Through the controller, the service's ownership checks never refuse: only "Task not found" remains. */
  lemma OwnershipChecksUnreachable(s: TaskStore, id: Id, dto: UpdateTaskDto, priority: int, u: User, logId: Id, now: int)
    ensures UpdateEndpoint(s, id, dto, u, logId, now).1 != Err(Forbidden(UpdateForbidden))
    ensures ReorderEndpoint(s, id, priority, u, now).1 != Err(Forbidden(UpdateForbidden))
    ensures RemoveEndpoint(s, id, u, logId, now).1 != Fail(Forbidden(DeleteForbidden))
  {
    WriteAdmission(u);
    DenialIsGeneric(UpdateRoute, Some(u));
    DenialIsGeneric(ReorderRoute, Some(u));
    DenialIsGeneric(RemoveRoute, Some(u));
  }

  /** A Viewer can create no task through POST /tasks. */
  lemma ViewerCannotCreate(s: TaskStore, dto: CreateTaskDto, u: User, taskId: Id, logId: Id, now: int)
    requires u.role == Some(Viewer)
    ensures CreateEndpoint(s, dto, u, taskId, logId, now) == (s, Err(ForbiddenResource))
  {
    CreateAdmission(u);
    DenialIsGeneric(CreateRoute, Some(u));
  }
}
