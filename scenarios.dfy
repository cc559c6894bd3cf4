/**
 * End-to-end runs across modules: registration and login, approval, the
 * admin and task routes, and the task service behind them.
 */
module Scenarios {
  import opened Common
  import opened Roles
  import opened Entities
  import opened Routing
  import opened Tasks
  import Auth
  import Admin
  import TasksController
  import AdminController
  import ActiveUserGuard

  /**
   * Someone registers asking for the Owner role. The account is Pending, yet
   * login hands out an access token, the token resolves to the stored
   * Pending Owner row, and that row is admitted to every task route
   * (delete included), because those routes have no status gate. Only the
   * admin routes keep it out.
   */
  lemma SelfRegisteredOwnerReachesTasks(d: Auth.Directory, dto: Auth.RegisterDto, userId: Id, newOrgId: Id, now: int)
    requires Auth.UniqueEmails(d.users)
    requires forall i :: 0 <= i < |d.users| ==> d.users[i].id != userId
    requires dto.role == Some(Owner)
    requires Auth.RegisterStep(d, dto, userId, newOrgId, now).1.Ok?
    ensures var users' := Auth.RegisterStep(d, dto, userId, newOrgId, now).0.users;
      var login := Auth.Login(users', dto.email, dto.password);
      && login.Ok?
      && var caller := Auth.AuthenticatedUser(users', login.value.accessToken);
         && caller.Ok? && caller.value.id == userId
         && caller.value.status == Pending && caller.value.role == Some(Owner)
         && Admit(TasksController.CreateRoute, Some(caller.value)).Admitted?
         && Admit(TasksController.UpdateRoute, Some(caller.value)).Admitted?
         && Admit(TasksController.RemoveRoute, Some(caller.value)).Admitted?
         && Admit(AdminController.AdminRoute, Some(caller.value)) == Denied(Forbidden(ActiveUserGuard.PendingMessage))
  {
    var users' := Auth.RegisterStep(d, dto, userId, newOrgId, now).0.users;
    Auth.RegisterEffect(d, dto, userId, newOrgId, now);
    Auth.RegisteredUserCanLogIn(d, dto, userId, newOrgId, now);
    var row := users'[|d.users|];
    assert row.id == userId && row.role == Some(Owner) && row.status == Pending;
    assert forall i :: 0 <= i < |d.users| ==> users'[i] == d.users[i];
    var found := UserById(users', userId);
    assert found.Some?;
    var k :| 0 <= k < |users'| && users'[k] == found.value;
    assert k == |d.users|;
    TasksController.CreateAdmission(row);
    TasksController.WriteAdmission(row);
    AdminController.AdminAdmission(row);
  }

  /**
   * An Owner approves a Pending registration as Admin of an organization;
   * the new Admin creates a task there. The Admin reads it back, while a
   * Viewer of the same organization who neither created nor is assigned
   * the task finds it neither by id nor in any listing.
   */
  lemma ApprovedAdminTaskHiddenFromColleague(
    users: seq<User>, orgs: seq<Organization>, i: nat, approval: Admin.ApproveUserDto, owner: User, bob: User,
    s: TaskStore, taskDto: CreateTaskDto, taskId: Id, logId: Id, now: int, f: TaskFilter)
    requires Admin.UniqueUserIds(users) && i < |users| && users[i].status == Pending
    requires Admin.OrganizationExists(orgs, approval.organizationId) && approval.role == Admin
    requires owner.status == Active && owner.role == Some(Owner)
    requires bob.role == Some(Viewer) && bob.organizationId == Some(approval.organizationId) && bob.id != users[i].id
    requires taskDto.assignedToId != Some(bob.id)
    requires forall j :: 0 <= j < |s.tasks| ==> s.tasks[j].id != taskId
    requires ValidTaskFilter(f)
    ensures var (users', approved) := AdminController.ApproveEndpoint(users, orgs, users[i].id, approval, owner);
      && approved == Ok(Admin.ApprovedMessage)
      && var alice := users'[i];
         && alice.status == Active && alice.role == Some(Admin)
         && var (s', created) := TasksController.CreateEndpoint(s, taskDto, alice, taskId, logId, now);
            && created.Ok?
            && FindOne(s'.tasks, taskId, alice) == Ok(created.value)
            && FindOne(s'.tasks, taskId, bob) == Err(NotFound(TaskNotFound))
            && created.value !in FindAll(s'.tasks, f, bob).data
  {
    AdminController.AdminAdmission(owner);
    Admin.UserAt(users, i);
    Admin.ApproveEffect(users, orgs, users[i].id, approval, owner);
    var (users', _) := AdminController.ApproveEndpoint(users, orgs, users[i].id, approval, owner);
    var alice := users'[i];
    assert alice == users[i].(status := Active, role := Some(Admin), organizationId := Some(approval.organizationId));
    TasksController.CreateAdmission(alice);
    CreateVisibleIffOrganization(s, taskDto, alice, taskId, logId, now);
    var (s', created) := TasksController.CreateEndpoint(s, taskDto, alice, taskId, logId, now);
    var t := NewTask(taskDto, alice, taskId, now);
    assert created == Ok(t) && s'.tasks == s.tasks + [t];
    assert !InOrgScope(t, bob);
    assert forall j :: 0 <= j < |s'.tasks| && s'.tasks[j].id == taskId ==> s'.tasks[j] == t;
    FindAllRows(s'.tasks, f, bob);
  }

  /** An Admin aiming at a task of another organization is told the task does not exist, and nothing changes. */
  lemma CrossOrganizationWriteNotFound(s: TaskStore, id: Id, dto: UpdateTaskDto, u: User, logId: Id, now: int)
    requires TasksController.IsManager(u)
    requires forall j :: 0 <= j < |s.tasks| && s.tasks[j].id == id ==> s.tasks[j].organizationId != u.organizationId
    ensures TasksController.RemoveEndpoint(s, id, u, logId, now) == (s, Fail(NotFound(TaskNotFound)))
    ensures TasksController.UpdateEndpoint(s, id, dto, u, logId, now) == (s, Err(NotFound(TaskNotFound)))
  {
    TasksController.WriteAdmission(u);
  }

  /** An Active Admin approving a Pending user as Owner is refused and no account changes. */
  lemma AdminCannotApproveOwner(users: seq<User>, orgs: seq<Organization>, userId: Id, approval: Admin.ApproveUserDto, caller: User)
    requires caller.status == Active && caller.role == Some(Admin)
    requires UserById(users, userId).Some? && UserById(users, userId).value.status == Pending
    requires Admin.OrganizationExists(orgs, approval.organizationId) && approval.role == Owner
    ensures AdminController.ApproveEndpoint(users, orgs, userId, approval, caller)
            == (users, Err(BadRequest(Admin.OwnerOnlyByOwner)))
  {
    AdminController.AdminAdmission(caller);
    Admin.ApproveErrorOrder(users, orgs, userId, approval, caller);
  }
}
