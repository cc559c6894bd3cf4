// AdminController (apps/api/src/modules/admin/admin.controller.ts): the
// status gate, then the role check, on every /admin route.
module AdminController {
  import opened Common
  import opened Roles
  import opened Entities
  import opened Routing
  import opened Admin
  import RolesGuard
  import ActiveUserGuard

  /** `@UseGuards(ActiveUserGuard, RolesGuard)` and `@Roles(OWNER, ADMIN)` on the class. */
  const AdminRoute: Route := Route([ActiveUserCheck, RolesCheck], Routing.Metadata(Some([Owner, Admin]), None), NoMetadata)

  /** An Active Owner or Admin is admitted; Pending and Rejected accounts get their own reason; everyone else the generic 403. */
  lemma AdminAdmission(u: User)
    ensures Admit(AdminRoute, Some(u)).Admitted? <==>
      u.status == Active && (u.role == Some(Owner) || u.role == Some(Admin))
    ensures u.status == Pending ==> Admit(AdminRoute, Some(u)) == Denied(Forbidden(ActiveUserGuard.PendingMessage))
    ensures u.status == Rejected ==> Admit(AdminRoute, Some(u)) == Denied(Forbidden(ActiveUserGuard.RejectedMessage))
    ensures u.status == Active && !(u.role == Some(Owner) || u.role == Some(Admin)) ==>
      Admit(AdminRoute, Some(u)) == Denied(ForbiddenResource)
  {
    AdmitDecision(AdminRoute, Some(u));
    RolesGuard.RequirementDecision([Owner, Admin], Some(u));
    StatusGateFirst(AdminRoute, u);
    if Admit(AdminRoute, Some(u)).Denied? {
      FirstDenialDecides(AdminRoute.guards, AdminRoute, Some(u));
    }
  }

  /** POST /admin/registrations/:userId/approve, with the caller as approver. */
  function ApproveEndpoint(users: seq<User>, orgs: seq<Organization>, userId: Id, dto: ApproveUserDto, caller: User): (seq<User>, Result<string>) {
    match Admit(AdminRoute, Some(caller))
    case Denied(e) => (users, Err(e))
    case Admitted => ApproveStep(users, orgs, userId, dto, caller)
  }

  /** POST /admin/registrations/:userId/reject; the caller is not passed on. */
  function RejectEndpoint(users: seq<User>, userId: Id, caller: User): (seq<User>, Result<string>) {
    match Admit(AdminRoute, Some(caller))
    case Denied(e) => (users, Err(e))
    case Admitted => RejectStep(users, userId)
  }

  /** Only an Active Owner or Admin changes any account, and only an Active Owner grants the Owner role. */
  lemma ApprovalAuthority(users: seq<User>, orgs: seq<Organization>, userId: Id, dto: ApproveUserDto, caller: User)
    ensures var (users', r) := ApproveEndpoint(users, orgs, userId, dto, caller);
      && (r.Ok? ==> caller.status == Active && (caller.role == Some(Owner) || caller.role == Some(Admin)))
      && (r.Ok? && dto.role == Owner ==> caller.role == Some(Owner))
      && (r.Err? ==> users' == users)
    ensures var (users', r) := RejectEndpoint(users, userId, caller);
      && (r.Ok? ==> caller.status == Active && (caller.role == Some(Owner) || caller.role == Some(Admin)))
      && (r.Err? ==> users' == users)
  {
    AdminAdmission(caller);
  }

  /** A Pending Owner (a fresh self-registration that asked for the Owner role) is kept out of the admin routes. */
  lemma PendingOwnerKeptOut(users: seq<User>, orgs: seq<Organization>, userId: Id, dto: ApproveUserDto, caller: User)
    requires caller.status == Pending
    ensures ApproveEndpoint(users, orgs, userId, dto, caller) == (users, Err(Forbidden(ActiveUserGuard.PendingMessage)))
    ensures RejectEndpoint(users, userId, caller) == (users, Err(Forbidden(ActiveUserGuard.PendingMessage)))
  {
    AdminAdmission(caller);
  }
}
