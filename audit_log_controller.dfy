// AuditLogController (apps/api/src/modules/audit-log/audit-log.controller.ts):
// one class-level policy for every /audit-log route.
module AuditLogController {
  import opened Common
  import opened Roles
  import opened Permissions
  import opened Entities
  import opened Routing
  import AuditLogs
  import RolesGuard

  /** `@UseGuards(RolesGuard, PermissionsGuard)`, `@Roles(OWNER, ADMIN)`, `@Permissions(AUDIT_VIEW)` on the class. */
  const AuditRoute: Route :=
    Route([RolesCheck, PermissionsCheck], Metadata(Some([Owner, Admin]), Some([AuditView])), NoMetadata)

  /** Owners and Admins, and no one else, read the audit log. */
  lemma AuditAdmission(u: User)
    ensures Admit(AuditRoute, Some(u)).Admitted? <==> u.role == Some(Owner) || u.role == Some(Admin)
    ensures Admit(AuditRoute, None) == Denied(ForbiddenResource)
  {
    AdmitDecision(AuditRoute, Some(u));
    RolesGuard.RequirementDecision([Owner, Admin], Some(u));
  }

  /** GET /audit-log: guarded, then the service's org-scoped listing. */
  function FindAllEndpoint(logs: seq<AuditLog>, users: seq<User>, f: AuditLogs.AuditFilter, u: User): (r: Result<AuditLogs.AuditPage>)
    requires AuditLogs.ValidAuditFilter(f)
    ensures r.Ok? <==> u.role == Some(Owner) || u.role == Some(Admin)
    ensures r.Err? ==> r.error == ForbiddenResource
    ensures r.Ok? ==> r.value == AuditLogs.FindAll(logs, users, f, u)
  {
    AuditAdmission(u);
    DenialIsGeneric(AuditRoute, Some(u));
    match Admit(AuditRoute, Some(u))
    case Denied(e) => Err(e)
    case Admitted => Ok(AuditLogs.FindAll(logs, users, f, u))
  }

  /** GET /audit-log/actions: guarded, then every distinct action of the whole table. */
  function GetActionsEndpoint(logs: seq<AuditLog>, u: User): (r: Result<seq<string>>)
    ensures r.Ok? <==> u.role == Some(Owner) || u.role == Some(Admin)
    ensures r.Ok? ==> forall i :: 0 <= i < |logs| ==> logs[i].action in r.value
    ensures r.Ok? ==> r.value == AuditLogs.GetActions(logs)
  {
    AuditAdmission(u);
    match Admit(AuditRoute, Some(u))
    case Denied(e) => Err(e)
    case Admitted => Ok(AuditLogs.GetActions(logs))
  }

  /** GET /audit-log/resources: guarded, then every distinct resource of the whole table. */
  function GetResourcesEndpoint(logs: seq<AuditLog>, u: User): (r: Result<seq<string>>)
    ensures r.Ok? <==> u.role == Some(Owner) || u.role == Some(Admin)
    ensures r.Ok? ==> forall i :: 0 <= i < |logs| ==> logs[i].resource in r.value
    ensures r.Ok? ==> r.value == AuditLogs.GetResources(logs)
  {
    AuditAdmission(u);
    match Admit(AuditRoute, Some(u))
    case Denied(e) => Err(e)
    case Admitted => Ok(AuditLogs.GetResources(logs))
  }
}
