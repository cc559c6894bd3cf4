// The NestJS request pipeline as the controllers use it: a route carries the
// guards named by `@UseGuards` and the `@Roles` / `@Permissions` metadata on
// its handler and on its controller class; the guards run in order, and the
// first that does not admit the request decides the response.
module Routing {
  import opened Common
  import opened Roles
  import opened Permissions
  import opened Entities
  import RolesGuard
  import PermissionsGuard
  import ActiveUserGuard

  datatype GuardKind = ActiveUserCheck | RolesCheck | PermissionsCheck

  /** The `@Roles(...)` and `@Permissions(...)` metadata on one handler or one controller class. */
  datatype Metadata = Metadata(roles: Option<seq<Role>>, permissions: Option<seq<Permission>>)

  const NoMetadata: Metadata := Metadata(None, None)

  datatype Route = Route(guards: seq<GuardKind>, controller: Metadata, handler: Metadata)

  /** `Reflector.getAllAndOverride(key, [handler, class])`: the handler's value when set, else the class's. */
  function Override<T>(handler: Option<T>, controller: Option<T>): (r: Option<T>)
    ensures handler.Some? ==> r == handler
    ensures handler.None? ==> r == controller
  {
    if handler.Some? then handler else controller
  }

  function RequiredRoles(route: Route): Option<seq<Role>> {
    Override(route.handler.roles, route.controller.roles)
  }

  function RequiredPermissions(route: Route): Option<seq<Permission>> {
    Override(route.handler.permissions, route.controller.permissions)
  }

  /** A guard that returns false makes NestJS answer 403 "Forbidden resource". */
  const ForbiddenResource: Error := Forbidden("Forbidden resource")

  datatype Admission = Admitted | Denied(error: Error)

  /** One guard's verdict: `true` admits, `false` is the generic 403, an exception propagates as it is. */
  function RunGuard(g: GuardKind, route: Route, user: Option<User>): Admission {
    match g
    case ActiveUserCheck =>
      (match ActiveUserGuard.CanActivate(user)
       case Err(e) => Denied(e)
       case Ok(b) => if b then Admitted else Denied(ForbiddenResource))
    case RolesCheck =>
      if RolesGuard.CanActivate(RequiredRoles(route), user) then Admitted else Denied(ForbiddenResource)
    case PermissionsCheck =>
      if PermissionsGuard.CanActivate(RequiredPermissions(route), user) then Admitted else Denied(ForbiddenResource)
  }

  /** The guards in order: the request passes when every guard admits it. */
  function RunGuards(guards: seq<GuardKind>, route: Route, user: Option<User>): (a: Admission)
    ensures a.Admitted? <==> forall i :: 0 <= i < |guards| ==> RunGuard(guards[i], route, user).Admitted?
  {
    if guards == [] then Admitted
    else
      var first := RunGuard(guards[0], route, user);
      if first.Denied? then first
      else
        assert forall i :: 1 <= i < |guards| ==> guards[i] == guards[1..][i - 1];
        RunGuards(guards[1..], route, user)
  }

  /** A refusal is the verdict of the first guard that does not admit; the later guards never run. */
  lemma {:induction false} FirstDenialDecides(guards: seq<GuardKind>, route: Route, user: Option<User>)
    requires RunGuards(guards, route, user).Denied?
    ensures exists k :: (0 <= k < |guards| && RunGuards(guards, route, user) == RunGuard(guards[k], route, user) &&
      forall i :: 0 <= i < k ==> RunGuard(guards[i], route, user).Admitted?)
  {
    var a := RunGuards(guards, route, user);
    if RunGuard(guards[0], route, user).Denied? {
      assert a == RunGuard(guards[0], route, user);
    } else {
      var rest := guards[1..];
      FirstDenialDecides(rest, route, user);
      var k :| 0 <= k < |rest| && RunGuards(rest, route, user) == RunGuard(rest[k], route, user) &&
        forall i :: 0 <= i < k ==> RunGuard(rest[i], route, user).Admitted?;
      assert rest[k] == guards[k + 1];
      assert forall i :: 1 <= i < k + 1 ==> guards[i] == rest[i - 1];
      assert a == RunGuard(guards[k + 1], route, user);
    }
  }

  /** Whether a request reaches the route's handler. */
  function Admit(route: Route, user: Option<User>): Admission {
    RunGuards(route.guards, route, user)
  }

  predicate GuardAdmits(g: GuardKind, route: Route, user: Option<User>) {
    g in route.guards ==> RunGuard(g, route, user).Admitted?
  }

  /** A request is admitted exactly when each guard the route lists admits it. */
  lemma AdmitDecision(route: Route, user: Option<User>)
    ensures Admit(route, user).Admitted? <==>
      && (ActiveUserCheck in route.guards ==> ActiveUserGuard.CanActivate(user) == Ok(true))
      && (RolesCheck in route.guards ==> RolesGuard.CanActivate(RequiredRoles(route), user))
      && (PermissionsCheck in route.guards ==> PermissionsGuard.CanActivate(RequiredPermissions(route), user))
  {
    var gs := route.guards;
    if ActiveUserCheck in gs {
      var i :| 0 <= i < |gs| && gs[i] == ActiveUserCheck;
      assert RunGuard(gs[i], route, user).Admitted? <==> ActiveUserGuard.CanActivate(user) == Ok(true);
    }
    if RolesCheck in gs {
      var i :| 0 <= i < |gs| && gs[i] == RolesCheck;
    }
    if PermissionsCheck in gs {
      var i :| 0 <= i < |gs| && gs[i] == PermissionsCheck;
    }
  }

  /** Without the status gate, every refusal is the generic "Forbidden resource". */
  lemma DenialIsGeneric(route: Route, user: Option<User>)
    requires ActiveUserCheck !in route.guards
    ensures Admit(route, user).Denied? ==> Admit(route, user) == Denied(ForbiddenResource)
  {
    if Admit(route, user).Denied? {
      FirstDenialDecides(route.guards, route, user);
      var k :| 0 <= k < |route.guards| && Admit(route, user) == RunGuard(route.guards[k], route, user);
      assert route.guards[k] != ActiveUserCheck;
    }
  }

  /** Handler metadata wins over class metadata; class metadata applies to handlers that set none. */
  lemma HandlerOverridesClass(route: Route)
    ensures route.handler.roles.Some? ==> RequiredRoles(route) == route.handler.roles
    ensures route.handler.roles.None? ==> RequiredRoles(route) == route.controller.roles
    ensures route.handler.permissions.Some? ==> RequiredPermissions(route) == route.handler.permissions
    ensures route.handler.permissions.None? ==> RequiredPermissions(route) == route.controller.permissions
  {
  }

  /** When the status gate comes first, a Pending or Rejected account is turned away with its own reason, whatever its role. */
  lemma StatusGateFirst(route: Route, u: User)
    requires |route.guards| > 0 && route.guards[0] == ActiveUserCheck
    ensures u.status == Pending ==> Admit(route, Some(u)) == Denied(Forbidden(ActiveUserGuard.PendingMessage))
    ensures u.status == Rejected ==> Admit(route, Some(u)) == Denied(Forbidden(ActiveUserGuard.RejectedMessage))
  {
  }
}
