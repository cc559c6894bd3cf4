// RolesGuard (libs/auth/src/lib/guards/roles.guard.ts): the route's required
// roles are an explicit argument; a request passes when the user ranks at
// least as high as one of them.
module RolesGuard {
  import opened Common
  import opened Roles
  import opened Entities

  /** `hasRoleOrHigher`: the user's rank reaches the required role's rank. */
  predicate HasRoleOrHigher(userRole: Option<Role>, required: Role) {
    RankOf(userRole) >= Rank(required)
  }

  /** `requiredRoles.some(...)`. */
  function AnyRoleSatisfied(userRole: Option<Role>, required: seq<Role>): (ok: bool)
    ensures ok <==> exists i :: 0 <= i < |required| && HasRoleOrHigher(userRole, required[i])
  {
    if required == [] then false
    else HasRoleOrHigher(userRole, required[0]) || AnyRoleSatisfied(userRole, required[1..])
  }

  /** `RolesGuard.canActivate` with the metadata lookup replaced by `required`. */
  function CanActivate(required: Option<seq<Role>>, user: Option<User>): bool {
    if required.None? || |required.value| == 0 then true
    else if user.None? then false
    else AnyRoleSatisfied(user.value.role, required.value)
  }

  /** No requirement (absent or empty) admits every request, with or without a user. */
  lemma NoRequirementAllows(required: Option<seq<Role>>, user: Option<User>)
    requires required.None? || required.value == []
    ensures CanActivate(required, user)
  {
  }

  /** A requirement without a user denies; with a user, allow iff some required role is reached. */
  lemma RequirementDecision(roles: seq<Role>, user: Option<User>)
    requires roles != []
    ensures user.None? ==> !CanActivate(Some(roles), user)
    ensures user.Some? ==>
      (CanActivate(Some(roles), user) <==> exists r :: r in roles && RankOf(user.value.role) >= Rank(r))
  {
    if user.Some? {
      if CanActivate(Some(roles), user) {
        var i :| 0 <= i < |roles| && HasRoleOrHigher(user.value.role, roles[i]);
        assert roles[i] in roles;
      }
    }
  }

  /** A user with a null role is denied by any non-empty requirement. */
  lemma NullRoleDenied(roles: seq<Role>, u: User)
    requires roles != [] && u.role.None?
    ensures !CanActivate(Some(roles), Some(u))
  {
  }

  /** Monotone in the actor: whatever admits a role admits every role ranked at least as high. */
  lemma MonotoneInActor(roles: seq<Role>, u: User, v: User)
    requires RankOf(v.role) >= RankOf(u.role)
    ensures CanActivate(Some(roles), Some(u)) ==> CanActivate(Some(roles), Some(v))
  {
    if roles != [] && CanActivate(Some(roles), Some(u)) {
      var i :| 0 <= i < |roles| && HasRoleOrHigher(u.role, roles[i]);
      assert HasRoleOrHigher(v.role, roles[i]);
    }
  }

  /** OR semantics: requiring one more role never turns an allow into a deny. */
  lemma MoreRolesNeverDeny(roles: seq<Role>, extra: Role, u: User)
    requires roles != []
    ensures CanActivate(Some(roles), Some(u)) ==> CanActivate(Some(roles + [extra]), Some(u))
  {
    if CanActivate(Some(roles), Some(u)) {
      var i :| 0 <= i < |roles| && HasRoleOrHigher(u.role, roles[i]);
      assert (roles + [extra])[i] == roles[i];
    }
  }

  /** Owner passes every requirement; Viewer passes one only if it names Viewer. */
  lemma OwnerAndViewerFloors(roles: seq<Role>, u: User)
    requires roles != []
    ensures u.role == Some(Owner) ==> CanActivate(Some(roles), Some(u))
    ensures u.role == Some(Viewer) ==> (CanActivate(Some(roles), Some(u)) <==> Viewer in roles)
  {
    RequirementDecision(roles, Some(u));
    if u.role == Some(Owner) {
      assert HasRoleOrHigher(u.role, roles[0]);
    }
    if u.role == Some(Viewer) && Viewer in roles {
      var i :| 0 <= i < |roles| && roles[i] == Viewer;
      assert HasRoleOrHigher(u.role, roles[i]);
    }
  }
}
