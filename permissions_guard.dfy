// PermissionsGuard (libs/auth/src/lib/guards/permissions.guard.ts): the route's
// required permissions are an explicit argument; a request passes when the
// user's role grants every one of them.
module PermissionsGuard {
  import opened Common
  import opened Roles
  import opened Permissions
  import opened Entities

  /** `required.every(p => granted.includes(p))`. */
  function AllIncluded(required: seq<Permission>, granted: seq<Permission>): (ok: bool)
    ensures ok <==> forall i :: 0 <= i < |required| ==> required[i] in granted
  {
    if required == [] then true
    else required[0] in granted && AllIncluded(required[1..], granted)
  }

  /** `PermissionsGuard.canActivate` with the metadata lookup replaced by `required`. */
  function CanActivate(required: Option<seq<Permission>>, user: Option<User>): bool {
    if required.None? || |required.value| == 0 then true
    else if user.None? then false
    else AllIncluded(required.value, RolePermissions(user.value.role))
  }

  /** No requirement admits every request, with or without a user. */
  lemma NoRequirementAllows(required: Option<seq<Permission>>, user: Option<User>)
    requires required.None? || required.value == []
    ensures CanActivate(required, user)
  {
  }

  /** A requirement without a user denies; with a user, allow iff the role grants every required permission. */
  lemma RequirementDecision(perms: seq<Permission>, user: Option<User>)
    requires perms != []
    ensures user.None? ==> !CanActivate(Some(perms), user)
    ensures user.Some? ==>
      (CanActivate(Some(perms), user) <==> forall p :: p in perms ==> p in RolePermissions(user.value.role))
  {
  }

  /** A null role grants nothing, so it is denied by every non-empty requirement. */
  lemma NullRoleDenied(perms: seq<Permission>, u: User)
    requires perms != [] && u.role.None?
    ensures !CanActivate(Some(perms), Some(u))
  {
    assert perms[0] !in RolePermissions(u.role);
  }

  /** AND semantics: requiring one more permission never turns a deny into an allow. */
  lemma MorePermissionsNeverAllow(perms: seq<Permission>, extra: Permission, u: User)
    requires perms != []
    ensures !CanActivate(Some(perms), Some(u)) ==> !CanActivate(Some(perms + [extra]), Some(u))
  {
    if !CanActivate(Some(perms), Some(u)) {
      var i :| 0 <= i < |perms| && perms[i] !in RolePermissions(u.role);
      assert (perms + [extra])[i] == perms[i];
    }
  }

  /** Only the set of required permissions matters, not their order or repetition. */
  lemma OrderAndDuplicatesIrrelevant(a: seq<Permission>, b: seq<Permission>, user: Option<User>)
    requires a != [] && b != []
    requires forall p :: p in a <==> p in b
    ensures CanActivate(Some(a), user) == CanActivate(Some(b), user)
  {
    if user.Some? {
      RequirementDecision(a, user);
      RequirementDecision(b, user);
    }
  }
}
