// The closed set of roles, the strings stored for them and the rank table
// `RoleHierarchy` (libs/data/src/lib/enums/role.enum.ts).
module Roles {
  import opened Common

  datatype Role = Owner | Admin | Viewer

  /** The string persisted in the `role` column for each role. */
  function RoleName(r: Role): string {
    match r
    case Owner => "owner"
    case Admin => "admin"
    case Viewer => "viewer"
  }

  /** Reads a persisted role string back; any other string is no role. */
  function ParseRole(s: string): (r: Option<Role>)
    ensures r.Some? ==> RoleName(r.value) == s
    ensures r.None? ==> forall q: Role :: RoleName(q) != s
  {
    if s == "owner" then Some(Owner)
    else if s == "admin" then Some(Admin)
    else if s == "viewer" then Some(Viewer)
    else None
  }

  /** `RoleHierarchy`: the exact rank of each role. */
  function Rank(r: Role): (n: nat)
    ensures n == 3 <==> r == Owner
    ensures n == 2 <==> r == Admin
    ensures n == 1 <==> r == Viewer
  {
    match r
    case Owner => 3
    case Admin => 2
    case Viewer => 1
  }

  /** `RoleHierarchy[role] || 0`: a null or unknown role ranks 0, below every role. */
  function RankOf(role: Option<Role>): (n: nat)
    ensures n == 0 <==> role.None?
    ensures role.Some? ==> n == Rank(role.value) && n >= 1
  {
    match role
    case None => 0
    case Some(r) => Rank(r)
  }

  /** Ranks order the roles strictly: Owner above Admin above Viewer, and distinct roles have distinct ranks. */
  lemma RankIsStrictTotalOrder(a: Role, b: Role)
    ensures Rank(a) == Rank(b) <==> a == b
    ensures Rank(Owner) > Rank(Admin) > Rank(Viewer)
    ensures Rank(a) >= Rank(Viewer) && Rank(Owner) >= Rank(a)
  {
  }

  /** The persisted strings are distinct and read back as the role they encode. */
  lemma RoleNameRoundTrip(a: Role, b: Role)
    ensures ParseRole(RoleName(a)) == Some(a)
    ensures RoleName(a) == RoleName(b) ==> a == b
  {
  }
}
