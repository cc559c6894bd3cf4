// AdminService (apps/api/src/modules/admin/admin.service.ts): the approval
// workflow over the users table, and the listings the admin screens read.
module Admin {
  import opened Common
  import opened Roles
  import opened Entities
  import opened Query

  const UserNotFound: string := "User not found"
  const NotPending: string := "User is not pending approval"
  const OrganizationNotFound: string := "Organization not found"
  const OwnerOnlyByOwner: string := "Only Owners can assign the Owner role"
  const ApprovedMessage: string := "User approved successfully"
  const RejectedMessage: string := "User rejected"

  /** Body of POST /admin/registrations/:userId/approve. */
  datatype ApproveUserDto = ApproveUserDto(organizationId: Id, role: Role)

  predicate OrganizationExists(orgs: seq<Organization>, id: Id) {
    exists i :: 0 <= i < |orgs| && orgs[i].id == id
  }

  /** `save` of an existing user row. */
  function SaveUser(users: seq<User>, u: User): (r: seq<User>)
    ensures |r| == |users|
    ensures forall i :: 0 <= i < |users| ==> r[i] == if users[i].id == u.id then u else users[i]
  {
    Map(users, (x: User) => if x.id == u.id then u else x)
  }

  /** `approveUser`: the checks in the source's order, then status Active with the granted role and organization. */
  function ApproveStep(users: seq<User>, orgs: seq<Organization>, userId: Id, dto: ApproveUserDto, approver: User): (seq<User>, Result<string>) {
    match UserById(users, userId)
    case None => (users, Err(NotFound(UserNotFound)))
    case Some(u) =>
      if u.status != Pending then (users, Err(BadRequest(NotPending)))
      else if !OrganizationExists(orgs, dto.organizationId) then (users, Err(NotFound(OrganizationNotFound)))
      else if dto.role == Owner && approver.role != Some(Owner) then (users, Err(BadRequest(OwnerOnlyByOwner)))
      else (SaveUser(users, u.(status := Active, role := Some(dto.role), organizationId := Some(dto.organizationId))),
            Ok(ApprovedMessage))
  }

  /** `rejectUser`: a Pending user becomes Rejected. */
  function RejectStep(users: seq<User>, userId: Id): (seq<User>, Result<string>) {
    match UserById(users, userId)
    case None => (users, Err(NotFound(UserNotFound)))
    case Some(u) =>
      if u.status != Pending then (users, Err(BadRequest(NotPending)))
      else (SaveUser(users, u.(status := Rejected)), Ok(RejectedMessage))
  }

  predicate UniqueUserIds(users: seq<User>) {
    forall i, j :: 0 <= i < j < |users| ==> users[i].id != users[j].id
  }

  /** With unique ids, the row found by id is the row at that id's position. */
  lemma UserAt(users: seq<User>, j: nat)
    requires UniqueUserIds(users) && j < |users|
    ensures UserById(users, users[j].id) == Some(users[j])
  {
    var r := UserById(users, users[j].id);
    var k :| 0 <= k < |users| && users[k] == r.value;
    assert k == j;
  }

  /** Approval succeeds exactly when every check passes; it then changes only the target's status, role and organization. */
  lemma ApproveEffect(users: seq<User>, orgs: seq<Organization>, userId: Id, dto: ApproveUserDto, approver: User)
    requires UniqueUserIds(users)
    ensures var (users', r) := ApproveStep(users, orgs, userId, dto, approver);
      var found := UserById(users, userId);
      && (r.Ok? <==> found.Some? && found.value.status == Pending && OrganizationExists(orgs, dto.organizationId) &&
                     (dto.role == Owner ==> approver.role == Some(Owner)))
      && (r.Err? ==> users' == users)
      && (r.Ok? ==> r.value == ApprovedMessage)
      && |users'| == |users|
      && (forall i :: 0 <= i < |users| && users[i].id != userId ==> users'[i] == users[i])
      && (forall i :: 0 <= i < |users| && users[i].id == userId && r.Ok? ==>
            users'[i] == users[i].(status := Active, role := Some(dto.role), organizationId := Some(dto.organizationId)))
  {
    var found := UserById(users, userId);
    if found.Some? {
      var k :| 0 <= k < |users| && users[k] == found.value;
      assert forall i :: 0 <= i < |users| && users[i].id == userId ==> i == k;
    }
  }

  /** The checks fire in order: a missing user, then a non-pending one, then a missing organization, then the Owner rule. */
  lemma ApproveErrorOrder(users: seq<User>, orgs: seq<Organization>, userId: Id, dto: ApproveUserDto, approver: User)
    ensures var r := ApproveStep(users, orgs, userId, dto, approver).1;
      var found := UserById(users, userId);
      && (found.None? ==> r == Err(NotFound(UserNotFound)))
      && (found.Some? && found.value.status != Pending ==> r == Err(BadRequest(NotPending)))
      && (found.Some? && found.value.status == Pending && !OrganizationExists(orgs, dto.organizationId) ==>
            r == Err(NotFound(OrganizationNotFound)))
      && ((found.Some? && found.value.status == Pending && OrganizationExists(orgs, dto.organizationId) &&
           dto.role == Owner && approver.role != Some(Owner)) ==> r == Err(BadRequest(OwnerOnlyByOwner)))
  {
  }

  /** Only an Owner can make an Owner: an approval by anyone else never grants the Owner role. */
  lemma OnlyOwnersMintOwners(users: seq<User>, orgs: seq<Organization>, userId: Id, dto: ApproveUserDto, approver: User, i: nat)
    requires approver.role != Some(Owner)
    requires i < |users| && users[i].role != Some(Owner)
    ensures ApproveStep(users, orgs, userId, dto, approver).0[i].role != Some(Owner)
  {
  }

  /** Rejection succeeds exactly for an existing Pending user and changes only that user's status. */
  lemma RejectEffect(users: seq<User>, userId: Id)
    requires UniqueUserIds(users)
    ensures var (users', r) := RejectStep(users, userId);
      var found := UserById(users, userId);
      && (r.Ok? <==> found.Some? && found.value.status == Pending)
      && (found.None? ==> r == Err(NotFound(UserNotFound)) && users' == users)
      && (found.Some? && found.value.status != Pending ==> r == Err(BadRequest(NotPending)) && users' == users)
      && |users'| == |users|
      && (forall i :: 0 <= i < |users| ==>
            users'[i] == if users[i].id == userId && r.Ok? then users[i].(status := Rejected) else users[i])
  {
    var found := UserById(users, userId);
    if found.Some? {
      var k :| 0 <= k < |users| && users[k] == found.value;
      assert forall i :: 0 <= i < |users| && users[i].id == userId ==> i == k;
    }
  }

  /** The account lifecycle: approve and reject only move a Pending account, to Active or Rejected, so both are final. */
  lemma LifecycleOnlyFromPending(users: seq<User>, orgs: seq<Organization>, userId: Id, dto: ApproveUserDto, approver: User, i: nat)
    requires UniqueUserIds(users) && i < |users|
    ensures var a := ApproveStep(users, orgs, userId, dto, approver).0;
      a[i].status != users[i].status ==> users[i].status == Pending && a[i].status == Active
    ensures var b := RejectStep(users, userId).0;
      b[i].status != users[i].status ==> users[i].status == Pending && b[i].status == Rejected
  {
    ApproveEffect(users, orgs, userId, dto, approver);
    RejectEffect(users, userId);
  }

  /** Approving and rejecting keep user ids unique. */
  lemma SaveKeepsIdsUnique(users: seq<User>, u: User)
    requires UniqueUserIds(users)
    ensures UniqueUserIds(SaveUser(users, u))
  {
    var r := SaveUser(users, u);
    assert forall i :: 0 <= i < |users| ==> r[i].id == users[i].id;
  }

  // ------------------------------------------------------------ listings

  /** One element of GET /admin/registrations. */
  datatype PendingView = PendingView(id: Id, email: string, createdAt: int)

  function CreatedAtKey(u: User): Key {
    IntKey(u.createdAt)
  }

  function IsPending(u: User): bool {
    u.status == Pending
  }

  /** The Pending users, newest first. */
  function PendingUsers(users: seq<User>): (r: seq<User>)
    ensures forall i :: 0 <= i < |r| ==> r[i] in users && r[i].status == Pending
    ensures forall j :: 0 <= j < |users| && users[j].status == Pending ==> users[j] in r
    ensures forall i, j :: 0 <= i < j < |r| ==> r[i].createdAt >= r[j].createdAt
  {
    var pending := Where(users, IsPending);
    var r := SortBy(pending, CreatedAtKey, Desc);
    assert forall i :: 0 <= i < |r| ==> r[i] in pending by {
      forall i | 0 <= i < |r| ensures r[i] in pending {
        assert r[i] in multiset(r);
      }
    }
    assert forall j :: 0 <= j < |users| && IsPending(users[j]) ==> users[j] in r by {
      forall j | 0 <= j < |users| && IsPending(users[j]) ensures users[j] in r {
        assert users[j] in multiset(r);
      }
    }
    assert forall i, j :: 0 <= i < j < |r| ==> r[i].createdAt >= r[j].createdAt by {
      forall i, j | 0 <= i < j < |r| ensures r[i].createdAt >= r[j].createdAt {
        assert InOrder(CreatedAtKey(r[i]), CreatedAtKey(r[j]), Desc);
      }
    }
    r
  }

  function ToPendingView(u: User): PendingView {
    PendingView(u.id, u.email, u.createdAt)
  }

  /** `getPendingRegistrations`: the Pending users, newest first, as id, email and creation time. */
  function GetPendingRegistrations(users: seq<User>): (r: seq<PendingView>)
    ensures |r| == |PendingUsers(users)|
    ensures forall i, j :: 0 <= i < j < |r| ==> r[i].createdAt >= r[j].createdAt
  {
    Map(PendingUsers(users), ToPendingView)
  }

  /** Each listed registration is the view of a stored Pending user, and every Pending user is listed. */
  lemma PendingRegistrationsExact(users: seq<User>)
    ensures var r := GetPendingRegistrations(users);
      && (forall i :: 0 <= i < |r| ==> exists j :: 0 <= j < |users| && IsPending(users[j]) && r[i] == ToPendingView(users[j]))
      && (forall j :: 0 <= j < |users| && IsPending(users[j]) ==> ToPendingView(users[j]) in r)
  {
    ProjectedMembers(PendingUsers(users), users, ToPendingView, IsPending);
  }

  /** One element of GET /admin/users. */
  datatype UserView = UserView(id: Id, email: string, firstName: Option<string>, lastName: Option<string>,
                               role: Option<Role>, organizationId: Option<Id>)

  function NameKey(name: Option<string>): Key {
    if name.Some? then TextKey(name.value) else NullKey
  }

  /** ORDER BY firstName ASC, lastName ASC. */
  function NameOrder(u: User): Key {
    PairKey(NameKey(u.firstName), NameKey(u.lastName))
  }

  function UserFilter(organizationId: Option<Id>): User -> bool {
    (u: User) => u.status == Active && (Truthy(organizationId) ==> u.organizationId == organizationId)
  }

  function ToUserView(u: User): UserView {
    UserView(u.id, u.email, u.firstName, u.lastName, u.role, u.organizationId)
  }

  /** `getUsers`: the Active users, of one organization when a non-empty id is given, by first then last name. */
  function GetUsers(users: seq<User>, organizationId: Option<Id>): (r: seq<User>)
    ensures forall i :: 0 <= i < |r| ==>
      r[i] in users && r[i].status == Active && (Truthy(organizationId) ==> r[i].organizationId == organizationId)
    ensures forall j :: (0 <= j < |users| && users[j].status == Active &&
      (Truthy(organizationId) ==> users[j].organizationId == organizationId)) ==> users[j] in r
    ensures SortedBy(r, NameOrder, Asc)
  {
    var selected := Where(users, UserFilter(organizationId));
    var r := SortBy(selected, NameOrder, Asc);
    assert forall i :: 0 <= i < |r| ==> r[i] in selected by {
      forall i | 0 <= i < |r| ensures r[i] in selected {
        assert r[i] in multiset(r);
      }
    }
    assert forall j :: 0 <= j < |users| && UserFilter(organizationId)(users[j]) ==> users[j] in r by {
      forall j | 0 <= j < |users| && UserFilter(organizationId)(users[j]) ensures users[j] in r {
        assert users[j] in multiset(r);
      }
    }
    r
  }

  /** The response of GET /admin/users: the listed rows without their credentials and status. */
  function GetUserViews(users: seq<User>, organizationId: Option<Id>): (r: seq<UserView>)
    ensures |r| == |GetUsers(users, organizationId)|
  {
    Map(GetUsers(users, organizationId), ToUserView)
  }

  /** Each listed user is the credential-free view of a stored Active user of the requested organization, and every such user is listed. */
  lemma UserViewsExact(users: seq<User>, organizationId: Option<Id>)
    ensures var r := GetUserViews(users, organizationId);
      var keep := UserFilter(organizationId);
      && (forall i :: 0 <= i < |r| ==> exists j :: 0 <= j < |users| && keep(users[j]) && r[i] == ToUserView(users[j]))
      && (forall j :: 0 <= j < |users| && keep(users[j]) ==> ToUserView(users[j]) in r)
  {
    ProjectedMembers(GetUsers(users, organizationId), users, ToUserView, UserFilter(organizationId));
  }

  function OrgNameKey(o: Organization): Key {
    TextKey(o.name)
  }

  /** `getOrganizations`: every organization, by name. */
  function GetOrganizations(orgs: seq<Organization>): (r: seq<Organization>)
    ensures multiset(r) == multiset(orgs)
    ensures forall i, j :: 0 <= i < j < |r| ==> TextLe(r[i].name, r[j].name)
  {
    SortBy(orgs, OrgNameKey, Asc)
  }

  // --------------------------------------------------------- the service

  class AdminService {
    var users: seq<User>
    var organizations: seq<Organization>

    ghost predicate Valid()
      reads this
    {
      UniqueUserIds(users)
    }

    constructor (users: seq<User>, organizations: seq<Organization>)
      requires UniqueUserIds(users)
      ensures Valid() && this.users == users && this.organizations == organizations
    {
      this.users := users;
      this.organizations := organizations;
    }

    method ApproveUser(userId: Id, dto: ApproveUserDto, approver: User) returns (r: Result<string>)
      requires Valid()
      modifies this
      ensures Valid()
      ensures (users, r) == ApproveStep(old(users), old(organizations), userId, dto, approver)
      ensures organizations == old(organizations)
    {
      var found := UserById(users, userId);
      if found.None? {
        return Err(NotFound(UserNotFound));
      }
      var u := found.value;
      if u.status != Pending {
        return Err(BadRequest(NotPending));
      }
      if !OrganizationExists(organizations, dto.organizationId) {
        return Err(NotFound(OrganizationNotFound));
      }
      if dto.role == Owner && approver.role != Some(Owner) {
        return Err(BadRequest(OwnerOnlyByOwner));
      }
      var approved := u.(status := Active, role := Some(dto.role), organizationId := Some(dto.organizationId));
      SaveKeepsIdsUnique(users, approved);
      users := SaveUser(users, approved);
      r := Ok(ApprovedMessage);
    }

    method RejectUser(userId: Id) returns (r: Result<string>)
      requires Valid()
      modifies this
      ensures Valid()
      ensures (users, r) == RejectStep(old(users), userId)
      ensures organizations == old(organizations)
    {
      var found := UserById(users, userId);
      if found.None? {
        return Err(NotFound(UserNotFound));
      }
      var u := found.value;
      if u.status != Pending {
        return Err(BadRequest(NotPending));
      }
      SaveKeepsIdsUnique(users, u.(status := Rejected));
      users := SaveUser(users, u.(status := Rejected));
      r := Ok(RejectedMessage);
    }
  }
}
