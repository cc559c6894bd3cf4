// AuthService (apps/api/src/modules/auth/auth.service.ts) and the JWT
// strategy that turns an access token into the request's user
// (apps/api/src/modules/auth/strategies/jwt.strategy.ts). bcrypt and JWT
// signing are modelled symbolically: a hash records the password it digests
// and its cost, a token records its payload and the secret that signed it.
module Auth {
  import opened Common
  import opened Roles
  import opened Entities
  import opened Query

  const EmailExists: string := "Email already exists"
  const OrganizationRequired: string := "Organization ID or name is required"
  const InvalidCredentials: string := "Invalid credentials"
  const InvalidRefreshToken: string := "Invalid refresh token"
  const JwtUserNotFound: string := "User not found"
  const BcryptRounds: nat := 10

  /** The two signing keys: JWT_SECRET for access tokens, JWT_REFRESH_SECRET for refresh tokens. */
  datatype Secret = AccessSecret | RefreshSecret

  datatype JwtPayload = JwtPayload(sub: Id, email: string, role: Option<Role>, organizationId: Option<Id>)

  datatype Token = Signed(payload: JwtPayload, secret: Secret)

  /** `bcrypt.compare`: true exactly for the password the hash was made from. */
  predicate PasswordMatches(password: string, hash: PasswordHash) {
    hash.digestOf == password
  }

  /** Body of POST /auth/register. */
  datatype RegisterDto = RegisterDto(
    email: string,
    password: string,
    firstName: string,
    lastName: string,
    organizationId: Option<Id>,
    organizationName: Option<string>,
    role: Option<Role>)

  /** The response of register: the saved row without password or status. */
  datatype RegisteredUser = RegisteredUser(id: Id, email: string, firstName: Option<string>, lastName: Option<string>,
                                           role: Option<Role>, organizationId: Option<Id>, createdAt: int)

  /** `findOne({ where: { email } })`. */
  function UserByEmail(users: seq<User>, email: string): (r: Option<User>)
    ensures r.Some? ==> r.value in users && r.value.email == email
    ensures r.None? <==> forall i :: 0 <= i < |users| ==> users[i].email != email
  {
    FindFirst(users, (u: User) => u.email == email)
  }

  /** The organization a registration will use: the given id, else a new one when a name is given. */
  function ResolvedOrganization(dto: RegisterDto, newOrgId: Id): Option<Id> {
    if !Truthy(dto.organizationId) && Truthy(dto.organizationName) then Some(newOrgId) else dto.organizationId
  }

  /** The row register saves: Pending (the column default), role defaulting to Viewer, password hashed at cost 10. */
  function NewUser(dto: RegisterDto, userId: Id, organizationId: Option<Id>, now: int): User {
    User(userId, dto.email, Bcrypt(dto.password, BcryptRounds), Some(dto.firstName), Some(dto.lastName),
         Some(if dto.role.Some? then dto.role.value else Viewer), Pending, organizationId, now)
  }

  datatype Directory = Directory(users: seq<User>, organizations: seq<Organization>)

  /** `register`. */
  function RegisterStep(d: Directory, dto: RegisterDto, userId: Id, newOrgId: Id, now: int): (Directory, Result<RegisteredUser>) {
    if UserByEmail(d.users, dto.email).Some? then (d, Err(Conflict(EmailExists)))
    else
      var orgs := if !Truthy(dto.organizationId) && Truthy(dto.organizationName)
                  then d.organizations + [Organization(newOrgId, dto.organizationName.value, None)]
                  else d.organizations;
      var orgId := ResolvedOrganization(dto, newOrgId);
      if !Truthy(orgId) then (d.(organizations := orgs), Err(Conflict(OrganizationRequired)))
      else
        var u := NewUser(dto, userId, orgId, now);
        (Directory(d.users + [u], orgs),
         Ok(RegisteredUser(u.id, u.email, u.firstName, u.lastName, u.role, u.organizationId, u.createdAt)))
  }

  predicate UniqueEmails(users: seq<User>) {
    forall i, j :: 0 <= i < j < |users| ==> users[i].email != users[j].email
  }

  /** Register refuses a taken email or a missing organization, and otherwise appends one Pending user. */
  lemma RegisterEffect(d: Directory, dto: RegisterDto, userId: Id, newOrgId: Id, now: int)
    ensures var (d', r) := RegisterStep(d, dto, userId, newOrgId, now);
      && (UserByEmail(d.users, dto.email).Some? ==> d' == d && r == Err(Conflict(EmailExists)))
      && (UserByEmail(d.users, dto.email).None? && !Truthy(ResolvedOrganization(dto, newOrgId)) ==>
            d'.users == d.users && r == Err(Conflict(OrganizationRequired)))
      && (r.Ok? <==> UserByEmail(d.users, dto.email).None? && Truthy(ResolvedOrganization(dto, newOrgId)))
      && (r.Ok? ==>
            && |d'.users| == |d.users| + 1 && d'.users[..|d.users|] == d.users
            && var u := d'.users[|d.users|];
               && u.status == Pending
               && u.role == Some(if dto.role.Some? then dto.role.value else Viewer)
               && u.password == Bcrypt(dto.password, BcryptRounds)
               && u.email == dto.email
               && u.organizationId == ResolvedOrganization(dto, newOrgId)
               && r.value.id == u.id && r.value.role == u.role)
      && (|d'.organizations| == |d.organizations| + 1 <==>
            UserByEmail(d.users, dto.email).None? && !Truthy(dto.organizationId) && Truthy(dto.organizationName))
      && d'.organizations[..|d.organizations|] == d.organizations
  {
  }

  /** Register keeps emails unique. */
  lemma RegisterKeepsEmailsUnique(d: Directory, dto: RegisterDto, userId: Id, newOrgId: Id, now: int)
    requires UniqueEmails(d.users)
    ensures UniqueEmails(RegisterStep(d, dto, userId, newOrgId, now).0.users)
  {
  }

  /** The role a registrant asks for is the role stored, Owner included; only the Pending status holds it back. */
  lemma SelfChosenRoleStored(d: Directory, dto: RegisterDto, userId: Id, newOrgId: Id, now: int)
    requires dto.role == Some(Owner)
    requires RegisterStep(d, dto, userId, newOrgId, now).1.Ok?
    ensures var users' := RegisterStep(d, dto, userId, newOrgId, now).0.users;
      users'[|users'| - 1].role == Some(Owner) && users'[|users'| - 1].status == Pending
  {
  }

  // ---------------------------------------------------------------- login

  datatype ProfileView = ProfileView(id: Id, email: string, firstName: Option<string>, lastName: Option<string>,
                                     role: Option<Role>, organizationId: Option<Id>)

  datatype LoginResponse = LoginResponse(accessToken: Token, refreshToken: Token, user: ProfileView)

  /** The claims signed for a user: its id, email, current role and organization. */
  function PayloadOf(u: User): JwtPayload {
    JwtPayload(u.id, u.email, u.role, u.organizationId)
  }

  /** `login`: one error for an unknown email and for a wrong password; account status is not consulted. */
  function Login(users: seq<User>, email: string, password: string): (r: Result<LoginResponse>)
    ensures r.Ok? <==> UserByEmail(users, email).Some? && PasswordMatches(password, UserByEmail(users, email).value.password)
    ensures r.Err? ==> r.error == Unauthorized(InvalidCredentials)
    ensures r.Ok? ==>
      var u := UserByEmail(users, email).value;
      && r.value.accessToken == Signed(PayloadOf(u), AccessSecret)
      && r.value.refreshToken == Signed(PayloadOf(u), RefreshSecret)
      && r.value.user.id == u.id && r.value.user.role == u.role
  {
    match UserByEmail(users, email)
    case None => Err(Unauthorized(InvalidCredentials))
    case Some(u) =>
      if !PasswordMatches(password, u.password) then Err(Unauthorized(InvalidCredentials))
      else
        var payload := PayloadOf(u);
        Ok(LoginResponse(Signed(payload, AccessSecret), Signed(payload, RefreshSecret),
                         ProfileView(u.id, u.email, u.firstName, u.lastName, u.role, u.organizationId)))
  }

  /** A freshly registered account logs in with its password at once, while still Pending. */
  lemma RegisteredUserCanLogIn(d: Directory, dto: RegisterDto, userId: Id, newOrgId: Id, now: int)
    requires UniqueEmails(d.users)
    requires RegisterStep(d, dto, userId, newOrgId, now).1.Ok?
    ensures var users' := RegisterStep(d, dto, userId, newOrgId, now).0.users;
      var r := Login(users', dto.email, dto.password);
      r.Ok? && r.value.user.id == userId && UserByEmail(users', dto.email).value.status == Pending
  {
    var users' := RegisterStep(d, dto, userId, newOrgId, now).0.users;
    assert users'[|d.users|].email == dto.email;
    assert forall i :: 0 <= i < |d.users| ==> users'[i].email != dto.email;
    assert UserByEmail(users', dto.email) == Some(users'[|d.users|]) by {
      UserByEmailAt(users', |d.users|);
    }
  }

  /** With unique emails, the lookup finds the row at that email's position. */
  lemma {:induction false} UserByEmailAt(users: seq<User>, j: nat)
    requires j < |users| && forall i :: 0 <= i < j ==> users[i].email != users[j].email
    ensures UserByEmail(users, users[j].email) == Some(users[j])
  {
    if j > 0 {
      assert users[1..][j - 1] == users[j];
      UserByEmailAt(users[1..], j - 1);
    }
  }

  // -------------------------------------------------------------- refresh

  /** `refreshToken`: a token signed with the refresh secret whose subject still exists earns a new access token built from the current row; every failure reads the same. */
  function RefreshToken(users: seq<User>, token: Token): (r: Result<Token>)
    ensures r.Ok? <==> token.secret == RefreshSecret && UserById(users, token.payload.sub).Some?
    ensures r.Err? ==> r.error == Unauthorized(InvalidRefreshToken)
    ensures r.Ok? ==> r.value == Signed(PayloadOf(UserById(users, token.payload.sub).value), AccessSecret)
  {
    if token.secret != RefreshSecret then Err(Unauthorized(InvalidRefreshToken))
    else match UserById(users, token.payload.sub)
      case None => Err(Unauthorized(InvalidRefreshToken))
      case Some(u) => Ok(Signed(PayloadOf(u), AccessSecret))
  }

  /** An access token is never accepted as a refresh token. */
  lemma AccessTokenCannotRefresh(users: seq<User>, payload: JwtPayload)
    ensures RefreshToken(users, Signed(payload, AccessSecret)) == Err(Unauthorized(InvalidRefreshToken))
  {
  }

  /** `validateUser`: the user with that id, if any. */
  function ValidateUser(users: seq<User>, userId: Id): (r: Option<User>)
    ensures r.Some? ==> r.value in users && r.value.id == userId
    ensures r.None? <==> forall i :: 0 <= i < |users| ==> users[i].id != userId
  {
    UserById(users, userId)
  }

  /** `JwtStrategy.validate` after signature checking: the request's user is the row the subject names, as stored now. */
  function AuthenticatedUser(users: seq<User>, token: Token): (r: Result<User>)
    ensures r.Ok? <==> token.secret == AccessSecret && UserById(users, token.payload.sub).Some?
    ensures r.Ok? ==> r.value == UserById(users, token.payload.sub).value
  {
    if token.secret != AccessSecret then Err(Unauthorized(InvalidCredentials))
    else match UserById(users, token.payload.sub)
      case None => Err(Unauthorized(JwtUserNotFound))
      case Some(u) => Ok(u)
  }

  /** Only the subject claim matters: the role and organization in the token are never read back. */
  lemma TokenClaimsNotTrusted(users: seq<User>, p: JwtPayload, q: JwtPayload)
    requires p.sub == q.sub
    ensures AuthenticatedUser(users, Signed(p, AccessSecret)) == AuthenticatedUser(users, Signed(q, AccessSecret))
  {
  }

  // ---------------------------------------------------------- the service

  class AuthService {
    var users: seq<User>
    var organizations: seq<Organization>

    ghost predicate Valid()
      reads this
    {
      UniqueEmails(users)
    }

    constructor (users: seq<User>, organizations: seq<Organization>)
      requires UniqueEmails(users)
      ensures Valid() && this.users == users && this.organizations == organizations
    {
      this.users := users;
      this.organizations := organizations;
    }

    method Register(dto: RegisterDto, userId: Id, newOrgId: Id, now: int) returns (r: Result<RegisteredUser>)
      requires Valid()
      modifies this
      ensures Valid()
      ensures (Directory(users, organizations), r) ==
        RegisterStep(Directory(old(users), old(organizations)), dto, userId, newOrgId, now)
    {
      if UserByEmail(users, dto.email).Some? {
        return Err(Conflict(EmailExists));
      }
      var organizationId := dto.organizationId;
      if !Truthy(organizationId) && Truthy(dto.organizationName) {
        organizations := organizations + [Organization(newOrgId, dto.organizationName.value, None)];
        organizationId := Some(newOrgId);
      }
      if !Truthy(organizationId) {
        return Err(Conflict(OrganizationRequired));
      }
      var u := NewUser(dto, userId, organizationId, now);
      users := users + [u];
      r := Ok(RegisteredUser(u.id, u.email, u.firstName, u.lastName, u.role, u.organizationId, u.createdAt));
    }
  }
}
