// OrganizationGuard (libs/auth/src/lib/guards/organization.guard.ts): the
// route's org-access options and the request's params/body/query are explicit
// arguments, as is the user's loaded organization relation.
module OrganizationGuard {
  import opened Common
  import opened Roles
  import opened Entities

  /** `OrgAccessOptions`; an undefined flag is false. */
  datatype OrgAccessOptions = OrgAccessOptions(allowParentOrg: bool, allowChildOrg: bool, paramName: Option<string>)

  /** The parts of the request the guard reads; each may be undefined. */
  datatype OrgRequest = OrgRequest(
    params: Option<map<string, string>>,
    body: Option<map<string, string>>,
    query: Option<map<string, string>>)

  /** `user.organization` when TypeORM loaded it: its parent id and, if loaded, its children's ids. */
  datatype LoadedOrganization = LoadedOrganization(parentId: Option<Id>, children: Option<seq<Id>>)

  const DefaultParamName: string := "organizationId"

  /** `source?.[name]`. */
  function Lookup(source: Option<map<string, string>>, name: string): Option<string> {
    if source.Some? && name in source.value then Some(source.value[name]) else None
  }

  /** `getResourceOrgId`: the first truthy of params, body, query under the parameter name. */
  function GetResourceOrgId(req: OrgRequest, paramName: Option<string>): (r: Option<Id>)
    ensures r.Some? ==> r.value != ""
  {
    var name := if Truthy(paramName) then paramName.value else DefaultParamName;
    if Truthy(Lookup(req.params, name)) then Lookup(req.params, name)
    else if Truthy(Lookup(req.body, name)) then Lookup(req.body, name)
    else if Truthy(Lookup(req.query, name)) then Lookup(req.query, name)
    else None
  }

  /** `checkOrgHierarchy`: a missing relation or children list denies instead of throwing. */
  function CheckOrgHierarchy(org: Option<LoadedOrganization>, target: Id, options: OrgAccessOptions): bool {
    if org.None? then false
    else if options.allowParentOrg && org.value.parentId == Some(target) then true
    else if options.allowChildOrg && org.value.children.Some? then target in org.value.children.value
    else false
  }

  /** `OrganizationGuard.canActivate`. */
  function CanActivate(options: Option<OrgAccessOptions>, user: Option<User>, org: Option<LoadedOrganization>, req: OrgRequest): bool {
    if options.None? then true
    else if user.None? then false
    else if user.value.role == Some(Owner) then true
    else
      var target := GetResourceOrgId(req, options.value.paramName);
      if target.None? then true
      else if user.value.organizationId == target then true
      else if options.value.allowParentOrg || options.value.allowChildOrg then
        CheckOrgHierarchy(org, target.value, options.value)
      else false
  }

  /** Extraction: the parameter name defaults to "organizationId", and params win over body, body over query. */
  lemma ResourceOrgIdSources(req: OrgRequest, paramName: Option<string>)
    ensures var name := if Truthy(paramName) then paramName.value else "organizationId";
      var r := GetResourceOrgId(req, paramName);
      && (Truthy(Lookup(req.params, name)) ==> r == Lookup(req.params, name))
      && (!Truthy(Lookup(req.params, name)) && Truthy(Lookup(req.body, name)) ==> r == Lookup(req.body, name))
      && (!Truthy(Lookup(req.params, name)) && !Truthy(Lookup(req.body, name)) ==> r == Lookup(req.query, name) || r.None?)
      && (r.None? <==> !Truthy(Lookup(req.params, name)) && !Truthy(Lookup(req.body, name)) && !Truthy(Lookup(req.query, name)))
  {
  }

  /** Without options every request passes; with options a missing user is refused. */
  lemma OptionsAndUser(options: Option<OrgAccessOptions>, user: Option<User>, org: Option<LoadedOrganization>, req: OrgRequest)
    ensures options.None? ==> CanActivate(options, user, org, req)
    ensures options.Some? && user.None? ==> !CanActivate(options, user, org, req)
  {
  }

  /** An Owner passes whatever the target; so does anyone when no target id is found. */
  lemma OwnerOrNoTargetAllowed(o: OrgAccessOptions, u: User, org: Option<LoadedOrganization>, req: OrgRequest)
    requires u.role == Some(Owner) || GetResourceOrgId(req, o.paramName).None?
    ensures CanActivate(Some(o), Some(u), org, req)
  {
  }

  /** For a non-Owner and a found target: same org allows; a different org without flags denies. */
  lemma SameOrDifferentOrg(o: OrgAccessOptions, u: User, org: Option<LoadedOrganization>, req: OrgRequest)
    requires u.role != Some(Owner) && GetResourceOrgId(req, o.paramName).Some?
    ensures u.organizationId == GetResourceOrgId(req, o.paramName) ==> CanActivate(Some(o), Some(u), org, req)
    ensures u.organizationId != GetResourceOrgId(req, o.paramName) && !o.allowParentOrg && !o.allowChildOrg
      ==> !CanActivate(Some(o), Some(u), org, req)
  {
  }

  /** Hierarchy access for a non-Owner in another org: the parent matches, or the target is a loaded child. */
  lemma HierarchyAccess(o: OrgAccessOptions, u: User, org: Option<LoadedOrganization>, req: OrgRequest)
    requires u.role != Some(Owner)
    requires GetResourceOrgId(req, o.paramName).Some? && u.organizationId != GetResourceOrgId(req, o.paramName)
    ensures var t := GetResourceOrgId(req, o.paramName).value;
      && (o.allowParentOrg && org.Some? && org.value.parentId == Some(t) ==> CanActivate(Some(o), Some(u), org, req))
      && ((o.allowChildOrg && org.Some? && org.value.children.Some? && t in org.value.children.value)
            ==> CanActivate(Some(o), Some(u), org, req))
      && (org.None? ==> !CanActivate(Some(o), Some(u), org, req))
      && (!o.allowParentOrg && org.Some? && org.value.children.None? ==> !CanActivate(Some(o), Some(u), org, req))
      && (CanActivate(Some(o), Some(u), org, req) ==>
            (org.Some? &&
             ((o.allowParentOrg && org.value.parentId == Some(t)) ||
              (o.allowChildOrg && org.value.children.Some? && t in org.value.children.value))))
  {
  }
}
