// AuditLogService (apps/api/src/modules/audit-log/audit-log.service.ts) and
// the audit-log repository it shares with the task service.
module AuditLogs {
  import opened Common
  import opened Entities
  import opened Query

  /** The `audit_logs` table: an append-only sequence of rows. */
  class AuditLogRepository {
    var entries: seq<AuditLog>

    constructor ()
      ensures entries == []
    {
      entries := [];
    }

    /** `save` of a new row. */
    method Save(entry: AuditLog)
      modifies this
      ensures entries == old(entries) + [entry]
    {
      entries := entries + [entry];
    }
  }

  /** The query of GET /audit-log; a date is an integer timestamp. */
  datatype AuditFilter = AuditFilter(
    userId: Option<Id>,
    action: Option<string>,
    resource: Option<string>,
    resourceId: Option<Id>,
    startDate: Option<int>,
    endDate: Option<int>,
    sortOrder: Option<Direction>,
    page: Option<int>,
    limit: Option<int>)

  /** What the AuditFilterDto validators admit: page at least 1, limit 1..100. */
  predicate ValidAuditFilter(f: AuditFilter) {
    (f.page.Some? ==> f.page.value >= 1) && (f.limit.Some? ==> 1 <= f.limit.value <= 100)
  }

  const DefaultAuditLimit: nat := 20

  /** `filterDto.page || 1`. */
  function AuditPageOf(f: AuditFilter): (p: nat)
    requires ValidAuditFilter(f)
    ensures p >= 1
    ensures f.page.None? ==> p == 1
  {
    if f.page.Some? then f.page.value else 1
  }

  /** `filterDto.limit || 20`. */
  function AuditLimitOf(f: AuditFilter): (l: nat)
    requires ValidAuditFilter(f)
    ensures 1 <= l <= 100
    ensures f.limit.None? ==> l == DefaultAuditLimit
  {
    if f.limit.Some? then f.limit.value else DefaultAuditLimit
  }

  /** The author row joined by `leftJoinAndSelect('audit.user')`. */
  function Author(users: seq<User>, id: Id): (a: Option<User>)
    ensures a.Some? ==> a.value in users && a.value.id == id
    ensures a.None? ==> forall i :: 0 <= i < |users| ==> users[i].id != id
  {
    if users == [] then None
    else if users[0].id == id then Some(users[0])
    else Author(users[1..], id)
  }

  /** `user.organizationId = :orgId`: the author exists and shares the caller's non-null organization. */
  predicate InCallerOrg(log: AuditLog, users: seq<User>, caller: User) {
    var a := Author(users, log.userId);
    a.Some? && a.value.organizationId.Some? && a.value.organizationId == caller.organizationId
  }

  /** The filter conjunction; empty strings are ignored, dates bound `createdAt` inclusively. */
  predicate MatchesAuditFilter(log: AuditLog, f: AuditFilter) {
    && (Truthy(f.userId) ==> log.userId == f.userId.value)
    && (Truthy(f.action) ==> log.action == f.action.value)
    && (Truthy(f.resource) ==> log.resource == f.resource.value)
    && (Truthy(f.resourceId) ==> log.resourceId == f.resourceId)
    && (f.startDate.Some? ==> log.createdAt >= f.startDate.value)
    && (f.endDate.Some? ==> log.createdAt <= f.endDate.value)
  }

  /** One element of the `data` array of GET /audit-log. */
  datatype AuditView = AuditView(
    id: Id,
    userId: Id,
    userEmail: Option<string>,
    userName: Option<string>,
    action: string,
    resource: string,
    resourceId: Option<Id>,
    oldValue: Option<Snapshot>,
    newValue: Option<Snapshot>,
    ipAddress: Option<string>,
    userAgent: Option<string>,
    createdAt: int)

  datatype AuditPage = AuditPage(data: seq<AuditView>, meta: PageMeta)

  /** JavaScript's string conversion in `firstName + ' ' + lastName`: a null name reads "null". */
  function JsText(s: Option<string>): string {
    if s.Some? then s.value else "null"
  }

  /** The `data.map(log => ...)` projection. */
  function Project(log: AuditLog, author: Option<User>): (v: AuditView)
    ensures v.id == log.id && v.userId == log.userId && v.createdAt == log.createdAt
    ensures v.action == log.action && v.resource == log.resource && v.resourceId == log.resourceId
    ensures v.oldValue == log.oldValue && v.newValue == log.newValue
    ensures v.ipAddress == log.ipAddress && v.userAgent == log.userAgent
    ensures author.Some? ==>
      (v.userEmail == Some(author.value.email) &&
       v.userName == Some(JsText(author.value.firstName) + " " + JsText(author.value.lastName)))
    ensures author.None? ==> v.userEmail.None? && v.userName.None?
  {
    AuditView(
      log.id, log.userId,
      if author.Some? then Some(author.value.email) else None,
      if author.Some? then Some(JsText(author.value.firstName) + " " + JsText(author.value.lastName)) else None,
      log.action, log.resource, log.resourceId, log.oldValue, log.newValue,
      log.ipAddress, log.userAgent, log.createdAt)
  }

  function CreatedAtKey(log: AuditLog): Key {
    IntKey(log.createdAt)
  }

  function AuditDirection(f: AuditFilter): Direction {
    if f.sortOrder.Some? then f.sortOrder.value else Desc
  }

  /** The part of the filter that selects rows, with the ordering and paging fields cleared. */
  function AuditCriteria(f: AuditFilter): AuditFilter {
    f.(sortOrder := None, page := None, limit := None)
  }

  function AuditMatch(users: seq<User>, f: AuditFilter, caller: User): AuditLog -> bool {
    var c := AuditCriteria(f);
    (l: AuditLog) => InCallerOrg(l, users, caller) && MatchesAuditFilter(l, c)
  }

  /** The rows of the requested page, before projection. */
  function AuditWindow(logs: seq<AuditLog>, users: seq<User>, f: AuditFilter, caller: User): seq<AuditLog>
    requires ValidAuditFilter(f)
  {
    var limit := AuditLimitOf(f);
    Window(SortBy(Where(logs, AuditMatch(users, f, caller)), CreatedAtKey, AuditDirection(f)),
           Skip(AuditPageOf(f), limit), limit)
  }

  /** `AuditLogService.findAll`. */
  function FindAll(logs: seq<AuditLog>, users: seq<User>, f: AuditFilter, caller: User): (r: AuditPage)
    requires ValidAuditFilter(f)
    ensures r.meta.page == AuditPageOf(f) && r.meta.limit == AuditLimitOf(f)
    ensures r.meta.total == |Where(logs, AuditMatch(users, f, caller))|
    ensures r.meta.totalPages == TotalPages(r.meta.total, r.meta.limit)
    ensures |r.data| <= r.meta.limit
    ensures |r.data| == if Skip(r.meta.page, r.meta.limit) >= r.meta.total then 0
                        else Min(r.meta.limit, r.meta.total - Skip(r.meta.page, r.meta.limit))
  {
    var matching := Where(logs, AuditMatch(users, f, caller));
    var limit := AuditLimitOf(f);
    var window := AuditWindow(logs, users, f, caller);
    var data := Map(window, (l: AuditLog) => Project(l, Author(users, l.userId)));
    AuditPage(data, PageMeta(|matching|, AuditPageOf(f), limit, TotalPages(|matching|, limit)))
  }

  /** Every row returned is a stored entry of the caller's organization that passes the filters, projected with its author. */
  lemma {:induction false} FindAllRows(logs: seq<AuditLog>, users: seq<User>, f: AuditFilter, caller: User)
    requires ValidAuditFilter(f)
    ensures var r := FindAll(logs, users, f, caller);
      forall i :: 0 <= i < |r.data| ==>
        exists j :: (0 <= j < |logs| && InCallerOrg(logs[j], users, caller) && MatchesAuditFilter(logs[j], f) &&
          r.data[i] == Project(logs[j], Author(users, logs[j].userId)))
  {
    var p := AuditMatch(users, f, caller);
    var window := AuditWindow(logs, users, f, caller);
    var skip, limit := Skip(AuditPageOf(f), AuditLimitOf(f)), AuditLimitOf(f);
    assert window == Window(SortBy(Where(logs, p), CreatedAtKey, AuditDirection(f)), skip, limit);
    PageRowsSelected(logs, p, CreatedAtKey, AuditDirection(f), skip, limit);
    var r := FindAll(logs, users, f, caller);
    assert |r.data| == |window|;
    forall i | 0 <= i < |r.data|
      ensures exists j :: (0 <= j < |logs| && InCallerOrg(logs[j], users, caller) && MatchesAuditFilter(logs[j], f) &&
        r.data[i] == Project(logs[j], Author(users, logs[j].userId)))
    {
      assert window[i] in logs && p(window[i]);
      var j :| 0 <= j < |logs| && logs[j] == window[i];
      assert r.data[i] == Project(window[i], Author(users, window[i].userId));
    }
  }

  /** Every row returned names its author: the organization join needs the author to exist. */
  lemma FindAllNamesAuthors(logs: seq<AuditLog>, users: seq<User>, f: AuditFilter, caller: User)
    requires ValidAuditFilter(f)
    ensures var r := FindAll(logs, users, f, caller);
      forall i :: 0 <= i < |r.data| ==> r.data[i].userName.Some? && r.data[i].userEmail.Some?
  {
    var r := FindAll(logs, users, f, caller);
    FindAllRows(logs, users, f, caller);
    forall i | 0 <= i < |r.data| ensures r.data[i].userName.Some? && r.data[i].userEmail.Some? {
      var j :| 0 <= j < |logs| && InCallerOrg(logs[j], users, caller) && MatchesAuditFilter(logs[j], f) &&
        r.data[i] == Project(logs[j], Author(users, logs[j].userId));
    }
  }

  /** Paging misses nothing: every entry of the caller's organization that passes the filters is on some page. */
  lemma {:induction false} FindAllPagesCover(logs: seq<AuditLog>, users: seq<User>, f: AuditFilter, caller: User, j: nat)
    requires ValidAuditFilter(f)
    requires j < |logs| && InCallerOrg(logs[j], users, caller) && MatchesAuditFilter(logs[j], f)
    ensures exists p: nat :: (p >= 1 &&
      Project(logs[j], Author(users, logs[j].userId)) in FindAll(logs, users, f.(page := Some(p)), caller).data)
  {
    var ordered := SortBy(Where(logs, AuditMatch(users, f, caller)), CreatedAtKey, AuditDirection(f));
    assert AuditMatch(users, f, caller)(logs[j]);
    assert logs[j] in multiset(ordered);
    var k :| 0 <= k < |ordered| && ordered[k] == logs[j];
    var limit := AuditLimitOf(f);
    var p := PageContaining(k, limit);
    WindowHoldsRow(ordered, k, limit);
    AuditPageHolds(logs, users, f, caller, p, logs[j]);
  }

  /** A row in window `p` of the ordered selection is returned, projected, for page `p`. */
  lemma AuditPageHolds(logs: seq<AuditLog>, users: seq<User>, f: AuditFilter, caller: User, p: nat, l: AuditLog)
    requires ValidAuditFilter(f) && p >= 1
    requires l in Window(SortBy(Where(logs, AuditMatch(users, f, caller)), CreatedAtKey, AuditDirection(f)),
                         Skip(p, AuditLimitOf(f)), AuditLimitOf(f))
    ensures Project(l, Author(users, l.userId)) in FindAll(logs, users, f.(page := Some(p)), caller).data
  {
    var g := f.(page := Some(p));
    assert AuditCriteria(g) == AuditCriteria(f);
    assert AuditMatch(users, g, caller) == AuditMatch(users, f, caller);
    var window := AuditWindow(logs, users, g, caller);
    var k :| 0 <= k < |window| && window[k] == l;
    assert FindAll(logs, users, g, caller).data[k] == Project(l, Author(users, l.userId));
  }

  /** Rows come newest first unless ascending order is asked for. */
  lemma FindAllOrdered(logs: seq<AuditLog>, users: seq<User>, f: AuditFilter, caller: User)
    requires ValidAuditFilter(f)
    ensures var r := FindAll(logs, users, f, caller);
      forall i, j :: 0 <= i < j < |r.data| ==>
        if f.sortOrder == Some(Asc) then r.data[i].createdAt <= r.data[j].createdAt
        else r.data[i].createdAt >= r.data[j].createdAt
  {
    var dir := AuditDirection(f);
    var ordered := SortBy(Where(logs, AuditMatch(users, f, caller)), CreatedAtKey, dir);
    var window := AuditWindow(logs, users, f, caller);
    WindowSorted(ordered, Skip(AuditPageOf(f), AuditLimitOf(f)), AuditLimitOf(f), CreatedAtKey, dir);
    var r := FindAll(logs, users, f, caller);
    forall i, j | 0 <= i < j < |r.data|
      ensures if f.sortOrder == Some(Asc) then r.data[i].createdAt <= r.data[j].createdAt
        else r.data[i].createdAt >= r.data[j].createdAt
    {
      assert InOrder(CreatedAtKey(window[i]), CreatedAtKey(window[j]), dir);
    }
  }

  /** GET /audit-log/actions: every stored action, once each. */
  function GetActions(logs: seq<AuditLog>): (r: seq<string>)
    ensures forall i :: 0 <= i < |logs| ==> logs[i].action in r
    ensures forall i :: 0 <= i < |r| ==> exists j :: 0 <= j < |logs| && logs[j].action == r[i]
    ensures forall i, j :: 0 <= i < j < |r| ==> r[i] != r[j]
  {
    var actions := Map(logs, (l: AuditLog) => l.action);
    assert forall i :: 0 <= i < |logs| ==> actions[i] == logs[i].action;
    Distinct(actions)
  }

  /** GET /audit-log/resources: every stored resource family, once each. */
  function GetResources(logs: seq<AuditLog>): (r: seq<string>)
    ensures forall i :: 0 <= i < |logs| ==> logs[i].resource in r
    ensures forall i :: 0 <= i < |r| ==> exists j :: 0 <= j < |logs| && logs[j].resource == r[i]
    ensures forall i, j :: 0 <= i < j < |r| ==> r[i] != r[j]
  {
    var resources := Map(logs, (l: AuditLog) => l.resource);
    assert forall i :: 0 <= i < |logs| ==> resources[i] == logs[i].resource;
    Distinct(resources)
  }

  /** `AuditLogService`: `create` appends one row to the shared repository. */
  class AuditLogService {
    const repository: AuditLogRepository

    constructor (repository: AuditLogRepository)
      ensures this.repository == repository
    {
      this.repository := repository;
    }

    /** `create`: stores exactly the given fields, with the generated id and timestamp. */
    method Create(userId: Id, action: string, resource: string, resourceId: Option<Id>,
                  oldValue: Option<Snapshot>, newValue: Option<Snapshot>,
                  ipAddress: Option<string>, userAgent: Option<string>,
                  newId: Id, now: int) returns (saved: AuditLog)
      modifies repository
      ensures saved == AuditLog(newId, userId, action, resource, resourceId, oldValue, newValue, ipAddress, userAgent, now)
      ensures repository.entries == old(repository.entries) + [saved]
    {
      saved := AuditLog(newId, userId, action, resource, resourceId, oldValue, newValue, ipAddress, userAgent, now);
      repository.Save(saved);
    }
  }
}
