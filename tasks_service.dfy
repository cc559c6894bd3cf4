// TasksService (apps/api/src/modules/tasks/tasks.service.ts): organization
// scoping, filtering, sorting and paging of tasks, and the create / update /
// delete / reorder operations with their ownership checks and audit rows.
// Generated ids and the clock are parameters.
module Tasks {
  import opened Common
  import opened Roles
  import opened Entities
  import opened Query
  import AuditLogs

  const TaskNotFound: string := "Task not found"
  const UpdateForbidden: string := "You do not have permission to update this task"
  const DeleteForbidden: string := "You do not have permission to delete this task"
  const TaskResource: string := "Task"

  // ------------------------------------------------------------ org scope

  /**
   * `applyOrgScope`: the task belongs to the user's organization (SQL
   * equality, so a NULL organization on either side never matches), and a
   * Viewer additionally created the task or is its assignee.
   */
  predicate InOrgScope(t: Task, u: User) {
    && t.organizationId.Some?
    && t.organizationId == u.organizationId
    && (u.role == Some(Viewer) ==> t.createdById == u.id || t.assignedToId == Some(u.id))
  }

  /** A user without an organization sees no task at all. */
  lemma NoOrganizationNoTasks(t: Task, u: User)
    requires u.organizationId.None?
    ensures !InOrgScope(t, u)
  {
  }

  /** Any role other than Viewer (a null role included) sees exactly the tasks of its organization. */
  lemma NonViewerSeesWholeOrganization(t: Task, u: User)
    requires u.role != Some(Viewer)
    ensures InOrgScope(t, u) <==> t.organizationId.Some? && t.organizationId == u.organizationId
  {
  }

  /** The Viewer scope is contained in the scope of every other role. */
  lemma ViewerScopeIsNarrowest(t: Task, u: User, r: Option<Role>)
    requires InOrgScope(t, u.(role := Some(Viewer)))
    ensures InOrgScope(t, u.(role := r))
  {
  }

  // -------------------------------------------------------------- filters

  /** ASCII case folding, the part of ILIKE's case-insensitivity this model covers. */
  function LowerChar(c: char): char {
    if 'A' <= c <= 'Z' then (c as int + 32) as char else c
  }

  function Lower(s: string): (r: string)
    ensures |r| == |s|
    ensures forall i :: 0 <= i < |s| ==> r[i] == LowerChar(s[i])
  {
    seq(|s|, i requires 0 <= i < |s| => LowerChar(s[i]))
  }

  /** `needle` occurs in `hay` at position `i`. */
  predicate OccursAt(hay: string, needle: string, i: int) {
    0 <= i && i + |needle| <= |hay| && hay[i..i + |needle|] == needle
  }

  /** `needle` occurs in `hay` at some position, searched left to right. */
  predicate Contains(hay: string, needle: string)
    decreases |hay|
  {
    (|needle| <= |hay| && hay[..|needle|] == needle) || (hay != [] && Contains(hay[1..], needle))
  }

  /** Contains is substring occurrence. */
  lemma {:induction false} ContainsAt(hay: string, needle: string)
    ensures Contains(hay, needle) <==> exists i :: OccursAt(hay, needle, i)
    decreases |hay|
  {
    if Contains(hay, needle) {
      if |needle| <= |hay| && hay[..|needle|] == needle {
        assert OccursAt(hay, needle, 0);
      } else {
        ContainsAt(hay[1..], needle);
        var i :| OccursAt(hay[1..], needle, i);
        assert hay[i + 1..i + 1 + |needle|] == hay[1..][i..i + |needle|];
        assert OccursAt(hay, needle, i + 1);
      }
    }
    if exists i :: OccursAt(hay, needle, i) {
      var i :| OccursAt(hay, needle, i);
      if i > 0 {
        assert hay[1..][i - 1..i - 1 + |needle|] == hay[i..i + |needle|];
        assert OccursAt(hay[1..], needle, i - 1);
        ContainsAt(hay[1..], needle);
      } else {
        assert hay[..|needle|] == hay[i..i + |needle|];
      }
    }
  }

  /** `column ILIKE '%' || search || '%'` with the search text taken literally; NULL never matches. */
  predicate ILike(text: Option<string>, search: string) {
    text.Some? && Contains(Lower(text.value), Lower(search))
  }

  /** Every present text matches an empty search and its own text. */
  lemma ILikeReflexive(text: string)
    ensures ILike(Some(text), "")
    ensures ILike(Some(text), text)
  {
    assert Lower(text)[..|Lower(text)|] == Lower(text);
    assert Lower(text)[..0] == Lower("");
  }

  datatype SortField = ByCreatedAt | ByUpdatedAt | ByDueDate | ByPriority | ByTitle

  /** The query of GET /tasks. */
  datatype TaskFilter = TaskFilter(
    status: Option<TaskStatus>,
    category: Option<TaskCategory>,
    assignedToId: Option<Id>,
    createdById: Option<Id>,
    search: Option<string>,
    sortBy: Option<SortField>,
    sortOrder: Option<Direction>,
    page: Option<int>,
    limit: Option<int>)

  /** What the TaskFilterDto validators admit: page at least 1, limit 1..100. */
  predicate ValidTaskFilter(f: TaskFilter) {
    (f.page.Some? ==> f.page.value >= 1) && (f.limit.Some? ==> 1 <= f.limit.value <= 100)
  }

  /** `applyFilters`: each truthy filter adds one conjunct. */
  predicate MatchesFilters(t: Task, f: TaskFilter) {
    && (f.status.Some? ==> t.status == f.status.value)
    && (f.category.Some? ==> t.category == f.category.value)
    && (Truthy(f.assignedToId) ==> t.assignedToId == f.assignedToId)
    && (Truthy(f.createdById) ==> t.createdById == f.createdById.value)
    && (Truthy(f.search) ==> ILike(Some(t.title), f.search.value) || ILike(t.description, f.search.value))
  }

  /** An all-absent filter keeps every task. */
  lemma EmptyFilterKeepsAll(t: Task, sortBy: Option<SortField>, sortOrder: Option<Direction>, page: Option<int>, limit: Option<int>)
    ensures MatchesFilters(t, TaskFilter(None, None, None, None, None, sortBy, sortOrder, page, limit))
  {
  }

  /** An empty string filter is ignored, as JavaScript truthiness dictates. */
  lemma EmptyStringFiltersIgnored(t: Task, f: TaskFilter)
    ensures MatchesFilters(t, f.(assignedToId := Some(""), createdById := Some(""), search := Some("")))
        <==> MatchesFilters(t, f.(assignedToId := None, createdById := None, search := None))
  {
  }

  /** The ORDER BY column; a NULL due date is a NULL key. */
  function SortKey(field: SortField, t: Task): Key {
    match field
    case ByCreatedAt => IntKey(t.createdAt)
    case ByUpdatedAt => IntKey(t.updatedAt)
    case ByDueDate => if t.dueDate.Some? then IntKey(t.dueDate.value) else NullKey
    case ByPriority => IntKey(t.priority)
    case ByTitle => TextKey(t.title)
  }

  /** `sortBy || 'createdAt'`. */
  function SortFieldOf(f: TaskFilter): SortField {
    if f.sortBy.Some? then f.sortBy.value else ByCreatedAt
  }

  /** `sortOrder || 'DESC'`. */
  function DirectionOf(f: TaskFilter): Direction {
    if f.sortOrder.Some? then f.sortOrder.value else Desc
  }

  const DefaultTaskLimit: nat := 10

  /** `filterDto.page || 1`. */
  function PageOf(f: TaskFilter): (p: nat)
    requires ValidTaskFilter(f)
    ensures p >= 1
    ensures f.page.None? ==> p == 1
  {
    if f.page.Some? then f.page.value else 1
  }

  /** `filterDto.limit || 10`. */
  function LimitOf(f: TaskFilter): (l: nat)
    requires ValidTaskFilter(f)
    ensures 1 <= l <= 100
    ensures f.limit.None? ==> l == DefaultTaskLimit
  {
    if f.limit.Some? then f.limit.value else DefaultTaskLimit
  }

  /** The ORDER BY column chosen by the filter. */
  function KeyOf(f: TaskFilter): Task -> Key {
    var field := SortFieldOf(f);
    (t: Task) => SortKey(field, t)
  }

  /** The part of the filter that selects rows, with the paging fields cleared. */
  function Criteria(f: TaskFilter): TaskFilter {
    f.(sortBy := None, sortOrder := None, page := None, limit := None)
  }

  function Selection(u: User, f: TaskFilter): Task -> bool {
    var c := Criteria(f);
    (t: Task) => InOrgScope(t, u) && MatchesFilters(t, c)
  }

  /** The rows the WHERE clause keeps: stored tasks in the user's scope that pass the filters, in stored order. */
  function Matching(tasks: seq<Task>, f: TaskFilter, u: User): (r: seq<Task>)
    ensures forall i :: 0 <= i < |r| ==> r[i] in tasks && InOrgScope(r[i], u) && MatchesFilters(r[i], f)
    ensures forall i :: 0 <= i < |tasks| && InOrgScope(tasks[i], u) && MatchesFilters(tasks[i], f) ==> tasks[i] in r
    ensures |r| <= |tasks|
  {
    Where(tasks, Selection(u, f))
  }

  /** Every in-scope task passing the filters, in ORDER BY order. */
  function Ordered(tasks: seq<Task>, f: TaskFilter, u: User): seq<Task> {
    SortBy(Matching(tasks, f, u), KeyOf(f), DirectionOf(f))
  }

  datatype TaskPage = TaskPage(data: seq<Task>, meta: PageMeta)

  /** `findAll`: one page of the ordered selection and its `meta` block. */
  function FindAll(tasks: seq<Task>, f: TaskFilter, u: User): (r: TaskPage)
    requires ValidTaskFilter(f)
    ensures r.meta.page == PageOf(f) && r.meta.limit == LimitOf(f)
    ensures r.meta.total == |Matching(tasks, f, u)|
    ensures r.meta.totalPages == TotalPages(r.meta.total, r.meta.limit)
    ensures |r.data| <= r.meta.limit
    ensures |r.data| == if Skip(r.meta.page, r.meta.limit) >= r.meta.total then 0
                        else Min(r.meta.limit, r.meta.total - Skip(r.meta.page, r.meta.limit))
  {
    var total := |Matching(tasks, f, u)|;
    var page, limit := PageOf(f), LimitOf(f);
    TaskPage(Window(Ordered(tasks, f, u), Skip(page, limit), limit),
             PageMeta(total, page, limit, TotalPages(total, limit)))
  }

  /** Every returned task is stored, in the user's scope and passes the filters. */
  lemma FindAllRows(tasks: seq<Task>, f: TaskFilter, u: User)
    requires ValidTaskFilter(f)
    ensures var r := FindAll(tasks, f, u);
      forall i :: 0 <= i < |r.data| ==> r.data[i] in tasks && InOrgScope(r.data[i], u) && MatchesFilters(r.data[i], f)
  {
    var skip, limit := Skip(PageOf(f), LimitOf(f)), LimitOf(f);
    assert FindAll(tasks, f, u).data == Window(SortBy(Where(tasks, Selection(u, f)), KeyOf(f), DirectionOf(f)), skip, limit);
    PageRowsSelected(tasks, Selection(u, f), KeyOf(f), DirectionOf(f), skip, limit);
    assert forall t: Task :: Selection(u, f)(t) ==> MatchesFilters(t, f);
  }

  /** The page is in the requested order. */
  lemma FindAllOrdered(tasks: seq<Task>, f: TaskFilter, u: User)
    requires ValidTaskFilter(f)
    ensures SortedBy(FindAll(tasks, f, u).data, KeyOf(f), DirectionOf(f))
  {
    WindowSorted(Ordered(tasks, f, u), Skip(PageOf(f), LimitOf(f)), LimitOf(f), KeyOf(f), DirectionOf(f));
  }

  /** The page number does not change which rows are selected nor their order. */
  lemma OrderIgnoresPage(tasks: seq<Task>, f: TaskFilter, u: User, p: nat)
    ensures Ordered(tasks, f.(page := Some(p)), u) == Ordered(tasks, f, u)
  {
    var g := f.(page := Some(p));
    assert Criteria(g) == Criteria(f);
    assert Selection(u, g) == Selection(u, f);
    assert SortFieldOf(g) == SortFieldOf(f);
    assert KeyOf(g) == KeyOf(f);
  }

  /** Paging misses nothing: every visible, matching task is on some page. */
  lemma {:induction false} FindAllPagesCover(tasks: seq<Task>, f: TaskFilter, u: User, j: nat)
    requires ValidTaskFilter(f)
    requires j < |tasks| && InOrgScope(tasks[j], u) && MatchesFilters(tasks[j], f)
    ensures exists p: nat :: p >= 1 && tasks[j] in FindAll(tasks, f.(page := Some(p)), u).data
  {
    var ordered := Ordered(tasks, f, u);
    assert tasks[j] in Matching(tasks, f, u);
    assert tasks[j] in multiset(ordered);
    var k :| 0 <= k < |ordered| && ordered[k] == tasks[j];
    var limit := LimitOf(f);
    var p := PageContaining(k, limit);
    WindowHoldsRow(ordered, k, limit);
    PageHolds(tasks, f, u, p, tasks[j]);
  }

  lemma PageHolds(tasks: seq<Task>, f: TaskFilter, u: User, p: nat, t: Task)
    requires ValidTaskFilter(f) && p >= 1
    requires t in Window(Ordered(tasks, f, u), Skip(p, LimitOf(f)), LimitOf(f))
    ensures t in FindAll(tasks, f.(page := Some(p)), u).data
  {
    OrderIgnoresPage(tasks, f, u, p);
  }

  // ------------------------------------------------------------- find one

  /** `findOne`: the task with this id within the user's scope; a missing and an out-of-scope task both read "Task not found". */
  function FindOne(tasks: seq<Task>, id: Id, u: User): (r: Result<Task>)
    ensures r.Ok? ==> r.value in tasks && r.value.id == id && InOrgScope(r.value, u)
    ensures r.Err? <==> forall i :: 0 <= i < |tasks| ==> !(tasks[i].id == id && InOrgScope(tasks[i], u))
    ensures r.Err? ==> r.error == NotFound(TaskNotFound)
  {
    if tasks == [] then Err(NotFound(TaskNotFound))
    else if tasks[0].id == id && InOrgScope(tasks[0], u) then Ok(tasks[0])
    else
      var r := FindOne(tasks[1..], id, u);
      assert forall i :: 1 <= i < |tasks| ==> tasks[i] == tasks[1..][i - 1];
      r
  }

  /** The table's primary key: no two rows share an id. */
  predicate UniqueIds(tasks: seq<Task>) {
    forall i, j :: 0 <= i < j < |tasks| ==> tasks[i].id != tasks[j].id
  }

  /** With unique ids, findOne returns the row itself whenever it is in scope. */
  lemma {:induction false} FindOneFindsRow(tasks: seq<Task>, j: nat, u: User)
    requires UniqueIds(tasks) && j < |tasks| && InOrgScope(tasks[j], u)
    ensures FindOne(tasks, tasks[j].id, u) == Ok(tasks[j])
  {
    if j > 0 {
      assert tasks[0].id != tasks[j].id;
      assert tasks[1..][j - 1] == tasks[j];
      FindOneFindsRow(tasks[1..], j - 1, u);
    }
  }

  // -------------------------------------------------------- authorization

  /** `checkUpdatePermission`: Owners and Admins pass; anyone else must be the creator or the assignee. */
  function CheckUpdatePermission(t: Task, u: User): (o: Outcome)
    ensures o.Pass? <==>
      u.role == Some(Owner) || u.role == Some(Admin) || t.createdById == u.id || t.assignedToId == Some(u.id)
    ensures o.Fail? ==> o.error == Forbidden(UpdateForbidden)
  {
    if u.role == Some(Owner) || u.role == Some(Admin) then Pass
    else if t.createdById != u.id && t.assignedToId != Some(u.id) then Fail(Forbidden(UpdateForbidden))
    else Pass
  }

  /** `checkDeletePermission`: Owners and Admins pass; anyone else must be the creator. */
  function CheckDeletePermission(t: Task, u: User): (o: Outcome)
    ensures o.Pass? <==> u.role == Some(Owner) || u.role == Some(Admin) || t.createdById == u.id
    ensures o.Fail? ==> o.error == Forbidden(DeleteForbidden)
  {
    if u.role == Some(Owner) || u.role == Some(Admin) then Pass
    else if t.createdById != u.id then Fail(Forbidden(DeleteForbidden))
    else Pass
  }

  /** Deleting demands at least what updating does. */
  lemma DeleteImpliesUpdate(t: Task, u: User)
    requires CheckDeletePermission(t, u).Pass?
    ensures CheckUpdatePermission(t, u).Pass?
  {
  }

  // ------------------------------------------------------- row builders

  /** The row `create` saves: the DTO with defaults, owned by the actor and their organization. */
  function NewTask(dto: CreateTaskDto, u: User, id: Id, now: int): (t: Task)
    ensures t.id == id && t.title == dto.title && t.description == dto.description
    ensures t.status == (if dto.status.Some? then dto.status.value else Todo)
    ensures t.category == (if dto.category.Some? then dto.category.value else Other)
    ensures t.priority == (if dto.priority.Some? then dto.priority.value else 0)
    ensures t.dueDate == dto.dueDate && t.assignedToId == dto.assignedToId
    ensures t.createdById == u.id && t.organizationId == u.organizationId
    ensures t.createdAt == now && t.updatedAt == now
  {
    Task(id, dto.title, dto.description,
         if dto.status.Some? then dto.status.value else Todo,
         if dto.category.Some? then dto.category.value else Other,
         if dto.priority.Some? then dto.priority.value else 0,
         dto.dueDate, u.id, dto.assignedToId, u.organizationId, now, now)
  }

  /**
   * `save` of a loaded row after its properties were assigned: TypeORM sends an UPDATE, and so
   * refreshes the `@UpdateDateColumn`, only when some column differs from the stored row.
   */
  function Saved(stored: Task, written: Task, now: int): Task {
    if written == stored then stored else written.(updatedAt := now)
  }

  /**
   * `Object.assign(task, dto)` followed by `save`: present fields overwrite, the rest stay, and
   * `updatedAt` is stamped exactly when some column changed.
   */
  function ApplyUpdate(t: Task, dto: UpdateTaskDto, now: int): (r: Task)
    ensures r.id == t.id && r.createdById == t.createdById && r.organizationId == t.organizationId
    ensures r.createdAt == t.createdAt
    ensures r.(updatedAt := t.updatedAt) == t ==> r == t
    ensures r.(updatedAt := t.updatedAt) != t ==> r.updatedAt == now
    ensures dto.title.Some? ==> r.title == dto.title.value
    ensures dto.title.None? ==> r.title == t.title
    ensures dto.status.Some? ==> r.status == dto.status.value
    ensures dto.status.None? ==> r.status == t.status
    ensures dto.assignedToId.Some? ==> r.assignedToId == dto.assignedToId
    ensures dto.assignedToId.None? ==> r.assignedToId == t.assignedToId
    ensures dto.description.Some? ==> r.description == dto.description
    ensures dto.description.None? ==> r.description == t.description
    ensures dto.category.Some? ==> r.category == dto.category.value
    ensures dto.category.None? ==> r.category == t.category
    ensures dto.priority.Some? ==> r.priority == dto.priority.value
    ensures dto.priority.None? ==> r.priority == t.priority
    ensures dto.dueDate.Some? ==> r.dueDate == dto.dueDate
    ensures dto.dueDate.None? ==> r.dueDate == t.dueDate
  {
    Saved(t, t.(title := if dto.title.Some? then dto.title.value else t.title,
       description := if dto.description.Some? then dto.description else t.description,
       status := if dto.status.Some? then dto.status.value else t.status,
       category := if dto.category.Some? then dto.category.value else t.category,
       priority := if dto.priority.Some? then dto.priority.value else t.priority,
       dueDate := if dto.dueDate.Some? then dto.dueDate else t.dueDate,
       assignedToId := if dto.assignedToId.Some? then dto.assignedToId else t.assignedToId), now)
  }

  /** A PATCH that carries no field, or only the stored values, rewrites nothing: not even `updatedAt` moves. */
  lemma UnchangedUpdateKeepsStamp(t: Task, dto: UpdateTaskDto, now: int)
    requires dto.title.None? || dto.title == Some(t.title)
    requires dto.description.None? || dto.description == t.description
    requires dto.status.None? || dto.status == Some(t.status)
    requires dto.category.None? || dto.category == Some(t.category)
    requires dto.priority.None? || dto.priority == Some(t.priority)
    requires dto.dueDate.None? || dto.dueDate == t.dueDate
    requires dto.assignedToId.None? || dto.assignedToId == t.assignedToId
    ensures ApplyUpdate(t, dto, now) == t
  {
  }

  /** `task.priority = newPriority` followed by `save`: only the priority changes, and `updatedAt` only if the priority did. */
  function Reprioritize(t: Task, priority: int, now: int): (r: Task)
    ensures r.priority == priority
    ensures r.(priority := t.priority, updatedAt := t.updatedAt) == t
    ensures t.priority == priority ==> r == t
    ensures t.priority != priority ==> r.updatedAt == now
  {
    Saved(t, t.(priority := priority), now)
  }

  /** `save` of an existing row: the row with the same id is replaced. */
  function Replace(tasks: seq<Task>, t: Task): (r: seq<Task>)
    ensures |r| == |tasks|
    ensures forall i :: 0 <= i < |tasks| ==> r[i] == if tasks[i].id == t.id then t else tasks[i]
  {
    Map(tasks, (x: Task) => if x.id == t.id then t else x)
  }

  /** `remove` of a row: every row with that id goes. */
  function RemoveId(tasks: seq<Task>, id: Id): (r: seq<Task>)
    ensures forall i :: 0 <= i < |r| ==> r[i] in tasks && r[i].id != id
    ensures forall i :: 0 <= i < |tasks| && tasks[i].id != id ==> tasks[i] in r
  {
    Where(tasks, (x: Task) => x.id != id)
  }

  /** With unique ids, removing a present id drops exactly one row. */
  lemma {:induction false} RemoveIdDropsOne(tasks: seq<Task>, j: nat)
    requires UniqueIds(tasks) && j < |tasks|
    ensures |RemoveId(tasks, tasks[j].id)| + 1 == |tasks|
  {
    var id := tasks[j].id;
    if j == 0 {
      RemoveIdAbsent(tasks[1..], id);
      assert RemoveId(tasks, id) == RemoveId(tasks[1..], id);
    } else {
      assert tasks[0].id != id;
      assert tasks[1..][j - 1] == tasks[j];
      RemoveIdDropsOne(tasks[1..], j - 1);
      assert RemoveId(tasks, id) == [tasks[0]] + RemoveId(tasks[1..], id);
    }
  }

  /** Removing an absent id keeps every row. */
  lemma {:induction false} RemoveIdAbsent(tasks: seq<Task>, id: Id)
    requires forall i :: 0 <= i < |tasks| ==> tasks[i].id != id
    ensures RemoveId(tasks, id) == tasks
  {
    if tasks != [] {
      RemoveIdAbsent(tasks[1..], id);
      assert RemoveId(tasks, id) == [tasks[0]] + RemoveId(tasks[1..], id);
    }
  }

  /** The audit row `logAudit` writes for a task. */
  function TaskAudit(logId: Id, userId: Id, action: string, taskId: Id,
                     oldValue: Option<Snapshot>, newValue: Option<Snapshot>, now: int): AuditLog {
    AuditLog(logId, userId, action, TaskResource, Some(taskId), oldValue, newValue, None, None, now)
  }

  // ---------------------------------------------------------- operations

  /** The state the service acts on: the tasks table and the audit log. */
  datatype TaskStore = TaskStore(tasks: seq<Task>, log: seq<AuditLog>)

  /** `create`: save, audit, then re-read through the actor's scope. */
  function CreateStep(s: TaskStore, dto: CreateTaskDto, u: User, taskId: Id, logId: Id, now: int): (TaskStore, Result<Task>) {
    var t := NewTask(dto, u, taskId, now);
    var tasks := s.tasks + [t];
    (TaskStore(tasks, s.log + [TaskAudit(logId, u.id, "CREATE", taskId, None, Some(TaskSnapshot(t)), now)]),
     FindOne(tasks, taskId, u))
  }

  /** `update`: find in scope, check, assign the DTO, save, audit old and new, re-read. */
  function UpdateStep(s: TaskStore, id: Id, dto: UpdateTaskDto, u: User, logId: Id, now: int): (TaskStore, Result<Task>) {
    match FindOne(s.tasks, id, u)
    case Err(e) => (s, Err(e))
    case Ok(t) =>
      match CheckUpdatePermission(t, u)
      case Fail(e) => (s, Err(e))
      case Pass =>
        var t' := ApplyUpdate(t, dto, now);
        var tasks := Replace(s.tasks, t');
        (TaskStore(tasks, s.log + [TaskAudit(logId, u.id, "UPDATE", id, Some(TaskSnapshot(t)), Some(TaskSnapshot(t')), now)]),
         FindOne(tasks, id, u))
  }

  /** `remove`: find in scope, check, audit the old row, delete. */
  function RemoveStep(s: TaskStore, id: Id, u: User, logId: Id, now: int): (TaskStore, Outcome) {
    match FindOne(s.tasks, id, u)
    case Err(e) => (s, Fail(e))
    case Ok(t) =>
      match CheckDeletePermission(t, u)
      case Fail(e) => (s, Fail(e))
      case Pass =>
        (TaskStore(RemoveId(s.tasks, id), s.log + [TaskAudit(logId, u.id, "DELETE", id, Some(TaskSnapshot(t)), None, now)]),
         Pass)
  }

  /** `reorder`: find in scope, check as for an update, set the priority, save, re-read; no audit row. */
  function ReorderStep(s: TaskStore, id: Id, priority: int, u: User, now: int): (TaskStore, Result<Task>) {
    match FindOne(s.tasks, id, u)
    case Err(e) => (s, Err(e))
    case Ok(t) =>
      match CheckUpdatePermission(t, u)
      case Fail(e) => (s, Err(e))
      case Pass =>
        var tasks := Replace(s.tasks, Reprioritize(t, priority, now));
        (s.(tasks := tasks), FindOne(tasks, id, u))
  }

  // ----------------------------------------------------- step properties

  predicate AppendedOne(before: seq<AuditLog>, after: seq<AuditLog>, u: User, action: string, id: Id) {
    |after| == |before| + 1 && after[..|before|] == before &&
    after[|before|].userId == u.id && after[|before|].action == action &&
    after[|before|].resource == TaskResource && after[|before|].resourceId == Some(id)
  }

  /** A created task is visible to its creator exactly when the creator has an organization. */
  lemma CreateVisibleIffOrganization(s: TaskStore, dto: CreateTaskDto, u: User, taskId: Id, logId: Id, now: int)
    requires forall i :: 0 <= i < |s.tasks| ==> s.tasks[i].id != taskId
    ensures var (s', r) := CreateStep(s, dto, u, taskId, logId, now);
      && AppendedOne(s.log, s'.log, u, "CREATE", taskId)
      && s'.log[|s.log|].oldValue.None?
      && s'.log[|s.log|].newValue == Some(TaskSnapshot(NewTask(dto, u, taskId, now)))
      && (r.Ok? <==> u.organizationId.Some?)
      && (r.Ok? ==> r.value == NewTask(dto, u, taskId, now) && s'.tasks == s.tasks + [r.value])
  {
    var t := NewTask(dto, u, taskId, now);
    var tasks := s.tasks + [t];
    if u.organizationId.Some? {
      assert InOrgScope(t, u);
      assert forall i :: 0 <= i < |s.tasks| ==> tasks[i].id != taskId;
      assert tasks[|s.tasks|] == t;
      var r := FindOne(tasks, taskId, u);
      assert r.Ok?;
    }
  }

  /** Creating keeps ids unique when the generated id is fresh. */
  lemma CreateKeepsIdsUnique(s: TaskStore, dto: CreateTaskDto, u: User, taskId: Id, logId: Id, now: int)
    requires UniqueIds(s.tasks)
    requires forall i :: 0 <= i < |s.tasks| ==> s.tasks[i].id != taskId
    ensures UniqueIds(CreateStep(s, dto, u, taskId, logId, now).0.tasks)
  {
  }

  /** A refused update changes nothing; an accepted one writes one UPDATE row and touches only the target. */
  lemma UpdateEffect(s: TaskStore, id: Id, dto: UpdateTaskDto, u: User, logId: Id, now: int)
    requires UniqueIds(s.tasks)
    ensures var (s', r) := UpdateStep(s, id, dto, u, logId, now);
      var found := FindOne(s.tasks, id, u);
      && (found.Err? ==> s' == s && r == Err(NotFound(TaskNotFound)))
      && (found.Ok? && CheckUpdatePermission(found.value, u).Fail? ==> s' == s && r == Err(Forbidden(UpdateForbidden)))
      && (found.Ok? && CheckUpdatePermission(found.value, u).Pass? ==>
            AppendedOne(s.log, s'.log, u, "UPDATE", id) &&
            s'.log[|s.log|].oldValue == Some(TaskSnapshot(found.value)) &&
            s'.log[|s.log|].newValue == Some(TaskSnapshot(ApplyUpdate(found.value, dto, now))) &&
            (forall i :: 0 <= i < |s.tasks| && s.tasks[i].id == id ==> s'.tasks[i] == ApplyUpdate(found.value, dto, now)))
      && |s'.tasks| == |s.tasks|
      && (forall i :: 0 <= i < |s.tasks| && s.tasks[i].id != id ==> s'.tasks[i] == s.tasks[i])
      && (forall i :: 0 <= i < |s.tasks| ==>
            s'.tasks[i].id == s.tasks[i].id && s'.tasks[i].organizationId == s.tasks[i].organizationId &&
            s'.tasks[i].createdById == s.tasks[i].createdById)
  {
    var found := FindOne(s.tasks, id, u);
    if found.Ok? && CheckUpdatePermission(found.value, u).Pass? {
      var j :| 0 <= j < |s.tasks| && s.tasks[j] == found.value;
      assert forall i :: 0 <= i < |s.tasks| && s.tasks[i].id == id ==> i == j;
    }
  }

  /** An Owner or Admin always reads back the row it saved. */
  lemma UpdateByManagerReadsBack(s: TaskStore, id: Id, dto: UpdateTaskDto, u: User, logId: Id, now: int)
    requires UniqueIds(s.tasks)
    requires u.role == Some(Owner) || u.role == Some(Admin)
    requires FindOne(s.tasks, id, u).Ok?
    ensures UpdateStep(s, id, dto, u, logId, now).1 == Ok(ApplyUpdate(FindOne(s.tasks, id, u).value, dto, now))
  {
    var t := FindOne(s.tasks, id, u).value;
    var t' := ApplyUpdate(t, dto, now);
    var tasks := Replace(s.tasks, t');
    var j :| 0 <= j < |s.tasks| && s.tasks[j] == t;
    assert tasks[j] == t';
    assert UniqueIds(tasks) by {
      assert forall i :: 0 <= i < |tasks| ==> tasks[i].id == s.tasks[i].id;
    }
    FindOneFindsRow(tasks, j, u);
  }

  /** A Viewer who is only the assignee and reassigns the task saves the change, yet is told "Task not found". */
  lemma ViewerReassignLosesSight(s: TaskStore, id: Id, dto: UpdateTaskDto, u: User, logId: Id, now: int)
    requires UniqueIds(s.tasks)
    requires u.role == Some(Viewer)
    requires FindOne(s.tasks, id, u).Ok? && FindOne(s.tasks, id, u).value.createdById != u.id
    requires dto.assignedToId.Some? && dto.assignedToId != Some(u.id)
    ensures var (s', r) := UpdateStep(s, id, dto, u, logId, now);
      s'.tasks != s.tasks && AppendedOne(s.log, s'.log, u, "UPDATE", id) && r == Err(NotFound(TaskNotFound))
  {
    var t := FindOne(s.tasks, id, u).value;
    var t' := ApplyUpdate(t, dto, now);
    var tasks := Replace(s.tasks, t');
    var j :| 0 <= j < |s.tasks| && s.tasks[j] == t;
    assert tasks[j] == t' && t' != t;
    forall i | 0 <= i < |tasks| ensures !(tasks[i].id == id && InOrgScope(tasks[i], u)) {
      if i != j {
        assert s.tasks[i].id != s.tasks[j].id;
      }
    }
  }

  /** A refused delete changes nothing; an accepted one writes one DELETE row and removes exactly the target. */
  lemma RemoveEffect(s: TaskStore, id: Id, u: User, logId: Id, now: int)
    requires UniqueIds(s.tasks)
    ensures var (s', r) := RemoveStep(s, id, u, logId, now);
      var found := FindOne(s.tasks, id, u);
      && (found.Err? ==> s' == s && r == Fail(NotFound(TaskNotFound)))
      && (found.Ok? && CheckDeletePermission(found.value, u).Fail? ==> s' == s && r == Fail(Forbidden(DeleteForbidden)))
      && (found.Ok? && CheckDeletePermission(found.value, u).Pass? ==>
            r == Pass && AppendedOne(s.log, s'.log, u, "DELETE", id) &&
            s'.log[|s.log|].oldValue == Some(TaskSnapshot(found.value)) && s'.log[|s.log|].newValue.None? &&
            |s'.tasks| + 1 == |s.tasks| && found.value !in s'.tasks &&
            (forall i :: 0 <= i < |s.tasks| && s.tasks[i].id != id ==> s.tasks[i] in s'.tasks))
  {
    var found := FindOne(s.tasks, id, u);
    if found.Ok? {
      var j :| 0 <= j < |s.tasks| && s.tasks[j] == found.value;
      RemoveIdDropsOne(s.tasks, j);
    }
  }

  /** A Viewer can only ever delete a task of its own creation. */
  lemma ViewerDeletesOnlyOwn(s: TaskStore, id: Id, u: User, logId: Id, now: int)
    requires u.role == Some(Viewer)
    requires RemoveStep(s, id, u, logId, now).1.Pass?
    ensures FindOne(s.tasks, id, u).Ok? && FindOne(s.tasks, id, u).value.createdById == u.id
  {
  }

  /** Reordering never writes an audit row and changes nothing but the target's priority and, if that moved, its timestamp. */
  lemma ReorderEffect(s: TaskStore, id: Id, priority: int, u: User, now: int)
    ensures var (s', r) := ReorderStep(s, id, priority, u, now);
      var found := FindOne(s.tasks, id, u);
      && s'.log == s.log
      && (found.Err? ==> s' == s && r == Err(NotFound(TaskNotFound)))
      && (found.Ok? && CheckUpdatePermission(found.value, u).Fail? ==> s' == s && r == Err(Forbidden(UpdateForbidden)))
      && |s'.tasks| == |s.tasks|
      && (forall i :: 0 <= i < |s.tasks| ==>
            s'.tasks[i] == if s.tasks[i].id == id && found.Ok? && CheckUpdatePermission(found.value, u).Pass?
                           then Reprioritize(found.value, priority, now) else s.tasks[i])
  {
    var found := FindOne(s.tasks, id, u);
    if found.Ok? && CheckUpdatePermission(found.value, u).Pass? {
      var t' := Reprioritize(found.value, priority, now);
      var s' := ReorderStep(s, id, priority, u, now).0;
      assert s'.tasks == Replace(s.tasks, t');
      assert t'.id == id;
      forall i | 0 <= i < |s.tasks| ensures s'.tasks[i] == if s.tasks[i].id == id then t' else s.tasks[i] {
      }
    }
  }

  /** Update and reorder keep ids unique. */
  lemma ReplaceKeepsIdsUnique(tasks: seq<Task>, t: Task)
    requires UniqueIds(tasks)
    ensures UniqueIds(Replace(tasks, t))
  {
    var r := Replace(tasks, t);
    assert forall i :: 0 <= i < |tasks| ==> r[i].id == tasks[i].id;
  }

  /** Where keeps ids unique (its result is a subsequence). */
  lemma {:induction false} RemoveKeepsIdsUnique(tasks: seq<Task>, id: Id)
    requires UniqueIds(tasks)
    ensures UniqueIds(RemoveId(tasks, id))
  {
    if tasks != [] {
      RemoveKeepsIdsUnique(tasks[1..], id);
      var rest := RemoveId(tasks[1..], id);
      if tasks[0].id != id {
        assert RemoveId(tasks, id) == [tasks[0]] + rest;
        forall i | 0 <= i < |rest| ensures rest[i].id != tasks[0].id {
          var k :| 0 <= k < |tasks[1..]| && tasks[1..][k] == rest[i];
          assert tasks[k + 1] == rest[i];
        }
      } else {
        assert RemoveId(tasks, id) == rest;
      }
    }
  }

  // ---------------------------------------------------------- the service

  class TasksService {
    var tasks: seq<Task>
    const auditLogRepository: AuditLogs.AuditLogRepository

    /** The tasks table keeps its primary key. */
    ghost predicate Valid()
      reads this
    {
      UniqueIds(tasks)
    }

    function Store(): TaskStore
      reads this, auditLogRepository
    {
      TaskStore(tasks, auditLogRepository.entries)
    }

    constructor (auditLogRepository: AuditLogs.AuditLogRepository)
      ensures Valid() && tasks == [] && this.auditLogRepository == auditLogRepository
    {
      tasks := [];
      this.auditLogRepository := auditLogRepository;
    }

    /** `logAudit`. */
    method LogAudit(userId: Id, action: string, taskId: Id, oldValue: Option<Snapshot>, newValue: Option<Snapshot>,
                    logId: Id, now: int)
      modifies auditLogRepository
      ensures auditLogRepository.entries ==
        old(auditLogRepository.entries) + [TaskAudit(logId, userId, action, taskId, oldValue, newValue, now)]
    {
      auditLogRepository.Save(TaskAudit(logId, userId, action, taskId, oldValue, newValue, now));
    }

    method Create(dto: CreateTaskDto, u: User, taskId: Id, logId: Id, now: int) returns (r: Result<Task>)
      requires Valid()
      requires forall i :: 0 <= i < |tasks| ==> tasks[i].id != taskId
      modifies this, auditLogRepository
      ensures Valid()
      ensures (Store(), r) == CreateStep(old(Store()), dto, u, taskId, logId, now)
    {
      var task := NewTask(dto, u, taskId, now);
      tasks := tasks + [task];
      LogAudit(u.id, "CREATE", taskId, None, Some(TaskSnapshot(task)), logId, now);
      r := FindOne(tasks, taskId, u);
    }

    method Update(id: Id, dto: UpdateTaskDto, u: User, logId: Id, now: int) returns (r: Result<Task>)
      requires Valid()
      modifies this, auditLogRepository
      ensures Valid()
      ensures (Store(), r) == UpdateStep(old(Store()), id, dto, u, logId, now)
    {
      var found := FindOne(tasks, id, u);
      if found.Err? {
        return Err(found.error);
      }
      var task := found.value;
      var check := CheckUpdatePermission(task, u);
      if check.Fail? {
        return Err(check.error);
      }
      var updated := ApplyUpdate(task, dto, now);
      ReplaceKeepsIdsUnique(tasks, updated);
      tasks := Replace(tasks, updated);
      LogAudit(u.id, "UPDATE", id, Some(TaskSnapshot(task)), Some(TaskSnapshot(updated)), logId, now);
      r := FindOne(tasks, id, u);
    }

    method Remove(id: Id, u: User, logId: Id, now: int) returns (r: Outcome)
      requires Valid()
      modifies this, auditLogRepository
      ensures Valid()
      ensures (Store(), r) == RemoveStep(old(Store()), id, u, logId, now)
    {
      var found := FindOne(tasks, id, u);
      if found.Err? {
        return Fail(found.error);
      }
      var task := found.value;
      var check := CheckDeletePermission(task, u);
      if check.Fail? {
        return Fail(check.error);
      }
      LogAudit(u.id, "DELETE", id, Some(TaskSnapshot(task)), None, logId, now);
      RemoveKeepsIdsUnique(tasks, id);
      tasks := RemoveId(tasks, id);
      r := Pass;
    }

    method Reorder(id: Id, priority: int, u: User, now: int) returns (r: Result<Task>)
      requires Valid()
      modifies this
      ensures Valid()
      ensures (Store(), r) == ReorderStep(old(Store()), id, priority, u, now)
    {
      var found := FindOne(tasks, id, u);
      if found.Err? {
        return Err(found.error);
      }
      var task := found.value;
      var check := CheckUpdatePermission(task, u);
      if check.Fail? {
        return Err(check.error);
      }
      var reordered := Reprioritize(task, priority, now);
      ReplaceKeepsIdsUnique(tasks, reordered);
      tasks := Replace(tasks, reordered);
      r := FindOne(tasks, id, u);
    }
  }
}
