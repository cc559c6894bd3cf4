/**
 * The dashboard's task store: the NgRx state held by the browser and the
 * reducer that answers every `Tasks` action with a new state.
 */
module TasksStore {
  import opened Common
  import opened Entities
  import opened Query

  /** The keys a `TaskFilterDto` object may carry. */
  datatype FilterField =
    | StatusFilter | CategoryFilter | AssignedToFilter | CreatedByFilter | SearchFilter
    | SortByFilter | SortOrderFilter | PageFilter | LimitFilter

  /** A filter object: the keys it has, each with its (rendered) value. */
  type Filters = map<FilterField, string>

  datatype TasksState = TasksState(
    tasks: seq<Task>,
    selectedTask: Option<Task>,
    filters: Filters,
    total: int,
    page: int,
    limit: int,
    totalPages: int,
    loading: bool,
    error: Option<string>)

  /** The store before any action: no tasks, page 1 of size 10, no filters. */
  const InitialTasksState := TasksState([], None, map[], 0, 1, 10, 0, false, None)

  datatype TasksAction =
    | LoadTasks(requested: Option<Filters>)
    | LoadTasksSuccess(rows: seq<Task>, total: int, page: int, limit: int, totalPages: int)
    | LoadTasksFailure(error: string)
    | LoadTask(id: Id)
    | LoadTaskSuccess(task: Task)
    | LoadTaskFailure(error: string)
    | CreateTask(createDto: CreateTaskDto)
    | CreateTaskSuccess(task: Task)
    | CreateTaskFailure(error: string)
    | UpdateTask(id: Id, updateDto: UpdateTaskDto)
    | UpdateTaskSuccess(task: Task)
    | UpdateTaskFailure(error: string)
    | DeleteTask(id: Id)
    | DeleteTaskSuccess(id: Id)
    | DeleteTaskFailure(error: string)
    | ReorderTask(id: Id, priority: int)
    | ReorderTaskSuccess(task: Task)
    | ReorderTaskFailure(error: string)
    | SetFilters(update: Filters)
    | ClearFilters
    | SelectTask(selection: Option<Task>)
    | ClearError

  /** Actions whose handler reports a failed request. */
  predicate IsFailure(a: TasksAction) {
    a.LoadTasksFailure? || a.LoadTaskFailure? || a.CreateTaskFailure? || a.UpdateTaskFailure? || a.DeleteTaskFailure?
  }

  /** `tasks.map(t => t.id === task.id ? task : t)`. */
  function ReplaceById(tasks: seq<Task>, task: Task): seq<Task> {
    Map(tasks, (t: Task) => if t.id == task.id then task else t)
  }

  /** `tasks.filter(t => t.id !== id)`. */
  function WithoutId(tasks: seq<Task>, id: Id): seq<Task> {
    Where(tasks, (t: Task) => t.id != id)
  }

  /** `{ ...prior, ...update }`: the keys of `update` win. */
  function Merge(prior: Filters, update: Filters): (r: Filters)
    ensures r.Keys == prior.Keys + update.Keys
    ensures forall k :: k in update ==> r[k] == update[k]
    ensures forall k :: k in prior && k !in update ==> r[k] == prior[k]
  {
    prior + update
  }

  /** `selectedTask?.id === id`: false when nothing is selected. */
  predicate SelectedHasId(selected: Option<Task>, id: Id) {
    selected.Some? && selected.value.id == id
  }

  /**
   * The reducer. Actions without a handler ('Reorder Task', 'Reorder Task
   * Failure') return the state unchanged.
   */
  function Reduce(s: TasksState, a: TasksAction): (r: TasksState)
    ensures r.tasks != s.tasks ==>
      a.LoadTasksSuccess? || a.CreateTaskSuccess? || a.UpdateTaskSuccess? || a.DeleteTaskSuccess? || a.ReorderTaskSuccess?
    ensures r.filters != s.filters ==> a.LoadTasks? || a.SetFilters? || a.ClearFilters?
    ensures r.total != s.total ==> a.LoadTasksSuccess? || a.CreateTaskSuccess? || a.DeleteTaskSuccess?
    ensures r.error.Some? && r.error != s.error ==> IsFailure(a)
  {
    match a
    case LoadTasks(requested) =>
      s.(filters := if requested.Some? then requested.value else s.filters, loading := true, error := None)
    case LoadTasksSuccess(rows, total, page, limit, totalPages) =>
      s.(tasks := rows, total := total, page := page, limit := limit, totalPages := totalPages, loading := false)
    case LoadTasksFailure(error) => s.(loading := false, error := Some(error))
    case LoadTask(_) => s.(loading := true)
    case LoadTaskSuccess(task) => s.(selectedTask := Some(task), loading := false)
    case LoadTaskFailure(error) => s.(loading := false, error := Some(error))
    case CreateTask(_) => s.(loading := true, error := None)
    case CreateTaskSuccess(task) => s.(tasks := [task] + s.tasks, total := s.total + 1, loading := false)
    case CreateTaskFailure(error) => s.(loading := false, error := Some(error))
    case UpdateTask(_, _) => s.(loading := true, error := None)
    case UpdateTaskSuccess(task) =>
      s.(tasks := ReplaceById(s.tasks, task),
         selectedTask := if SelectedHasId(s.selectedTask, task.id) then Some(task) else s.selectedTask,
         loading := false)
    case UpdateTaskFailure(error) => s.(loading := false, error := Some(error))
    case DeleteTask(_) => s.(loading := true, error := None)
    case DeleteTaskSuccess(id) =>
      s.(tasks := WithoutId(s.tasks, id),
         total := s.total - 1,
         selectedTask := if SelectedHasId(s.selectedTask, id) then None else s.selectedTask,
         loading := false)
    case DeleteTaskFailure(error) => s.(loading := false, error := Some(error))
    case ReorderTask(_, _) => s
    case ReorderTaskSuccess(task) => s.(tasks := ReplaceById(s.tasks, task))
    case ReorderTaskFailure(_) => s
    case SetFilters(update) => s.(filters := Merge(s.filters, update))
    case ClearFilters => s.(filters := map[])
    case SelectTask(selection) => s.(selectedTask := selection)
    case ClearError => s.(error := None)
  }

  /** The state after a sequence of actions, dispatched in order. */
  function ReduceAll(s: TasksState, actions: seq<TasksAction>): TasksState
    decreases |actions|
  {
    if actions == [] then s else ReduceAll(Reduce(s, actions[0]), actions[1..])
  }

  /** A created task goes first, the old list follows in order, and total grows by one. */
  lemma CreateSuccessPrepends(s: TasksState, task: Task)
    ensures var r := Reduce(s, CreateTaskSuccess(task));
      r.tasks[0] == task && r.tasks[1..] == s.tasks && r.total == s.total + 1 && !r.loading
      && r.selectedTask == s.selectedTask && r.filters == s.filters && r.error == s.error
  {
  }

  /** Replacing by id keeps the length and swaps in `task` exactly where the id matches. */
  lemma ReplaceByIdEffect(tasks: seq<Task>, task: Task)
    ensures |ReplaceById(tasks, task)| == |tasks|
    ensures forall i :: 0 <= i < |tasks| && tasks[i].id == task.id ==> ReplaceById(tasks, task)[i] == task
    ensures forall i :: 0 <= i < |tasks| && tasks[i].id != task.id ==> ReplaceById(tasks, task)[i] == tasks[i]
  {
  }

  /** updateTaskSuccess replaces the matching entries and follows the selection. */
  lemma UpdateSuccessEffect(s: TasksState, task: Task)
    ensures var r := Reduce(s, UpdateTaskSuccess(task));
      |r.tasks| == |s.tasks|
      && (forall i :: 0 <= i < |s.tasks| ==> r.tasks[i] == if s.tasks[i].id == task.id then task else s.tasks[i])
      && (SelectedHasId(s.selectedTask, task.id) ==> r.selectedTask == Some(task))
      && (!SelectedHasId(s.selectedTask, task.id) ==> r.selectedTask == s.selectedTask)
      && r.total == s.total && !r.loading && r.error == s.error
  {
    ReplaceByIdEffect(s.tasks, task);
  }

  /** reorderTaskSuccess replaces the matching entries and touches nothing else, not even `loading`. */
  lemma ReorderSuccessEffect(s: TasksState, task: Task)
    ensures var r := Reduce(s, ReorderTaskSuccess(task));
      |r.tasks| == |s.tasks|
      && (forall i :: 0 <= i < |s.tasks| ==> r.tasks[i] == if s.tasks[i].id == task.id then task else s.tasks[i])
      && r == s.(tasks := r.tasks)
  {
    ReplaceByIdEffect(s.tasks, task);
  }

  /** The request that starts a reorder, and its failure, have no handler: the state stays as it was. */
  lemma ReorderRequestIgnored(s: TasksState, id: Id, priority: int, error: string)
    ensures Reduce(s, ReorderTask(id, priority)) == s
    ensures Reduce(s, ReorderTaskFailure(error)) == s
  {
  }

  /** After a delete no task carries that id, the others keep their order, and the selection is dropped if it had it. */
  lemma DeleteSuccessEffect(s: TasksState, id: Id)
    ensures var r := Reduce(s, DeleteTaskSuccess(id));
      (forall i :: 0 <= i < |r.tasks| ==> r.tasks[i].id != id)
      && (forall i :: 0 <= i < |s.tasks| && s.tasks[i].id != id ==> s.tasks[i] in r.tasks)
      && SubsequenceOf(r.tasks, s.tasks)
      && r.total == s.total - 1
      && (SelectedHasId(s.selectedTask, id) ==> r.selectedTask == None)
      && (!SelectedHasId(s.selectedTask, id) ==> r.selectedTask == s.selectedTask)
  {
  }

  /** total is decremented even when no listed task had the id. */
  lemma DeleteAbsentStillDecrements(s: TasksState, id: Id)
    requires forall i :: 0 <= i < |s.tasks| ==> s.tasks[i].id != id
    ensures Reduce(s, DeleteTaskSuccess(id)).tasks == s.tasks
    ensures Reduce(s, DeleteTaskSuccess(id)).total == s.total - 1
  {
    WhereKeepsAll(s.tasks, (t: Task) => t.id != id);
  }

  /** A filter that every element passes keeps the sequence as it is. */
  lemma {:induction false} WhereKeepsAll<T>(s: seq<T>, p: T -> bool)
    requires forall i :: 0 <= i < |s| ==> p(s[i])
    ensures Where(s, p) == s
    decreases |s|
  {
    if s != [] {
      WhereKeepsAll(s[1..], p);
    }
  }

  /** setFilters merges with the new keys winning; clearFilters empties the filters. */
  lemma FilterEffects(s: TasksState, update: Filters)
    ensures var r := Reduce(s, SetFilters(update));
      r.filters.Keys == s.filters.Keys + update.Keys
      && (forall k :: k in update ==> r.filters[k] == update[k])
      && (forall k :: k in s.filters && k !in update ==> r.filters[k] == s.filters[k])
      && r == s.(filters := r.filters)
    ensures Reduce(s, ClearFilters).filters == map[]
    ensures Reduce(s, ClearFilters) == s.(filters := map[])
  {
  }

  /** Every failure stops loading and records its message; tasks, total, filters and selection are kept. */
  lemma FailureEffect(s: TasksState, a: TasksAction)
    requires IsFailure(a)
    ensures var r := Reduce(s, a);
      !r.loading && r.error == Some(a.error)
      && r.tasks == s.tasks && r.total == s.total && r.filters == s.filters && r.selectedTask == s.selectedTask
  {
  }

  /** loadTasks keeps the old filters when none are given, and starts loading with the error cleared. */
  lemma LoadTasksEffect(s: TasksState, requested: Option<Filters>)
    ensures var r := Reduce(s, LoadTasks(requested));
      r.loading && r.error == None
      && (requested == None ==> r.filters == s.filters)
      && (requested.Some? ==> r.filters == requested.value)
      && r.tasks == s.tasks && r.total == s.total
  {
  }

  /** loadTask starts loading but, unlike the other requests, leaves an earlier error in place. */
  lemma LoadTaskKeepsError(s: TasksState, id: Id)
    ensures Reduce(s, LoadTask(id)) == s.(loading := true)
  {
  }

  /** Actions that only start a request or report a failure never change the task list. */
  predicate IsRequestOrFailure(a: TasksAction) {
    IsFailure(a) || a.LoadTask? || a.CreateTask? || a.UpdateTask? || a.DeleteTask? || a.ReorderTask? || a.ReorderTaskFailure?
  }

  lemma {:induction false} RequestsAndFailuresKeepTasks(s: TasksState, actions: seq<TasksAction>)
    requires forall i :: 0 <= i < |actions| ==> IsRequestOrFailure(actions[i])
    ensures ReduceAll(s, actions).tasks == s.tasks
    ensures ReduceAll(s, actions).total == s.total
    decreases |actions|
  {
    if actions != [] {
      RequestsAndFailuresKeepTasks(Reduce(s, actions[0]), actions[1..]);
    }
  }
}
