/** Read-only projections of the dashboard's task store. */
module TasksSelectors {
  import opened Entities
  import opened Query
  import opened TasksStore

  /** `selectTasksByStatus(status)`: the tasks with that status, in list order. */
  function ByStatus(tasks: seq<Task>, status: TaskStatus): seq<Task> {
    Where(tasks, (t: Task) => t.status == status)
  }

  /** The three column selectors, each written with its own filter. */
  function TodoTasks(tasks: seq<Task>): seq<Task> {
    Where(tasks, (t: Task) => t.status == Todo)
  }

  function InProgressTasks(tasks: seq<Task>): seq<Task> {
    Where(tasks, (t: Task) => t.status == InProgress)
  }

  function CompletedTasks(tasks: seq<Task>): seq<Task> {
    Where(tasks, (t: Task) => t.status == Completed)
  }

  /** Number of tasks with a given status. */
  function CountStatus(tasks: seq<Task>, status: TaskStatus): (n: nat)
    ensures n <= |tasks|
    decreases |tasks|
  {
    if tasks == [] then 0
    else (if tasks[0].status == status then 1 else 0) + CountStatus(tasks[1..], status)
  }

  datatype TaskStats = TaskStats(total: nat, todo: nat, inProgress: nat, completed: nat)

  /** `selectTaskStats`. */
  function Stats(tasks: seq<Task>): TaskStats {
    TaskStats(|tasks|, |TodoTasks(tasks)|, |InProgressTasks(tasks)|, |CompletedTasks(tasks)|)
  }

  datatype Pagination = Pagination(total: int, page: int, limit: int, totalPages: int)

  /** `selectTasksPagination`. */
  function SelectPagination(s: TasksState): Pagination {
    Pagination(s.total, s.page, s.limit, s.totalPages)
  }

  /** The length of a status filter is the count of that status. */
  lemma {:induction false} ByStatusCount(tasks: seq<Task>, status: TaskStatus)
    ensures |ByStatus(tasks, status)| == CountStatus(tasks, status)
    decreases |tasks|
  {
    if tasks != [] {
      ByStatusCount(tasks[1..], status);
    }
  }

  /** selectTasksByStatus returns exactly the tasks with that status, in their original order. */
  lemma ByStatusExact(tasks: seq<Task>, status: TaskStatus)
    ensures forall i :: 0 <= i < |ByStatus(tasks, status)| ==> ByStatus(tasks, status)[i].status == status
    ensures forall i :: 0 <= i < |tasks| && tasks[i].status == status ==> tasks[i] in ByStatus(tasks, status)
    ensures SubsequenceOf(ByStatus(tasks, status), tasks)
    ensures |ByStatus(tasks, status)| == CountStatus(tasks, status)
  {
    ByStatusCount(tasks, status);
  }

  /** The column selectors agree with selectTasksByStatus. */
  lemma {:induction false} ColumnsAreByStatus(tasks: seq<Task>)
    ensures TodoTasks(tasks) == ByStatus(tasks, Todo)
    ensures InProgressTasks(tasks) == ByStatus(tasks, InProgress)
    ensures CompletedTasks(tasks) == ByStatus(tasks, Completed)
    decreases |tasks|
  {
    if tasks != [] {
      ColumnsAreByStatus(tasks[1..]);
    }
  }

  /** Every task has exactly one of the four statuses. */
  lemma {:induction false} CountsPartition(tasks: seq<Task>)
    ensures CountStatus(tasks, Todo) + CountStatus(tasks, InProgress) + CountStatus(tasks, Completed)
            + CountStatus(tasks, Archived) == |tasks|
    decreases |tasks|
  {
    if tasks != [] {
      CountsPartition(tasks[1..]);
    }
  }

  lemma {:induction false} NoArchivedCount(tasks: seq<Task>)
    ensures CountStatus(tasks, Archived) == 0 <==> forall i :: 0 <= i < |tasks| ==> tasks[i].status != Archived
    decreases |tasks|
  {
    if tasks != [] {
      NoArchivedCount(tasks[1..]);
      assert forall i :: 1 <= i < |tasks| ==> tasks[i] == tasks[1..][i - 1];
    }
  }

  /**
   * The stats total is the list length; the three columns never add up to
   * more, and add up to exactly that many iff no task is Archived.
   */
  lemma StatsPartition(tasks: seq<Task>)
    ensures Stats(tasks).total == |tasks|
    ensures Stats(tasks).todo + Stats(tasks).inProgress + Stats(tasks).completed <= Stats(tasks).total
    ensures Stats(tasks).todo + Stats(tasks).inProgress + Stats(tasks).completed == Stats(tasks).total
            <==> forall i :: 0 <= i < |tasks| ==> tasks[i].status != Archived
  {
    ColumnsAreByStatus(tasks);
    ByStatusCount(tasks, Todo);
    ByStatusCount(tasks, InProgress);
    ByStatusCount(tasks, Completed);
    CountsPartition(tasks);
    NoArchivedCount(tasks);
  }

  /** Pagination shown after a load is the one the server answered with. */
  lemma PaginationAfterLoad(s: TasksState, rows: seq<Task>, total: int, page: int, limit: int, totalPages: int)
    ensures SelectPagination(Reduce(s, LoadTasksSuccess(rows, total, page, limit, totalPages)))
            == Pagination(total, page, limit, totalPages)
  {
  }

  /**
   * Only the server moves the pagination: a load replaces it, a created task
   * adds one to the total and a deleted one takes one away (page and page count
   * stay as they were), and every other action, filter changes included, leaves it alone.
   */
  lemma PaginationMovesOnlyWithServer(s: TasksState, a: TasksAction)
    ensures a.LoadTasksSuccess? ==> SelectPagination(Reduce(s, a)) == Pagination(a.total, a.page, a.limit, a.totalPages)
    ensures a.CreateTaskSuccess? ==> SelectPagination(Reduce(s, a)) == SelectPagination(s).(total := s.total + 1)
    ensures a.DeleteTaskSuccess? ==> SelectPagination(Reduce(s, a)) == SelectPagination(s).(total := s.total - 1)
    ensures !a.LoadTasksSuccess? && !a.CreateTaskSuccess? && !a.DeleteTaskSuccess? ==>
      SelectPagination(Reduce(s, a)) == SelectPagination(s)
  {
  }
}
