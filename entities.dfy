// Record shapes of the persisted entities and of the task DTOs, with the
// defaults the entity classes declare. Timestamps are integers.
module Entities {
  import opened Common
  import opened Roles
  import opened Query

  datatype TaskStatus = Todo | InProgress | Completed | Archived
  datatype TaskCategory = Work | Personal | Urgent | Other

  /** Account status; the `status` column defaults to Pending. */
  datatype UserStatus = Pending | Active | Rejected

  function TaskStatusName(s: TaskStatus): string {
    match s
    case Todo => "todo"
    case InProgress => "in_progress"
    case Completed => "completed"
    case Archived => "archived"
  }

  function TaskCategoryName(c: TaskCategory): string {
    match c
    case Work => "work"
    case Personal => "personal"
    case Urgent => "urgent"
    case Other => "other"
  }

  /** A stored password: the bcrypt digest of a password at a cost factor. */
  datatype PasswordHash = Bcrypt(digestOf: string, rounds: nat)

  /** A `users` row. `role` and `organizationId` are nullable columns. */
  datatype User = User(
    id: Id,
    email: string,
    password: PasswordHash,
    firstName: Option<string>,
    lastName: Option<string>,
    role: Option<Role>,
    status: UserStatus,
    organizationId: Option<Id>,
    createdAt: int)

  /** `findOne({ where: { id } })` on the `users` table: the first row with that id. */
  function UserById(users: seq<User>, id: Id): (r: Option<User>)
    ensures r.Some? ==> r.value in users && r.value.id == id
    ensures r.None? <==> forall i :: 0 <= i < |users| ==> users[i].id != id
  {
    FindFirst(users, (u: User) => u.id == id)
  }

  /** An `organizations` row. */
  datatype Organization = Organization(id: Id, name: string, parentId: Option<Id>)

  /** A `tasks` row (the shape of `ITask`). */
  datatype Task = Task(
    id: Id,
    title: string,
    description: Option<string>,
    status: TaskStatus,
    category: TaskCategory,
    priority: int,
    dueDate: Option<int>,
    createdById: Id,
    assignedToId: Option<Id>,
    organizationId: Option<Id>,
    createdAt: int,
    updatedAt: int)

  /** The JSON stored in `old_value` / `new_value`. */
  datatype Snapshot = TaskSnapshot(task: Task) | Fields(values: map<string, string>)

  /** An `audit_logs` row. */
  datatype AuditLog = AuditLog(
    id: Id,
    userId: Id,
    action: string,
    resource: string,
    resourceId: Option<Id>,
    oldValue: Option<Snapshot>,
    newValue: Option<Snapshot>,
    ipAddress: Option<string>,
    userAgent: Option<string>,
    createdAt: int)

  /** Body of POST /tasks. */
  datatype CreateTaskDto = CreateTaskDto(
    title: string,
    description: Option<string>,
    status: Option<TaskStatus>,
    category: Option<TaskCategory>,
    priority: Option<int>,
    dueDate: Option<int>,
    assignedToId: Option<Id>)

  /** What the class-validator decorators of CreateTaskDto admit: a non-empty title, priority 0..10. */
  predicate ValidCreateTaskDto(d: CreateTaskDto) {
    d.title != "" && (d.priority.Some? ==> 0 <= d.priority.value <= 10)
  }

  /** Body of PUT /tasks/:id: every field optional. */
  datatype UpdateTaskDto = UpdateTaskDto(
    title: Option<string>,
    description: Option<string>,
    status: Option<TaskStatus>,
    category: Option<TaskCategory>,
    priority: Option<int>,
    dueDate: Option<int>,
    assignedToId: Option<Id>)

  /** The task-status strings are distinct. */
  lemma TaskStatusNamesDistinct(a: TaskStatus, b: TaskStatus)
    ensures TaskStatusName(a) == TaskStatusName(b) ==> a == b
  {
  }
}
