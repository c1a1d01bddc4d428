/** The records the client receives from the REST API, and the list operations
    that every page applies to its local copy of the task collection. */
module Tasks {
  import opened Common
  import opened Seqs

  /** A user as listed by `GET /users`. */
  datatype User = User(id: int, fullName: string)

  /** A task as listed by `GET /tasks`. Every property except `id` and `title` may be
      missing from a record (`undefined` or `null`), which `None` stands for. */
  datatype Task = Task(
    id: int,
    title: string,
    description: Option<string>,
    priority: Option<string>,
    status: Option<string>,
    assignee: Option<User>,
    boardId: Option<int>,
    boardName: Option<string>)

  /** The `assigneeId` a form holds: the empty string `''` or the id of a listed user. */
  datatype AssigneeRef = NoAssignee | AssigneeId(id: int)

  /** The predicate `u => u.id === id`. */
  function HasUserId(id: int): User -> bool {
    (u: User) => u.id == id
  }

  /** The predicate `task => task.status === status`. */
  function HasStatus(status: string): Task -> bool {
    (t: Task) => t.status == Some(status)
  }

  /** The predicate `task => task.boardName === name`. */
  function OnBoard(name: string): Task -> bool {
    (t: Task) => t.boardName == Some(name)
  }

  /** `users.find(u => u.id === assigneeId)`: the first listed user whose id is the form's
      `assigneeId`; never a user when the form holds `''`, since `''` equals no numeric id. */
  function FindUser(users: seq<User>, ref: AssigneeRef): (r: Option<User>)
    ensures ref.NoAssignee? ==> r.None?
    ensures r.Some? ==> r.value in users && ref == AssigneeId(r.value.id)
    ensures ref.AssigneeId? && r.None? ==> forall i :: 0 <= i < |users| ==> users[i].id != ref.id
  {
    match ref
    case NoAssignee => None
    case AssigneeId(id) => Find(users, HasUserId(id))
  }

  /** The user `FindUser` returns is the first one with that id. */
  lemma {:induction false} FindUserFirst(users: seq<User>, id: int, i: nat)
    requires i < |users| && users[i].id == id
    requires forall j :: 0 <= j < i ==> users[j].id != id
    ensures FindUser(users, AssigneeId(id)) == Some(users[i])
  {
    FindIsFirst(users, HasUserId(id), i);
  }

  /** `tasks.map(task => task.id === id ? f(task) : task)`. */
  function MapById(tasks: seq<Task>, id: int, f: Task -> Task): (r: seq<Task>)
    ensures |r| == |tasks|
    ensures forall i :: 0 <= i < |tasks| && tasks[i].id != id ==> r[i] == tasks[i]
    ensures forall i :: 0 <= i < |tasks| && tasks[i].id == id ==> r[i] == f(tasks[i])
  {
    seq(|tasks|, i requires 0 <= i < |tasks| => if tasks[i].id == id then f(tasks[i]) else tasks[i])
  }

  /** The ids of a task list, in order. */
  function Ids(tasks: seq<Task>): (r: seq<int>)
    ensures |r| == |tasks|
    ensures forall i :: 0 <= i < |tasks| ==> r[i] == tasks[i].id
  {
    seq(|tasks|, i requires 0 <= i < |tasks| => tasks[i].id)
  }

  /** A by-id map whose transformation keeps the id keeps every id of the list in place. */
  lemma MapByIdKeepsIds(tasks: seq<Task>, id: int, f: Task -> Task)
    requires forall i :: 0 <= i < |tasks| && tasks[i].id == id ==> f(tasks[i]).id == id
    ensures Ids(MapById(tasks, id, f)) == Ids(tasks)
  {
  }

  /** A by-id map over a list in which no task has that id changes nothing. */
  lemma MapByIdAbsent(tasks: seq<Task>, id: int, f: Task -> Task)
    requires forall i :: 0 <= i < |tasks| ==> tasks[i].id != id
    ensures MapById(tasks, id, f) == tasks
  {
  }
}
