/** The Boards page: the list of boards derived from the task list, and the modal that
    creates a task on an existing board or edits the selected task. */
module Boards {
  import opened Common
  import opened Seqs
  import opened Tasks
  import opened Forms

  /** One entry of `uniqueBoards`. */
  datatype Board = Board(boardName: string, boardId: int)

  /** `task.boardName && task.boardId`: the task names a board the list shows. */
  predicate Listed(t: Task) {
    TruthyText(t.boardName) && TruthyId(t.boardId)
  }

  /** The task is listed under board id `id`. */
  predicate ListsId(t: Task, id: int) {
    Listed(t) && t.boardId.value == id
  }

  /** `{ boardName: task.boardName, boardId: task.boardId }`. */
  function BoardOf(t: Task): (b: Board)
    requires Listed(t)
    ensures ListsId(t, b.boardId)
  {
    Board(t.boardName.value, t.boardId.value)
  }

  /** Some entry of `bs` has board id `id`. */
  predicate HasBoard(bs: seq<Board>, id: int) {
    exists k :: 0 <= k < |bs| && bs[k].boardId == id
  }

  /** Some task of `tasks` is listed under board id `id`. */
  predicate HasListed(tasks: seq<Task>, id: int) {
    exists j :: 0 <= j < |tasks| && ListsId(tasks[j], id)
  }

  /** No two entries share a board id. */
  predicate DistinctIds(bs: seq<Board>) {
    forall a, b :: 0 <= a < b < |bs| ==> bs[a].boardId != bs[b].boardId
  }

  /** The position of the entry with board id `id`, or `|bs|` when there is none. */
  function IndexOfId(bs: seq<Board>, id: int): (r: nat)
    ensures r <= |bs|
    ensures r < |bs| ==> bs[r].boardId == id
    ensures forall j :: 0 <= j < r ==> bs[j].boardId != id
  {
    if bs == [] then 0
    else if bs[0].boardId == id then 0
    else 1 + IndexOfId(bs[1..], id)
  }

  /** `map.set(b.boardId, b)`, seen through `Array.from(map.values())`: an existing key
      keeps its place and takes the new value, a new key goes last. */
  function MapSet(bs: seq<Board>, b: Board): seq<Board> {
    var k := IndexOfId(bs, b.boardId);
    if k < |bs| then bs[k := b] else bs + [b]
  }

  /** The reference definition of `uniqueBoards`: the listed tasks, one `MapSet` after
      another, in list order. */
  function Dedup(tasks: seq<Task>): seq<Board>
    decreases |tasks|
  {
    if tasks == [] then []
    else
      var prev := Dedup(tasks[..|tasks| - 1]);
      var t := tasks[|tasks| - 1];
      if Listed(t) then MapSet(prev, BoardOf(t)) else prev
  }

  /** The index of the first task listed under `id`, or `|s|` when there is none. */
  function FirstListed(s: seq<Task>, id: int): (r: nat)
    ensures r <= |s|
    ensures r < |s| ==> ListsId(s[r], id)
    ensures forall j :: 0 <= j < r ==> !ListsId(s[j], id)
    decreases |s|
  {
    if s == [] then 0
    else
      var p := FirstListed(s[..|s| - 1], id);
      if p < |s| - 1 then p
      else if ListsId(s[|s| - 1], id) then |s| - 1
      else |s|
  }

  /** The index of the last task listed under `id`, or `|s|` when there is none. */
  function LastListed(s: seq<Task>, id: int): (r: nat)
    ensures r <= |s|
    ensures r < |s| ==> ListsId(s[r], id)
    ensures r < |s| ==> forall j :: r < j < |s| ==> !ListsId(s[j], id)
    ensures r == |s| ==> forall j :: 0 <= j < |s| ==> !ListsId(s[j], id)
    decreases |s|
  {
    if s == [] then 0
    else if ListsId(s[|s| - 1], id) then |s| - 1
    else
      var p := LastListed(s[..|s| - 1], id);
      if p < |s| - 1 then p else |s|
  }

  lemma MapSetDistinct(bs: seq<Board>, b: Board)
    requires DistinctIds(bs)
    ensures DistinctIds(MapSet(bs, b))
  {
  }

  lemma MapSetHasBoard(bs: seq<Board>, b: Board, id: int)
    ensures HasBoard(MapSet(bs, b), id) <==> HasBoard(bs, id) || id == b.boardId
  {
    var k := IndexOfId(bs, b.boardId);
    var r := MapSet(bs, b);
    if k < |bs| {
      if HasBoard(bs, id) {
        var j :| 0 <= j < |bs| && bs[j].boardId == id;
        assert r[j].boardId == id;
      }
      if id == b.boardId {
        assert r[k].boardId == id;
      }
    } else {
      if HasBoard(bs, id) {
        var j :| 0 <= j < |bs| && bs[j].boardId == id;
        assert r[j].boardId == id;
      }
      assert r[|bs|] == b;
    }
  }

  /** Extending a list by one task keeps every earlier listing. */
  lemma HasListedExtend(s: seq<Task>, id: int)
    requires s != []
    ensures HasListed(s, id) <==> HasListed(s[..|s| - 1], id) || ListsId(s[|s| - 1], id)
  {
    var p := s[..|s| - 1];
    if HasListed(s, id) {
      var j :| 0 <= j < |s| && ListsId(s[j], id);
      if j < |s| - 1 {
        assert ListsId(p[j], id);
      }
    }
    if HasListed(p, id) {
      var j :| 0 <= j < |p| && ListsId(p[j], id);
      assert ListsId(s[j], id);
    }
  }

  /** The board list contains no two entries with the same board id. */
  lemma {:induction false} DedupDistinct(tasks: seq<Task>)
    ensures DistinctIds(Dedup(tasks))
    decreases |tasks|
  {
    if tasks != [] {
      var t := tasks[|tasks| - 1];
      DedupDistinct(tasks[..|tasks| - 1]);
      if Listed(t) {
        MapSetDistinct(Dedup(tasks[..|tasks| - 1]), BoardOf(t));
      }
    }
  }

  /** A board id is in the board list iff some task has both a truthy board name and
      that truthy board id; tasks missing either are skipped. */
  lemma {:induction false} DedupIds(tasks: seq<Task>, id: int)
    ensures HasBoard(Dedup(tasks), id) <==> HasListed(tasks, id)
    decreases |tasks|
  {
    if tasks != [] {
      var p := tasks[..|tasks| - 1];
      var t := tasks[|tasks| - 1];
      DedupIds(p, id);
      HasListedExtend(tasks, id);
      if Listed(t) {
        MapSetHasBoard(Dedup(p), BoardOf(t), id);
      }
    }
  }

  /** Listing a task after a prefix that already lists `id` does not move the first listing. */
  lemma FirstListedExtend(s: seq<Task>, id: int)
    requires s != [] && FirstListed(s[..|s| - 1], id) < |s| - 1
    ensures FirstListed(s, id) == FirstListed(s[..|s| - 1], id)
  {
  }

  lemma FirstListedIsPresent(s: seq<Task>, id: int)
    ensures FirstListed(s, id) < |s| <==> HasListed(s, id)
  {
    if HasListed(s, id) {
      var j :| 0 <= j < |s| && ListsId(s[j], id);
    }
  }

  /** Boards appear in the order in which their ids are first listed. */
  lemma {:induction false} DedupFirstOrder(tasks: seq<Task>)
    ensures forall k :: 0 <= k < |Dedup(tasks)| ==> FirstListed(tasks, Dedup(tasks)[k].boardId) < |tasks|
    ensures forall a, b :: 0 <= a < b < |Dedup(tasks)| ==>
      FirstListed(tasks, Dedup(tasks)[a].boardId) < FirstListed(tasks, Dedup(tasks)[b].boardId)
    decreases |tasks|
  {
    if tasks != [] {
      var p := tasks[..|tasks| - 1];
      var t := tasks[|tasks| - 1];
      var prev := Dedup(p);
      var d := Dedup(tasks);
      DedupFirstOrder(p);
      forall k | 0 <= k < |prev|
        ensures FirstListed(tasks, prev[k].boardId) == FirstListed(p, prev[k].boardId)
      {
        FirstListedExtend(tasks, prev[k].boardId);
      }
      if Listed(t) {
        var b := BoardOf(t);
        var i := IndexOfId(prev, b.boardId);
        if i < |prev| {
          assert d == prev[i := b];
        } else {
          assert d == prev + [b];
          assert !HasBoard(prev, b.boardId);
          DedupIds(p, b.boardId);
          FirstListedIsPresent(p, b.boardId);
          assert FirstListed(tasks, b.boardId) == |p|;
        }
      } else {
        assert d == prev;
      }
    }
  }

  /** Each board carries the name of the last task listed under its id (`Map.set`
      overwrites the value of an existing key). */
  lemma {:induction false} DedupLastName(tasks: seq<Task>)
    ensures forall k :: 0 <= k < |Dedup(tasks)| ==>
      LastListed(tasks, Dedup(tasks)[k].boardId) < |tasks| &&
      tasks[LastListed(tasks, Dedup(tasks)[k].boardId)].boardName == Some(Dedup(tasks)[k].boardName)
    decreases |tasks|
  {
    if tasks != [] {
      var p := tasks[..|tasks| - 1];
      var t := tasks[|tasks| - 1];
      var prev := Dedup(p);
      var d := Dedup(tasks);
      DedupLastName(p);
      DedupDistinct(p);
      forall k | 0 <= k < |prev| && !ListsId(t, prev[k].boardId)
        ensures LastListed(tasks, prev[k].boardId) == LastListed(p, prev[k].boardId)
      {
      }
      if Listed(t) {
        var b := BoardOf(t);
        var i := IndexOfId(prev, b.boardId);
        assert LastListed(tasks, b.boardId) == |p|;
        if i < |prev| {
          assert d == prev[i := b];
          forall k | 0 <= k < |d| && k != i
            ensures !ListsId(t, d[k].boardId)
          {
          }
        } else {
          assert d == prev + [b];
        }
      } else {
        assert d == prev;
      }
    }
  }

  /** Every listed task under one board id carries the same board name. */
  predicate ConsistentNames(tasks: seq<Task>) {
    forall i, j ::
      (0 <= i < |tasks| && 0 <= j < |tasks| && Listed(tasks[i]) && Listed(tasks[j]) &&
       tasks[i].boardId == tasks[j].boardId) ==> tasks[i].boardName == tasks[j].boardName
  }

  /** A task copying the board name and board id of a task already in the list does not
      change the board list, provided board names are consistent per id. Only then does
      the board list stay accurate when a create does not recompute it (`CreateKeepsBoards`);
      `CreateCanStaleBoards` shows a list with inconsistent names where it does not. */
  lemma {:induction false} DedupStableOnCreate(tasks: seq<Task>, r: nat, n: Task)
    requires r < |tasks| && ConsistentNames(tasks)
    requires n.boardName == tasks[r].boardName && n.boardId == tasks[r].boardId
    ensures Dedup(tasks + [n]) == Dedup(tasks)
  {
    var s := tasks + [n];
    assert s[..|s| - 1] == tasks;
    if Listed(n) {
      var prev := Dedup(tasks);
      var b := BoardOf(n);
      assert ListsId(tasks[r], b.boardId);
      DedupIds(tasks, b.boardId);
      var i := IndexOfId(prev, b.boardId);
      assert i < |prev| by {
        var k :| 0 <= k < |prev| && prev[k].boardId == b.boardId;
      }
      DedupLastName(tasks);
      var last := LastListed(tasks, b.boardId);
      assert tasks[last].boardName == Some(prev[i].boardName);
      assert prev[i] == b;
      assert Dedup(s) == prev[i := b];
    }
  }

  /** `boardsMap`: a JavaScript `Map` from board id to board, keeping its keys in
      insertion order. */
  function Values(keys: seq<int>, entries: map<int, Board>): (r: seq<Board>)
    requires forall k :: 0 <= k < |keys| ==> keys[k] in entries
    ensures |r| == |keys|
    ensures forall k :: 0 <= k < |keys| ==> r[k] == entries[keys[k]]
  {
    seq(|keys|, k requires 0 <= k < |keys| => entries[keys[k]])
  }

  /** `Array.from(boardsMap.values())` after one `set` of a key already present. */
  lemma SetPresentKey(keys: seq<int>, entries: map<int, Board>, b: Board, i: nat)
    requires forall k :: 0 <= k < |keys| ==> keys[k] in entries && entries[keys[k]].boardId == keys[k]
    requires forall x, y :: 0 <= x < y < |keys| ==> keys[x] != keys[y]
    requires i < |keys| && keys[i] == b.boardId
    ensures Values(keys, entries[b.boardId := b]) == MapSet(Values(keys, entries), b)
  {
    var prev := Values(keys, entries);
    assert prev[i].boardId == b.boardId;
    assert IndexOfId(prev, b.boardId) == i;
  }

  /** The board list the page derives from the fetched tasks (the `forEach` over
      `response.data.data` filling `boardsMap`), proved equal to `Dedup`. */
  method DeriveBoards(tasks: seq<Task>) returns (boards: seq<Board>)
    ensures boards == Dedup(tasks)
    ensures DistinctIds(boards)
  {
    var keys: seq<int> := [];
    var entries: map<int, Board> := map[];
    var i := 0;
    while i < |tasks|
      invariant 0 <= i <= |tasks|
      invariant forall k :: 0 <= k < |keys| ==> keys[k] in entries && entries[keys[k]].boardId == keys[k]
      invariant forall id :: id in entries ==> id in keys
      invariant forall x, y :: 0 <= x < y < |keys| ==> keys[x] != keys[y]
      invariant Values(keys, entries) == Dedup(tasks[..i])
    {
      var task := tasks[i];
      assert tasks[..i + 1][..i] == tasks[..i];
      if Listed(task) {
        var b := Board(task.boardName.value, task.boardId.value);
        if b.boardId in entries {
          ghost var k :| 0 <= k < |keys| && keys[k] == b.boardId;
          SetPresentKey(keys, entries, b, k);
        } else {
          keys := keys + [b.boardId];
        }
        entries := entries[b.boardId := b];
      }
      i := i + 1;
    }
    assert tasks[..i] == tasks;
    boards := Values(keys, entries);
    DedupDistinct(tasks);
  }

  /** `tasks.find(task => task.boardName === formData.boardName)`. */
  function ReferenceTask(tasks: seq<Task>, name: string): (r: Option<Task>)
    ensures r.Some? ==> r.value in tasks && r.value.boardName == Some(name)
    ensures r.None? <==> forall i :: 0 <= i < |tasks| ==> tasks[i].boardName != Some(name)
  {
    Find(tasks, OnBoard(name))
  }

  /** The body of `POST /tasks/create`. */
  datatype CreatePayload = CreatePayload(
    title: string, description: string, priority: string, assigneeId: AssigneeRef,
    boardId: Option<int>, status: string)

  /** `formData.status || 'Backlog'`. */
  function StatusOrBacklog(status: string): (r: string)
    ensures r != ""
    ensures status != "" ==> r == status
  {
    if status == "" then "Backlog" else status
  }

  /** The request `handleCreateTask` sends, or `None` when it throws before sending
      because no task has the form's board name. */
  function CreateRequest(tasks: seq<Task>, form: Form): (r: Option<CreatePayload>) {
    match ReferenceTask(tasks, form.boardName)
    case None => None
    case Some(ref) =>
      Some(CreatePayload(form.title, form.description, form.priority, form.assigneeId,
                         ref.boardId, StatusOrBacklog(form.status)))
  }

  /** No request is sent iff no task has the form's board name. Otherwise the payload
      takes the text fields and assignee from the form, the board id from the FIRST task
      with that board name, and the status from the form, `'Backlog'` when it is empty. */
  lemma {:induction false} CreateRequestSpec(tasks: seq<Task>, form: Form, i: nat)
    requires i < |tasks| && tasks[i].boardName == Some(form.boardName)
    requires forall j :: 0 <= j < i ==> tasks[j].boardName != Some(form.boardName)
    ensures CreateRequest(tasks, form) ==
      Some(CreatePayload(form.title, form.description, form.priority, form.assigneeId,
                         tasks[i].boardId, if form.status == "" then "Backlog" else form.status))
  {
    FindIsFirst(tasks, OnBoard(form.boardName), i);
  }

  lemma CreateRequestFails(tasks: seq<Task>, form: Form)
    ensures CreateRequest(tasks, form).None? <==>
      forall i :: 0 <= i < |tasks| ==> tasks[i].boardName != Some(form.boardName)
  {
  }

  /** `newTask`: the server's id, or the clock's `now` when the response carries none
      (or a falsy one); the form's fields; the reference task's board id. */
  function NewTask(form: Form, ref: Task, users: seq<User>, responseId: Option<int>, now: int): (r: Task)
    ensures r.id == (if TruthyId(responseId) then responseId.value else now)
    ensures r.title == form.title && r.description == Some(form.description)
    ensures r.priority == Some(form.priority) && r.status == Some(StatusOrBacklog(form.status))
    ensures r.assignee == FindUser(users, form.assigneeId)
    ensures r.boardId == ref.boardId && r.boardName == Some(form.boardName)
  {
    Task(if TruthyId(responseId) then responseId.value else now,
         form.title, Some(form.description), Some(form.priority), Some(StatusOrBacklog(form.status)),
         FindUser(users, form.assigneeId), ref.boardId, Some(form.boardName))
  }

  /** The task a successful create appends locally agrees with the request it sent: the
      same title, description, priority, status and board id, the user the request's
      `assigneeId` names, and the chosen board name. */
  lemma NewTaskMirrorsRequest(tasks: seq<Task>, form: Form, users: seq<User>, responseId: Option<int>, now: int)
    requires CreateRequest(tasks, form).Some?
    ensures var p := CreateRequest(tasks, form).value;
      var t := NewTask(form, ReferenceTask(tasks, form.boardName).value, users, responseId, now);
      t.title == p.title && t.description == Some(p.description) &&
      t.priority == Some(p.priority) && t.status == Some(p.status) &&
      t.boardId == p.boardId && t.assignee == FindUser(users, p.assigneeId) &&
      t.boardName == Some(form.boardName)
  {
  }

  /** When board names are consistent per id, the task a create appends leaves the board
      list unchanged, so not recomputing `uniqueBoards` keeps it equal to `Dedup(tasks)`. */
  lemma CreateKeepsBoards(tasks: seq<Task>, form: Form, users: seq<User>, responseId: Option<int>, now: int)
    requires ConsistentNames(tasks) && CreateRequest(tasks, form).Some?
    ensures Dedup(tasks + [NewTask(form, ReferenceTask(tasks, form.boardName).value, users, responseId, now)])
         == Dedup(tasks)
  {
    var ref := ReferenceTask(tasks, form.boardName).value;
    var r :| 0 <= r < |tasks| && tasks[r] == ref;
    DedupStableOnCreate(tasks, r, NewTask(form, ref, users, responseId, now));
  }

  /** Without consistent names the board list a create leaves in place can be stale: two
      tasks list board id 1 as "A" and then "B", so the list shows "B"; creating a task on
      "A" makes `Dedup` show "A", while the page keeps "B". */
  lemma CreateCanStaleBoards()
    ensures var a := Task(1, "a", None, None, None, None, Some(1), Some("A"));
      var b := Task(2, "b", None, None, None, None, Some(1), Some("B"));
      var form := CreateForm.(title := "c", boardName := "A");
      CreateRequest([a, b], form).Some? &&
      Dedup([a, b]) == [Board("B", 1)] &&
      Dedup([a, b] + [NewTask(form, ReferenceTask([a, b], "A").value, [], None, 7)]) == [Board("A", 1)]
  {
    var a := Task(1, "a", None, None, None, None, Some(1), Some("A"));
    var b := Task(2, "b", None, None, None, None, Some(1), Some("B"));
    var form := CreateForm.(title := "c", boardName := "A");
    assert ReferenceTask([a, b], "A") == Some(a);
    var n := NewTask(form, a, [], None, 7);
    assert [a, b][..1] == [a];
    assert [a][..0] == [];
    assert Dedup([a]) == [Board("A", 1)];
    assert Dedup([a, b]) == [Board("B", 1)];
    assert ([a, b] + [n])[..2] == [a, b];
  }

  /** The list after a successful edit: every task with the updated task's id replaced by it. */
  function ReplacedTasks(tasks: seq<Task>, updated: Task): seq<Task> {
    MapById(tasks, updated.id, (_: Task) => updated)
  }

  /** A successful edit keeps the list's length and ids, replaces exactly the tasks with
      the selected id, and replacing twice is replacing once. */
  lemma ReplacedTasksSpec(tasks: seq<Task>, updated: Task)
    ensures |ReplacedTasks(tasks, updated)| == |tasks|
    ensures Ids(ReplacedTasks(tasks, updated)) == Ids(tasks)
    ensures forall i :: 0 <= i < |tasks| ==>
      ReplacedTasks(tasks, updated)[i] == if tasks[i].id == updated.id then updated else tasks[i]
    ensures ReplacedTasks(ReplacedTasks(tasks, updated), updated) == ReplacedTasks(tasks, updated)
  {
    MapByIdKeepsIds(tasks, updated.id, (_: Task) => updated);
  }

  /** What makes the page show its error view. */
  datatype PageError =
    | RequestError(message: string)  // a request failed with this message
    | BoardIdNotFound                // create: no task has the chosen board name
    | NoSelectedTask                 // update: reading `id` of a null `selectedTask` threw

  /** The Boards page's state cells, as one value. */
  datatype BoardsState = BoardsState(
    openModal: bool,
    selectedTask: Option<Task>,
    users: seq<User>,
    tasks: seq<Task>,
    uniqueBoards: seq<Board>,
    loading: bool,
    error: Option<PageError>,
    modalMode: ModalMode,
    formData: Form)

  /** The Boards page component; each field is one `useState` cell. */
  class BoardsPage {
    var openModal: bool
    var selectedTask: Option<Task>
    var users: seq<User>
    var tasks: seq<Task>
    var uniqueBoards: seq<Board>
    var loading: bool
    var error: Option<PageError>
    var modalMode: ModalMode
    var formData: Form

    ghost function State(): BoardsState
      reads this
    {
      BoardsState(openModal, selectedTask, users, tasks, uniqueBoards, loading, error, modalMode, formData)
    }

    /** The page never requests the user list, so `users` stays `[]`. */
    ghost predicate Valid()
      reads this
    {
      users == []
    }

    constructor ()
      ensures Valid()
      ensures State() == BoardsState(false, None, [], [], [], true, None, Edit, EmptyForm)
    {
      openModal, selectedTask, users, tasks, uniqueBoards := false, None, [], [], [];
      loading, error, modalMode, formData := true, None, Edit, EmptyForm;
    }

    /** The answer to the task list request: the list and the boards derived from it. */
    method TasksLoaded(response: Response<seq<Task>>)
      requires Valid()
      modifies this
      ensures Valid()
      ensures response.Success? ==> State() == old(State()).(
        tasks := response.data, uniqueBoards := Dedup(response.data), loading := false)
      ensures response.Failure? ==> State() == old(State()).(
        error := Some(RequestError(response.message)), loading := false)
    {
      match response
      case Success(data) =>
        tasks := data;
        uniqueBoards := DeriveBoards(data);
        loading := false;
      case Failure(message) =>
        error := Some(RequestError(message));
        loading := false;
    }

    /** `handleCreateClick`: a fresh create form with status `'Backlog'`, nothing selected,
        create mode, modal open. */
    method CreateClick()
      requires Valid()
      modifies this
      ensures Valid()
      ensures State() == old(State()).(
        selectedTask := None, formData := CreateForm, modalMode := Create, openModal := true)
    {
      selectedTask := None;
      formData := CreateForm;
      modalMode := Create;
      openModal := true;
    }

    /** `handleCloseModal`. */
    method CloseModal()
      requires Valid()
      modifies this
      ensures Valid()
      ensures State() == old(State()).(openModal := false)
    {
      openModal := false;
    }

    /** `handleInputChange`: only the named form field changes. */
    method InputChange(e: FieldEdit)
      requires Valid()
      modifies this
      ensures Valid()
      ensures State() == old(State()).(formData := ApplyEdit(old(formData), e))
    {
      formData := ApplyEdit(formData, e);
    }

    /** `handleUpdateTask`. Returns the request it sends; `response` is its outcome. The
        local copy is built from `selectedTask`, and since `users` is empty its assignee is
        always `null`. */
    method UpdateTask(response: Response<()>) returns (request: Option<UpdateRequest>)
      requires Valid()
      modifies this
      ensures Valid()
      ensures old(selectedTask).None? ==> request.None? && State() == old(State()).(error := Some(NoSelectedTask))
      ensures old(selectedTask).Some? ==>
        request == Some(UpdateRequest(old(selectedTask).value.id, PayloadOf(old(formData))))
      ensures old(selectedTask).Some? && response.Failure? ==>
        State() == old(State()).(error := Some(RequestError(response.message)))
      ensures old(selectedTask).Some? && response.Success? ==>
        State() == old(State()).(
          tasks := ReplacedTasks(old(tasks), ApplyForm(old(selectedTask).value, old(formData), old(users))),
          openModal := false)
      ensures old(selectedTask).Some? && response.Success? ==>
        forall i :: 0 <= i < |tasks| && tasks[i].id == old(selectedTask).value.id ==> tasks[i].assignee.None?
    {
      if selectedTask.None? {
        error := Some(NoSelectedTask);
        return None;
      }
      var payload := PayloadOf(formData);
      request := Some(UpdateRequest(selectedTask.value.id, payload));
      match response
      case Failure(message) =>
        error := Some(RequestError(message));
      case Success(_) =>
        var updated := ApplyForm(selectedTask.value, formData, users);
        tasks := ReplacedTasks(tasks, updated);
        openModal := false;
    }

    /** `handleCreateTask`. Returns the request it sends (`None` when it throws first);
        `response` is that request's outcome, carrying the server's task id if any, and
        `now` stands for `Date.now()`. A success appends exactly one task; the board list
        is not recomputed. */
    method CreateTask(response: Response<Option<int>>, now: int) returns (request: Option<CreatePayload>)
      requires Valid()
      modifies this
      ensures Valid()
      ensures request == CreateRequest(old(tasks), old(formData))
      ensures request.None? ==> State() == old(State()).(error := Some(BoardIdNotFound))
      ensures request.Some? && response.Failure? ==>
        State() == old(State()).(error := Some(RequestError(response.message)))
      ensures request.Some? && response.Success? ==>
        State() == old(State()).(
          tasks := old(tasks) + [NewTask(old(formData), ReferenceTask(old(tasks), old(formData).boardName).value,
                                         old(users), response.data, now)],
          openModal := false)
      ensures request.Some? && response.Success? ==>
        |tasks| == |old(tasks)| + 1 && tasks[..|old(tasks)|] == old(tasks) && tasks[|old(tasks)|].assignee.None?
    {
      var reference := ReferenceTask(tasks, formData.boardName);
      if reference.None? {
        error := Some(BoardIdNotFound);
        return None;
      }
      var ref := reference.value;
      request := Some(CreatePayload(formData.title, formData.description, formData.priority,
                                    formData.assigneeId, ref.boardId, StatusOrBacklog(formData.status)));
      match response
      case Failure(message) =>
        error := Some(RequestError(message));
      case Success(id) =>
        var newTask := NewTask(formData, ref, users, id, now);
        tasks := tasks + [newTask];
        openModal := false;
    }
  }
}
