/** The Issues page: the full task list with a search box and two filters, and an
    edit modal whose save merges the form into the local list by id. */
module Issues {
  import opened Common
  import opened Seqs
  import opened Tasks
  import opened Forms

  /** `filters`: the status and board selects; `''` means "any". */
  datatype Filters = Filters(status: string, board: string)

  const NoFilters := Filters("", "")

  /** One change event of a filter select (`name` is `status` or `board`). */
  datatype FilterEdit = SetStatusFilter(text: string) | SetBoardFilter(text: string)

  /** `handleFilterChange`: `{ ...prev, [name]: value }`. */
  function ApplyFilterEdit(f: Filters, e: FilterEdit): (r: Filters)
    ensures e.SetStatusFilter? ==> r.status == e.text && r.board == f.board
    ensures e.SetBoardFilter? ==> r.board == e.text && r.status == f.status
  {
    match e
    case SetStatusFilter(s) => f.(status := s)
    case SetBoardFilter(s) => f.(board := s)
  }

  /** The search condition. `lower` is `String.prototype.toLowerCase`, left abstract. */
  predicate MatchesSearch(t: Task, term: string, lower: string -> string) {
    term == "" ||
    Contains(lower(t.title), lower(term)) ||
    (t.assignee.Some? && Contains(lower(t.assignee.value.fullName), lower(term)))
  }

  predicate MatchesStatus(t: Task, f: Filters) {
    f.status == "" || t.status == Some(f.status)
  }

  predicate MatchesBoard(t: Task, f: Filters) {
    f.board == "" || t.boardName == Some(f.board)
  }

  predicate Matches(t: Task, term: string, f: Filters, lower: string -> string) {
    MatchesSearch(t, term, lower) && MatchesStatus(t, f) && MatchesBoard(t, f)
  }

  function Matcher(term: string, f: Filters, lower: string -> string): Task -> bool {
    (t: Task) => Matches(t, term, f, lower)
  }

  /** `filteredTasks`: the tasks meeting all three conditions, in list order. */
  function FilteredTasks(tasks: seq<Task>, term: string, f: Filters, lower: string -> string): (r: seq<Task>)
    ensures forall i :: 0 <= i < |r| ==> r[i] in tasks && Matches(r[i], term, f, lower)
    ensures forall i :: 0 <= i < |tasks| && Matches(tasks[i], term, f, lower) ==> tasks[i] in r
    ensures |r| == Count(tasks, Matcher(term, f, lower))
  {
    FilterLength(tasks, Matcher(term, f, lower));
    Filter(tasks, Matcher(term, f, lower))
  }

  /** With no search term and no filter the whole list is shown. */
  lemma FilteredAllWhenUnfiltered(tasks: seq<Task>, lower: string -> string)
    ensures FilteredTasks(tasks, "", NoFilters, lower) == tasks
  {
    FilterAll(tasks, Matcher("", NoFilters, lower));
  }

  /** Filtering only removes tasks: no task is added, duplicated or reordered. */
  lemma FilteredIsSubsequence(tasks: seq<Task>, term: string, f: Filters, lower: string -> string)
    ensures IsSubsequence(FilteredTasks(tasks, term, f, lower), tasks)
  {
    FilterIsSubsequence(tasks, Matcher(term, f, lower));
  }

  /** A status filter keeps only tasks with exactly that status; with no search term and
      no board filter it keeps every one of them. */
  lemma FilteredByStatus(tasks: seq<Task>, term: string, f: Filters, lower: string -> string)
    requires f.status != ""
    ensures forall t :: t in FilteredTasks(tasks, term, f, lower) ==> t.status == Some(f.status)
    ensures term == "" && f.board == "" ==>
      FilteredTasks(tasks, term, f, lower) == Filter(tasks, HasStatus(f.status))
  {
    if term == "" && f.board == "" {
      FilterCongruent(tasks, Matcher(term, f, lower), HasStatus(f.status));
    }
  }

  /** A board filter keeps only tasks of exactly that board name; with no search term and
      no status filter it keeps every one of them. */
  lemma FilteredByBoard(tasks: seq<Task>, term: string, f: Filters, lower: string -> string)
    requires f.board != ""
    ensures forall t :: t in FilteredTasks(tasks, term, f, lower) ==> t.boardName == Some(f.board)
    ensures term == "" && f.status == "" ==>
      FilteredTasks(tasks, term, f, lower) == Filter(tasks, OnBoard(f.board))
  {
    if term == "" && f.status == "" {
      FilterCongruent(tasks, Matcher(term, f, lower), OnBoard(f.board));
    }
  }

  /** A non-empty search term matches a task iff the lowered term occurs at some position
      of the lowered title, or the task has an assignee and it occurs in the lowered full
      name; so a task without an assignee can match only through its title. */
  lemma SearchMatchesOccurrence(t: Task, term: string, lower: string -> string)
    requires term != ""
    ensures MatchesSearch(t, term, lower) <==>
      (exists i: nat :: OccursAt(lower(t.title), lower(term), i)) ||
      (t.assignee.Some? && exists i: nat :: OccursAt(lower(t.assignee.value.fullName), lower(term), i))
    ensures t.assignee.None? ==>
      (MatchesSearch(t, term, lower) <==> exists i: nat :: OccursAt(lower(t.title), lower(term), i))
  {
    ContainsAt(lower(t.title), lower(term));
    if t.assignee.Some? {
      ContainsAt(lower(t.assignee.value.fullName), lower(term));
    }
  }

  function Merger(form: Form, users: seq<User>): Task -> Task {
    (t: Task) => ApplyForm(t, form, users)
  }

  /** The local list after a successful save: every task with the selected id takes the
      form's fields, each keeping its own id and board id. */
  function UpdatedTasks(tasks: seq<Task>, selectedId: int, form: Form, users: seq<User>): seq<Task> {
    MapById(tasks, selectedId, Merger(form, users))
  }

  /** After a successful save the list keeps its length, every task with another id is
      unchanged, and each task with the selected id holds the form's fields and the user
      with id `assigneeId` (none if there is no such user). */
  lemma UpdatedTasksSpec(tasks: seq<Task>, selectedId: int, form: Form, users: seq<User>)
    ensures |UpdatedTasks(tasks, selectedId, form, users)| == |tasks|
    ensures Ids(UpdatedTasks(tasks, selectedId, form, users)) == Ids(tasks)
    ensures forall i :: 0 <= i < |tasks| && tasks[i].id != selectedId ==>
      UpdatedTasks(tasks, selectedId, form, users)[i] == tasks[i]
    ensures forall i :: 0 <= i < |tasks| && tasks[i].id == selectedId ==>
      var u := UpdatedTasks(tasks, selectedId, form, users)[i];
      u.title == form.title && u.description == Some(form.description) &&
      u.priority == Some(form.priority) && u.status == Some(form.status) &&
      u.boardName == Some(form.boardName) && u.assignee == FindUser(users, form.assigneeId) &&
      u.boardId == tasks[i].boardId
  {
    MapByIdKeepsIds(tasks, selectedId, Merger(form, users));
  }

  /** Saving the same form twice leaves the list as saving it once. */
  lemma UpdatedTasksIdempotent(tasks: seq<Task>, selectedId: int, form: Form, users: seq<User>)
    ensures UpdatedTasks(UpdatedTasks(tasks, selectedId, form, users), selectedId, form, users)
         == UpdatedTasks(tasks, selectedId, form, users)
  {
    var once := UpdatedTasks(tasks, selectedId, form, users);
    forall i | 0 <= i < |tasks| && tasks[i].id == selectedId
      ensures UpdatedTasks(once, selectedId, form, users)[i] == once[i]
    {
      ApplyFormIdempotent(tasks[i], form, users);
    }
  }

  /** The Issues page's state cells, as one value. */
  datatype IssuesState = IssuesState(
    tasks: seq<Task>,
    loading: bool,
    error: Option<string>,
    selectedTask: Option<Task>,
    openModal: bool,
    users: seq<User>,
    formData: Form,
    searchTerm: string,
    filters: Filters)

  /** The Issues page component; each field is one `useState` cell. */
  class IssuesPage {
    var tasks: seq<Task>
    var loading: bool
    var error: Option<string>
    var selectedTask: Option<Task>
    var openModal: bool
    var users: seq<User>
    var formData: Form
    var searchTerm: string
    var filters: Filters

    ghost function State(): IssuesState
      reads this
    {
      IssuesState(tasks, loading, error, selectedTask, openModal, users, formData, searchTerm, filters)
    }

    /** The initial values of the state cells. */
    constructor ()
      ensures State() == IssuesState([], true, None, None, false, [], EmptyForm, "", NoFilters)
    {
      tasks, loading, error, selectedTask, openModal := [], true, None, None, false;
      users, formData, searchTerm, filters := [], EmptyForm, "", NoFilters;
    }

    /** The list shown: `filteredTasks` over the current cells. */
    function Shown(lower: string -> string): (r: seq<Task>)
      reads this
      ensures IsSubsequence(r, tasks)
    {
      FilteredIsSubsequence(tasks, searchTerm, filters, lower);
      FilteredTasks(tasks, searchTerm, filters, lower)
    }

    /** The answer to the task list request. */
    method TasksLoaded(response: Response<seq<Task>>)
      modifies this
      ensures response.Success? ==> State() == old(State()).(tasks := response.data, loading := false)
      ensures response.Failure? ==> State() == old(State()).(error := Some(response.message), loading := false)
    {
      match response
      case Success(data) => tasks := data; loading := false;
      case Failure(message) => error := Some(message); loading := false;
    }

    /** The answer to the user list request; a failure is only logged. */
    method UsersLoaded(response: Response<seq<User>>)
      modifies this
      ensures response.Success? ==> State() == old(State()).(users := response.data)
      ensures response.Failure? ==> State() == old(State())
    {
      if response.Success? {
        users := response.data;
      }
    }

    /** `handleCardClick`: select the task, fill the form from it, open the modal. */
    method CardClick(task: Task)
      modifies this
      ensures State() == old(State()).(selectedTask := Some(task), formData := FormFromTask(task), openModal := true)
    {
      selectedTask := Some(task);
      formData := FormFromTask(task);
      openModal := true;
    }

    /** `handleCloseModal`. */
    method CloseModal()
      modifies this
      ensures State() == old(State()).(openModal := false)
    {
      openModal := false;
    }

    /** `handleInputChange`: only the named form field changes. */
    method InputChange(e: FieldEdit)
      modifies this
      ensures State() == old(State()).(formData := ApplyEdit(old(formData), e))
      ensures AgreeExcept(old(formData), formData, NameOf(e)) && Holds(formData, e)
    {
      formData := ApplyEdit(formData, e);
    }

    /** `handleSearchChange`. */
    method SearchChange(term: string)
      modifies this
      ensures State() == old(State()).(searchTerm := term)
    {
      searchTerm := term;
    }

    /** `handleFilterChange`: only the named filter changes. */
    method FilterChange(e: FilterEdit)
      modifies this
      ensures State() == old(State()).(filters := ApplyFilterEdit(old(filters), e))
    {
      filters := ApplyFilterEdit(filters, e);
    }

    /** `handleUpdateTask`. Returns the request it sends; `response` is that request's
        outcome. Without a selected task, reading its id throws before any request, the
        error is caught and nothing changes; a failed request changes nothing either. */
    method UpdateTask(response: Response<()>) returns (request: Option<UpdateRequest>)
      modifies this
      ensures old(selectedTask).None? ==> request.None?
      ensures old(selectedTask).Some? ==>
        request == Some(UpdateRequest(old(selectedTask).value.id, PayloadOf(old(formData))))
      ensures old(selectedTask).Some? && response.Success? ==>
        State() == old(State()).(
          tasks := UpdatedTasks(old(tasks), old(selectedTask).value.id, old(formData), old(users)),
          openModal := false)
      ensures old(selectedTask).None? || response.Failure? ==> State() == old(State())
    {
      if selectedTask.None? {
        return None;
      }
      request := Some(UpdateRequest(selectedTask.value.id, PayloadOf(formData)));
      if response.Success? {
        tasks := UpdatedTasks(tasks, selectedTask.value.id, formData, users);
        CloseModal();
      }
    }
  }
}
