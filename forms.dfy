/** The create/edit form that the Issues and Boards pages hold in component state,
    the single-field edits the modal's inputs send, and how a form is read from a
    task and written back onto one. */
module Forms {
  import opened Common
  import opened Tasks

  /** `formData`: six text fields, of which `assigneeId` is `''` or a user id. */
  datatype Form = Form(
    title: string,
    description: string,
    priority: string,
    status: string,
    assigneeId: AssigneeRef,
    boardName: string)

  /** `modalMode`: `'create'` or `'edit'`. */
  datatype ModalMode = Create | Edit

  /** The initial `formData` of both pages: every field `''`. */
  const EmptyForm := Form("", "", "", "", NoAssignee, "")

  /** The form `handleCreateClick` resets to: every field `''` except `status = 'Backlog'`. */
  const CreateForm := Form("", "", "", "Backlog", NoAssignee, "")

  /** The `name` of an input of the task modal. */
  datatype FieldName = Title | Description | Priority | Status | AssigneeField | BoardName

  /** One change event `{ name, value }` of an input of the task modal. */
  datatype FieldEdit =
    | SetTitle(text: string)
    | SetDescription(text: string)
    | SetPriority(text: string)
    | SetStatus(text: string)
    | SetAssignee(ref: AssigneeRef)
    | SetBoardName(text: string)

  /** The field an edit names. */
  function NameOf(e: FieldEdit): FieldName {
    match e
    case SetTitle(_) => Title
    case SetDescription(_) => Description
    case SetPriority(_) => Priority
    case SetStatus(_) => Status
    case SetAssignee(_) => AssigneeField
    case SetBoardName(_) => BoardName
  }

  /** The named field of `f` holds the value the edit carries. */
  predicate Holds(f: Form, e: FieldEdit) {
    match e
    case SetTitle(s) => f.title == s
    case SetDescription(s) => f.description == s
    case SetPriority(s) => f.priority == s
    case SetStatus(s) => f.status == s
    case SetAssignee(a) => f.assigneeId == a
    case SetBoardName(s) => f.boardName == s
  }

  /** `f` and `g` agree on every field except (possibly) `n`. */
  predicate AgreeExcept(f: Form, g: Form, n: FieldName) {
    (n != Title ==> f.title == g.title) &&
    (n != Description ==> f.description == g.description) &&
    (n != Priority ==> f.priority == g.priority) &&
    (n != Status ==> f.status == g.status) &&
    (n != AssigneeField ==> f.assigneeId == g.assigneeId) &&
    (n != BoardName ==> f.boardName == g.boardName)
  }

  /** `handleInputChange`: `{ ...prev, [name]: value }`. */
  function ApplyEdit(f: Form, e: FieldEdit): (r: Form)
    ensures Holds(r, e)
    ensures AgreeExcept(f, r, NameOf(e))
  {
    match e
    case SetTitle(s) => f.(title := s)
    case SetDescription(s) => f.(description := s)
    case SetPriority(s) => f.(priority := s)
    case SetStatus(s) => f.(status := s)
    case SetAssignee(a) => f.(assigneeId := a)
    case SetBoardName(s) => f.(boardName := s)
  }

  /** Of two edits of the same field only the later one is visible. */
  lemma ApplyEditLastWins(f: Form, e1: FieldEdit, e2: FieldEdit)
    requires NameOf(e1) == NameOf(e2)
    ensures ApplyEdit(ApplyEdit(f, e1), e2) == ApplyEdit(f, e2)
  {
  }

  /** Edits of different fields commute. */
  lemma ApplyEditCommutes(f: Form, e1: FieldEdit, e2: FieldEdit)
    requires NameOf(e1) != NameOf(e2)
    ensures ApplyEdit(ApplyEdit(f, e1), e2) == ApplyEdit(ApplyEdit(f, e2), e1)
  {
  }

  /** `task.assignee?.id || ''`: the assignee's id unless there is none or it is the falsy id 0. */
  function AssigneeRefOf(t: Task): (r: AssigneeRef)
    ensures r.AssigneeId? <==> t.assignee.Some? && t.assignee.value.id != 0
    ensures r.AssigneeId? ==> r.id == t.assignee.value.id
  {
    if t.assignee.Some? && t.assignee.value.id != 0 then AssigneeId(t.assignee.value.id) else NoAssignee
  }

  /** The form `handleCardClick` opens a task with. */
  function FormFromTask(t: Task): (r: Form)
    ensures r.title == t.title
    ensures !TruthyText(t.description) ==> r.description == ""
    ensures !TruthyText(t.priority) ==> r.priority == ""
    ensures !TruthyText(t.status) ==> r.status == ""
    ensures !TruthyText(t.boardName) ==> r.boardName == ""
    ensures TruthyText(t.description) ==> r.description == t.description.value
    ensures TruthyText(t.priority) ==> r.priority == t.priority.value
    ensures TruthyText(t.status) ==> r.status == t.status.value
    ensures TruthyText(t.boardName) ==> r.boardName == t.boardName.value
    ensures r.assigneeId == AssigneeRefOf(t)
    ensures t.assignee.None? ==> r.assigneeId == NoAssignee
  {
    Form(t.title, OrEmpty(t.description), OrEmpty(t.priority), OrEmpty(t.status),
         AssigneeRefOf(t), OrEmpty(t.boardName))
  }

  /** The task an update writes locally: the form's text fields over the task, and the
      assignee looked up from the form's `assigneeId`. Both pages write these same fields
      (`{ ...task, ...formData, assignee }` and `{ ...selectedTask, ...payload, boardName, assignee }`). */
  function ApplyForm(t: Task, form: Form, users: seq<User>): (r: Task)
    ensures r.id == t.id && r.boardId == t.boardId
    ensures r.title == form.title && r.description == Some(form.description)
    ensures r.priority == Some(form.priority) && r.status == Some(form.status)
    ensures r.boardName == Some(form.boardName)
    ensures r.assignee == FindUser(users, form.assigneeId)
  {
    t.(title := form.title,
       description := Some(form.description),
       priority := Some(form.priority),
       status := Some(form.status),
       boardName := Some(form.boardName),
       assignee := FindUser(users, form.assigneeId))
  }

  /** Writing a form back twice is the same as writing it once. */
  lemma ApplyFormIdempotent(t: Task, form: Form, users: seq<User>)
    ensures ApplyForm(ApplyForm(t, form, users), form, users) == ApplyForm(t, form, users)
  {
  }

  /** Opening a task and saving it without edits gives the task back, when all of its
      optional text fields are present and its assignee is the user the list resolves
      its id to. */
  lemma {:induction false} OpenSaveRoundTrip(t: Task, users: seq<User>)
    requires t.description.Some? && t.priority.Some? && t.status.Some? && t.boardName.Some?
    requires t.assignee.Some? ==>
      t.assignee.value.id != 0 && FindUser(users, AssigneeId(t.assignee.value.id)) == t.assignee
    ensures ApplyForm(t, FormFromTask(t), users) == t
  {
    var r := ApplyForm(t, FormFromTask(t), users);
    assert r.assignee == t.assignee by {
      if t.assignee.None? {
        assert FormFromTask(t).assigneeId == NoAssignee;
      }
    }
  }

  /** Saving a form and opening the task again shows the same form, when the form's
      assignee (if any) is a listed user with a non-zero id. */
  lemma {:induction false} SaveOpenRoundTrip(t: Task, form: Form, users: seq<User>)
    requires form.assigneeId.AssigneeId? ==>
      form.assigneeId.id != 0 && FindUser(users, form.assigneeId).Some?
    ensures FormFromTask(ApplyForm(t, form, users)) == form
  {
    var r := ApplyForm(t, form, users);
    assert AssigneeRefOf(r) == form.assigneeId by {
      if form.assigneeId.AssigneeId? {
        assert r.assignee.value.id == form.assigneeId.id;
      }
    }
  }

  /** The body of `PUT /tasks/update/{id}`. */
  datatype UpdatePayload = UpdatePayload(
    title: string, description: string, priority: string, status: string, assigneeId: AssigneeRef)

  /** An update request: the task id in the path and the body. */
  datatype UpdateRequest = UpdateRequest(id: int, payload: UpdatePayload)

  /** The update body both pages build from `formData`; `boardName` is not sent. */
  function PayloadOf(form: Form): (r: UpdatePayload)
    ensures r.title == form.title && r.description == form.description
    ensures r.priority == form.priority && r.status == form.status
    ensures r.assigneeId == form.assigneeId
  {
    UpdatePayload(form.title, form.description, form.priority, form.status, form.assigneeId)
  }
}
