# Task tracker client: state and list logic, modelled in Dafny

The system is a browser client for a small task tracker. It fetches tasks, users and
boards from a REST API and shows them on three pages: an issue list with search and
filters, a list of boards, and one board split into status columns. What this project
models is the logic under the rendering: how each page derives what it shows from the
task collection, and how its handlers change the page's state cells.

- **Tasks, users, forms** (`common.dfy`, `tasks.dfy`, `forms.dfy`). A task is a record
  (`id`, `title`, `description`, `priority`, `status`, `assignee`, `boardId`,
  `boardName`). Every property except `id` and `title` may be missing, so it is an
  `Option`. Where the source tests truthiness, a string counts as truthy when it is
  present and non-empty, and an id when it is present and non-zero. The edit form
  holds six fields. Its `assigneeId` is either `''` (`NoAssignee`) or a user id.
  `users.find(u => u.id === assigneeId)` is `Tasks.FindUser`.
- **Issues page** (`issues.dfy`). `filteredTasks` is a filter over the task list. It
  combines a case-insensitive substring search over the title or the assignee's full
  name, an exact status filter and an exact board-name filter. Saving the edit modal
  merges the form into every task with the selected id. Opening a task fills the form
  from it, with `''` for missing fields. The page's `useState` cells are the fields of
  class `IssuesPage`.
- **Boards page** (`boards.dfy`). The board list is built by a `forEach` over the tasks
  that fills a JavaScript `Map` keyed by board id. `DeriveBoards` keeps that loop
  imperative: the `Map` is a key sequence in insertion order plus a `map`. The loop is
  proved equal to `Dedup`, a separate definition that applies `Map.set` one listed task
  at a time. The board-list properties are lemmas about `Dedup`. Create first looks up
  the board id from the first task with the chosen board name and fails before sending
  anything if there is none. On success it appends one task. Update replaces every task
  with the selected id by a copy of the selected task carrying the form's fields. This
  page never requests the user list, so its `users` cell stays `[]`. The class invariant
  `Valid()` records this, and it means a task created or edited here always gets a
  `null` assignee locally. Nothing on this page selects a task either: the constructor
  starts with `selectedTask` `null`, `CreateClick` sets it to `null`, and every other
  method's contract keeps it. So on this page `UpdateTask` always takes the path where
  reading the id of a `null` selection throws and the error is set. The success branch
  is modelled as written, but no sequence of the page's methods reaches it.
- **Board page** (`board_columns.dfy`). The loaded tasks are split into the "To Do",
  "In Progress" and "Done" columns by exact status `"Backlog"`, `"InProgress"` and
  `"Done"`. Before the board is loaded all three columns are empty.
- **Redux tasks slice** (`tasks_slice.dfy`) and **modal hook** (`task_modal.dfy`): two
  small state machines, as classes whose methods assign their fields.

Every class has a ghost `State()` that packs its fields into one datatype value. Each
method's contract gives the new `State()` as `old(State())` with only the named fields
replaced, so "nothing else changes" is part of every transition's contract. An HTTP
request is a `Response` parameter: `Success(body)` or `Failure(message)`. Methods that
send a request return that request, or `None` when they throw before sending it.
`String.prototype.toLowerCase` is the abstract parameter `lower`, so the search lemmas
hold for every case mapping.

`BoardPage.tsx` only filters and renders: it has no drag-and-drop and sends no
status-update request. Every page compares `status` as a free string, so the model's
`status` is an `Option<string>`.

## Model

| member | source | states |
|---|---|---|
| `Issues.FilteredTasks` | frontend/src/pages/IssuesPage.tsx:134-148 | a task is shown iff it is in the list and meets the search, status and board conditions together; the shown list has exactly as many entries as the list has matching entries |
| `Issues.FilteredAllWhenUnfiltered` | frontend/src/pages/IssuesPage.tsx:134-148 | with an empty search term and both filters empty, the shown list is the whole task list |
| `Issues.FilteredIsSubsequence` | frontend/src/pages/IssuesPage.tsx:134 | the shown list is a subsequence of the task list: nothing added, duplicated or reordered |
| `Issues.FilteredByStatus` | frontend/src/pages/IssuesPage.tsx:142-147 | with a status filter every shown task has exactly that status; with no term and no board filter the shown list is exactly the tasks with that status |
| `Issues.FilteredByBoard` | frontend/src/pages/IssuesPage.tsx:144-147 | with a board filter every shown task has exactly that board name; with no term and no status filter the shown list is exactly the tasks of that board |
| `Issues.SearchMatchesOccurrence` | frontend/src/pages/IssuesPage.tsx:135-140 | a non-empty term matches iff the lowered term occurs at some position of the lowered title or of the present assignee's lowered full name; an unassigned task matches only through its title |
| `Issues.UpdatedTasksSpec` | frontend/src/pages/IssuesPage.tsx:110-116 | after a save the list keeps its length and ids, tasks with another id are unchanged, and each task with the selected id takes the form's fields and the user with id `assigneeId` (none if there is no such user) |
| `Issues.UpdatedTasksIdempotent` | frontend/src/pages/IssuesPage.tsx:110-116 | saving the same form twice leaves the list as saving it once |
| `Issues.ApplyFilterEdit` | frontend/src/pages/IssuesPage.tsx:129-132 | a filter change sets the named filter and leaves the other one |
| `Issues.MatchesSearch` | frontend/src/pages/IssuesPage.tsx:135-140 | the search condition; what it means is stated by `Issues.SearchMatchesOccurrence` |
| `Issues.Matches` | frontend/src/pages/IssuesPage.tsx:135-147 | the conjunction of search, status and board conditions; stated through `Issues.FilteredTasks`, `Issues.FilteredByStatus` and `Issues.FilteredByBoard` |
| `Issues.UpdatedTasks` | frontend/src/pages/IssuesPage.tsx:110-116 | the list after a save; stated by `Issues.UpdatedTasksSpec` and `Issues.UpdatedTasksIdempotent` |
| `Issues.IssuesPage.Shown` | frontend/src/pages/IssuesPage.tsx:134-148 | the list the page shows is a subsequence of its `tasks` cell |
| `Issues.IssuesPage.constructor` | frontend/src/pages/IssuesPage.tsx:24-42 | the initial cells: no tasks, loading, no error, nothing selected, modal closed, no users, empty form, empty search, no filters |
| `Issues.IssuesPage.TasksLoaded` | frontend/src/pages/IssuesPage.tsx:50-54 | a loaded list replaces `tasks`; a failure records its message; both end loading; nothing else changes |
| `Issues.IssuesPage.UsersLoaded` | frontend/src/pages/IssuesPage.tsx:66-69 | a loaded user list replaces `users`; a failure changes nothing |
| `Issues.IssuesPage.CardClick` | frontend/src/pages/IssuesPage.tsx:74-85 | the clicked task is selected, the form is read from it and the modal opens; nothing else changes |
| `Issues.IssuesPage.CloseModal` | frontend/src/pages/IssuesPage.tsx:87-89 | only the modal flag changes, to closed |
| `Issues.IssuesPage.InputChange` | frontend/src/pages/IssuesPage.tsx:91-94 | only the named form field changes, and it holds the new value |
| `Issues.IssuesPage.SearchChange` | frontend/src/pages/IssuesPage.tsx:125-127 | only the search term changes |
| `Issues.IssuesPage.FilterChange` | frontend/src/pages/IssuesPage.tsx:129-132 | only the named filter changes |
| `Issues.IssuesPage.UpdateTask` | frontend/src/pages/IssuesPage.tsx:96-123 | with a selected task it sends its id and the form's update body; on success the list becomes the by-id merge and the modal closes; without a selection or on failure no state changes |
| `Forms.ApplyEdit` | frontend/src/pages/IssuesPage.tsx:91-94 | the edited field holds the new value and every other field keeps its value |
| `Forms.ApplyEditLastWins` | frontend/src/pages/BoardsPage.tsx:97-100 | of two edits of one field only the later is visible |
| `Forms.ApplyEditCommutes` | frontend/src/pages/BoardsPage.tsx:97-100 | edits of different fields commute |
| `Forms.AssigneeRefOf` | frontend/src/pages/IssuesPage.tsx:81 | the form's `assigneeId` is the assignee's id exactly when there is an assignee with a truthy id, and `''` otherwise |
| `Forms.FormFromTask` | frontend/src/pages/IssuesPage.tsx:76-83 | the form copies the title; a present non-empty description, priority, status or board name is copied and a missing or empty one becomes `''`; `assigneeId` is the assignee's truthy id, else `''` |
| `Forms.ApplyForm` | frontend/src/pages/BoardsPage.tsx:123-128 | a saved task keeps its id and board id and takes the form's text fields and the looked-up assignee |
| `Forms.ApplyFormIdempotent` | frontend/src/pages/IssuesPage.tsx:110-116 | writing a form onto a task twice is writing it once |
| `Forms.OpenSaveRoundTrip` | frontend/src/pages/IssuesPage.tsx:76-116 | opening a task with all fields present and saving without edits gives the task back |
| `Forms.SaveOpenRoundTrip` | frontend/src/pages/IssuesPage.tsx:76-116 | saving a form whose assignee resolves and reopening the task shows the same form |
| `Forms.PayloadOf` | frontend/src/pages/IssuesPage.tsx:100-106 | the update body carries title, description, priority, status and assignee id from the form, and no board name |
| `Tasks.FindUser` | frontend/src/pages/IssuesPage.tsx:114 | the user found is a listed user with the form's id; `''` finds nobody; finding nobody means no user has that id |
| `Tasks.FindUserFirst` | frontend/src/pages/BoardsPage.tsx:127 | when several users share the id, the first one is found |
| `Tasks.MapById` | frontend/src/pages/BoardsPage.tsx:130-132 | a by-id map keeps the length, leaves tasks with another id as they are and transforms those with the id |
| `Tasks.MapByIdKeepsIds` | frontend/src/pages/IssuesPage.tsx:110-116 | a by-id map whose transformation keeps ids keeps the list's ids in place |
| `Tasks.MapByIdAbsent` | frontend/src/pages/BoardsPage.tsx:130-132 | a by-id map for an id no task has changes nothing |
| `Boards.MapSet` | frontend/src/pages/BoardsPage.tsx:51-54 | `Map.set` on the insertion-ordered values: replace the entry with the same id in place, else append; stated by `Boards.DedupDistinct`, `Boards.DedupIds`, `Boards.DedupFirstOrder` and `Boards.DedupLastName` |
| `Boards.Dedup` | frontend/src/pages/BoardsPage.tsx:48-58 | `Array.from(boardsMap.values())` after the `forEach`; stated by `Boards.DedupDistinct`, `Boards.DedupIds`, `Boards.DedupFirstOrder`, `Boards.DedupLastName`, and equal to what `Boards.DeriveBoards` computes |
| `Boards.DeriveBoards` | frontend/src/pages/BoardsPage.tsx:48-58 | the `Map`-filling loop yields exactly `Dedup` of the tasks, with no board id twice |
| `Boards.DedupDistinct` | frontend/src/pages/BoardsPage.tsx:48-58 | no two boards in the list share a board id |
| `Boards.DedupIds` | frontend/src/pages/BoardsPage.tsx:49-56 | a board id is in the list iff some task has a truthy board name and that truthy board id |
| `Boards.DedupFirstOrder` | frontend/src/pages/BoardsPage.tsx:52-58 | boards appear in the order in which their ids are first listed by a task |
| `Boards.DedupLastName` | frontend/src/pages/BoardsPage.tsx:51-54 | each board carries the name of the last listed task with its id (`Map.set` overwrites) |
| `Boards.DedupStableOnCreate` | frontend/src/pages/BoardsPage.tsx:172-185 | appending a task that copies an existing task's board name and id leaves the board list unchanged when names are consistent per id |
| `Boards.ReferenceTask` | frontend/src/pages/BoardsPage.tsx:144-146 | the reference task is a task with the form's board name; there is none iff no task has that board name |
| `Boards.CreateRequest` | frontend/src/pages/BoardsPage.tsx:144-159 | the create body, or none when the lookup throws; stated by `Boards.CreateRequestSpec` and `Boards.CreateRequestFails` |
| `Boards.CreateRequestSpec` | frontend/src/pages/BoardsPage.tsx:144-159 | the create body takes the form's fields, the board id of the first task with the form's board name, and the status or `'Backlog'` when it is empty |
| `Boards.CreateRequestFails` | frontend/src/pages/BoardsPage.tsx:144-150 | no request is built iff no task has the form's board name |
| `Boards.StatusOrBacklog` | frontend/src/pages/BoardsPage.tsx:158 | the status sent is never empty, and it is the form's status when that is non-empty |
| `Boards.NewTask` | frontend/src/pages/BoardsPage.tsx:172-183 | the new local task: the server's id, or the clock's when that is falsy; its agreement with the request is stated by `Boards.NewTaskMirrorsRequest`, its effect on the board list by `Boards.CreateKeepsBoards` |
| `Boards.NewTaskMirrorsRequest` | frontend/src/pages/BoardsPage.tsx:144-185 | the task appended after a successful create has the title, description, priority, status and board id of the request sent, the user the request's `assigneeId` names, and the chosen board name |
| `Boards.CreateKeepsBoards` | frontend/src/pages/BoardsPage.tsx:142-193 | when board names are consistent per id, the appended task leaves `Dedup` unchanged, so the board list the create leaves in place is still accurate |
| `Boards.CreateCanStaleBoards` | frontend/src/pages/BoardsPage.tsx:142-193 | without consistent names it can go stale: tasks listing id 1 as "A" then "B" show "B", and after a create on "A" the full list would show "A" while the page keeps "B" |
| `Boards.ReplacedTasks` | frontend/src/pages/BoardsPage.tsx:130-132 | the list after an edit; stated by `Boards.ReplacedTasksSpec` |
| `Boards.ReplacedTasksSpec` | frontend/src/pages/BoardsPage.tsx:123-132 | an edit keeps the list's length and ids, replaces exactly the tasks with the selected id, and is idempotent |
| `Boards.BoardsPage.constructor` | frontend/src/pages/BoardsPage.tsx:18-35 | the initial cells, mode `'edit'`, and the invariant that `users` is empty |
| `Boards.BoardsPage.TasksLoaded` | frontend/src/pages/BoardsPage.tsx:44-69 | a loaded list replaces `tasks` and the board list becomes `Dedup` of it; a failure records its message; both end loading |
| `Boards.BoardsPage.CreateClick` | frontend/src/pages/BoardsPage.tsx:78-90 | the form is reset to all `''` with status `'Backlog'`, nothing is selected, mode is `'create'`, the modal opens; nothing else changes |
| `Boards.BoardsPage.CloseModal` | frontend/src/pages/BoardsPage.tsx:92-95 | only the modal flag changes, to closed |
| `Boards.BoardsPage.InputChange` | frontend/src/pages/BoardsPage.tsx:97-100 | only the form changes, by the single-field edit |
| `Boards.BoardsPage.UpdateTask` | frontend/src/pages/BoardsPage.tsx:102-140 | without a selection nothing is sent and the error is set; otherwise the id and body are sent; a failure sets the error; a success replaces the tasks with that id by the selected task with the form applied, with no assignee, and closes the modal |
| `Boards.BoardsPage.CreateTask` | frontend/src/pages/BoardsPage.tsx:142-193 | with no task of the chosen board nothing is sent, the error is set and `tasks` is unchanged; a failure sets the error; a success appends exactly one task after the unchanged prefix and closes the modal |
| `BoardColumns.Column` | frontend/src/pages/BoardPage.tsx:94-96 | a column of a board that is not loaded is empty |
| `BoardColumns.ToDo` | frontend/src/pages/BoardPage.tsx:94-96 | the "To Do" column; stated by `BoardColumns.ColumnsPartition`, `BoardColumns.ColumnsKeepOrder` and `BoardColumns.ColumnsCoverBoard` |
| `BoardColumns.Doing` | frontend/src/pages/BoardPage.tsx:123-125 | the "In Progress" column; stated by the same three lemmas |
| `BoardColumns.Finished` | frontend/src/pages/BoardPage.tsx:152-154 | the "Done" column; stated by the same three lemmas |
| `BoardColumns.ColumnMembership` | frontend/src/pages/BoardPage.tsx:94-154 | a task is in a column iff it is on the board with exactly that column's status |
| `BoardColumns.ColumnsPartition` | frontend/src/pages/BoardPage.tsx:94-154 | To Do, In Progress and Done hold exactly the `"Backlog"`, `"InProgress"` and `"Done"` tasks; they are pairwise disjoint; any other status is in no column |
| `BoardColumns.ColumnsKeepOrder` | frontend/src/pages/BoardPage.tsx:94-154 | each column keeps the board's relative order |
| `BoardColumns.ColumnsEmptyWhileLoading` | frontend/src/pages/BoardPage.tsx:94-154 | with the board not yet loaded all three columns are empty |
| `BoardColumns.ColumnsCoverBoard` | frontend/src/pages/BoardPage.tsx:94-154 | when every task has one of the three statuses, the column sizes add up to the board's size |
| `TasksSlice.TasksStore.constructor` | frontend/src/features/tasks/tasksSlice.ts:21-27 | no tasks, not loading, no error, nothing selected, modal closed |
| `TasksSlice.TasksStore.SetSelectedTask` | frontend/src/features/tasks/tasksSlice.ts:29-31 | only `selectedTask` changes |
| `TasksSlice.TasksStore.OpenModal` | frontend/src/features/tasks/tasksSlice.ts:32-34 | only `isModalOpen` changes, to true; on an open modal it changes nothing |
| `TasksSlice.TasksStore.CloseModal` | frontend/src/features/tasks/tasksSlice.ts:35-37 | only `isModalOpen` changes, to false; on a closed modal it changes nothing |
| `TasksSlice.TasksStore.FetchPending` | frontend/src/features/tasks/tasksSlice.ts:41-44 | loading becomes true and the error is cleared; nothing else changes |
| `TasksSlice.TasksStore.FetchFulfilled` | frontend/src/features/tasks/tasksSlice.ts:45-48 | loading ends and the payload replaces the list; the error and the rest are unchanged |
| `TasksSlice.TasksStore.FetchRejected` | frontend/src/features/tasks/tasksSlice.ts:49-52 | loading ends and the error is the payload; the list and the rest are unchanged |
| `TasksSlice.TasksStore.FetchTasks` | frontend/src/features/tasks/tasksSlice.ts:5-52 | pending then fulfilled ends not loading with no error and the fetched list; pending then rejected ends not loading with the message and the old list |
| `TaskModalHook.TaskModal.constructor` | frontend/src/hooks/useTaskModal.ts:5-7 | closed, mode `'create'`, no task |
| `TaskModalHook.TaskModal.OpenCreateModal` | frontend/src/hooks/useTaskModal.ts:9-13 | open, mode `'create'`, no task, whatever the prior state |
| `TaskModalHook.TaskModal.OpenEditModal` | frontend/src/hooks/useTaskModal.ts:15-19 | open, mode `'edit'`, the given task |
| `TaskModalHook.TaskModal.CloseModal` | frontend/src/hooks/useTaskModal.ts:21-23 | only `modalOpen` changes, to false; mode and task are kept; closing twice is closing once |

## Left out

- HTTP: the axios calls, headers, URLs and response envelopes, and the `useEffect`
  plumbing that issues them. Each request is a `Response` argument of the handler that
  would receive its answer.
- Asynchrony: the model treats a request and its answer as one atomic step. Races
  between requests that answer out of order are not modelled.
- `console.error`, `alert`, JSX rendering, styling, and the loading and error views.
- `String.prototype.toLowerCase` is the abstract parameter `lower`. Unicode case
  folding is not modelled.
- `createdAt` on a created task (`new Date().toISOString()`) is not a field of the
  model. `Date.now()`, the fallback id, is the parameter `now`.
- The spreads `{ ...task, ...formData }` and `{ ...selectedTask, ...payload }` also put
  an `assigneeId` property on the local task object. Nothing reads it, and it is not a
  field of the model.
- `{ ...response.data }` on create: only the response's `id` is modelled. Every other
  task field is overwritten by the handler, and server fields outside the task record
  are not modelled.
- The Boards page's error cell holds `error.message` strings. The model stores them as
  `PageError` values instead: `RequestError(message)` for a failed request,
  `BoardIdNotFound` for the fixed message thrown when no task has the chosen board
  name, and `NoSelectedTask` for the engine's `TypeError` text when a `null` selection
  is read. The exact message texts are not modelled.
- `Boards.BoardsPage.CreateTask` keeps `uniqueBoards` as it was, as the page does. It
  equals `Dedup` of the new list only when board names are consistent per id
  (`Boards.CreateKeepsBoards`). `Boards.CreateCanStaleBoards` shows a list where it does not.
- The distinction between `null` and `undefined` for a missing assignee: both are
  `None`.
- JavaScript number semantics of ids (fractions, `NaN`): ids are integers.
- The Boards page's `modalOpen`/`onModalClose` props (the effect that calls
  `handleCreateClick` when the prop is set, and the optional close callback): the
  application never passes them. `CreateClick` models the handler itself.
- `frontend/src/components/TaskModal.tsx` (form rendering, choice of button by mode),
  `Header.tsx`, `App.tsx`, `frontend/src/api/metods.ts` and `frontend/eslint.config.js`
  are not part of this model.
