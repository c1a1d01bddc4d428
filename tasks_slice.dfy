/** The Redux `tasks` slice: the fetched list, the request flags and the modal flags,
    with the reducers that assign them in place. */
module TasksSlice {
  import opened Common
  import opened Tasks

  /** The slice state as one value. */
  datatype SliceState = SliceState(
    tasks: seq<Task>,
    loading: bool,
    error: Option<string>,
    selectedTask: Option<Task>,
    isModalOpen: bool)

  /** `initialState`. */
  const Initial := SliceState([], false, None, None, false)

  class TasksStore {
    var tasks: seq<Task>
    var loading: bool
    var error: Option<string>
    var selectedTask: Option<Task>
    var isModalOpen: bool

    ghost function State(): SliceState
      reads this
    {
      SliceState(tasks, loading, error, selectedTask, isModalOpen)
    }

    /** The store starts at `initialState`: no tasks, not loading, no error, nothing
        selected, the modal closed. */
    constructor ()
      ensures State() == Initial
      ensures tasks == [] && !loading && error.None? && selectedTask.None? && !isModalOpen
    {
      tasks, loading, error, selectedTask, isModalOpen := [], false, None, None, false;
    }

    /** `setSelectedTask(payload)`: only `selectedTask` changes. */
    method SetSelectedTask(payload: Option<Task>)
      modifies this
      ensures State() == old(State()).(selectedTask := payload)
    {
      selectedTask := payload;
    }

    /** `openModal`: only `isModalOpen` changes, to true; a second call changes nothing. */
    method OpenModal()
      modifies this
      ensures State() == old(State()).(isModalOpen := true)
      ensures old(isModalOpen) ==> State() == old(State())
    {
      isModalOpen := true;
    }

    /** `closeModal`: only `isModalOpen` changes, to false; a second call changes nothing. */
    method CloseModal()
      modifies this
      ensures State() == old(State()).(isModalOpen := false)
      ensures !old(isModalOpen) ==> State() == old(State())
    {
      isModalOpen := false;
    }

    /** `fetchTasks.pending`: loading, and the previous error cleared. */
    method FetchPending()
      modifies this
      ensures State() == old(State()).(loading := true, error := None)
    {
      loading := true;
      error := None;
    }

    /** `fetchTasks.fulfilled`: the payload replaces the list; `error` is left as it was. */
    method FetchFulfilled(payload: seq<Task>)
      modifies this
      ensures State() == old(State()).(loading := false, tasks := payload)
    {
      loading := false;
      tasks := payload;
    }

    /** `fetchTasks.rejected` with the `rejectWithValue` message: the list is kept. */
    method FetchRejected(payload: string)
      modifies this
      ensures State() == old(State()).(loading := false, error := Some(payload))
    {
      loading := false;
      error := Some(payload);
    }

    /** One dispatch of the `fetchTasks` thunk: pending, then fulfilled with the response
        body or rejected with the error message. A fulfilled fetch ends with no error. */
    method FetchTasks(response: Response<seq<Task>>)
      modifies this
      ensures !loading
      ensures response.Success? ==> State() == old(State()).(loading := false, error := None, tasks := response.data)
      ensures response.Failure? ==> State() == old(State()).(loading := false, error := Some(response.message))
    {
      FetchPending();
      match response
      case Success(data) => FetchFulfilled(data);
      case Failure(message) => FetchRejected(message);
    }
  }
}
