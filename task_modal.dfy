/** The `useTaskModal` hook: whether the task modal is open, in which mode, and for
    which task. */
module TaskModalHook {
  import opened Common
  import opened Tasks
  import opened Forms

  /** The hook's state as one value. */
  datatype ModalState = ModalState(modalOpen: bool, modalMode: ModalMode, selectedTask: Option<Task>)

  class TaskModal {
    var modalOpen: bool
    var modalMode: ModalMode
    var selectedTask: Option<Task>

    ghost function State(): ModalState
      reads this
    {
      ModalState(modalOpen, modalMode, selectedTask)
    }

    /** The hook's initial state: closed, in create mode, with no task. */
    constructor ()
      ensures State() == ModalState(false, Create, None)
    {
      modalOpen, modalMode, selectedTask := false, Create, None;
    }

    /** `openCreateModal`: open, in create mode, with no task, whatever came before. */
    method OpenCreateModal()
      modifies this
      ensures State() == ModalState(true, Create, None)
    {
      modalMode := Create;
      selectedTask := None;
      modalOpen := true;
    }

    /** `openEditModal(task)`: open, in edit mode, for that task. */
    method OpenEditModal(task: Task)
      modifies this
      ensures State() == ModalState(true, Edit, Some(task))
    {
      modalMode := Edit;
      selectedTask := Some(task);
      modalOpen := true;
    }

    /** `closeModal`: closed; mode and task are kept, and closing twice is closing once. */
    method CloseModal()
      modifies this
      ensures State() == old(State()).(modalOpen := false)
      ensures !old(modalOpen) ==> State() == old(State())
    {
      modalOpen := false;
    }
  }
}
