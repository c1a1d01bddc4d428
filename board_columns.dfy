/** The Board page: the tasks of one board (`GET /boards/{id}`), shown in three fixed
    status columns. Until the request answers, `board` is `null` (`None` here). */
module BoardColumns {
  import opened Common
  import opened Seqs
  import opened Tasks

  const Backlog := "Backlog"
  const InProgress := "InProgress"
  const Done := "Done"

  /** `board?.map(task => task.status === status && <Card/>)`: React renders nothing for
      `false` and `undefined`, so a column shows the board's tasks with that status. */
  function Column(board: Option<seq<Task>>, status: string): (r: seq<Task>)
    ensures board.None? ==> r == []
  {
    match board
    case None => []
    case Some(tasks) => Filter(tasks, HasStatus(status))
  }

  /** The "To Do" column. */
  function ToDo(board: Option<seq<Task>>): seq<Task> { Column(board, Backlog) }

  /** The "In Progress" column. */
  function Doing(board: Option<seq<Task>>): seq<Task> { Column(board, InProgress) }

  /** The "Done" column. */
  function Finished(board: Option<seq<Task>>): seq<Task> { Column(board, Done) }

  /** A task of a loaded board is in a column iff its status is exactly that column's. */
  lemma {:induction false} ColumnMembership(tasks: seq<Task>, status: string, t: Task)
    ensures t in Column(Some(tasks), status) <==> t in tasks && t.status == Some(status)
  {
    if t in tasks && t.status == Some(status) {
      var i :| 0 <= i < |tasks| && tasks[i] == t;
      assert HasStatus(status)(tasks[i]);
    }
    if t in Column(Some(tasks), status) {
      var r := Column(Some(tasks), status);
      var i :| 0 <= i < |r| && r[i] == t;
    }
  }

  /** The three columns select by `"Backlog"`, `"InProgress"` and `"Done"`; they are
      pairwise disjoint, and a task with any other status (or none) is in no column. */
  lemma ColumnsPartition(tasks: seq<Task>, t: Task)
    ensures t in ToDo(Some(tasks)) <==> t in tasks && t.status == Some("Backlog")
    ensures t in Doing(Some(tasks)) <==> t in tasks && t.status == Some("InProgress")
    ensures t in Finished(Some(tasks)) <==> t in tasks && t.status == Some("Done")
    ensures !(t in ToDo(Some(tasks)) && t in Doing(Some(tasks)))
    ensures !(t in ToDo(Some(tasks)) && t in Finished(Some(tasks)))
    ensures !(t in Doing(Some(tasks)) && t in Finished(Some(tasks)))
    ensures t.status !in {Some("Backlog"), Some("InProgress"), Some("Done")} ==>
      t !in ToDo(Some(tasks)) && t !in Doing(Some(tasks)) && t !in Finished(Some(tasks))
  {
    ColumnMembership(tasks, Backlog, t);
    ColumnMembership(tasks, InProgress, t);
    ColumnMembership(tasks, Done, t);
  }

  /** Each column keeps the relative order of the board's tasks. */
  lemma ColumnsKeepOrder(tasks: seq<Task>)
    ensures IsSubsequence(ToDo(Some(tasks)), tasks)
    ensures IsSubsequence(Doing(Some(tasks)), tasks)
    ensures IsSubsequence(Finished(Some(tasks)), tasks)
  {
    FilterIsSubsequence(tasks, HasStatus(Backlog));
    FilterIsSubsequence(tasks, HasStatus(InProgress));
    FilterIsSubsequence(tasks, HasStatus(Done));
  }

  /** Before the board is loaded all three columns are empty. */
  lemma ColumnsEmptyWhileLoading()
    ensures ToDo(None) == [] && Doing(None) == [] && Finished(None) == []
  {
  }

  /** When every task has one of the three statuses, every task is shown exactly once:
      the column lengths add up to the board's length. */
  lemma {:induction false} ColumnsCoverBoard(tasks: seq<Task>)
    requires forall i :: 0 <= i < |tasks| ==>
      tasks[i].status in {Some("Backlog"), Some("InProgress"), Some("Done")}
    ensures |ToDo(Some(tasks))| + |Doing(Some(tasks))| + |Finished(Some(tasks))| == |tasks|
  {
    FilterLength(tasks, HasStatus(Backlog));
    FilterLength(tasks, HasStatus(InProgress));
    FilterLength(tasks, HasStatus(Done));
    CountsAddUp(tasks);
  }

  lemma {:induction false} CountsAddUp(tasks: seq<Task>)
    requires forall i :: 0 <= i < |tasks| ==>
      tasks[i].status in {Some("Backlog"), Some("InProgress"), Some("Done")}
    ensures Count(tasks, HasStatus(Backlog)) + Count(tasks, HasStatus(InProgress))
          + Count(tasks, HasStatus(Done)) == |tasks|
  {
    if tasks != [] {
      CountsAddUp(tasks[1..]);
    }
  }
}
