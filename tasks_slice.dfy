/** The `tasks` slice: its state, every case reducer as one function of state
    and action, the store that applies the cases in place, and what each case
    keeps and changes. */
module TasksSlice {
  import opened Domain
  import opened TaskLists
  import opened Grouping
  import opened OptimisticMove
  import opened MergeUpdated

  /** `TasksState`. A `null` error or context board is `None`. */
  datatype TasksState = TasksState(
    tasks: seq<Task>,
    currentBoardTasks: Grouped,
    users: seq<User>,
    loading: bool,
    loadingCurrentBoard: bool,
    loadingUsers: bool,
    error: Option<string>,
    usersError: Option<string>,
    currentBoardError: Option<string>,
    contextBoardId: Option<int>)

  const InitialState := TasksState([], EmptyGrouped, [], false, false, false, None, None, None, None)

  /** The actions the slice sees: its own three reducers and the lifecycle
      actions of the thunks. `updateTaskStatus` has no case in the slice. */
  datatype TasksAction =
    | ClearCurrentBoardTasks
    | SetContextBoardId(boardId: Option<int>)
    | OptimisticallyUpdateTaskStatus(drop: DropResult)
    | FetchAllTasksPending
    | FetchAllTasksFulfilled(allTasks: seq<Task>)
    | FetchAllTasksRejected(rej: Rejection)
    | FetchAllUsersPending
    | FetchAllUsersFulfilled(allUsers: seq<User>)
    | FetchAllUsersRejected(rej: Rejection)
    | FetchTasksOnBoardPending
    | FetchTasksOnBoardFulfilled(boardTasks: seq<Task>)
    | FetchTasksOnBoardRejected(rej: Rejection)
    | CreateNewTaskPending
    | CreateNewTaskFulfilled
    | CreateNewTaskRejected(rej: Rejection)
    | UpdateExistingTaskPending
    | UpdateExistingTaskFulfilled(updated: Task)
    | UpdateExistingTaskRejected(rej: Rejection)
    | UpdateTaskStatusPending
    | UpdateTaskStatusFulfilled(taskId: int, status: Status)
    | UpdateTaskStatusRejected(rej: Rejection)

  // The fallback messages, spelled as in the slice (the first one included).
  const UnknownTasksError := "Незвестная ошибка получения задач"
  const UnknownUsersError := "Неизвестная ошибка получения юзеров"
  const UnknownBoardTasksError := "Неизвестная ошибка запроса задач для доски"
  const CreateTaskError := "Ошибка создания задачи"
  const UpdateTaskError := "Ошибка обновления задачи"

  /** The error a fetch's `rejected` case leaves: an abort keeps the previous
      one; any other rejection reports its payload, or the fallback when it
      carries none. */
  function ErrorAfterFetchRejected(prior: Option<string>, rej: Rejection, fallback: string): (r: Option<string>)
    ensures rej.isAbort ==> r == prior
    ensures !rej.isAbort ==> r.Some? && r.value == Coalesce(rej.payload, fallback)
  {
    if rej.isAbort then prior else Some(Coalesce(rej.payload, fallback))
  }

  /** The slice reducer: the state after one action. An action without a case
      leaves the state as it is. */
  function Reduce(s: TasksState, a: TasksAction): TasksState
  {
    match a
    case ClearCurrentBoardTasks =>
      s.(currentBoardTasks := EmptyGrouped, currentBoardError := None, loadingCurrentBoard := false)
    case SetContextBoardId(id) => s.(contextBoardId := id)
    case OptimisticallyUpdateTaskStatus(d) => s.(currentBoardTasks := ApplyMove(s.currentBoardTasks, d))
    case FetchAllTasksPending => s.(loading := true, error := None)
    case FetchAllTasksFulfilled(p) => s.(loading := false, tasks := p)
    case FetchAllTasksRejected(rej) =>
      s.(loading := false, error := ErrorAfterFetchRejected(s.error, rej, UnknownTasksError))
    case FetchAllUsersPending => s.(loadingUsers := true, usersError := None)
    case FetchAllUsersFulfilled(p) => s.(loadingUsers := false, users := p)
    case FetchAllUsersRejected(rej) =>
      s.(loadingUsers := false, usersError := ErrorAfterFetchRejected(s.usersError, rej, UnknownUsersError))
    case FetchTasksOnBoardPending => s.(loadingCurrentBoard := true, currentBoardError := None)
    case FetchTasksOnBoardFulfilled(p) => s.(loadingCurrentBoard := false, currentBoardTasks := GroupByStatus(p))
    case FetchTasksOnBoardRejected(rej) =>
      s.(loadingCurrentBoard := false,
         currentBoardError := ErrorAfterFetchRejected(s.currentBoardError, rej, UnknownBoardTasksError))
    case CreateNewTaskPending => s.(loading := true)
    case CreateNewTaskFulfilled => s.(loading := false)
    case CreateNewTaskRejected(rej) => s.(loading := false, error := Some(Coalesce(rej.payload, CreateTaskError)))
    case UpdateExistingTaskPending => s.(loading := true)
    case UpdateExistingTaskFulfilled(t) =>
      s.(loading := false, tasks := ReplaceFirst(s.tasks, t), currentBoardTasks := MergeIntoBoard(s.currentBoardTasks, t))
    case UpdateExistingTaskRejected(rej) => s.(loading := false, error := Some(Coalesce(rej.payload, UpdateTaskError)))
    case UpdateTaskStatusPending => s
    case UpdateTaskStatusFulfilled(_, _) => s
    case UpdateTaskStatusRejected(_) => s
  }

  /** The `reduce` of `fetchTasksOnBoard.fulfilled`: starting from three empty
      buckets, each task is pushed onto the bucket of its status. */
  method GroupPayload(payload: seq<Task>) returns (acc: Grouped)
    ensures acc == GroupByStatus(payload)
  {
    acc := EmptyGrouped;
    var i := 0;
    while i < |payload|
      invariant 0 <= i <= |payload|
      invariant acc == GroupByStatus(payload[..i])
    {
      var t := payload[i];
      ghost var prefix := payload[..i];
      assert payload[..i + 1] == prefix + [t];
      GroupSnoc(prefix, t);
      if !t.status.Unlisted? {
        acc := WithBucket(acc, t.status, Bucket(acc, t.status) + [t]);
      }
      i := i + 1;
    }
    assert payload[..i] == payload;
  }

  /** `findIndex` by id, then `tasks[i] = updated` when the id was found. */
  method OverwriteById(tasks: seq<Task>, updated: Task) returns (list: seq<Task>)
    ensures list == ReplaceFirst(tasks, updated)
  {
    list := tasks;
    var taskIndex := IndexOfId(list, updated.id);
    if taskIndex != -1 {
      list := list[taskIndex := updated];
    }
  }

  /** Filters the id out of each bucket in turn, then pushes the task onto the
      bucket of its status when the board has one. */
  method MergeTask(currentBoardTasks: Grouped, updated: Task) returns (board: Grouped)
    ensures board == MergeIntoBoard(currentBoardTasks, updated)
  {
    board := currentBoardTasks;
    board := board.(backlog := RemoveId(board.backlog, updated.id));
    board := board.(inProgress := RemoveId(board.inProgress, updated.id));
    board := board.(done := RemoveId(board.done, updated.id));
    assert board == WithoutId(currentBoardTasks, updated.id);
    if !updated.status.Unlisted? {
      board := WithBucket(board, updated.status, Bucket(board, updated.status) + [updated]);
    }
  }

  /** The store: the slice state as fields that each case reducer assigns in
      place, as Immer lets the source do. */
  class TasksStore {
    var tasks: seq<Task>
    var currentBoardTasks: Grouped
    var users: seq<User>
    var loading: bool
    var loadingCurrentBoard: bool
    var loadingUsers: bool
    var error: Option<string>
    var usersError: Option<string>
    var currentBoardError: Option<string>
    var contextBoardId: Option<int>

    function Snapshot(): TasksState
      reads this
    {
      TasksState(tasks, currentBoardTasks, users, loading, loadingCurrentBoard, loadingUsers,
                 error, usersError, currentBoardError, contextBoardId)
    }

    constructor ()
      ensures Snapshot() == InitialState
    {
      tasks, currentBoardTasks, users := [], EmptyGrouped, [];
      loading, loadingCurrentBoard, loadingUsers := false, false, false;
      error, usersError, currentBoardError := None, None, None;
      contextBoardId := None;
    }

    method ClearCurrentBoardTasks()
      modifies this
      ensures Snapshot() == Reduce(old(Snapshot()), TasksAction.ClearCurrentBoardTasks)
    {
      currentBoardTasks := EmptyGrouped;
      currentBoardError := None;
      loadingCurrentBoard := false;
    }

    method SetContextBoardId(boardId: Option<int>)
      modifies this
      ensures Snapshot() == Reduce(old(Snapshot()), TasksAction.SetContextBoardId(boardId))
    {
      contextBoardId := boardId;
    }

    /** Finds the dragged task in the source bucket, filters it out, sets its
        status to the destination column and splices it in at the drop index. */
    method OptimisticallyUpdateTaskStatus(d: DropResult)
      modifies this
      ensures Snapshot() == Reduce(old(Snapshot()), TasksAction.OptimisticallyUpdateTaskStatus(d))
    {
      if d.destination.None? {
        return;
      }
      var src, dst := d.source.droppableId, d.destination.value.droppableId;
      var taskToMove := FindById(Bucket(currentBoardTasks, src), d.draggableId);
      if taskToMove.None? {
        return;
      }
      currentBoardTasks := WithBucket(currentBoardTasks, src, RemoveId(Bucket(currentBoardTasks, src), d.draggableId));
      var moved := taskToMove.value.(status := dst);
      currentBoardTasks := WithBucket(currentBoardTasks, dst,
        InsertAt(Bucket(currentBoardTasks, dst), d.destination.value.index, moved));
    }

    method FetchAllTasksPending()
      modifies this
      ensures Snapshot() == Reduce(old(Snapshot()), TasksAction.FetchAllTasksPending)
    {
      loading := true;
      error := None;
    }

    method FetchAllTasksFulfilled(payload: seq<Task>)
      modifies this
      ensures Snapshot() == Reduce(old(Snapshot()), TasksAction.FetchAllTasksFulfilled(payload))
    {
      loading := false;
      tasks := payload;
    }

    method FetchAllTasksRejected(rej: Rejection)
      modifies this
      ensures Snapshot() == Reduce(old(Snapshot()), TasksAction.FetchAllTasksRejected(rej))
    {
      loading := false;
      if !rej.isAbort {
        error := Some(Coalesce(rej.payload, UnknownTasksError));
      }
    }

    method FetchAllUsersPending()
      modifies this
      ensures Snapshot() == Reduce(old(Snapshot()), TasksAction.FetchAllUsersPending)
    {
      loadingUsers := true;
      usersError := None;
    }

    method FetchAllUsersFulfilled(payload: seq<User>)
      modifies this
      ensures Snapshot() == Reduce(old(Snapshot()), TasksAction.FetchAllUsersFulfilled(payload))
    {
      loadingUsers := false;
      users := payload;
    }

    method FetchAllUsersRejected(rej: Rejection)
      modifies this
      ensures Snapshot() == Reduce(old(Snapshot()), TasksAction.FetchAllUsersRejected(rej))
    {
      loadingUsers := false;
      if !rej.isAbort {
        usersError := Some(Coalesce(rej.payload, UnknownUsersError));
      }
    }

    method FetchTasksOnBoardPending()
      modifies this
      ensures Snapshot() == Reduce(old(Snapshot()), TasksAction.FetchTasksOnBoardPending)
    {
      loadingCurrentBoard := true;
      currentBoardError := None;
    }

    method FetchTasksOnBoardFulfilled(payload: seq<Task>)
      modifies this
      ensures Snapshot() == Reduce(old(Snapshot()), TasksAction.FetchTasksOnBoardFulfilled(payload))
    {
      loadingCurrentBoard := false;
      currentBoardTasks := GroupPayload(payload);
    }

    method FetchTasksOnBoardRejected(rej: Rejection)
      modifies this
      ensures Snapshot() == Reduce(old(Snapshot()), TasksAction.FetchTasksOnBoardRejected(rej))
    {
      loadingCurrentBoard := false;
      if !rej.isAbort {
        currentBoardError := Some(Coalesce(rej.payload, UnknownBoardTasksError));
      }
    }

    method CreateNewTaskPending()
      modifies this
      ensures Snapshot() == Reduce(old(Snapshot()), TasksAction.CreateNewTaskPending)
    {
      loading := true;
    }

    method CreateNewTaskFulfilled()
      modifies this
      ensures Snapshot() == Reduce(old(Snapshot()), TasksAction.CreateNewTaskFulfilled)
    {
      loading := false;
    }

    method CreateNewTaskRejected(rej: Rejection)
      modifies this
      ensures Snapshot() == Reduce(old(Snapshot()), TasksAction.CreateNewTaskRejected(rej))
    {
      loading := false;
      error := Some(Coalesce(rej.payload, CreateTaskError));
    }

    method UpdateExistingTaskPending()
      modifies this
      ensures Snapshot() == Reduce(old(Snapshot()), TasksAction.UpdateExistingTaskPending)
    {
      loading := true;
    }

    method UpdateExistingTaskFulfilled(updated: Task)
      modifies this
      ensures Snapshot() == Reduce(old(Snapshot()), TasksAction.UpdateExistingTaskFulfilled(updated))
    {
      var list := OverwriteById(tasks, updated);
      var board := MergeTask(currentBoardTasks, updated);
      UpdateFulfilledFields(Snapshot(), updated);
      loading, tasks, currentBoardTasks := false, list, board;
    }

    method UpdateExistingTaskRejected(rej: Rejection)
      modifies this
      ensures Snapshot() == Reduce(old(Snapshot()), TasksAction.UpdateExistingTaskRejected(rej))
    {
      loading := false;
      error := Some(Coalesce(rej.payload, UpdateTaskError));
    }
  }

  lemma UpdateFulfilledFields(s: TasksState, t: Task)
    ensures Reduce(s, TasksAction.UpdateExistingTaskFulfilled(t))
         == s.(loading := false, tasks := ReplaceFirst(s.tasks, t), currentBoardTasks := MergeIntoBoard(s.currentBoardTasks, t))
  {
  }

  /** The three fetched resources, each with its own loading flag and error. */
  datatype Resource = AllTasks | AllUsers | BoardTasks

  function LoadingOf(s: TasksState, res: Resource): bool
  {
    match res
    case AllTasks => s.loading
    case AllUsers => s.loadingUsers
    case BoardTasks => s.loadingCurrentBoard
  }

  function ErrorOf(s: TasksState, res: Resource): Option<string>
  {
    match res
    case AllTasks => s.error
    case AllUsers => s.usersError
    case BoardTasks => s.currentBoardError
  }

  function PendingOf(res: Resource): TasksAction
  {
    match res
    case AllTasks => FetchAllTasksPending
    case AllUsers => FetchAllUsersPending
    case BoardTasks => FetchTasksOnBoardPending
  }

  function RejectedOf(res: Resource, rej: Rejection): TasksAction
  {
    match res
    case AllTasks => FetchAllTasksRejected(rej)
    case AllUsers => FetchAllUsersRejected(rej)
    case BoardTasks => FetchTasksOnBoardRejected(rej)
  }

  function FallbackOf(res: Resource): string
  {
    match res
    case AllTasks => UnknownTasksError
    case AllUsers => UnknownUsersError
    case BoardTasks => UnknownBoardTasksError
  }

  /** The fetched data and the board context agree. */
  predicate SameData(r: TasksState, s: TasksState)
  {
    r.tasks == s.tasks && r.currentBoardTasks == s.currentBoardTasks && r.users == s.users
    && r.contextBoardId == s.contextBoardId
  }

  /** The flags and errors of every resource but `res` agree. */
  predicate OthersUnchanged(r: TasksState, s: TasksState, res: Resource)
  {
    forall o: Resource :: o != res ==> LoadingOf(r, o) == LoadingOf(s, o) && ErrorOf(r, o) == ErrorOf(s, o)
  }

  /** A fetch's `pending` case raises its own loading flag and clears its own
      error, and touches nothing else. */
  lemma PendingTouchesOnlyItsResource(s: TasksState, res: Resource)
    ensures var r := Reduce(s, PendingOf(res));
      LoadingOf(r, res) && ErrorOf(r, res) == None && SameData(r, s) && OthersUnchanged(r, s, res)
  {
  }

  /** A fetch's `rejected` case lowers its own loading flag. An abort leaves
      its error as it was; any other rejection sets it to the payload, or to the
      resource's fallback when there is no payload. Nothing else changes. */
  lemma RejectedFetch(s: TasksState, res: Resource, rej: Rejection)
    ensures var r := Reduce(s, RejectedOf(res, rej));
      && !LoadingOf(r, res) && SameData(r, s) && OthersUnchanged(r, s, res)
      && (rej.isAbort ==> ErrorOf(r, res) == ErrorOf(s, res))
      && (!rej.isAbort && rej.payload.Some? ==> ErrorOf(r, res) == rej.payload)
      && (!rej.isAbort && rej.payload.None? ==> ErrorOf(r, res) == Some(FallbackOf(res)))
  {
  }

  /** A fetch that is started and then aborted ends with no error shown for
      its resource and its loading flag down. */
  lemma AbortedFetchShowsNoError(s: TasksState, res: Resource, rej: Rejection)
    requires rej.isAbort
    ensures var r := Reduce(Reduce(s, PendingOf(res)), RejectedOf(res, rej));
      !LoadingOf(r, res) && ErrorOf(r, res) == None
  {
    PendingTouchesOnlyItsResource(s, res);
    RejectedFetch(Reduce(s, PendingOf(res)), res, rej);
  }

  /** `createNewTask.rejected` and `updateExistingTask.rejected` have no abort
      check: they always leave an error, the payload or their fallback. */
  lemma MutationRejectionsAlwaysReport(s: TasksState, rej: Rejection)
    ensures Reduce(s, CreateNewTaskRejected(rej)).error == Some(if rej.payload.Some? then rej.payload.value else CreateTaskError)
    ensures Reduce(s, UpdateExistingTaskRejected(rej)).error == Some(if rej.payload.Some? then rej.payload.value else UpdateTaskError)
    ensures !Reduce(s, CreateNewTaskRejected(rej)).loading && !Reduce(s, UpdateExistingTaskRejected(rej)).loading
  {
  }

  /** `clearCurrentBoardTasks` empties the three buckets, clears the board
      error and the board loading flag, and leaves every other field as it was. */
  lemma ClearResetsOnlyTheBoard(s: TasksState)
    ensures var r := Reduce(s, ClearCurrentBoardTasks);
      && Flatten(r.currentBoardTasks) == [] && r.currentBoardError == None && !r.loadingCurrentBoard
      && r.(currentBoardTasks := s.currentBoardTasks, currentBoardError := s.currentBoardError,
            loadingCurrentBoard := s.loadingCurrentBoard) == s
  {
  }

  /** `fetchAllTasks.fulfilled` replaces the task list wholesale and lowers
      `loading`; `createNewTask.fulfilled` only lowers `loading`: the created
      task reaches the state through the refetches, not through a merge. */
  lemma FulfilledCasesChangeLittle(s: TasksState, payload: seq<Task>)
    ensures Reduce(s, FetchAllTasksFulfilled(payload)).tasks == payload
    ensures Reduce(s, FetchAllTasksFulfilled(payload)).(tasks := s.tasks, loading := s.loading) == s
    ensures Reduce(s, CreateNewTaskFulfilled).(loading := s.loading) == s
    ensures !Reduce(s, CreateNewTaskFulfilled).loading
  {
  }

  /** The optimistic move changes only the board, and leaves it alone when the
      drop has no destination or the dragged id is not in the source column. */
  lemma MoveChangesOnlyTheBoard(s: TasksState, d: DropResult)
    ensures var r := Reduce(s, OptimisticallyUpdateTaskStatus(d));
      && r.(currentBoardTasks := s.currentBoardTasks) == s
      && (d.destination.None? ==> r == s)
      && ((forall t :: t in Bucket(s.currentBoardTasks, d.source.droppableId) ==> t.id != d.draggableId) ==> r == s)
  {
  }

  /** No case handles `updateTaskStatus`: whether the status update succeeds
      or fails, the optimistic move stays in place; nothing rolls it back. */
  lemma StatusUpdateNeverRollsBack(s: TasksState, d: DropResult, taskId: int, status: Status, rej: Rejection)
    ensures var moved := Reduce(s, OptimisticallyUpdateTaskStatus(d));
      && Reduce(moved, UpdateTaskStatusPending) == moved
      && Reduce(moved, UpdateTaskStatusFulfilled(taskId, status)) == moved
      && Reduce(moved, UpdateTaskStatusRejected(rej)) == moved
      && Reduce(moved, UpdateTaskStatusRejected(rej)).currentBoardTasks == ApplyMove(s.currentBoardTasks, d)
  {
    var moved := Reduce(s, OptimisticallyUpdateTaskStatus(d));
    StatusCasesChangeNothing(moved, UpdateTaskStatusPending);
    StatusCasesChangeNothing(moved, UpdateTaskStatusFulfilled(taskId, status));
    StatusCasesChangeNothing(moved, UpdateTaskStatusRejected(rej));
  }

  lemma StatusCasesChangeNothing(s: TasksState, a: TasksAction)
    requires a.UpdateTaskStatusPending? || a.UpdateTaskStatusFulfilled? || a.UpdateTaskStatusRejected?
    ensures Reduce(s, a) == s
  {
  }

  /** `fetchTasksOnBoard.fulfilled` replaces the board by the payload grouped
      by status: each bucket holds the payload's tasks of that status in
      payload order, and when every status is listed the buckets together hold
      exactly the payload. */
  lemma FetchedBoardPartitionsPayload(s: TasksState, payload: seq<Task>)
    ensures var r := Reduce(s, FetchTasksOnBoardFulfilled(payload));
      && !r.loadingCurrentBoard
      && forall c: Column :: IsSubsequence(Bucket(r.currentBoardTasks, c), payload)
    ensures var r := Reduce(s, FetchTasksOnBoardFulfilled(payload));
      forall c: Column, t :: t in Bucket(r.currentBoardTasks, c) <==> t in payload && t.status == c
    ensures (forall t :: t in payload ==> !t.status.Unlisted?) ==>
      var board := Reduce(s, FetchTasksOnBoardFulfilled(payload)).currentBoardTasks;
      multiset(Flatten(board)) == multiset(payload) && |Flatten(board)| == |payload|
  {
    forall c: Column ensures IsSubsequence(Bucket(GroupByStatus(payload), c), payload)
      && forall t :: t in Bucket(GroupByStatus(payload), c) <==> t in payload && t.status == c
    {
      GroupKeepsOrder(payload, c);
    }
    if forall t :: t in payload ==> !t.status.Unlisted? {
      GroupPartitions(payload);
    }
  }

  /** `updateExistingTask.fulfilled` overwrites the task in the list where its
      id is found and adds nothing when it is not, and leaves the id exactly
      once on the board (at the end of its status's bucket), or nowhere when
      its status has no column. */
  lemma UpdateFulfilledMerges(s: TasksState, t: Task)
    ensures var r := Reduce(s, UpdateExistingTaskFulfilled(t));
      && !r.loading && r.error == s.error
      && |r.tasks| == |s.tasks|
      && ((forall u :: u in s.tasks ==> u.id != t.id) ==> r.tasks == s.tasks)
      && (IndexOfId(s.tasks, t.id) >= 0 ==> r.tasks[IndexOfId(s.tasks, t.id)] == t)
      && CountId(Flatten(r.currentBoardTasks), t.id) == (if t.status.Unlisted? then 0 else 1)
  {
    MergeLeavesIdOnce(s.currentBoardTasks, t);
  }

  /** Every case keeps each task on the board in the bucket of its status. */
  lemma ReducePreservesWellFormed(s: TasksState, a: TasksAction)
    requires WellFormed(s.currentBoardTasks)
    ensures WellFormed(Reduce(s, a).currentBoardTasks)
  {
    match a
    case OptimisticallyUpdateTaskStatus(d) => MovePreservesWellFormed(s.currentBoardTasks, d);
    case UpdateExistingTaskFulfilled(t) => MergePreservesWellFormed(s.currentBoardTasks, t);
    case _ =>
  }
}
