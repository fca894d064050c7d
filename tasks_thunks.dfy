/** The task thunks: what each resolves or rejects with, given the outcome of
    its API call, and which further thunks it dispatches. */
module TasksThunks {
  import opened Domain
  import opened TaskLists
  import opened AsyncOutcome
  import opened DecimalText
  import TasksSlice

  /** A thunk dispatched from inside another one, to refetch. */
  datatype Refetch = RefetchAllTasks | RefetchTasksOnBoard(boardId: int)

  /** How a mutating thunk settles and what it dispatched before, in order. */
  datatype Run<T> = Run(dispatched: seq<Refetch>, settled: Settled<T>)

  /** What `updateTaskStatus` resolves with. */
  datatype StatusChange = StatusChange(taskId: int, status: Status)

  const AllTasksFallback := "Ошибка получения задач"
  const UsersFallback := "Ошибка получения юзеров"
  const CreateFallback := "Ошибка создания задачи"
  const UpdateFallback := "Ошибка обновления задачи"

  /** The board-tasks fallback, which names the board. */
  function BoardTasksFallback(boardId: int): string
  {
    "Ошибка запроса заданий для доски " + IntText(boardId)
  }

  /** Every task of the payload with `boardId` set to the requested board. */
  function StampBoardId(ts: seq<Task>, boardId: int): (r: seq<Task>)
    ensures |r| == |ts|
    ensures forall i :: 0 <= i < |r| ==> r[i] == ts[i].(boardId := Some(boardId))
  {
    if ts == [] then [] else [ts[0].(boardId := Some(boardId))] + StampBoardId(ts[1..], boardId)
  }

  /** Stamping keeps the tasks, their order and every other field: only
      `boardId` changes, and every task carries the requested board. */
  lemma {:induction false} StampKeepsTasks(ts: seq<Task>, boardId: int)
    ensures Ids(StampBoardId(ts, boardId)) == Ids(ts)
    ensures forall t :: t in StampBoardId(ts, boardId) ==> t.boardId == Some(boardId)
    ensures forall i :: 0 <= i < |ts| ==> StampBoardId(ts, boardId)[i].(boardId := ts[i].boardId) == ts[i]
  {
    if ts != [] {
      StampKeepsTasks(ts[1..], boardId);
    }
  }

  function FetchTasksOnBoard(boardId: int, o: Outcome<seq<Task>>): (r: Settled<seq<Task>>)
    ensures o.Ok? <==> r.Resolved?
    ensures o.Ok? ==> r.value == StampBoardId(o.data, boardId)
    ensures !o.Ok? ==> r.reason == Some(RejectReason(o, BoardTasksFallback(boardId)))
  {
    match o
    case Ok(data) => Resolved(StampBoardId(data, boardId))
    case _ => RejectedWithValue(Some(RejectReason(o, BoardTasksFallback(boardId))))
  }

  function FetchAllTasks(o: Outcome<seq<Task>>): (r: Settled<seq<Task>>)
    ensures o.Ok? ==> r == Resolved(o.data)
    ensures !o.Ok? ==> r == RejectedWithValue(Some(RejectReason(o, AllTasksFallback)))
  {
    match o
    case Ok(data) => Resolved(data)
    case _ => RejectedWithValue(Some(RejectReason(o, AllTasksFallback)))
  }

  function FetchAllUsers(o: Outcome<seq<User>>): (r: Settled<seq<User>>)
    ensures o.Ok? ==> r == Resolved(o.data)
    ensures !o.Ok? ==> r == RejectedWithValue(Some(RejectReason(o, UsersFallback)))
  {
    match o
    case Ok(data) => Resolved(data)
    case _ => RejectedWithValue(Some(RejectReason(o, UsersFallback)))
  }

  /** `createNewTask`: on success it refetches all tasks and then the tasks of
      the new task's board, and resolves with the created task; on failure it
      dispatches nothing and rejects with the message or its fallback. */
  function CreateNewTask(boardId: int, reply: Reply<Task>): (r: Run<Task>)
    ensures reply.Done? ==> r.dispatched == [RefetchAllTasks, RefetchTasksOnBoard(boardId)]
    ensures reply.Done? ==> r.settled == Resolved(reply.value)
    ensures reply.Error? ==> r.dispatched == [] && r.settled == RejectedWithValue(Some(MessageOr(reply.message, CreateFallback)))
  {
    match reply
    case Done(created) => Run([RefetchAllTasks, RefetchTasksOnBoard(boardId)], Resolved(created))
    case Error(message) => Run([], RejectedWithValue(Some(MessageOr(message, CreateFallback))))
  }

  /** `updateExistingTask`: on success it refetches all tasks, and the tasks of
      the updated task's board only when that board id is truthy (present and
      non-zero); it resolves with the updated task. */
  function UpdateExistingTask(reply: Reply<Task>): (r: Run<Task>)
    ensures reply.Done? ==> r.settled == Resolved(reply.value) && |r.dispatched| >= 1 && r.dispatched[0] == RefetchAllTasks
    ensures reply.Done? ==>
      (|r.dispatched| == 2 <==> reply.value.boardId.Some? && reply.value.boardId.value != 0)
    ensures reply.Done? && |r.dispatched| == 2 ==> r.dispatched[1] == RefetchTasksOnBoard(reply.value.boardId.value)
    ensures reply.Done? ==> |r.dispatched| <= 2
    ensures reply.Error? ==> r.dispatched == [] && r.settled == RejectedWithValue(Some(MessageOr(reply.message, UpdateFallback)))
  {
    match reply
    case Done(updated) =>
      var boardRefetch := if updated.boardId.Some? && updated.boardId.value != 0
        then [RefetchTasksOnBoard(updated.boardId.value)] else [];
      Run([RefetchAllTasks] + boardRefetch, Resolved(updated))
    case Error(message) => Run([], RejectedWithValue(Some(MessageOr(message, UpdateFallback))))
  }

  /** `updateTaskStatus`: resolves with exactly its input, and rejects with the
      error's message as it is, with no fallback. */
  function UpdateTaskStatus(taskId: int, status: Status, reply: Reply<()>): (r: Settled<StatusChange>)
    ensures reply.Done? ==> r.Resolved? && r.value.taskId == taskId && r.value.status == status
    ensures reply.Error? ==> r == RejectedWithValue(reply.message)
  {
    match reply
    case Done(_) => Resolved(StatusChange(taskId, status))
    case Error(message) => RejectedWithValue(message)
  }

  /** A fetch thunk always rejects with a value, so when its rejection is not
      an abort the slice shows exactly the thunk's reason and never its own
      fallback. */
  lemma FetchRejectionReachesSlice(s: TasksSlice.TasksState, boardId: int, o: Outcome<seq<Task>>, message: Option<string>)
    requires !o.Ok?
    ensures
      var reason := FetchTasksOnBoard(boardId, o).reason;
      var r := TasksSlice.Reduce(s, TasksSlice.FetchTasksOnBoardRejected(Rejection(false, reason, message)));
      r.currentBoardError == reason && reason.Some?
    ensures
      var reason := FetchAllTasks(o).reason;
      var r := TasksSlice.Reduce(s, TasksSlice.FetchAllTasksRejected(Rejection(false, reason, message)));
      r.error == reason && reason.Some?
  {
  }
}
