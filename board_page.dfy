/** The board page's controller: the drag-end guard, the `openTask` deep
    link, closing the task modal, the mount and unmount effects, the loading
    flag, the board lookup and what the page renders. */
module BoardPage {
  import opened Domain
  import opened TaskLists
  import opened OptimisticMove
  import opened DecimalText
  import TasksSlice

  /** What the page dispatches to the store, in order. */
  datatype Dispatch =
    | OptimisticMove(drop: DropResult)
    | UpdateTaskStatus(taskId: int, status: Column)
    | FetchTasksOnBoard(boardId: int)
    | FetchBoards
    | FetchFilterBoards
    | FetchAllUsers
    | SetContextBoardId(contextId: Option<int>)
    | ClearCurrentBoardTasks
    | AbortTasksOnBoard
    | AbortBoards
    | AbortUsers

  /** `handleDragEnd`: nothing for a drop outside any column or back on the
      very slot it came from; otherwise the optimistic move, then the status
      update for the dragged task and the destination column. */
  function HandleDragEnd(d: DropResult): (r: seq<Dispatch>)
    ensures r == [] <==> d.destination.None? || d.destination.value == d.source
    ensures r != [] ==>
      r == [OptimisticMove(d), UpdateTaskStatus(d.draggableId, d.destination.value.droppableId)]
  {
    if d.destination.None?
       || (d.destination.value.droppableId == d.source.droppableId && d.destination.value.index == d.source.index)
    then []
    else [OptimisticMove(d), UpdateTaskStatus(d.draggableId, d.destination.value.droppableId)]
  }

  /** The page component's own `handleDragEnd`, with its second, repeated
      same-slot test. */
  function HandleDragEndInline(d: DropResult): (r: seq<Dispatch>)
    ensures r == HandleDragEnd(d)
  {
    if d.destination.None?
       || (d.destination.value.droppableId == d.source.droppableId && d.destination.value.index == d.source.index)
    then []
    else if d.destination.value.droppableId == d.source.droppableId && d.destination.value.index == d.source.index
    then []
    else [OptimisticMove(d), UpdateTaskStatus(d.draggableId, d.destination.value.droppableId)]
  }

  /** A drop in the same column at another index is still a move. */
  lemma ReorderInColumnDispatches(d: DropResult)
    requires d.destination.Some?
    requires d.destination.value.droppableId == d.source.droppableId
    requires d.destination.value.index != d.source.index
    ensures |HandleDragEnd(d)| == 2 && HandleDragEnd(d)[0] == OptimisticMove(d)
  {
  }

  /** The guard skips only drops the reducer would have ignored: on a
      well-formed board whose dragged card sits at its source slot with a
      unique id, a skipped drop would leave the buckets as they are. */
  lemma SkippedDropsChangeNothing(g: Grouped, d: DropResult)
    requires WellFormed(g)
    requires 0 <= d.source.index < |Bucket(g, d.source.droppableId)|
    requires Bucket(g, d.source.droppableId)[d.source.index].id == d.draggableId
    requires AtMostOnce(Bucket(g, d.source.droppableId), d.draggableId)
    requires HandleDragEnd(d) == []
    ensures ApplyMove(g, d) == g
  {
    if d.destination.Some? {
      MoveToSameSlotIsIdentity(g, d);
    }
  }

  /** `Number` on the `openTask` value: a string of decimal digits reads as
      its value; anything else reads as NaN, which equals no id. */
  function NumberOf(raw: string): (r: Option<int>)
    ensures r.Some? <==> raw != [] && forall i :: 0 <= i < |raw| ==> '0' <= raw[i] <= '9'
  {
    if raw != [] && forall i :: 0 <= i < |raw| ==> '0' <= raw[i] <= '9' then Some(DigitsValue(raw)) else None
  }

  /** The text a link writes for a task id reads back as that id. */
  lemma NumberOfDigits(n: nat)
    ensures NumberOf(Digits(n)) == Some(n)
  {
    DigitsRoundTrip(n);
  }

  /** What the deep-link effect does. */
  datatype DeepLinkStep =
    | Wait
    | OpenTask(task: Task)
    | WarnAndDropParam

  /** The deep-link effect: it waits while there is no `openTask` value, while
      the board loads, and while the board is empty without an error;
      otherwise it looks the id up in the buckets, Backlog first, then
      InProgress, then Done. */
  function DeepLink(openTask: Option<string>, loadingCurrentBoard: bool, board: Grouped, currentBoardError: Option<string>): (r: DeepLinkStep)
    ensures r.Wait? <==>
      openTask.None? || openTask.value == "" || loadingCurrentBoard
      || (Flatten(board) == [] && (currentBoardError.None? || currentBoardError.value == ""))
    ensures r.OpenTask? ==> r.task in Flatten(board) && NumberOf(openTask.value) == Some(r.task.id)
    ensures r.WarnAndDropParam? ==>
      NumberOf(openTask.value).None? || forall t :: t in Flatten(board) ==> t.id != NumberOf(openTask.value).value
  {
    if openTask.None? || openTask.value == "" || loadingCurrentBoard then Wait
    else
      var allTasks := Flatten(board);
      if |allTasks| == 0 && (currentBoardError.None? || currentBoardError.value == "") then Wait
      else
        match NumberOf(openTask.value)
        case None => WarnAndDropParam
        case Some(id) =>
          match FindById(allTasks, id)
          case Some(t) => OpenTask(t)
          case None => WarnAndDropParam
  }

  /** When several tasks carry the linked id, the one opened is the first in
      Backlog, then InProgress, then Done order; and a board that failed to
      load, holding no tasks, warns about a linked task at once. */
  lemma DeepLinkLookupOrder(openTask: string, board: Grouped, error: Option<string>, i: int)
    requires openTask != "" && NumberOf(openTask).Some?
    requires Flatten(board) != [] || (error.Some? && error.value != "")
    requires 0 <= i < |Flatten(board)| && Flatten(board)[i].id == NumberOf(openTask).value
    requires forall j :: 0 <= j < i ==> Flatten(board)[j].id != NumberOf(openTask).value
    ensures DeepLink(Some(openTask), false, board, error) == OpenTask(Flatten(board)[i])
  {
    var s := Flatten(board);
    var k := IndexOfId(s, NumberOf(openTask).value);
    assert k == i;
  }

  /** The page's task modal and the `openTask` query parameter. `urlWrites`
      counts the calls to `setSearchParams`; `warnings` counts the "task not
      found" notifications. */
  class BoardModal {
    var isModalVisible: bool
    var selectedTask: Option<Task>
    var openTask: Option<string>
    var urlWrites: nat
    var warnings: nat

    constructor (openTask: Option<string>)
      ensures !isModalVisible && selectedTask == None && this.openTask == openTask
      ensures urlWrites == 0 && warnings == 0
    {
      isModalVisible, selectedTask := false, None;
      this.openTask := openTask;
      urlWrites, warnings := 0, 0;
    }

    /** `handleOpenModal`. */
    method OpenModal(task: Task)
      modifies this
      ensures isModalVisible && selectedTask == Some(task)
      ensures openTask == old(openTask) && urlWrites == old(urlWrites) && warnings == old(warnings)
    {
      selectedTask := Some(task);
      isModalVisible := true;
    }

    /** `handleCloseModal`: hides the modal, clears the selection and removes
      `openTask`, writing the URL only when the parameter was there. */
    method CloseModal()
      modifies this
      ensures !isModalVisible && selectedTask == None && openTask == None
      ensures urlWrites == old(urlWrites) + (if old(openTask).Some? then 1 else 0)
      ensures warnings == old(warnings)
    {
      isModalVisible := false;
      selectedTask := None;
      if openTask.Some? {
        openTask := None;
        urlWrites := urlWrites + 1;
      }
    }

    /** One run of the deep-link effect against the current store values. */
    method RunDeepLink(loadingCurrentBoard: bool, board: Grouped, currentBoardError: Option<string>)
      modifies this
      ensures var step := DeepLink(old(openTask), loadingCurrentBoard, board, currentBoardError);
        && (step.Wait? ==> isModalVisible == old(isModalVisible) && selectedTask == old(selectedTask)
                           && openTask == old(openTask) && urlWrites == old(urlWrites) && warnings == old(warnings))
        && (step.OpenTask? ==> isModalVisible && selectedTask == Some(step.task)
                               && openTask == old(openTask) && urlWrites == old(urlWrites) && warnings == old(warnings))
        && (step.WarnAndDropParam? ==> isModalVisible == old(isModalVisible) && selectedTask == old(selectedTask)
                                       && openTask == None && urlWrites == old(urlWrites) + 1 && warnings == old(warnings) + 1)
    {
      var step := DeepLink(openTask, loadingCurrentBoard, board, currentBoardError);
      match step
      case Wait =>
      case OpenTask(t) =>
        OpenModal(t);
      case WarnAndDropParam =>
        warnings := warnings + 1;
        openTask := None;
        urlWrites := urlWrites + 1;
    }
  }

  /** The spinner shows while the board's tasks load, or while the boards
      load with none loaded yet. */
  function PageLoading(loadingCurrentBoard: bool, loadingBoards: bool, allBoards: seq<Board>): (r: bool)
    ensures loadingCurrentBoard ==> r
    ensures loadingBoards && allBoards == [] ==> r
    ensures !loadingCurrentBoard && !loadingBoards ==> !r
    ensures loadingBoards && allBoards != [] && !loadingCurrentBoard ==> !r
  {
    loadingCurrentBoard || (loadingBoards && |allBoards| == 0)
  }

  /** The first position of `allBoards` whose board has `id`, or -1. */
  function IndexOfBoard(allBoards: seq<Board>, id: int): (r: int)
    ensures -1 <= r < |allBoards|
    ensures r >= 0 ==> allBoards[r].id == id && forall j :: 0 <= j < r ==> allBoards[j].id != id
    ensures r == -1 <==> forall j :: 0 <= j < |allBoards| ==> allBoards[j].id != id
  {
    if allBoards == [] then -1
    else if allBoards[0].id == id then 0
    else
      var k := IndexOfBoard(allBoards[1..], id);
      if k == -1 then -1 else k + 1
  }

  /** `allBoards.find(b => b.id === Number(id))`. */
  function FindBoard(allBoards: seq<Board>, id: int): (r: Option<Board>)
    ensures r.None? <==> forall b :: b in allBoards ==> b.id != id
    ensures r.Some? ==> r.value in allBoards && r.value.id == id
    ensures r.Some? ==> exists i :: (0 <= i < |allBoards| && allBoards[i] == r.value
                                     && forall j :: 0 <= j < i ==> allBoards[j].id != id)
  {
    var i := IndexOfBoard(allBoards, id);
    if i == -1 then None else Some(allBoards[i])
  }

  /** What the page shows. */
  datatype View = Spinner | TasksErrorAlert(message: string) | BoardNotFound | BoardView(board: Board)

  /** The render order: spinner, then the tasks error, then "board not
      found", then the board. */
  function Render(loadingCurrentBoard: bool, loadingBoards: bool, allBoards: seq<Board>,
                  currentBoardError: Option<string>, id: int): (v: View)
    ensures v.Spinner? <==> PageLoading(loadingCurrentBoard, loadingBoards, allBoards)
    ensures v.TasksErrorAlert? <==> (!PageLoading(loadingCurrentBoard, loadingBoards, allBoards)
                                     && currentBoardError.Some? && currentBoardError.value != "")
    ensures v.TasksErrorAlert? ==> v.message == currentBoardError.value
    ensures v.BoardView? ==> (v.board in allBoards && v.board.id == id
                              && (currentBoardError.None? || currentBoardError.value == ""))
    ensures v.BoardNotFound? ==> forall b :: b in allBoards ==> b.id != id
  {
    if PageLoading(loadingCurrentBoard, loadingBoards, allBoards) then Spinner
    else if currentBoardError.Some? && currentBoardError.value != "" then TasksErrorAlert(currentBoardError.value)
    else match FindBoard(allBoards, id)
      case None => BoardNotFound
      case Some(b) => BoardView(b)
  }

  /** The mount effect of the board hook: for a non-zero board id, fetch the
      board's tasks, the boards and the users, then set the board context;
      for id 0 (or an id that is not a number) nothing. */
  function MountEffect(boardId: int): (r: seq<Dispatch>)
    ensures boardId == 0 <==> r == []
    ensures boardId != 0 ==> |r| == 4 && r[0] == FetchTasksOnBoard(boardId) && r[3] == SetContextBoardId(Some(boardId))
    ensures boardId != 0 ==> r[1] == FetchBoards && r[2] == FetchAllUsers
  {
    if boardId != 0 then [FetchTasksOnBoard(boardId), FetchBoards, FetchAllUsers, SetContextBoardId(Some(boardId))]
    else []
  }

  /** Its cleanup: abort the three fetches, clear the board's tasks and drop
      the board context; there is no cleanup when nothing was mounted. */
  function CleanupEffect(boardId: int): (r: seq<Dispatch>)
    ensures boardId == 0 <==> r == []
    ensures boardId != 0 ==> |r| == 5 && r[3..] == [ClearCurrentBoardTasks, SetContextBoardId(None)]
    ensures boardId != 0 ==> r[0] == AbortTasksOnBoard && r[1] == AbortBoards && r[2] == AbortUsers
  {
    if boardId != 0 then [AbortTasksOnBoard, AbortBoards, AbortUsers, ClearCurrentBoardTasks, SetContextBoardId(None)]
    else []
  }

  /** The page component's own mount effect: the board's tasks and the
      context only for a non-zero id, the boards and users always; its
      cleanup always runs. */
  function MountEffectInline(boardId: int): (r: seq<Dispatch>)
    ensures |r| >= 2 && r[|r| - 2..] == [FetchBoards, FetchAllUsers]
    ensures FetchTasksOnBoard(boardId) in r <==> boardId != 0
  {
    (if boardId != 0 then [FetchTasksOnBoard(boardId), SetContextBoardId(Some(boardId))] else [])
    + [FetchBoards, FetchAllUsers]
  }

  function CleanupEffectInline(boardId: int): (r: seq<Dispatch>)
    ensures |r| >= 2 && r[|r| - 2..] == [ClearCurrentBoardTasks, SetContextBoardId(None)]
    ensures AbortTasksOnBoard in r <==> boardId != 0
  {
    (if boardId != 0 then [AbortTasksOnBoard] else [])
    + [AbortBoards, AbortUsers, ClearCurrentBoardTasks, SetContextBoardId(None)]
  }

  /** The store actions a dispatch amounts to in the tasks slice, where it
      has one. */
  function AsTasksAction(x: Dispatch): Option<TasksSlice.TasksAction>
  {
    match x
    case OptimisticMove(d) => Some(TasksSlice.OptimisticallyUpdateTaskStatus(d))
    case UpdateTaskStatus(_, _) => Some(TasksSlice.UpdateTaskStatusPending)
    case FetchTasksOnBoard(_) => Some(TasksSlice.FetchTasksOnBoardPending)
    case FetchAllUsers => Some(TasksSlice.FetchAllUsersPending)
    case SetContextBoardId(id) => Some(TasksSlice.SetContextBoardId(id))
    case ClearCurrentBoardTasks => Some(TasksSlice.ClearCurrentBoardTasks)
    case _ => None
  }

  /** The tasks state after one dispatch: the slice's action when there is
      one, otherwise the state as it was. */
  function Step(s: TasksSlice.TasksState, x: Dispatch): TasksSlice.TasksState
  {
    match AsTasksAction(x)
    case Some(a) => TasksSlice.Reduce(s, a)
    case None => s
  }

  /** The tasks state after the synchronous part of a dispatch sequence. */
  function Run(s: TasksSlice.TasksState, xs: seq<Dispatch>): TasksSlice.TasksState
    decreases |xs|
  {
    if xs == [] then s else Run(Step(s, xs[0]), xs[1..])
  }

  lemma {:induction false} RunAppend(s: TasksSlice.TasksState, xs: seq<Dispatch>, x: Dispatch)
    ensures Run(s, xs + [x]) == Step(Run(s, xs), x)
    decreases |xs|
  {
    if xs == [] {
      assert [x][1..] == [];
    } else {
      assert (xs + [x])[1..] == xs[1..] + [x];
      RunAppend(Step(s, xs[0]), xs[1..], x);
    }
  }

  /** After the hook's mount the store is loading the board's tasks with no
      board error, is loading the users, and has the board as its context;
      nothing else changed. */
  lemma MountEffectOnStore(s: TasksSlice.TasksState, boardId: int)
    requires boardId != 0
    ensures var r := Run(s, MountEffect(boardId));
      && r.loadingCurrentBoard && r.currentBoardError == None
      && r.loadingUsers && r.usersError == None
      && r.contextBoardId == Some(boardId)
      && r.tasks == s.tasks && r.currentBoardTasks == s.currentBoardTasks && r.loading == s.loading
  {
    var xs := MountEffect(boardId);
    var s1 := Step(s, xs[0]);
    var s2 := Step(s1, xs[1]);
    var s3 := Step(s2, xs[2]);
    var s4 := Step(s3, xs[3]);
    assert Run(s, xs) == Run(s1, xs[1..]);
    assert Run(s1, xs[1..]) == Run(s2, xs[2..]) by { assert xs[1..][1..] == xs[2..]; }
    assert Run(s2, xs[2..]) == Run(s3, xs[3..]) by { assert xs[2..][1..] == xs[3..]; }
    assert Run(s3, xs[3..]) == Run(s4, []) by { assert xs[3..][1..] == []; }
  }

  /** After either page's cleanup the store holds no board: the buckets are
      empty, no board error or board loading remains, and the context is gone. */
  lemma {:induction false} CleanupLeavesNoBoard(s: TasksSlice.TasksState, boardId: int)
    requires boardId != 0
    ensures var r := Run(s, CleanupEffect(boardId));
      Flatten(r.currentBoardTasks) == [] && r.currentBoardError == None && !r.loadingCurrentBoard && r.contextBoardId == None
    ensures var r := Run(s, CleanupEffectInline(boardId));
      Flatten(r.currentBoardTasks) == [] && r.currentBoardError == None && !r.loadingCurrentBoard && r.contextBoardId == None
  {
    var xs := CleanupEffect(boardId);
    var init := xs[..4];
    assert xs == init + [SetContextBoardId(None)];
    assert init == xs[..3] + [ClearCurrentBoardTasks];
    RunAppend(s, init, SetContextBoardId(None));
    RunAppend(s, xs[..3], ClearCurrentBoardTasks);
    assert CleanupEffectInline(boardId) == xs;
  }

  /** A drag that dispatches leaves the store as the optimistic move alone
      does: the status update's pending action changes nothing. */
  lemma {:induction false} DragEndOnStore(s: TasksSlice.TasksState, d: DropResult)
    requires HandleDragEnd(d) != []
    ensures Run(s, HandleDragEnd(d)).currentBoardTasks == ApplyMove(s.currentBoardTasks, d)
    ensures Run(s, HandleDragEnd(d)) == TasksSlice.Reduce(s, TasksSlice.OptimisticallyUpdateTaskStatus(d))
  {
    var xs := HandleDragEnd(d);
    var moved := Step(s, xs[0]);
    assert moved == TasksSlice.Reduce(s, TasksSlice.OptimisticallyUpdateTaskStatus(d));
    assert Step(moved, xs[1]) == moved;
    assert xs[1..][1..] == [];
    assert Run(moved, xs[1..]) == Run(Step(moved, xs[1]), []);
  }
}

/** The older board page, which reads the board's tasks as one flat list. */
module LegacyBoardPage {
  import opened Domain
  import opened TaskLists
  import opened Grouping
  import BoardPage

  /** `tasksByStatus`: three empty buckets, then each task pushed onto the
      bucket of its status when that status has one. */
  method TasksByStatus(currentBoardTasks: seq<Task>) returns (grouped: Grouped)
    ensures grouped == GroupByStatus(currentBoardTasks)
  {
    grouped := Grouped([], [], []);
    var i := 0;
    while i < |currentBoardTasks|
      invariant 0 <= i <= |currentBoardTasks|
      invariant grouped == GroupByStatus(currentBoardTasks[..i])
    {
      var task := currentBoardTasks[i];
      ghost var prefix := currentBoardTasks[..i];
      assert currentBoardTasks[..i + 1] == prefix + [task];
      GroupSnoc(prefix, task);
      if !task.status.Unlisted? {
        grouped := WithBucket(grouped, task.status, Bucket(grouped, task.status) + [task]);
      }
      i := i + 1;
    }
    assert currentBoardTasks[..i] == currentBoardTasks;
  }

  /** What the older deep-link effect does: no notification, only the
      parameter's removal when the task is not there. */
  datatype LegacyDeepLinkStep = Wait | OpenTask(task: Task) | DropParam

  function DeepLink(openTask: Option<string>, loadingCurrentBoard: bool, currentBoardTasks: seq<Task>): (r: LegacyDeepLinkStep)
    ensures r.Wait? <==> openTask.None? || openTask.value == "" || loadingCurrentBoard || currentBoardTasks == []
    ensures r.OpenTask? ==> r.task in currentBoardTasks && BoardPage.NumberOf(openTask.value) == Some(r.task.id)
    ensures r.DropParam? ==> (BoardPage.NumberOf(openTask.value).None?
                              || forall t :: t in currentBoardTasks ==> t.id != BoardPage.NumberOf(openTask.value).value)
  {
    if openTask.Some? && openTask.value != "" && !loadingCurrentBoard && |currentBoardTasks| > 0 then
      match BoardPage.NumberOf(openTask.value)
      case None => DropParam
      case Some(id) =>
        match FindById(currentBoardTasks, id)
        case Some(t) => OpenTask(t)
        case None => DropParam
    else Wait
  }

  /** The older mount effect: the board's tasks and context for a non-zero
      id, the boards only when none are loaded, the filter boards and the
      users always. */
  function MountEffect(boardId: int, boardsLoaded: nat): (r: seq<BoardPage.Dispatch>)
    ensures BoardPage.FetchBoards in r <==> boardsLoaded == 0
    ensures BoardPage.FetchTasksOnBoard(boardId) in r <==> boardId != 0
    ensures BoardPage.SetContextBoardId(Some(boardId)) in r <==> boardId != 0
    ensures |r| >= 2 && r[|r| - 2..] == [BoardPage.FetchFilterBoards, BoardPage.FetchAllUsers]
  {
    (if boardId != 0 then [BoardPage.FetchTasksOnBoard(boardId), BoardPage.SetContextBoardId(Some(boardId))] else [])
    + (if boardsLoaded == 0 then [BoardPage.FetchBoards] else [])
    + [BoardPage.FetchFilterBoards, BoardPage.FetchAllUsers]
  }

  /** Its cleanup: clear the board's tasks and drop the context. */
  function CleanupEffect(): (r: seq<BoardPage.Dispatch>)
    ensures BoardPage.ClearCurrentBoardTasks in r && BoardPage.SetContextBoardId(None) in r
  {
    [BoardPage.ClearCurrentBoardTasks, BoardPage.SetContextBoardId(None)]
  }
}
