/** The issues page's controller: the combined loading flag and error list,
    the go-to-board decision, and the task modal's open and close handlers. */
module IssuesPage {
  import opened Domain
  import opened DecimalText
  import Header
  import TasksSlice
  import BoardsSlice

  /** What the page does in response to a handler: navigate, or show an
      error notification. */
  datatype PageEvent =
    | Navigate(pathname: string, search: string)
    | NotifyError(message: string, description: string)

  /** `loading || loadingUsers || loadingBoards`. */
  function PageLoading(loading: bool, loadingUsers: bool, loadingBoards: bool): (r: bool)
    ensures r <==> !(!loading && !loadingUsers && !loadingBoards)
  {
    loading || loadingUsers || loadingBoards
  }

  /** The page reads its three flags from the two slices: it is loading as
      soon as any one of the tasks, users or boards requests is pending, and
      no longer once all three have been fulfilled. */
  lemma LoadingFollowsSlices(ts: TasksSlice.TasksState, bs: BoardsSlice.BoardsState,
                             tasks: seq<Task>, users: seq<User>, boards: seq<Board>)
    ensures var t := TasksSlice.Reduce(ts, TasksSlice.FetchAllTasksPending);
      PageLoading(t.loading, t.loadingUsers, bs.loading)
    ensures var t := TasksSlice.Reduce(ts, TasksSlice.FetchAllUsersPending);
      PageLoading(t.loading, t.loadingUsers, bs.loading)
    ensures var b := BoardsSlice.Reduce(bs, BoardsSlice.Pending);
      PageLoading(ts.loading, ts.loadingUsers, b.loading)
    ensures
      var t := TasksSlice.Reduce(TasksSlice.Reduce(ts, TasksSlice.FetchAllTasksFulfilled(tasks)),
                                 TasksSlice.FetchAllUsersFulfilled(users));
      var b := BoardsSlice.Reduce(bs, BoardsSlice.Fulfilled(boards));
      !PageLoading(t.loading, t.loadingUsers, b.loading)
  {
  }

  /** `filter(Boolean)` over possibly missing messages: the present,
      non-empty ones, in order. */
  function Truthy(xs: seq<Option<string>>): (r: seq<string>)
    ensures |r| <= |xs|
    ensures forall e :: e in r <==> e != "" && Some(e) in xs
  {
    if xs == [] then []
    else (if xs[0].Some? && xs[0].value != "" then [xs[0].value] else []) + Truthy(xs[1..])
  }

  /** `filter(Boolean)` works element by element: it distributes over
      concatenation, and one message is kept exactly when it is shown. */
  lemma {:induction false} TruthyAppend(xs: seq<Option<string>>, ys: seq<Option<string>>)
    ensures Truthy(xs + ys) == Truthy(xs) + Truthy(ys)
    ensures forall x :: Truthy([x]) == (if Shown(x) then [x.value] else [])
  {
    forall x ensures Truthy([x]) == (if Shown(x) then [x.value] else []) {
      assert [x][1..] == [];
    }
    if xs == [] {
      assert xs + ys == ys;
    } else {
      assert (xs + ys)[1..] == xs[1..] + ys;
      TruthyAppend(xs[1..], ys);
    }
  }

  /** The page's error list: the tasks error, the users error and the boards
      error, each only when set and non-empty, in that order. */
  function Errors(error: Option<string>, usersError: Option<string>, boardsError: Option<string>): (r: seq<string>)
    ensures |r| <= 3
    ensures forall e :: e in r ==> e != ""
  {
    Truthy([error, usersError, boardsError])
  }

  /** A message `filter(Boolean)` keeps. */
  predicate Shown(o: Option<string>)
  {
    o.Some? && o.value != ""
  }

  /** The error list keeps the order tasks, users, boards and drops only
      the missing or empty ones; equal messages from two sources both show. */
  lemma ErrorsInOrder(error: Option<string>, usersError: Option<string>, boardsError: Option<string>)
    ensures Errors(error, usersError, boardsError)
         == (if Shown(error) then [error.value] else [])
          + (if Shown(usersError) then [usersError.value] else [])
          + (if Shown(boardsError) then [boardsError.value] else [])
  {
    var xs := [error, usersError, boardsError];
    assert xs[1..] == [usersError, boardsError];
    assert xs[1..][1..] == [boardsError];
    assert xs[1..][1..][1..] == [];
    var c := if Shown(boardsError) then [boardsError.value] else [];
    var b := (if Shown(usersError) then [usersError.value] else []) + c;
    assert Truthy([boardsError]) == c;
    assert Truthy([usersError, boardsError]) == b;
    assert Truthy(xs) == (if Shown(error) then [error.value] else []) + b;
  }

  const NoBoardMessage := "Переход невозможен"
  const NoBoardDescription := "Задача не привязана к какой-либо доске."

  /** `handleGoToBoardWithTask`: a positive board id opens the board page
      with the task named in `openTask`; otherwise the user is told the task
      has no board and nothing is navigated. */
  function GoToBoardWithTask(boardId: int, taskId: int): (e: PageEvent)
    ensures boardId > 0 <==> e.Navigate?
    ensures e.Navigate? ==> e.pathname == "/board/" + Digits(boardId) && e.search == "?openTask=" + IntText(taskId)
    ensures e.NotifyError? ==> e == NotifyError(NoBoardMessage, NoBoardDescription)
  {
    if boardId > 0 then Navigate("/board/" + Digits(boardId), "?openTask=" + IntText(taskId))
    else NotifyError(NoBoardMessage, NoBoardDescription)
  }

  /** The link leads back to the same board and task: the route's id reads
      back as the board id, the `openTask` digits read back as the task id,
      and the header highlights 'boards' on that page. */
  lemma GoToBoardRoundTrip(boardId: int, taskId: nat)
    requires boardId > 0
    ensures
      var e := GoToBoardWithTask(boardId, taskId);
      && e.pathname[|"/board/"|..] == Digits(boardId)
      && DigitsValue(e.pathname[|"/board/"|..]) == boardId
      && e.search[|"?openTask="|..] == Digits(taskId)
      && DigitsValue(e.search[|"?openTask="|..]) == taskId
      && Header.SelectedKey(e.pathname) == "boards"
  {
    DigitsRoundTrip(boardId);
    DigitsRoundTrip(taskId);
    Header.BoardAndIssuesPaths(Digits(boardId), "");
  }

  /** The task modal of the issues page. */
  class IssuesModal {
    var isModalVisible: bool
    var selectedTask: Option<Task>

    constructor ()
      ensures !isModalVisible && selectedTask == None
    {
      isModalVisible, selectedTask := false, None;
    }

    /** `handleOpenModal`. */
    method OpenModal(task: Task)
      modifies this
      ensures isModalVisible && selectedTask == Some(task)
    {
      selectedTask := Some(task);
      isModalVisible := true;
    }

    /** `handleCloseModal`. */
    method CloseModal()
      modifies this
      ensures !isModalVisible && selectedTask == None
    {
      isModalVisible := false;
      selectedTask := None;
    }

    /** `handleRowClick`: a click inside the actions column leaves the modal
      as it was; a click anywhere else in the row opens it on that row's task. */
    method RowClick(inActionsColumn: bool, record: Task)
      modifies this
      ensures inActionsColumn ==> isModalVisible == old(isModalVisible) && selectedTask == old(selectedTask)
      ensures !inActionsColumn ==> isModalVisible && selectedTask == Some(record)
    {
      if inActionsColumn {
        return;
      }
      OpenModal(record);
    }
  }
}
