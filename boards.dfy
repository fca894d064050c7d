/** The `boards` slice and its `fetchBoards` thunk, in the three versions the
    repository carries: the current one, which ignores aborted requests; an
    older one, which reports every rejection; and the earliest one, whose
    `pending` case does not clear the error. */
module BoardsSlice {
  import opened Domain

  datatype BoardsState = BoardsState(boards: seq<Board>, loading: bool, error: Option<string>)

  const InitialState := BoardsState([], false, None)

  /** The lifecycle actions of `fetchBoards`. */
  datatype BoardsAction = Pending | Fulfilled(payload: seq<Board>) | Rejected(rej: Rejection)

  const UnknownError := "Неизвестная ошибка"

  /** The current reducer: an aborted request lowers `loading` and leaves the
      error alone. */
  function Reduce(s: BoardsState, a: BoardsAction): BoardsState
  {
    match a
    case Pending => s.(loading := true, error := None)
    case Fulfilled(p) => s.(loading := false, boards := p)
    case Rejected(rej) =>
      if rej.isAbort then s.(loading := false)
      else s.(loading := false, error := Some(Coalesce(rej.payload, UnknownError)))
  }

  class BoardsStore {
    var boards: seq<Board>
    var loading: bool
    var error: Option<string>

    function Snapshot(): BoardsState
      reads this
    {
      BoardsState(boards, loading, error)
    }

    constructor ()
      ensures Snapshot() == InitialState
    {
      boards, loading, error := [], false, None;
    }

    method Pending()
      modifies this
      ensures Snapshot() == Reduce(old(Snapshot()), BoardsAction.Pending)
    {
      loading := true;
      error := None;
    }

    method Fulfilled(payload: seq<Board>)
      modifies this
      ensures Snapshot() == Reduce(old(Snapshot()), BoardsAction.Fulfilled(payload))
    {
      loading := false;
      boards := payload;
    }

    method Rejected(rej: Rejection)
      modifies this
      ensures Snapshot() == Reduce(old(Snapshot()), BoardsAction.Rejected(rej))
    {
      loading := false;
      if !rej.isAbort {
        error := Some(Coalesce(rej.payload, UnknownError));
      }
    }
  }

  /** Every case lowers or raises `loading` as its phase says; `rejected`
      never touches the boards, keeps the error on an abort, and otherwise
      reports the payload or the fallback. */
  lemma RejectedCase(s: BoardsState, rej: Rejection)
    ensures var r := Reduce(s, Rejected(rej));
      && !r.loading && r.boards == s.boards
      && (rej.isAbort ==> r.error == s.error)
      && (!rej.isAbort && rej.payload.Some? ==> r.error == rej.payload)
      && (!rej.isAbort && rej.payload.None? ==> r.error == Some(UnknownError))
  {
  }

  /** A request started and then aborted leaves no error, however it was
      rejected and whatever error was shown before. */
  lemma AbortLeavesNoError(s: BoardsState, rej: Rejection)
    requires rej.isAbort
    ensures Reduce(Reduce(s, Pending), Rejected(rej)).error == None
    ensures !Reduce(Reduce(s, Pending), Rejected(rej)).loading
  {
  }

  /** The cases exercised by the slice's tests. */
  lemma BoardsSliceScenarios()
    ensures Reduce(InitialState, Pending) == BoardsState([], true, None)
    ensures
      var mock := [Board(1, "Project A", "Desc A", 5), Board(2, "Project B", "Desc B", 3)];
      Reduce(InitialState, Fulfilled(mock)) == BoardsState(mock, false, None)
    ensures Reduce(InitialState, Rejected(Rejection(false, Some("Failed to fetch"), Some("Failed to fetch"))))
      == BoardsState([], false, Some("Failed to fetch"))
    ensures Reduce(InitialState, Rejected(Rejection(true, Some("Request Canceled"), Some("Aborted"))))
      == BoardsState([], false, None)
  {
  }
}

/** The current `fetchBoards` thunk. */
module BoardsThunks {
  import opened Domain
  import opened AsyncOutcome

  const FetchBoardsFallback := "Failed to fetch boards"

  /** Resolves with the boards as the API returned them; a cancelled request
      rejects with "Request Canceled", any other failure with its message or
      the fallback. */
  function FetchBoards(o: Outcome<seq<Board>>): (r: Settled<seq<Board>>)
    ensures o.Ok? <==> r.Resolved?
    ensures o.Ok? ==> r.value == o.data
    ensures o.Cancelled? ==> r == RejectedWithValue(Some(RequestCanceled))
    ensures o.Failed? ==> r == RejectedWithValue(Some(MessageOr(o.message, FetchBoardsFallback)))
  {
    match o
    case Ok(data) => Resolved(data)
    case _ => RejectedWithValue(Some(RejectReason(o, FetchBoardsFallback)))
  }

  /** A cancelled request never yields the fallback: the cancel test comes
      first. */
  lemma CancelNeverYieldsFallback(o: Outcome<seq<Board>>)
    requires o.Cancelled?
    ensures FetchBoards(o).reason != Some(FetchBoardsFallback)
  {
    assert RequestCanceled[0] != FetchBoardsFallback[0];
  }
}

/** The older `boards` slice, with its own thunk: no abort signal, no cancel
    test and no abort check. */
module LegacyBoardsSlice {
  import opened Domain
  import opened AsyncOutcome
  import BoardsSlice

  const FetchBoardsFallback := "Failed to fetch boards"
  const UnknownError := "Unknown error"

  /** The thunk rejects with the error's message, or the fallback. */
  function FetchBoards(reply: Reply<seq<Board>>): (r: Settled<seq<Board>>)
    ensures reply.Done? ==> r == Resolved(reply.value)
    ensures reply.Error? ==> r.RejectedWithValue? && r.reason.Some?
    ensures reply.Error? && reply.message.Some? && reply.message.value != "" ==> r.reason == reply.message
    ensures reply.Error? && (reply.message.None? || reply.message.value == "") ==> r.reason == Some(FetchBoardsFallback)
  {
    match reply
    case Done(data) => Resolved(data)
    case Error(message) => RejectedWithValue(Some(MessageOr(message, FetchBoardsFallback)))
  }

  /** The reducer: `rejected` reports every rejection, aborted or not. */
  function Reduce(s: BoardsSlice.BoardsState, a: BoardsSlice.BoardsAction): BoardsSlice.BoardsState
  {
    match a
    case Pending => s.(loading := true, error := None)
    case Fulfilled(p) => s.(loading := false, boards := p)
    case Rejected(rej) => s.(loading := false, error := Some(Coalesce(rej.payload, UnknownError)))
  }

  class BoardsStore {
    var boards: seq<Board>
    var loading: bool
    var error: Option<string>

    function Snapshot(): BoardsSlice.BoardsState
      reads this
    {
      BoardsSlice.BoardsState(boards, loading, error)
    }

    constructor ()
      ensures Snapshot() == BoardsSlice.InitialState
    {
      boards, loading, error := [], false, None;
    }

    method Pending()
      modifies this
      ensures Snapshot() == Reduce(old(Snapshot()), BoardsSlice.BoardsAction.Pending)
    {
      loading := true;
      error := None;
    }

    method Fulfilled(payload: seq<Board>)
      modifies this
      ensures Snapshot() == Reduce(old(Snapshot()), BoardsSlice.BoardsAction.Fulfilled(payload))
    {
      loading := false;
      boards := payload;
    }

    method Rejected(rej: Rejection)
      modifies this
      ensures Snapshot() == Reduce(old(Snapshot()), BoardsSlice.BoardsAction.Rejected(rej))
    {
      loading := false;
      error := Some(Coalesce(rej.payload, UnknownError));
    }
  }

  /** Every rejection leaves an error, aborted or not; the older and the
      current reducer agree on every action except an aborted rejection and a
      rejection without a payload, where only the fallbacks differ. */
  lemma RejectionAlwaysReports(s: BoardsSlice.BoardsState, a: BoardsSlice.BoardsAction)
    ensures a.Rejected? ==> Reduce(s, a).error.Some? && !Reduce(s, a).loading
    ensures !a.Rejected? || (!a.rej.isAbort && a.rej.payload.Some?) ==> Reduce(s, a) == BoardsSlice.Reduce(s, a)
  {
  }

  /** The thunk's reject value always reaches the reducer, so its own
      'Unknown error' fallback is shown only for a rejection without a
      payload, which this thunk never produces. */
  lemma ThunkFailureReachesState(s: BoardsSlice.BoardsState, reply: Reply<seq<Board>>, isAbort: bool, message: Option<string>)
    requires reply.Error?
    ensures Reduce(s, BoardsSlice.Rejected(Rejection(isAbort, FetchBoards(reply).reason, message))).error
      == FetchBoards(reply).reason
  {
  }
}

/** The earliest `boards` slice: `pending` only raises `loading`, and
    `rejected` stores the error's message. */
module EarliestBoardsSlice {
  import opened Domain
  import BoardsSlice

  function Reduce(s: BoardsSlice.BoardsState, a: BoardsSlice.BoardsAction): BoardsSlice.BoardsState
  {
    match a
    case Pending => s.(loading := true)
    case Fulfilled(p) => s.(loading := false, boards := p)
    case Rejected(rej) => s.(loading := false, error := rej.message)
  }

  class BoardsStore {
    var boards: seq<Board>
    var loading: bool
    var error: Option<string>

    function Snapshot(): BoardsSlice.BoardsState
      reads this
    {
      BoardsSlice.BoardsState(boards, loading, error)
    }

    constructor ()
      ensures Snapshot() == BoardsSlice.InitialState
    {
      boards, loading, error := [], false, None;
    }

    method Pending()
      modifies this
      ensures Snapshot() == Reduce(old(Snapshot()), BoardsSlice.BoardsAction.Pending)
    {
      loading := true;
    }

    method Fulfilled(payload: seq<Board>)
      modifies this
      ensures Snapshot() == Reduce(old(Snapshot()), BoardsSlice.BoardsAction.Fulfilled(payload))
    {
      loading := false;
      boards := payload;
    }

    method Rejected(rej: Rejection)
      modifies this
      ensures Snapshot() == Reduce(old(Snapshot()), BoardsSlice.BoardsAction.Rejected(rej))
    {
      loading := false;
      error := rej.message;
    }
  }

  /** Only `rejected` writes the error, so an error survives a retry: after a
      failed load, a new request and its success, the old message is still in
      the state beside the new boards. */
  lemma StaleErrorSurvivesSuccess(s: BoardsSlice.BoardsState, rej: Rejection, boards: seq<Board>)
    ensures
      var r := Reduce(Reduce(Reduce(s, BoardsSlice.Rejected(rej)), BoardsSlice.Pending), BoardsSlice.Fulfilled(boards));
      r.error == rej.message && r.boards == boards && !r.loading
    ensures forall a: BoardsSlice.BoardsAction :: !a.Rejected? ==> Reduce(s, a).error == s.error
  {
  }

  /** The current reducer clears it: after a new request, and after its
      success, no error is left. */
  lemma RetryClearsErrorInCurrentSlice(s: BoardsSlice.BoardsState, rej: Rejection, boards: seq<Board>)
    ensures
      var r := BoardsSlice.Reduce(BoardsSlice.Reduce(BoardsSlice.Reduce(s, BoardsSlice.Rejected(rej)), BoardsSlice.Pending), BoardsSlice.Fulfilled(boards));
      r.error == None && r.boards == boards && !r.loading
  {
  }
}
