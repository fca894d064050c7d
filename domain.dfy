/** The entities of the Kanban client: tasks, their status buckets, boards,
    users, and the result of a drag-and-drop gesture. */
module Domain {

  datatype Option<+T> = None | Some(value: T)

  datatype Priority = Low | Medium | High

  /** A task's status as it arrives from the server. The client's type admits
      only the three listed values; `Unlisted` stands for anything else the
      backend might send, which the grouping code guards against. */
  datatype Status = Backlog | InProgress | Done | Unlisted(name: OtherStatusName)

  /** A status name other than the three listed ones, so that every status
      has exactly one spelling. */
  type OtherStatusName = s: string | s != "Backlog" && s != "InProgress" && s != "Done" witness ""

  /** The three statuses that have a column (and a bucket) on the board. */
  type Column = s: Status | !s.Unlisted? witness Backlog

  datatype Assignee = Assignee(id: int, fullName: string, email: string, avatarUrl: string)

  datatype Task = Task(
    id: int,
    title: string,
    description: string,
    priority: Priority,
    status: Status,
    assignee: Option<Assignee>,
    boardId: Option<int>,
    boardName: string)

  datatype Board = Board(id: int, name: string, description: string, taskCount: int)

  datatype User = User(id: int, fullName: string, email: string, avatarUrl: string)

  /** `GroupedTasks`: one ordered bucket per column. */
  datatype Grouped = Grouped(backlog: seq<Task>, inProgress: seq<Task>, done: seq<Task>)

  const EmptyGrouped := Grouped([], [], [])

  function Bucket(g: Grouped, c: Column): seq<Task>
  {
    match c
    case Backlog => g.backlog
    case InProgress => g.inProgress
    case Done => g.done
  }

  /** `g` with the bucket of `c` replaced by `s`; the other two are kept. */
  function WithBucket(g: Grouped, c: Column, s: seq<Task>): (r: Grouped)
    ensures Bucket(r, c) == s
    ensures forall d: Column :: d != c ==> Bucket(r, d) == Bucket(g, d)
  {
    match c
    case Backlog => g.(backlog := s)
    case InProgress => g.(inProgress := s)
    case Done => g.(done := s)
  }

  /** The buckets in the order `Object.values` lists them. */
  function Flatten(g: Grouped): seq<Task>
  {
    g.backlog + g.inProgress + g.done
  }

  /** The ids of `s`, in order. */
  function Ids(s: seq<Task>): (r: seq<int>)
    ensures |r| == |s|
  {
    if s == [] then [] else [s[0].id] + Ids(s[1..])
  }

  /** Every task sits in the bucket of its own status. */
  ghost predicate WellFormed(g: Grouped)
  {
    forall c: Column, t :: t in Bucket(g, c) ==> t.status == c
  }

  /** A location on the board: a column and a position in it. */
  datatype Location = Location(droppableId: Column, index: int)

  /** The drag-and-drop library's `DropResult`, reduced to what the client reads.
      `draggableId` is the task id the card was rendered with. */
  datatype DropResult = DropResult(draggableId: int, source: Location, destination: Option<Location>)

  /** What a rejected thunk action carries: whether the rejection is an abort
      (`error.name === 'AbortError'`), the `rejectWithValue` payload if there
      is one, and `error.message` if there is one. */
  datatype Rejection = Rejection(isAbort: bool, payload: Option<string>, message: Option<string>)

  /** `payload ?? fallback`: only a missing payload is replaced, so an empty
      string is kept. */
  function Coalesce(o: Option<string>, fallback: string): (r: string)
    ensures o.Some? ==> r == o.value
    ensures o.None? ==> r == fallback
  {
    match o
    case Some(v) => v
    case None => fallback
  }
}
