# Kanban client state logic in Dafny

This project models the state-transition core of a Kanban web client. The client has boards, and each board has tasks in three status columns: Backlog, In progress and Done. The model covers:

- the tasks store and its reducers: the optimistic drag-and-drop move, the grouping of a fetched list into status buckets, the merge of a server-updated task, and loading and error handling per resource with abort suppression;
- the three generations of the boards store;
- the async thunks, which map a call's outcome to a resolve or reject value;
- the issues-list filter and the issues page's helpers;
- the board page's controllers: the drag-end guard, the `openTask` deep link, the modal, the mount and unmount effects, and render precedence;
- the task form's single-slot draft cache and its submit handler;
- the header's path classification.

Reducers that assign state fields in place are classes. Each has one method per reducer case, and every method ensures `Snapshot() == Reduce(old(Snapshot()), action)`. `Reduce` is a pure function, and the properties the source promises are lemmas about it. Loops in the source are `while` loops proved equal to the function that specifies them:

- the `reduce`/`forEach` grouping;
- the `findIndex`-and-assign;
- the per-bucket `filter`-then-`push` merge.

The thunks are functions over a tagged outcome of the API call:

- `Ok(data) | Cancelled | Failed(message)` for calls made with an abort signal;
- `Done(value) | Error(message)` for calls made without one.

Page and form side effects (dispatches, notifications, navigation, URL writes) are events appended to a trace, or dispatch sequences returned by a function.

The module layout follows the source:

| module | file |
|---|---|
| `Domain` | entity types |
| `TaskLists` | array operations on task lists |
| `Grouping` | grouping by status |
| `OptimisticMove` | the drag-and-drop move |
| `MergeUpdated` | the update merge |
| `TasksSlice` | the tasks reducer and store |
| `AsyncOutcome`, `TasksThunks`, `BoardsThunks` | the thunks |
| `BoardsSlice`, `LegacyBoardsSlice`, `EarliestBoardsSlice` | the three boards slices |
| `TaskFilters` | the issues filter |
| `IssuesPage` | the issues page helpers |
| `BoardPage`, `LegacyBoardPage` | the two board pages |
| `TaskForm` | the task form |
| `Header` | the header |
| `DecimalText` | decimal rendering of numbers in paths |

The repository carries older twins of several files: `features/tasks/tasksSlice.ts` next to the `entities/Task` slice and thunks, and `components/TaskForm/TaskFormModal.tsx` next to the `useTaskForm` hook. Where the twins behave identically they are modelled once, and the table below cites one of them per row.

The older board page, `features/boards/pages/BoardPage.tsx`, reads `currentBoardTasks` as a flat task array. The store it is wired to holds that field as three buckets, and the code follows the page's own reading. `LegacyBoardPage` models the page as written, over a flat list.

## Model

| member | source | states |
|---|---|---|
| Domain.WithBucket | client/src/entities/Task/model/tasksSlice.ts:82-92 | Replacing one bucket's array sets exactly that bucket and keeps the other two. |
| Domain.Coalesce | client/src/entities/Task/model/tasksSlice.ts:211-214 | `payload ?? fallback` replaces only a missing payload; a present payload, even an empty one, is kept. |
| TaskLists.Keep | client/src/entities/Task/model/tasksSlice.ts:82-84 | `filter` keeps exactly the elements that satisfy the predicate and is never longer than its input. |
| TaskLists.KeepIsSubsequence | client/src/pages/IssuesPage/lib/useTaskFilters.ts:17 | What `filter` returns is an order-preserving subsequence of its input. |
| TaskLists.KeepAppend | client/src/entities/Task/model/tasksSlice.ts:196-202 | Filtering a concatenation filters each part. |
| TaskLists.IndexOfId | client/src/entities/Task/model/tasksSlice.ts:190-192 | `findIndex` by id gives the first position carrying the id, or -1 exactly when no position does. |
| TaskLists.FindById | client/src/entities/Task/model/tasksSlice.ts:77-80 | `find` by id gives nothing exactly when no task has the id; otherwise it gives the first task with the id. |
| TaskLists.RemoveId | client/src/entities/Task/model/tasksSlice.ts:82-84 | Filtering out an id keeps exactly the tasks with another id. |
| TaskLists.RemoveUnique | client/src/entities/Task/model/tasksSlice.ts:82-84 | When the id occurs once, at i, filtering it out is cutting out position i. |
| TaskLists.RemoveUniqueIds | client/src/entities/Task/model/tasksSlice.ts:82-84 | Filtering out an id that occurs once removes exactly one id from the multiset of ids, and one element. |
| TaskLists.NoIdCountsZero | client/src/entities/Task/model/tasksSlice.ts:196-202 | An id no task carries has count zero. |
| TaskLists.NoIdKept | client/src/entities/Task/model/tasksSlice.ts:196-202 | Filtering out an absent id changes nothing. |
| TaskLists.SpliceStart | client/src/entities/Task/model/tasksSlice.ts:88-92 | `splice` counts a negative start from the end and clamps both ends to the array. |
| TaskLists.InsertAt | client/src/entities/Task/model/tasksSlice.ts:88-92 | `splice(i, 0, t)` places t at the clamped position, keeps the elements before and after it in order, and adds t's id to the ids. |
| TaskLists.ReplaceFirst | client/src/entities/Task/model/tasksSlice.ts:190-195 | Assigning at the `findIndex` position replaces exactly that entry, keeps the length, and changes nothing when the id is absent. |
| Grouping.GroupByStatus | client/src/entities/Task/model/tasksSlice.ts:140-157 | The grouped board puts each task in the bucket of its own status. |
| Grouping.WithStatusSnoc | client/src/entities/Task/model/tasksSlice.ts:148-153 | Appending a task to the list appends it to the tasks of its status, if it has that status. |
| Grouping.GroupSnoc | client/src/entities/Task/model/tasksSlice.ts:148-153 | One accumulation step pushes the task onto the bucket of its status, and drops a task whose status has no column. |
| Grouping.GroupKeepsOrder | client/src/entities/Task/model/tasksSlice.ts:140-157 | Each bucket is a subsequence of the payload in payload order and holds exactly the payload's tasks of that status. |
| Grouping.AppendToBucket | client/src/entities/Task/model/tasksSlice.ts:152 | Pushing onto one bucket adds the task once to the flattened board. |
| Grouping.GroupPartitions | client/src/entities/Task/model/tasksSlice.ts:140-157 | When every status is listed, the buckets together hold exactly the payload, as a multiset and by length. |
| Grouping.GroupScenarios | client/src/entities/Task/model/tasksSlice.test.ts:116-129 | The test's tasks 1 (Backlog) and 2 (InProgress) land in their buckets and Done stays empty. |
| OptimisticMove.ApplyMove | client/src/entities/Task/model/tasksSlice.ts:64-93 | The move does nothing when there is no destination or when the dragged id is not in the source bucket. |
| OptimisticMove.MoveEffect | client/src/entities/Task/model/tasksSlice.ts:76-92 | Otherwise, in a move across columns, the source bucket keeps exactly its other tasks, in order, and the id leaves it. The task, with the destination status, sits at the clamped index of the destination bucket, whose other tasks keep their order. The third bucket is untouched. |
| OptimisticMove.MovePreservesIds | client/src/entities/Task/model/tasksSlice.ts:76-92 | For an id unique in its source bucket, the move keeps the board's multiset of ids and its task count. |
| OptimisticMove.MovedIds | client/src/entities/Task/model/tasksSlice.ts:82-92 | The same, for a move that actually happens. |
| OptimisticMove.MovePreservesWellFormed | client/src/entities/Task/model/tasksSlice.ts:87-92 | Setting the moved task's status to its new column keeps every task in the bucket of its status. |
| OptimisticMove.MoveToSameSlotIsIdentity | client/src/entities/Task/model/tasksSlice.ts:76-92 | Dropping a card back on its own slot leaves the board as it was. |
| OptimisticMove.MoveScenario | client/src/entities/Task/model/tasksSlice.test.ts:56-85 | The test's drag from Backlog 0 to InProgress 1 empties Backlog and puts task 1, now InProgress, after task 2. |
| MergeUpdated.WithoutId | client/src/entities/Task/model/tasksSlice.ts:197-203 | Every bucket loses exactly the tasks with the updated id. |
| MergeUpdated.MergeLeavesIdOnce | client/src/entities/Task/model/tasksSlice.ts:197-208 | After the merge the id occurs exactly once on the board, as the last task of its status's bucket, or nowhere when the status has no column. |
| MergeUpdated.MergeKeepsOthers | client/src/entities/Task/model/tasksSlice.ts:197-208 | Apart from the updated id, every bucket keeps its tasks in order. |
| MergeUpdated.NoIdKeptAgain | client/src/entities/Task/model/tasksSlice.ts:199-202 | Filtering the same id twice is filtering it once. |
| MergeUpdated.MergePreservesWellFormed | client/src/entities/Task/model/tasksSlice.ts:204-208 | The merge keeps every task in the bucket of its status. |
| TasksSlice.ErrorAfterFetchRejected | client/src/entities/Task/model/tasksSlice.ts:108-114 | An abort keeps the prior error; any other rejection sets the payload, or the fallback when there is none. |
| TasksSlice.GroupPayload | client/src/entities/Task/model/tasksSlice.ts:146-156 | The `reduce` loop computes exactly the grouping by status. |
| TasksSlice.OverwriteById | client/src/entities/Task/model/tasksSlice.ts:190-195 | The `findIndex`-then-assign step computes exactly ReplaceFirst. |
| TasksSlice.MergeTask | client/src/entities/Task/model/tasksSlice.ts:197-208 | The per-bucket filter followed by the guarded push computes exactly the merge. |
| TasksSlice.TasksStore.constructor | client/src/entities/Task/model/tasksSlice.ts:33-48 | The store starts empty, with no flags raised, no errors and no board context. |
| TasksSlice.TasksStore.ClearCurrentBoardTasks | client/src/entities/Task/model/tasksSlice.ts:54-58 | The case's in-place assignments give the reducer's new state. |
| TasksSlice.TasksStore.SetContextBoardId | client/src/entities/Task/model/tasksSlice.ts:60-62 | Sets only the board context. |
| TasksSlice.TasksStore.OptimisticallyUpdateTaskStatus | client/src/entities/Task/model/tasksSlice.ts:64-93 | The in-place find, filter, status write and splice give the reducer's new state. |
| TasksSlice.TasksStore.FetchAllTasksPending | client/src/entities/Task/model/tasksSlice.ts:97-100 | Raises `loading` and clears `error`. |
| TasksSlice.TasksStore.FetchAllTasksFulfilled | client/src/entities/Task/model/tasksSlice.ts:101-107 | Lowers `loading` and replaces `tasks`. |
| TasksSlice.TasksStore.FetchAllTasksRejected | client/src/entities/Task/model/tasksSlice.ts:108-114 | Lowers `loading`; writes the error unless the rejection is an abort. |
| TasksSlice.TasksStore.FetchAllUsersPending | client/src/entities/Task/model/tasksSlice.ts:116-119 | Raises `loadingUsers` and clears `usersError`. |
| TasksSlice.TasksStore.FetchAllUsersFulfilled | client/src/entities/Task/model/tasksSlice.ts:120-126 | Lowers `loadingUsers` and replaces `users`. |
| TasksSlice.TasksStore.FetchAllUsersRejected | client/src/entities/Task/model/tasksSlice.ts:127-133 | Lowers `loadingUsers`; writes `usersError` unless the rejection is an abort. |
| TasksSlice.TasksStore.FetchTasksOnBoardPending | client/src/entities/Task/model/tasksSlice.ts:136-139 | Raises `loadingCurrentBoard` and clears `currentBoardError`. |
| TasksSlice.TasksStore.FetchTasksOnBoardFulfilled | client/src/entities/Task/model/tasksSlice.ts:140-157 | Lowers the flag and replaces the board with the grouped payload. |
| TasksSlice.TasksStore.FetchTasksOnBoardRejected | client/src/entities/Task/model/tasksSlice.ts:159-165 | Lowers the flag; writes `currentBoardError` unless the rejection is an abort. |
| TasksSlice.TasksStore.CreateNewTaskPending | client/src/entities/Task/model/tasksSlice.ts:169-171 | Raises `loading`. |
| TasksSlice.TasksStore.CreateNewTaskFulfilled | client/src/entities/Task/model/tasksSlice.ts:172-174 | Lowers `loading`. |
| TasksSlice.TasksStore.CreateNewTaskRejected | client/src/entities/Task/model/tasksSlice.ts:175-180 | Lowers `loading` and always writes the error. |
| TasksSlice.TasksStore.UpdateExistingTaskPending | client/src/entities/Task/model/tasksSlice.ts:181-183 | Raises `loading`. |
| TasksSlice.TasksStore.UpdateExistingTaskFulfilled | client/src/entities/Task/model/tasksSlice.ts:184-210 | Lowers `loading`, overwrites the task in the list and merges it into the board. |
| TasksSlice.TasksStore.UpdateExistingTaskRejected | client/src/entities/Task/model/tasksSlice.ts:211-214 | Lowers `loading` and always writes the error. |
| TasksSlice.PendingTouchesOnlyItsResource | client/src/entities/Task/model/tasksSlice.ts:97-139 | A fetch's pending case raises its own flag, clears its own error and touches nothing else. |
| TasksSlice.RejectedFetch | client/src/features/tasks/tasksSlice.ts:223-281 | A fetch's rejected case lowers its own flag and keeps its error on an abort. Otherwise it writes the payload, or the resource's fallback when there is none. Nothing else changes. |
| TasksSlice.AbortedFetchShowsNoError | client/src/entities/Task/model/tasksSlice.ts:108-114 | A fetch started and then aborted shows no error and is not loading. |
| TasksSlice.MutationRejectionsAlwaysReport | client/src/features/tasks/tasksSlice.ts:290-329 | The create and update rejections always write an error, with no abort check. |
| TasksSlice.ClearResetsOnlyTheBoard | client/src/features/tasks/tasksSlice.ts:171-175 | Clearing empties the buckets, the board error and the board flag, and leaves every other field as it was. |
| TasksSlice.FulfilledCasesChangeLittle | client/src/entities/Task/model/tasksSlice.ts:101-107 | `fetchAllTasks.fulfilled` replaces `tasks` wholesale; `createNewTask.fulfilled` changes only `loading`. |
| TasksSlice.MoveChangesOnlyTheBoard | client/src/features/tasks/tasksSlice.ts:183-207 | The optimistic move changes only the board, and is a no-op without a destination or without the dragged id in the source bucket. |
| TasksSlice.StatusUpdateNeverRollsBack | client/src/entities/Task/model/tasksSlice.ts:95-215 | No case handles `updateTaskStatus`, so the optimistic move stays whatever the update's outcome. |
| TasksSlice.FetchedBoardPartitionsPayload | client/src/features/tasks/tasksSlice.ts:255-272 | The fetched board's buckets keep payload order. Each bucket holds exactly the payload's tasks of its status, and together they hold exactly the payload when every status is listed. |
| TasksSlice.UpdateFulfilledMerges | client/src/features/tasks/tasksSlice.ts:299-325 | The update overwrites the matching list entry and adds none. It leaves the id exactly once on the board, or nowhere for an unlisted status. |
| TasksSlice.ReducePreservesWellFormed | client/src/entities/Task/model/tasksSlice.ts:53-215 | Every case keeps each task on the board in the bucket of its status. |
| AsyncOutcome.MessageOr | client/src/entities/Task/model/tasksThunks.ts:54 | `message \|\| fallback` gives the fallback for a missing or empty message. |
| AsyncOutcome.CancelIsCheckedFirst | client/src/entities/Task/model/tasksThunks.ts:31-37 | A cancelled call rejects with exactly "Request Canceled". Any other failure rejects with its non-empty message, or else the fallback. |
| TasksThunks.StampBoardId | client/src/features/tasks/tasksSlice.ts:61-66 | Every returned task gets the requested board id, in order, with the length kept. |
| TasksThunks.StampKeepsTasks | client/src/entities/Task/model/tasksThunks.ts:25-30 | Stamping keeps the ids and every other field of each task. |
| TasksThunks.FetchTasksOnBoard | client/src/entities/Task/model/tasksThunks.ts:19-39 | It resolves exactly on success, with the stamped tasks. It rejects with the cancel text, or the message, or the fallback that names the board. |
| TasksThunks.FetchAllTasks | client/src/entities/Task/model/tasksThunks.ts:42-56 | It resolves with the data unchanged, or rejects with the mapped reason. |
| TasksThunks.FetchAllUsers | client/src/entities/Task/model/tasksThunks.ts:59-73 | It resolves with the data unchanged, or rejects with the mapped reason. |
| TasksThunks.CreateNewTask | client/src/entities/Task/model/tasksThunks.ts:76-93 | On success it refetches all tasks and then the request's board, and resolves with the created task. On failure it dispatches nothing and rejects with the message or the fallback. |
| TasksThunks.UpdateExistingTask | client/src/entities/Task/model/tasksThunks.ts:96-115 | On success it refetches all tasks, and the task's board only when that id is truthy. |
| TasksThunks.UpdateTaskStatus | client/src/entities/Task/model/tasksThunks.ts:118-129 | It resolves with exactly its input, and rejects with the error's message as it is. |
| TasksThunks.FetchRejectionReachesSlice | client/src/features/tasks/tasksSlice.ts:223-281 | A non-abort fetch rejection shows exactly the thunk's reason, never the slice's own fallback. |
| DecimalText.DigitChar | client/src/pages/IssuesPage/lib/useIssues.ts:58 | Each digit maps to its decimal character. |
| DecimalText.Digits | client/src/pages/IssuesPage/lib/useIssues.ts:58 | A number's decimal text is a non-empty string of digits. |
| DecimalText.DigitsRoundTrip | client/src/pages/BoardPage/lib/useBoard.ts:73-76 | Reading back a number's decimal text gives the number. |
| BoardsSlice.BoardsStore.constructor | client/src/entities/Board/model/boardsSlice.ts:12-16 | No boards, not loading, no error. |
| BoardsSlice.BoardsStore.Pending | client/src/entities/Board/model/boardsSlice.ts:24-27 | Raises `loading` and clears `error`. |
| BoardsSlice.BoardsStore.Fulfilled | client/src/entities/Board/model/boardsSlice.ts:28-33 | Lowers `loading` and replaces the boards. |
| BoardsSlice.BoardsStore.Rejected | client/src/entities/Board/model/boardsSlice.ts:35-40 | Lowers `loading`; writes the error unless the rejection is an abort. |
| BoardsSlice.RejectedCase | client/src/entities/Board/model/boardsSlice.ts:35-40 | A rejection keeps the boards, keeps the error on an abort, and otherwise writes the payload or 'Неизвестная ошибка'. |
| BoardsSlice.AbortLeavesNoError | client/src/entities/Board/model/boardsSlice.ts:24-40 | A request started and then aborted leaves no error and is not loading. |
| BoardsSlice.BoardsSliceScenarios | client/src/entities/Board/model/boardsSlice.test.ts:12-58 | The slice tests' expected states for pending, fulfilled, a rejection and an aborted rejection. |
| BoardsThunks.FetchBoards | client/src/entities/Board/model/boardsThunks.ts:10-19 | It resolves with the data unchanged. A cancel rejects with "Request Canceled"; any other failure rejects with its message or 'Failed to fetch boards'. |
| BoardsThunks.CancelNeverYieldsFallback | client/src/entities/Board/model/boardsThunks.ts:15-18 | A cancelled request never yields the fallback. |
| LegacyBoardsSlice.FetchBoards | client/src/features/boards/boardsSlice.ts:24-31 | The older thunk has no cancel test: it rejects with the message or 'Failed to fetch boards'. |
| LegacyBoardsSlice.BoardsStore.constructor | client/src/features/boards/boardsSlice.ts:13-17 | No boards, not loading, no error. |
| LegacyBoardsSlice.BoardsStore.Pending | client/src/features/boards/boardsSlice.ts:39-42 | Raises `loading` and clears `error`. |
| LegacyBoardsSlice.BoardsStore.Fulfilled | client/src/features/boards/boardsSlice.ts:43-49 | Lowers `loading` and replaces the boards. |
| LegacyBoardsSlice.BoardsStore.Rejected | client/src/features/boards/boardsSlice.ts:50-53 | Lowers `loading` and always writes the payload or 'Unknown error'. |
| LegacyBoardsSlice.RejectionAlwaysReports | client/src/features/boards/boardsSlice.ts:50-53 | Every rejection leaves an error, even an abort. The older and current reducers agree except on aborts and payload-less rejections. |
| LegacyBoardsSlice.ThunkFailureReachesState | client/src/features/boards/boardsSlice.ts:28-53 | The thunk's reason is exactly what the reducer shows. |
| EarliestBoardsSlice.BoardsStore.constructor | clientzip/src/features/boards/boardsSlice.ts:11-15 | No boards, not loading, no error. |
| EarliestBoardsSlice.BoardsStore.Pending | clientzip/src/features/boards/boardsSlice.ts:19-21 | Raises `loading` only; the error is kept. |
| EarliestBoardsSlice.BoardsStore.Fulfilled | clientzip/src/features/boards/boardsSlice.ts:22-25 | Lowers `loading` and replaces the boards. |
| EarliestBoardsSlice.BoardsStore.Rejected | clientzip/src/features/boards/boardsSlice.ts:26-29 | Lowers `loading` and writes the error's message. |
| EarliestBoardsSlice.StaleErrorSurvivesSuccess | clientzip/src/features/boards/boardsSlice.ts:19-25 | After a failure, a retry and its success, the old error is still shown beside the new boards; only `rejected` writes the error. |
| EarliestBoardsSlice.RetryClearsErrorInCurrentSlice | client/src/entities/Board/model/boardsSlice.ts:24-33 | In the current slice the same sequence leaves no error. |
| TaskFilters.LowerText | client/src/pages/IssuesPage/lib/useTaskFilters.ts:18-20 | Lower-casing keeps the length and maps every character. |
| TaskFilters.ContainsIffOccurs | client/src/pages/IssuesPage/lib/useTaskFilters.ts:18-20 | `includes` holds exactly when the needle occurs at some position of the text. |
| TaskFilters.ContainedCharsOccur | client/src/features/tasks/IssuesPage.tsx:73-75 | Every character of a contained query occurs in the title. |
| TaskFilters.FilterTasks | client/src/features/tasks/IssuesPage.tsx:71-91 | The result holds exactly the tasks that match all active criteria, and it is never longer than the input. |
| TaskFilters.FilterIsSubsequence | client/src/features/tasks/IssuesPage.tsx:72 | The result is an order-preserving subsequence of the tasks. |
| TaskFilters.FilterIsSound | client/src/pages/IssuesPage/lib/useTaskFilters.ts:16-36 | A kept task contains the query case-insensitively and meets every selected status, board and assignee; an active assignee filter rejects tasks without an assignee. |
| TaskFilters.FilterIsComplete | client/src/pages/IssuesPage/lib/useTaskFilters.ts:30-35 | Every task that meets all active criteria is kept. |
| TaskFilters.KeepEverything | client/src/features/tasks/IssuesPage.tsx:71-91 | A filter that accepts every task returns the list unchanged. |
| TaskFilters.EmptyCriteriaKeepAll | client/src/pages/IssuesPage/lib/useTaskFilters.ts:21-29 | An empty query and unselected (or zero-id) criteria keep every task. |
| TaskFilters.SearchHit | client/src/pages/IssuesPage.test.tsx:66-85 | 'авторизации' occurs in the first test title. |
| TaskFilters.SearchMiss | client/src/pages/IssuesPage.test.tsx:66-85 | 'авторизации' does not occur in the second test title. |
| TaskFilters.KeepFirstOfTwo | client/src/features/tasks/IssuesPage.test.tsx:109-124 | Of a matching and a non-matching task, only the first stays. |
| TaskFilters.SearchScenario | client/src/pages/IssuesPage.test.tsx:66-85 | Searching 'авторизации' leaves only task 1. |
| IssuesPage.LoadingFollowsSlices | client/src/pages/IssuesPage/lib/useIssues.ts:84 | The page is loading as soon as the tasks, users or boards request of the two slices is pending, and stops once all three have been fulfilled. |
| IssuesPage.Truthy | client/src/pages/IssuesPage/lib/useIssues.ts:85-87 | `filter(Boolean)` keeps only present, non-empty messages, and keeps every such message. |
| IssuesPage.TruthyAppend | client/src/pages/IssuesPage/lib/useIssues.ts:85-87 | The filter works element by element: it distributes over concatenation, and a single message is kept exactly when it is present and non-empty. |
| IssuesPage.Errors | client/src/pages/IssuesPage/lib/useIssues.ts:85-87 | At most three messages, none of them empty. |
| IssuesPage.ErrorsInOrder | client/src/pages/IssuesPage/lib/useIssues.ts:85-87 | In all eight cases, the list is the tasks error, then the users error, then the boards error, each shown only when present and non-empty. Equal messages from two sources both show. |
| IssuesPage.GoToBoardWithTask | client/src/pages/IssuesPage/lib/useIssues.ts:56-65 | It navigates to `/board/{boardId}?openTask={taskId}` exactly when boardId > 0; otherwise it shows the "no board" notification. |
| IssuesPage.GoToBoardRoundTrip | client/src/pages/IssuesPage/lib/useIssues.ts:56-58 | The path is classified as a board page, and the `openTask` text reads back as the task id. |
| IssuesPage.IssuesModal.constructor | client/src/pages/IssuesPage/lib/useIssues.ts:46-54 | The modal starts hidden with no task. |
| IssuesPage.IssuesModal.OpenModal | client/src/pages/IssuesPage/lib/useIssues.ts:46-49 | Opening selects the task and shows the modal. |
| IssuesPage.IssuesModal.CloseModal | client/src/pages/IssuesPage/lib/useIssues.ts:51-54 | Closing hides the modal and clears the selection. |
| IssuesPage.IssuesModal.RowClick | client/src/pages/IssuesPage/lib/useIssues.ts:67-75 | A click in the actions column changes nothing; any other click opens the row's task. |
| Header.SelectedKey | client/src/components/Layout/Header.tsx:15-24 | The key is always 'issues', 'boards' or ''. |
| Header.SelectedKeyCases | client/src/components/Layout/Header.tsx:16-24 | '/issues' wins; otherwise '/boards' or '/board/' gives 'boards'; anything else gives ''. |
| Header.BoardAndIssuesPaths | client/src/components/Layout/Header.tsx:17-23 | Every board path selects 'boards' and every issues path selects 'issues'. |
| BoardPage.HandleDragEnd | client/src/pages/BoardPage/lib/useBoard.ts:112-129 | Nothing is dispatched exactly when there is no destination or the drop is on its own slot. Otherwise the move is dispatched, then the status update for the dragged id and the destination column. |
| BoardPage.HandleDragEndInline | client/src/pages/BoardPage.tsx:175-202 | The page's version, with its repeated guard, dispatches exactly what the hook's does. |
| BoardPage.ReorderInColumnDispatches | client/src/pages/BoardPage/lib/useBoard.ts:115-118 | A drop in the same column at another index still dispatches the move first. |
| BoardPage.SkippedDropsChangeNothing | client/src/pages/BoardPage/lib/useBoard.ts:113-120 | The guard skips only drops that the reducer would not have changed. |
| BoardPage.NumberOf | client/src/pages/BoardPage/lib/useBoard.ts:73-76 | A string of digits reads as a number; anything else reads as no id. |
| BoardPage.NumberOfDigits | client/src/pages/BoardPage/lib/useBoard.ts:73-76 | The text written for a task id reads back as that id. |
| BoardPage.DeepLink | client/src/pages/BoardPage/lib/useBoard.ts:66-94 | It waits exactly when there is no param, while loading, or when the board is empty without an error. It opens a task on the board that has the param's id, and warns only when no task has it. |
| BoardPage.DeepLinkLookupOrder | client/src/pages/BoardPage.tsx:106-129 | The task opened is the first with the id in Backlog, then InProgress, then Done order. |
| BoardPage.BoardModal.constructor | client/src/pages/BoardPage/lib/useBoard.ts:40-43 | The modal starts hidden with no task, and with the URL's `openTask`. |
| BoardPage.BoardModal.OpenModal | client/src/pages/BoardPage/lib/useBoard.ts:98-101 | Opening selects the task and shows the modal, leaving the URL alone. |
| BoardPage.BoardModal.CloseModal | client/src/pages/BoardPage/lib/useBoard.ts:103-110 | Closing hides the modal, clears the selection, and removes `openTask` with one URL write only when it was there. |
| BoardPage.BoardModal.RunDeepLink | client/src/pages/BoardPage.tsx:95-136 | One run of the effect waits, opens the found task, or warns once and drops the param with one URL write. |
| BoardPage.PageLoading | client/src/pages/BoardPage/lib/useBoard.ts:136-138 | The spinner shows while the board's tasks load, and while the boards load with none loaded yet. It is off when nothing loads, and off when boards reload while some are already loaded. |
| BoardPage.IndexOfBoard | client/src/pages/BoardPage.tsx:50-53 | The first position of a board with the id, or -1 exactly when there is none. |
| BoardPage.FindBoard | client/src/pages/BoardPage/lib/useBoard.ts:34-37 | The board shown is the first with the route's id, and there is none exactly when no board has it. |
| BoardPage.Render | client/src/pages/BoardPage.tsx:138-173 | The spinner comes first, then the tasks error, then "board not found", then the board; each is shown exactly in its case. |
| BoardPage.MountEffect | client/src/pages/BoardPage/lib/useBoard.ts:48-53 | A non-zero board id dispatches, in order, the board's tasks fetch, the boards fetch, the users fetch and the context. Id 0 dispatches nothing. |
| BoardPage.MountEffectOnStore | client/src/pages/BoardPage/lib/useBoard.ts:48-53 | After the mount, the tasks store is loading the board's tasks with no board error, is loading the users with no users error, and has the board as its context. Tasks, buckets and `loading` are unchanged. |
| BoardPage.CleanupEffect | client/src/pages/BoardPage/lib/useBoard.ts:55-61 | The cleanup aborts the tasks, boards and users fetches, then clears the board and drops the context. Id 0 has no cleanup. |
| BoardPage.MountEffectInline | client/src/pages/BoardPage.tsx:75-86 | The page fetches boards and users always, and the board's tasks only for a non-zero id. |
| BoardPage.CleanupEffectInline | client/src/pages/BoardPage.tsx:87-93 | It aborts the tasks fetch only when it was started, and always ends by clearing the board and dropping the context. |
| BoardPage.CleanupLeavesNoBoard | client/src/pages/BoardPage/lib/useBoard.ts:57-62 | After either page's cleanup the store has no board tasks, board error, board loading or context. |
| BoardPage.DragEndOnStore | client/src/pages/BoardPage.tsx:194-201 | A dispatching drag leaves the store as the optimistic move alone does. |
| LegacyBoardPage.TasksByStatus | client/src/features/boards/pages/BoardPage.tsx:99-111 | The `forEach`/`push` loop computes exactly the grouping by status and drops unlisted statuses. |
| LegacyBoardPage.DeepLink | client/src/features/boards/pages/BoardPage.tsx:79-97 | It acts only with a param, not loading and a non-empty list. It opens a task with the param's id, or drops the param, with no notification, when there is none. |
| LegacyBoardPage.MountEffect | client/src/features/boards/pages/BoardPage.tsx:61-72 | Boards are fetched only when none are loaded. The board's tasks and the context are dispatched only for a non-zero id. The filter boards and then the users are always fetched, last. |
| LegacyBoardPage.CleanupEffect | client/src/features/boards/pages/BoardPage.tsx:73-76 | The cleanup clears the board and drops the context. |
| TaskForm.InitialValues | client/src/components/TaskForm/TaskFormModal.tsx:170-188 | A reset form has the board prop and priority Medium, and nothing else. |
| TaskForm.Prefill | client/src/widgets/TaskForm/lib/useTaskForm.ts:41-49 | Edit mode fills title, description, board, priority and status from the task, and the assignee's id when there is an assignee. |
| TaskForm.Merge | client/src/widgets/TaskForm/lib/useTaskForm.ts:55-56 | Every field the draft has overwrites the form's; the others are kept. |
| TaskForm.OpenedValues | client/src/widgets/TaskForm/lib/useTaskForm.ts:39-64 | Edit mode shows the pre-fill whatever the slot holds. Create mode shows the initial values, with a parsable draft on top. |
| TaskForm.OpenedSlot | client/src/components/TaskForm/TaskFormModal.tsx:90-101 | Opening empties the slot exactly in create mode when it holds non-empty text that does not parse; otherwise the slot is untouched. |
| TaskForm.RequestOf | client/src/widgets/TaskForm/lib/useTaskForm.ts:79-85 | The create request carries exactly title, description, priority, assignee and board from the values. |
| TaskForm.Submission | client/src/widgets/TaskForm/lib/useTaskForm.ts:67-99 | The request comes first. The form closes exactly when the thunk resolves, and closing is last. A failure shows the error notification alone. |
| TaskForm.BoardPathRoundTrip | client/src/widgets/TaskForm/lib/useTaskForm.ts:109-114 | For a positive board id, the path's route segment reads back as that id on the board page, and the header highlights 'boards' there. |
| TaskForm.CanRenderAfterLoads | client/src/widgets/TaskForm/lib/useTaskForm.ts:124 | The form cannot render from the slices' initial state. Once the boards and users requests are fulfilled with non-empty lists, it renders exactly when visible. |
| TaskForm.TaskFormController.constructor | client/src/components/TaskForm/TaskFormModal.tsx:18-42 | A new form holds the initial values and the slot as stored. |
| TaskForm.TaskFormController.Open | client/src/widgets/TaskForm/lib/useTaskForm.ts:39-64 | A visible open sets the values and the slot as the open effect says; an invisible one changes nothing. |
| TaskForm.TaskFormController.ValuesChange | client/src/widgets/TaskForm/lib/useTaskForm.ts:102-106 | A change overwrites the slot with all values in create mode only. |
| TaskForm.TaskFormController.Finish | client/src/components/TaskForm/TaskFormModal.tsx:44-76 | Submitting records the submission's events. Only a successful create empties the slot. |
| TaskForm.TaskFormController.Submit | client/src/widgets/TaskForm/TaskFormModal.tsx:33-120 | Values that fail a `required` rule send nothing and change nothing. Values that pass produce exactly the submission's events. |
| TaskForm.SentRequestIsComplete | client/src/widgets/TaskForm/TaskFormModal.tsx:40-120 | A create request that passes validation carries a non-empty title and description, a board, a priority and an assignee. |
| TaskForm.TaskFormController.GoToBoard | client/src/widgets/TaskForm/lib/useTaskForm.ts:109-114 | It closes the form and then navigates to the task's board, only when that board id is truthy. |
| TaskForm.DraftRoundTrip | client/src/widgets/TaskForm/lib/useTaskForm.ts:102-106 | A full draft written by the create form comes back unchanged when the form is next opened. |
| TaskForm.PartialDraftKeepsDefaults | client/src/components/TaskForm/TaskFormModal.tsx:91-96 | A draft without board or priority keeps the initial ones. |
| TaskForm.EditIgnoresDraft | client/src/components/TaskForm/TaskFormModal.tsx:81-89 | Edit mode neither reads nor clears the slot. |
| TaskForm.CreateScenario | client/src/components/TaskForm/TaskFormModal.test.tsx:75-130 | The test's create submit sends the typed title, assignee 101 and board 1, then closes and empties the slot. |
| TaskForm.EditScenario | client/src/components/TaskForm/TaskFormModal.test.tsx:133-161 | The test's edit form shows the task's title and assignee 101. |

## Left out

- Network calls, `localStorage`, notifications, navigation and `setSearchParams` are not executed. API results are parameters (`Outcome`, `Reply`, `Settled`). Side effects are trace events or returned dispatch lists.
- `createAsyncThunk` scheduling, abort signals and the timing of awaited dispatches are not modelled. A rejection carries an `isAbort` flag; the abort dispatches in the cleanups are plain events.
- JSON parsing of the draft: the slot holds either the values the form serialised, which parse back with unset fields omitted, or text that does not parse. Parsable text that the form did not write is not modelled.
- `console.error` on a corrupt draft is not modelled.
- Grouping a fetched board (`Grouping.GroupByStatus`), merging an updated task (`MergeUpdated.MergeIntoBoard`) and the legacy page's grouping (`LegacyBoardPage.TasksByStatus`): the model has only the three buckets and drops a task whose status has no column. In the source, the entities `reduce` adds an extra bucket under such a status. The model also does not capture a failure of the source: for a status named after a property that every JavaScript object inherits (`constructor`, `toString`, `__proto__` and the like), the bucket lookup is already truthy and `push` throws a TypeError. The fulfilled reducer then throws and leaves `loadingCurrentBoard` raised, and the merge and the legacy page's render throw.
- Form validation is modelled only through the `required` rules (`TaskForm.Submittable`). The field error messages antd shows are not modelled.
- `Number(...)`, in `BoardPage.NumberOf` and for route ids: only plain decimal digit strings are read. Signs, whitespace, decimals and exponents are not; they read as no id.
- Route ids are integers. A non-numeric route id (NaN) is modelled as 0, which the source also treats as falsy.
- `draggableId` is modelled as the integer the card was rendered with, so `Number(draggableId)` is the identity.
- `TaskFilters.LowerText`: only ASCII and basic Cyrillic (including Ѐ–Џ) are lower-cased. Other Unicode case mappings are not modelled.
- Notification texts other than the error titles named in the model are not modelled.
- The mount effect of the issues page, which fetches tasks, users and boards, is not modelled.
- The legacy board page's mount dispatches `fetchBoardsForTasksFilter`, which the slices here do not define. It is kept only as a dispatch event.
- Rendering (tables, columns, cards, tags, layout) is not modelled.
- `TaskForm.Submission`: the error notification's description is always absent, because the awaited thunk rejects with a plain string, which has no `message`. A rejection thrown as an error object is not modelled.

## Findings

| source | as written | input that shows it | evidently intended | confidence | as-written member | corrected member |
|---|---|---|---|---|---|---|
| clientzip/src/features/boards/boardsSlice.ts:19-21 | `pending` raises `loading` but never clears `error`, so only `rejected` ever writes it | a failed load (error "Network Error"), then a retry that succeeds: the boards are shown and "Network Error" is still in the state | a new request clears the previous error, as the later slices do | medium, not executed | EarliestBoardsSlice.StaleErrorSurvivesSuccess | EarliestBoardsSlice.RetryClearsErrorInCurrentSlice |
