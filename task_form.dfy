/** The task form's controller: the draft cache kept in one browser storage
    slot, pre-filling on open, the submit handler, the "go to board" link and
    the render guard. Both the form hook and the older inline form component
    behave this way. */
module TaskForm {
  import opened Domain
  import opened AsyncOutcome
  import opened DecimalText
  import TasksSlice
  import BoardsSlice
  import BoardPage
  import Header

  /** The storage key of the one draft slot. */
  const DraftStorageKey := "task-form-draft"

  const CreatedMessage := "Задача успешно создана"
  const UpdatedMessage := "Задача успешно обновлена"
  const FailureMessage := "Произошла ошибка"

  /** The form's fields; a field nobody has filled is `None`. */
  datatype FormValues = FormValues(
    title: Option<string>,
    description: Option<string>,
    boardId: Option<int>,
    priority: Option<Priority>,
    status: Option<Status>,
    assigneeId: Option<int>)

  /** What the draft slot can hold: the text the form wrote, which parses
      back to the values it was written from (fields without a value are not
      written), or any other text, which does not parse. */
  datatype StoredDraft = Serialized(values: FormValues) | Garbage(text: string)

  /** The create request: exactly these five fields, read from the values. */
  datatype CreateRequest = CreateRequest(
    title: Option<string>,
    description: Option<string>,
    priority: Option<Priority>,
    assigneeId: Option<int>,
    boardId: Option<int>)

  /** What the controller does that the outside sees, in order. */
  datatype FormEvent =
    | CreateRequested(request: CreateRequest)
    | UpdateRequested(taskId: int, update: FormValues)
    | NotifySuccess(message: string)
    | NotifyError(message: string, description: Option<string>)
    | Close
    | Navigate(path: string)

  /** The form's initial values: the board given to the form and priority
      Medium; everything else empty. */
  function InitialValues(boardIdProp: Option<int>): (v: FormValues)
    ensures v.boardId == boardIdProp && v.priority == Some(Medium)
    ensures v.title.None? && v.description.None? && v.status.None? && v.assigneeId.None?
  {
    FormValues(None, None, boardIdProp, Some(Medium), None, None)
  }

  /** The edit-mode pre-fill, with the assignee's id when there is one. */
  function Prefill(t: Task): (v: FormValues)
    ensures v.title == Some(t.title) && v.description == Some(t.description)
    ensures v.boardId == t.boardId && v.priority == Some(t.priority) && v.status == Some(t.status)
    ensures v.assigneeId.Some? <==> t.assignee.Some?
    ensures t.assignee.Some? ==> v.assigneeId == Some(t.assignee.value.id)
  {
    FormValues(Some(t.title), Some(t.description), t.boardId, Some(t.priority), Some(t.status),
      match t.assignee case Some(a) => Some(a.id) case None => None)
  }

  /** `setFieldsValue(draft)`: every field the draft has overwrites the form's. */
  function Merge(v: FormValues, draft: FormValues): (r: FormValues)
    ensures draft.title.Some? ==> r.title == draft.title
    ensures draft.title.None? ==> r.title == v.title
    ensures draft.description.Some? ==> r.description == draft.description
    ensures draft.description.None? ==> r.description == v.description
    ensures draft.boardId.Some? ==> r.boardId == draft.boardId
    ensures draft.boardId.None? ==> r.boardId == v.boardId
    ensures draft.priority.Some? ==> r.priority == draft.priority
    ensures draft.priority.None? ==> r.priority == v.priority
    ensures draft.status.Some? ==> r.status == draft.status
    ensures draft.status.None? ==> r.status == v.status
    ensures draft.assigneeId.Some? ==> r.assigneeId == draft.assigneeId
    ensures draft.assigneeId.None? ==> r.assigneeId == v.assigneeId
  {
    FormValues(
      if draft.title.Some? then draft.title else v.title,
      if draft.description.Some? then draft.description else v.description,
      if draft.boardId.Some? then draft.boardId else v.boardId,
      if draft.priority.Some? then draft.priority else v.priority,
      if draft.status.Some? then draft.status else v.status,
      if draft.assigneeId.Some? then draft.assigneeId else v.assigneeId)
  }

  /** Whether the slot's text is truthy: present and not empty. */
  predicate SlotTruthy(slot: Option<StoredDraft>)
  {
    slot.Some? && (slot.value.Serialized? || slot.value.text != "")
  }

  /** The values after the open effect for a visible form: the pre-fill in
      edit mode; otherwise the initial values, overwritten by the stored
      draft when one parses. */
  function OpenedValues(task: Option<Task>, boardIdProp: Option<int>, slot: Option<StoredDraft>): (v: FormValues)
    ensures task.Some? ==> v == Prefill(task.value)
    ensures task.None? && (slot.None? || slot.value.Garbage?) ==> v == InitialValues(boardIdProp)
  {
    if task.Some? then Prefill(task.value)
    else if slot.Some? && slot.value.Serialized? then Merge(InitialValues(boardIdProp), slot.value.values)
    else InitialValues(boardIdProp)
  }

  /** The slot after the open effect: emptied only in create mode, and only
      when it holds non-empty text that does not parse. */
  function OpenedSlot(task: Option<Task>, slot: Option<StoredDraft>): (r: Option<StoredDraft>)
    ensures r == None || r == slot
    ensures r != slot <==> task.None? && SlotTruthy(slot) && slot.value.Garbage?
  {
    if task.None? && SlotTruthy(slot) && slot.value.Garbage? then None else slot
  }

  /** The create request built from the submitted values. */
  function RequestOf(v: FormValues): (r: CreateRequest)
    ensures r.title == v.title && r.description == v.description && r.priority == v.priority
    ensures r.assigneeId == v.assigneeId && r.boardId == v.boardId
  {
    CreateRequest(v.title, v.description, v.priority, v.assigneeId, v.boardId)
  }

  /** What `handleFinish` shows and does once the form's validation has let
      the values through: the request, then on success the success
      notification and the close; on failure the error notification alone.
      The awaited thunk rejects with a plain string, which has no `message`,
      so the error notification carries no description. */
  function Submission(task: Option<Task>, v: FormValues, settled: Settled<Task>): (r: seq<FormEvent>)
    ensures |r| >= 2
    ensures task.None? ==> r[0] == CreateRequested(RequestOf(v))
    ensures task.Some? ==> r[0] == UpdateRequested(task.value.id, v)
    ensures Close in r <==> settled.Resolved?
    ensures settled.Resolved? ==> r[|r| - 1] == Close
    ensures settled.RejectedWithValue? ==> r == [r[0], NotifyError(FailureMessage, None)]
  {
    var request := if task.Some? then UpdateRequested(task.value.id, v) else CreateRequested(RequestOf(v));
    match settled
    case Resolved(_) => [request, NotifySuccess(if task.Some? then UpdatedMessage else CreatedMessage), Close]
    case RejectedWithValue(_) => [request, NotifyError(FailureMessage, None)]
  }

  /** The "go to board" path, `/board/<id>`. */
  function BoardPath(boardId: int): (p: string)
    ensures |p| >= 7 && p[..7] == "/board/" && p[7..] == IntText(boardId)
  {
    "/board/" + IntText(boardId)
  }

  /** The path leads to the board: the board page reads its route segment
      back as the same id, and the header highlights 'boards' there. */
  lemma BoardPathRoundTrip(boardId: int)
    requires boardId > 0
    ensures BoardPage.NumberOf(BoardPath(boardId)[7..]) == Some(boardId)
    ensures Header.SelectedKey(BoardPath(boardId)) == "boards"
  {
    BoardPage.NumberOfDigits(boardId);
    Header.BoardAndIssuesPaths(Digits(boardId), "");
  }

  /** The form renders only when visible and both option lists are loaded;
      otherwise a spinner shows. */
  function CanRenderForm(visible: bool, boards: seq<Board>, users: seq<User>): (r: bool)
    ensures r <==> visible && |boards| > 0 && |users| > 0
  {
    visible && |boards| > 0 && |users| > 0
  }

  /** The form waits for the option lists of the two slices: from the
      initial state it shows the spinner; once the boards and the users
      requests have been fulfilled with non-empty lists, a visible form
      renders, and a hidden one never does. */
  lemma CanRenderAfterLoads(ts: TasksSlice.TasksState, bs: BoardsSlice.BoardsState,
                            boards: seq<Board>, users: seq<User>, visible: bool)
    requires |boards| > 0 && |users| > 0
    ensures !CanRenderForm(visible, BoardsSlice.InitialState.boards, TasksSlice.InitialState.users)
    ensures
      var t := TasksSlice.Reduce(ts, TasksSlice.FetchAllUsersFulfilled(users));
      var b := BoardsSlice.Reduce(bs, BoardsSlice.Fulfilled(boards));
      CanRenderForm(visible, b.boards, t.users) == visible
  {
  }

  /** The form's `required` rules: title, description, board, priority and
      assignee must be filled in, and the status too in edit mode; an empty
      text counts as not filled in. Only values that pass reach `handleFinish`. */
  predicate Submittable(v: FormValues, editMode: bool)
  {
    && v.title.Some? && v.title.value != ""
    && v.description.Some? && v.description.value != ""
    && v.boardId.Some? && v.priority.Some? && v.assigneeId.Some?
    && (editMode ==> v.status.Some?)
  }

  /** A create request that gets sent carries every field. */
  lemma SentRequestIsComplete(v: FormValues)
    requires Submittable(v, false)
    ensures var r := RequestOf(v);
      r.title.Some? && r.title.value != "" && r.description.Some? && r.description.value != ""
      && r.boardId.Some? && r.priority.Some? && r.assigneeId.Some?
  {
  }

  /** The controller of one mounted form. `task` is present in edit mode. */
  class TaskFormController {
    const task: Option<Task>
    const boardIdProp: Option<int>
    var values: FormValues
    var slot: Option<StoredDraft>
    var events: seq<FormEvent>

    constructor (task: Option<Task>, boardIdProp: Option<int>, slot: Option<StoredDraft>)
      ensures this.task == task && this.boardIdProp == boardIdProp && this.slot == slot
      ensures values == InitialValues(boardIdProp) && events == []
    {
      this.task := task;
      this.boardIdProp := boardIdProp;
      this.slot := slot;
      values := InitialValues(boardIdProp);
      events := [];
    }

    /** The open effect. */
    method Open(visible: bool)
      modifies this
      ensures visible ==> values == OpenedValues(task, boardIdProp, old(slot)) && slot == OpenedSlot(task, old(slot))
      ensures !visible ==> values == old(values) && slot == old(slot)
      ensures events == old(events)
    {
      if visible {
        if task.Some? {
          values := Prefill(task.value);
        } else {
          values := InitialValues(boardIdProp);
          if SlotTruthy(slot) {
            match slot.value
            case Serialized(draft) =>
              values := Merge(values, draft);
            case Garbage(_) =>
              slot := None;
          }
        }
      }
    }

    /** `handleValuesChange`: the form now holds `all`; in create mode the
        slot is overwritten with it. */
    method ValuesChange(all: FormValues)
      modifies this
      ensures values == all && events == old(events)
      ensures task.None? ==> slot == Some(Serialized(all))
      ensures task.Some? ==> slot == old(slot)
    {
      values := all;
      if task.None? {
        slot := Some(Serialized(all));
      }
    }

    /** `handleFinish`, given how the dispatched thunk settles. */
    method Finish(settled: Settled<Task>)
      modifies this
      ensures events == old(events) + Submission(task, values, settled)
      ensures slot == (if task.None? && settled.Resolved? then None else old(slot))
      ensures values == old(values)
    {
      var request := if task.Some? then UpdateRequested(task.value.id, values) else CreateRequested(RequestOf(values));
      events := events + [request];
      match settled {
        case Resolved(_) =>
          if task.Some? {
            events := events + [NotifySuccess(UpdatedMessage)];
          } else {
            events := events + [NotifySuccess(CreatedMessage)];
            slot := None;
          }
          events := events + [Close];
        case RejectedWithValue(_) =>
          events := events + [NotifyError(FailureMessage, None)];
      }
    }

    /** The submit button: the form's validation first; only values that pass
        it go on to `handleFinish`, otherwise nothing is sent and nothing
        else changes. */
    method Submit(settled: Settled<Task>)
      modifies this
      ensures Submittable(old(values), task.Some?) ==>
        events == old(events) + Submission(task, old(values), settled)
        && slot == (if task.None? && settled.Resolved? then None else old(slot))
      ensures !Submittable(old(values), task.Some?) ==> events == old(events) && slot == old(slot)
      ensures values == old(values)
    {
      if Submittable(values, task.Some?) {
        Finish(settled);
      }
    }

    /** `handleGoToBoard`: close, then navigate to the task's board, but only
        when the task has a truthy board id. */
    method GoToBoard()
      modifies this
      ensures task.Some? && task.value.boardId.Some? && task.value.boardId.value != 0 ==>
        events == old(events) + [Close, Navigate(BoardPath(task.value.boardId.value))]
      ensures !(task.Some? && task.value.boardId.Some? && task.value.boardId.value != 0) ==> events == old(events)
      ensures values == old(values) && slot == old(slot)
    {
      if task.Some? && task.value.boardId.Some? && task.value.boardId.value != 0 {
        events := events + [Close, Navigate(BoardPath(task.value.boardId.value))];
      }
    }
  }

  /** A draft the create form wrote, with every create field filled, comes
      back unchanged the next time the create form opens. */
  lemma DraftRoundTrip(boardIdProp: Option<int>, v: FormValues)
    requires v.title.Some? && v.description.Some? && v.boardId.Some? && v.priority.Some? && v.assigneeId.Some?
    requires v.status.None?
    ensures OpenedValues(None, boardIdProp, Some(Serialized(v))) == v
    ensures OpenedSlot(None, Some(Serialized(v))) == Some(Serialized(v))
  {
  }

  /** A partial draft keeps the initial board and priority for the fields it
      lacks. */
  lemma PartialDraftKeepsDefaults(boardIdProp: Option<int>, v: FormValues)
    requires v.boardId.None? && v.priority.None?
    ensures OpenedValues(None, boardIdProp, Some(Serialized(v))).boardId == boardIdProp
    ensures OpenedValues(None, boardIdProp, Some(Serialized(v))).priority == Some(Medium)
  {
  }

  /** Edit mode never reads or clears the slot, whatever it holds. */
  lemma EditIgnoresDraft(t: Task, boardIdProp: Option<int>, slot: Option<StoredDraft>)
    ensures OpenedValues(Some(t), boardIdProp, slot) == OpenedValues(Some(t), boardIdProp, None)
    ensures OpenedSlot(Some(t), slot) == slot
  {
  }

  /** The create form's submit from the component's test: title typed, the
      user 101 picked, the form opened on board 1; the request carries those
      values and the form closes once the thunk resolves. */
  method CreateScenario(created: Task) returns (events: seq<FormEvent>, slot: Option<StoredDraft>)
    ensures |events| >= 3 && events[0].CreateRequested?
    ensures events[0].request.title == Some("Реализовать страницу профиля")
    ensures events[0].request.assigneeId == Some(101) && events[0].request.boardId == Some(1)
    ensures events[|events| - 1] == Close
    ensures slot == None
  {
    var form := new TaskFormController(None, Some(1), None);
    form.Open(true);
    var typed := Merge(form.values, FormValues(Some("Реализовать страницу профиля"),
      Some("Добавить аватар, имя и список постов пользователя"), None, None, None, Some(101)));
    form.ValuesChange(typed);
    form.Submit(Resolved(created));
    events, slot := form.events, form.slot;
  }

  /** Opening the edit form on the component test's task shows its title and
      its assignee 101. */
  lemma EditScenario(t: Task)
    requires t.title == "Исправить баг с авторизацией" && t.assignee.Some? && t.assignee.value.id == 101
    ensures OpenedValues(Some(t), None, None).title == Some("Исправить баг с авторизацией")
    ensures OpenedValues(Some(t), None, None).assigneeId == Some(101)
  {
  }
}
