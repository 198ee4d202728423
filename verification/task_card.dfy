/**
 * One task's card as a state machine. It shows the task (viewing) or an
 * editor (editing); it issues update requests (save, status toggle) and
 * delete requests; and it disables every control while either of its
 * mutations is in flight. A request is what the card hands to the update or
 * delete mutation; the mutation's outcome comes back as a settle event.
 */
module TaskCard {
  import opened Opt
  import opened Text
  import opened TaskTypes
  import opened Validation
  import opened Gateway

  /** The card's local state together with the status of its two mutations.
      `awaitingSave` marks an update issued by Save, whose success closes the
      editor; an update issued by the status toggle does not. */
  datatype Card = Card(
    editing: bool,
    editTitle: string,
    editDescription: string,
    errors: FieldErrors,
    update: MutationStatus,
    remove: MutationStatus,
    awaitingSave: bool)

  /** What the card asks of the data layer. */
  datatype Request = UpdateRequest(id: string, input: UpdateTaskInput) | DeleteRequest(id: string)

  /** The card after an event, and the request the event issued, if any. */
  datatype Step = Step(card: Card, request: Option<Request>)

  /** What the user can do to a card, and the two settle events of its mutations. */
  datatype CardEvent =
    | StartEdit
    | EditTitle(text: string)
    | EditDescription(text: string)
    | Save
    | CancelEdit
    | ToggleStatus
    | Delete(confirmed: bool)
    | UpdateSettled(updated: Outcome<Task>)
    | DeleteSettled(deleted: Outcome<()>)
  {
    predicate IsUserEvent() {
      !UpdateSettled? && !DeleteSettled?
    }
  }

  /** The card as first shown for `task`: viewing, the editor primed with the task's
      title and its description (or "" when it has none), no errors, nothing in flight. */
  function Init(task: Task): (c: Card)
    ensures !c.editing && !IsPending(c) && !c.awaitingSave && c.errors == NoErrors
    ensures c.editTitle == task.title
    ensures task.description.Some? ==> c.editDescription == task.description.value
    ensures task.description.None? ==> c.editDescription == ""
  {
    Card(false, task.title, task.description.GetOr(""), NoErrors, Idle, Idle, false)
  }

  /** `isPending`: an update or a delete of this task is in flight. */
  predicate IsPending(c: Card) {
    c.update.InFlight? || c.remove.InFlight?
  }

  /** The Save button is disabled while pending or while the title is blank. */
  predicate SaveDisabled(c: Card) {
    IsPending(c) || AllWhitespace(c.editTitle)
  }

  /** The toggle asks the store to flip this task's status and to change nothing
      else, and marks the update pending. */
  function StatusToggle(c: Card, task: Task): (s: Step)
    ensures s.request.Some? && s.request.value.UpdateRequest? && s.request.value.id == task.id
    ensures var input := s.request.value.input;
      && input.title.None? && input.description.None?
      && input.status.Some? && input.status.value != task.status
    ensures ApplyPatch(task, UpdatePatch(s.request.value.input)) == task.(status := Toggled(task.status))
    ensures s.card == c.(update := InFlight)
  {
    Step(c.(update := InFlight), Some(UpdateRequest(task.id, UpdateTaskInput(None, None, Some(Toggled(task.status))))))
  }

  /** `handleSaveEdit`: errors are cleared, then the editor's contents are validated.
      On a failure every failing field gets its message, nothing is sent and the card
      stays as it was. On success an update is sent carrying the trimmed title and
      the trimmed description only when it is not blank, and never a status. Saving
      itself never closes the editor: only a successful settle does. */
  function SaveEdit(c: Card, task: Task): (s: Step)
    ensures s.card.editing == c.editing && s.card.editTitle == c.editTitle
    ensures s.card.editDescription == c.editDescription && s.card.remove == c.remove
    ensures s.request.Some? <==> TitleOk(c.editTitle) && DescriptionOk(Some(c.editDescription))
    ensures s.request.None? ==>
      && s.card.update == c.update && s.card.awaitingSave == c.awaitingSave
      && s.card.errors == Validate(c.editTitle, Some(c.editDescription)).errors
      && (s.card.errors.title.Some? <==> !TitleOk(c.editTitle))
      && (s.card.errors.description.Some? <==> !DescriptionOk(Some(c.editDescription)))
    ensures s.request.Some? ==>
      && s.card.errors == NoErrors && s.card.update == InFlight && s.card.awaitingSave
      && s.request.value.UpdateRequest? && s.request.value.id == task.id
      && s.request.value.input.title == Some(Trim(c.editTitle))
      && s.request.value.input.status.None?
      && (s.request.value.input.description.Some? <==> !AllWhitespace(c.editDescription))
      && (s.request.value.input.description.Some? ==>
            s.request.value.input.description.value == Trim(c.editDescription))
  {
    match Validate(c.editTitle, Some(c.editDescription))
    case Invalid(errs) => Step(c.(errors := errs), None)
    case Valid(data) =>
      var input := UpdateTaskInput(Some(data.title), UndefinedIfEmpty(data.description), None);
      Step(c.(errors := NoErrors, update := InFlight, awaitingSave := true), Some(UpdateRequest(task.id, input)))
  }

  /** `handleCancelEdit`: the card goes back to how it was first shown for `task`;
      only the mutations' statuses are kept. */
  function Cancel(c: Card, task: Task): (r: Card)
    ensures r == Init(task).(update := c.update, remove := c.remove, awaitingSave := c.awaitingSave)
  {
    Card(false, task.title, task.description.GetOr(""), NoErrors, c.update, c.remove, c.awaitingSave)
  }

  /** The update mutation settled. An awaited save closes the editor on success and
      leaves it open on failure; a toggle's settling changes only the status. */
  function SettleUpdate(c: Card, outcome: Outcome<Task>): (r: Card)
    ensures r.update == SettledStatus(outcome) && r.remove == c.remove
    ensures r.editing <==> c.editing && !(c.awaitingSave && outcome.Done?)
    ensures !r.awaitingSave
    ensures r.editTitle == c.editTitle && r.editDescription == c.editDescription && r.errors == c.errors
  {
    c.(update := SettledStatus(outcome),
       editing := c.editing && !(c.awaitingSave && outcome.Done?),
       awaitingSave := false)
  }

  /** The card's transition function. A control that is not on screen in the current
      mode, or is disabled, does nothing: while a mutation is pending no user event
      changes the card or sends anything; Save also needs a non-blank title, and
      delete fires only after the confirmation dialog is accepted. */
  function Dispatch(c: Card, task: Task, ev: CardEvent): (s: Step)
    ensures IsPending(c) && ev.IsUserEvent() ==> s == Step(c, None)
    ensures ev == Save && SaveDisabled(c) ==> s == Step(c, None)
    ensures ev == Delete(false) ==> s == Step(c, None)
    ensures s.request.Some? ==> !IsPending(c) && IsPending(s.card)
    ensures s.request.Some? && c.editing ==> s.request.value.UpdateRequest? && s.request.value.input.status.None?
    ensures s.request.Some? && !c.editing ==> s.request.value.DeleteRequest? || s.request.value.input == UpdateTaskInput(None, None, Some(Toggled(task.status)))
    ensures ev == StartEdit && !c.editing && !IsPending(c) ==> s == Step(c.(editing := true), None)
    ensures ev.EditTitle? && c.editing && !IsPending(c) ==> s == Step(c.(editTitle := ev.text), None)
    ensures ev.EditDescription? && c.editing && !IsPending(c) ==> s == Step(c.(editDescription := ev.text), None)
    ensures ev == Save && c.editing && !SaveDisabled(c) ==> s == SaveEdit(c, task)
    ensures ev == CancelEdit && c.editing && !IsPending(c) ==> s == Step(Cancel(c, task), None)
    ensures ev == ToggleStatus && !c.editing && !IsPending(c) ==> s == StatusToggle(c, task)
    ensures ev == Delete(true) && !c.editing && !IsPending(c)
      ==> s == Step(c.(remove := InFlight), Some(DeleteRequest(task.id)))
    ensures ev.UpdateSettled? ==> s == Step(SettleUpdate(c, ev.updated), None)
    ensures ev.DeleteSettled? ==> s == Step(c.(remove := SettledStatus(ev.deleted)), None)
  {
    var idle := !IsPending(c);
    match ev
    case StartEdit =>
      Step(if !c.editing && idle then c.(editing := true) else c, None)
    case EditTitle(text) =>
      Step(if c.editing && idle then c.(editTitle := text) else c, None)
    case EditDescription(text) =>
      Step(if c.editing && idle then c.(editDescription := text) else c, None)
    case Save =>
      if c.editing && !SaveDisabled(c) then SaveEdit(c, task) else Step(c, None)
    case CancelEdit =>
      Step(if c.editing && idle then Cancel(c, task) else c, None)
    case ToggleStatus =>
      if !c.editing && idle then StatusToggle(c, task) else Step(c, None)
    case Delete(confirmed) =>
      if !c.editing && idle && confirmed then Step(c.(remove := InFlight), Some(DeleteRequest(task.id)))
      else Step(c, None)
    case UpdateSettled(outcome) =>
      Step(SettleUpdate(c, outcome), None)
    case DeleteSettled(outcome) =>
      Step(c.(remove := SettledStatus(outcome)), None)
  }

  /** Toggling a task's status and toggling the result restores the task: each
      toggle's patch touches the status alone. */
  lemma ToggleTwiceRestoresTask(c: Card, task: Task)
    ensures var first := StatusToggle(c, task).request.value.input;
      var once := ApplyPatch(task, UpdatePatch(first));
      var second := StatusToggle(c, once).request.value.input;
      && once == task.(status := Toggled(task.status))
      && ApplyPatch(once, UpdatePatch(second)) == task
  {
  }

  /** The Save button, when enabled, can never produce "Title is required":
      the only title error left is the upper bound. */
  lemma EnabledSaveNeverTitleRequired(c: Card, task: Task)
    requires c.editing && !SaveDisabled(c)
    ensures var s := Dispatch(c, task, Save);
      s.card.errors.title.Some? ==> s.card.errors.title == Some(TitleTooLong)
  {
  }

  /** Clearing the description in the editor does not clear the stored one: a blank
      description is left undefined in the request, the update then omits the key,
      and the store keeps the old value. */
  lemma ClearedDescriptionIsKept(c: Card, task: Task)
    requires c.editing && !IsPending(c) && TitleOk(c.editTitle) && AllWhitespace(c.editDescription)
    ensures var s := Dispatch(c, task, Save);
      && s.request.Some? && s.request.value.UpdateRequest?
      && s.request.value.input.description.None?
      && ApplyPatch(task, UpdatePatch(s.request.value.input)).description == task.description
  {
    assert !AllWhitespace(c.editTitle);
  }

  /** A save that reaches the store sets the title to the trimmed edit and, for a
      non-blank edit, the description to the trimmed edit; the status is untouched. */
  lemma SaveStoresTrimmedEdits(c: Card, task: Task)
    requires c.editing && !IsPending(c) && TitleOk(c.editTitle) && DescriptionOk(Some(c.editDescription))
    ensures var s := Dispatch(c, task, Save);
      && s.request.Some?
      && var t := ApplyPatch(task, UpdatePatch(s.request.value.input));
      && t.title == Trim(c.editTitle) && t.status == task.status && t.id == task.id
      && (!AllWhitespace(c.editDescription) ==> t.description == Some(Trim(c.editDescription)))
  {
    assert !AllWhitespace(c.editTitle);
    var s := SaveEdit(c, task);
    assert Dispatch(c, task, Save) == s;
    var input := s.request.value.input;
    UpdateChangesOnlySuppliedFields(task, input);
    TrimIdempotent(c.editTitle);
    TrimIdempotent(c.editDescription);
  }

  /** A valid save followed by its settling: success closes the editor, failure keeps
      it open with the error recorded, so the user can retry. */
  lemma SaveThenSettle(c: Card, task: Task, o: Outcome<Task>)
    requires c.editing && !IsPending(c) && TitleOk(c.editTitle) && DescriptionOk(Some(c.editDescription))
    ensures var s := Dispatch(c, task, Save);
      var r := Dispatch(s.card, task, UpdateSettled(o)).card;
      && s.request.Some?
      && (o.Done? ==> !r.editing)
      && (o.Thrown? ==> r.editing && r.update == Failed(o.message))
  {
    assert !AllWhitespace(c.editTitle);
  }
}
