/**
 * The create form as a state machine: collapsed until the title input is
 * focused, validated on submit, cleared and collapsed after a successful
 * create, and reset by Cancel. Its inputs and buttons are disabled while the
 * create mutation is in flight.
 */
module TaskForm {
  import opened Opt
  import opened Text
  import opened TaskTypes
  import opened Validation
  import opened Gateway

  /** The form's inputs, messages and expansion, with the status of the create
      mutation; `awaitingCreate` marks a create whose success clears the form. */
  datatype Form = Form(
    title: string,
    description: string,
    errors: FieldErrors,
    expanded: bool,
    create: MutationStatus,
    awaitingCreate: bool)

  /** The form after an event, and the create request it issued, if any. */
  datatype Step = Step(form: Form, request: Option<CreateTaskInput>)

  datatype FormEvent =
    | FocusTitle
    | EditTitle(text: string)
    | EditDescription(text: string)
    | SubmitPressed
    | CancelPressed
    | CreateSettled(created: Outcome<Task>)

  /** The form as mounted: empty, collapsed, no messages, nothing in flight. */
  const Initial := Form("", "", NoErrors, false, Idle, false)

  predicate IsPending(f: Form) {
    f.create.InFlight?
  }

  /** The submit button is disabled while a create is pending or the title is blank. */
  predicate SubmitDisabled(f: Form) {
    IsPending(f) || AllWhitespace(f.title)
  }

  /** `handleSubmit`: the previous messages are dropped, then the inputs are validated.
      On a failure the new messages name exactly the failing fields and no create is
      sent. Otherwise the create carries the trimmed title, the trimmed description
      only when it is not blank, and no status. The inputs stay as typed until the
      create settles. */
  function HandleSubmit(f: Form): (s: Step)
    ensures s.form.title == f.title && s.form.description == f.description
    ensures s.form.expanded == f.expanded
    ensures s.request.Some? <==> TitleOk(f.title) && DescriptionOk(Some(f.description))
    ensures s.request.None? ==>
      && s.form.create == f.create && s.form.awaitingCreate == f.awaitingCreate
      && s.form.errors == Validate(f.title, Some(f.description)).errors
      && (s.form.errors.title.Some? <==> !TitleOk(f.title))
      && (s.form.errors.description.Some? <==> !DescriptionOk(Some(f.description)))
    ensures s.request.Some? ==>
      && s.form.errors == NoErrors && s.form.create == InFlight && s.form.awaitingCreate
      && s.request.value.title == Trim(f.title)
      && s.request.value.status.None?
      && (s.request.value.description.Some? <==> !AllWhitespace(f.description))
      && (s.request.value.description.Some? ==> s.request.value.description.value == Trim(f.description))
  {
    var cleared := f.(errors := NoErrors);
    match Validate(f.title, Some(f.description))
    case Invalid(errs) => Step(cleared.(errors := errs), None)
    case Valid(data) =>
      Step(cleared.(create := InFlight, awaitingCreate := true),
           Some(CreateTaskInput(data.title, UndefinedIfEmpty(data.description), None)))
  }

  /** The create mutation settled. After an awaited create that succeeded, the inputs
      are emptied and the form collapses; after a failure everything typed is kept. */
  function SettleCreate(f: Form, outcome: Outcome<Task>): (r: Form)
    ensures r.create == SettledStatus(outcome) && !r.awaitingCreate && r.errors == f.errors
    ensures f.awaitingCreate && outcome.Done? ==> r.title == "" && r.description == "" && !r.expanded
    ensures !(f.awaitingCreate && outcome.Done?) ==>
      r.title == f.title && r.description == f.description && r.expanded == f.expanded
  {
    var base := f.(create := SettledStatus(outcome), awaitingCreate := false);
    if f.awaitingCreate && outcome.Done? then base.(title := "", description := "", expanded := false)
    else base
  }

  /** Cancel: the form returns to how it was mounted, except for the create's status. */
  function Cancel(f: Form): (r: Form)
    ensures r == Initial.(create := f.create, awaitingCreate := f.awaitingCreate)
  {
    Form("", "", NoErrors, false, f.create, f.awaitingCreate)
  }

  /** The form's transition function. Disabled or hidden controls do nothing: while a
      create is pending no user event changes the form or sends anything; the
      description, Cancel and submit exist only once the form is expanded; and
      submit also needs a non-blank title. */
  function Dispatch(f: Form, ev: FormEvent): (s: Step)
    ensures IsPending(f) && !ev.CreateSettled? ==> s == Step(f, None)
    ensures ev == SubmitPressed && SubmitDisabled(f) ==> s == Step(f, None)
    ensures s.request.Some? ==> ev == SubmitPressed && f.expanded && !IsPending(f) && IsPending(s.form)
    ensures ev == FocusTitle && !IsPending(f) ==> s == Step(f.(expanded := true), None)
    ensures ev.EditTitle? && !IsPending(f) ==> s == Step(f.(title := ev.text), None)
    ensures ev.EditDescription? && f.expanded && !IsPending(f) ==> s == Step(f.(description := ev.text), None)
    ensures ev == SubmitPressed && f.expanded && !SubmitDisabled(f) ==> s == HandleSubmit(f)
    ensures ev == CancelPressed && f.expanded && !IsPending(f) ==> s == Step(Cancel(f), None)
    ensures ev.CreateSettled? ==> s == Step(SettleCreate(f, ev.created), None)
  {
    var idle := !IsPending(f);
    match ev
    case FocusTitle => Step(if idle then f.(expanded := true) else f, None)
    case EditTitle(text) => Step(if idle then f.(title := text) else f, None)
    case EditDescription(text) => Step(if f.expanded && idle then f.(description := text) else f, None)
    case SubmitPressed => if f.expanded && !SubmitDisabled(f) then HandleSubmit(f) else Step(f, None)
    case CancelPressed => Step(if f.expanded && idle then Cancel(f) else f, None)
    case CreateSettled(outcome) => Step(SettleCreate(f, outcome), None)
  }

  /** Whatever the user typed, a create the form sends becomes a row of the stored
      shape, with status pending. */
  lemma SubmittedRowIsWellFormed(f: Form, ev: FormEvent)
    requires Dispatch(f, ev).request.Some?
    ensures var row := CreatePayload(Dispatch(f, ev).request.value);
      WellFormedRow(row) && row.status == Pending
  {
    assert Dispatch(f, ev) == HandleSubmit(f);
    var input := HandleSubmit(f).request.value;
    assert TitleOk(f.title) && DescriptionOk(Some(f.description));
    var row := CreatePayload(input);
    TrimIdempotent(f.title);
    assert row.title == Trim(f.title);
    if input.description.Some? {
      TrimIdempotent(f.description);
      assert row.description == Some(Trim(f.description));
    }
  }

  /** With the submit button enabled, the only title message left is the upper bound. */
  lemma EnabledSubmitNeverTitleRequired(f: Form)
    requires f.expanded && !SubmitDisabled(f)
    ensures var s := Dispatch(f, SubmitPressed);
      s.form.errors.title.Some? ==> s.form.errors.title == Some(TitleTooLong)
  {
  }

  /** A submit that goes through and then succeeds leaves the form as mounted,
      apart from remembering that the create succeeded. */
  lemma SuccessfulCreateResetsForm(f: Form, created: Task)
    requires Dispatch(f, SubmitPressed).request.Some?
    ensures var s := Dispatch(f, SubmitPressed);
      Dispatch(s.form, CreateSettled(Done(created))).form == Initial.(create := Succeeded)
  {
  }
}
