/**
 * The data layer over the hosted `tasks` table: how each mutation builds the
 * row or patch it sends, how a store error becomes a thrown error, what a
 * patch does to the stored row, and how a settled mutation touches the
 * cached collection (marked stale on success only) and the notifications.
 * The store itself is abstract: a call is represented by the response it gave.
 */
module Gateway {
  import opened Opt
  import opened Text
  import opened TaskTypes
  import Validation

  /** What a store call answers: some data, and an error that is null on success. */
  datatype Response<T> = Response(data: T, error: Option<string>)

  /** How a query or mutation function ends: it returns a value or throws an Error. */
  datatype Outcome<T> = Done(value: T) | Thrown(message: string)

  /** Every store call ends the same way: an error is rethrown with its own message
      and nothing is returned; otherwise the data is returned as is. */
  function Unwrap<T>(r: Response<T>): (o: Outcome<T>)
    ensures o.Thrown? <==> r.error.Some?
    ensures o.Thrown? ==> o.message == r.error.value
    ensures o.Done? ==> o.value == r.data
  {
    match r.error
    case Some(message) => Thrown(message)
    case None => Done(r.data)
  }

  /** The row sent by the create mutation. */
  datatype InsertRow = InsertRow(title: string, description: Option<string>, status: TaskStatus)

  /** The shape the store is meant to hold: a trimmed, non-empty title within the
      title bound, and a description that is either absent or trimmed, non-empty
      and within the description bound (never stored as ""). */
  predicate WellFormedRow(row: InsertRow) {
    && IsTrimmed(row.title) && 1 <= |row.title| <= Validation.TitleMaxLength
    && (row.description.Some? ==>
          IsTrimmed(row.description.value) && row.description.value != []
          && |row.description.value| <= Validation.DescriptionMaxLength)
  }

  /** The insert payload of the create mutation: the title trimmed, the description
      trimmed with absent or blank becoming null, and the status pending unless given. */
  function CreatePayload(input: CreateTaskInput): (row: InsertRow)
    ensures row.title == Trim(input.title) && IsTrimmed(row.title)
    ensures row.description.Some? <==> input.description.Some? && !AllWhitespace(input.description.value)
    ensures row.description.Some? ==>
      row.description.value == Trim(input.description.value) && row.description.value != []
    ensures input.status.Some? ==> row.status == input.status.value
    ensures input.status.None? ==> row.status == Pending
  {
    InsertRow(
      Trim(input.title),
      match input.description
        case None => None
        case Some(d) => NullIfEmpty(Trim(d)),
      input.status.GetOr(Pending))
  }

  /** The body of an update: a key is present (`Some`) only for the fields the
      input defines; a present description may carry null (`Some(None)`). */
  datatype Patch = Patch(
    title: Option<string>,
    description: Option<Option<string>>,
    status: Option<TaskStatus>)

  /** The update payload: only defined input fields become keys; the title is
      trimmed, the description trimmed with blank becoming null, the status copied. */
  function UpdatePatch(input: UpdateTaskInput): (p: Patch)
    ensures p.title.Some? <==> input.title.Some?
    ensures p.description.Some? <==> input.description.Some?
    ensures p.status == input.status
    ensures p.title.Some? ==> p.title.value == Trim(input.title.value)
    ensures p.description.Some? ==>
      && (p.description.value.None? <==> AllWhitespace(input.description.value))
      && (p.description.value.Some? ==> p.description.value.value == Trim(input.description.value))
  {
    Patch(
      match input.title
        case None => None
        case Some(t) => Some(Trim(t)),
      match input.description
        case None => None
        case Some(d) => Some(NullIfEmpty(Trim(d))),
      input.status)
  }

  /** What the store's UPDATE does with a patch: each present key overwrites its
      column and every other column keeps its value. Timestamps are the store's
      business and are left as they were. */
  function ApplyPatch(task: Task, p: Patch): (t: Task)
    ensures t.id == task.id && t.createdAt == task.createdAt && t.updatedAt == task.updatedAt
    ensures t.title == p.title.GetOr(task.title)
    ensures t.description == p.description.GetOr(task.description)
    ensures t.status == p.status.GetOr(task.status)
  {
    Task(
      task.id,
      p.title.GetOr(task.title),
      p.description.GetOr(task.description),
      p.status.GetOr(task.status),
      task.createdAt,
      task.updatedAt)
  }

  /** An update changes exactly the fields its input defines: an undefined field
      keeps the stored value, a defined one takes the normalised input. */
  lemma UpdateChangesOnlySuppliedFields(task: Task, input: UpdateTaskInput)
    ensures var t := ApplyPatch(task, UpdatePatch(input));
      && t.id == task.id
      && (input.title.None? ==> t.title == task.title)
      && (input.title.Some? ==> t.title == Trim(input.title.value))
      && (input.description.None? ==> t.description == task.description)
      && (input.description.Some? ==> t.description == NullIfEmpty(Trim(input.description.value)))
      && (input.status.None? ==> t.status == task.status)
      && (input.status.Some? ==> t.status == input.status.value)
  {
  }

  /** An update whose input defines no field leaves the task exactly as it was. */
  lemma EmptyUpdateIsIdentity(task: Task)
    ensures ApplyPatch(task, UpdatePatch(UpdateTaskInput(None, None, None))) == task
  {
  }

  /** Whatever the input, a created row never stores a blank description and its title is trimmed. */
  lemma CreatePayloadNormalised(input: CreateTaskInput)
    ensures var row := CreatePayload(input);
      && IsTrimmed(row.title)
      && row.description != Some([])
      && (row.description.Some? ==> IsTrimmed(row.description.value))
  {
  }

  /** The three mutations the hooks expose. */
  datatype MutationKind = CreateMutation | UpdateMutation | DeleteMutation

  /** A mutation's own status, as the components read it. */
  datatype MutationStatus = Idle | InFlight | Succeeded | Failed(message: string)

  /** The status a mutation reports once its function has returned or thrown. */
  function SettledStatus<T>(outcome: Outcome<T>): (m: MutationStatus)
    ensures m.Succeeded? <==> outcome.Done?
    ensures outcome.Thrown? ==> m == Failed(outcome.message)
  {
    match outcome
    case Done(_) => Succeeded
    case Thrown(message) => Failed(message)
  }

  /** The transient notification shown when a mutation settles. */
  datatype Notice = SuccessNotice(text: string) | ErrorNotice(text: string)

  function SuccessText(kind: MutationKind): string {
    match kind
    case CreateMutation => "Task created successfully"
    case UpdateMutation => "Task updated successfully"
    case DeleteMutation => "Task deleted successfully"
  }

  function FailurePrefix(kind: MutationKind): string {
    match kind
    case CreateMutation => "Failed to create task: "
    case UpdateMutation => "Failed to update task: "
    case DeleteMutation => "Failed to delete task: "
  }

  /** The cached collection under the one `tasks` key: the last data fetched
      (none before the first success), whether it has been marked stale, and
      the last load error. */
  datatype QueryCache = QueryCache(tasks: Option<seq<Task>>, stale: bool, loadError: Option<string>)

  /** The result of a settled mutation. */
  datatype Settlement = Settlement(cache: QueryCache, status: MutationStatus, notice: Notice)

  /** A mutation settles: on success the tasks key is invalidated and a success
      notice is shown; on failure only an error notice carrying the message is
      shown and the cache is untouched. The cached tasks themselves are never
      edited in place: there is no optimistic update. */
  function Settle<T>(kind: MutationKind, cache: QueryCache, outcome: Outcome<T>): (s: Settlement)
    ensures s.cache.tasks == cache.tasks && s.cache.loadError == cache.loadError
    ensures s.cache.stale <==> cache.stale || outcome.Done?
    ensures outcome.Done? ==> s.status == Succeeded && s.notice == SuccessNotice(SuccessText(kind))
    ensures outcome.Thrown? ==>
      && s.cache == cache && s.status == Failed(outcome.message)
      && s.notice == ErrorNotice(FailurePrefix(kind) + outcome.message)
  {
    match outcome
    case Done(_) => Settlement(cache.(stale := true), SettledStatus(outcome), SuccessNotice(SuccessText(kind)))
    case Thrown(message) => Settlement(cache, SettledStatus(outcome), ErrorNotice(FailurePrefix(kind) + message))
  }

  /** The list query ran (on mount or after invalidation): a success replaces the
      cached collection and clears staleness and error; a failure records the
      message and keeps whatever was cached before. */
  function Load(cache: QueryCache, r: Response<seq<Task>>): (c: QueryCache)
    ensures r.error.None? ==> c == QueryCache(Some(r.data), false, None)
    ensures r.error.Some? ==> c.tasks == cache.tasks && c.stale == cache.stale && c.loadError == r.error
  {
    match Unwrap(r)
    case Done(tasks) => QueryCache(Some(tasks), false, None)
    case Thrown(message) => cache.(loadError := Some(message))
  }
}
