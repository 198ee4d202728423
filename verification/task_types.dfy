/** The task record and the two input shapes the client sends to the store. */
module TaskTypes {
  import opened Opt

  /** A task is either pending or completed; there is no third state. */
  datatype TaskStatus = Pending | Completed

  /** A stored task. `description` is `None` where the store holds null;
      `id` and both timestamps are assigned by the store and opaque here. */
  datatype Task = Task(
    id: string,
    title: string,
    description: Option<string>,
    status: TaskStatus,
    createdAt: string,
    updatedAt: string)

  /** What the create form hands to the create mutation: only the title is required. */
  datatype CreateTaskInput = CreateTaskInput(
    title: string,
    description: Option<string>,
    status: Option<TaskStatus>)

  /** What the card hands to the update mutation: every field may be left undefined. */
  datatype UpdateTaskInput = UpdateTaskInput(
    title: Option<string>,
    description: Option<string>,
    status: Option<TaskStatus>)

  /** The status a task moves to when its toggle is pressed. */
  function Toggled(s: TaskStatus): (r: TaskStatus)
    ensures r != s
  {
    if s == Pending then Completed else Pending
  }

  /** Toggling twice returns to the starting status. */
  lemma ToggleInvolution(s: TaskStatus)
    ensures Toggled(Toggled(s)) == s
  {
  }
}
