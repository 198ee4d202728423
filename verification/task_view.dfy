/**
 * The page's derived view state: the list shown under the current filter and
 * the per-filter counts, both recomputed from the cached collection, which is
 * absent until the first load succeeds.
 */
module TaskView {
  import opened Opt
  import opened TaskTypes

  /** The three filter buttons: everything, or one status. */
  datatype FilterOption = All | Only(status: TaskStatus)

  /** The page opens on the unfiltered list. */
  const InitialFilter: FilterOption := All

  /** `tasks.filter(t => t.status === status)`: the tasks with that status. */
  function WithStatus(tasks: seq<Task>, status: TaskStatus): (r: seq<Task>)
    ensures |r| <= |tasks|
    ensures forall t :: t in r <==> t in tasks && t.status == status
    decreases |tasks|
  {
    if tasks == [] then []
    else
      var prefix := WithStatus(tasks[..|tasks| - 1], status);
      var last := tasks[|tasks| - 1];
      assert tasks == tasks[..|tasks| - 1] + [last];
      if last.status == status then prefix + [last] else prefix
  }

  /** The positions in `tasks` that hold a task with the given status, in increasing order. */
  function PositionsWith(tasks: seq<Task>, status: TaskStatus): (idx: seq<nat>)
    ensures forall k :: 0 <= k < |idx| ==> idx[k] < |tasks| && tasks[idx[k]].status == status
    ensures forall j, k :: 0 <= j < k < |idx| ==> idx[j] < idx[k]
    ensures forall i :: 0 <= i < |tasks| && tasks[i].status == status ==> i in idx
    decreases |tasks|
  {
    if tasks == [] then []
    else
      var n := |tasks| - 1;
      var prefix := PositionsWith(tasks[..n], status);
      if tasks[n].status == status then prefix + [n] else prefix
  }

  /** Filtering by a status keeps exactly the tasks with that status and keeps them
      in their original relative order: the result is the collection read at an
      increasing run of positions, and those positions are all the matching ones. */
  lemma {:induction false} FilterIsOrderedSelection(tasks: seq<Task>, status: TaskStatus)
    ensures var r := WithStatus(tasks, status); var idx := PositionsWith(tasks, status);
      && |r| == |idx|
      && forall k :: 0 <= k < |r| ==> r[k] == tasks[idx[k]]
    decreases |tasks|
  {
    if tasks != [] {
      var n := |tasks| - 1;
      FilterIsOrderedSelection(tasks[..n], status);
    }
  }

  /** Every task is either pending or completed, so the two filtered lists
      together are as long as the collection. */
  lemma {:induction false} StatusesPartition(tasks: seq<Task>)
    ensures |WithStatus(tasks, Pending)| + |WithStatus(tasks, Completed)| == |tasks|
    decreases |tasks|
  {
    if tasks != [] {
      StatusesPartition(tasks[..|tasks| - 1]);
    }
  }

  /** `filteredTasks`: nothing before data arrives, the whole collection under
      `all`, and the tasks of one status otherwise, each one drawn from the collection. */
  function FilteredTasks(tasks: Option<seq<Task>>, filter: FilterOption): (r: seq<Task>)
    ensures tasks.None? ==> r == []
    ensures tasks.Some? && filter.All? ==> r == tasks.value
    ensures tasks.Some? && filter.Only? ==>
      forall t :: t in r <==> t in tasks.value && t.status == filter.status
  {
    match tasks
    case None => []
    case Some(ts) =>
      match filter
      case All => ts
      case Only(s) => WithStatus(ts, s)
  }

  /** The numbers shown on the filter buttons. */
  datatype Counts = Counts(all: nat, pending: nat, completed: nat)

  /** `counts`: the collection's length and its pending and completed tallies,
      all zero before data arrives. The two tallies always add up to the total. */
  function CountsOf(tasks: Option<seq<Task>>): (c: Counts)
    ensures tasks.None? ==> c == Counts(0, 0, 0)
    ensures tasks.Some? ==> c.all == |tasks.value|
    ensures c.pending + c.completed == c.all
  {
    match tasks
    case None => Counts(0, 0, 0)
    case Some(ts) =>
      StatusesPartition(ts);
      Counts(|ts|, |WithStatus(ts, Pending)|, |WithStatus(ts, Completed)|)
  }

  /** The count shown on a filter's button. */
  function CountFor(c: Counts, filter: FilterOption): nat {
    match filter
    case All => c.all
    case Only(Pending) => c.pending
    case Only(Completed) => c.completed
  }

  /** Whatever the filter, the list shown is exactly as long as the count on its button. */
  lemma FilteredLengthIsCount(tasks: Option<seq<Task>>, filter: FilterOption)
    ensures |FilteredTasks(tasks, filter)| == CountFor(CountsOf(tasks), filter)
  {
  }
}
