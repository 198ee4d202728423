/** The stats panel: three tiles, Total, Pending and Completed, over the loaded collection. */
module TaskStats {
  import opened TaskTypes
  import opened Opt
  import TaskView

  /** One tile: its name and the number it shows. */
  datatype Stat = Stat(name: string, value: nat)

  /** The tiles in display order. The total is the number of tasks, the other two
      count the tasks of each status, they add up to the total, and every number
      agrees with the corresponding filter count on the page. */
  function Stats(tasks: seq<Task>): (r: seq<Stat>)
    ensures |r| == 3
    ensures r[0].name == "Total Tasks" && r[1].name == "Pending" && r[2].name == "Completed"
    ensures r[0].value == |tasks|
    ensures r[1].value + r[2].value == r[0].value
    ensures var c := TaskView.CountsOf(Some(tasks));
      r[0].value == c.all && r[1].value == c.pending && r[2].value == c.completed
  {
    var total := |tasks|;
    var completed := |TaskView.WithStatus(tasks, Completed)|;
    var pending := |TaskView.WithStatus(tasks, Pending)|;
    TaskView.StatusesPartition(tasks);
    [Stat("Total Tasks", total), Stat("Pending", pending), Stat("Completed", completed)]
  }
}
