/**
 * The task page of the real-estate workspace: toggling tasks, the
 * completed/pending filter and the three counters.
 */
module RealEstateTasks {
  import opened Seqs

  datatype Priority = High | Medium | Low

  datatype Category = FollowUp | Showing | Paperwork | Marketing

  /** A task; `due` is its due date as a timestamp, as `new Date(dueDate)` reads it. */
  datatype Task = Task(id: int, title: string, description: string, priority: Priority, due: int,
                       completed: bool, category: Category, assignedTo: string)

  const CompletedView := "completed"
  const PendingView := "pending"

  /** `toggleTask` */
  function ToggleTask(tasks: seq<Task>, id: int): (r: seq<Task>)
    ensures |r| == |tasks|
    ensures forall i :: 0 <= i < |tasks| ==>
              r[i] == if tasks[i].id == id then tasks[i].(completed := !tasks[i].completed) else tasks[i]
  {
    Map(tasks, (t: Task) => if t.id == id then t.(completed := !t.completed) else t)
  }

  function IsDone(): Task -> bool
  {
    (t: Task) => t.completed
  }

  function IsOpen(): Task -> bool
  {
    (t: Task) => !t.completed
  }

  /** `filteredTasks`: 'completed' and 'pending' select by state, anything else keeps all. */
  function FilteredTasks(tasks: seq<Task>, filter: string): (r: seq<Task>)
    ensures filter == CompletedView ==> forall t :: t in r <==> t in tasks && t.completed
    ensures filter == PendingView ==> forall t :: t in r <==> t in tasks && !t.completed
    ensures filter != CompletedView && filter != PendingView ==> r == tasks
    ensures filter == CompletedView ==> r == Filter(tasks, IsDone())
    ensures filter == PendingView ==> r == Filter(tasks, IsOpen())
  {
    if filter == CompletedView then
      forall t ensures t in Filter(tasks, IsDone()) <==> t in tasks && t.completed {
        FilterMembership(tasks, IsDone(), t);
      }
      Filter(tasks, IsDone())
    else if filter == PendingView then
      forall t ensures t in Filter(tasks, IsOpen()) <==> t in tasks && !t.completed {
        FilterMembership(tasks, IsOpen(), t);
      }
      Filter(tasks, IsOpen())
    else tasks
  }

  /** `pendingTasks` */
  function PendingCount(tasks: seq<Task>): nat
  {
    |Filter(tasks, IsOpen())|
  }

  /** The 'Completed' counter. */
  function CompletedCount(tasks: seq<Task>): nat
  {
    |Filter(tasks, IsDone())|
  }

  /** `overdueTasks`: open tasks whose due date is before `now`. */
  function OverdueCount(tasks: seq<Task>, now: int): nat
  {
    |Filter(tasks, (t: Task) => !t.completed && t.due < now)|
  }

  /** The two views split the list: every task is in exactly one, and the counters add up to the total. */
  lemma ViewsPartition(tasks: seq<Task>)
    ensures PendingCount(tasks) + CompletedCount(tasks) == |tasks|
    ensures |FilteredTasks(tasks, PendingView)| + |FilteredTasks(tasks, CompletedView)| == |tasks|
    ensures forall t :: t in tasks ==> (t in FilteredTasks(tasks, PendingView) <==> t !in FilteredTasks(tasks, CompletedView))
  {
    FilterPartition(tasks, IsOpen(), IsDone());
    assert PendingView != CompletedView;
  }

  /** Overdue tasks are among the pending ones, and completing every task leaves none overdue. */
  lemma {:induction false} OverdueWithinPending(tasks: seq<Task>, now: int)
    ensures OverdueCount(tasks, now) <= PendingCount(tasks)
    ensures (forall i :: 0 <= i < |tasks| ==> tasks[i].completed) ==> OverdueCount(tasks, now) == 0
  {
    if tasks != [] {
      OverdueWithinPending(tasks[1..], now);
    }
  }

  /** Toggling a task twice gives the list back. */
  lemma ToggleTwice(tasks: seq<Task>, id: int)
    ensures ToggleTask(ToggleTask(tasks, id), id) == tasks
  {
  }
}
