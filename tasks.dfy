/**
 * The tasks panel: the pending tasks, a check button that flips a task's
 * status in the store and drops it from the list, and the priority colour.
 */
module TasksPanel {
  import opened Wrappers
  import opened Records
  import opened Sequences

  /** `currentStatus === 'pending' ? 'completed' : 'pending'`. */
  function Toggled(current: TaskStatus): (r: TaskStatus)
    ensures r != current
    ensures r == Completed <==> current == TaskPending
  {
    if current == TaskPending then Completed else TaskPending
  }

  /** Toggling twice gives the status back. */
  lemma ToggleTwice(s: TaskStatus)
    ensures Toggled(Toggled(s)) == s
  {
  }

  /** `tasks.filter(task => task.id !== taskId)`. */
  function Without(tasks: seq<Task>, taskId: Id): (r: seq<Task>)
    ensures forall t :: t in r <==> t in tasks && t.id != taskId
    ensures forall t :: multiset(r)[t] == if t.id != taskId then multiset(tasks)[t] else 0
    ensures IsSubsequence(r, tasks)
  {
    var others := (t: Task) => t.id != taskId;
    FilterMultiset(tasks, others);
    Filter(tasks, others)
  }

  /** Removing an id twice is removing it once. */
  lemma WithoutIdempotent(tasks: seq<Task>, taskId: Id)
    ensures Without(Without(tasks, taskId), taskId) == Without(tasks, taskId)
  {
    FilterKeepsAll(Without(tasks, taskId), (t: Task) => t.id != taskId);
  }

  /** Removing an id that no task has leaves the list as it was. */
  lemma WithoutAbsent(tasks: seq<Task>, taskId: Id)
    requires forall t :: t in tasks ==> t.id != taskId
    ensures Without(tasks, taskId) == tasks
  {
    FilterKeepsAll(tasks, (t: Task) => t.id != taskId);
  }

  /** The colour of a priority label. */
  datatype Tone = Red | Yellow | Blue

  /** `getPriorityColor`: high is red, medium yellow, anything else blue. */
  function PriorityTone(priority: string): (r: Tone)
    ensures r == Red <==> priority == "high"
    ensures r == Yellow <==> priority == "medium"
    ensures r == Blue <==> priority != "high" && priority != "medium"
  {
    match priority
    case "high" => Red
    case "medium" => Yellow
    case _ => Blue
  }

  /** Over the priorities a task can have: low is the only blue one. */
  lemma PriorityTones()
    ensures PriorityTone(High.Name()) == Red
    ensures PriorityTone(Medium.Name()) == Yellow
    ensures PriorityTone(Low.Name()) == Blue
  {
  }

  /** The panel's state: the list of tasks it shows. */
  class Panel {
    var tasks: seq<Task>

    constructor ()
      ensures tasks == []
    {
      tasks := [];
    }

    /** `fetchTasks`: the list is replaced only when the store returned data. */
    method ApplyFetch(fetched: Option<seq<Task>>)
      modifies this
      ensures tasks == Refreshed(old(tasks), fetched)
    {
      if fetched.Some? {
        tasks := fetched.value;
      }
    }

    /**
     * `toggleTaskStatus`: computes the opposite status and sends it to the
     * store; `updateFailed` is the store's answer. On success the task leaves
     * the list, the others keep their order; on failure nothing changes.
     */
    method ToggleTaskStatus(taskId: Id, currentStatus: TaskStatus, updateFailed: bool) returns (newStatus: TaskStatus)
      modifies this
      ensures newStatus == Toggled(currentStatus)
      ensures updateFailed ==> tasks == old(tasks)
      ensures !updateFailed ==> tasks == Without(old(tasks), taskId)
      ensures !updateFailed ==> forall t :: t in tasks ==> t.id != taskId
    {
      newStatus := if currentStatus == TaskPending then Completed else TaskPending;
      if !updateFailed {
        tasks := Without(tasks, taskId);
      }
    }
  }
}
