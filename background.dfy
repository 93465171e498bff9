/**
 * The reference-counted guard around the platform's background task: the
 * first `begin` asks the platform for a task, the `end` that brings the count
 * back to zero releases it.
 */
module Background {
  import opened Wrappers

  /** The platform's invalid task identifier, `UIBackgroundTaskInvalid`. */
  const InvalidTask: int := 0

  /** The handler's state: the task held, if any, and the count of unmatched `begin` calls. */
  datatype Guard = Guard(task: Option<int>, counter: int)

  /** The handler invariant: the count is never negative, and a held task is backed by a pending `begin`. */
  predicate GuardValid(g: Guard)
  {
    g.counter >= 0 && (g.task.Some? ==> g.counter >= 1)
  }

  /** `beginBackgroundTask()` on a state; `newTask` is what the creator would hand back. */
  function BeginStep(g: Guard, newTask: int): (r: (Guard, bool))
    ensures GuardValid(g) ==> GuardValid(r.0)
    ensures r.0.counter == g.counter + 1
    ensures r.1 <==> g.task.None?
    ensures r.0.task == if r.1 then Some(newTask) else g.task
  {
    if g.task.Some? then (Guard(g.task, g.counter + 1), false)
    else (Guard(Some(newTask), g.counter + 1), true)
  }

  /** `endBackgroundTask()` on a state. */
  function EndStep(g: Guard): (r: (Guard, bool))
    ensures GuardValid(g) ==> GuardValid(r.0)
    ensures g.task.None? ==> r == (g, false)
    ensures g.task.Some? ==> r.0.counter == g.counter - 1
    ensures r.1 <==> g.task.Some? && g.counter == 1
    ensures r.0.task == if r.1 then None else g.task
  {
    if g.task.None? then (g, false)
    else if g.counter - 1 != 0 then (Guard(g.task, g.counter - 1), false)
    else (Guard(None, 0), true)
  }

  /** The expiration handler on a state: the task is forgotten, the count stays. */
  function ExpireStep(g: Guard): (r: Guard)
    ensures GuardValid(g) ==> GuardValid(r)
    ensures r.task.None? && r.counter == g.counter
  {
    Guard(None, g.counter)
  }

  /** `n` successive `endBackgroundTask()` calls. */
  function Ends(g: Guard, n: nat): Guard
    decreases n
  {
    if n == 0 then g else Ends(EndStep(g).0, n - 1)
  }

  /**
   * A task held with `c` pending begins survives `c - 1` ends, and the `c`-th
   * end releases it: nested begin/end pairs release the task exactly once, at
   * the outermost end.
   */
  lemma {:induction false} NestedPairsReleaseOnce(t: int, c: nat)
    requires c >= 1
    ensures Ends(Guard(Some(t), c), c - 1) == Guard(Some(t), 1)
    ensures EndStep(Guard(Some(t), 1)) == (Guard(None, 0), true)
    decreases c
  {
    if c > 1 {
      assert EndStep(Guard(Some(t), c)).0 == Guard(Some(t), c - 1);
      NestedPairsReleaseOnce(t, c - 1);
    }
  }

  /**
   * After the expiration handler fired with `c` pending begins, a new
   * begin/end pair does not release the new task when `c >= 1`: the count the
   * handler left behind is never paid back.
   */
  lemma ExpiryLeavesCountBehind(c: nat, newTask: int)
    requires c >= 1
    ensures var afterBegin := BeginStep(ExpireStep(Guard(Some(0), c)), newTask);
      afterBegin.1 && EndStep(afterBegin.0) == (Guard(Some(newTask), c), false)
  {
  }

  class BackgroundHandler {
    /** The identifier of the task held, if any. */
    var taskIdentifier: Option<int>
    /** How many `begin` calls are not yet matched by an `end`. */
    var counter: int
    /** The identifiers passed to the task creator's `endBackgroundTask`, oldest first. */
    ghost var endedTasks: seq<int>

    /** The counter never goes negative, and a held task is always backed by a pending `begin`. */
    ghost predicate Valid()
      reads this
    {
      GuardValid(State())
    }

    function State(): Guard
      reads this
    {
      Guard(taskIdentifier, counter)
    }

    constructor ()
      ensures Valid() && taskIdentifier.None? && counter == 0 && endedTasks == []
    {
      taskIdentifier := None;
      counter := 0;
      endedTasks := [];
    }

    /**
     * `beginBackgroundTask()`: counts the call, and asks the creator for a task
     * (which hands back `newTask`) only when none is held.
     */
    method Begin(newTask: int) returns (started: bool)
      requires Valid()
      modifies this
      ensures Valid()
      ensures (State(), started) == BeginStep(old(State()), newTask)
      ensures endedTasks == old(endedTasks)
    {
      counter := counter + 1;
      if taskIdentifier.Some? {
        return false;
      }
      taskIdentifier := Some(newTask);
      return true;
    }

    /**
     * `endBackgroundTask()`: without a held task nothing happens; otherwise the
     * call is counted, and the task is released when the count reaches zero.
     */
    method End() returns (ended: bool)
      requires Valid()
      modifies this
      ensures Valid()
      ensures (State(), ended) == EndStep(old(State()))
      ensures endedTasks == if ended && old(taskIdentifier).value != InvalidTask
        then old(endedTasks) + [old(taskIdentifier).value] else old(endedTasks)
    {
      if taskIdentifier.None? {
        return false;
      }
      var id := taskIdentifier.value;
      counter := counter - 1;
      if counter != 0 {
        return false;
      }
      if id != InvalidTask {
        endedTasks := endedTasks + [id];
      }
      taskIdentifier := None;
      return true;
    }

    /** The expiration handler: ends the held task and forgets it, leaving the counter alone. */
    method Expire()
      requires Valid()
      modifies this
      ensures Valid()
      ensures State() == ExpireStep(old(State()))
      ensures endedTasks == old(endedTasks) + (if old(taskIdentifier).Some? then [old(taskIdentifier).value] else [])
    {
      if taskIdentifier.Some? {
        endedTasks := endedTasks + [taskIdentifier.value];
      }
      taskIdentifier := None;
    }
  }
}
