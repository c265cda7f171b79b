/**
 * TimedTaskManager: a registry of named periodic tasks over a scheduled
 * executor. The executor is abstracted to a log of what was scheduled and
 * what was cancelled; each scheduling returns a fresh future handle.
 */
module TimedTasks {
  /** A scheduled task's future, identified by the order in which it was scheduled. */
  datatype Future = Future(handle: nat)

  /** What was handed to the executor: periodic at a fixed rate, or once. */
  datatype Scheduled<R> =
    | AtFixedRate(runnable: R, startDelayMillis: int, intervalMillis: int, future: Future)
    | OneShot(runnable: R, startDelayMillis: int, future: Future)

  /**
   * What an addTask call did: registered a new task, found the identifier
   * already registered, or was refused by the executor for a period that is
   * not positive (the IllegalArgumentException of scheduleAtFixedRate).
   */
  datatype AddOutcome = Added | AlreadyActive | IllegalInterval

  class TimedTaskManager<R> {
    /** activeTasks: identifier to the future of its periodic task. */
    var activeTasks: map<string, Future>
    /** Everything handed to the executor, in order. */
    var scheduled: seq<Scheduled<R>>
    /** The futures cancelled, in order. */
    var cancelled: seq<Future>

    /** Every registered future is that of a periodic task the executor was handed. */
    ghost predicate Valid()
      reads this
    {
      forall id :: id in activeTasks ==>
        && activeTasks[id].handle < |scheduled|
        && scheduled[activeTasks[id].handle].AtFixedRate?
        && scheduled[activeTasks[id].handle].future == activeTasks[id]
    }

    constructor ()
      ensures Valid()
      ensures activeTasks == map[] && scheduled == [] && cancelled == []
    {
      activeTasks := map[];
      scheduled := [];
      cancelled := [];
    }

    /**
     * taskActive: whether the identifier is registered. A registered task is
     * one that was scheduled at a fixed rate under that identifier.
     */
    function TaskActive(identifier: string): (active: bool)
      reads this
      ensures active <==> identifier in activeTasks
      ensures active && Valid() ==>
                exists i :: 0 <= i < |scheduled| && scheduled[i].AtFixedRate? && scheduled[i].future == activeTasks[identifier]
    {
      identifier in activeTasks
    }

    /**
     * addTask with a start delay. A known identifier changes nothing. For a
     * new one, the executor refuses a period that is not positive
     * (IllegalArgumentException) before anything is registered; otherwise
     * the task is scheduled and registered.
     */
    method AddTaskWithDelay(identifier: string, runnable: R, millisStartDelay: int, millisInterval: int)
        returns (r: AddOutcome)
      requires Valid()
      modifies this`activeTasks, this`scheduled
      ensures Valid()
      ensures r == AlreadyActive <==> old(identifier in activeTasks)
      ensures r == IllegalInterval <==> old(identifier !in activeTasks) && millisInterval <= 0
      ensures TaskActive(identifier) <==> r != IllegalInterval
      ensures r != Added ==> activeTasks == old(activeTasks) && scheduled == old(scheduled)
      ensures r == Added ==>
                && scheduled == old(scheduled) + [AtFixedRate(runnable, millisStartDelay, millisInterval, Future(|old(scheduled)|))]
                && activeTasks == old(activeTasks)[identifier := Future(|old(scheduled)|)]
                && activeTasks.Keys == old(activeTasks.Keys) + {identifier}
    {
      if identifier in activeTasks {
        r := AlreadyActive;
      } else if millisInterval <= 0 {
        r := IllegalInterval;
      } else {
        var future := Future(|scheduled|);
        scheduled := scheduled + [AtFixedRate(runnable, millisStartDelay, millisInterval, future)];
        activeTasks := activeTasks[identifier := future];
        r := Added;
      }
    }

    /** addTask without a start delay: the same, starting at once. */
    method AddTask(identifier: string, runnable: R, millisInterval: int) returns (r: AddOutcome)
      requires Valid()
      modifies this`activeTasks, this`scheduled
      ensures Valid()
      ensures r == AlreadyActive <==> old(identifier in activeTasks)
      ensures r == IllegalInterval <==> old(identifier !in activeTasks) && millisInterval <= 0
      ensures TaskActive(identifier) <==> r != IllegalInterval
      ensures r != Added ==> activeTasks == old(activeTasks) && scheduled == old(scheduled)
      ensures r == Added ==>
                && scheduled == old(scheduled) + [AtFixedRate(runnable, 0, millisInterval, Future(|old(scheduled)|))]
                && activeTasks == old(activeTasks)[identifier := Future(|old(scheduled)|)]
                && activeTasks.Keys == old(activeTasks.Keys) + {identifier}
    {
      r := AddTaskWithDelay(identifier, runnable, 0, millisInterval);
    }

    /** addOneShotTask: scheduled once, never registered. */
    method AddOneShotTask(runnable: R, millisStartDelay: int)
      requires Valid()
      modifies this`scheduled
      ensures Valid()
      ensures scheduled == old(scheduled) + [OneShot(runnable, millisStartDelay, Future(|old(scheduled)|))]
    {
      scheduled := scheduled + [OneShot(runnable, millisStartDelay, Future(|scheduled|))];
    }

    /** cancelTask: a registered task's future is cancelled and the identifier removed; an unknown one changes nothing. */
    method CancelTask(identifier: string)
      requires Valid()
      modifies this`activeTasks, this`cancelled
      ensures Valid() && !TaskActive(identifier)
      ensures activeTasks == old(activeTasks) - {identifier}
      ensures old(identifier in activeTasks) ==> cancelled == old(cancelled) + [old(activeTasks[identifier])]
      ensures old(identifier !in activeTasks) ==> cancelled == old(cancelled) && activeTasks == old(activeTasks)
    {
      if identifier in activeTasks {
        var future := activeTasks[identifier];
        cancelled := cancelled + [future];
        activeTasks := activeTasks - {identifier};
      }
    }
  }
}
