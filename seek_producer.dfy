/** The producer of seek ticks: a one-shot timer re-armed after every tick. */
module SeekProducer {
  import opened Wrappers

  datatype SeekEvent = SeekBackward | SeekForward

  /** The event a tick emits. */
  function TickEvent(isBackward: bool): (e: SeekEvent)
    ensures e == SeekBackward <==> isBackward
  {
    if isBackward then SeekBackward else SeekForward
  }

  /** `SeekEventProducer`; timers are numbered in the order they are scheduled. */
  class SeekEventProducer {
    /** The timer last scheduled and not cleared. */
    var timer: Option<nat>
    var listening: bool
    var intervalBetweenEvents: real
    var isBackward: bool
    /** How many timers were scheduled so far. */
    var scheduled: nat
    /** The timers scheduled and neither invalidated nor fired. */
    ghost var armed: set<nat>

    /** Only the timer held can be armed, so at most one is. */
    ghost predicate Valid()
      reads this
    {
      (forall t | t in armed :: timer == Some(t)) && (timer.Some? ==> timer.value < scheduled)
    }

    constructor ()
      ensures Valid() && timer.None? && !listening && armed == {}
      ensures intervalBetweenEvents == 10.0 && !isBackward
    {
      timer := None;
      listening := false;
      intervalBetweenEvents := 10.0;
      isBackward := false;
      scheduled := 0;
      armed := {};
    }

    /** `restartTimer()`: invalidates the held timer and schedules a new one. */
    method RestartTimer()
      requires Valid()
      modifies this
      ensures Valid()
      ensures timer == Some(old(scheduled)) && scheduled == old(scheduled) + 1 && armed == {old(scheduled)}
      ensures listening == old(listening) && isBackward == old(isBackward) && intervalBetweenEvents == old(intervalBetweenEvents)
    {
      armed := {};
      timer := Some(scheduled);
      armed := {scheduled};
      scheduled := scheduled + 1;
    }

    /** `startProducing()`: arms a timer unless already listening. */
    method StartProducing()
      requires Valid()
      modifies this
      ensures Valid() && listening
      ensures old(listening) ==> timer == old(timer) && armed == old(armed) && scheduled == old(scheduled)
      ensures !old(listening) ==> timer == Some(old(scheduled)) && armed == {old(scheduled)}
      ensures isBackward == old(isBackward) && intervalBetweenEvents == old(intervalBetweenEvents)
    {
      if listening {
        return;
      }
      RestartTimer();
      listening := true;
    }

    /** `stopProducing()`: invalidates the timer unless not listening. */
    method StopProducing()
      requires Valid()
      modifies this
      ensures Valid() && !listening
      ensures old(listening) ==> timer.None? && armed == {}
      ensures !old(listening) ==> timer == old(timer) && armed == old(armed)
      ensures scheduled == old(scheduled) && isBackward == old(isBackward) && intervalBetweenEvents == old(intervalBetweenEvents)
    {
      if !listening {
        return;
      }
      armed := {};
      timer := None;
      listening := false;
    }

    /** `timerTicked(_:)`: the armed timer fires; the tick is reported and a new timer armed. */
    method TimerTicked(fired: nat) returns (event: SeekEvent)
      requires Valid() && fired in armed
      modifies this
      ensures Valid()
      ensures event == TickEvent(isBackward) && isBackward == old(isBackward)
      ensures timer == Some(old(scheduled)) && armed == {old(scheduled)} && old(timer) == Some(fired)
      ensures listening == old(listening)
    {
      armed := armed - {fired};
      event := if isBackward then SeekBackward else SeekForward;
      RestartTimer();
    }
  }
}
