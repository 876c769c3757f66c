/** hooks/useInactivityTimer.ts: a watchdog kept in one `timerRef` slot,
    over a model of the browser's queue of scheduled timeouts. */
module InactivityHook {
  import opened Wrappers

  /** The window events that count as activity. */
  datatype ActivityEvent = MouseDown | MouseMove | KeyDown | Scroll | TouchStart

  /** A timeout the browser has scheduled and not yet run or cleared. */
  datatype Scheduled = Scheduled(handle: nat, deadline: int)

  /** `clearTimeout(handle)`: drops that handle's entry; unknown handles are ignored. */
  function ClearTimeout(queue: seq<Scheduled>, handle: nat): (r: seq<Scheduled>)
    ensures forall t :: t in r <==> t in queue && t.handle != handle
    ensures (forall i :: 0 <= i < |queue| ==> queue[i].handle == handle) ==> r == []
  {
    if queue == [] then []
    else if queue[0].handle == handle then ClearTimeout(queue[1..], handle)
    else [queue[0]] + ClearTimeout(queue[1..], handle)
  }

  class InactivityTimer {
    /** The timeout passed to the hook, in milliseconds. */
    const timeout: nat
    /** `timerRef.current`: the handle last scheduled; it stays set once the
        timeout has run or been cleared. */
    var timerRef: Option<nat>
    /** The timeouts of this hook the browser still holds. */
    var queue: seq<Scheduled>
    /** The handle the next `window.setTimeout` returns; browsers start at 1. */
    var nextHandle: nat
    /** The five activity listeners are attached (between mount and unmount). */
    var listening: bool

    /** At most one timeout is pending, and it is the one `timerRef` names. */
    ghost predicate Valid()
      reads this
    {
      && (queue == [] || (|queue| == 1 && timerRef == Some(queue[0].handle)))
      && (timerRef.Some? ==> 0 < timerRef.value < nextHandle)
      && nextHandle > 0
    }

    /** The deadline of the pending callback, if one is pending. */
    function Pending(): Option<int>
      reads this
    {
      if queue == [] then None else Some(queue[0].deadline)
    }

    /** The browser runs a callback that is due before it delivers any later
        event, so an event at `now` never finds an overdue callback pending. */
    predicate InTime(now: int)
      reads this
    {
      Pending().None? || now < Pending().value
    }

    /** `useRef(null)` before the mount effect has run. */
    constructor (timeout: nat)
      ensures Valid()
      ensures this.timeout == timeout && timerRef == None && queue == [] && !listening
    {
      this.timeout := timeout;
      timerRef := None;
      queue := [];
      nextHandle := 1;
      listening := false;
    }

    /** The `if (timerRef.current) clearTimeout(timerRef.current)` guard. */
    method ClearCurrent()
      requires Valid()
      modifies this`queue
      ensures Valid() && queue == []
    {
      if timerRef.Some? && timerRef.value != 0 {
        queue := ClearTimeout(queue, timerRef.value);
      }
    }

    /** `resetTimer`: cancels the pending callback and schedules exactly one
        at `now + timeout`. */
    method ResetTimer(now: int)
      requires Valid() && InTime(now)
      modifies this
      ensures Valid()
      ensures queue == [Scheduled(old(nextHandle), now + timeout)] && Pending() == Some(now + timeout)
      ensures timerRef == Some(old(nextHandle)) && nextHandle == old(nextHandle) + 1
      ensures listening == old(listening)
    {
      ClearCurrent();
      queue := queue + [Scheduled(nextHandle, now + timeout)];
      timerRef := Some(nextHandle);
      nextHandle := nextHandle + 1;
    }

    /** `stopTimer`: no callback is left pending; the stale handle stays. */
    method StopTimer()
      requires Valid()
      modifies this
      ensures Valid()
      ensures queue == [] && Pending() == None
      ensures timerRef == old(timerRef) && nextHandle == old(nextHandle) && listening == old(listening)
    {
      ClearCurrent();
    }

    /** The mount effect: attaches the listeners and starts the timer. */
    method Mount(now: int)
      requires Valid() && InTime(now)
      modifies this
      ensures Valid()
      ensures listening && Pending() == Some(now + timeout) && |queue| == 1
    {
      listening := true;
      ResetTimer(now);
    }

    /** One of the five activity events; it restarts the timer while mounted. */
    method OnActivity(e: ActivityEvent, now: int)
      requires Valid() && InTime(now)
      modifies this
      ensures Valid()
      ensures listening == old(listening)
      ensures old(listening) ==> Pending() == Some(now + timeout)
      ensures !old(listening) ==> queue == old(queue) && timerRef == old(timerRef)
    {
      if listening {
        ResetTimer(now);
      }
    }

    /** The effect cleanup: cancels the pending callback and detaches the listeners. */
    method Unmount()
      requires Valid()
      modifies this
      ensures Valid()
      ensures !listening && Pending() == None && timerRef == old(timerRef)
    {
      ClearCurrent();
      listening := false;
    }

    /** The clock reaches `now`; the callback runs at most once, and only if
        its deadline has passed with no reset or stop since it was scheduled. */
    method Elapse(now: int) returns (fired: bool)
      requires Valid()
      modifies this
      ensures Valid()
      ensures fired <==> old(Pending()).Some? && old(Pending()).value <= now
      ensures fired ==> queue == []
      ensures !fired ==> queue == old(queue)
      ensures timerRef == old(timerRef) && nextHandle == old(nextHandle) && listening == old(listening)
    {
      fired := queue != [] && queue[0].deadline <= now;
      if fired {
        queue := [];
      }
    }
  }
}
