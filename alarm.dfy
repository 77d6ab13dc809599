/**
 * The Alarm of Nachos: a pending set of (thread, deadline) pairs kept as two
 * parallel lists, filled by `waitUntil` and scanned by the timer interrupt.
 * The scheduler's ready pool is the field `ready`; the current thread and the
 * current time are parameters.
 */
module Alarm {
  import opened Threads
  import opened AlarmSpec

  class Alarm {
    /** The blocked threads, in registration order. */
    var waitQueue: seq<Tid>
    /** The wake-up time of each thread: index i belongs to waitQueue[i]. */
    var timeQueue: seq<Long>
    /** The threads this alarm has marked ready, in the order it did so. */
    var ready: seq<Tid>

    /** The two lists stay parallel. */
    ghost predicate Valid()
      reads this
    {
      |waitQueue| == |timeQueue|
    }

    /** The pending set, pairing index i of one list with index i of the other. */
    ghost function Pending(): (p: seq<Entry>)
      reads this
      requires Valid()
    {
      Zip(waitQueue, timeQueue)
    }

    constructor ()
      ensures Valid()
      ensures waitQueue == [] && timeQueue == [] && ready == []
    {
      waitQueue := [];
      timeQueue := [];
      ready := [];
    }

    /**
     * `waitUntil(x)` by thread `current` at time `now`: appends the thread and
     * the deadline `now + x`, whatever the sign or size of `x`. Blocking the
     * caller is the scheduler's part.
     */
    method WaitUntil(current: Tid, now: Long, x: Long)
      requires Valid()
      modifies this
      ensures Valid()
      ensures waitQueue == old(waitQueue) + [current]
      ensures timeQueue == old(timeQueue) + [Deadline(now, x)]
      ensures Pending() == old(Pending()) + [Entry(current, Deadline(now, x))]
      ensures ready == old(ready)
    {
      var wakeTime := Deadline(now, x);
      waitQueue := waitQueue + [current];
      timeQueue := timeQueue + [wakeTime];
    }

    /**
     * `waitUntil(x)` as it is meant to be: the deadline `now + x` is clamped
     * to the largest `long` instead of wrapping around, so a huge `x` is not
     * readied early.
     */
    method WaitUntilSaturating(current: Tid, now: Long, x: Long)
      requires Valid()
      modifies this
      ensures Valid()
      ensures waitQueue == old(waitQueue) + [current]
      ensures timeQueue == old(timeQueue) + [SaturatingDeadline(now, x)]
      ensures Pending() == old(Pending()) + [Entry(current, SaturatingDeadline(now, x))]
      ensures ready == old(ready)
    {
      var wakeTime := SaturatingDeadline(now, x);
      waitQueue := waitQueue + [current];
      timeQueue := timeQueue + [wakeTime];
    }

    /**
     * The timer interrupt as written: a forward scan that removes by index and
     * advances the index after every step, also after a removal.
     */
    method TimerInterrupt(now: Long)
      requires Valid()
      modifies this
      ensures Valid()
      ensures Pending() == Scan(old(Pending()), now).kept
      ensures ready == old(ready) + ThreadsOf(Scan(old(Pending()), now).fired)
    {
      ghost var p := Pending();
      ghost var fired: seq<Entry> := [];
      ScanInvInit(p, now);
      var i := 0;
      while i < |waitQueue|
        invariant Valid()
        invariant ScanInv(p, Pending(), i, fired, now)
        invariant ready == old(ready) + ThreadsOf(fired)
        decreases |waitQueue| + 1 - i
      {
        if now >= timeQueue[i] {
          ScanInvRemove(p, waitQueue, timeQueue, i, fired, now);
          ThreadsOfAppend(fired, Entry(waitQueue[i], timeQueue[i]));
          fired := fired + [Entry(waitQueue[i], timeQueue[i])];
          ready := ready + [waitQueue[i]];
          waitQueue := waitQueue[..i] + waitQueue[i + 1..];
          timeQueue := timeQueue[..i] + timeQueue[i + 1..];
        } else {
          ScanInvKeep(p, waitQueue, timeQueue, i, fired, now);
        }
        i := i + 1;
      }
      ScanInvDone(p, Pending(), i, fired, now);
    }

    /**
     * The timer interrupt as it is meant to be: after a removal the index is
     * not advanced, so the entry that shifts into slot i is examined too.
     */
    method TimerInterruptCorrected(now: Long)
      requires Valid()
      modifies this
      ensures Valid()
      ensures Pending() == Waiting(old(Pending()), now)
      ensures ready == old(ready) + ThreadsOf(DueEntries(old(Pending()), now))
    {
      ghost var p := Pending();
      ghost var fired: seq<Entry> := [];
      FilterInvInit(p, now);
      var i := 0;
      while i < |waitQueue|
        invariant Valid()
        invariant FilterInv(p, Pending(), i, fired, now)
        invariant ready == old(ready) + ThreadsOf(fired)
        decreases |waitQueue| - i
      {
        if now >= timeQueue[i] {
          FilterInvRemove(p, waitQueue, timeQueue, i, fired, now);
          ThreadsOfAppend(fired, Entry(waitQueue[i], timeQueue[i]));
          fired := fired + [Entry(waitQueue[i], timeQueue[i])];
          ready := ready + [waitQueue[i]];
          waitQueue := waitQueue[..i] + waitQueue[i + 1..];
          timeQueue := timeQueue[..i] + timeQueue[i + 1..];
        } else {
          FilterInvKeep(p, waitQueue, timeQueue, i, fired, now);
          i := i + 1;
        }
      }
      FilterInvDone(p, Pending(), i, fired, now);
    }
  }

  /**
   * Two threads registered with a zero wait at time 0, then one tick at time
   * 0: the second thread is still pending although its deadline has passed.
   */
  method SkippedWakeupScenario() returns (pending: seq<Tid>, readied: seq<Tid>)
    ensures pending == [2] && readied == [1]
  {
    var alarm := new Alarm();
    alarm.WaitUntil(1, 0, 0);
    alarm.WaitUntil(2, 0, 0);
    assert alarm.Pending() == [Entry(1, 0), Entry(2, 0)];
    alarm.TimerInterrupt(0);
    ScanSkipsAdjacentDue();
    pending, readied := alarm.waitQueue, alarm.ready;
  }
}
