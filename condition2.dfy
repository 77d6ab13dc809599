/**
 * Condition2 of Nachos: a condition variable with a FIFO wait queue, bound to
 * a lock. The lock's state is the field `lockHolder`; the scheduler's ready
 * pool is the field `ready`; blocking the caller is the scheduler's part.
 */
module Condition2 {
  import opened Threads

  predicate Distinct(s: seq<Tid>) {
    forall i, j :: 0 <= i < j < |s| ==> s[i] != s[j]
  }

  class Condition2 {
    /** The threads asleep on this condition, oldest first. */
    var waitQueue: seq<Tid>
    /** The thread holding the associated lock, if any. */
    var lockHolder: Option<Tid>
    /** The threads this condition has marked ready, in the order it did so. */
    var ready: seq<Tid>
    /** Every thread that has gone to sleep here, in the order it did so. */
    ghost var sleepers: seq<Tid>

    /**
     * Wakeups are FIFO: the readied threads followed by the waiting ones are
     * exactly the sleepers in order, so the k-th thread readied is the k-th
     * that went to sleep. No thread waits twice, and the lock holder is
     * running, so it is not waiting.
     */
    ghost predicate Valid()
      reads this
    {
      && ready + waitQueue == sleepers
      && Distinct(waitQueue)
      && (lockHolder.Some? ==> lockHolder.value !in waitQueue)
    }

    /** A new condition variable over a lock in the state `holder`, with nobody waiting. */
    constructor (holder: Option<Tid>)
      ensures Valid()
      ensures waitQueue == [] && ready == [] && sleepers == []
      ensures lockHolder == holder
    {
      waitQueue := [];
      lockHolder := holder;
      ready := [];
      sleepers := [];
    }

    /**
     * The first atomic part of `sleep()` by `current`, which must hold the
     * lock: it joins the tail of the wait queue and the lock is released.
     */
    method Sleep(current: Tid)
      requires Valid()
      requires lockHolder == Some(current)
      modifies this
      ensures Valid()
      ensures waitQueue == old(waitQueue) + [current]
      ensures lockHolder == None
      ensures ready == old(ready)
      ensures sleepers == old(sleepers) + [current]
    {
      waitQueue := waitQueue + [current];
      lockHolder := None;
      sleepers := sleepers + [current];
    }

    /**
     * The last part of `sleep()`: `current`, readied and so no longer waiting,
     * acquires the lock. It gets it when nobody holds it; otherwise nothing
     * changes and it goes on waiting for the lock. It also stands for any other
     * `acquire()` of the lock by a thread that is not waiting on this condition.
     */
    method Reacquire(current: Tid) returns (acquired: bool)
      requires Valid()
      requires current !in waitQueue
      modifies this
      ensures Valid()
      ensures acquired <==> old(lockHolder) == None
      ensures lockHolder == if acquired then Some(current) else old(lockHolder)
      ensures waitQueue == old(waitQueue) && ready == old(ready) && sleepers == old(sleepers)
    {
      acquired := lockHolder == None;
      if acquired {
        lockHolder := Some(current);
      }
    }

    /**
     * `wake()` by `current`, which must hold the lock: readies the oldest
     * waiting thread, if there is one; the lock stays where it is.
     */
    method Wake(current: Tid)
      requires Valid()
      requires lockHolder == Some(current)
      modifies this
      ensures Valid()
      ensures old(waitQueue) == [] ==> waitQueue == [] && ready == old(ready)
      ensures old(waitQueue) != [] ==>
                waitQueue == old(waitQueue)[1..] && ready == old(ready) + [old(waitQueue)[0]]
      ensures lockHolder == old(lockHolder) && sleepers == old(sleepers)
    {
      if waitQueue != [] {
        var woken := waitQueue[0];
        waitQueue := waitQueue[1..];
        ready := ready + [woken];
      }
    }

    /**
     * `wakeAll()` by `current`, which must hold the lock: wakes until nobody
     * waits, so every waiting thread is readied once, in queue order.
     */
    method WakeAll(current: Tid)
      requires Valid()
      requires lockHolder == Some(current)
      modifies this
      ensures Valid()
      ensures waitQueue == []
      ensures ready == old(ready) + old(waitQueue)
      ensures lockHolder == old(lockHolder) && sleepers == old(sleepers)
    {
      while waitQueue != []
        invariant Valid()
        invariant lockHolder == old(lockHolder)
        invariant ready + waitQueue == old(ready) + old(waitQueue)
        invariant sleepers == old(sleepers)
        decreases |waitQueue|
      {
        ghost var before := waitQueue;
        Wake(current);
        assert ready + waitQueue == (ready[..|ready| - 1] + [before[0]]) + before[1..];
        assert [before[0]] + before[1..] == before;
      }
    }
  }

  /**
   * Threads a and b go to sleep in that order, c wakes once: a is readied and
   * b is still waiting; a second wake readies b.
   */
  method FifoWakeupScenario(a: Tid, b: Tid, c: Tid) returns (first: seq<Tid>, second: seq<Tid>)
    requires a != b && b != c && a != c
    ensures first == [a] && second == [a, b]
  {
    var cv := new Condition2(Some(a));
    cv.Sleep(a);
    var got := cv.Reacquire(b);
    cv.Sleep(b);
    got := cv.Reacquire(c);
    cv.Wake(c);
    first := cv.ready;
    cv.Wake(c);
    second := cv.ready;
  }
}
