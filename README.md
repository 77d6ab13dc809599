# Nachos Alarm and Condition2 in Dafny

A model of two synchronisation primitives of the Nachos `threads` package.

- **Alarm**: it keeps a pending set of (thread, deadline) pairs in two parallel lists, `waitQueue` and `timeQueue`. `waitUntil(x)` appends the calling thread and the deadline `now + x`. The timer interrupt scans the lists and readies the threads whose deadline has been reached, but after each removal it passes over the entry that shifts into the freed slot (see "## Findings").
- **Condition2**: a condition variable bound to a lock, with a FIFO wait queue. `sleep` enqueues the caller and releases the lock, then reacquires the lock once woken. `wake` readies the oldest waiter, if any. `wakeAll` wakes until nobody waits.

The scheduler's ready pool is a field `ready` on each class: a sequence of the threads that object has marked ready, in order. The current thread and the current time are method parameters. Each public method is one atomic step. For `waitUntil`, the tick, `wake` and `wakeAll` this is because the source runs them with interrupts disabled. `sleep` is split into two steps, and its race is listed under "## Left out".

Files:
- `threads.dfy` (module `Threads`): thread ids, `Option`, and Java's `long` with its wrap-around addition.
- `alarm_spec.dfy` (module `AlarmSpec`): the pending set as `Entry` values. `Scan` is the tick loop exactly as written. `Waiting` and `DueEntries` are the intended filter. It also holds the lemmas relating them.
- `alarm.dfy` (module `Alarm`): class `Alarm` over the two parallel `seq` fields. `Valid()` says the two lists have equal length, and `Pending()` pairs them index by index.
- `condition2.dfy` (module `Condition2`): class `Condition2` with fields `waitQueue`, `lockHolder` and `ready`, plus a ghost history `sleepers`. `Valid()` states FIFO wakeup outright: `ready + waitQueue == sleepers`. It also says no thread waits twice and the lock holder is not waiting.

Modelling decisions:
- Deadlines are Java `long`s and `now + x` wraps around on overflow. The model writes this out (`Threads.AddLong`). A huge `x` therefore gives a negative deadline, which the next tick treats as due (see "## Findings").
- `waitUntil` never checks the sign of `x` (threads/Alarm.java:71-81), so a non-positive wait is registered and is due at the next tick.
- The tick reads the time once per tick, as the parameter `now`. The source calls `getTime()` on every iteration, but interrupts are disabled throughout, so the time cannot move.
- `sleep()` is split at its blocking point into two atomic steps. `Sleep` is the enqueue and lock release. `Reacquire` is the lock acquire after being woken: it takes the lock when it is free, and otherwise changes nothing.

## Model

| member | source | states |
|---|---|---|
| `Threads.AddLong` | threads/Alarm.java:73 | Java `long` addition: exact when the sum fits, always congruent to the sum modulo 2^64, and two non-negative operands that overflow give a negative result |
| `AlarmSpec.Scan` | threads/Alarm.java:42-50 | the scan as written: a due entry in the examined slot is readied and removed, and the entry that shifts into that slot is passed over. Its contract says the kept and readied counts add up to the pending count; `ScanConserves` says each entry lands in exactly one of them, and its other properties are the other `Scan*` lemmas |
| `AlarmSpec.Deadline` | threads/Alarm.java:73 | the stored deadline is `now + x` when that fits in a `long`; a non-positive `x` gives a deadline no later than `now`; an overflowing `now + x` gives a negative deadline |
| `Alarm.Alarm.constructor` | threads/Alarm.java:19-21 | both lists start empty and parallel |
| `Alarm.Alarm.WaitUntil` | threads/Alarm.java:71-81 | appends exactly the caller to `waitQueue` and `Deadline(now, x)` to `timeQueue`, for any `x`; existing entries, the list pairing and `ready` are unchanged |
| `Alarm.Alarm.WaitUntilSaturating` | threads/Alarm.java:59-73 | intended `waitUntil`: appends the caller and the clamped deadline `SaturatingDeadline(now, x)`; existing entries and `ready` are unchanged |
| `Alarm.Alarm.TimerInterrupt` | threads/Alarm.java:36-51 | the loop as written keeps the lists parallel; the pending set becomes `Scan(old pending, now).kept` and the threads of `Scan(...).fired` are appended to `ready` in queue order |
| `Alarm.Alarm.TimerInterruptCorrected` | threads/Alarm.java:59-65 | the intended tick: the pending set becomes exactly the entries not yet due, in order, and the due entries' threads are readied in queue order |
| `Alarm.SkippedWakeupScenario` | threads/Alarm.java:42-50 | two threads register a zero wait at time 0 and a tick runs at time 0; afterwards thread 1 is readied and thread 2 is still pending, although due |
| `AlarmSpec.ScanSkipsAdjacentDue` | threads/Alarm.java:42-50 | counterexample to the documented guarantee: on entries (1, 0), (2, 0) at time 0 the scan readies 1 and keeps the due entry 2 |
| `AlarmSpec.ScanCorrectIff` | threads/Alarm.java:42-50 | the scan as written leaves no due entry pending if and only if no two due entries are adjacent in the pending set |
| `AlarmSpec.ScanAgreesWhenNoAdjacentDue` | threads/Alarm.java:42-50 | when no two due entries are adjacent, the scan as written gives exactly the intended result (`Waiting`, `DueEntries`) |
| `AlarmSpec.ScanConserves` | threads/Alarm.java:46-49 | every pending entry is, after the scan, either still pending or readied, exactly once (multiset equality) |
| `AlarmSpec.FiredEntryLeaves` | threads/Alarm.java:46-49 | an entry registered once that the scan readies is no longer pending, so no later tick readies it again |
| `AlarmSpec.ScanFiresOnlyDue` | threads/Alarm.java:44-46 | the scan readies only entries whose deadline is at or before `now` |
| `AlarmSpec.ScanKeepsWaiting` | threads/Alarm.java:44-49 | the entries not yet due are the same, in the same order, before and after the scan: none is readied or removed |
| `AlarmSpec.ScanPreservesOrder` | threads/Alarm.java:48-49 | the surviving entries and the readied entries are each subsequences of the pending set (relative order kept) |
| `AlarmSpec.ScanProgress` | threads/Alarm.java:42-50 | the weaker property the loop does satisfy: each due entry left pending is matched by a readied one, so at least half of the due entries are readied on every tick |
| `AlarmSpec.NotReadiedEarly` | threads/Alarm.java:59-65 | a thread that called `waitUntil(x)` at `t0` (no overflow) is not readied and stays pending at any tick before `t0 + x` |
| `AlarmSpec.OverflowReadiesEarly` | threads/Alarm.java:73 | counterexample to the documented wait of at least `x` ticks: `waitUntil(Long.MAX_VALUE)` at time 1 stores the least `long`, and the tick at time 1 readies the thread |
| `AlarmSpec.SaturatingDeadline` | threads/Alarm.java:59-73 | intended deadline: `now + x` when it fits, the largest `long` above the range, the least below it; a non-negative `x` never gives a deadline before `now` |
| `AlarmSpec.NotReadiedEarlySaturating` | threads/Alarm.java:59-65 | with the clamped deadline, the thread is not readied and stays pending at any tick before `t0 + x`, with no overflow condition (for any time short of the largest `long`) |
| `AlarmSpec.ReadiedOnTime` | threads/Alarm.java:59-65 | intended: at a tick at or after `t0 + x` that thread's entry is among the due entries and not among the survivors |
| `AlarmSpec.FilterSound` | threads/Alarm.java:59-65 | the intended tick leaves no due entry pending and readies no waiting one |
| `AlarmSpec.FilterConserves` | threads/Alarm.java:46-49 | the intended tick puts every pending entry in exactly one of its two halves |
| `AlarmSpec.FilterPreservesOrder` | threads/Alarm.java:48-49 | both halves of the intended tick keep the queue order |
| `AlarmSpec.WaitingMembers` | threads/Alarm.java:59-65 | an entry survives the intended tick if and only if it was pending and not due, and is readied if and only if it was pending and due |
| `Condition2.Condition2.constructor` | threads/Condition2.java:24-29 | the wait queue starts empty; the lock is in the given state |
| `Condition2.Condition2.Sleep` | threads/Condition2.java:37-45 | requires the caller to hold the lock; appends the caller at the tail of the wait queue and releases the lock; `ready` is unchanged; FIFO invariant kept |
| `Condition2.Condition2.Reacquire` | threads/Condition2.java:47-48 | a woken thread (not waiting) acquires the lock exactly when it is free; queue and `ready` are unchanged |
| `Condition2.Condition2.Wake` | threads/Condition2.java:55-65 | requires the lock; on an empty queue changes nothing; otherwise removes exactly the head, appends it to `ready` and keeps the tail in order; the lock holder is unchanged |
| `Condition2.Condition2.WakeAll` | threads/Condition2.java:71-80 | requires the lock; the loop terminates with an empty queue, `ready` gains exactly the old queue in order (each waiter once), the lock holder is unchanged |
| `Condition2.FifoWakeupScenario` | threads/Condition2.java:41-62 | a sleeps, then b sleeps, then c wakes: a is readied first and b second |

## Left out

- `threads/Communicator.java` is not part of this model. It is a blocking rendezvous whose meaning lies in the interleaving of `speak` and `listen` across threads.
- Scheduler calls (`KThread.sleep()`, `ready()`, `yield()`): `ready()` becomes an append to the `ready` field. Blocking and the yield at the end of the tick handler are not modelled.
- Interrupt disable/restore: each public method is one atomic step. The race in `sleep` is a concurrency matter outside a sequential model. The lock is released at threads/Condition2.java:42 before interrupts are disabled at line 43.
- Installing the timer interrupt handler in the constructor and reading the hardware clock: the time is the parameter `now`.
- Lock internals and `Lib.debug` output: other threads' `acquire`/`release` of the lock are not modelled, apart from `Reacquire` and the release in `Sleep`.
- `AlarmSpec.NotReadiedEarly`: requires that `t0 + x` fits in a `long`, because the source's wrapping addition breaks the promise otherwise; the overflow case is the second row of "## Findings".
- `AlarmSpec.NotReadiedEarlySaturating`: does not cover a tick at the largest `long` time itself, where the clamped deadline is reached although `t0 + x` is not.
- At most one pending alarm per thread is not enforced, because the source does not check it. Conservation is stated as a multiset equality instead.

## Findings

| source | as written | input that shows it | evidently intended | confidence | as-written member | corrected member |
|---|---|---|---|---|---|---|
| threads/Alarm.java:42-50 | the scan removes entry i and then advances i, so the entry that shifts into slot i is never examined | entries (thread 1, deadline 0) and (thread 2, deadline 0), tick at time 0: thread 2 stays pending though due | every entry whose deadline has passed is readied on the first tick at or after it (doc at lines 59-65) | high; not executed | `AlarmSpec.ScanSkipsAdjacentDue` | `Alarm.Alarm.TimerInterruptCorrected` |
| threads/Alarm.java:73 | `getTime() + x` is a plain `long` addition, which wraps around on overflow | `waitUntil(Long.MAX_VALUE)` at time 1: the deadline is `Long.MIN_VALUE`, and the tick at time 1 readies the thread | the thread sleeps for at least `x` ticks (doc at lines 59-60), so the deadline is clamped to the largest `long` | medium; not executed | `AlarmSpec.OverflowReadiesEarly` | `AlarmSpec.NotReadiedEarlySaturating` |
