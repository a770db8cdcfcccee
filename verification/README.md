# yaar, verified

yaar is a work-stealing async runtime. Most of its logic is a set of small protocols made of atomics
and short critical sections: workers hand their indices to each other, tasks are queued and woken,
timers expire, I/O operations wait. This project models those protocols and proves what they keep.

Two forms are used.

* **Protocols between threads** are state machines. Every thread has a program counter, and one step
  is one atomic operation or one critical section, under sequential consistency, for any number of
  threads. `Step` returns `None` where the program would panic. The theorems speak about every run,
  that is, about every sequence of events. What the protocol does not decide (what user code does,
  time-outs, whether the system can start a thread) is an input of the step. `SharedObjects` holds
  the shared objects of these protocols as classes whose methods change their fields in place, each
  proved to do what the steps of its machine say; they link the two forms, and the results are about
  the machines.
* **Everything behind one lock, or used by one thread,** is a class with methods: the timer queue,
  sleeps, the waker slab, the pending I/O count, run queues, the random victim order, and the sorting
  example over arrays.

| file | what it is about |
|---|---|
| `ParkWord` | the word of a parker and its encoding |
| `Handoff`, `HandoffInvariant`, `HandoffProof`, `HandoffTheorems`, `HandoffBound`, `HandoffThreads` | the worker hand-off: idle list, `notify`, `spawn`, parkers, producer seats, search tokens |
| `HandoffRuns`, `HandoffLoop` | what its calls achieve: listed threads are found, wakes lead to polls, an index that is handed over arrives; the loop of `block_on` run by run |
| `AtomicWaker` | the waker cell |
| `TaskProtocol`, `TaskProof`, `TaskTheorems`, `TaskRuns` | a task, its wakers, its runner and its join handle; it embeds the waker cell |
| `SharedObjects` | the idle queue, the pool state, a parker's word and a task's state, in place |
| `RunQueue` | a worker's deque, the injector, and where `schedule` puts a runnable |
| `Timers`, `Deadlines`, `TimerQueue`, `Sleep`, `Sleepers` | what timers promise, what their deadlines are worth in nanoseconds, the tree that implements them, its client, and any number of clients |
| `EntryWaker` | the waker of a timer entry over all the sleeps that the entry serves |
| `TimerRuns` | timers from end to end: the queue, the lists of expired entries, the entries' wakers and their sleeps |
| `WakerSlab` | the slab of I/O wakers |
| `PendingSteps`, `PendingIo` | the count of waiting I/O operations: step by step, and between operations |
| `Readiness` | one kind of I/O: the waker, the loop that polls it, attempts and resets, and who reports readiness |
| `WakerRuns` | what a poll, a wake and a round of the loop achieve where nothing disturbs them |
| `SharedU64` | 64 bits in three 32-bit words |
| `VictimOrder` | the stride and the walk over the other workers |
| `QuickSort`, `QuickSortTasks` | the quicksort example: its bodies, and its tasks in any order |

## Findings

Some expected properties are false of the code. Each is stated with the condition under which it holds.

* The upper-bound assertions on `searching` (`src/runtime/internal/executor.rs:130-194`) can fail.
  `HandoffThreads.SafeExactly`: a runtime with n workers is safe from them exactly if it never has
  more than n live threads (pool threads, callers of `block_on`, and threads that only schedule or
  wake, which may block later). `HandoffBound.SearchingOvershoots` is the failing run with n + 1
  threads, which matters for n >= 2 because a runtime with one worker panics earlier (below), and
  `HandoffBound.SearchingExact` says in exactly which states the bounds hold.
* After `AtomicWaker::reset` a late taker can hold the slot when `poll` tries to lock it.
  `AtomicWaker.ResetSafety` says exactly when, `AtomicWaker.ResetCanPanic` is a run from a new waker,
  and `Readiness.LoopCanPanic` is one in which all calls are those of the loop in `poll_io`.
* A sleep can end before its delay, because a recycled entry keeps its waker as it is and its places
  in lists of expired entries. `EntryWaker.EarlyExactly`: in every run, a poll of a sleep that ends
  while the sleep's own delay has not been processed ends the sleep exactly if the waker of its entry
  had been woken before the sleep was given the entry, or a place in a list that an earlier sleep of
  the entry has left was processed since. `EntryWaker.RecycledEndsEarly` and
  `EntryWaker.LateWakeEndsEarly` are runs for the two cases; the first sleep of an entry is never
  early (`EntryWaker.FirstSleepIsInTime`).
* A sleep can come due before its duration is over, by less than two milliseconds, because both the
  current time and the duration are rounded down. `Deadlines.NotShortExactly` says for which times and
  durations it is not short, `Deadlines.ShortSleep` is an example, and `Deadlines.ExpiresNearly` bounds
  what is missing, over every run.
* `RandomIterSource::from` panics exactly for a range of 1, that is, for a runtime with one worker.
  For every other range the stride is `range - 1`, so the walk always goes down by one
  (`VictimOrder.SourceFrom`).
* A load of the 32-bit `SharedU64` can be torn if a high word comes back; `SharedU64.TornExactly` is
  the exact condition on the values that are stored, `SharedU64.ComebackTears` an example.

## Model

| member | source | states |
|---|---|---|
| HandoffTheorems.NeverPanics | src/runtime/internal/worker.rs:110-198 | in no run of any number of threads does an `unwrap`, `unreachable!` or assertion of the hand-off fail (upper bounds of `searching` aside) |
| HandoffTheorems.IndexConservation | src/runtime/internal/executor.rs:40-59 | in every reachable state each worker index is in exactly one place: idle list, a local of `notify`, `spawn` or `search_retry`, an unstarted thread, a parker's word, or a running worker |
| HandoffTheorems.WorkersDiffer | src/runtime/internal/worker.rs:110-140 | no two threads are the same worker, and the index of a running worker is on offer nowhere |
| HandoffTheorems.ProducerSeat | src/runtime/internal/queue.rs:42-45 | the run queue of worker i holds i's producer exactly while no thread has it, and who has it is worker i |
| HandoffTheorems.SearchConservation | src/runtime/internal/executor.rs:124-197 | `searching` is the number of tokens that are out, so no release finds it at zero |
| HandoffTheorems.SpawnLimit | src/runtime/internal/thread_pool.rs:43-82 | `spawned` counts the pool threads that exist or are being started, and stays within the limit |
| HandoffTheorems.IdleFlag | src/runtime/internal/executor.rs:36-59 | the flag read without the lock is set exactly when the idle list is not empty |
| HandoffTheorems.SleeperIsSignalled | src/runtime/internal/parker.rs:136-161 | a thread asleep on its condvar whose word is already Notified has an unparker still due to signal it |
| HandoffTheorems.UnparkAnswers | src/runtime/internal/parker.rs:112-133 | `unpark(Some(i))` either left i in the word of a parker that was in `park`, or changed nothing |
| HandoffTheorems.DeliveredOnce | src/runtime/internal/parker.rs:64-107 | in every run from a delivery, what was delivered stays in the word, or stays up to exactly one event, by which the owner's `poll_unparked` takes it and carries it on |
| HandoffProof.StepKeeps | src/runtime/internal/thread_pool.rs:128-170 | no step panics from a state that satisfies the invariant, and every step keeps it (what each part of the loop achieves is in `HandoffRuns` and `HandoffLoop`) |
| HandoffRuns.ParkedIsListed | src/runtime/internal/thread_pool.rs:128-170 | in every run a thread that has listed its parker is in the list up to the first event by which a `spawn` addresses it or it takes itself out |
| HandoffRuns.SpawnFinds | src/runtime/internal/thread_pool.rs:43-82 | a `spawn` addresses one of the listed threads if there are any, which is then listed once less; otherwise it gives up exactly at the limit |
| HandoffRuns.SpawnFindsTheOne | src/runtime/internal/thread_pool.rs:43-82 | the only listed thread is the one that is addressed |
| HandoffRuns.LastSearcherLooks | src/runtime/internal/executor.rs:168-189 | a searching thread that gives up the last token calls `notify` if it has found work, and looks again, or notifies, if the injector holds a runnable |
| HandoffRuns.WokenPolls | src/runtime/internal/worker.rs:23-33 | in every run from a wake of a block_on future on, until its thread polls the future, the wake is in the parker's word or the thread is on its way to that poll, and it does not sleep without somebody about to signal it |
| HandoffRuns.WakeLeadsToPoll | src/runtime/internal/parker.rs:112-133 | the same from the call of `wake`, which leaves the word Notified whatever it was |
| HandoffRuns.GoesToSleep | src/runtime/internal/thread_pool.rs:128-170 | a thread without a worker whose future is not ready lists its parker and sleeps |
| HandoffRuns.Handover | src/runtime/internal/executor.rs:124-153 | from a reachable state with a sleeper listed first, an idle index and no searcher, a `notify` makes the sleeper the worker of the last idle index, with its producer and the token, and changes nothing else |
| HandoffRuns.NotifyStarts | src/runtime/internal/thread_pool.rs:43-82 | with nobody listed and below the limit the index goes to a new thread |
| HandoffRuns.NotifyAtLimit | src/runtime/internal/executor.rs:124-153 | at the limit a `notify` leaves everything as it was |
| HandoffRuns.NotifyIdle | src/runtime/internal/executor.rs:124-142 | without an idle index, or with a searcher, so does it |
| HandoffLoop.RetryTakes | src/runtime/internal/executor.rs:191-197 | `search_retry` takes the last idle index and a token, and leads to the seat or, after a wait, first to what was intercepted |
| HandoffLoop.RetryFails | src/runtime/internal/worker.rs:142-198 | without an idle index the thread goes on to its future, to `wait`, or to the injection, by where it was called |
| HandoffLoop.EntersAndTakes | src/runtime/internal/worker.rs:48-71 | a call of `block_on` by a thread that has been in touch with the runtime takes an idle index too |
| HandoffLoop.PoolThreadStarts | src/runtime/internal/thread_pool.rs:84-116 | a new thread of the pool becomes the worker whose index it was started with |
| HandoffLoop.WorkerRuns | src/runtime/internal/worker.rs:87-108 | a worker that has found a runnable gives up its token, notifies if it was the last, and runs it |
| HandoffLoop.WorkerSearches | src/runtime/internal/executor.rs:155-166 | a worker begins to search exactly if less than half of the workers do |
| HandoffLoop.GivesBack | src/runtime/internal/worker.rs:128-140 | `transition_to_idle` puts the producer into its seat and the index into the list, and leaves no worker |
| HandoffLoop.WorkerFinishes | src/runtime/internal/worker.rs:71-85 | a worker whose future is ready leaves with its index idle again, and is uncounted if it belongs to the pool |
| HandoffLoop.WaitReturns | src/runtime/internal/thread_pool.rs:128-170 | each of the three looks at the word takes what is there; after the first two the parker is not listed |
| HandoffLoop.ParkReturns | src/runtime/internal/parker.rs:75-110 | a `park` that finds its word Notified takes what is there |
| HandoffLoop.TimesOut | src/runtime/internal/parker.rs:136-155 | a sleeper whose time is over takes itself out of the list and comes back without an index |
| HandoffLoop.PollsNetwork | src/runtime/internal/parker.rs:75-110 | a thread that may poll the network parks as Polling, and otherwise comes back the same way |
| HandoffLoop.WokenInVain | src/runtime/internal/worker.rs:170-197 | without an index the thread searches if it was notified, and otherwise injects and polls its future |
| HandoffLoop.WokenWithWork | src/runtime/internal/worker.rs:182-191 | with an index and an intercepted runnable it becomes the worker with this runnable found |
| HandoffBound.SearchingExact | src/runtime/internal/executor.rs:124-197 | `searching` is the number of workers, plus the tokens that outlive or precede their index, less the indices that travel without a token; so an upper-bound assertion holds exactly where the former do not outnumber the latter |
| HandoffThreads.SafeExactly | src/runtime/internal/executor.rs:124-197 | in every run with never more than m live threads all upper-bound assertions hold, if and only if m is at most the number of workers |
| HandoffThreads.SearchingBelowThreads | src/runtime/internal/executor.rs:155-197 | `searching` is at most the number of live threads, and below it where a thread is about to add its token |
| HandoffBound.IndexCount | src/runtime/internal/executor.rs:40-59 | the idle list and the three kinds of place of the threads hold n indices in all |
| HandoffBound.SearchingOvershoots | src/runtime/internal/executor.rs:191-197 | for any number of workers and any thread limit there is a run after which a thread in `search_retry` is about to add its token to a counter that is already the number of workers, which its assertion forbids; it matters for two workers and more, as with one the runtime panics when it is made (`VictimOrder.SourceFrom`) |
| ParkWord.DecodeEncode | src/runtime/internal/parker.rs:18-43 | an encoded state fits in a usize and decodes to itself; encoding fails exactly for indices that do not fit |
| ParkWord.EncodeDecode | src/runtime/internal/parker.rs:18-43 | exactly the words that encoding produces survive decoding and encoding |
| SharedObjects.IdleQueue.constructor | src/runtime/internal/executor.rs:26-33 | all indices start idle, as in the machine's first state |
| SharedObjects.IdleQueue.Push | src/runtime/internal/executor.rs:40-44 | list and flag after the push are those of the machine's step |
| SharedObjects.IdleQueue.Pop | src/runtime/internal/executor.rs:46-59 | a pop that nobody interrupts does the machine's two steps, those of `notify` or those of `search_retry`, and returns the index the caller carries on |
| SharedObjects.PoolState.Spawn | src/runtime/internal/thread_pool.rs:43-71 | the critical section takes the first idle parker, refuses at the limit, or counts a new thread, as the machine does |
| SharedObjects.PoolState.Finish | src/runtime/internal/thread_pool.rs:118-126 | a thread that could not start is uncounted |
| SharedObjects.PoolState.Unlist | src/runtime/internal/thread_pool.rs:159-167 | the scan removes the first occurrence of the parker, filled by the last one, and nothing if there is none |
| SharedObjects.Parker.PollUnparked | src/runtime/internal/parker.rs:64-72 | what was delivered is taken out and the word is Empty; otherwise nothing changes |
| SharedObjects.Parker.Deliver | src/runtime/internal/parker.rs:112-123 | the word changes exactly if it is not Notified and is not Empty for an index, and then delivers the index unaltered |
| SharedObjects.TaskState.TransitionToScheduled | src/runtime/internal/task.rs:31-40 | the state is that of the machine's wake, and true means the caller owns the runnable |
| SharedObjects.TaskState.TransitionToRunning | src/runtime/internal/task.rs:42-51 | true exactly from SCHEDULED, and then the state is that of the machine's store |
| SharedObjects.TaskState.TransitionToIdle | src/runtime/internal/task.rs:53-64 | true exactly if the runner is done with the task; a notified one stays NOTIFIED |
| SharedObjects.TaskState.TransitionToScheduledFromNotified | src/runtime/internal/task.rs:66-69 | the state is that of the machine's store |
| AtomicWaker.NeverPanics | src/sync/internal/waker.rs:29-103 | without `reset` no `try_lock().unwrap()`, `unreachable!` or `assert_eq!` is hit, in any run with one poller and any number of wakers |
| AtomicWaker.ResetSafety | src/sync/internal/waker.rs:105-108 | after a reset some run without another reset panics if and only if a taker is in flight and no wake is recorded |
| AtomicWaker.ResetCanPanic | src/sync/internal/waker.rs:55-55 | from a new waker, a run of a poll, a wake, a poll, a reset and a poll that fails to lock the slot |
| AtomicWaker.PendingIsRegistered | src/sync/internal/waker.rs:43-77 | a context whose poll was answered Pending is the registered one until a later poll claims the slot |
| AtomicWaker.WaiterIsWoken | src/sync/internal/waker.rs:89-103 | after a poll was answered Pending for a context, a wake leaves it woken or a thread inside `wake` about to wake it |
| AtomicWaker.WaiterIsKept | src/sync/internal/waker.rs:43-77 | until a wake that context stays in the slot, or was woken already |
| AtomicWaker.WakeIsAnswered | src/sync/internal/waker.rs:29-108 | after a wake the next answer of any run is Ready, resets included |
| AtomicWaker.RegisteredIsWoken | src/sync/internal/waker.rs:89-103 | once a wake follows a registration, the context has been woken, or a thread inside `wake` is about to wake it |
| AtomicWaker.RegisteredIsKept | src/sync/internal/waker.rs:43-77 | until then the state is WAITING and the context is in the slot, or was woken already |
| AtomicWaker.NextPollReady | src/sync/internal/waker.rs:29-86 | the next answer after such a wake is Ready, whatever happens in between |
| AtomicWaker.StepKeeps | src/sync/internal/waker.rs:29-108 | every step keeps the invariant of the cell, resets included |
| TaskTheorems.NeverPanics | src/runtime/internal/task.rs:147-205 | no `unwrap`, `unreachable!` or assertion of a task, its waker or its join is hit in any run |
| TaskTheorems.OneActivity | src/runtime/internal/task.rs:31-69 | a task is queued or run at most once, and its state word says which: SCHEDULED with one copy of the runnable, RUNNING or NOTIFIED with one runner or after completion, IDLE with neither |
| TaskTheorems.PlainStores | src/runtime/internal/task.rs:42-69 | the two plain stores overwrite exactly the state their loads saw |
| TaskTheorems.NoLostWake | src/runtime/internal/task.rs:120-135 | after a wake of an unfinished task it stays scheduled or notified, with a runnable queued, in hand or owed, until another poll begins or it completes |
| TaskTheorems.JoinFindsResult | src/runtime/internal/task.rs:192-205 | when the waker has answered Ready, the data lock is free and the data is the result recorded for the last poll (`JoinReturnsAnswer` is about the answer itself) |
| TaskTheorems.JoinTakesOnce | src/runtime/internal/task.rs:192-205 | a join that has returned returned the recorded result, and keeps it in every run (`JoinReturnsAnswer` is about the answer itself) |
| TaskTheorems.JoinReturnsAnswer | src/runtime/internal/task.rs:166-205 | in every run that ends with a join returned, there is exactly one event at which the future answered Ready, and the join returned this answer |
| TaskTheorems.AnswerIsKept | src/runtime/internal/task.rs:166-184 | in every run after such an answer it is on its way into the data, in the data, or returned, and the future is not polled |
| TaskTheorems.Completed | src/runtime/internal/task.rs:179-184 | a completed task is never queued or polled again and stays RUNNING or NOTIFIED |
| TaskTheorems.CompleteForever | src/runtime/internal/task.rs:147-184 | the same from any state that satisfies the invariant, with the state word |
| TaskTheorems.JoinerIsWoken | src/runtime/internal/task.rs:182-196 | once the completing thread is through, a join that has been polled and not been answered Ready was answered Pending for the registered context, and that has been woken |
| TaskProof.StepKeeps | src/runtime/internal/task.rs:147-205 | no step panics from a state that satisfies the invariant, and every step keeps it |
| TaskRuns.SpawnedIsJoined | src/runtime/internal/task.rs:95-205 | a run from spawn through queue, poll and wake of the joiner to a join that returns the answer, for any threads, queue and answer |
| TaskRuns.PollsPending | src/runtime/internal/task.rs:147-180 | a queued task whose future answers Pending ends idle, unlocked and with its data as before |
| TaskRuns.WokenRunsAgain | src/runtime/internal/task.rs:53-69 | one that is woken while it is polled ends in the queue the runner chooses |
| TaskRuns.PollsReady | src/runtime/internal/task.rs:147-184 | one whose future answers Ready ends complete with this result, and its runner goes on to wake the join |
| TaskRuns.JoinReturns | src/runtime/internal/task.rs:192-205 | a join of a completed task returns the result and leaves the data Joined |
| TaskRuns.Moves | src/runtime/internal/queue.rs:88-94 | stealing moves the one runnable from one queue to another |
| RunQueue.RunConserves | src/runtime/internal/queue.rs:66-94 | no run of pushes, pops and thefts loses a runnable or hands one out twice |
| RunQueue.NoStarvation | src/runtime/internal/queue.rs:73-86 | a runnable with p older ones is taken by fair pop number p + 1 at the latest, whatever is pushed meanwhile |
| RunQueue.FairPushYields | src/runtime/internal/queue.rs:66-86 | a runnable put back fairly does not come next while there is an older one |
| RunQueue.UnfairIsStack | src/runtime/internal/queue.rs:66-77 | without fairness, runnables come back newest first, and what was there before stays as it was |
| RunQueue.FlagLasts | src/runtime/internal/queue.rs:73-77 | a pop that is asked to be fair leaves a set flag for the next pop, one that is not uses it up |
| RunQueue.Producer.Push | src/runtime/internal/queue.rs:66-71 | the deque and the fairness flag after a push |
| RunQueue.Producer.Pop | src/runtime/internal/queue.rs:73-86 | newest or oldest by fairness; a pop that is asked to be fair leaves the flag for the next |
| RunQueue.Producer.Steal | src/runtime/internal/queue.rs:88-90 | the thief gets the oldest ones and keeps its own; together they have the same runnables as before |
| RunQueue.Producer.Consume | src/runtime/internal/queue.rs:92-94 | the same from the injector |
| RunQueue.Context.Schedule | src/runtime/internal/executor.rs:94-116 | a runnable goes to exactly one of the intercept, the producer and the injector, in this order of preference |
| RunQueue.Context.Collect | src/runtime/internal/poller.rs:62-69 | what timers and events wake is appended to the poller's ready list in order and goes nowhere else |
| RunQueue.Inject | src/runtime/internal/poller.rs:22-26 | every ready runnable reaches the injector, in order |
| RunQueue.PopAndInject | src/runtime/internal/poller.rs:28-32 | the first ready runnable is kept, the others go to the injector in order |
| Timers.ExpiresOnceInTime | src/time/internal/queue.rs:124-204 | over any run each delay expires at most once and never below its deadline |
| Timers.ExpiresAtFirstReach | src/time/internal/queue.rs:124-146 | unless it is completed, a delay expires at the first poll whose effective time reaches its deadline, and not before |
| Timers.CompletedNeverExpires | src/time/internal/queue.rs:209-249 | a delay completed while it waits never expires |
| Deadlines.DurationDeadline | src/time/internal/queue.rs:155-174 | in nanoseconds: a duration, one millisecond at least, gives a delay less than two milliseconds before its end and never after it, unless the queue's clock has ended; saturation only at the end of the clock |
| Deadlines.InstantDeadline | src/time/internal/queue.rs:155-174 | an instant gives a delay exactly if its millisecond is after the current one, less than a millisecond before it |
| Deadlines.NotShortExactly | src/time/internal/queue.rs:161-169 | the delay is not due before the duration is over exactly if rounding takes nothing away |
| Deadlines.ShortSleep | src/time/internal/queue.rs:161-169 | almost two milliseconds that are due a nanosecond later |
| Deadlines.ExpiresNearly | src/time/internal/queue.rs:108-114 | in every run, a delay asked for by a duration expires with less than two milliseconds missing |
| TimerQueue.Queue.Poll | src/time/internal/queue.rs:124-146 | appends exactly the due entries in order of deadline, keeps the rest, and is a poll of `Timers` |
| TimerQueue.PollRefines | src/time/internal/queue.rs:124-146 | draining every key up to the current time is the abstract poll |
| TimerQueue.Queue.Schedule | src/time/internal/queue.rs:153-204 | is `Timers`' schedule: no delay if its time has come, else a new one in an entry nobody else has |
| TimerQueue.Queue.Complete | src/time/internal/queue.rs:209-249 | takes the entry out of its list if it is queued, keeps the least key cached, and is `Timers`' complete |
| TimerQueue.Queue.Dequeue | src/time/internal/queue.rs:214-244 | removes just this entry, drops an empty list, and leaves `expires` the least key |
| TimerQueue.Queue.Enqueue | src/time/internal/queue.rs:177-202 | links a recycled or new entry that is not in use, and leaves `expires` the least key |
| TimerQueue.Queue.Expires | src/time/internal/queue.rs:119-121 | the peek is the least waiting deadline, or none if none waits |
| TimerQueue.RemoveFits | src/time/internal/queue.rs:214-244 | removing one entry of a list keeps every entry in exactly one list, at its deadline |
| TimerQueue.InsertFits | src/time/internal/queue.rs:187-202 | so does inserting one |
| TimerQueue.DrainMoves | src/time/internal/queue.rs:128-143 | draining the first list keeps what was moved ordered, distinct and due |
| Sleep.Sleep.PollStart | src/time/sleeps.rs:43-66 | the first poll schedules with the local queue: if the queue hands out a delay the sleep holds it, or gives it back when notified; if not, the second poll reports |
| Sleep.WaitsAsAsked | src/time/sleeps.rs:43-66 | a first poll for a duration that is not notified leaves a sleep that waits for a delay due less than two milliseconds before the duration is over, and not after |
| Sleep.Sleep.PollAgain | src/time/sleeps.rs:67-77 | a later poll gives the delay back to its own queue exactly when it is notified |
| Sleep.Sleep.Poll | src/time/sleeps.rs:42-83 | every poll leaves both queues in order; a first one works on the local queue only, a later one on its delay's only, and gives the delay back exactly when it reports it |
| Sleep.Sleep.Drop | src/time/sleeps.rs:86-93 | dropping a sleep that waits completes its delay at its own queue, once |
| Sleepers.AllHold | src/time/sleeps.rs:42-93 | in any run of polls and drops of any number of sleeps on any queues, what a sleep holds is handed out by its queue, and no two hold the same |
| Sleepers.CompletedOnce | src/time/sleeps.rs:42-93 | every delay ever scheduled has a sleep that waits for it or has been completed, not both, and none twice |
| Sleepers.AllCompleted | src/time/sleeps.rs:86-93 | once no sleep waits, every delay has been completed |
| EntryWaker.NeverPanics | src/time/sleeps.rs:59-72 | an entry's waker, which is never reset, never panics, however often the entry is recycled |
| EntryWaker.ProcessedIsReady | src/time/internal/queue.rs:69-71 | once a sleep's delay has expired and been processed, its next poll is answered Ready, recycled entries included |
| EntryWaker.WaiterIsWoken | src/time/internal/queue.rs:69-71 | ... and the context it waits with has been woken, or is about to be |
| EntryWaker.RunWoken | src/time/internal/queue.rs:69-71 | the waker is woken after a run exactly if it was before or a place of the entry in a list was processed in the run |
| EntryWaker.EarlyExactly | src/time/internal/queue.rs:246-248 | in every run a poll that ends while the sleep's own delay has not been processed ends the sleep, early, exactly if the entry's waker had been woken before the sleep was given the entry or a place left by an earlier sleep was processed since |
| EntryWaker.EndsAtOnceExactly | src/time/internal/queue.rs:246-248 | the case in which nothing is processed meanwhile: the sleep ends at its first poll exactly if the waker had been woken before |
| EntryWaker.FirstSleepIsInTime | src/time/internal/queue.rs:184-184 | the first sleep of an entry never ends early |
| EntryWaker.RecycledEndsEarly | src/time/internal/queue.rs:246-248 | a run in which the second sleep of an entry ends before its delay |
| EntryWaker.LateWakeEndsEarly | src/time/internal/queue.rs:69-71 | a run in which the waker was never woken, but the first sleep's place is processed while the second sleep holds the entry, which ends it early |
| TimerRuns.ExpiredSleepEnds | src/time/sleeps.rs:67-77 | in every run, once a sleep's delay has expired in the queue and been processed, the first poll of the sleep that ends after that ends the sleep and gives back that delay; it is not early, and the delay came due at its deadline or later |
| TimerRuns.PollAnswers | src/time/sleeps.rs:59-72 | in every run a poll ends the sleep exactly if the entry's waker has been woken, and the sleep is early exactly if its delay has not expired and been processed; a sleep that goes on changes nothing in the queue |
| TimerRuns.Stages | src/time/internal/queue.rs:124-146 | the delay of a sleep waits in the queue, is in a list of expired entries, or has been processed, and only one of these |
| TimerRuns.DueIsListed | src/time/internal/queue.rs:124-146 | the first poll of the queue that reaches the deadline puts the sleep's entry in a list; at any other poll the delay goes on waiting |
| TimerRuns.ProcessedPasses | src/time/internal/queue.rs:69-71 | processing a place ends the wait of the delay that put it there, and of no other |
| TimerRuns.EntryReachable | src/time/internal/queue.rs:183-184 | each entry, whatever the others do, goes through a run of its own, so what `EntryWaker` says of every run holds here |
| TimerRuns.StepKeeps | src/time/internal/queue.rs:58-71 | every event keeps the invariant: among others, an entry is in the lists as often as it has late places and a listed delay, each waiting delay has just one sleep, and no place is there twice |
| WakerSlab.TokenRoundTrip | src/net/internal/wakers.rs:18-31 | a token leads back to its index |
| WakerSlab.SignalToken | src/net/internal/poller.rs:24-24 | which index has the signal token: none on 64 bits, one that is never handed out on 32 bits |
| WakerSlab.WakerStorage.Alloc | src/net/internal/wakers.rs:65-101 | hands out an index nobody has, fails exactly when all are out, and never replaces a block |
| WakerSlab.WakerStorage.Free | src/net/internal/wakers.rs:103-106 | the index is available again and no other changes |
| WakerSlab.WakerStorage.With | src/net/internal/wakers.rs:108-116 | every live index leads to a stored block and an entry inside it |
| WakerSlab.WakerStorage.EntriesApart | src/net/internal/wakers.rs:108-116 | different live indices lead to different entries |
| WakerSlab.WakerStorage.LiveTokens | src/net/internal/poller.rs:121-127 | tokens of live indices are distinct, round-trip, and differ from the signal token |
| WakerSlab.WakerStorage.LiveBound | src/net/internal/wakers.rs:33-35 | no more indices are live than the table has entries |
| PendingSteps.NeverPanics | src/net/internal/poller.rs:68-76 | with one atomic operation per step, however operations of both kinds and drops overlap, the counter neither overflows nor goes below zero |
| PendingSteps.PendingCount | src/net/internal/pollable.rs:59-74 | in every reachable state the counter is the flags set and not being taken back, plus the operations that have counted themselves and not stored their flag |
| PendingSteps.QuietCount | src/net/internal/pollable.rs:59-74 | when no operation is under way it is the flags that are set, whatever overlapped before |
| PendingSteps.ZeroMeansNobodyWaits | src/net/internal/poller.rs:82-85 | the counter is zero exactly if nothing is counted, and then no operation has returned and waits |
| PendingSteps.StepKeeps | src/net/internal/pollable.rs:59-159 | no step panics from a state that satisfies the invariant, and every step keeps it |
| PendingSteps.RoundRun | src/net/internal/pollable.rs:59-74 | an operation that nothing overlaps ends with flag and count set exactly if the waker was not ready |
| PendingSteps.BlockedRun | src/net/internal/pollable.rs:86-96 | an operation whose attempt would have blocked asks the waker again in the same call, and is counted if that is not ready |
| PendingSteps.DropRun | src/net/internal/pollable.rs:145-159 | a drop, with its two wakes, uncounts each set flag and frees the index |
| Readiness.NoReadinessLost | src/net/internal/pollable.rs:59-97 | once readiness has been reported, by an event or by a drop, no poll of the waker is answered Pending before the operation has been attempted again, resets and recycled entries included |
| Readiness.WaiterIsWoken | src/net/internal/pollable.rs:63-69 | an operation that waits and to which readiness has been reported since its last attempt has been woken, or is about to be |
| Readiness.ReusedAttemptsFirst | src/net/internal/pollable.rs:145-151 | a pollable whose entry has served another makes an attempt before it waits for the first time |
| Readiness.LoopCanPanic | src/net/internal/pollable.rs:89-91 | a run of the loop in which the poll after a reset fails to lock the slot |
| Readiness.ResetAllowed | src/sync/internal/waker.rs:105-108 | the assertion of `reset` holds whenever the loop calls it |
| WakerRuns.PollWaits | src/sync/internal/waker.rs:29-77 | a poll of a waker that has not been woken registers its context and is Pending; without a context it changes nothing |
| WakerRuns.PollIsReady | src/sync/internal/waker.rs:29-86 | a poll of one that has been woken is Ready, with a context or without, and leaves the flag set and the state EMPTY |
| WakerRuns.WakeFires | src/sync/internal/waker.rs:89-103 | a wake takes the registered context out, wakes it, and leaves the state NOTIFIED |
| WakerRuns.AfterAttempt | src/net/internal/pollable.rs:86-96 | a result ends the operation, an interruption repeats the attempt, and one that would block resets the waker and asks it again |
| WakerRuns.EndsExactly | src/net/internal/pollable.rs:59-97 | in every reachable state: the operation ends exactly with a result, out of budget, or with an answer Pending, and attempts exactly if the waker had been woken |
| PendingIo.NetPoller.Register | src/net/internal/poller.rs:39-56 | succeeds exactly if the registry accepts and an index is free; a refused one is given back |
| PendingIo.NetPoller.NewPollable | src/net/internal/pollable.rs:27-40 | a new pollable has its own index and counts nothing, as the step machine has it |
| PendingIo.NetPoller.RoomToBegin | src/net/internal/poller.rs:68-71 | the counter has room for an operation that begins to wait, by the room the step machine always has |
| PendingIo.NetPoller.TryPoll | src/net/internal/poller.rs:82-90 | between operations, the selector is skipped exactly if no operation waits or another thread has it; `PendingSteps.ZeroMeansNobodyWaits` is the statement at any time |
| PendingIo.NetPoller.Deregister | src/net/internal/poller.rs:58-62 | the index is free again and the counter still counts the flags of the others |
| PendingIo.Pollable.SetPending | src/net/internal/pollable.rs:63-74 | the joint effect of the step on the counter and the step on the flag, when no other step comes between |
| PendingIo.Pollable.Round | src/net/internal/pollable.rs:59-84 | one poll of the waker changes flag, counter and budget as the step machine's run of an operation that nothing overlaps |
| PendingIo.Pollable.PollIo | src/net/internal/pollable.rs:53-98 | with no other operation between its steps: the operation is counted exactly if it waits; the result is the first attempt neither interrupted nor blocked; each blocked one resets the waker; a task makes no more rounds than its budget, and yields only where its waker was ready; it is left unfinished only where the scripted answers end |
| PendingIo.Pollable.TryIo | src/net/internal/pollable.rs:42-51 | outside a task it never yields and leaves the budget; the result is that of the first attempt that has one, waiting is reported as WouldBlock, and there is no result only where the scripted answers end |
| PendingIo.Pollable.Drop | src/net/internal/pollable.rs:145-159 | everything it counted is uncounted without underflow and its index is free, as in the step machine's run of a drop |
| SharedU64.LoadReturnsStored | src/time/internal/shared_u64.rs:58-68 | a load returns a value stored no earlier than the last complete one when it began exactly if its two halves' high words agree, and they do if high words stored meanwhile do not decrease |
| SharedU64.TornExactly | src/time/internal/shared_u64.rs:44-77 | over all interleavings no load is torn if and only if every mixture a high word lets through is itself stored meanwhile |
| SharedU64.MonotoneIsWhole | src/time/internal/shared_u64.rs:30-37 | high words that never decrease are enough |
| SharedU64.ComebackTears | src/time/internal/shared_u64.rs:30-37 | three values for which a load returns one that was never stored |
| SharedU64.GetIsExact | src/time/internal/shared_u64.rs:52-56 | the writer reads back what it stored last |
| SharedU64.QuietLoad | src/time/internal/shared_u64.rs:58-68 | a load that no store overlaps needs one attempt and returns the last value |
| SharedU64.LoadStartsOver | src/time/internal/shared_u64.rs:58-68 | a load that has been disturbed starts over, and returns the last value if left alone |
| VictimOrder.SourceFrom | src/runtime/internal/random.rs:14-25 | finds a non-zero coprime stride exactly for ranges above 1, and it is the range less one |
| VictimOrder.Indices | src/runtime/internal/random.rs:65-79 | yields each index once, in strides from the start, every step in bounds |
| VictimOrder.NoReturn | src/runtime/internal/random.rs:65-79 | fewer strides than the range never lead back to the same place |
| VictimOrder.Bezout | src/runtime/internal/random.rs:20-20 | the greatest common divisor is a combination of its arguments |
| VictimOrder.GcdGreatest | src/runtime/internal/random.rs:20-20 | every common divisor divides it |
| VictimOrder.GcdDivides | src/runtime/internal/random.rs:20-20 | it divides both arguments |
| VictimOrder.NeverZero | src/runtime/internal/random.rs:49-63 | no state but zero leads to zero, on both widths |
| VictimOrder.ExampleValues | src/runtime/internal/random.rs:49-63 | what the seeds of the examples in Marsaglia's "Xorshift RNGs" lead to, which fixes all six shifts |
| VictimOrder.HashUndone | src/runtime/internal/random.rs:36-46 | different seeds have different hashes, and only zero hashes to zero |
| VictimOrder.RandomGenerator.constructor | src/runtime/internal/random.rs:36-46 | only the first seed needs the replacement for zero |
| VictimOrder.RandomGenerator.Gen | src/runtime/internal/random.rs:49-63 | the state stays one that is not zero, so the `unwrap` holds |
| VictimOrder.RandomGenerator.GenIter | src/runtime/internal/random.rs:65-79 | yields each index once, in strides from the random place |
| QuickSort.InsertionSort | examples/qsort/yaar.rs:78-86 | sorts its slice, rearranging it and touching nothing else |
| QuickSort.Partition | examples/qsort/yaar.rs:65-76 | splits around the last element, which comes to the front exactly if it is below all others; then the new last element is not |
| QuickSort.QuickSort | examples/qsort/yaar.rs:46-63 | one task after the other, terminates and sorts every slice, although a part can be the whole slice |
| QuickSortTasks.AnyOrderSorts | examples/qsort/yaar.rs:46-63 | in whatever order tasks start, work and end, with the steps of one between those of another, the array is sorted and has its elements once no task is left |
| QuickSortTasks.TasksRunOut | examples/qsort/yaar.rs:50-62 | in whatever order they run, a bounded number of tasks can end |
| QuickSortTasks.Body | examples/qsort/yaar.rs:46-51 | the body of `quick_sort` on a slice of the array is a start, some work and an end of its task |
| QuickSortTasks.WorkApart | examples/qsort/yaar.rs:51-58 | work on one slice leaves the slices of other tasks alone |
| QuickSort.PartsSorted | examples/qsort/yaar.rs:50-62 | sorting both parts of a split slice sorts it |
| QuickSort.SortedUnique | examples/qsort/yaar.rs:57-61 | there is one sorted arrangement, so the order of the two tasks does not show |
| QuickSort.VerifySorted | examples/qsort/yaar.rs:31-33 | neighbours are in order exactly if the whole is sorted |
| QuickSort.Shuffle | examples/qsort/yaar.rs:35-44 | every swap is in bounds, the elements stay the same, and they are arranged by the places that the generator draws |
| QuickSort.AllArrangements | examples/qsort/yaar.rs:35-44 | swapping each element with a chosen one up to it can lead to every arrangement |

## Left out

- Weak memory orderings: sequential consistency throughout.
- Shutdown: `running` is true throughout, because `task_complete` tests the value before its decrement against zero after asserting that it is not zero, so `shutdown` is not reached from there; the `task_begin` and `task_complete` counter is not modelled.
- The upper-bound assertions on `searching` are absent from the machine; they can fail, as `HandoffBound.SearchingOvershoots` says.
- No claim that injected work never waits while all workers idle: `notify` releases a failed claim without looking again.
- TimerQueue.RawEntry: has no waker; `EntryWaker` has it, and whether it answers is an input of `Sleep`. `TimerRuns` joins queue, wakers and sleeps for one queue, with the queue as `Timers` has it, which `TimerQueue.Queue.Poll`, `Schedule` and `Complete` are proved to implement.
- TimerRuns: the places in lists of expired entries are processed in any order, by any number of threads, and the lists are one sequence; which entry `schedule` takes from the cache is an input.
- No claim about a `block_on` future that wakes itself, and its own task state is not part of the hand-off machine; nested calls of `block_on` on one thread do not happen.
- In the hand-off machine the queues, the injector, timers and the network are inputs ("a runnable was found"); `RunQueue` has the queues. The second check and the push of the parker in `wait`, one critical section, are two steps, which only adds runs.
- In the task machine queues are names, and stealing in batches moves one copy.
- Thread callbacks, thread names and stack sizes, `Builder` and `Config`, sockets and `tcp/*`, the HTTP examples.
- crossbeam deques are sequences; how many runnables a theft moves and in which order they arrive are inputs. `Steal::Retry` and spinning are left out.
- mio: which events arrive, what I/O returns and whether the registry accepts are inputs.
- Wrap-around of `tick`, of the seed counter and of indices beyond `usize`: counters are natural numbers except where a bound is stated.
- SharedU64.Join: the 32-bit `load` and `get` combine a u64 and a u32 with `|`; the model widens `low`.
- PendingIo.Pollable.PollIo: no other operation has steps between its own; overlapping operations are in `PendingSteps`. Polls of the waker are inputs, `Readiness` has them. Running out of inputs is the outcome `Unfinished`.
- PendingIo.Pollable.Drop: the two wakes of a drop are steps of `PendingSteps` and of `Readiness`, not of the class.
- PendingIo.Pollable.SetPending: counter and flag change together; `PendingSteps` has the two steps.
- PendingIo.NetPoller.RoomToBegin: between operations; `PendingSteps.Room` is the fact at any time.
- PendingIo.NetPoller.TryPoll: between operations; `PendingSteps.ZeroMeansNobodyWaits` is the statement at any time.
- Readiness: a run ends where the waker panics after a reset, which `AtomicWaker.ResetSafety` describes and `Readiness.LoopCanPanic` reaches.
- Sleepers: the calls of `complete` are recorded where `Sleep.Poll` and `Sleep.Drop` make them; that expiring timers change none of what is recorded is in the contract of `TimerQueue.Queue.Poll`. That queues keep sharing no entry is the freshness clause of `Sleep.Poll`, call by call.
- QuickSort.QuickSort: its two recursive calls run one after the other; tasks in any order are in `QuickSortTasks`, where the steps of a running task are arbitrary rearrangements of its slice and its end is what `QuickSortTasks.Body` proves of the real loops.
- VictimOrder.Indices: asks that twice the range fits in a usize, as the sum in the walk does.
- SharedObjects: the methods of `SharedObjects` are atomic, and a parker's mutex and condvar are in the hand-off machine only.
