# bocpy runtime: a verified model

bocpy runs *behaviors* over *cowns* (values owned by one behavior at a time) on a
pool of interpreters.  This project models the runtime's concurrency core and proves
what the rest of the library relies on.

Every atomic load, store, exchange, CAS, fetch-add and every mutex or condvar
operation of the modelled code is one step; every thread has a program counter; and
what is proved holds after every step of every interleaving.  Shared memory is
sequentially consistent.  The pattern is the same in every part:

* the state and its steps are values and functions (`State`, `CanStep`, `Next`), and
  an inductive invariant is proved over all steps and all runs;
* a class holds the same state in mutable fields and performs each step as the source
  does, in place; its methods are proved equal to the step functions, so that the
  invariants and theorems apply to them;
* where the source promises something about a whole call, the method that models the
  call lets any number of steps of any other threads happen between its own.

Parts, in reading order:

1. **Cown scheduling.**  `RequestQueue` (one cown's MCS list), `CownProtocol` (two-phase
   linking, handoff, reference counts), `CownInvariant`, `CownSteps`, `CownRelease`
   (preservation), `CownTheorems` (mutual exclusion, exactly-once dispatch, one serial
   order), `CownLiveness` (deadlock freedom), `CownSpinning` (a chain of spins on one
   cown), `CownReclamation` (memory safety, quiescence), `CownTermination` (everything
   finishes), `CownSpec` (refinement of FIFO queues), `CownValues` (ownership of the
   values), `CownBodies` (what a body can rely on), `CownDrain` (what a settled state looks
   like, and what draining it does), `CownSchedules` (which schedules can be left),
   `CownRuntime` (the mutable runtime), `CreateRequests` (dedup and sort).
2. **Run queues and work stealing.**  `BehaviorQueue` (the lock-free queue over pointer
   cells), `QueueHistory` (where every node is; the invariant), `QueueFrame`,
   `QueueSteps`, `QueueFronts`, `QueueMoves`, `QueueLocals`, `QueueRuns` (preservation),
   `QueueTheorems` (conservation, FIFO), `QueueMisses` (when a dequeue may come back with
   nothing), `PinnedRouting` (where a pinned behavior can be), `Scheduler` (the queue
   functions as code), `WorkStealing` (dispatch, pop, steal, fairness tokens, the main
   pump), `Starvation` (the bounds for a lone worker).
3. **Both together.**  `PinnedDispatch` runs the protocol and the run queues side by side
   and shows that only the main thread ever gets a behavior with a pinned argument.
4. **Parking.**  `Parking` (epochs, parked flags, condvars, the stop request),
   `ParkingEpochs` (no worker sleeps over its own work; the torn-load counterexample),
   `ParkingRing` (whom a dispatcher wakes).
5. **Terminator.**  `Terminator` (the rundown counter and its wakeups), `TerminatorCalls`
   (what its operations come to), `Rundown` (its static variables), `Quiescence`
   (protocol and counter side by side: what a count of 0 means).  `ShutdownDrain` is the
   drain loop of `stop_workers`.
6. **Noticeboard.**  `NoticeboardRows`, `Noticeboard`.
7. **Arguments and the sieve.**  `Arguments` (group ids there and back), `Primes`,
   `Sieve`, `SieveLanes` (the shared sieve of the prime factorization example).

## Where the code does less than one would hope

Each of these has a run or an input that shows it, and the exact condition.

* `terminator_seed_inc` publishes the seed before it adds to the count
  (`src/bocpy/boc_terminator.c:97-104`), so a `terminator_seed_dec` in between takes one
  off the count that was never put there.  Two things can come of it.
  - With a hold out the count then reads 0, and `terminator_wait` reports quiescence while
    a behavior is unfinished: `Quiescence.QuietTooEarly` is such a run.
    `Quiescence.UnfinishedIff` gives the exact condition in every state;
    `Terminator.OverlapIff` says which step brings it about, and
    `Quiescence.ApartZeroIsQuiet` and `Quiescence.ZeroIsQuiet` that in runs without that
    step a count of 0 means what it should.
  - With no hold out the count goes to -1; a waiter that looks then sleeps, and the
    increment back to 0 broadcasts nothing: `Terminator.OverlapStrands` is such a run.
    `Terminator.WakeupLostIff` says exactly which step loses a wakeup;
    `Terminator.SerialRunsWakeful` proves that none is lost when seed operations and
    resets do not overlap.

  Both need a free-threaded build: the callers of the two operations
  (`src/bocpy/_core.c:954-990`) run on the primary interpreter and do not release its lock,
  so with that lock they cannot overlap.
* The two epoch loads at `src/bocpy/boc_sched.c:609-610` can be torn by another
  dispatcher, and the CAS then moves `UNPAUSE_EPOCH` back.
  `ParkingEpochs.TornLoadsStrand` is a run that ends with a worker asleep over its own
  queue and everybody else idle.  `ParkingEpochs.LowersIff` says which step does the harm:
  a successful CAS whose PAUSE_EPOCH is less than the value it replaces.
  `ParkingEpochs.NoSleepOverWork` proves the guarantee for every run without that step.
* `nb_pin_cowns` releases the caller's references when an item of the list is bad, but
  not when memory runs out, and its caller can no longer release them
  (`src/bocpy/boc_noticeboard.c:169-174`).  `Noticeboard.Board.PinCowns` states both.
* `stop_workers` gives up after 64 rounds (`src/bocpy/behaviors.py:852-873`).  After k
  rounds exactly the behaviors of level k and more are left, where the level of a
  behavior is the largest number of changes from an unpinned to a pinned one along a
  path of waiting behaviors to it.  So the loop converges if and only if no level exceeds
  62 (`ShutdownDrain.Runtime.StopDrain`, and on the requests themselves
  `CownDrain.StopProtocol`).  `CownSchedules.StopLeavesWork` has, for every n from 128 on,
  a run from the start that schedules n behaviors, of which stop_workers leaves the last
  undrained.
* The sieve keeps the candidate 1, which is not prime (`examples/prime_factor.py:92-101`).
  Only primes are kept if and only if the range starts at 2 or later
  (`SieveLanes.RangeKeepsPrimesIff`), which the range of `main` always does when it can be
  drawn from (`SieveLanes.MainKeepsPrimes`).

One more thing is not as one might expect, and harmless.  Along a chain of schedulers that
spin, the cown waited at need not rise: `CownSpinning.SameCownSpins` is a run in which two
spin on the same cown, one behind the other.  `CownLiveness.SpinClimbs` says when it does
rise, and `CownLiveness.SpinEnds` that following the chain always ends.

## Model

| member | source | states |
|---|---|---|
| `CreateRequests.BuildRequests` | src/bocpy/_core.c:3801-3864 | For any arguments, repeats included: one request per distinct cown, sorted by address; the count the capsule was built with, less one per repeat, is the number of requests plus one; no repeat brings it to 0 early. |
| `CreateRequests.SortByTarget` | src/bocpy/_core.c:3849 | Sorting in place leaves a strictly increasing array with the same requests. |
| `CownTheorems.RunsKeepInv` | src/bocpy/_core.c:3936-3980 | The invariant of the scheduling protocol holds in every state of every run: any number of schedulers and releasers, any interleaving of their atomic steps. |
| `CownSteps.ScheduleInv` | src/bocpy/_core.c:4782-4822 | Each atomic step of a scheduling thread, from the exchange on `last` to the final count, keeps the invariant. |
| `CownRelease.RunInv` | src/bocpy/_core.c:3883-3906 | Each atomic step of a running and releasing thread, from the pop to the freeing of its requests, keeps it. |
| `CownTheorems.DispatchedHeadsAll` | src/bocpy/_core.c:3753-3764 | A behavior whose count reached 0 has finished both phases and, until it releases, stands at the head of every one of its queues. |
| `CownTheorems.MutualExclusion` | src/bocpy/_core.c:4741-4773 | No two behaviors own the same cown. |
| `CownTheorems.ExactlyOnce` | src/bocpy/_core.c:3753-3764 | Every behavior is put on a run queue at most once, only with nothing left to wait for, and by the time it finishes exactly once. |
| `CownTheorems.Serializable` | src/bocpy/_core.c:3955-3966 | If one behavior is linked before another on any cown, it comes earlier in one global order, though each links its cowns one exchange at a time. |
| `CownTheorems.Acyclic` | src/bocpy/_core.c:4782-4814 | The union of the orders on all cowns has no cycle of any length. |
| `CownTheorems.SameOrder` | src/bocpy/_core.c:4782-4814 | Two behaviors stand in the same order on every cown they share, even while both are still linking. |
| `CownLiveness.SpinClimbs` | src/bocpy/_core.c:4807-4811 | Whoever a scheduler spins on is still scheduling; if it spins too, it is on a cown no lower, and on a higher one if and only if it has finished linking this one; and it is further ahead in this queue. |
| `CownLiveness.SpinEnds` | src/bocpy/_core.c:4807-4811 | From any scheduling thread, following the spins leads to one that can move. |
| `CownSpinning.SameCownSpins` | src/bocpy/_core.c:4807-4811 | A run from the start in which three behaviors link to one cown, and the third spins on the second while the second spins on the first. |
| `CownLiveness.ReleaseSpinHasPublisher` | src/bocpy/_core.c:4752-4761 | A releaser spinning on `next` always faces a scheduler that is enabled and about to publish it. |
| `CownLiveness.Progress` | src/bocpy/_core.c:4741-4822 | Deadlock freedom: while any behavior is unfinished, some thread can take a step. |
| `CownTermination.StepDrops` | src/bocpy/_core.c:3936-3980 | Every step that schedules nothing new lowers a bound on the steps that remain, for all behaviors together. |
| `CownTermination.EverythingFinishes` | src/bocpy/_core.c:3883-3906 | Once nothing new is scheduled the number of steps is bounded, and where no thread can move all behaviors ran exactly once, all were freed, and the terminator is 0. |
| `CownReclamation.SafeReclamation` | src/bocpy/_core.c:4695-4701 | No step of any thread touches a freed request or a freed behavior. |
| `CownReclamation.SpinsOnLive` | src/bocpy/_core.c:4807-4811 | Nor do the polls of a spinning thread: what it reads is still allocated. |
| `CownReclamation.SuccessorCounted` | src/bocpy/_core.c:4794-4803 | The behavior reference owned by `prev->next` is counted before it can be dropped, though `next` is published before the increment. |
| `CownReclamation.FreedOnce` | src/bocpy/_core.c:4679-4701 | No request and no behavior is freed twice, nor while referenced. |
| `CownReclamation.AllFreed` | src/bocpy/_core.c:4679-4701 | When all threads are done every request and every behavior has been freed: nothing leaks. |
| `CownReclamation.NextUnsetAtPublish` | src/bocpy/_core.c:4799 | The assertion that `prev->next` is still NULL always holds. |
| `CownReclamation.QuiescenceIsReal` | src/bocpy/worker.py:36-69 | When no hold is out no behavior is linked, queued, pending or running, and every cown's `last` is NULL. (What TERMINATOR_COUNT says about the holds: `Quiescence`.) |
| `CownReclamation.HeldWhileUnfinished` | src/bocpy/behaviors.py:1878-1885 | While a scheduled behavior is unfinished a hold is out, so a child's hold is in place before the parent's goes. |
| `CownRefinement.StepRefines` | src/bocpy/_core.c:4741-4822 | Each atomic step is a step of a specification in which every cown is a FIFO queue of behaviors and a behavior starts when it heads all of its queues, or changes nothing the specification sees. |
| `CownRefinement.StartsEmpty` | src/bocpy/_core.c:3936-3950 | The initial state stands for empty queues. |
| `CownRefinement.RunRefines` | src/bocpy/_core.c:4741-4822 | Every run of the threads is a run of the FIFO specification. |
| `CownDrain.QueuedIff` | src/bocpy/_core.c:4741-4773 | With nobody inside the protocol, a behavior is on a run queue if and only if no unfinished behavior it shares a cown with comes before it. |
| `CownDrain.ReadyIff` | src/bocpy/behaviors.py:1483-1544 | The behaviors queued in such a state are exactly those the shutdown drain's schedule calls ready. |
| `CownDrain.HoldsLeft` | src/bocpy/worker.py:65-69 | In such a state as many holds are out as behaviors are unfinished, which the drain has to bring to 0. |
| `CownDrain.DrainOne` | src/bocpy/behaviors.py:1528-1538 | Take any behavior the schedule calls ready and let the thread that drains it make its steps on the requests, which it always can, to the end: the protocol is settled again, that behavior alone is gone, its hold is dropped, and the schedule is otherwise what it was. |
| `CownDrain.DrainRun` | src/bocpy/behaviors.py:1483-1544 | So whatever order a drain takes on the schedule, the protocol takes step by step on its requests, and ends settled with what the schedule has left and a hold for each. |
| `CownDrain.StopProtocol` | src/bocpy/behaviors.py:852-873 | stop_workers on any settled state, whatever the order of its queues: the drained behaviors' own steps lead to a settled state in which exactly the levels not reached are unfinished; all behaviors have finished if and only if every level plus 2 fits the cap. |
| `CownSchedules.AnyList` | src/bocpy/_core.c:3936-3980 | Whatever lists of cowns behaviors are scheduled with one after the other, a run from the start leads to a settled state with exactly these behaviors left, in that order. |
| `CownSchedules.StopLeavesWork` | src/bocpy/behaviors.py:865-873 | For every n from 128 on, a run from the start with n behaviors that share a cown, every other one with a pinned cown too, after which stop_workers makes its 64 rounds and leaves the last behavior unfinished and its hold out. |
| `CownValues.AcquireSucceeds` | src/bocpy/_core.c:1652-1737 | Where value exclusivity holds, every acquire by a dispatched behavior succeeds: the cown is unowned, or owned already by this very behavior (a repeated argument), or pinned and this is the main interpreter. |
| `CownValues.ReleaseSucceeds` | src/bocpy/_core.c:1742-1799 | Every release by the running behavior succeeds, repeats included. |
| `CownValues.ReleasedBeforeHandoff` | src/bocpy/worker.py:56-64 | By the time a behavior hands its cowns on, nobody owns them. |
| `CownValues.MoveKeeps` | src/bocpy/worker.py:36-69 | Value exclusivity is kept by every move of every thread: scheduling, popping, acquiring, running, releasing, unlinking. |
| `CownValues.OthersRefused` | src/bocpy/_core.c:1652-1799 | For any cown and owners: once an interpreter has it, every other's acquire and release is refused and names the cause, its own release gives it back, and no other cown's owner has changed. |
| `CownValues.PinnedFlag` | src/bocpy/_core.c:3649-3679 | The header flag gathered over the arguments is set if and only if one of them is pinned. |
| `CownValues.RunsKeepValues` | src/bocpy/worker.py:36-69 | Value exclusivity holds in every state of every run from the start. |
| `CownValues.RunsNeverFail` | src/bocpy/_core.c:1652-1799 | In every run no acquire and no release by a dispatched behavior ever fails. |
| `CownBodies.BodyHasAll` | src/bocpy/_core.c:1652-1737 | In every run, when a body is about to run every cown it uses is its own: acquired for it by the interpreter it runs on, or pinned, and then that is the main one. |
| `CownBodies.BodiesApart` | src/bocpy/worker.py:36-64 | Two bodies at work at once use no cown in common, and each has all of its own. |
| `CownBodies.Executes` | src/bocpy/worker.py:36-64 | Whatever the others hold, a queued behavior popped where it may be can acquire all it uses, run its body and release everything on its own, and that leaves every cown's owner as it was; it can then end as soon as the calls made from its body have returned. |
| `CownRuntime.Runtime.WhenCall` | src/bocpy/behaviors.py:1878-1882 | Builds the capsule and takes the terminator hold before anything is linked; keeps the invariant. |
| `CownRuntime.Runtime.ExchangeLast` | src/bocpy/_core.c:4784-4786 | The exchange on `last`, as a step of the model. |
| `CownRuntime.Runtime.Publish` | src/bocpy/_core.c:4799-4800 | The store to `prev->next`, of which nothing was stored before. |
| `CownRuntime.Runtime.CasLastToNull` | src/bocpy/_core.c:4743-4749 | The CAS that gives a cown up with no successor, or finds there is one. |
| `CownRuntime.Runtime.ResolveNext` | src/bocpy/_core.c:4765 | The handoff: the successor's count goes down, and at 0 this thread must dispatch it. |
| `CownRuntime.Runtime.Schedule` | src/bocpy/_core.c:3936-3980 | The next operation of a scheduling thread changes the fields exactly as the step of the model, and keeps the invariant. |
| `CownRuntime.Runtime.Run` | src/bocpy/_core.c:3883-3906 | The same for the thread that runs and releases. |
| `CownRuntime.Runtime.Interleave` | src/bocpy/_core.c:3936-3980 | Any schedule of any threads keeps the invariant. |
| `QueueRuns.StepKeeps` | src/bocpy/boc_sched.c:22-141 | Each atomic step of each queue function keeps the run queues' invariant, with any number of threads inside them. |
| `QueueRuns.RunsKeepInv` | src/bocpy/boc_sched.c:22-141 | The invariant holds in every state of every run. |
| `QueueTheorems.Conservation` | src/bocpy/boc_sched.c:562-623 | Every node ever given to dispatch is in exactly one place, once: a queue, a segment with its gaps, a local variable, `pending`, or handed to a runner. |
| `QueueTheorems.OnceOut` | src/bocpy/_core.c:5440-5473 | A node handed to a runner is never queued or handed out again by any step. |
| `QueueTheorems.HandedOutForGood` | src/bocpy/_core.c:5440-5473 | Nor over any run. |
| `QueueTheorems.NoPendingWrite` | src/bocpy/boc_sched.c:69-103 | Once a node has been returned by a queue function no thread is about to store into it. |
| `QueueTheorems.CellStillNull` | src/bocpy/boc_sched.c:49 | The assertion in enqueue_segment always holds, and no two enqueuers hold the same cell. |
| `QueueTheorems.RefinesFifo` | src/bocpy/boc_sched.c:37-123 | Each step of the pointer code is a step of a FIFO sequence ordered by the exchange on `back`: append, pop, pop all, push front, or nothing. |
| `QueueTheorems.DequeueResult` | src/bocpy/boc_sched.c:69-103 | A dequeue returns the node it popped; one that returns NULL changed nothing and put the front back. |
| `QueueTheorems.FirstInFirstOut` | src/bocpy/boc_sched.c:37-103 | Over any run without enqueue_front, what came out followed by what is left is what went in, in order. |
| `QueueTheorems.QuietQueues` | src/bocpy/boc_sched.c:143-146 | With nobody inside a queue function every queue is a complete list from `front` to `back`. |
| `QueueMisses.NullHasCause` | src/bocpy/boc_sched.c:22-123 | In every run, a dequeue or dequeue_all that returns NULL had cause to: at some moment of the call the queue was empty, another thread had its front, or an enqueuer stood between its exchange on `back` and its link. |
| `QueueMisses.LoneTakes` | src/bocpy/boc_sched.c:69-123 | With nobody else at it, a dequeue brings the first node of the queue and dequeue_all the whole of it in order; and nothing if and only if it is empty. |
| `QueueMisses.LoneEnqueue` | src/bocpy/boc_sched.c:37-56 | With nobody else at it, an enqueue puts the node behind the others, link and all. |
| `PinnedRouting.RouteKeeps` | src/bocpy/boc_sched.c:578-607 | Every step of code that tests the header only in dispatch keeps a pinned node on its way to the pinned queue, in it, with the main thread or handed out, and keeps every other node out of there, whatever other threads are in the middle of. |
| `PinnedRouting.RunsRouted` | src/bocpy/boc_sched.c:578-607 | So it is in every state of every such run. |
| `PinnedRouting.PinnedToMain` | src/bocpy/_core.c:4498-4508 | Whoever hands out a pinned node is the main thread. |
| `PinnedRouting.PumpedPinned` | src/bocpy/_core.c:4498-4508 | What the main thread dequeues is pinned, and no token. |
| `PinnedRouting.KeptFree` | src/bocpy/boc_sched.c:660-707 | No pinned node is in a segment that was stolen or in a `pending` slot. |
| `PinnedRouting.DequeuedFree` | src/bocpy/boc_sched.h:540-549 | Nor in any worker's queue. |
| `PinnedDispatch.PopAllowed` | src/bocpy/boc_sched.c:578-580 | With protocol and run queues side by side, whatever a thread hands out is a queued behavior, and if its header is flagged the thread is the main one: the guard of a pop follows from the routing. |
| `PinnedDispatch.ActKept` | src/bocpy/boc_sched.c:562-623 | Every step of either keeps them in agreement: a behavior has a node from its dispatch on, and the node is with a runner exactly once it was popped. |
| `PinnedDispatch.GiveAllowed` | src/bocpy/_core.c:3749-3757 | Whenever the protocol dispatches a behavior, its embedded node is nowhere in the run queues yet, so every thread that holds nothing can give it to boc_sched_dispatch. |
| `PinnedDispatch.RunsAllowed` | src/bocpy/boc_sched.c:578-580 | In every run from the start every pop is one the protocol allows; no worker ever gets a behavior with a pinned argument. |
| `Scheduler.RunQueues.Advance` | src/bocpy/boc_sched.c:22-123 | One atomic operation on the shared cells: what it does to the thread that performs it, to its log of effects, and nothing to the other threads. A miss is logged only when the queue is empty, its front is another thread's, or an enqueuer is between its exchange and its link; or when one has come in since the link was found unset. |
| `Scheduler.RunQueues.Interfere` | src/bocpy/boc_sched.c:22-123 | Any steps of any other threads leave what a thread holds alone. |
| `Scheduler.RunQueues.BqEnqueue` | src/bocpy/boc_sched.c:53-56 | The node is appended to the queue exactly once, at a moment between call and return. |
| `Scheduler.RunQueues.BqEnqueueSegment` | src/bocpy/boc_sched.c:37-51 | A whole segment, missing links and all, is appended exactly once. |
| `Scheduler.RunQueues.BqDequeue` | src/bocpy/boc_sched.c:69-103 | The node popped; or NULL and nothing popped, and then the thread found that there was nothing it could take (`Scheduler.RunQueues.Advance`: what that means). |
| `Scheduler.RunQueues.BqDequeueAll` | src/bocpy/boc_sched.c:105-123 | Everything that was in the queue at one moment, in order; or nothing, for the same reason. |
| `Scheduler.RunQueues.SegmentTakeOne` | src/bocpy/boc_sched.c:125-141 | The first node of the segment; or NULL with the segment unchanged, because it is the only node or the link after it is not there yet. |
| `Scheduler.RunQueues.BqIsEmpty` | src/bocpy/boc_sched.c:143-146 | Empty if and only if the queue was, at the moment of the load. |
| `Scheduler.RunQueues.ReturnToken` | src/bocpy/boc_sched.c:448-454 | A worker whose flag was seen set puts its token back once; it was in no queue. |
| `Scheduler.RunQueues.Give` | src/bocpy/_core.c:3753-3764 | A behavior whose count reached 0 is in the hand of the thread that dispatches it. |
| `WorkStealing.Worker.WsqEnqueue` | src/bocpy/boc_sched.h:526-529 | The node lands on the target's sub-queue that the cursor, as it was loaded, selects. |
| `WorkStealing.Worker.WsqDequeue` | src/bocpy/boc_sched.h:540-549 | The cursor goes on to the first own sub-queue that yields a node, which is popped; or once around, and each sub-queue was looked at and had nothing to take. |
| `WorkStealing.Worker.EnqueueSpread` | src/bocpy/boc_sched.h:586-597 | The whole segment is laid on the thief's own sub-queues, in order and node by node; only what is behind a missing link goes as a segment. |
| `WorkStealing.Worker.TrySteal` | src/bocpy/boc_sched.c:660-707 | The next victim's sub-queue at the steal cursor is emptied and all of it but the result is laid down, in order, on the thief's own queues, the result being its first node unless the link after that is missing; or there was nothing to take from it; or the victim is the thief, and the cursor goes on. |
| `WorkStealing.VictimsAll` | src/bocpy/boc_sched.c:660-669 | As many attempts as there are workers turn to each of them. |
| `WorkStealing.Worker.Steal` | src/bocpy/boc_sched.c:735-769 | The queues lose exactly the node returned, over any number of rounds; with other workers there, and unless told to stop, it returns nothing only after its own queues were looked at in vain and a whole round of victims had nothing it could return. |
| `WorkStealing.Worker.PopFast` | src/bocpy/boc_sched.c:518-560 | `pending` while the batch lasts; else nothing if the fairness flag is up and there is work; else the front of one of its own queues, or, when all of them were looked at in vain, `pending`. What leaves is what is returned, and the batch is set as in the source. |
| `WorkStealing.Worker.FairnessArm` | src/bocpy/boc_sched.c:442-458 | A steal, with all that `WorkStealing.Worker.Steal` says of it, and then the token goes back once. |
| `WorkStealing.Worker.PopSlowTurn` | src/bocpy/boc_sched.c:442-475 | One turn: if the flag is up the token goes back once, unless the worker's own queues are found empty; a node straight from `pending`, or from its own queues, starts the batch again; and nothing is returned only with `pending` free, after its own queues were looked at in vain and, unless told to stop, a round of victims was made. |
| `WorkStealing.Worker.PopSlow` | src/bocpy/boc_sched.c:436-480 | What left `pending` and the queues is what was returned; besides, the token went back once per fairness turn. Whenever others ask it to stop: without a behavior it returns only once told to, at once and with nothing moved if it was told before; if not, a node in `pending` does not keep it waiting. |
| `WorkStealing.Worker.Dispatch` | src/bocpy/boc_sched.c:578-607 | As the header says: a pinned behavior goes to the pinned queue; any other to `pending`, and what was there to one of the worker's own sub-queues. |
| `WorkStealing.Producer.Dispatch` | src/bocpy/boc_sched.c:578-607 | Off the pool: one append, to the workers in turn, or to the pinned queue if the header says so. |
| `WorkStealing.Worker.WorkerPop` | src/bocpy/_core.c:5440-5473 | What left `pending` and the queues is the tokens popped and the behavior returned; a token is never handed out, and `WorkStealing.Worker.PopOnce` says that it sets its owner's flag; a behavior is so once, for good, and is never a pinned one; what was in `pending` comes out first while the batch lasts, and something comes out then unless it was told to stop; none is returned only when told to, or when as many tokens were popped as the caller allows. |
| `WorkStealing.Pump.PumpOne` | src/bocpy/_core.c:4495-4508 | The pump takes one behavior off the pinned queue, which is pinned, and hands it out; or there is none it could take. |
| `WorkStealing.StolenNet` | src/bocpy/boc_sched.c:681-706 | For every node, a steal takes out of the queues what it returns and nothing else. |
| `Starvation.LoneWorker.WsqDequeue` | src/bocpy/boc_sched.h:540-549 | The loop over the sub-queues takes the front of the first one after the cursor that is not empty, as the specification function says. |
| `Starvation.LoneWorker.PopNext` | src/bocpy/_core.c:5452-5458 | pop_fast, and pop_slow when it finds nothing, are the specification function `Pop`, which the bounds are about. |
| `Starvation.PopLocal` | src/bocpy/boc_sched.c:523-530 | A pop from `pending` while the queues hold work empties it, costs credit and moves nobody. |
| `Starvation.PopBatch` | src/bocpy/boc_sched.c:523-553 | While the batch lasts `pending` comes straight out and uses up one of it; whatever else is popped starts the batch again. |
| `Starvation.PopQueued` | src/bocpy/boc_sched.h:540-549 | A pop from the queues returns the front of a sub-queue and brings every other queued node nearer to its turn. |
| `Starvation.PopNone` | src/bocpy/boc_sched.c:436-475 | A pop finds nothing if and only if there is nothing in the queues and in `pending`. |
| `Starvation.PopConserves` | src/bocpy/boc_sched.c:436-560 | What a pop returns has left `pending` or the queues, and nothing else has; the token has come back if and only if the fairness arm was gone through. The flag goes down there, and comes up when the token is popped. |
| `Starvation.RunConserves` | src/bocpy/boc_sched.c:436-560 | Over any run what was popped, with what is left, is what there was, with what came in: nothing is lost or served twice. |
| `Starvation.PendingStreak` | src/bocpy/boc_sched.c:523-535 | In any stretch of a run in which every pop came from `pending` while the queues held work there are at most 2 * BATCH + 1 pops, whatever is dispatched meanwhile. |
| `Starvation.ServedWithin` | src/bocpy/boc_sched.h:540-549 | In any run with enough pops, one of the first N * (p + 1) * (2 * BATCH + 2) takes the node at depth p out of its sub-queue and returns it, whatever is dispatched meanwhile. |
| `Parking.StepKeeps` | src/bocpy/boc_sched.c:391-434 | The condvar mutexes and the progress of a stop request are sound after every step, torn loads or not. |
| `Parking.StopReturns` | src/bocpy/boc_sched.c:421-434 | When request_stop_all returns every worker has been told, and none is asleep or on its way. |
| `Parking.StopLasts` | src/bocpy/boc_sched.c:499-501 | And it stays that way. |
| `ParkingEpochs.EpochsKeep` | src/bocpy/boc_sched.c:482-513 | The epoch invariant is kept by every other step, however the dispatchers interleave. |
| `ParkingEpochs.LowersIff` | src/bocpy/boc_sched.c:611-613 | A step lowers UNPAUSE_EPOCH if and only if it is a successful CAS with a PAUSE_EPOCH less than the value replaced. |
| `ParkingEpochs.NoSleepOverWork` | src/bocpy/boc_sched.c:596-620 | In runs without a step that lowers UNPAUSE_EPOCH it never passes PAUSE_EPOCH, and no worker sleeps over work in its own queues unless an off-pool dispatcher has still to signal it. |
| `ParkingEpochs.NoneAsleepAfterStop` | src/bocpy/boc_sched.c:421-434 | In every run, once request_stop_all has returned no worker is ever asleep again. |
| `ParkingRing.RoundIff` | src/bocpy/boc_sched.c:609-615 | A dispatcher goes round the ring if and only if it wins the CAS. |
| `ParkingRing.RoundWakesAll` | src/bocpy/boc_sched.c:400-419 | In every run, torn loads or not: whoever sleeps when a dispatcher wins the CAS has left its sleep by the time that dispatcher's round is over, though only workers with a parked flag are signalled. |
| `ParkingRing.RingIff` | src/bocpy/boc_sched.c:411-418 | The round comes to every worker, and to each once. |
| `ParkingRing.DispatchWakes` | src/bocpy/boc_sched.c:616-620 | In every run an off-pool dispatch that is over has woken its target, whether it won the CAS or not. |
| `ParkingRing.LoneParks` | src/bocpy/boc_sched.c:477-513 | A worker that finds no work and is not told to stop does not go on looking: left alone it falls asleep. |
| `ParkingEpochs.TornLoadsStrand` | src/bocpy/boc_sched.c:609-612 | A run with one such step that ends with a worker asleep over its own queue and all others idle. |
| `Terminator.StepKeeps` | src/bocpy/boc_terminator.c:32-116 | COUNT is always SEEDED, plus the holds granted, corrected for each thread halfway through an operation and for what resets forgot; the mutex is held by whoever should hold it. |
| `Terminator.NoHoldAfterClose` | src/bocpy/boc_terminator.c:32-49 | After close, and until a reset opens it, no hold is granted in any run. |
| `Terminator.WakeupLostIff` | src/bocpy/boc_terminator.c:51-59 | After any step, a waiter that has what it waits for still has a broadcast to come, if and only if the step is not one that raises the count from -1 to 0 past a sleeper. |
| `Terminator.SerialRunsWakeful` | src/bocpy/boc_terminator.c:83-116 | In every run whose seed operations and resets do not overlap no wakeup is lost, with COUNT exact. |
| `Terminator.ExactNonNegative` | src/bocpy/boc_terminator.c:83-104 | Then COUNT is never negative, and at 0 no hold is out and no operation is halfway. |
| `Terminator.TooEarlyIff` | src/bocpy/boc_terminator.c:83-104 | In every reachable state a hold is out if and only if COUNT, plus the seed_inc that are halfway, plus what resets forgot, exceed the seed and the other operations that are halfway; so COUNT can read 0 with a hold out exactly then. |
| `Terminator.OverlapIff` | src/bocpy/boc_terminator.c:83-104 | The one step that lets a seed_inc be halfway without its seed is a seed_dec that takes the seed in between. |
| `Terminator.OverlapStrands` | src/bocpy/boc_terminator.c:97-104 | A run in which seed_inc and seed_dec overlap and a waiter sleeps for good on a count of 0. |
| `TerminatorCalls.DecidesIff` | src/bocpy/boc_terminator.c:63-153 | A waiter makes up its mind to return for a reason by the look that finds it, and by no other step: the count at 0, something to pump, or its deadline. |
| `TerminatorCalls.ReturnSaw` | src/bocpy/boc_terminator.c:63-153 | In every run a wait that returns has looked, in that very call, and found what it returns for: the count at 0 if it reports termination. |
| `TerminatorCalls.WaitDoes` | src/bocpy/boc_terminator.c:63-153 | Left alone a wait returns if the count is 0, or, for the pumpable one, if there is something to pump; and falls asleep if not. |
| `TerminatorCalls.IncDoes` | src/bocpy/boc_terminator.c:32-49 | Left alone terminator_inc takes a hold and counts it, if and only if the terminator is not closed. |
| `TerminatorCalls.DecDoes` | src/bocpy/boc_terminator.c:51-59 | Left alone terminator_dec drops a hold, and wakes everybody exactly when the count comes to 0. |
| `TerminatorCalls.SeedDecDoes` | src/bocpy/boc_terminator.c:83-95 | Left alone seed_dec takes the seed and its share of the count, if there is one, and wakes everybody exactly when that brings the count to 0. |
| `TerminatorCalls.SeedIncDoes` | src/bocpy/boc_terminator.c:97-104 | Left alone seed_inc puts a seed and its share of the count in, if there is none. |
| `TerminatorCalls.ResetDoes` | src/bocpy/boc_terminator.c:106-116 | Left alone reset leaves the seed alone on the count, the terminator open, and nobody asleep. |
| `TerminatorCalls.ClosedFrom` | src/bocpy/boc_terminator.c:61 | In every run, from the close on, until a reset opens it, the terminator is closed and no hold is granted. |
| `Quiescence.RunsKeepInv` | src/bocpy/behaviors.py:1878-1885 | In every run of protocol and counter side by side, each hold granted and dropped by the counter's own code, the counter's holds are the protocol's. |
| `Quiescence.UnfinishedIff` | src/bocpy/boc_terminator.c:63-81 | In every such state some behavior is unfinished if and only if COUNT and the seeds half put in, plus what resets forgot, exceed the seed and what else is halfway. |
| `Quiescence.ZeroIsQuiet` | src/bocpy/behaviors.py:1235-1252 | In every run whose seed operations and resets do not overlap: at COUNT 0 no behavior is linked, queued, pending or running and every `last` is NULL; while any is unfinished COUNT is positive. |
| `Quiescence.ReportIsQuiet` | src/bocpy/boc_terminator.c:63-81 | In such runs a wait that reports quiescence looked, during its call, at a state in which no behavior was linked, queued, pending or running. |
| `Quiescence.UnfinishedWaits` | src/bocpy/boc_terminator.c:63-81 | And while any is unfinished a wait that looks does not. |
| `Quiescence.ApartZeroIsQuiet` | src/bocpy/behaviors.py:1275-1282 | In every run without a reset in which no seed_dec takes the seed of a seed_inc that is halfway, a COUNT of 0 or less means the same. |
| `Quiescence.QuietTooEarly` | src/bocpy/boc_terminator.c:63-81 | A run with such an overlap in which COUNT is 0 and terminator_wait is about to return true while a behavior has not even run. |
| `Rundown.Counter.IncOp` | src/bocpy/boc_terminator.c:32-49 | terminator_inc on the static variables, one operation at a time, is the step of the model. |
| `Rundown.Counter.DecOp` | src/bocpy/boc_terminator.c:51-59 | terminator_dec: the subtraction, and at 0 the broadcast still to come. |
| `Rundown.Counter.UndoOp` | src/bocpy/boc_terminator.c:37-46 | The undoing of an increment that lost to a close, which broadcasts at 0. |
| `Rundown.Counter.SeedDecOp` | src/bocpy/boc_terminator.c:83-95 | The exchange on the seed, and only then the count. |
| `Rundown.Counter.SeedIncOp` | src/bocpy/boc_terminator.c:97-104 | The CAS on the seed, and only then the count. |
| `Rundown.Counter.WaitOp` | src/bocpy/boc_terminator.c:63-81 | The wait loops, with and without the pump. |
| `Rundown.Counter.ResetOp` | src/bocpy/boc_terminator.c:106-116 | terminator_reset, store by store. |
| `Rundown.Counter.Advance` | src/bocpy/boc_terminator.c:32-153 | The next operation of any thread changes the variables as the step of the model does, and keeps the invariant. |
| `ShutdownDrain.PathLevel` | src/bocpy/behaviors.py:848-850 | The level of a behavior bounds the changes from unpinned to pinned along every path of unfinished behaviors, each waiting for the one before, that leads to it. |
| `ShutdownDrain.LevelPath` | src/bocpy/behaviors.py:848-850 | And some such path attains it. |
| `ShutdownDrain.Runtime.ReleaseAll` | src/bocpy/behaviors.py:1528 | Releasing a behavior drops one hold and dispatches, each to its queue, exactly those that no longer wait. |
| `ShutdownDrain.Runtime.PumpDrain` | src/bocpy/_core.c:4608-4646 | In round r the pump drain ends and drains exactly the pinned behaviors of level r, and counts them. |
| `ShutdownDrain.Runtime.OrphanDrain` | src/bocpy/behaviors.py:1483-1544 | The orphan drain ends and leaves exactly the behaviors of a higher level, and counts what it drained. |
| `ShutdownDrain.Runtime.DrainOnce` | src/bocpy/_core.c:5496-5531 | One pass over everything queued, each behavior released once. |
| `ShutdownDrain.Runtime.StopDrain` | src/bocpy/behaviors.py:852-873 | After k rounds exactly the behaviors of level k and more are left; the loop converges, with every chain empty and every hold dropped, if and only if the highest level plus 2 fits the cap of 64, and then in that many rounds. |
| `ShutdownDrain.LeavesWork` | src/bocpy/behaviors.py:865-873 | With 128 behaviors that share a cown, every other one with a second cown that is pinned and each flagged as its cowns say, the loop stops at its cap with work and holds left. |
| `NoticeboardRows.AcceptedIff` | src/bocpy/boc_noticeboard.c:220-250 | A key is accepted if and only if the C string in the 64-byte buffer it is copied to is that key; too long means 64 bytes or more. |
| `NoticeboardRows.KeysCompare` | src/bocpy/boc_noticeboard.c:235 | strncmp over the stored buffers is equality of the keys that are accepted. |
| `Noticeboard.Board.PinCowns` | src/bocpy/boc_noticeboard.c:149-216 | When it succeeds the references pass to the array; a bad item releases exactly those the list names; when memory runs out none is released. |
| `Noticeboard.Board.Write` | src/bocpy/boc_noticeboard.c:218-290 | Rejected, full or done; done puts the row, with its pickled flag, in the place of the old one or behind the others, updates the map at that key alone and moves the version on; on every path the caller's pins are used up exactly once. |
| `Noticeboard.Board.Delete` | src/bocpy/boc_noticeboard.c:292-342 | Removes one key from the map, keeps the others in order, releases exactly its pins. |
| `Noticeboard.Board.Clear` | src/bocpy/boc_noticeboard.c:344-381 | Leaves an empty map at a new version and releases every pin once. |
| `Noticeboard.Board.NextBehavior` | src/bocpy/boc_noticeboard.c:147 | A behavior boundary: the cached snapshot must be checked again. |
| `Noticeboard.Board.Snapshot` | src/bocpy/boc_noticeboard.c:383-556 | Within one behavior always the same map, and it was the board's contents at the version recorded with it, since the behavior began and, if it is the behavior's first, during the call; the cached map if the version is still current. It fails if and only if one of the allocations and decodings it makes does, and then keeps no reference and no cache. |
| `Noticeboard.Board.Collect` | src/bocpy/boc_noticeboard.c:414-470 | Under the mutex each row goes into the dict or, with its cowns kept alive, among those to decode; it succeeds if and only if nothing it tries fails. |
| `Noticeboard.Board.Decode` | src/bocpy/boc_noticeboard.c:472-527 | Decoding outside the mutex, with others at work: every cown a value refers to is alive, the result is the contents at collection, it fails if and only if a decoding does, and all keepalives are released on every path. |
| `Arguments.FlattenArgs` | src/bocpy/behaviors.py:1854-1875 | Flattening fails exactly on an argument that is neither a cown nor a sequence of cowns, and else gives the signed group ids. |
| `Arguments.AcceptedIff` | src/bocpy/_core.c:3650-3697 | The range checks accept the flattened arguments if and only if no non-empty one is numbered past INT_MAX and the sizes do not overflow. |
| `Arguments.RegroupArgs` | src/bocpy/_core.c:4137-4200 | The argument tuple, filled in place, is the regrouping of the pairs followed by the captures. |
| `Arguments.RoundTrip` | src/bocpy/_core.c:4137-4200 | Whatever the arguments, single cowns and groups, empty ones too: the body gets the same slots in the same order, then the captures. |
| `Primes.NextPrime` | examples/prime_factor.py:86 | There is always another prime, which is why the extension loop ends. |
| `Sieve.RunsNest` | examples/prime_factor.py:16-21 | Of two gap-free initial runs of the primes one begins the other. |
| `Sieve.Extend` | examples/prime_factor.py:85-90 | The loop ends as soon as a gap-free run reaches the limit, with what was found behind the copy. |
| `Sieve.MergeSieve` | examples/prime_factor.py:13-39 | For any existing list and any increasing new one: the new values past the end of the old, found by binary search. |
| `Sieve.MergeKeepsRun` | examples/prime_factor.py:16-21 | Merged into whatever others merged meanwhile, the result is the longer of the two runs. |
| `Sieve.KeepCandidate` | examples/prime_factor.py:92-101 | A candidate is kept if and only if it is prime, or 1. |
| `SieveLanes.SieveLane.Work` | examples/prime_factor.py:76-107 | A batch on a private copy: a longer run that reaches past the square root of every candidate tried, and exactly the primes among them (and 1) added to what was found. |
| `SieveLanes.SharedSieve.Send` | examples/prime_factor.py:103-107 | A lane that read the board some time ago has kept exactly the primes (and 1) it tried, as many as its batch allows, and posts what it found beyond its copy, with that copy, if and only if there is any. |
| `SieveLanes.SharedSieve.Merge` | examples/prime_factor.py:105-107 | An update leaves the board at the longer run, whatever was merged since the lane read it. |
| `SieveLanes.SharedSieve.Interleave` | examples/prime_factor.py:77-107 | Lanes read, send and are merged in any order, so that others read, send and merge between any lane's read and its send: the board stays a gap-free initial run of the primes and only grows. |
| `SieveLanes.KeptPrimeIff` | examples/prime_factor.py:92-101 | A candidate is kept if and only if it was tried and is prime or 1. |
| `SieveLanes.DrawnIff` | examples/prime_factor.py:82 | The candidates that can be drawn from a range are the odd numbers in it, up to its end. |
| `SieveLanes.RangeKeepsPrimesIff` | examples/prime_factor.py:92-101 | Whatever is drawn from a range, only primes are kept, if and only if it starts at 2 or later. |
| `SieveLanes.MainKeepsPrimes` | examples/prime_factor.py:183-184 | The range main makes of a number of bits can be drawn from if and only if there are two or more, and then only primes are kept. |
| `SieveLanes.SeedIsRun` | examples/prime_factor.py:192 | The seed is a gap-free initial run of the primes. |

## Left out

- Weak memory orders: shared memory is sequentially consistent in the model.
- Failing dispatches, failing allocations in the scheduler, and a `whencall` refused by a closed terminator: the source documents chains stranded there; the model's runtime is up and dispatch succeeds.
- The result cown of a behavior is fresh, so it is never among the arguments (the dedup loop relies on it), and captures are fresh cowns.
- Serialization, XIData, pickling and interpreter creation: values are opaque; unpickling a noticeboard value may fail, a cown's serialization does not.
- Python exceptions that cut a behavior's body or a drain short; the `finally` blocks make the same steps follow.
- The message ring, the behavior registry, statistics counters, the recycle queue, the watchdog, timeouts and clocks: a deadline may pass at any time, and the duration of a steal is an arbitrary number of rounds.
- Freeing a request (the load of its `next`, the decref of that behavior, the free) and freeing a behavior are one step each: by then no other thread can reach them.
- Spinning and blocking on a mutex are steps that are enabled only once they can succeed; `CownReclamation.SpinsOnLive` covers what the spins read.
- The noticeboard's single-writer thread check, `notice_update`'s function call and `noticeboard_destroy`; what happens under the noticeboard mutex is one step.
- Pollard's rho and the command line of the prime factorization example.
- CreateRequests.SortByTarget: qsort is modelled by an in-place insertion sort with the same result; the C library's algorithm is not part of this model.
- WorkStealing.Worker.WsqEnqueue: the value loaded from the cursor is a parameter, because all producers share the cursor without a lock.
- WorkStealing.Worker.PopSlow: the round before which others ask it to stop is a parameter; a worker that is never asked and never finds anything does not return, and nothing is said of it.
- WorkStealing.Worker.WorkerPop: the number of tokens it may pop in one call is a parameter, where the source would go on for ever if tokens kept coming; what it does is stated for every such number.
- Starvation.ServedWithin: takes the queue operations as atomic, for one worker; with more, a steal can delay a node without bound.
- ShutdownDrain.Runtime.ReleaseAll: works on the serial order that `CownDrain.ReadyIff` extracts from the protocol; `CownDrain.DrainOne` does the same on the requests. A node left in the `pending` slot of a worker that stopped is a location of the run queues and is not claimed to be drained.
- PinnedRouting.RouteKeeps: the main thread's dequeues from the workers' queues, which the shutdown drain makes once the workers are gone, are not among the steps.
- Terminator.StepKeeps: the pump takes from MAIN_PINNED_DEPTH only what was added to it, while the source adds to it after the enqueue, so that a pump in between makes it wrap around for a moment; a waiter would only find it nonzero.
