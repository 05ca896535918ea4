# Monitor protocol of qubit-lock, in Dafny

This project models the condition-waiting protocol of `src/monitor`: the blocking monitor (std and parking_lot
backends share it) and the Tokio monitor. A thread that finds its predicate blocking enters a FIFO waiter registry
while it holds the state lock, releases the lock, parks on a one-shot latch, leaves the registry, reacquires the lock
and checks again. An injected Timer races the notification. The bounded queue of `examples/bounded_queue.rs` is a
client.

The model has two layers that are linked by proof.

**The step system** (`Protocol.dfy`). A `World` holds the state lock, the protected data, the registry, the latches,
the clock and any number of threads or tasks, each with a finite list of monitor calls. A call is a predicate, an
action, a bound on the wait (none, relative, absolute deadline, total budget) and what the caller notifies afterwards.
`Step` performs one atomic section of one thread, or one move of the Timer, the clock or a cancelling executor; `Exec`
runs a schedule. Predicates, actions, data and results are arbitrary, so the theorems below hold for all of them, for
any number of threads and for every interleaving.

- `Invariants.dfy`: mutual exclusion, identifier freshness, ownership of registry entries, selection at most once, no
  registration forgotten, TimerFuture discipline; kept by every step.
- `Wakeup.dfy`, `Permits.dfy`, `Stranded.dfy`: what `notify_all` and `notify_one` guarantee, and exactly when a permit
  can be stranded under `notify_one`.
- `Outcomes.dfy`, `TimerErrors.dfy`, `Timers.dfy`: the meaning of each outcome, one outcome per call, Timer errors and
  Timer wakes.
- `Runs.dfy`, `Budgets.dfy`, `Decisions.dfy`: what a thread keeps along a run, fixed budgets, and the one decision
  behind each outcome.
- `Selection.dfy`, `Provenance.dfy`: the cut of one notification, cancellation, the exits of a wait, and where signals
  come from over whole runs.
- `Programs.dfy`, `Identifiers.dfy`: outcomes belong to calls one by one, the log holds what calls returned, and when
  identifiers run out.
- `Queue.dfy`, `QueueItems.dfy`, `Shutdown.dfy`: the bounded queue over all interleavings.

**The code** (`FifoSpec.dfy`, `Answers.dfy`, `Registry.dfy`, `DualIndex.dfy`, `Interference.dfy`, `MonitorCode.dfy`,
`BlockingWaits.dfy`, `TokioWaits.dfy`). The registries are classes proved against a FIFO queue with cancellation. A
`Runner` is the thread that executes one call: its fields are the lock owner, the guard slot, the protected data, the
registry object, the latches, the TimerFuture and the clock, and each method is one atomic section on them, preceded
by an arbitrary number of steps of everybody else (`Preempt`). `Valid` says that these fields are the state at the end
of a run of the step system, so the loops of the two monitors, written as loops over these sections, can only produce
runs of the step system and inherit every theorem about them. `Environment` stands for the other threads: callers
reason from its contract, which allows every continuation of the run by foreign steps, and never from its body. What
the code cannot choose is input that it only reads: the `script` of visits by the scheduler, at each of which an
executor may say that it drops the future, and what the Timer answers to each registration. A call has no answer
(`None`) only when its script is over while it waits, and no visit may have been wasted: each was used for a step or
found the thread blocked.

Foreign code enters as a contract. The mutexes are mutually exclusive. A waiter keeps its signal until it looks (a
flag under a `Condvar` that may wake spuriously, or the stored permit of a `Notify`). A TimerFuture is bound to one
deadline, may refuse registration, never completes successfully before its deadline, may complete with an error at any
time, keeps the last waker it was polled with, takes that waker when it completes and calls it at some later moment.
The clock never goes back.

Two facts about the code bound what is claimed. An action run by a wait does not notify by itself; the caller does
(the `note` of a call). And a consumer that has been selected takes its selection with it when its future is dropped or
its Timer fails. `NotifyOneSuffices` therefore counts such losses, and `StrandsIffCanLose` says for which calls they can
happen; the `notify_all` theorems need no such provision.

## Model

| member | source | states |
|---|---|---|
| `Invariants.ReachableInv` | src/monitor/internal/blocking_monitor_guard_wait.rs:65-142 | after every schedule: one lock holder; identifiers unique and older than the counter; every registry entry owned by a live registration; no registration selected twice; every live registration active, taken or signalled; no TimerFuture misused |
| `Invariants.StepKeepsInv` | src/monitor/internal/blocking_waiter_registry.rs:48-81 | each atomic section, Timer move and cancellation keeps that invariant |
| `Invariants.StepIsGood` | src/monitor/internal/blocking_condition_wait.rs:55-58 | a step moves one thread along its control flow; data changes only by the action of a call whose predicate does not block; the registry changes only by one registration, one withdrawal or one taken prefix |
| `Invariants.QueueAfter` | src/monitor/internal/waiter_registry.rs:61-104 | a step adds to the registry at most one fresh identifier, and removes only the mover's own entry or what the mover now carries as taken |
| `Invariants.PoppedAfter` | src/monitor/internal/blocking_waiter_registry.rs:63-71 | what a notifier holds came out of the registry in order and leaves only by being signalled |
| `Wakeup.WaiterFates` | src/monitor/internal/blocking_monitor_guard_wait.rs:73-77 | in every reachable state a thread between registration and recheck is signalled, or taken by a notifier, or registered with a predicate that still blocks or a `notify_all` pending |
| `Wakeup.NoLostWakeup` | src/monitor/internal/blocking_condition_waiter.rs:94-109 | if unblocking actions are followed by `notify_all`, then when no thread can step every thread has returned or is parked, registered, on a predicate that blocks now |
| `Wakeup.QuiescentShape` | src/monitor/internal/blocking_waiter_registry.rs:55-71 | when no thread can step the lock is free and nothing taken is left unsignalled |
| `Wakeup.BlockedMeans` | src/monitor/internal/blocking_condition_waiter.rs:94-100 | the only reasons for a thread not to run: finished, parked on an unset latch, or waiting for a lock somebody else holds |
| `Wakeup.ReachableWake` | src/monitor/internal/blocking_waiter_registry.rs:63-71 | the wakeup invariant holds after every schedule, Timer errors and cancellations included |
| `Permits.NotifyOneSuffices` | src/monitor/internal/blocking_waiter_registry.rs:55-60 | producers add one permit and notify one; one-permit consumers of either kind and any timing; Timers may fail and futures may be dropped: when no thread can step, a thread that has not returned is parked, and the permits beside it are at most as many as selected consumers that ended `Cancelled` or `TimerError` without looking |
| `Permits.SafeClientsStrandNothing` | src/monitor/internal/blocking_condition_wait.rs:55-58 | if no call can arm a TimerFuture or wait as an untimed task, which its kind and timing tell, no schedule strands a permit |
| `Permits.ReachablePermits` | src/monitor/internal/blocking_condition_wait.rs:108-116 | after every schedule, while anybody is registered the permits do not outnumber pending notifications, plus selected consumers that have still to recheck, plus losses |
| `Permits.CreditsAfter` | src/monitor/internal/blocking_waiter_registry.rs:55-60 | `notify_one` hands its credit to the owner of the registration it takes; no other step loses a credit of another thread |
| `Stranded.StrandsIffCanLose` | src/monitor/tokio_monitor.rs:293-303 | for one consumer of any kind, timing, clock and horizon, a second parked one and one producer: a schedule that strands a permit exists if and only if the first can wait with a TimerFuture, or is asynchronous and waits without one |
| `Stranded.CancelStrands` | src/monitor/internal/tokio_condition_waiter_registration.rs:108-115 | every asynchronous consumer that can wait strands a permit in a schedule without Timer errors: it is selected and then dropped |
| `Stranded.ErrorStrands` | src/monitor/internal/blocking_monitor_guard_wait.rs:138-141 | every blocking consumer that can arm a TimerFuture strands a permit in a schedule in which it is selected and its Timer then fails |
| `Outcomes.TimedWaitsRefine` | src/monitor/internal/blocking_condition_wait.rs:95-117 | in every run, blocking and Tokio, relative and absolute: each outcome is an abstract decision (Ready: action on non-blocking data in one lock hold; TimedOut: predicate true of the data under the lock, budget spent and TimerFuture completed or budget zero; TimerError: registration refused now or TimerFuture completed with an error; errors leave data alone), and without an outcome data stays |
| `Outcomes.StepDecides` | src/monitor/tokio_monitor.rs:732-750 | a step decides at most one outcome, for one of the listed causes at the listed program points (a TimerError only for a refused registration or an error read from the TimerFuture), and no call returns without one |
| `Outcomes.OutcomesAreConserved` | src/monitor/internal/blocking_condition_wait.rs:108-116 | over whole runs every call ends with exactly one outcome, and the actions that ran are as many as the calls that ended Ready |
| `Decisions.OutcomeWasDecided` | src/monitor/internal/blocking_condition_wait.rs:173-183 | behind every outcome a thread gains between two moments lies one step of its own that is an abstract decision |
| `Decisions.NewOutcomeIsExplained` | src/monitor/internal/blocking_condition_wait.rs:240-249 | the outcome gained by one call is an abstract decision of that very call; its total budget, if any, was fixed to a deadline at an instant after the call was made; a timeout has spent the whole budget |
| `Decisions.TimeoutsAreNotEarly` | src/monitor/internal/blocking_condition_wait.rs:173-182 | TimedOut is decided at a clock of at least call time + budget (total), the deadline (absolute), or start + timeout, where start is the clock of a later moment at which the thread held the lock (relative) |
| `TimerErrors.TimerErrorIffSeen` | src/monitor/internal/blocking_condition_wait.rs:109-109 | over whole runs a call ends TimerError if and only if a refused registration or a poll showed it a failing Timer; the only other end of such a call is that its future is dropped, so it runs neither recheck nor action |
| `TimerErrors.SeenStaysDoomed` | src/monitor/internal/blocking_monitor_guard_wait.rs:126-141 | an error once seen is kept until it is reported |
| `TimerErrors.SoundTimerNoError` | src/monitor/internal/blocking_condition_wait.rs:181-183 | a thread whose Timer accepts every registration and never fails ends no call with TimerError |
| `Outcomes.ExpiredCheckEnds` | src/monitor/internal/blocking_condition_wait.rs:110-115 | the check after an observed deadline ends the call, Ready if and only if the predicate does not block, without registering again |
| `Budgets.BudgetIsFixed` | src/monitor/internal/blocking_condition_wait.rs:181-182 | the deadline of a TimerFuture is start plus timeout, or the given deadline, and no step moves it or the start |
| `Budgets.BudgetStartsUnderLock` | src/monitor/internal/blocking_condition_wait.rs:173-174 | the start of a relative call is the clock of a moment after the call was made at which its thread held the lock |
| `Budgets.SeenDeadlineEndsCall` | src/monitor/internal/blocking_condition_wait.rs:108-116 | over any continuation a call whose poll has seen the deadline never registers again and ends Ready or TimedOut, or is dropped |
| `Budgets.DeadlineNeverMoves` | src/monitor/internal/blocking_condition_wait.rs:95-117 | over any continuation a call keeps its first TimerFuture's deadline and its start until it is decided, and never creates another |
| `Runs.RunGrows` | src/monitor/std_monitor.rs:796-797 | along a run a thread keeps its outcomes and its call; a total budget becomes a deadline only as the clock of a moment in between plus the budget |
| `Timers.NoPollAfterCompletion` | src/monitor/internal/blocking_condition_waiter.rs:63-87 | in no run is a TimerFuture polled again after a poll returned Ready, although it is polled at up to three points per round |
| `Timers.ParkedWaiterIsInstalled` | src/monitor/internal/blocking_monitor_guard_wait.rs:126-138 | a parked timed wait has its own waiter as the last installed waker, or that waiter's wake is under way |
| `Timers.NoLostTimerWake` | src/monitor/internal/blocking_monitor_guard_wait.rs:130-135 | Timer completion followed by the wake it owes makes the parked thread runnable |
| `Timers.CompletedTimerUnparks` | src/monitor/internal/tokio_condition_waiter_registration.rs:95-104 | a Timer that has completed and delivered its wakes leaves no timed thread parked |
| `Timers.TimeUnparks` | src/monitor/internal/blocking_condition_waiter.rs:82-87 | from any parked timed wait the passing of time, the completion of its Timer and the wake it owes make the thread runnable |
| `Timers.OnlyPendingWaits` | src/monitor/internal/blocking_monitor_guard_wait.rs:126-141 | a timed call registers (blocking), lets go of the lock (blocking), stays suspended or counts as notified (Tokio), or rechecks without expiring, only in a step that has polled its TimerFuture and found it pending |
| `Selection.GoneForGood` | src/monitor/internal/waiter_registry.rs:61-67 | an identifier that has left the registry never enters it again, under any continuation, so no later notification selects it |
| `Selection.RegistrationIsFresh` | src/monitor/internal/blocking_waiter_registry.rs:48-52 | a new registration is unsignalled and in nobody's taken list: no earlier notification or Timer wake refers to it |
| `Selection.DropTouchesOnlyItself` | src/monitor/internal/blocking_waiter_registration.rs:68-74 | unconditional deregistration, also after selection, changes no other registration and no latch |
| `Selection.LateSignalIsHarmless` | src/monitor/internal/blocking_waiter_registry.rs:68-70 | one late signalling step makes runnable only the thread parked on the registration it was taken for |
| `Selection.EmptyNotification` | src/monitor/tokio_monitor.rs:294-314 | a notification on an empty registry changes nothing but its caller |
| `Selection.CutAtTake` | src/monitor/tokio_monitor.rs:306-310 | `notify_all` takes exactly the registered waiters in order, `notify_one` exactly the oldest |
| `Selection.CutIsDelivered` | src/monitor/tokio_monitor.rs:311-313 | whatever else happens, the taken waiters are signalled in order, all of them before the notification returns |
| `Selection.OnlyTakenAreSignalled` | src/monitor/internal/blocking_waiter_registry.rs:55-71 | one step latches a waiter only as the head of the list its notifier has taken |
| `Provenance.SignalsBelongToTheirWait` | src/monitor/internal/blocking_waiter_registry.rs:48-81 | over whole runs: a registration made at event i is signalled only if a notification after i found it in the registry and took it, and woken by a Timer only if the TimerFuture of its own thread completed after i with it as last waker |
| `Provenance.WakeupsAreCurrent` | src/monitor/internal/blocking_condition_waiter.rs:94-109 | a parked thread becomes runnable only through its own current registration, taken or completed since it was made |
| `Provenance.MentionedWasRegistered` | src/monitor/tokio_monitor.rs:326-335 | every identifier a thread works with, as registration or as waker, is one it registered itself |
| `Provenance.SelectedOnce` | src/monitor/internal/waiter_registry.rs:75-89 | no two notifications of a run take the same registration |
| `Selection.SuspendedHoldsNothing` | src/monitor/tokio_monitor.rs:463-469 | the three program points at which a future may be dropped (before its lock, parked, reacquiring) are never reached with the lock held, in any run |
| `Selection.CancelIsClean` | src/monitor/internal/tokio_condition_waiter_registration.rs:108-115 | dropping a future at any suspension point removes its entry and nothing else: lock, data, latches, other threads and entries stay, its action never runs |
| `Selection.WaitExits` | src/monitor/internal/blocking_monitor_guard_wait.rs:73-77 | whenever a predicate or action runs its thread holds the lock and owns no registry entry; after reacquisition the finished wait's identifier is gone |
| `Queue.QueueHistory` | examples/bounded_queue.rs:43-101 | over all interleavings the items logged as pushed = popped + held after every prefix of the history, never over capacity, no push after a close, `None` only when closed and empty; whose items they are is `QueueItems` |
| `Queue.ActionKeepsHistory` | examples/bounded_queue.rs:47-72 | one push, pop or close extends a bounded FIFO history by its own result: a push appends the caller's own item, or is refused with it exactly on a closed queue; a pop takes the oldest item, or returns `None` on a closed, empty queue; a close keeps the items |
| `QueueItems.QueueCallsHaveTheirEffect` | examples/bounded_queue.rs:43-76 | over all interleavings, the call that ends Ready has had that effect in the step that decided it |
| `QueueItems.ResultsNameTheirCalls` | examples/bounded_queue.rs:51-56 | a pushed or refused item is the one its caller passed; popped items and `None` are results of pops |
| `QueueItems.PushedOncePerCall` | examples/bounded_queue.rs:53-61 | every item occurs in the pushed sequence exactly as often as push calls have returned it as pushed |
| `QueueItems.PopForTimesOut` | examples/bounded_queue.rs:80-92 | a timed pop on an empty open queue can end TimedOut exactly `timeout` after its start, at once if that is zero |
| `Programs.OutcomeBelongsToCall` | src/monitor/std_monitor.rs:540-545 | outcome number i of a thread was decided by a step of its call number i |
| `Programs.LogIsWhatCallsReturn` | src/monitor/monitor.rs:105-112 | over whole runs each result is logged exactly as often as calls have returned it |
| `Queue.QueueIsDisciplined` | examples/bounded_queue.rs:58-60 | every queue operation that can unblock another is followed by `notify_all` |
| `Queue.QueueQuiescence` | examples/bounded_queue.rs:69-77 | when no thread can step, whoever has not returned is parked in a push on a full open queue or a pop on an empty open queue; nobody is parked after a close |
| `Queue.NeverBothParked` | examples/bounded_queue.rs:47-77 | producers and consumers are never parked together in a quiescent state |
| `Shutdown.StepWorks` | examples/bounded_queue.rs:100-100 | after a close every step except the passing of time lowers the measure over phases, registry size, unsent signals and Timers |
| `Shutdown.ShutdownTerminates` | examples/bounded_queue.rs:95-101 | after a close every continuation makes boundedly many moves, and where it stops everybody has returned |
| `FifoSpec.RegistryLaw` | src/monitor/internal/waiter_registry.rs:38-104 | for every sequence of operations: consecutive identifiers, registered = active + selected + cancelled, selection in registration order; the first 2^64 - 2 registrations succeed and no other |
| `FifoSpec.HandsOutInOrder` | src/monitor/internal/waiter_registry.rs:75-89 | the waiters handed out are those registered, each under its own identifier, in registration order, each at most once |
| `FifoSpec.ApplyKeepsFaithful` | src/monitor/internal/waiter_registry.rs:61-104 | each operation keeps entries and hand-outs in agreement with what was registered; a withdrawal returns its waiter if and only if it is active |
| `Answers.RepliesAreRight` | src/monitor/internal/waiter_registry.rs:59-104 | for every sequence of operations, against a reference that knows only the operations: a registration is refused if and only if 2^64 - 2 identifiers are gone; `take_one` answers the oldest waiter alive, `take_all` all of them in order; a cancellation answers its waiter if and only if it was registered and neither selected nor cancelled since |
| `Identifiers.RegisteringSucceeds` | src/monitor/internal/waiter_registry.rs:61-67 | over whole runs a thread that registers gets the next identifier if and only if fewer than 2^64 - 2 registrations were made, and otherwise ends Exhausted with the registry unchanged |
| `Identifiers.ExhaustedMeansUsedUp` | src/monitor/internal/waiter_registry.rs:63-63 | no call ends Exhausted before exactly 2^64 - 2 registrations were made |
| `Registry.IntoValues` | src/monitor/internal/waiter_registry.rs:85-89 | walking the ordered map yields the active waiters in registration order |
| `Registry.WaiterRegistry.constructor` | src/monitor/internal/waiter_registry.rs:38-43 | a new registry is the empty queue and starts at identifier 1 |
| `Registry.WaiterRegistry.Register` | src/monitor/internal/waiter_registry.rs:61-67 | the identifier is the counter, for every counter below 2^64 - 1; there the registration fails and leaves the registry unchanged |
| `Registry.WaiterRegistry.PopFirst` | src/monitor/internal/waiter_registry.rs:76-76 | the entry with the least key is the oldest registration |
| `Registry.WaiterRegistry.TakeOne` | src/monitor/internal/waiter_registry.rs:75-77 | removes and returns the oldest active waiter |
| `Registry.WaiterRegistry.TakeAll` | src/monitor/internal/waiter_registry.rs:85-89 | removes all and returns them in registration order |
| `Registry.WaiterRegistry.Unregister` | src/monitor/internal/waiter_registry.rs:102-104 | removes exactly the given identifier and answers its waiter, or nothing if it is not active |
| `DualIndex.BTreeHashWaiters.Register` | benches/waiter_registry.rs:216-224 | the same answers as the single map, on two maps whose key sets stay equal |
| `DualIndex.BTreeHashWaiters.TakeOne` | benches/waiter_registry.rs:231-235 | the order map selects, the value map yields, the oldest waiter |
| `DualIndex.BTreeHashWaiters.TakeAll` | benches/waiter_registry.rs:242-248 | the loop over `take_one` equals taking everything at once |
| `DualIndex.BTreeHashWaiters.Unregister` | benches/waiter_registry.rs:259-265 | removes the identifier from both maps and answers its waiter, or does nothing if it is not active |
| `DualIndex.BTreeHashWaiters.Do` | benches/waiter_registry.rs:216-265 | the dual-map index answers one operation as the queue does |
| `DualIndex.DoSingle` | benches/waiter_registry.rs:64-113 | the single-map index answers one operation as the queue does |
| `DualIndex.ReplayBoth` | benches/waiter_registry.rs:193-266 | for every sequence of operations both indexes give the same answers, and the right ones |
| `Interference.ForeignRun` | src/monitor/internal/blocking_monitor_guard_wait.rs:65-78 | whatever others do, a thread finds its own program point, its lock and the data it has locked as it left them; its TimerFuture changes only by completing |
| `Interference.DiligentStep` | src/monitor/internal/blocking_condition_waiter.rs:96-98 | a visit of the scheduler is used for a step of the thread, unless it found the thread blocked |
| `MonitorCode.Runner.constructor` | src/monitor/std_monitor.rs:154-160 | an unused monitor is the initial state of a run; the thread holds no guard |
| `MonitorCode.Runner.Lock` | src/monitor/internal/blocking_monitor_guard_wait.rs:77-77 | occupies the guard slot only when nobody else holds the lock; fails only when the visits are over, and no visit that found the lock free is wasted |
| `MonitorCode.Runner.ReleaseGuard` | src/monitor/internal/blocking_monitor_guard_wait.rs:36-38 | the slot is occupied when this is reached, and empty afterwards |
| `MonitorCode.Runner.Register` | src/monitor/internal/blocking_waiter_registry.rs:48-52 | the registration made under the lock is a step of the run |
| `MonitorCode.Runner.Unregister` | src/monitor/internal/blocking_waiter_registration.rs:68-74 | the RAII drop is a step of the run, selected or not |
| `MonitorCode.Runner.WaitLatch` | src/monitor/internal/blocking_condition_waiter.rs:94-99 | returns only once the latch is set; spurious wakeups loop; fails only when the visits are over |
| `MonitorCode.Runner.Now` | src/monitor/internal/blocking_condition_wait.rs:174-174 | the start of a relative budget is the clock at the step that reads it, no earlier than the call |
| `MonitorCode.Runner.Evaluate` | src/monitor/internal/blocking_condition_wait.rs:55-55 | the predicate sees the data as it was when the lock was taken |
| `MonitorCode.Runner.Act` | src/monitor/internal/blocking_condition_wait.rs:58-58 | result and new data are those of the action on the locked data |
| `MonitorCode.Runner.GiveUp` | src/monitor/internal/blocking_condition_wait.rs:113-115 | a call may end without its action only for one of the causes in `EndsWith`, and still holds the lock |
| `MonitorCode.Runner.At` | src/monitor/internal/blocking_condition_wait.rs:181-182 | a TimerFuture with exactly the deadline of the call if and only if the Timer accepts, and otherwise TimerError |
| `MonitorCode.Runner.Poll` | src/monitor/internal/blocking_condition_waiter.rs:63-87 | only a TimerFuture that has not completed is polled; the answer is what it then holds, decides where the call goes, and is a success only at or after the deadline |
| `MonitorCode.Runner.Abandon` | src/monitor/internal/blocking_monitor_guard_wait.rs:131-133 | a Timer that completes before parking withdraws the registration while the lock is still held |
| `MonitorCode.Runner.Unlock` | src/monitor/std_monitor_guard.rs:100-103 | the lock is released before anything is notified |
| `MonitorCode.Runner.TakeOldest` | src/monitor/internal/blocking_waiter_registry.rs:56-56 | one step of the run takes what `notify_one` chooses from the registry of that moment: the oldest registration, if there is one |
| `MonitorCode.Runner.TakeEvery` | src/monitor/internal/blocking_waiter_registry.rs:64-67 | one step of the run takes the whole registry, oldest first |
| `MonitorCode.Runner.SignalEach` | src/monitor/internal/blocking_waiter_registry.rs:68-70 | all taken waiters are latched when it returns, and the call has returned |
| `MonitorCode.Runner.NotifyOne` | src/monitor/internal/blocking_waiter_registry.rs:55-60 | the oldest registration of the moment of its taking step is latched when the call returns |
| `MonitorCode.Runner.NotifyAll` | src/monitor/internal/blocking_waiter_registry.rs:63-71 | all registrations of the moment of its taking step are latched when the call returns |
| `MonitorCode.Runner.DeadlineAfter` | src/monitor/std_monitor.rs:796-797 | a total budget becomes the current clock plus the budget, or Overflow if that is out of range, before the lock is contended for |
| `MonitorCode.Runner.PollSuspension` | src/monitor/internal/tokio_condition_waiter_registration.rs:95-103 | Expired and Broken exactly as the TimerFuture answers; Signal only if it is pending and the latch is set; otherwise the task stays pending with its waiter installed |
| `MonitorCode.Runner.Sleep` | src/monitor/tokio_monitor.rs:467-467 | reached without the lock; dropped, with its registration, if and only if the executor says so at the next visit, and otherwise polled again, woken or not |
| `MonitorCode.Runner.LockOrDrop` | src/monitor/tokio_monitor.rs:469-469 | reached without the lock; dropped if and only if the executor says so at a visit, and otherwise holds the lock at the first visit that finds it free |
| `MonitorCode.Runner.DropContending` | src/monitor/tokio_monitor.rs:463-463 | a future dropped while it contends for the lock has nothing to release |
| `MonitorCode.Runner.DropRegistered` | src/monitor/internal/tokio_condition_waiter_registration.rs:108-115 | dropping a registered future cancels its registration and is a cancellation step of the run |
| `BlockingWaits.WaitForNotification` | src/monitor/internal/blocking_monitor_guard_wait.rs:65-78 | register, release, park, deregister, reacquire; the slot is occupied on every return |
| `BlockingWaits.Suspend` | src/monitor/internal/blocking_monitor_guard_wait.rs:74-77 | release, park, deregister, reacquire, in this order |
| `BlockingWaits.SuspendWithTimer` | src/monitor/internal/blocking_monitor_guard_wait.rs:134-141 | after reacquiring, one more poll with the old waiter decides how the wait ended |
| `BlockingWaits.WaitRegistered` | src/monitor/internal/blocking_monitor_guard_wait.rs:130-141 | parks only if the poll with its own waiter is pending; otherwise the registration is withdrawn |
| `BlockingWaits.RegisterAndWait` | src/monitor/internal/blocking_monitor_guard_wait.rs:129-141 | exhausted identifiers end the call with the guard still in its slot |
| `BlockingWaits.WaitWithTimer` | src/monitor/internal/blocking_monitor_guard_wait.rs:116-142 | Woken, TimedOut, Failed as the last poll of the TimerFuture answered pending, success, error; the slot is occupied on every return |
| `BlockingWaits.Check` | src/monitor/internal/blocking_condition_wait.rs:110-115 | Ready if and only if the predicate does not block the locked data, with the action's result; TimedOut only after an observed deadline |
| `BlockingWaits.WaitWhileLocked` | src/monitor/internal/blocking_condition_wait.rs:48-59 | the untimed loop ends with one decided outcome, lock held; it has no answer only if the visits are over and the thread waits without the lock |
| `BlockingWaits.AwaitAndCheck` | src/monitor/internal/blocking_condition_wait.rs:55-57 | one round of the untimed loop |
| `BlockingWaits.WaitAndCheck` | src/monitor/internal/blocking_condition_wait.rs:109-115 | one round of the timed loop ends TimerError if and only if a poll has read an error; otherwise the check decides or the loop goes on |
| `BlockingWaits.WaitWhileWithTimerLocked` | src/monitor/internal/blocking_condition_wait.rs:95-117 | the timed loop over one TimerFuture ends with one decided outcome, lock held; it has no answer only if the visits are over and the thread waits without the lock |
| `BlockingWaits.WaitWhileFor` | src/monitor/internal/blocking_condition_wait.rs:158-184 | the relative budget starts no earlier than the call; TimedOut only when start + timeout has been reached; Overflow only if it is out of range |
| `BlockingWaits.RunBudget` | src/monitor/internal/blocking_condition_wait.rs:174-183 | the same from the moment the lock is held |
| `BlockingWaits.ArmRelative` | src/monitor/internal/blocking_condition_wait.rs:178-183 | after a blocking check: zero timeout ends TimedOut; Overflow if and only if start + timeout is out of range |
| `BlockingWaits.WaitWhileWithDeadline` | src/monitor/internal/blocking_condition_wait.rs:225-250 | ends with one decided outcome, lock held; TimedOut only when the deadline has been reached |
| `BlockingWaits.ArmAbsolute` | src/monitor/internal/blocking_condition_wait.rs:244-249 | ends with one decided outcome, lock held; TimedOut only when the deadline has been reached |
| `BlockingWaits.WaitWhile` | src/monitor/std_monitor.rs:540-546 | locks and runs the untimed loop |
| `BlockingWaits.Finish` | src/monitor/std_monitor_guard.rs:100-120 | after a notification by the caller, the waiters it chose are latched; the lock is released and the call has returned |
| `BlockingWaits.Return` | src/monitor/std_monitor.rs:414-423 | unlocks, notifies and leaves the call explained by one abstract decision of its own |
| `BlockingWaits.Perform` | src/monitor/std_monitor.rs:540-545 | a whole blocking call of any timing runs in the step system; its outcome was decided between call and return by a step of this thread that the abstract wait allows for this very call, with its budget spent if it timed out; afterwards the lock is not held and whom its caller notifies is latched; a TimerError needs a Timer that has refused or failed this thread; without an answer the visits are over and the thread waits without the lock |
| `BlockingWaits.PerformTotal` | src/monitor/std_monitor.rs:786-798 | the same for an operation-wide budget, which also counts lock contention: TimedOut only at call time + budget or later, Overflow before locking |
| `TokioWaits.AwaitSignal` | src/monitor/internal/tokio_condition_waiter_registration.rs:89-105 | ends with a status, or the future is dropped with its registration cancelled |
| `TokioWaits.SuspendAsync` | src/monitor/tokio_monitor.rs:734-737 | release, await, drop the registration, await the lock; a drop in between holds nothing |
| `TokioWaits.SuspendOnce` | src/monitor/tokio_monitor.rs:733-737 | one registration and suspension |
| `TokioWaits.DeadlineReached` | src/monitor/tokio_monitor.rs:352-358 | one poll that answers at once: the task is not suspended and the lock is held throughout; success only at or after the deadline |
| `TokioWaits.SettleSignal` | src/monitor/tokio_monitor.rs:742-749 | after a notification one more poll: TimerError if and only if it read an error |
| `TokioWaits.Settle` | src/monitor/tokio_monitor.rs:738-749 | an error ends TimerError without recheck, an expiry ends Ready or TimedOut, a notification ends TimerError if and only if the poll after it read an error |
| `TokioWaits.SuspendAndCheck` | src/monitor/tokio_monitor.rs:464-470 | one round of the untimed loop |
| `TokioWaits.WaitWhileLockedAsync` | src/monitor/tokio_monitor.rs:462-472 | the untimed async loop, cancellable at each await |
| `TokioWaits.TimedLoopAsync` | src/monitor/tokio_monitor.rs:732-750 | the timed async loop, cancellable at each await |
| `TokioWaits.WaitWhileForAsync` | src/monitor/tokio_monitor.rs:896-927 | the relative budget starts no earlier than the call; TimedOut only when start + timeout has been reached; Overflow only if it is out of range |
| `TokioWaits.RunBudgetAsync` | src/monitor/tokio_monitor.rs:898-926 | the same from the moment the lock is held |
| `TokioWaits.ArmRelativeAsync` | src/monitor/tokio_monitor.rs:902-926 | after a blocking check: zero timeout ends TimedOut; Overflow if and only if start + timeout is out of range |
| `TokioWaits.WaitWhileWithDeadlineAsync` | src/monitor/tokio_monitor.rs:722-751 | ends decided with the lock held or dropped without it; TimedOut only when the deadline has been reached |
| `TokioWaits.ArmAbsoluteAsync` | src/monitor/tokio_monitor.rs:728-750 | ends decided with the lock held or dropped without it; TimedOut only when the deadline has been reached |
| `TokioWaits.WaitWhileAsync` | src/monitor/tokio_monitor.rs:456-473 | locks, or is dropped, and runs the untimed loop |
| `TokioWaits.PerformAsync` | src/monitor/tokio_monitor.rs:456-473 | a whole async call is explained by one abstract decision of this very call, with its budget spent if it timed out; it ends Cancelled if and only if the executor dropped its future at a visit, and has no answer only when the visits are over and it waits without the lock |

## Left out

- `src/lock/*` and the forwarding implementations for `Arc` and references: delegation to foreign locks.
- `parking_lot_monitor.rs` and its guard: the same protocol without poisoning; one model covers both backends.
- Lock poisoning and panics of predicates and actions. The only panic modelled is the one on exhausted identifiers,
  as the outcome `Exhausted` with the lock released and the registry unchanged.
- Stateful predicates (`FnMut`): a predicate is a function of the protected state.
- Reads and writes without a wait are calls whose predicate never blocks; `with_read` is not distinguished.
- Guard-level waits called by hand (`wait`, `wait_for`, `wait_until` on a guard, with mutation under the same guard):
  the guard waits are modelled where the predicate loops call them.
- Internals of the std, parking_lot and Tokio mutexes, `Condvar`, `Notify`, wakers and `qubit_clock`: stated as contracts.
- Fairness and the order of lock acquisition, which the code does not promise.
- A Tokio task's waker is named by its current registration; a wake left over from an earlier one is a poll without
  cause, which is modelled.
- A waiter object is named by the identifier under which it is registered, which is one to one in the code.
- Instants are natural numbers with a largest representable one (`horizon`); `Duration` arithmetic is not modelled.
- `default_timer`, runtime capture, feature gates, `WaitTimeoutResult` helpers and the wrappers that negate a predicate.
- `OrderedIndexWaiters` and `take_all_via_vec` of the benchmark: the ordered-index map is not part of this model.
- Queue operations are blocking calls, as in the example; the Tokio monitor is not used as a queue.
- Runner: one thread runs the modelled code while all others are arbitrary continuations of the run, rather than several
  runners sharing one heap.
- ShutdownTerminates: counts every step but clock ticks, which may go on for ever without any thread moving.
