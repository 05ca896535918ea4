/**
  The monitor protocol as a transition system.

  A `World` is one monitor (state lock, protected data, waiter registry, latches, clock) together with
  any number of threads or Tokio tasks, each working through a finite list of monitor calls. `Step` performs
  one atomic section of one of them, or one move of the Timer, the clock or a cancelling executor.
 */
module Protocol {
  import opened Basics

  datatype Kind = Blocking | Tokio

  /** How a wait is bounded. `Total` is fixed to an `Absolute` deadline before the lock is taken. */
  datatype Timing = Untimed | Relative(timeout: nat) | Absolute(deadline: nat) | Total(budget: nat)

  /** What a caller does after its action: nothing, `notify_one` or `notify_all`. */
  datatype Note = Silent | One | All

  /** One monitor call: wait while `waiting` holds, then run `action` under the lock, then notify. */
  datatype Call<!S, !R> = Call(
    kind: Kind,
    timing: Timing,
    waiting: S -> bool,
    action: S -> (S, R),
    note: R -> Note)

  datatype Outcome<+R> = Ready(result: R) | TimedOut | TimerError | Overflow | Exhausted | Cancelled

  /** Why a suspension ended: selection by a notifier, the deadline, or a failing Timer. */
  datatype Status = Signal | Expired | Broken

  datatype Phase =
    | Idle                               // before the next call; the first lock acquisition is pending
    | Sampling                           // holds the lock; the relative budget is about to start
    | Checking(first: bool, expired: bool) // holds the lock; about to evaluate the predicate
    | Arming                             // holds the lock; about to create the TimerFuture
    | PrePoll                            // holds the lock; absolute deadlines are polled before the loop
    | LoopPoll                           // holds the lock; blocking loop polls with the no-op waker
    | Registering                        // holds the lock; about to enter the registry
    | WaiterPoll(id: nat)                // holds the lock; blocking loop polls with the waiter's waker
    | Abandoning(id: nat, ok: bool)      // holds the lock; Timer completed before parking
    | Releasing(id: nat)                 // holds the lock; about to release it
    | Polling(id: nat)                   // Tokio task polls Timer and notification
    | Parked(id: nat)                    // suspended
    | Dropping(id: nat, status: Status)  // about to drop the registration
    | Relocking(id: nat, status: Status) // about to reacquire the lock
    | FinalPoll(id: nat, status: Status) // holds the lock; last Timer poll of the iteration
    | Leaving(note: Note)                // holds the lock; outcome decided
    | Taking(note: Note)                 // lock released; about to take waiters out of the registry
    | Signalling(popped: seq<nat>)       // waiters taken and not yet signalled

  datatype TimerStatus = Armed | Fired(ok: bool) | Spent(ok: bool)

  /** A TimerFuture: `Spent` once a poll has returned `Ready`. */
  datatype Timer = NoTimer | Timer(deadline: nat, status: TimerStatus, waker: Option<nat>)

  datatype Thread<!S, !R> = Thread(
    calls: seq<Call<S, R>>,
    phase: Phase,
    timer: Timer,
    started: nat,
    outcomes: seq<Outcome<R>>)

  datatype World<!S, !R> = World(
    owner: Option<nat>,          // holder of the state lock
    data: S,                     // protected state
    next: nat,                   // next registration identifier
    queue: seq<nat>,             // active registrations, oldest first
    signalled: set<nat>,         // waiters latched by a notifier
    awake: set<nat>,             // waiters latched by a Timer wake
    waking: set<nat>,            // Timer wakes on their way
    threads: seq<Thread<S, R>>,
    clock: nat,
    horizon: nat,                // largest representable instant
    misused: bool,               // a completed TimerFuture has been polled again
    log: seq<R>)                 // results of all actions, in order

  datatype Event =
    | Run(thread: nat, accepted: bool)   // `accepted`: the Timer accepts a registration, if one is attempted
    | Fire(timer: nat, ok: bool)         // the TimerFuture of a thread completes
    | Wake(waiter: nat)                  // the Timer invokes a waker it has taken
    | Tick(elapsed: nat)
    | Cancel(task: nat)                  // the executor drops a suspended future
    | Repoll(task: nat)                  // the executor polls a suspended future that nobody has woken

  predicate HoldsLock(p: Phase) {
    match p
    case Sampling | Checking(_, _) | Arming | PrePoll | LoopPoll | Registering | WaiterPoll(_) => true
    case Abandoning(_, _) | Releasing(_) | FinalPoll(_, _) | Leaving(_) => true
    case _ => false
  }

  /** The registration that the RAII guard of a thread in phase `p` still owns. */
  function Entry(p: Phase): Option<nat> {
    match p
    case WaiterPoll(id) => Some(id)
    case Abandoning(id, _) => Some(id)
    case Releasing(id) => Some(id)
    case Polling(id) => Some(id)
    case Parked(id) => Some(id)
    case Dropping(id, _) => Some(id)
    case _ => None
  }

  /** Waiters that a notifier in phase `p` has taken and not yet signalled. */
  function Popped(p: Phase): seq<nat> {
    if p.Signalling? then p.popped else []
  }

  function Without(queue: seq<nat>, id: nat): (r: seq<nat>)
    ensures forall x :: x in r <==> x in queue && x != id
    ensures |r| <= |queue|
  {
    if queue == [] then []
    else if queue[0] == id then Without(queue[1..], id)
    else [queue[0]] + Without(queue[1..], id)
  }

  // ---- Pieces of a step -------------------------------------------------------------------------------

  function Put<S, R>(w: World<S, R>, t: nat, th: Thread<S, R>): World<S, R>
    requires t < |w.threads|
  {
    w.(threads := w.threads[t := th])
  }

  function Goto<S, R>(w: World<S, R>, t: nat, p: Phase): World<S, R>
    requires t < |w.threads|
  {
    Put(w, t, w.threads[t].(phase := p))
  }

  /** The outcome of the call is decided without running its action; the lock is still held. */
  function Decide<S, R>(w: World<S, R>, t: nat, o: Outcome<R>): World<S, R>
    requires t < |w.threads|
  {
    var th := w.threads[t];
    Put(w, t, th.(phase := Leaving(Silent), timer := NoTimer, outcomes := th.outcomes + [o]))
  }

  /** The call returns to its caller. */
  function Returned<S, R>(th: Thread<S, R>): Thread<S, R>
    requires |th.calls| > 0
  {
    th.(calls := th.calls[1..], phase := Idle)
  }

  /** The answer of a poll: `None` is Pending. */
  function PollAnswer(timer: Timer): Option<bool> {
    if timer.Timer? && timer.status.Fired? then Some(timer.status.ok) else None
  }

  /** A TimerFuture may be polled until a poll has returned `Ready`. */
  predicate Pollable(timer: Timer) {
    timer.Timer? && !timer.status.Spent?
  }

  /** The TimerFuture after a poll: a pending one keeps the last waker only. */
  function AfterPoll(timer: Timer, waker: Option<nat>): Timer {
    if !timer.Timer? then timer
    else if timer.status.Armed? then timer.(waker := waker)
    else timer.(status := Spent(timer.status.ok))
  }

  /** Polling a TimerFuture that has completed is recorded as misuse. */
  function Polled<S, R>(w: World<S, R>, t: nat): World<S, R>
    requires t < |w.threads|
  {
    w.(misused := w.misused || !Pollable(w.threads[t].timer))
  }

  /** Thread `t` polls its TimerFuture with `waker` and goes on to phase `p`. */
  function PollGoto<S, R>(w: World<S, R>, t: nat, waker: Option<nat>, p: Phase): World<S, R>
    requires t < |w.threads|
  {
    var th := w.threads[t];
    Put(Polled(w, t), t, th.(timer := AfterPoll(th.timer, waker), phase := p))
  }

  predicate Timed<S, R>(c: Call<S, R>) {
    !c.timing.Untimed?
  }

  // ---- The atomic sections of a thread ----------------------------------------------------------------

  /** First lock acquisition; a total budget becomes an absolute deadline before it. */
  function RunIdle<S, R>(w: World<S, R>, t: nat): Option<World<S, R>>
    requires t < |w.threads|
  {
    var th := w.threads[t];
    if th.calls == [] then None
    else
      var c := th.calls[0];
      match c.timing
      case Total(budget) =>
        if w.clock + budget <= w.horizon then
          Some(Put(w, t, th.(calls := [c.(timing := Absolute(w.clock + budget))] + th.calls[1..])))
        else
          Some(Put(w, t, Returned(th.(outcomes := th.outcomes + [Overflow]))))
      case _ =>
        if w.owner.Some? then None
        else Some(Goto(w.(owner := Some(t)), t, if c.timing.Relative? then Sampling else Checking(true, false)))
  }

  /** The deciding check, and in the same lock hold the action. */
  function RunChecking<S, R>(w: World<S, R>, t: nat): World<S, R>
    requires t < |w.threads| && w.threads[t].phase.Checking? && |w.threads[t].calls| > 0
  {
    var th := w.threads[t];
    var c := th.calls[0];
    if !c.waiting(w.data) then
      var (after, result) := c.action(w.data);
      Put(w.(data := after, log := w.log + [result]), t,
          th.(phase := Leaving(c.note(result)), timer := NoTimer, outcomes := th.outcomes + [Ready(result)]))
    else if th.phase.expired then Decide(w, t, TimedOut)
    else if !Timed(c) then Goto(w, t, Registering)
    else if th.phase.first then Goto(w, t, Arming)
    else Goto(w, t, LoopStart(c.kind))
  }

  /** Where one iteration of the timed loop begins. */
  function LoopStart(kind: Kind): Phase {
    if kind.Blocking? then LoopPoll else Registering
  }

  function RunArming<S, R>(w: World<S, R>, t: nat, accepted: bool): World<S, R>
    requires t < |w.threads| && |w.threads[t].calls| > 0
  {
    var th := w.threads[t];
    match th.calls[0].timing
    case Relative(timeout) =>
      if timeout == 0 then Decide(w, t, TimedOut)
      else if th.started + timeout > w.horizon then Decide(w, t, Overflow)
      else if !accepted then Decide(w, t, TimerError)
      else Put(w, t, th.(timer := Timer(th.started + timeout, Armed, None), phase := LoopStart(th.calls[0].kind)))
    case Absolute(deadline) =>
      if !accepted then Decide(w, t, TimerError)
      else Put(w, t, th.(timer := Timer(deadline, Armed, None), phase := PrePoll))
    case _ => w
  }

  function RunPrePoll<S, R>(w: World<S, R>, t: nat): World<S, R>
    requires t < |w.threads| && |w.threads[t].calls| > 0
  {
    match PollAnswer(w.threads[t].timer)
    case Some(ok) => Decide(Polled(w, t), t, if ok then TimedOut else TimerError)
    case None => PollGoto(w, t, None, LoopStart(w.threads[t].calls[0].kind))
  }

  /** Polls inside the loop: completion leads to the expiring check, an error ends the call, Pending goes on. */
  function PollInLoop<S, R>(w: World<S, R>, t: nat, waker: Option<nat>, pending: Phase): World<S, R>
    requires t < |w.threads|
  {
    match PollAnswer(w.threads[t].timer)
    case Some(ok) =>
      if ok then PollGoto(w, t, waker, Checking(false, true)) else Decide(Polled(w, t), t, TimerError)
    case None => PollGoto(w, t, waker, pending)
  }

  function RunRegistering<S, R>(w: World<S, R>, t: nat): World<S, R>
    requires t < |w.threads| && |w.threads[t].calls| > 0
  {
    var c := w.threads[t].calls[0];
    if w.next >= MAX_ID then Decide(w, t, Exhausted)
    else
      Goto(w.(next := w.next + 1, queue := w.queue + [w.next]), t,
           if c.kind.Blocking? && Timed(c) then WaiterPoll(w.next) else Releasing(w.next))
  }

  function RunWaiterPoll<S, R>(w: World<S, R>, t: nat, id: nat): World<S, R>
    requires t < |w.threads|
  {
    match PollAnswer(w.threads[t].timer)
    case Some(ok) => PollGoto(w, t, Some(id), Abandoning(id, ok))
    case None => PollGoto(w, t, Some(id), Releasing(id))
  }

  function RunAbandoning<S, R>(w: World<S, R>, t: nat, id: nat, ok: bool): World<S, R>
    requires t < |w.threads|
  {
    var v := w.(queue := Without(w.queue, id));
    if ok then Goto(v, t, Checking(false, true)) else Decide(v, t, TimerError)
  }

  function RunReleasing<S, R>(w: World<S, R>, t: nat, id: nat): World<S, R>
    requires t < |w.threads| && |w.threads[t].calls| > 0
  {
    Goto(w.(owner := None), t, if w.threads[t].calls[0].kind.Blocking? then Parked(id) else Polling(id))
  }

  /** One poll of the Tokio suspension: the Timer first, then the notification. */
  function RunPolling<S, R>(w: World<S, R>, t: nat, id: nat): World<S, R>
    requires t < |w.threads| && |w.threads[t].calls| > 0
  {
    var pending := if id in w.signalled then Dropping(id, Signal) else Parked(id);
    if !Timed(w.threads[t].calls[0]) then Goto(w, t, pending)
    else
      match PollAnswer(w.threads[t].timer)
      case Some(ok) => PollGoto(w, t, Some(id), Dropping(id, if ok then Expired else Broken))
      case None => PollGoto(w, t, Some(id), pending)
  }

  function RunParked<S, R>(w: World<S, R>, t: nat, id: nat): Option<World<S, R>>
    requires t < |w.threads| && |w.threads[t].calls| > 0
  {
    if id !in w.signalled && id !in w.awake then None
    else Some(Goto(w, t, if w.threads[t].calls[0].kind.Blocking? then Dropping(id, Signal) else Polling(id)))
  }

  function RunRelocking<S, R>(w: World<S, R>, t: nat, id: nat, status: Status): Option<World<S, R>>
    requires t < |w.threads| && |w.threads[t].calls| > 0
  {
    if w.owner.Some? then None
    else Some(Goto(w.(owner := Some(t)), t,
                   if Timed(w.threads[t].calls[0]) then FinalPoll(id, status) else Checking(false, false)))
  }

  /** A Tokio task polls here only when a notification ended its suspension. */
  function RunFinalPoll<S, R>(w: World<S, R>, t: nat, id: nat, status: Status): World<S, R>
    requires t < |w.threads|
  {
    match status
    case Broken => Decide(w, t, TimerError)
    case Expired => Goto(w, t, Checking(false, true))
    case Signal => PollInLoop(w, t, Some(id), Checking(false, false))
  }

  function RunLeaving<S, R>(w: World<S, R>, t: nat, note: Note): World<S, R>
    requires t < |w.threads| && |w.threads[t].calls| > 0
  {
    var v := w.(owner := None);
    if note.Silent? then Put(v, t, Returned(w.threads[t])) else Goto(v, t, Taking(note))
  }

  /** Waiters chosen by a notification, taken under the registry lock. */
  function Chosen(queue: seq<nat>, note: Note): seq<nat> {
    if note.All? then queue
    else if note.One? && |queue| > 0 then queue[..1]
    else []
  }

  function RunTaking<S, R>(w: World<S, R>, t: nat, note: Note): World<S, R>
    requires t < |w.threads| && |w.threads[t].calls| > 0
  {
    var chosen := Chosen(w.queue, note);
    if chosen == [] then Put(w, t, Returned(w.threads[t]))
    else Goto(w.(queue := w.queue[|chosen|..]), t, Signalling(chosen))
  }

  function RunSignalling<S, R>(w: World<S, R>, t: nat, popped: seq<nat>): World<S, R>
    requires t < |w.threads| && |w.threads[t].calls| > 0 && |popped| > 0
  {
    var v := w.(signalled := w.signalled + {popped[0]});
    if |popped| == 1 then Put(v, t, Returned(w.threads[t])) else Goto(v, t, Signalling(popped[1..]))
  }

  /** The next atomic section of thread `t`; `None` when it is blocked or has returned from every call. */
  function RunStep<S, R>(w: World<S, R>, t: nat, accepted: bool): Option<World<S, R>>
    requires t < |w.threads|
  {
    var th := w.threads[t];
    if th.phase.Idle? then RunIdle(w, t)
    else if th.calls == [] then None
    else
      match th.phase
      case Idle => None
      case Sampling => Some(Put(w, t, th.(started := w.clock, phase := Checking(true, false))))
      case Checking(_, _) => Some(RunChecking(w, t))
      case Arming => Some(RunArming(w, t, accepted))
      case PrePoll => Some(RunPrePoll(w, t))
      case LoopPoll => Some(PollInLoop(w, t, None, Registering))
      case Registering => Some(RunRegistering(w, t))
      case WaiterPoll(id) => Some(RunWaiterPoll(w, t, id))
      case Abandoning(id, ok) => Some(RunAbandoning(w, t, id, ok))
      case Releasing(id) => Some(RunReleasing(w, t, id))
      case Polling(id) => Some(RunPolling(w, t, id))
      case Parked(id) => RunParked(w, t, id)
      case Dropping(id, status) => Some(Goto(w.(queue := Without(w.queue, id)), t, Relocking(id, status)))
      case Relocking(id, status) => RunRelocking(w, t, id, status)
      case FinalPoll(id, status) => Some(RunFinalPoll(w, t, id, status))
      case Leaving(note) => Some(RunLeaving(w, t, note))
      case Taking(note) => Some(RunTaking(w, t, note))
      case Signalling(popped) => if popped == [] then None else Some(RunSignalling(w, t, popped))
  }

  // ---- Timer, clock and executor ----------------------------------------------------------------------

  /** Timer contract: a success is never early; completion takes the last installed waker. */
  function FireStep<S, R>(w: World<S, R>, t: nat, ok: bool): Option<World<S, R>>
    requires t < |w.threads|
  {
    var th := w.threads[t];
    match th.timer
    case Timer(d, Armed, waker) =>
      if ok && w.clock < d then None
      else Some(Put(w.(waking := if waker.Some? then w.waking + {waker.value} else w.waking), t,
                    th.(timer := Timer(d, Fired(ok), None))))
    case _ => None
  }

  /** The points at which a Tokio future returns Pending to its executor. */
  predicate Suspended<S, R>(th: Thread<S, R>) {
    && th.calls != []
    && th.calls[0].kind.Tokio?
    && (th.phase.Idle? || th.phase.Parked? || th.phase.Relocking?)
  }

  /** Dropping a suspended future drops the registration it still owns, and nothing else. */
  function CancelStep<S, R>(w: World<S, R>, t: nat): Option<World<S, R>>
    requires t < |w.threads|
  {
    var th := w.threads[t];
    if !Suspended(th) then None
    else
      var v := if th.phase.Parked? then w.(queue := Without(w.queue, th.phase.id)) else w;
      Some(Put(v, t, Returned(th.(timer := NoTimer, outcomes := th.outcomes + [Cancelled]))))
  }

  /** An executor may poll a pending future for no reason. */
  function RepollStep<S, R>(w: World<S, R>, t: nat): Option<World<S, R>>
    requires t < |w.threads|
  {
    var th := w.threads[t];
    if th.calls != [] && th.calls[0].kind.Tokio? && th.phase.Parked? then Some(Goto(w, t, Polling(th.phase.id)))
    else None
  }

  /** The thread that an event moves; Timer and clock move none. */
  function Mover(e: Event): Option<nat> {
    match e
    case Run(t, _) => Some(t)
    case Cancel(t) => Some(t)
    case Repoll(t) => Some(t)
    case _ => None
  }

  function Step<S, R>(w: World<S, R>, e: Event): Option<World<S, R>> {
    match e
    case Run(t, accepted) => if t < |w.threads| then RunStep(w, t, accepted) else None
    case Fire(t, ok) => if t < |w.threads| then FireStep(w, t, ok) else None
    case Wake(id) => if id in w.waking then Some(w.(waking := w.waking - {id}, awake := w.awake + {id})) else None
    case Tick(d) => Some(w.(clock := w.clock + d))
    case Cancel(t) => if t < |w.threads| then CancelStep(w, t) else None
    case Repoll(t) => if t < |w.threads| then RepollStep(w, t) else None
  }

  /** Runs a schedule; `None` when one of its events is not possible. */
  function Exec<S, R>(w: World<S, R>, schedule: seq<Event>): Option<World<S, R>>
    decreases |schedule|
  {
    if schedule == [] then Some(w)
    else
      var before := Exec(w, schedule[..|schedule| - 1]);
      if before.None? then None else Step(before.value, schedule[|schedule| - 1])
  }

  /** A monitor nobody has used yet. */
  predicate Initial<S, R>(w: World<S, R>) {
    && w.owner == None && w.next == 1 && w.queue == []
    && w.signalled == {} && w.awake == {} && w.waking == {} && !w.misused && w.log == []
    && forall t :: 0 <= t < |w.threads| ==> Fresh(w.threads[t])
  }

  predicate Fresh<S, R>(th: Thread<S, R>) {
    th.phase == Idle && th.timer == NoTimer && th.outcomes == [] && th.started == 0
  }

  /** No thread can take a step, whatever the Timer would answer to a registration. */
  ghost predicate Quiescent<S, R>(w: World<S, R>) {
    forall t :: 0 <= t < |w.threads| ==> Blocked(w, t)
  }

  predicate Blocked<S, R>(w: World<S, R>, t: nat)
    requires t < |w.threads|
  {
    RunStep(w, t, true).None? && RunStep(w, t, false).None?
  }
}
