/**
  The monitor code itself. A `Runner` is one thread executing one monitor call on a shared monitor while other
  threads, notifiers and the Timer interfere between any two of its atomic sections. Every atomic section changes
  the real fields (lock, data, registry, latches, TimerFuture); `Valid` ties them to a run of the step system, so
  each method's contract says that the code takes exactly the steps the system allows.
 */
module MonitorCode {
  import opened Basics
  import opened Protocol
  import opened Invariants
  import opened Outcomes
  import opened FifoSpec
  import opened Registry
  import opened Interference
  import opened TimerErrors

  /** The waker a thread polls with at each of its program points. */
  ghost function WakerAt(p: Phase): Option<nat> {
    if p.WaiterPoll? || p.FinalPoll? then Some(p.id) else None
  }

  ghost predicate PollsAt(p: Phase) {
    p.PrePoll? || p.LoopPoll? || p.WaiterPoll? || (p.FinalPoll? && p.status.Signal?)
  }

  /** Whether the answer of a poll at `p` ends the call. */
  ghost predicate PollEnds(p: Phase, answer: Option<bool>) {
    answer.Some? && (p.PrePoll? || ((p.LoopPoll? || p.FinalPoll?) && !answer.value))
  }

  /** The thread after a poll: it has ended its call, or goes on from the next program point. */
  ghost function PolledThread<S, R>(th: Thread<S, R>, answer: Option<bool>, timer: Timer): Thread<S, R>
    requires th.calls != [] && PollsAt(th.phase)
  {
    var p := th.phase;
    if PollEnds(p, answer) then Deciding(th, if answer.value then TimedOut else TimerError)
    else
      th.(timer := timer,
          phase := if p.PrePoll? then LoopStart(th.calls[0].kind)
                   else if p.WaiterPoll? then
                     if answer.Some? then Abandoning(p.id, answer.value) else Releasing(p.id)
                   else if answer.Some? then Checking(false, true)
                   else if p.LoopPoll? then Registering
                   else Checking(false, false))
  }

  /** What remains of a call whose outcome is decided: to release the lock and to notify. */
  ghost function Deciding<S, R>(th: Thread<S, R>, o: Outcome<R>): Thread<S, R>
    requires th.calls != []
  {
    th.(phase := Leaving(NoteOf(th.calls[0], o)), timer := NoTimer, outcomes := th.outcomes + [o])
  }

  function NoteOf<S, R>(c: Call<S, R>, o: Outcome<R>): Note {
    if o.Ready? then c.note(o.result) else Silent
  }

  /** One poll at any of the program points of a timed call. */
  lemma PollStep<S, R>(w: World<S, R>, t: nat)
    requires t < |w.threads| && w.threads[t].calls != [] && PollsAt(w.threads[t].phase)
    requires Pollable(w.threads[t].timer)
    ensures var th := w.threads[t];
      RunStep(w, t, true)
        == Some(Put(w, t, PolledThread(th, PollAnswer(th.timer), AfterPoll(th.timer, WakerAt(th.phase)))))
  {
  }

  /** How an await ends: resumed, dropped by the executor, or never visited again. */
  datatype Resume = Resumed | Dropped | Abandoned

  /** One notification takes its waiters. */
  lemma TakeStep<S, R>(w: World<S, R>, t: nat, taken: seq<nat>)
    requires t < |w.threads| && w.threads[t].calls != [] && w.threads[t].phase.Taking?
    requires taken == Chosen(w.queue, w.threads[t].phase.note)
    ensures var th := w.threads[t];
      RunStep(w, t, true) == Some(Put(w.(queue := w.queue[|taken|..]), t,
        if taken == [] then Returned(th) else th.(phase := Signalling(taken))))
  {
  }

  /** The Timer has refused one of the `asked` registrations. */
  ghost predicate Refusal(accepts: nat -> bool, asked: nat) {
    exists a: nat :: a < asked && !accepts(a)
  }

  /** Thread `t` has wasted no visit, and none of its registrations was refused but by the Timer. */
  ghost predicate Honest<S, R>(w: World<S, R>, trace: seq<Event>, visits: seq<nat>, pending: bool, t: nat,
                               accepts: nat -> bool, asked: nat) {
    && Diligent(w, trace, visits, pending, t)
    && (Refusal(accepts, asked) || forall k :: 0 <= k < |trace| ==> trace[k] != Run(t, false))
  }

  lemma AskedOnce<S, R>(w: World<S, R>, trace: seq<Event>, visits: seq<nat>, pending: bool, t: nat,
                        accepts: nat -> bool, asked: nat)
    requires Honest(w, trace, visits, pending, t, accepts, asked)
    ensures Honest(w, trace, visits, pending, t, accepts, asked + 1)
    ensures !accepts(asked) ==> Refusal(accepts, asked + 1)
  {
    hide Diligent;
    if a: nat :| a < asked && !accepts(a) {
      assert a < asked + 1 && !accepts(a);
    }
  }

  /** The program points at which a thread waits for others. */
  predicate Waits(p: Phase) {
    p.Idle? || p.Parked? || p.Relocking?
  }

  class Runner<S, R> {
    const self: nat
    const horizon: nat                  // the largest representable instant
    const waiters: WaiterRegistry<nat>  // a waiter is named by the identifier it is registered under
    var owner: Option<nat>              // the mutex around the protected state
    var guard: bool                     // whether the guard slot of this thread is occupied
    var data: S
    var signalled: set<nat>             // latches set by notifiers
    var awake: set<nat>                 // latches set by Timer wakes
    var timer: Timer                    // the TimerFuture of the running call, while there is one
    var clock: nat
    const script: seq<Visit>            // the visits of the scheduler to this thread whenever it waits
    var visited: nat                    // how many of them have come
    const accepts: nat -> bool          // what the Timer answers to each registration of this thread
    var asked: nat                      // how many registrations have been attempted
    ghost const initial: World<S, R>
    ghost var world: World<S, R>
    ghost var trace: seq<Event>
    ghost var visits: seq<nat>          // the length of the trace at each visit
    ghost var pending: bool             // the thread has not moved since the last visit

    constructor (self: nat, data: S, clock: nat, horizon: nat, script: seq<Visit>, accepts: nat -> bool,
                 ghost w: World<S, R>)
      requires Initial(w) && self < |w.threads| && w.data == data && w.clock == clock && w.horizon == horizon
      ensures Valid() && world == w && initial == w && trace == [] && fresh(waiters) && this.self == self
      ensures this.script == script && visited == 0 && this.accepts == accepts && asked == 0
    {
      this.self, this.data, this.clock, this.script, this.accepts := self, data, clock, script, accepts;
      this.horizon := horizon;
      waiters := new WaiterRegistry<nat>();
      owner, guard, signalled, awake, timer := None, false, {}, {}, NoTimer;
      visited, asked := 0, 0;
      initial, world, trace, visits, pending := w, w, [], [], false;
      new;
      InitialInv(w);
      assert Fresh(w.threads[self]);
    }

    /** Between two atomic sections. */
    ghost predicate Valid()
      reads this, waiters
    {
      Tied() && !pending
    }

    /** The real fields are those of the end of a run. */
    ghost predicate Tied()
      reads this, waiters
    {
      && Running() && Initial(initial) && waiters.Valid()
      && world.owner == owner && world.data == data && world.next == waiters.nextWaiterId
      && world.queue == Ids(waiters.fifo.active) && Waiters(waiters.fifo.active) == Ids(waiters.fifo.active)
      && world.signalled == signalled && world.awake == awake
      && (Me().timer.Timer? ==> Me().timer == timer) && world.clock == clock && world.horizon == horizon
      && (guard <==> owner == Some(self))
    }

    /**
      The ghost state is the end of a run. Of the visits that have come so far, each found this thread blocked or was
      used for a step; and no registration was refused but by the Timer.
     */
    ghost predicate Running()
      reads this
    {
      && Inv(world) && Exec(initial, trace) == Some(world) && self < |world.threads|
      && |visits| == visited <= |script| && Honest(initial, trace, visits, pending, self, accepts, asked)
      && (pending ==> visited > 0)
    }

    /** The Timer has refused a registration of this thread. */
    ghost predicate Refused()
      reads this
    {
      Refusal(accepts, asked)
    }

    /** One of the visits `from`, ... told the executor to drop the future. */
    ghost predicate DropSeen(from: nat)
      reads this
    {
      exists i: nat :: from <= i < visited <= |script| && script[i].Drop?
    }

    /** A TimerFuture of this thread has completed with an error. */
    ghost predicate TimerBroke()
      reads this
    {
      exists k: nat :: k < |trace| && trace[k] == Fire(self, false)
    }

    /** This thread reports Timer errors only of a Timer that has refused it or failed it. */
    lemma ErrorHasCause(i: nat)
      requires Running() && Initial(initial) && i < |Me().outcomes| && Me().outcomes[i].TimerError?
      ensures Refused() || TimerBroke()
    {
      hide Inv, Exec, Diligent, Refusal;
      var k := TimerErrorHasCause(initial, trace, self, i);
    }

    /** What the invariant of the run says about this thread. */
    lemma Facts()
      requires Running()
      ensures ShapeOk(Me()) && TimerOk(world, Me()) && LockOk(world, self)
    {
    }

    ghost function Me(): Thread<S, R>
      reads this
      requires self < |world.threads|
    {
      world.threads[self]
    }

    /** The next event of the run is a step of this thread; it uses up the visit that let it run, if there was one. */
    ghost method Advance(accepted: bool)
      requires Running() && RunStep(world, self, accepted).Some? && (accepted || Refused())
      modifies this`world, this`trace, this`pending
      ensures Running() && !pending && world == RunStep(old(world), self, accepted).value
      ensures trace == old(trace) + [Run(self, accepted)]
    {
      Move(Run(self, accepted));
    }

    ghost method Move(e: Event)
      requires Running() && Mover(e) == Some(self) && Step(world, e).Some? && (e == Run(self, false) ==> Refused())
      modifies this`world, this`trace, this`pending
      ensures Running() && !pending && world == Step(old(world), e).value && trace == old(trace) + [e]
    {
      hide Inv, Step, Diligent, Refusal;
      StepKeepsInv(world, e);
      StepIsGood(world, e);
      DiligentStep(initial, trace, visits, pending, self, e);
      assert (trace + [e])[..|trace|] == trace;
      assert |Step(world, e).value.threads| == |world.threads|;
      world := Step(world, e).value;
      trace, pending := trace + [e], false;
    }

    /** This thread has to wait on: the visit, if there was one, has found it blocked. */
    ghost method WaitOn()
      requires Running() && (pending ==> Blocked(world, self))
      modifies this`pending
      ensures Running() && !pending
    {
      hide Inv, Exec, Diligent, Refusal;
      DiligentWait(initial, trace, visits, pending, self);
      pending := false;
    }

    /** Any number of steps of others. */
    method Environment()
      requires Valid()
      modifies this`owner, this`data, this`signalled, this`awake, this`timer, this`clock, this`world, this`trace
      modifies waiters
      ensures Valid() && Interleaves(old(trace), trace, self)
    {
    }

    /** The thread may be preempted between any two atomic sections. */
    method Preempt()
      requires Valid()
      modifies this`owner, this`data, this`signalled, this`awake, this`timer, this`clock, this`world, this`trace
      modifies waiters
      ensures Valid() && Interleaves(old(trace), trace, self)
      ensures Undisturbed(old(world), world, self)
    {
      Environment();
      ForeignRun(initial, old(trace), trace, self);
    }

    /** Waits for the next visit of the scheduler; `false` if there is none. */
    method Yield() returns (alive: bool)
      requires Valid()
      modifies this, waiters
      ensures old(trace) <= trace
      ensures Tied() && Interleaves(old(trace), trace, self) && Undisturbed(old(world), world, self)
      ensures guard == old(guard) && old(clock) <= clock && pending == alive
      ensures alive <==> old(visited) < |script|
      ensures visited == old(visited) + if alive then 1 else 0
    {
      hide Inv, Exec, Diligent, Refusal, Lawful, Holds;
      Preempt();
      alive := visited < |script|;
      if alive {
        DiligentVisit(initial, trace, visits, self);
        visited, visits, pending := visited + 1, visits + [|trace|], true;
      }
    }

    /** The last visit told the executor to drop the future. */
    predicate Doomed()
      requires visited <= |script|
      reads this
    {
      visited > 0 && script[visited - 1].Drop?
    }

    // ---- Atomic sections --------------------------------------------------------------------------------

    /** Where a thread is once it has the lock. */
    ghost function Acquired(th: Thread<S, R>): Phase
      requires th.calls != []
    {
      if th.phase.Idle? then if th.calls[0].timing.Relative? then Sampling else Checking(true, false)
      else if th.phase.Relocking? && Timed(th.calls[0]) then FinalPoll(th.phase.id, th.phase.status)
      else Checking(false, false)
    }

    /** A thread that needs the state lock is blocked while somebody holds it. */
    lemma LockedOut()
      requires Running() && world.owner.Some? && Me().calls != [] && !Me().calls[0].timing.Total?
      requires Me().phase.Idle? || Me().phase.Relocking?
      ensures Blocked(world, self)
    {
    }

    /** Contends for the state lock until it is free. */
    method Contend() returns (alive: bool)
      requires Valid() && Me().calls != [] && !Me().calls[0].timing.Total?
      requires Me().phase.Idle? || Me().phase.Relocking?
      modifies this, waiters
      ensures old(trace) <= trace
      ensures Tied() && old(visited) <= visited && pending == alive && guard == old(guard)
      ensures if alive then old(visited) < visited && owner == None else visited == |script|
      ensures Me() == old(Me()).(timer := Me().timer) && old(clock) <= clock
    {
      hide Inv, Exec, Honest, Refusal, Lawful, Holds;
      alive := Yield();
      while alive && owner.Some?
        invariant old(trace) <= trace
        invariant Tied() && old(visited) <= visited && pending == alive && guard == old(guard)
        invariant if alive then old(visited) < visited else visited == |script|
        invariant Me() == old(Me()).(timer := Me().timer) && old(clock) <= clock
        decreases |script| - visited, alive
      {
        LockedOut();
        WaitOn();
        alive := Yield();
      }
    }

    /** The lock is free at this visit, and the thread takes it. */
    method Acquire()
      requires Tied() && pending && !guard && owner == None && Me().calls != [] && !Me().calls[0].timing.Total?
      requires Me().phase.Idle? || Me().phase.Relocking?
      modifies this, waiters
      ensures old(trace) <= trace
      ensures Valid() && guard && visited == old(visited) && clock == old(clock)
      ensures Me() == old(Me()).(timer := Me().timer, phase := Acquired(old(Me())))
    {
      hide Inv, Exec, Honest, Refusal, Lawful, Holds;
      owner, guard := Some(self), true;
      Advance(true);
    }

    /** Acquires the state lock, at the start of a call or after a suspension. */
    method Lock() returns (alive: bool)
      requires Valid() && !guard && Me().calls != [] && !Me().calls[0].timing.Total?
      requires Me().phase.Idle? || Me().phase.Relocking?
      modifies this, waiters
      ensures old(trace) <= trace
      ensures Valid() && old(visited) <= visited && old(clock) <= clock
      ensures alive ==> guard && old(visited) < visited
      ensures alive ==> Me() == old(Me()).(timer := Me().timer, phase := Acquired(old(Me())))
      ensures !alive ==> Me() == old(Me()).(timer := Me().timer) && !guard && visited == |script|
    {
      hide Inv, Exec, Honest, Refusal, Lawful, Holds;
      alive := Contend();
      if alive {
        Acquire();
      }
    }

    /** Empties the guard slot; the slot is occupied whenever this is reached. */
    method ReleaseGuard()
      requires Valid() && Me().phase.Releasing?
      modifies this, waiters
      ensures old(trace) <= trace
      ensures Valid() && visited == old(visited) && !guard
      ensures var id := old(Me()).phase.id;
        Me() == old(Me()).(timer := Me().timer,
          phase := if old(Me()).calls[0].kind.Blocking? then Parked(id) else Polling(id))
    {
      hide Inv, Exec, Honest, Refusal, Lawful, Holds;
      Facts();
      Preempt();
      assert guard;
      owner, guard := None, false;
      Advance(true);
    }

    /** The registration taken while the lock is held; `None` is the panic on exhausted identifiers. */
    method Register() returns (id: Option<nat>)
      requires Valid() && Me().phase == Registering
      modifies this, waiters
      ensures old(trace) <= trace
      ensures Valid() && visited == old(visited) && guard == old(guard)
      ensures id.Some? ==>
        var c := old(Me()).calls[0];
        Me() == old(Me()).(timer := Me().timer,
          phase := if c.kind.Blocking? && Timed(c) then WaiterPoll(id.value) else Releasing(id.value))
      ensures id.None? ==>
        Me() == old(Me()).(timer := NoTimer, phase := Leaving(Silent), outcomes := old(Me()).outcomes + [Exhausted])
      ensures old(Me().timer.Timer?) ==> (BrokenTimer(timer) <==> old(BrokenTimer(timer)))
    {
      hide Inv, Exec, Honest, Refusal;
      Facts();
      Preempt();
      label before:
      id := waiters.Register(waiters.nextWaiterId);
      Advance(true);
      if id.Some? { EnrolIds(old@before(waiters.fifo), id.value); }
    }

    /** Drops the registration, whether or not it has been selected. */
    method Unregister(id: nat)
      requires Valid() && Me().phase.Dropping? && Me().phase.id == id
      modifies this, waiters
      ensures old(trace) <= trace
      ensures Valid() && visited == old(visited)
      ensures guard == old(guard)
      ensures Me() == old(Me()).(timer := Me().timer, phase := Relocking(id, old(Me()).phase.status))
    {
      hide Inv, Exec, Honest, Refusal, Lawful, Holds, Apply;
      Facts();
      Preempt();
      WithdrawnIds(waiters.fifo, id);
      var waiter := waiters.Unregister(id);
      Advance(true);
    }

    /** Blocks on the latch; the loop tolerates spurious wakeups. */
    method WaitLatch(id: nat) returns (alive: bool)
      requires Valid() && !guard && Me().phase == Parked(id) && Me().calls != [] && Me().calls[0].kind.Blocking?
      modifies this, waiters
      ensures old(trace) <= trace
      ensures Valid() && old(visited) <= visited && !guard
      ensures alive ==> Me() == old(Me()).(timer := Me().timer, phase := Dropping(id, Signal))
      ensures !alive ==> Me() == old(Me()).(timer := Me().timer) && visited == |script|
    {
      hide Inv, Exec, Honest, Refusal, Lawful, Holds;
      alive := true;
      Preempt();
      while alive && id !in signalled && id !in awake
        invariant old(trace) <= trace
        invariant Tied() && old(visited) <= visited && !guard && (pending ==> alive)
        invariant Me() == old(Me()).(timer := Me().timer) && (!alive ==> visited == |script|)
        decreases |script| - visited, alive
      {
        WaitOn();
        alive := Yield();
      }
      if alive {
        Advance(true);
      }
    }

    /** The clock, read under the lock: the start of a relative budget. */
    method Now() returns (instant: nat)
      requires Valid() && Me().phase == Sampling
      modifies this, waiters
      ensures old(trace) <= trace
      ensures Valid() && visited == old(visited) && guard == old(guard) && old(clock) <= instant == clock
      ensures Me() == old(Me()).(timer := Me().timer, started := instant, phase := Checking(true, false))
    {
      hide Inv, Exec, Honest, Refusal, Lawful, Holds;
      Facts();
      Preempt();
      instant := clock;
      Advance(true);
    }

    /** Evaluates the predicate on the locked data. */
    method Evaluate(c: Call<S, R>) returns (blocked: bool)
      requires Valid() && guard && Me().phase.Checking? && Me().calls != [] && Me().calls[0] == c
      modifies this, waiters
      ensures old(trace) <= trace
      ensures Valid() && visited == old(visited) && guard
      ensures Me() == old(Me()).(timer := Me().timer) && data == old(data)
      ensures blocked == c.waiting(data)
      ensures old(Me().timer.Timer?) ==> Me().timer.Timer? && (BrokenTimer(timer) <==> old(BrokenTimer(timer)))
    {
      hide Inv, Exec, Honest, Refusal, Lawful, Holds;
      Preempt();
      blocked := c.waiting(data);
    }

    /** Runs the action on the locked data; the TimerFuture of the call is dropped. */
    method Act(c: Call<S, R>) returns (result: R)
      requires Valid() && guard && Me().phase.Checking? && Me().calls != [] && Me().calls[0] == c && !c.waiting(data)
      modifies this, waiters
      ensures old(trace) <= trace
      ensures Valid() && visited == old(visited) && guard
      ensures (data, result) == c.action(old(data))
      ensures old(Me().timer.Timer?) ==> (BrokenTimer(timer) <==> old(BrokenTimer(timer)))
      ensures Me() == old(Me()).(timer := NoTimer, phase := Leaving(c.note(result)),
                                 outcomes := old(Me()).outcomes + [Ready(result)])
    {
      hide Inv, Exec, Honest, Refusal, Lawful, Holds;
      Preempt();
      var (after, r) := c.action(data);
      data, result := after, r;
      Advance(true);
    }

    /** The predicate blocks and the loop goes on. */
    ghost method GoOn()
      requires Valid() && guard && Me().phase.Checking? && Me().calls != []
      requires Me().calls[0].waiting(data) && !Me().phase.expired
      modifies this`world, this`trace, this`pending
      ensures old(trace) <= trace
      ensures Valid()
      ensures var c := old(Me()).calls[0];
        Me() == old(Me()).(phase := if !Timed(c) then Registering else if old(Me()).phase.first then Arming
                                    else LoopStart(c.kind))
    {
      hide Inv, Exec, Honest, Refusal, Lawful, Holds;
      Advance(true);
    }

    /** Why a call may end with `o` under the lock, without its action and without waiting any further. */
    ghost predicate EndsWith(o: Outcome<R>)
      reads this
      requires self < |world.threads|
    {
      var th := Me();
      && th.calls != []
      && var timing := th.calls[0].timing;
      || (o.TimedOut? && th.phase == Checking(false, true) && th.calls[0].waiting(data))
      || (o.TimedOut? && th.phase.Arming? && timing == Relative(0))
      || (o.TimerError? && th.phase.FinalPoll? && th.phase.status.Broken?)
      || (o.Overflow? && th.phase.Arming? && timing.Relative? && timing.timeout > 0
          && th.started + timing.timeout > horizon)
    }

    method GiveUp(o: Outcome<R>)
      requires Valid() && guard && EndsWith(o)
      modifies this, waiters
      ensures old(trace) <= trace
      ensures Valid() && visited == old(visited) && guard
      ensures Me() == old(Me()).(timer := NoTimer, phase := Leaving(Silent), outcomes := old(Me()).outcomes + [o])
      ensures o.TimedOut? ==> Due(Me(), clock)
      ensures old(Me().timer.Timer?) ==> (BrokenTimer(timer) <==> old(BrokenTimer(timer)))
    {
      hide Inv, Exec, Honest, Refusal, Lawful, Holds;
      Facts();
      Preempt();
      Advance(true);
    }

    /** Creates the TimerFuture for `deadline`; unless the Timer refuses. */
    method At(deadline: nat) returns (accepted: bool)
      requires Valid() && Me().phase == Arming && Me().calls != []
      requires var timing := Me().calls[0].timing;
        || timing == Absolute(deadline)
        || (timing.Relative? && timing.timeout > 0 && deadline == Me().started + timing.timeout <= horizon)
      modifies this, waiters
      ensures old(trace) <= trace
      ensures Valid() && visited == old(visited) && guard == old(guard)
      ensures accepted == accepts(old(asked)) && asked == old(asked) + 1 && (!accepted ==> Refused())
      ensures accepted ==>
        var c := old(Me()).calls[0];
        Me() == old(Me()).(timer := Timer(deadline, Armed, None),
                           phase := if c.timing.Absolute? then PrePoll else LoopStart(c.kind))
      ensures !accepted ==>
        Me() == old(Me()).(timer := NoTimer, phase := Leaving(Silent), outcomes := old(Me()).outcomes + [TimerError])
    {
      hide Inv, Exec, Honest, Refusal, Lawful, Holds;
      Preempt();
      AskedOnce(initial, trace, visits, pending, self, accepts, asked);
      accepted := accepts(asked);
      asked := asked + 1;
      if accepted { timer := Timer(deadline, Armed, None); }
      Advance(accepted);
    }

    /** Polls the TimerFuture, which has never completed in an earlier poll. */
    method Poll(waker: Option<nat>) returns (answer: Option<bool>)
      requires Valid() && guard && Me().calls != [] && PollsAt(Me().phase) && waker == WakerAt(Me().phase)
      modifies this, waiters
      ensures old(trace) <= trace
      ensures Valid() && visited == old(visited) && guard
      ensures Me() == PolledThread(old(Me()), answer, Me().timer)
      ensures timer.Timer?
      ensures match answer
        case Some(ok) => timer.status == Spent(ok) && (ok ==> Due(Me(), clock))
        case None => timer.status.Armed? && timer.waker == waker
    {
      hide Inv, Exec, Honest, Refusal, Lawful, Holds, RunStep;
      Facts();
      Preempt();
      Facts();
      assert Pollable(timer);
      PollStep(world, self);
      answer := PollAnswer(timer);
      timer := AfterPoll(timer, waker);
      Advance(true);
    }

    /** Drops a registration whose Timer completed before the lock was released. */
    method Abandon(id: nat, ok: bool)
      requires Valid() && guard && Me().phase == Abandoning(id, ok)
      modifies this, waiters
      ensures old(trace) <= trace
      ensures Valid() && visited == old(visited) && guard
      ensures ok ==> Me() == old(Me()).(timer := Me().timer, phase := Checking(false, true))
      ensures !ok ==>
        Me() == old(Me()).(timer := NoTimer, phase := Leaving(Silent), outcomes := old(Me()).outcomes + [TimerError])
      ensures timer.Timer? && timer.status == Spent(ok)
    {
      hide Inv, Exec, Honest, Refusal, Lawful, Holds, Apply;
      Facts();
      Preempt();
      WithdrawnIds(waiters.fifo, id);
      var waiter := waiters.Unregister(id);
      Advance(true);
    }

    /** Releases the lock at the end of a call; with nothing to notify the call returns. */
    method Unlock(note: Note)
      requires Valid() && guard && Me().phase == Leaving(note)
      modifies this, waiters
      ensures old(trace) <= trace
      ensures Valid() && visited == old(visited) && !guard
      ensures Me() == if note.Silent? then Returned(old(Me())) else old(Me()).(phase := Taking(note))
    {
      hide Inv, Exec, Honest, Refusal, Lawful, Holds;
      Facts();
      Preempt();
      owner, guard := None, false;
      Advance(true);
    }

    /** Latches one taken waiter. */
    method SignalOne(taken: seq<nat>, ghost caller: Thread<S, R>)
      requires Valid() && !guard && caller.calls != [] && caller.timer == NoTimer && taken != []
      requires Me() == caller.(phase := Signalling(taken))
      modifies this, waiters
      ensures old(trace) <= trace
      ensures Valid() && visited == old(visited) && !guard
      ensures Me() == if |taken| == 1 then Returned(caller) else caller.(phase := Signalling(taken[1..]))
      ensures old(signalled) <= signalled && taken[0] in signalled
    {
      hide Inv, Exec, Honest, Refusal, Lawful, Holds;
      Preempt();
      assert Me() == caller.(phase := Signalling(taken));
      signalled := signalled + {taken[0]};
      Advance(true);
    }

    /** Latches the taken waiters one after the other, outside the registry lock. */
    method SignalEach(taken: seq<nat>, ghost caller: Thread<S, R>)
      requires Valid() && !guard && caller.calls != [] && caller.timer == NoTimer
      requires Me() == if taken == [] then Returned(caller) else caller.(phase := Signalling(taken))
      modifies this, waiters
      ensures old(trace) <= trace
      ensures Valid() && visited == old(visited) && !guard && Me() == Returned(caller)
      ensures forall x :: x in taken ==> x in signalled
    {
      hide Inv, Exec, Honest, Refusal, Lawful, Holds;
      var rest := taken;
      while rest != []
        invariant old(trace) <= trace
        invariant |rest| <= |taken| && rest == taken[|taken| - |rest|..]
        invariant forall i :: 0 <= i < |taken| - |rest| ==> taken[i] in signalled
        invariant Valid() && visited == old(visited) && !guard
        invariant Me() == if rest == [] then Returned(caller) else caller.(phase := Signalling(rest))
        decreases |rest|
      {
        SignalOne(rest, caller);
        rest := rest[1..];
      }
    }

    /** Event `k` of the run is this thread's notification taking `taken`: what `note` chooses from the registry. */
    ghost predicate Took(k: nat, note: Note, taken: seq<nat>)
      reads this
    {
      && k < |trace| && trace[k] == Run(self, true) && Exec(initial, trace[..k]).Some?
      && var u := Exec(initial, trace[..k]).value;
      self < |u.threads| && u.threads[self].phase == Taking(note) && taken == Chosen(u.queue, note)
    }

    /** Since event `from` this thread has taken the waiters that `note` chooses, and has signalled all of them. */
    ghost predicate Notified(from: nat, note: Note)
      reads this
    {
      exists k: nat, taken: seq<nat> ::
        from <= k < |trace| && Took(k, note, taken) && forall x :: x in taken ==> x in signalled
    }

    /** The taking step, which ends the call if there is nobody to signal. */
    ghost method Take(note: Note, taken: seq<nat>)
      requires Running() && Me().calls != [] && Me().phase == Taking(note) && taken == Chosen(world.queue, note)
      modifies this`world, this`trace, this`pending
      ensures Running() && !pending && old(trace) < trace && Took(|trace| - 1, note, taken)
      ensures var th := old(Me());
        world == Put(old(world).(queue := old(world).queue[|taken|..]), self,
          if taken == [] then Returned(th) else th.(phase := Signalling(taken)))
    {
      hide Inv, Honest, Refusal;
      TakeStep(world, self, taken);
      ghost var before := trace;
      Advance(true);
      assert trace[..|before|] == before;
    }

    /** Takes at most one registration, the oldest, under the registry lock. */
    method TakeOldest() returns (taken: seq<nat>)
      requires Valid() && !guard && Me().phase == Taking(One)
      modifies this, waiters
      ensures old(trace) < trace && Took(|trace| - 1, One, taken)
      ensures Valid() && visited == old(visited) && !guard
      ensures Me() == if taken == [] then Returned(old(Me())) else old(Me()).(phase := Signalling(taken))
    {
      hide Inv, Exec, Honest, Refusal, Apply;
      Facts();
      Preempt();
      FirstIds(waiters.fifo);
      var waiter := waiters.TakeOne();
      taken := if waiter.Some? then [waiter.value] else [];
      Take(One, taken);
    }

    /** Takes every registration, oldest first, under the registry lock. */
    method TakeEvery() returns (taken: seq<nat>)
      requires Valid() && !guard && Me().phase == Taking(All)
      modifies this, waiters
      ensures old(trace) < trace && Took(|trace| - 1, All, taken)
      ensures Valid() && visited == old(visited) && !guard
      ensures Me() == if taken == [] then Returned(old(Me())) else old(Me()).(phase := Signalling(taken))
    {
      hide Inv, Exec, Honest, Refusal;
      Facts();
      Preempt();
      taken := waiters.TakeAll();
      Take(All, taken);
    }

    /** A notification stays taken while the run goes on. */
    lemma TookStays(before: seq<Event>, note: Note, taken: seq<nat>)
      requires before != [] && before <= trace && before[|before| - 1] == Run(self, true)
      requires Exec(initial, before[..|before| - 1]).Some?
      requires var u := Exec(initial, before[..|before| - 1]).value;
        self < |u.threads| && u.threads[self].phase == Taking(note) && taken == Chosen(u.queue, note)
      ensures Took(|before| - 1, note, taken)
    {
      hide Exec;
      assert trace[..|before| - 1] == before[..|before| - 1];
    }

    method NotifyOne()
      requires Valid() && !guard && Me().phase == Taking(One)
      modifies this, waiters
      ensures old(trace) <= trace && Notified(|old(trace)|, One)
      ensures Valid() && visited == old(visited) && !guard && Me() == Returned(old(Me()))
    {
      hide Inv, Exec, Honest, Refusal, Lawful, Holds;
      Facts();
      var taken := TakeOldest();
      ghost var before := trace;
      SignalEach(taken, old(Me()));
      TookStays(before, One, taken);
    }

    /** Takes every registration under the registry lock, then signals them in order. */
    method NotifyAll()
      requires Valid() && !guard && Me().phase == Taking(All)
      modifies this, waiters
      ensures old(trace) <= trace && Notified(|old(trace)|, All)
      ensures Valid() && visited == old(visited) && !guard && Me() == Returned(old(Me()))
    {
      hide Inv, Exec, Honest, Refusal, Lawful, Holds;
      Facts();
      var taken := TakeEvery();
      ghost var before := trace;
      SignalEach(taken, old(Me()));
      TookStays(before, All, taken);
    }

    /** Fixes the deadline of a total budget before the lock is contended for; `None` when it overflows. */
    method DeadlineAfter(c: Call<S, R>, timeout: nat) returns (deadline: Option<nat>)
      requires Valid() && Me().phase == Idle && Me().calls != [] && Me().calls[0] == c && c.timing == Total(timeout)
      modifies this, waiters
      ensures old(trace) <= trace
      ensures Valid() && visited == old(visited) && guard == old(guard) && old(clock) <= clock
      ensures match deadline
        case Some(d) =>
          d == clock + timeout <= horizon
          && Me() == old(Me()).(calls := [c.(timing := Absolute(d))] + old(Me()).calls[1..])
        case None =>
          clock + timeout > horizon && Me() == Returned(old(Me()).(outcomes := old(Me()).outcomes + [Overflow]))
    {
      hide Inv, Exec, Honest, Refusal, Lawful, Holds;
      Facts();
      Preempt();
      deadline := if clock + timeout <= horizon then Some(clock + timeout) else None;
      Advance(true);
    }

    // ---- Suspension points of a Tokio task --------------------------------------------------------------

    /** The next event of the run drops the future of this task. */
    ghost method AdvanceDrop()
      requires Running() && CancelStep(world, self).Some?
      modifies this`world, this`trace, this`pending
      ensures Running() && !pending && world == CancelStep(old(world), self).value
      ensures trace == old(trace) + [Event.Cancel(self)]
    {
      Move(Event.Cancel(self));
    }

    /** The executor drops the future while it contends for the lock: there is nothing to release. */
    method DropContending()
      requires Tied() && pending && Doomed() && !guard && Suspended(Me()) && !Me().phase.Parked?
      modifies this, waiters
      ensures old(trace) <= trace
      ensures Valid() && visited == old(visited) && !guard
      ensures Me() == Returned(old(Me()).(timer := NoTimer, outcomes := old(Me()).outcomes + [Cancelled]))
    {
      hide Inv, Exec, Honest, Refusal, Lawful, Holds;
      AdvanceDrop();
    }

    /** The executor drops the future while it is registered: dropping the registration cancels it. */
    method DropRegistered(id: nat)
      requires Tied() && pending && Doomed() && !guard && Suspended(Me()) && Me().phase == Parked(id)
      modifies this, waiters
      ensures old(trace) <= trace
      ensures Valid() && visited == old(visited) && !guard
      ensures Me() == Returned(old(Me()).(timer := NoTimer, outcomes := old(Me()).outcomes + [Cancelled]))
    {
      hide Inv, Exec, Honest, Refusal, Lawful, Holds, Apply;
      WithdrawnIds(waiters.fifo, id);
      var waiter := waiters.Unregister(id);
      AdvanceDrop();
    }

    /** Awaits the state lock at each visit, or is dropped at one. */
    method ContendOrDrop() returns (alive: bool)
      requires Valid() && !guard && Suspended(Me()) && !Me().calls[0].timing.Total?
      requires Me().phase.Idle? || Me().phase.Relocking?
      modifies this, waiters
      ensures old(trace) <= trace
      ensures Tied() && old(visited) <= visited && pending == alive && !guard && old(clock) <= clock
      ensures if alive then old(visited) < visited && (Doomed() || owner == None) else visited == |script|
      ensures DropSeen(old(visited)) <==> alive && Doomed()
      ensures Me() == old(Me()).(timer := Me().timer)
    {
      hide Inv, Exec, Honest, Refusal, Lawful, Holds;
      alive := Yield();
      while alive && !Doomed() && owner.Some?
        invariant old(trace) <= trace
        invariant Tied() && old(visited) <= visited && pending == alive && !guard && old(clock) <= clock
        invariant if alive then old(visited) < visited else visited == |script|
        invariant DropSeen(old(visited)) <==> alive && Doomed()
        invariant Me() == old(Me()).(timer := Me().timer)
        decreases |script| - visited, alive
      {
        LockedOut();
        WaitOn();
        alive := Yield();
      }
    }

    /** Awaits the state lock; dropped if and only if the executor says so at a visit. */
    method LockOrDrop() returns (end: Resume)
      requires Valid() && !guard && Suspended(Me()) && !Me().calls[0].timing.Total?
      requires Me().phase.Idle? || Me().phase.Relocking?
      modifies this, waiters
      ensures old(trace) <= trace
      ensures Valid() && old(visited) <= visited && (end.Dropped? <==> DropSeen(old(visited)))
      ensures end.Resumed? ==> guard && old(visited) < visited && old(clock) <= clock
      ensures end.Resumed? ==> Me() == old(Me()).(timer := Me().timer, phase := Acquired(old(Me())))
      ensures end.Dropped? ==>
        !guard && Me() == Returned(old(Me()).(timer := NoTimer, outcomes := old(Me()).outcomes + [Cancelled]))
      ensures end.Abandoned? ==> Me() == old(Me()).(timer := Me().timer) && !guard && visited == |script|
    {
      hide Inv, Exec, Honest, Refusal, Lawful, Holds;
      var alive := ContendOrDrop();
      if !alive {
        return Abandoned;
      }
      if Doomed() {
        DropContending();
        return Dropped;
      }
      Acquire();
      end := Resumed;
    }

    /** One poll of the suspension: the Timer first, then the notification. */
    method PollSuspension(c: Call<S, R>, id: nat) returns (status: Option<Status>)
      requires Valid() && Me().phase == Polling(id) && Me().calls != [] && Me().calls[0] == c
      modifies this, waiters
      ensures old(trace) <= trace
      ensures Valid() && visited == old(visited) && guard == old(guard)
      ensures Me() == old(Me()).(timer := Me().timer,
        phase := if status.Some? then Dropping(id, status.value) else Parked(id))
      ensures status.Some? && !status.value.Signal? ==> Timed(c)
      ensures Timed(c) ==> timer.Timer?
      ensures match status
        case Some(Expired) => timer.status == Spent(true)
        case Some(Broken) => timer.status == Spent(false)
        case Some(Signal) => id in signalled && (Timed(c) ==> timer.status.Armed?)
        case None => id !in signalled && (Timed(c) ==> timer.status.Armed? && timer.waker == Some(id))
    {
      hide Inv, Exec, Honest, Refusal, Lawful, Holds;
      Facts();
      Preempt();
      var answer := if Timed(c) then PollAnswer(timer) else None;
      if Timed(c) {
        assert Pollable(timer);
        timer := AfterPoll(timer, Some(id));
      }
      status := if answer.Some? then Some(if answer.value then Expired else Broken)
                else if id in signalled then Some(Signal)
                else None;
      Advance(true);
    }

    /** The next event of the run is a poll of this task that nobody has asked for. */
    ghost method AdvanceRepoll()
      requires Running() && RepollStep(world, self).Some?
      modifies this`world, this`trace, this`pending
      ensures Running() && !pending && world == RepollStep(old(world), self).value
      ensures trace == old(trace) + [Repoll(self)]
    {
      Move(Repoll(self));
    }

    /**
      Suspended, without the lock, until the next visit of the executor: dropped if and only if it says so, and
      otherwise polled again, woken or not.
     */
    method Sleep(id: nat) returns (end: Resume)
      requires Valid() && !guard && Suspended(Me()) && Me().phase == Parked(id)
      modifies this, waiters
      ensures old(trace) <= trace
      ensures Valid() && old(visited) <= visited && (end.Dropped? <==> DropSeen(old(visited)))
      ensures end.Resumed? ==> old(visited) < visited && !guard
      ensures end.Resumed? ==> Me() == old(Me()).(timer := Me().timer, phase := Polling(id))
      ensures end.Dropped? ==>
        !guard && Me() == Returned(old(Me()).(timer := NoTimer, outcomes := old(Me()).outcomes + [Cancelled]))
      ensures end.Abandoned? ==> Me() == old(Me()).(timer := Me().timer) && !guard && visited == |script|
    {
      hide Inv, Exec, Honest, Refusal, Lawful, Holds;
      var alive := Yield();
      if !alive {
        return Abandoned;
      }
      if Doomed() {
        DropRegistered(id);
        return Dropped;
      }
      if id in signalled || id in awake {
        Advance(true);
      } else {
        AdvanceRepoll();
      }
      end := Resumed;
    }

    /** A task whose suspension ended by the deadline does not poll again. */
    ghost method Expire()
      requires Valid() && Me().phase.FinalPoll? && Me().phase.status.Expired?
      modifies this`world, this`trace, this`pending
      ensures old(trace) <= trace
      ensures Valid() && Me() == old(Me()).(phase := Checking(false, true))
    {
      hide Inv, Exec, Honest, Refusal, Lawful, Holds;
      Facts();
      Advance(true);
    }
  }

  lemma EnrolIds(q: Fifo<nat>, id: nat)
    requires Waiters(q.active) == Ids(q.active)
    ensures Ids(q.active + [(id, id)]) == Ids(q.active) + [id] == Waiters(q.active + [(id, id)])
  {
    assert Waiters(q.active + [(id, id)]) == Waiters(q.active) + [id];
  }

  /** Withdrawing a registration removes its identifier from the queue of identifiers. */
  lemma WithdrawnIds(q: Fifo<nat>, id: nat)
    requires Lawful(q) && Waiters(q.active) == Ids(q.active)
    ensures var v := Apply(q, Withdraw(id)).0;
      v.next == q.next && Ids(v.active) == Without(Ids(q.active), id) == Waiters(v.active)
  {
    ActiveIds(q);
    var s, k := q.active, Position(q.active, id);
    if k < |s| {
      WithoutAt(Ids(s), k);
      IdsCut(s, k);
      SameCut(s, k);
    } else {
      WithoutNone(Ids(s), id);
    }
  }

  lemma SameCut(s: seq<(nat, nat)>, k: nat)
    requires k < |s| && Waiters(s) == Ids(s)
    ensures Waiters(s[..k] + s[k + 1..]) == Ids(s[..k] + s[k + 1..])
  {
    assert forall i :: 0 <= i < |s| ==> s[i].0 == Ids(s)[i] == Waiters(s)[i] == s[i].1;
  }

  lemma {:induction false} WithoutNone(ids: seq<nat>, id: nat)
    requires id !in ids
    ensures Without(ids, id) == ids
  {
    if ids != [] {
      WithoutNone(ids[1..], id);
      assert [ids[0]] + ids[1..] == ids;
    }
  }

  lemma {:induction false} WithoutAt(ids: seq<nat>, k: nat)
    requires Ascending(ids) && k < |ids|
    ensures Without(ids, ids[k]) == ids[..k] + ids[k + 1..]
  {
    if k == 0 {
      WithoutNone(ids[1..], ids[0]);
    } else {
      WithoutAt(ids[1..], k - 1);
      assert [ids[0]] + (ids[1..][..k - 1] + ids[1..][k..]) == ids[..k] + ids[k + 1..];
    }
  }

  /** Taking the first registration takes what `notify_one` chooses from the queue of identifiers. */
  lemma FirstIds(q: Fifo<nat>)
    requires Waiters(q.active) == Ids(q.active)
    ensures var v, taken := Apply(q, First).0, if q.active == [] then [] else [q.active[0].1];
      && v.next == q.next && taken == Chosen(Ids(q.active), One) && Apply(q, First).1 == Taken(taken)
      && Ids(v.active) == Ids(q.active)[|taken|..] == Waiters(v.active)
  {
    if q.active != [] { assert Waiters(q.active[1..]) == Waiters(q.active)[1..]; }
  }
}
