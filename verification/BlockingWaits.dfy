/** The blocking guard waits and predicate loops, run on a `Runner`. */
module BlockingWaits {
  import opened Basics
  import opened Protocol
  import opened Invariants
  import FifoSpec
  import Registry
  import opened Interference
  import opened MonitorCode
  import opened Outcomes
  import opened Decisions

  /** How a guard wait ends. `Panicked`: identifiers exhausted. `Stopped`: never visited again. */
  datatype WaitEnd = Woken | Timeout | Failed | Panicked | Stopped

  /**
    Why a call has no answer: all visits of the scheduler are over, and the thread waits, without the lock, for the
    lock or for a signal. `Valid` says that none of the visits was wasted.
   */
  ghost predicate Stuck<S, R>(m: Runner<S, R>, before: Thread<S, R>)
    reads m, m.waiters
  {
    && m.Valid() && !m.guard && m.visited == |m.script| && Waits(m.Me().phase)
    && |m.Me().calls| == |before.calls| && m.Me().outcomes == before.outcomes
  }

  /** Releases the guard, parks on the registered waiter, deregisters it and reacquires the guard. */
  method Suspend<S, R>(m: Runner<S, R>, id: nat) returns (alive: bool)
    requires m.Valid() && m.guard && m.Me().phase == Releasing(id) && m.Me().calls != []
    requires m.Me().calls[0].kind.Blocking? && !m.Me().calls[0].timing.Total?
    modifies m, m.waiters
    ensures old(m.trace) <= m.trace
    ensures m.Valid() && old(m.visited) <= m.visited
    ensures alive ==> m.guard && old(m.visited) < m.visited
    ensures alive ==> m.Me() == old(m.Me()).(timer := m.Me().timer,
      phase := if Timed(old(m.Me()).calls[0]) then FinalPoll(id, Signal) else Checking(false, false))
    ensures !alive ==> Stuck(m, old(m.Me()))
  {
    hide Inv, Exec, Honest, Refusal, FifoSpec.Lawful, Registry.Holds;
    m.ReleaseGuard();
    alive := m.WaitLatch(id);
    if alive {
      m.Unregister(id);
      alive := m.Lock();
    }
  }

  /** On a normal return the guard slot is occupied again and the registration is gone. */
  method WaitForNotification<S, R>(m: Runner<S, R>) returns (end: WaitEnd)
    requires m.Valid() && m.guard && m.Me().phase == Registering && m.Me().calls != []
    requires m.Me().calls[0].kind.Blocking? && !Timed(m.Me().calls[0])
    modifies m, m.waiters
    ensures old(m.trace) <= m.trace
    ensures m.Valid() && old(m.visited) <= m.visited
    ensures end.Woken? || end.Panicked? || end.Stopped?
    ensures end.Woken? ==>
      m.guard && old(m.visited) < m.visited
      && m.Me() == old(m.Me()).(timer := m.Me().timer, phase := Checking(false, false))
    ensures end.Panicked? ==> m.guard && m.Me() == Deciding(old(m.Me()), Exhausted)
    ensures end.Stopped? ==> Stuck(m, old(m.Me()))
  {
    hide Inv, Exec, Honest, Refusal, FifoSpec.Lawful, Registry.Holds;
    var id := m.Register();
    if id.None? {
      return Panicked;
    }
    var alive := Suspend(m, id.value);
    end := if alive then Woken else Stopped;
  }

  /** Suspends and then polls the TimerFuture once more, still with the old waiter. */
  method SuspendWithTimer<S, R>(m: Runner<S, R>, id: nat) returns (end: WaitEnd)
    requires m.Valid() && m.guard && m.Me().phase == Releasing(id) && m.Me().calls != []
    requires m.Me().calls[0].kind.Blocking? && Timed(m.Me().calls[0]) && !m.Me().calls[0].timing.Total?
    modifies m, m.waiters
    ensures old(m.trace) <= m.trace
    ensures m.Valid() && old(m.visited) <= m.visited && !end.Panicked?
    ensures TimedEnd(end, old(m.Me()), m.Me(), m.guard, m.timer) && (end.Woken? ==> old(m.visited) < m.visited)
    ensures end.Stopped? ==> Stuck(m, old(m.Me()))
  {
    hide Inv, Exec, Honest, Refusal, FifoSpec.Lawful, Registry.Holds;
    var alive := Suspend(m, id);
    if !alive {
      return Stopped;
    }
    var answer := m.Poll(Some(id));
    end := if answer.None? then Woken else if answer.value then Timeout else Failed;
  }

  /**
    What each end of a timed guard wait leaves behind, and what its last poll of the TimerFuture has answered; the
    guard slot is occupied on every return.
   */
  ghost predicate TimedEnd<S, R>(end: WaitEnd, a: Thread<S, R>, b: Thread<S, R>, guard: bool, timer: Timer)
    requires a.calls != []
  {
    && (!end.Stopped? ==> guard)
    && (end.Woken? ==>
          b == a.(timer := b.timer, phase := Checking(false, false)) && timer.Timer? && timer.status.Armed?)
    && (end.Timeout? ==>
          b == a.(timer := b.timer, phase := Checking(false, true)) && timer.Timer? && timer.status == Spent(true))
    && (end.Failed? ==> b == Deciding(a, TimerError) && BrokenTimer(timer))
    && (end.Panicked? ==> b == Deciding(a, Exhausted) && !BrokenTimer(timer))
  }

  /** With the registration in place: polls with its waiter, and parks only if the Timer is still pending. */
  method WaitRegistered<S, R>(m: Runner<S, R>, id: nat) returns (end: WaitEnd)
    requires m.Valid() && m.guard && m.Me().phase == WaiterPoll(id) && m.Me().calls != []
    requires m.Me().calls[0].kind.Blocking? && Timed(m.Me().calls[0]) && !m.Me().calls[0].timing.Total?
    modifies m, m.waiters
    ensures old(m.trace) <= m.trace
    ensures m.Valid() && old(m.visited) <= m.visited && !end.Panicked?
    ensures TimedEnd(end, old(m.Me()), m.Me(), m.guard, m.timer) && (end.Woken? ==> old(m.visited) < m.visited)
    ensures end.Stopped? ==> Stuck(m, old(m.Me()))
  {
    hide Inv, Exec, Honest, Refusal, FifoSpec.Lawful, Registry.Holds;
    var answer := m.Poll(Some(id));
    if answer.Some? {
      m.Abandon(id, answer.value);
      return if answer.value then Timeout else Failed;
    }
    end := SuspendWithTimer(m, id);
  }

  method RegisterAndWait<S, R>(m: Runner<S, R>) returns (end: WaitEnd)
    requires m.Valid() && m.guard && m.Me().phase == Registering && m.Me().calls != []
    requires m.Me().calls[0].kind.Blocking? && Timed(m.Me().calls[0]) && !m.Me().calls[0].timing.Total?
    modifies m, m.waiters
    ensures old(m.trace) <= m.trace
    ensures m.Valid() && old(m.visited) <= m.visited
    ensures TimedEnd(end, old(m.Me()), m.Me(), m.guard, m.timer) && (end.Woken? ==> old(m.visited) < m.visited)
    ensures end.Stopped? ==> Stuck(m, old(m.Me()))
  {
    hide Inv, Exec, Honest, Refusal, FifoSpec.Lawful, Registry.Holds;
    m.Facts();
    var id := m.Register();
    if id.None? {
      return Panicked;
    }
    end := WaitRegistered(m, id.value);
  }

  /** Polls without a waiter first, so that a Timer that has already completed is not raced by a registration. */
  method WaitWithTimer<S, R>(m: Runner<S, R>) returns (end: WaitEnd)
    requires m.Valid() && m.guard && m.Me().phase == LoopPoll && m.Me().calls != []
    requires m.Me().calls[0].kind.Blocking? && Timed(m.Me().calls[0]) && !m.Me().calls[0].timing.Total?
    modifies m, m.waiters
    ensures old(m.trace) <= m.trace
    ensures m.Valid() && old(m.visited) <= m.visited
    ensures TimedEnd(end, old(m.Me()), m.Me(), m.guard, m.timer) && (end.Woken? ==> old(m.visited) < m.visited)
    ensures end.Stopped? ==> Stuck(m, old(m.Me()))
  {
    hide Inv, Exec, Honest, Refusal, FifoSpec.Lawful, Registry.Holds;
    var answer := m.Poll(None);
    if answer.Some? {
      return if answer.value then Timeout else Failed;
    }
    end := RegisterAndWait(m);
  }

  /**
    The deciding check under the lock: the action runs if and only if the predicate does not block; a blocking
    predicate ends the call once the deadline has been seen, and otherwise the loop goes on (`None`).
   */
  method Check<S, R>(m: Runner<S, R>, c: Call<S, R>, expired: bool) returns (outcome: Option<Outcome<R>>)
    requires m.Valid() && m.guard && m.Me().phase.Checking? && m.Me().phase.expired == expired
    requires m.Me().calls != [] && m.Me().calls[0] == c
    modifies m, m.waiters
    ensures old(m.trace) <= m.trace
    ensures m.Valid() && m.guard && m.visited == old(m.visited)
    ensures match outcome
      case Some(o) => m.Me() == Deciding(old(m.Me()), o) && (o.Ready? || (o.TimedOut? && expired))
      case None => m.Me() == old(m.Me()).(timer := m.Me().timer, phase := NextAfter(old(m.Me()).phase, c)) && !expired
    ensures outcome.Some? && outcome.value.Ready? <==> !c.waiting(old(m.data))
    ensures outcome.Some? && outcome.value.Ready? ==> (m.data, outcome.value.result) == c.action(old(m.data))
    ensures outcome == Some(TimedOut) ==> Due(m.Me(), m.clock)
    ensures old(m.Me().timer.Timer?) ==> (BrokenTimer(m.timer) <==> old(BrokenTimer(m.timer)))
  {
    hide Inv, Exec, Honest, Refusal, FifoSpec.Lawful, Registry.Holds;
    m.Facts();
    var blocked := m.Evaluate(c);
    if !blocked {
      var result := m.Act(c);
      return Some(Ready(result));
    }
    if expired {
      m.GiveUp(TimedOut);
      return Some(TimedOut);
    }
    m.GoOn();
    outcome := None;
  }

  /** Where a call goes whose predicate blocks. */
  ghost function NextAfter<S, R>(p: Phase, c: Call<S, R>): Phase
    requires p.Checking?
  {
    if !Timed(c) then Registering else if p.first then Arming else LoopStart(c.kind)
  }

  /** An iteration of a loop has decided the call, or the next one begins at `next`. */
  ghost predicate Settled<S, R>(m: Runner<S, R>, before: Thread<S, R>, next: Phase, outcome: Option<Outcome<R>>)
    reads m, m.waiters
    requires before.calls != []
  {
    && m.Valid() && m.guard
    && match outcome
       case Some(o) =>
         && m.Me() == Deciding(before, o) && !o.Cancelled? && !o.Overflow?
         && (o.TimedOut? ==> Due(m.Me(), m.clock)) && (o.TimerError? ==> BrokenTimer(m.timer))
       case None => m.Me() == before.(timer := m.Me().timer, phase := next)
  }

  /** One iteration of the untimed loop; `stopped` if the thread is never visited again. */
  method AwaitAndCheck<S, R>(m: Runner<S, R>, c: Call<S, R>) returns (stopped: bool, outcome: Option<Outcome<R>>)
    requires m.Valid() && m.guard && m.Me().phase == Registering && m.Me().calls != []
    requires m.Me().calls[0] == c && c.kind.Blocking? && !Timed(c)
    modifies m, m.waiters
    ensures old(m.trace) <= m.trace && m.Valid() && old(m.visited) <= m.visited
    ensures !stopped ==> Settled(m, old(m.Me()), Registering, outcome)
    ensures outcome != Some(TimedOut) && outcome != Some(TimerError)
    ensures !stopped && outcome.None? ==> old(m.visited) < m.visited
    ensures stopped ==> Stuck(m, old(m.Me()))
  {
    hide Inv, Exec, Honest, Refusal, FifoSpec.Lawful, Registry.Holds;
    var end := WaitForNotification(m);
    stopped, outcome := end.Stopped?, if end.Panicked? then Some(Exhausted) else None;
    if end.Woken? {
      outcome := Check(m, c, false);
    }
  }

  /** The untimed predicate loop; `None` when the thread is never visited again. */
  method WaitWhileLocked<S, R>(m: Runner<S, R>, c: Call<S, R>) returns (outcome: Option<Outcome<R>>)
    requires m.Valid() && m.guard && m.Me().phase == Checking(true, false) && m.Me().calls != []
    requires m.Me().calls[0] == c && c.kind.Blocking? && !Timed(c)
    modifies m, m.waiters
    ensures old(m.trace) <= m.trace
    ensures m.Valid()
    ensures match outcome
      case Some(o) => m.guard && m.Me() == Deciding(old(m.Me()), o) && !o.TimedOut? && !o.TimerError?
      case None => Stuck(m, old(m.Me()))
  {
    hide Inv, Exec, Honest, Refusal, FifoSpec.Lawful, Registry.Holds;
    outcome := Check(m, c, false);
    while outcome.None?
      invariant old(m.trace) <= m.trace
      invariant Settled(m, old(m.Me()), Registering, outcome)
      invariant outcome != Some(TimedOut) && outcome != Some(TimerError)
      decreases |m.script| - m.visited, outcome.None?
    {
      var stopped;
      stopped, outcome := AwaitAndCheck(m, c);
      if stopped {
        return None;
      }
    }
  }

  /** One iteration of the timed loop; `stopped` if the thread is never visited again. */
  method WaitAndCheck<S, R>(m: Runner<S, R>, c: Call<S, R>) returns (stopped: bool, outcome: Option<Outcome<R>>)
    requires m.Valid() && m.guard && m.Me().phase == LoopPoll && m.Me().calls != []
    requires m.Me().calls[0] == c && c.kind.Blocking? && Timed(c) && !c.timing.Total?
    modifies m, m.waiters
    ensures old(m.trace) <= m.trace
    ensures m.Valid() && old(m.visited) <= m.visited && (!stopped ==> Settled(m, old(m.Me()), LoopPoll, outcome))
    ensures !stopped && outcome.None? ==> old(m.visited) < m.visited
    ensures stopped ==> Stuck(m, old(m.Me()))
    ensures !stopped ==> (outcome == Some(TimerError) <==> BrokenTimer(m.timer))
  {
    hide Inv, Exec, Honest, Refusal, FifoSpec.Lawful, Registry.Holds;
    var end := WaitWithTimer(m);
    stopped, outcome := end.Stopped?, None;
    match end
    case Stopped =>
    case Panicked => outcome := Some(Exhausted);
    case Failed => outcome := Some(TimerError);
    case Woken => m.Facts(); outcome := Check(m, c, false);
    case Timeout => m.Facts(); outcome := Check(m, c, true);
  }

  /** The timed predicate loop over one fixed TimerFuture. */
  method WaitWhileWithTimerLocked<S, R>(m: Runner<S, R>, c: Call<S, R>) returns (outcome: Option<Outcome<R>>)
    requires m.Valid() && m.guard && m.Me().phase == LoopPoll && m.Me().calls != []
    requires m.Me().calls[0] == c && c.kind.Blocking? && Timed(c) && !c.timing.Total?
    modifies m, m.waiters
    ensures old(m.trace) <= m.trace
    ensures if outcome.Some? then Settled(m, old(m.Me()), LoopPoll, outcome) else Stuck(m, old(m.Me()))
  {
    hide Inv, Exec, Honest, Refusal, FifoSpec.Lawful, Registry.Holds;
    outcome := None;
    while outcome.None?
      invariant old(m.trace) <= m.trace
      invariant Settled(m, old(m.Me()), LoopPoll, outcome)
      decreases |m.script| - m.visited, outcome.None?
    {
      var stopped;
      stopped, outcome := WaitAndCheck(m, c);
      if stopped {
        return None;
      }
    }
  }

  // ---- Whole calls ------------------------------------------------------------------------------------

  /** The call is decided with `outcome` and still holds the lock, or the thread is stuck on the way. */
  ghost predicate CallEnd<S, R>(m: Runner<S, R>, before: Thread<S, R>, outcome: Option<Outcome<R>>)
    reads m, m.waiters
    requires before.calls != []
  {
    && m.Valid()
    && (outcome.Some? ==>
          && m.guard && m.Me() == Deciding(before.(started := m.Me().started), outcome.value)
          && (outcome.value.TimedOut? ==> Due(m.Me(), m.clock))
          && (outcome.value.TimerError? ==> m.Refused() || BrokenTimer(m.timer)))
    && (outcome.None? ==> Stuck(m, before))
  }

  /** The relative budget starts after the lock is acquired and before the first check. */
  method WaitWhileFor<S, R>(m: Runner<S, R>, c: Call<S, R>, timeout: nat) returns (outcome: Option<Outcome<R>>)
    requires m.Valid() && m.Me().phase == Idle && m.Me().calls != [] && m.Me().calls[0] == c
    requires c.kind.Blocking? && c.timing == Relative(timeout)
    modifies m, m.waiters
    ensures old(m.trace) <= m.trace
    ensures CallEnd(m, old(m.Me()), outcome)
    ensures outcome.Some? ==> old(m.clock) <= m.Me().started
    ensures outcome == Some(Overflow) ==> timeout > 0 && m.Me().started + timeout > m.horizon
  {
    hide Inv, Exec, Honest, Refusal, FifoSpec.Lawful, Registry.Holds;
    m.Facts();
    var alive := m.Lock();
    if !alive {
      return None;
    }
    outcome := RunBudget(m, c, timeout);
  }

  /** The relative budget starts under the lock, before the first check. */
  method RunBudget<S, R>(m: Runner<S, R>, c: Call<S, R>, timeout: nat) returns (outcome: Option<Outcome<R>>)
    requires m.Valid() && m.guard && m.Me().phase == Sampling && m.Me().calls != [] && m.Me().calls[0] == c
    requires c.kind.Blocking? && c.timing == Relative(timeout)
    modifies m, m.waiters
    ensures old(m.trace) <= m.trace
    ensures CallEnd(m, old(m.Me()), outcome)
    ensures outcome.Some? ==> old(m.clock) <= m.Me().started
    ensures outcome == Some(Overflow) ==> timeout > 0 && m.Me().started + timeout > m.horizon
  {
    hide Inv, Exec, Honest, Refusal, FifoSpec.Lawful, Registry.Holds;
    var startedAt := m.Now();
    outcome := Check(m, c, false);
    if outcome.Some? {
      return;
    }
    outcome := ArmRelative(m, c, timeout, startedAt);
  }

  method ArmRelative<S, R>(m: Runner<S, R>, c: Call<S, R>, timeout: nat, startedAt: nat)
      returns (outcome: Option<Outcome<R>>)
    requires m.Valid() && m.guard && m.Me().phase == Arming && m.Me().calls != [] && m.Me().calls[0] == c
    requires c.kind.Blocking? && c.timing == Relative(timeout) && m.Me().started == startedAt
    modifies m, m.waiters
    ensures old(m.trace) <= m.trace
    ensures CallEnd(m, old(m.Me()), outcome) && (outcome.Some? ==> m.Me().started == startedAt)
    ensures timeout == 0 ==> outcome == Some(TimedOut)
    ensures outcome == Some(Overflow) <==> timeout > 0 && startedAt + timeout > m.horizon
    ensures 0 < timeout <= m.horizon - startedAt && !m.accepts(old(m.asked)) ==> outcome == Some(TimerError)
  {
    hide Inv, Exec, Honest, Refusal, FifoSpec.Lawful, Registry.Holds;
    if timeout == 0 {
      m.GiveUp(TimedOut);
      return Some(TimedOut);
    }
    if startedAt + timeout > m.horizon {
      m.GiveUp(Overflow);
      return Some(Overflow);
    }
    var accepted := m.At(startedAt + timeout);
    if !accepted {
      return Some(TimerError);
    }
    outcome := WaitWhileWithTimerLocked(m, c);
  }

  method WaitWhileWithDeadline<S, R>(m: Runner<S, R>, c: Call<S, R>, deadline: nat)
      returns (outcome: Option<Outcome<R>>)
    requires m.Valid() && m.Me().phase == Idle && m.Me().calls != [] && m.Me().calls[0] == c
    requires c.kind.Blocking? && c.timing == Absolute(deadline)
    modifies m, m.waiters
    ensures old(m.trace) <= m.trace
    ensures CallEnd(m, old(m.Me()), outcome)
  {
    hide Inv, Exec, Honest, Refusal, FifoSpec.Lawful, Registry.Holds;
    m.Facts();
    var alive := m.Lock();
    if !alive {
      return None;
    }
    outcome := Check(m, c, false);
    if outcome.Some? {
      return;
    }
    outcome := ArmAbsolute(m, c, deadline);
  }

  /** An absolute deadline that has already passed ends the call before any registration. */
  method ArmAbsolute<S, R>(m: Runner<S, R>, c: Call<S, R>, deadline: nat) returns (outcome: Option<Outcome<R>>)
    requires m.Valid() && m.guard && m.Me().phase == Arming && m.Me().calls != [] && m.Me().calls[0] == c
    requires c.kind.Blocking? && c.timing == Absolute(deadline)
    modifies m, m.waiters
    ensures old(m.trace) <= m.trace
    ensures CallEnd(m, old(m.Me()), outcome)
    ensures !m.accepts(old(m.asked)) ==> outcome == Some(TimerError)
  {
    hide Inv, Exec, Honest, Refusal, FifoSpec.Lawful, Registry.Holds;
    var accepted := m.At(deadline);
    if !accepted {
      return Some(TimerError);
    }
    var answer := m.Poll(None);
    if answer.Some? {
      return Some(if answer.value then TimedOut else TimerError);
    }
    outcome := WaitWhileWithTimerLocked(m, c);
  }

  method WaitWhile<S, R>(m: Runner<S, R>, c: Call<S, R>) returns (outcome: Option<Outcome<R>>)
    requires m.Valid() && m.Me().phase == Idle && m.Me().calls != [] && m.Me().calls[0] == c
    requires c.kind.Blocking? && c.timing == Untimed
    modifies m, m.waiters
    ensures old(m.trace) <= m.trace
    ensures CallEnd(m, old(m.Me()), outcome)
  {
    hide Inv, Exec, Honest, Refusal, FifoSpec.Lawful, Registry.Holds;
    m.Facts();
    var alive := m.Lock();
    if !alive {
      return None;
    }
    outcome := WaitWhileLocked(m, c);
  }

  /** Releases the lock and notifies as the caller of the wait does. */
  method Finish<S, R>(m: Runner<S, R>, note: Note)
    requires m.Valid() && m.guard && m.Me().phase == Leaving(note)
    modifies m, m.waiters
    ensures old(m.trace) <= m.trace
    ensures m.Valid() && !m.guard && m.Me() == Returned(old(m.Me())) && m.visited == old(m.visited)
    ensures !note.Silent? ==> m.Notified(|old(m.trace)|, note)
  {
    hide Inv, Exec, Honest, Refusal, FifoSpec.Lawful, Registry.Holds;
    m.Facts();
    m.Unlock(note);
    match note
    case Silent =>
    case One => m.NotifyOne();
    case All => m.NotifyAll();
  }

  /** The thread after one whole call. */
  ghost predicate Called<S, R>(a: Thread<S, R>, b: Thread<S, R>, o: Outcome<R>) {
    && a.calls != [] && b.calls == a.calls[1..] && b.phase == Idle && b.timer == NoTimer
    && b.outcomes == a.outcomes + [o]
  }

  /**
    The call `c` has returned with `o`: as an abstract decision of this very call, taken since `before`, and with the
    budget really spent if it timed out; and its caller has notified as it does after `o`.
   */
  ghost predicate Performed<S, R>(m: Runner<S, R>, before: seq<Event>, a: Thread<S, R>, c: Call<S, R>, o: Outcome<R>)
    reads m, m.waiters
  {
    && m.Valid() && !m.guard && Called(a, m.Me(), o)
    && Explained(m.initial, before, m.trace, m.self, |a.outcomes|, c, o)
    && (!NoteOf(c, o).Silent? ==> m.Notified(|before|, NoteOf(c, o)))
    && (o.TimerError? ==> m.Refused() || m.TimerBroke())
  }

  /**
    One blocking monitor call from start to return, whatever its timing and its notification. Since `Valid` makes the
    state the end of a run of the step system, every theorem about runs holds of this code.
   */
  method Perform<S, R>(m: Runner<S, R>, c: Call<S, R>) returns (outcome: Option<Outcome<R>>)
    requires m.Valid() && m.Me().phase == Idle && m.Me().calls != [] && m.Me().calls[0] == c && c.kind.Blocking?
    modifies m, m.waiters
    ensures old(m.trace) <= m.trace && m.Valid()
    ensures outcome.Some? ==> Performed(m, old(m.trace), old(m.Me()), c, outcome.value)
    ensures outcome.None? ==> Stuck(m, old(m.Me()))
  {
    hide Inv, Exec, Honest, Refusal, FifoSpec.Lawful, Registry.Holds;
    if c.timing.Total? {
      outcome := PerformTotal(m, c, c.timing.budget);
    } else {
      outcome := PerformBound(m, c);
    }
  }

  /** Unlocks and notifies after a wait with the outcome `o`. */
  method Return<S, R>(m: Runner<S, R>, c: Call<S, R>, o: Outcome<R>, ghost before: seq<Event>,
                      ghost w: World<S, R>, ghost made: Call<S, R>)
    requires m.Valid() && m.guard && before <= m.trace && Exec(m.initial, before) == Some(w) && m.self < |w.threads|
    requires var a := w.threads[m.self];
      && a.calls != [] && a.phase.Idle? && made == a.calls[0] && NoteOf(made, o) == NoteOf(c, o)
      && m.Me().calls != [] && m.Me().calls[1..] == a.calls[1..] && m.Me().timer == NoTimer
      && m.Me().phase == Leaving(NoteOf(c, o)) && m.Me().outcomes == a.outcomes + [o]
    modifies m, m.waiters
    ensures old(m.trace) <= m.trace && Performed(m, before, w.threads[m.self], made, o) && m.visited == old(m.visited)
  {
    hide Inv, Exec, Honest, Refusal, FifoSpec.Lawful, Registry.Holds;
    Finish(m, NoteOf(c, o));
    NewOutcomeIsExplained(m.initial, before, m.trace, m.self, w, m.world, o);
    if o.TimerError? { m.ErrorHasCause(|w.threads[m.self].outcomes|); }
  }

  /** A call without a total budget to fix: locks, waits, acts, unlocks and notifies. */
  method PerformBound<S, R>(m: Runner<S, R>, c: Call<S, R>) returns (outcome: Option<Outcome<R>>)
    requires m.Valid() && m.Me().phase == Idle && m.Me().calls != [] && m.Me().calls[0] == c && c.kind.Blocking?
    requires !c.timing.Total?
    modifies m, m.waiters
    ensures old(m.trace) <= m.trace && m.Valid()
    ensures outcome.Some? ==> Performed(m, old(m.trace), old(m.Me()), c, outcome.value)
    ensures outcome.None? ==> Stuck(m, old(m.Me()))
  {
    hide Inv, Exec, Honest, Refusal, FifoSpec.Lawful, Registry.Holds;
    match c.timing {
      case Untimed => outcome := WaitWhile(m, c);
      case Relative(timeout) => outcome := WaitWhileFor(m, c, timeout);
      case Absolute(deadline) => outcome := WaitWhileWithDeadline(m, c, deadline);
    }
    if outcome.Some? {
      Return(m, c, outcome.value, old(m.trace), old(m.world), c);
    }
  }

  /** The operation-wide budget also counts the time spent contending for the lock. */
  method PerformTotal<S, R>(m: Runner<S, R>, c: Call<S, R>, timeout: nat) returns (outcome: Option<Outcome<R>>)
    requires m.Valid() && m.Me().phase == Idle && m.Me().calls != [] && m.Me().calls[0] == c
    requires c.kind.Blocking? && c.timing == Total(timeout)
    modifies m, m.waiters
    ensures old(m.trace) <= m.trace && m.Valid()
    ensures outcome.Some? ==> Performed(m, old(m.trace), old(m.Me()), c, outcome.value)
    ensures outcome.None? ==> Stuck(m, old(m.Me()))
  {
    hide Inv, Exec, Honest, Refusal, FifoSpec.Lawful, Registry.Holds;
    m.Facts();
    var deadline := m.DeadlineAfter(c, timeout);
    if deadline.None? {
      NewOutcomeIsExplained(m.initial, old(m.trace), m.trace, m.self, old(m.world), m.world, Overflow);
      return Some(Overflow);
    }
    var fixed := c.(timing := Absolute(deadline.value));
    outcome := WaitWhileWithDeadline(m, fixed, deadline.value);
    if outcome.Some? {
      Return(m, fixed, outcome.value, old(m.trace), old(m.world), c);
    }
  }
}
