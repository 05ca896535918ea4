/** The asynchronous predicate loops, run on a `Runner` whose task may be dropped wherever it is suspended. */
module TokioWaits {
  import opened Basics
  import opened Protocol
  import opened Invariants
  import FifoSpec
  import Registry
  import opened Interference
  import opened MonitorCode
  import opened Outcomes
  import opened Decisions
  import opened BlockingWaits

  /** The thread after its future has been dropped. */
  ghost function Cancelling<S, R>(th: Thread<S, R>): Thread<S, R>
    requires th.calls != []
  {
    Returned(th.(timer := NoTimer, outcomes := th.outcomes + [Cancelled]))
  }

  /** Awaits selection or the deadline; every return of Pending is a point at which the future may be dropped. */
  method AwaitSignal<S, R>(m: Runner<S, R>, c: Call<S, R>, id: nat) returns (end: Resume, status: Status)
    requires m.Valid() && !m.guard && m.Me().phase == Polling(id)
    requires m.Me().calls != [] && m.Me().calls[0] == c && c.kind.Tokio?
    modifies m, m.waiters
    ensures old(m.trace) <= m.trace
    ensures m.Valid() && old(m.visited) <= m.visited && (end.Resumed? ==> !m.guard)
    ensures end.Resumed? ==> m.Me() == old(m.Me()).(timer := m.Me().timer, phase := Dropping(id, status))
    ensures end.Resumed? && !Timed(c) ==> status == Signal
    ensures end.Dropped? ==> !m.guard && m.Me() == Cancelling(old(m.Me()))
    ensures (end.Dropped? <==> m.DropSeen(old(m.visited))) && (end.Abandoned? ==> Stuck(m, old(m.Me())))
  {
    hide Inv, Exec, Honest, Refusal, FifoSpec.Lawful, Registry.Holds;
    status := Signal;
    var answer := m.PollSuspension(c, id);
    while answer.None?
      invariant old(m.trace) <= m.trace
      invariant m.Valid() && old(m.visited) <= m.visited && !m.guard
      invariant m.Me() == old(m.Me()).(timer := m.Me().timer,
        phase := if answer.Some? then Dropping(id, answer.value) else Parked(id))
      invariant answer.Some? && !answer.value.Signal? ==> Timed(c)
      invariant !m.DropSeen(old(m.visited))
      decreases |m.script| - m.visited, answer.None?
    {
      end := m.Sleep(id);
      if !end.Resumed? {
        return;
      }
      answer := m.PollSuspension(c, id);
    }
    end, status := Resumed, answer.value;
  }

  /** Releases the guard, suspends, drops the registration and awaits the lock again. */
  method SuspendAsync<S, R>(m: Runner<S, R>, c: Call<S, R>, id: nat) returns (end: Resume, status: Status)
    requires m.Valid() && m.guard && m.Me().phase == Releasing(id) && m.Me().calls != [] && m.Me().calls[0] == c
    requires c.kind.Tokio? && !c.timing.Total?
    modifies m, m.waiters
    ensures old(m.trace) <= m.trace
    ensures m.Valid() && old(m.visited) <= m.visited
    ensures end.Resumed? ==> m.guard && old(m.visited) < m.visited
    ensures end.Resumed? ==> m.Me() == old(m.Me()).(timer := m.Me().timer,
      phase := if Timed(c) then FinalPoll(id, status) else Checking(false, false))
    ensures end.Dropped? ==> !m.guard && m.Me() == Cancelling(old(m.Me()))
    ensures (end.Dropped? <==> m.DropSeen(old(m.visited))) && (end.Abandoned? ==> Stuck(m, old(m.Me())))
  {
    hide Inv, Exec, Honest, Refusal, FifoSpec.Lawful, Registry.Holds;
    m.ReleaseGuard();
    end, status := AwaitSignal(m, c, id);
    if end.Resumed? {
      m.Unregister(id);
      end := m.LockOrDrop();
    }
  }

  /**
    A decided call still holds the lock; one that was dropped, as the executor said at a visit since `from` and never
    otherwise, has nothing left; and one without an answer is stuck.
   */
  ghost predicate AsyncEnd<S, R>(m: Runner<S, R>, before: Thread<S, R>, from: nat, outcome: Option<Outcome<R>>)
    reads m, m.waiters
    requires before.calls != []
  {
    && m.Valid() && (outcome == Some(Cancelled) <==> m.DropSeen(from))
    && match outcome
       case None => Stuck(m, before)
       case Some(o) =>
         var a := before.(started := m.Me().started);
         if o.Cancelled? then !m.guard && m.Me() == Cancelling(a)
         else
           && m.guard && m.Me() == Deciding(a, o) && (o.TimedOut? ==> Due(m.Me(), m.clock))
           && (o.TimerError? ==> m.Refused() || BrokenTimer(m.timer))
  }

  /** How one suspension of a loop ends: with the lock held again, or with the end of the call. */
  datatype Round<R> = Again(id: nat, status: Status) | Over(outcome: Option<Outcome<R>>)

  /** Registers and suspends once. */
  method SuspendOnce<S, R>(m: Runner<S, R>, c: Call<S, R>) returns (round: Round<R>)
    requires m.Valid() && m.guard && m.Me().phase == Registering && m.Me().calls != [] && m.Me().calls[0] == c
    requires c.kind.Tokio? && !c.timing.Total?
    modifies m, m.waiters
    ensures old(m.trace) <= m.trace
    ensures m.Valid() && old(m.visited) <= m.visited
    ensures round.Again? ==> m.guard && old(m.visited) < m.visited && !m.DropSeen(old(m.visited))
    ensures round.Again? ==> m.Me() == old(m.Me()).(timer := m.Me().timer,
      phase := if Timed(c) then FinalPoll(round.id, round.status) else Checking(false, false))
    ensures round.Over? ==> AsyncEnd(m, old(m.Me()), old(m.visited), round.outcome) && round.outcome != Some(Overflow)
    ensures round.Over? && round.outcome.Some? ==> m.Me().started == old(m.Me()).started
  {
    hide Inv, Exec, Honest, Refusal, FifoSpec.Lawful, Registry.Holds;
    var id := m.Register();
    if id.None? {
      return Over(Some(Exhausted));
    }
    var end, status := SuspendAsync(m, c, id.value);
    match end
    case Resumed => round := Again(id.value, status);
    case Dropped => round := Over(Some(Cancelled));
    case Abandoned => round := Over(None);
  }

  /** One iteration of the untimed loop; `over` if the call has ended before its next check. */
  method SuspendAndCheck<S, R>(m: Runner<S, R>, c: Call<S, R>) returns (over: bool, outcome: Option<Outcome<R>>)
    requires m.Valid() && m.guard && m.Me().phase == Registering && m.Me().calls != [] && m.Me().calls[0] == c
    requires c.kind.Tokio? && !Timed(c)
    modifies m, m.waiters
    ensures old(m.trace) <= m.trace
    ensures if over then AsyncEnd(m, old(m.Me()), old(m.visited), outcome)
            else Settled(m, old(m.Me()), Registering, outcome)
    ensures !over ==> old(m.visited) < m.visited && !m.DropSeen(old(m.visited))
  {
    hide Inv, Exec, Honest, Refusal, FifoSpec.Lawful, Registry.Holds;
    var round := SuspendOnce(m, c);
    over := round.Over?;
    outcome := if over then round.outcome else None;
    if !over {
      outcome := Check(m, c, false);
    }
  }

  method WaitWhileLockedAsync<S, R>(m: Runner<S, R>, c: Call<S, R>) returns (outcome: Option<Outcome<R>>)
    requires m.Valid() && m.guard && m.Me().phase == Checking(true, false) && m.Me().calls != []
    requires m.Me().calls[0] == c && c.kind.Tokio? && !Timed(c)
    modifies m, m.waiters
    ensures old(m.trace) <= m.trace
    ensures AsyncEnd(m, old(m.Me()), old(m.visited), outcome)
  {
    hide Inv, Exec, Honest, Refusal, FifoSpec.Lawful, Registry.Holds;
    outcome := Check(m, c, false);
    while outcome.None?
      invariant old(m.trace) <= m.trace
      invariant Settled(m, old(m.Me()), Registering, outcome) && old(m.visited) <= m.visited
      invariant !m.DropSeen(old(m.visited))
      decreases |m.script| - m.visited, outcome.None?
    {
      var over;
      over, outcome := SuspendAndCheck(m, c);
      if over {
        return;
      }
    }
  }

  /** What the Timer answers to `DeadlineReached`: passed, not yet, or an error. */
  function Answered(reached: Option<bool>): Option<bool> {
    if reached.None? then Some(false) else if reached.value then Some(true) else None
  }

  /**
    One poll of the TimerFuture under the lock, whose future is always ready: it does not suspend the task, and the
    lock is held throughout. `None` is a Timer error.
   */
  method DeadlineReached<S, R>(m: Runner<S, R>, waker: Option<nat>) returns (reached: Option<bool>)
    requires m.Valid() && m.guard && m.Me().calls != [] && PollsAt(m.Me().phase) && waker == WakerAt(m.Me().phase)
    modifies m, m.waiters
    ensures old(m.trace) <= m.trace
    ensures m.Valid() && m.guard && m.visited == old(m.visited)
    ensures m.Me() == PolledThread(old(m.Me()), Answered(reached), m.Me().timer)
    ensures m.timer.Timer? && (reached.None? <==> BrokenTimer(m.timer))
    ensures reached == Some(true) ==> m.timer.status == Spent(true) && Due(m.Me(), m.clock)
  {
    hide Inv, Exec, Honest, Refusal, FifoSpec.Lawful, Registry.Holds;
    var answer := m.Poll(waker);
    reached := if answer == Some(false) then None else Some(answer.Some?);
  }

  /** After reacquiring the lock: an error ends the call, an expiry stands, a notification polls the Timer again. */
  method Settle<S, R>(m: Runner<S, R>, c: Call<S, R>, id: nat, status: Status) returns (outcome: Option<Outcome<R>>)
    requires m.Valid() && m.guard && m.Me().phase == FinalPoll(id, status) && m.Me().calls != []
    requires m.Me().calls[0] == c && c.kind.Tokio? && Timed(c)
    modifies m, m.waiters
    ensures old(m.trace) <= m.trace
    ensures Settled(m, old(m.Me()), Registering, outcome) && m.visited == old(m.visited)
    ensures match status
      case Broken => outcome == Some(TimerError)
      case Expired => outcome.Some? && (outcome.value.Ready? || outcome.value.TimedOut?)
      case Signal => outcome == Some(TimerError) <==> BrokenTimer(m.timer)
  {
    hide Inv, Exec, Honest, Refusal, FifoSpec.Lawful, Registry.Holds;
    match status
    case Broken => m.Facts(); m.GiveUp(TimerError); outcome := Some(TimerError);
    case Expired => m.Expire(); outcome := Check(m, c, true);
    case Signal => outcome := SettleSignal(m, c, id);
  }

  method SettleSignal<S, R>(m: Runner<S, R>, c: Call<S, R>, id: nat) returns (outcome: Option<Outcome<R>>)
    requires m.Valid() && m.guard && m.Me().phase == FinalPoll(id, Signal) && m.Me().calls != []
    requires m.Me().calls[0] == c && c.kind.Tokio? && Timed(c)
    modifies m, m.waiters
    ensures old(m.trace) <= m.trace
    ensures Settled(m, old(m.Me()), Registering, outcome) && m.visited == old(m.visited)
    ensures outcome == Some(TimerError) <==> BrokenTimer(m.timer)
  {
    hide Inv, Exec, Honest, Refusal, FifoSpec.Lawful, Registry.Holds;
    var reached := DeadlineReached(m, Some(id));
    if reached.None? {
      return Some(TimerError);
    }
    m.Facts();
    outcome := Check(m, c, reached.value);
  }

  method TimedLoopAsync<S, R>(m: Runner<S, R>, c: Call<S, R>) returns (outcome: Option<Outcome<R>>)
    requires m.Valid() && m.guard && m.Me().phase == Registering && m.Me().calls != []
    requires m.Me().calls[0] == c && c.kind.Tokio? && Timed(c) && !c.timing.Total?
    modifies m, m.waiters
    ensures old(m.trace) <= m.trace
    ensures AsyncEnd(m, old(m.Me()), old(m.visited), outcome) && outcome != Some(Overflow)
    ensures outcome.Some? ==> m.Me().started == old(m.Me()).started
  {
    hide Inv, Exec, Honest, Refusal, FifoSpec.Lawful, Registry.Holds;
    outcome := None;
    while outcome.None?
      invariant old(m.trace) <= m.trace
      invariant Settled(m, old(m.Me()), Registering, outcome) && old(m.visited) <= m.visited
      invariant !m.DropSeen(old(m.visited))
      decreases |m.script| - m.visited, outcome.None?
    {
      var round := SuspendOnce(m, c);
      match round
      case Over(end) => return end;
      case Again(id, status) => outcome := Settle(m, c, id, status);
    }
  }

  method WaitWhileAsync<S, R>(m: Runner<S, R>, c: Call<S, R>) returns (outcome: Option<Outcome<R>>)
    requires m.Valid() && m.Me().phase == Idle && m.Me().calls != [] && m.Me().calls[0] == c
    requires c.kind.Tokio? && c.timing == Untimed
    modifies m, m.waiters
    ensures old(m.trace) <= m.trace
    ensures AsyncEnd(m, old(m.Me()), old(m.visited), outcome)
  {
    hide Inv, Exec, Honest, Refusal, FifoSpec.Lawful, Registry.Holds;
    m.Facts();
    var end := m.LockOrDrop();
    if !end.Resumed? {
      return if end.Dropped? then Some(Cancelled) else None;
    }
    outcome := WaitWhileLockedAsync(m, c);
  }

  method WaitWhileForAsync<S, R>(m: Runner<S, R>, c: Call<S, R>, timeout: nat) returns (outcome: Option<Outcome<R>>)
    requires m.Valid() && m.Me().phase == Idle && m.Me().calls != [] && m.Me().calls[0] == c
    requires c.kind.Tokio? && c.timing == Relative(timeout)
    modifies m, m.waiters
    ensures old(m.trace) <= m.trace
    ensures AsyncEnd(m, old(m.Me()), old(m.visited), outcome)
    ensures outcome.Some? && !outcome.value.Cancelled? ==> old(m.clock) <= m.Me().started
    ensures outcome == Some(Overflow) ==> timeout > 0 && m.Me().started + timeout > m.horizon
  {
    hide Inv, Exec, Honest, Refusal, FifoSpec.Lawful, Registry.Holds;
    m.Facts();
    var end := m.LockOrDrop();
    if !end.Resumed? {
      return if end.Dropped? then Some(Cancelled) else None;
    }
    outcome := RunBudgetAsync(m, c, timeout);
  }

  /** The relative budget starts under the lock, before the first check. */
  method RunBudgetAsync<S, R>(m: Runner<S, R>, c: Call<S, R>, timeout: nat) returns (outcome: Option<Outcome<R>>)
    requires m.Valid() && m.guard && m.Me().phase == Sampling && m.Me().calls != [] && m.Me().calls[0] == c
    requires c.kind.Tokio? && c.timing == Relative(timeout)
    modifies m, m.waiters
    ensures old(m.trace) <= m.trace
    ensures AsyncEnd(m, old(m.Me()), old(m.visited), outcome)
    ensures outcome.Some? ==> old(m.clock) <= m.Me().started
    ensures outcome == Some(Overflow) ==> timeout > 0 && m.Me().started + timeout > m.horizon
  {
    hide Inv, Exec, Honest, Refusal, FifoSpec.Lawful, Registry.Holds;
    var startedAt := m.Now();
    outcome := Check(m, c, false);
    if outcome.Some? {
      return;
    }
    outcome := ArmRelativeAsync(m, c, timeout, startedAt);
  }

  method ArmRelativeAsync<S, R>(m: Runner<S, R>, c: Call<S, R>, timeout: nat, startedAt: nat)
      returns (outcome: Option<Outcome<R>>)
    requires m.Valid() && m.guard && m.Me().phase == Arming && m.Me().calls != [] && m.Me().calls[0] == c
    requires c.kind.Tokio? && c.timing == Relative(timeout) && m.Me().started == startedAt
    modifies m, m.waiters
    ensures old(m.trace) <= m.trace
    ensures AsyncEnd(m, old(m.Me()), old(m.visited), outcome) && (outcome.Some? ==> m.Me().started == startedAt)
    ensures timeout == 0 ==> outcome == Some(TimedOut)
    ensures outcome == Some(Overflow) <==> timeout > 0 && startedAt + timeout > m.horizon
    ensures 0 < timeout <= m.horizon - startedAt && !m.accepts(old(m.asked)) ==> outcome == Some(TimerError)
  {
    hide Inv, Exec, Honest, Refusal, FifoSpec.Lawful, Registry.Holds;
    if timeout == 0 {
      m.GiveUp(TimedOut);
      return Some(TimedOut);
    }
    if startedAt + timeout > m.horizon {
      m.GiveUp(Overflow);
      return Some(Overflow);
    }
    var accepted := m.At(startedAt + timeout);
    if !accepted {
      return Some(TimerError);
    }
    outcome := TimedLoopAsync(m, c);
  }

  method WaitWhileWithDeadlineAsync<S, R>(m: Runner<S, R>, c: Call<S, R>, deadline: nat)
      returns (outcome: Option<Outcome<R>>)
    requires m.Valid() && m.Me().phase == Idle && m.Me().calls != [] && m.Me().calls[0] == c
    requires c.kind.Tokio? && c.timing == Absolute(deadline)
    modifies m, m.waiters
    ensures old(m.trace) <= m.trace
    ensures AsyncEnd(m, old(m.Me()), old(m.visited), outcome)
  {
    hide Inv, Exec, Honest, Refusal, FifoSpec.Lawful, Registry.Holds;
    m.Facts();
    var end := m.LockOrDrop();
    if !end.Resumed? {
      return if end.Dropped? then Some(Cancelled) else None;
    }
    outcome := Check(m, c, false);
    if outcome.Some? {
      return;
    }
    outcome := ArmAbsoluteAsync(m, c, deadline);
  }

  method ArmAbsoluteAsync<S, R>(m: Runner<S, R>, c: Call<S, R>, deadline: nat) returns (outcome: Option<Outcome<R>>)
    requires m.Valid() && m.guard && m.Me().phase == Arming && m.Me().calls != [] && m.Me().calls[0] == c
    requires c.kind.Tokio? && c.timing == Absolute(deadline)
    modifies m, m.waiters
    ensures old(m.trace) <= m.trace
    ensures AsyncEnd(m, old(m.Me()), old(m.visited), outcome)
    ensures !m.accepts(old(m.asked)) ==> outcome == Some(TimerError)
  {
    hide Inv, Exec, Honest, Refusal, FifoSpec.Lawful, Registry.Holds;
    var accepted := m.At(deadline);
    if !accepted {
      return Some(TimerError);
    }
    var reached := DeadlineReached(m, None);
    if reached.None? {
      return Some(TimerError);
    }
    if reached.value {
      return Some(TimedOut);
    }
    outcome := TimedLoopAsync(m, c);
  }

  /**
    One asynchronous monitor call, until it returns or its future is dropped; `Performed` as the blocking one, with
    being dropped as one more decision, which is the executor's alone.
   */
  method PerformAsync<S, R>(m: Runner<S, R>, c: Call<S, R>) returns (outcome: Option<Outcome<R>>)
    requires m.Valid() && m.Me().phase == Idle && m.Me().calls != [] && m.Me().calls[0] == c
    requires c.kind.Tokio? && !c.timing.Total?
    modifies m, m.waiters
    ensures old(m.trace) <= m.trace && m.Valid()
    ensures outcome.Some? ==> Performed(m, old(m.trace), old(m.Me()), c, outcome.value)
    ensures outcome.None? ==> Stuck(m, old(m.Me()))
    ensures outcome == Some(Cancelled) ==> m.DropSeen(old(m.visited))
    ensures m.DropSeen(old(m.visited)) ==> outcome == Some(Cancelled)
  {
    hide Inv, Exec, Honest, Refusal, FifoSpec.Lawful, Registry.Holds;
    outcome := WaitAsync(m, c);
    if outcome.Some? {
      if outcome.value.Cancelled? {
        NewOutcomeIsExplained(m.initial, old(m.trace), m.trace, m.self, old(m.world), m.world, Cancelled);
      } else {
        Return(m, c, outcome.value, old(m.trace), old(m.world), c);
      }
    }
  }

  method WaitAsync<S, R>(m: Runner<S, R>, c: Call<S, R>) returns (outcome: Option<Outcome<R>>)
    requires m.Valid() && m.Me().phase == Idle && m.Me().calls != [] && m.Me().calls[0] == c
    requires c.kind.Tokio? && !c.timing.Total?
    modifies m, m.waiters
    ensures old(m.trace) <= m.trace
    ensures AsyncEnd(m, old(m.Me()), old(m.visited), outcome)
  {
    hide Inv, Exec, Honest, Refusal, FifoSpec.Lawful, Registry.Holds;
    match c.timing {
      case Untimed => outcome := WaitWhileAsync(m, c);
      case Relative(timeout) => outcome := WaitWhileForAsync(m, c, timeout);
      case Absolute(deadline) => outcome := WaitWhileWithDeadlineAsync(m, c, deadline);
    }
  }
}
