/** The budget of a timed call: where it starts, and that nothing moves it. */
module Budgets {
  import opened Basics
  import opened Protocol
  import opened Invariants
  import opened Outcomes
  import opened Runs

  /** A TimerFuture has the deadline that its call is bound to; no step moves it, or the start of a running budget. */
  lemma BudgetIsFixed<S, R>(w: World<S, R>, e: Event, t: nat)
    requires Inv(w) && Step(w, e).Some? && t < |w.threads| && w.threads[t].timer.Timer?
    ensures |Step(w, e).value.threads| == |w.threads|
    ensures w.threads[t].calls != [] && Some(w.threads[t].timer.deadline) == Bound(w.threads[t])
    ensures Step(w, e).value.threads[t].started == w.threads[t].started
    ensures var timer := Step(w, e).value.threads[t].timer;
      timer.Timer? ==> timer.deadline == w.threads[t].timer.deadline
  {
    StepIsGood(w, e);
    assert ShapeOk(w.threads[t]) && TimerOk(w, w.threads[t]);
    if Mover(e).None? { assert AmbientThread(w, Step(w, e).value, t); }
  }

  /**
    The call of thread `t` that is bound to `deadline`, at any later moment: its TimerFuture still has that
    deadline, or its outcome is decided, or it has returned.
   */
  ghost predicate BoundTo<S, R>(v: World<S, R>, t: nat, calls: nat, started: nat, deadline: nat) {
    && t < |v.threads|
    && var th := v.threads[t];
    && |th.calls| <= calls
    && (|th.calls| == calls ==>
          && th.started == started
          && if th.timer.Timer? then th.timer.deadline == deadline && !Decided(th.phase) && !th.phase.Idle?
             else Decided(th.phase))
  }

  lemma StepKeepsBound<S, R>(w: World<S, R>, e: Event, t: nat, calls: nat, started: nat, deadline: nat)
    requires Inv(w) && Step(w, e).Some? && BoundTo(w, t, calls, started, deadline)
    ensures BoundTo(Step(w, e).value, t, calls, started, deadline)
  {
    var v := Step(w, e).value;
    StepIsGood(w, e);
    assert ShapeOk(w.threads[t]) && TimerOk(w, w.threads[t]);
    if Mover(e).None? {
      assert AmbientThread(w, v, t);
    } else if Mover(e) == Some(t) {
      MoveKeepsBound(w, v, t, calls, started, deadline);
    }
  }

  lemma MoveKeepsBound<S, R>(w: World<S, R>, v: World<S, R>, t: nat, calls: nat, started: nat, deadline: nat)
    requires Good(w, v, t) && Prepared(w, t) && BoundTo(w, t, calls, started, deadline)
    ensures BoundTo(v, t, calls, started, deadline)
  {
  }

  /**
    A fixed budget: whatever happens after a call has created its TimerFuture, notifications and rounds of the loop
    included, neither its start nor its deadline moves, and it never creates another one.
   */
  lemma {:induction false} DeadlineNeverMoves<S, R>(w: World<S, R>, schedule: seq<Event>, t: nat)
    requires Inv(w) && t < |w.threads| && w.threads[t].timer.Timer? && Exec(w, schedule).Some?
    ensures Inv(Exec(w, schedule).value)
    ensures BoundTo(Exec(w, schedule).value, t, |w.threads[t].calls|, w.threads[t].started, w.threads[t].timer.deadline)
    decreases |schedule|
  {
    if schedule == [] {
      assert TimerOk(w, w.threads[t]);
    } else {
      var k := |schedule| - 1;
      DeadlineNeverMoves(w, schedule[..k], t);
      var u, th := Exec(w, schedule[..k]).value, w.threads[t];
      StepKeepsBound(u, schedule[k], t, |th.calls|, th.started, th.timer.deadline);
      StepKeepsInv(u, schedule[k]);
    }
  }

  // ---- A deadline that has been seen ------------------------------------------------------------------

  /** Outcome number `i` is decided, or its call has seen its deadline and is on the way to its last check. */
  ghost predicate Expiring<S, R>(v: World<S, R>, t: nat, i: nat) {
    && t < |v.threads|
    && var th := v.threads[t];
    if |th.outcomes| > i then th.outcomes[i].Ready? || th.outcomes[i].TimedOut? || th.outcomes[i].Cancelled?
    else
      && |th.outcomes| == i && th.timer.Timer? && th.timer.status == Spent(true)
      && !th.phase.Registering? && !th.phase.LoopPoll?
  }

  lemma StepKeepsExpiring<S, R>(w: World<S, R>, e: Event, t: nat, i: nat)
    requires Inv(w) && Step(w, e).Some? && Expiring(w, t, i)
    ensures Expiring(Step(w, e).value, t, i)
  {
    hide Step;
    StepGrows(w, e, t);
    StepIsGood(w, e);
    StepDecides(w, e);
    assert Mover(e).None? ==> AmbientThread(w, Step(w, e).value, t);
    if Mover(e) == Some(t) && |w.threads[t].outcomes| == i { ExpiryMoves(w, e, Step(w, e).value, t); }
  }

  lemma ExpiryMoves<S, R>(w: World<S, R>, e: Event, v: World<S, R>, t: nat)
    requires Prepared(w, t) && Good(w, v, t) && Decides(w, e, v, t)
    requires w.threads[t].timer.Timer? && w.threads[t].timer.status == Spent(true)
    ensures Expiring(v, t, |w.threads[t].outcomes|)
  {
  }

  /**
    Once a poll has seen the deadline the loop ends: the call never registers again, and ends `Ready` or `TimedOut`
    unless its future is dropped, whatever happens in between.
   */
  lemma {:induction false} SeenDeadlineEndsCall<S, R>(w: World<S, R>, schedule: seq<Event>, t: nat)
    requires Inv(w) && Exec(w, schedule).Some? && t < |w.threads|
    requires w.threads[t].timer.Timer? && w.threads[t].timer.status == Spent(true)
    ensures Inv(Exec(w, schedule).value) && Expiring(Exec(w, schedule).value, t, |w.threads[t].outcomes|)
    decreases |schedule|
  {
    if schedule == [] {
      assert TimerOk(w, w.threads[t]);
    } else {
      var k := |schedule| - 1;
      SeenDeadlineEndsCall(w, schedule[..k], t);
      StepKeepsExpiring(Exec(w, schedule[..k]).value, schedule[k], t, |w.threads[t].outcomes|);
      StepKeepsInv(Exec(w, schedule[..k]).value, schedule[k]);
    }
  }

  // ---- The start of a relative budget -----------------------------------------------------------------

  /** At event `j` of a run thread `t` holds the lock and the clock shows `instant`, which it is about to read. */
  ghost predicate SampledAt<S, R>(w: World<S, R>, schedule: seq<Event>, j: nat, t: nat, instant: nat) {
    && j <= |schedule| && Exec(w, schedule[..j]).Some?
    && var u := Exec(w, schedule[..j]).value;
    && t < |u.threads| && u.threads[t].phase.Sampling? && u.owner == Some(t) && u.clock == instant
  }

  /** The start that a relative call works with is the clock of a moment of this call at which it held the lock. */
  lemma {:induction false} BudgetStartsUnderLock<S, R>(
      w: World<S, R>, before: seq<Event>, after: seq<Event>, t: nat) returns (j: nat)
    requires Initial(w) && before <= after && Exec(w, before).Some? && Exec(w, after).Some?
    requires var a, b := Exec(w, before).value.threads, Exec(w, after).value.threads;
      && t < |a| && t < |b| && a[t].phase.Idle? && a[t].calls != [] && |b[t].calls| == |a[t].calls|
      && b[t].calls[0].timing.Relative? && !b[t].phase.Idle? && !b[t].phase.Sampling?
    ensures |before| <= j < |after| && SampledAt(w, after, j, t, Exec(w, after).value.threads[t].started)
    ensures Exec(w, before).value.clock <= Exec(w, after).value.threads[t].started
    decreases |after|
  {
    hide Inv;
    var k := |after| - 1;
    assert before != after && before <= after[..k];
    var u := Exec(w, after[..k]).value;
    RunGrows(w, before, after[..k], t);
    ReachableInv(w, after[..k]);
    StepGrows(u, after[k], t);
    StartBefore(u, after[k], t);
    if u.threads[t].phase.Sampling? {
      j := k;
    } else {
      j := BudgetStartsUnderLock(w, before, after[..k], t);
      assert after[..k][..j] == after[..j];
    }
  }

  /** One step back from a thread that has read its start: it had read it already, or reads it now. */
  lemma StartBefore<S, R>(w: World<S, R>, e: Event, t: nat)
    requires Inv(w) && Step(w, e).Some? && t < |w.threads| == |Step(w, e).value.threads|
    requires var a, b := w.threads[t], Step(w, e).value.threads[t];
      && a.calls != [] && |b.calls| == |a.calls| && Continues(b.calls[0], a.calls[0], w.clock, w.horizon)
      && b.calls[0].timing.Relative? && !b.phase.Idle? && !b.phase.Sampling?
    ensures var a, b := w.threads[t], Step(w, e).value.threads[t];
      && a.calls[0] == b.calls[0] && !a.phase.Idle?
      && b.started == if a.phase.Sampling? then w.clock else a.started
    ensures w.threads[t].phase.Sampling? ==> w.owner == Some(t)
  {
    StepIsGood(w, e);
    assert LockOk(w, t);
    if Mover(e).None? { assert AmbientThread(w, Step(w, e).value, t); }
  }
}
