/** What lies behind the outcome of a call in a run: one decision of that call, and a budget that is really spent. */
module Decisions {
  import opened Basics
  import opened Protocol
  import opened Invariants
  import opened Outcomes
  import opened Runs
  import opened Budgets

  /** Event `k` of a run decided outcome number `i` of thread `t`, as the abstract wait allows. */
  ghost predicate DecidedAt<S, R>(w: World<S, R>, schedule: seq<Event>, k: nat, t: nat, i: nat, o: Outcome<R>) {
    && k < |schedule| && Mover(schedule[k]) == Some(t)
    && Exec(w, schedule[..k]).Some? && Step(Exec(w, schedule[..k]).value, schedule[k]).Some?
    && var u := Exec(w, schedule[..k]).value;
    var v := Step(u, schedule[k]).value;
    && t < |u.threads| && u.threads[t].calls != [] && |u.threads[t].outcomes| == i && !Decided(u.threads[t].phase)
    && NewOutcome(u, v, t) == Some(o) && AbstractDecision(u, schedule[k], v, t, o)
  }

  /** Behind every outcome that a thread gains between two moments of a run lies one abstract decision of its own. */
  lemma {:induction false} OutcomeWasDecided<S, R>(
      w: World<S, R>, before: seq<Event>, after: seq<Event>, t: nat) returns (k: nat)
    requires Initial(w) && before <= after && Exec(w, before).Some? && Exec(w, after).Some?
    requires t < |Exec(w, before).value.threads| == |Exec(w, after).value.threads|
    requires |Exec(w, before).value.threads[t].outcomes| < |Exec(w, after).value.threads[t].outcomes|
    ensures |before| <= k < |after|
    ensures var i := |Exec(w, before).value.threads[t].outcomes|;
      DecidedAt(w, after, k, t, i, Exec(w, after).value.threads[t].outcomes[i])
    decreases |after|
  {
    hide Inv;
    var n := |after| - 1;
    assert before != after && before <= after[..n];
    RunGrows(w, before, after[..n], t);
    ReachableInv(w, after[..n]);
    var u := Exec(w, after[..n]).value;
    StepGrows(u, after[n], t);
    if |u.threads[t].outcomes| > |Exec(w, before).value.threads[t].outcomes| {
      k := OutcomeWasDecided(w, before, after[..n], t);
      assert after[..n][..k] == after[..k];
    } else {
      k := n;
      StepRefines(u, after[n], t);
      StepDecides(u, after[n]);
    }
  }

  lemma FreshThread<S, R>(w: World<S, R>, t: nat)
    requires Initial(w) && t < |w.threads|
    ensures Fresh(w.threads[t])
  {
  }

  lemma SameThreads<S, R>(w: World<S, R>, e: Event)
    requires Inv(w) && Step(w, e).Some?
    ensures |Step(w, e).value.threads| == |w.threads|
  {
    StepIsGood(w, e);
  }

  /** Every outcome of a thread was decided by some event of the run. */
  lemma {:induction false} DecisionOf<S, R>(w: World<S, R>, schedule: seq<Event>, t: nat, i: nat) returns (k: nat)
    requires Initial(w) && Exec(w, schedule).Some? && t < |Exec(w, schedule).value.threads|
    requires i < |Exec(w, schedule).value.threads[t].outcomes|
    ensures DecidedAt(w, schedule, k, t, i, Exec(w, schedule).value.threads[t].outcomes[i])
    decreases |schedule|
  {
    hide Inv;
    if schedule == [] { FreshThread(w, t); }
    var n := |schedule| - 1;
    var u := Exec(w, schedule[..n]).value;
    ReachableInv(w, schedule[..n]);
    SameThreads(u, schedule[n]);
    StepGrows(u, schedule[n], t);
    if i < |u.threads[t].outcomes| {
      k := DecisionOf(w, schedule[..n], t, i);
      assert schedule[..n][..k] == schedule[..k];
    } else {
      k := n;
      StepRefines(u, schedule[n], t);
      StepDecides(u, schedule[n]);
    }
  }

  /**
    At event `k` of a run that continues `before`, thread `t` is executing the call `c` it was about to make: the very
    call, or the one into which its total budget was fixed after `before`.
   */
  ghost predicate Executing<S, R>(
      w: World<S, R>, before: seq<Event>, after: seq<Event>, k: nat, t: nat, c: Call<S, R>) {
    && k <= |after| && Exec(w, before).Some? && Exec(w, after[..k]).Some?
    && var u := Exec(w, after[..k]).value;
    && t < |u.threads| && u.threads[t].calls != []
    && SameCall(u.threads[t].calls[0], c, Exec(w, before).value.clock, u.clock)
  }

  /**
    At event `k` the whole budget of `c` has passed: counted from the moment of the call if it is a total one, and
    from a later moment at which the thread held the lock if it is a relative one.
   */
  ghost predicate BudgetSpent<S, R>(
      w: World<S, R>, before: seq<Event>, after: seq<Event>, k: nat, t: nat, c: Call<S, R>) {
    && k <= |after| && Exec(w, before).Some? && Exec(w, after[..k]).Some?
    && var from, now := Exec(w, before).value.clock, Exec(w, after[..k]).value.clock;
    match c.timing
    case Untimed => false
    case Absolute(deadline) => now >= deadline
    case Total(budget) => now >= from + budget
    case Relative(timeout) =>
      exists j: nat, start: nat ::
        |before| <= j <= k && SampledAt(w, after, j, t, start) && from <= start && now >= start + timeout
  }

  /** Between `before` and `after`, thread `t` decided its outcome number `i` of the call `c` as `o`. */
  ghost predicate Explained<S, R>(
      w: World<S, R>, before: seq<Event>, after: seq<Event>, t: nat, i: nat, c: Call<S, R>, o: Outcome<R>) {
    exists k :: |before| <= k < |after|
      && DecidedAt(w, after, k, t, i, o) && Executing(w, before, after, k, t, c)
      && (o.TimedOut? ==> BudgetSpent(w, before, after, k, t, c))
  }

  /**
    A call that times out has waited for its whole budget: no sooner than `timeout` after a moment of the call at which
    it held the lock, `budget` after the call was made, or the deadline it was given.
   */
  lemma TimeoutsAreNotEarly<S, R>(
      w: World<S, R>, before: seq<Event>, after: seq<Event>, k: nat, t: nat, i: nat)
    requires Initial(w) && before <= after && |before| <= k <= |after| && Exec(w, before).Some?
    requires DecidedAt(w, after, k, t, i, TimedOut)
    requires var a := Exec(w, before).value.threads;
      t < |a| && a[t].phase.Idle? && a[t].calls != [] && |a[t].outcomes| == i
    ensures BudgetSpent(w, before, after, k, t, Exec(w, before).value.threads[t].calls[0])
  {
    hide Inv;
    assert before <= after[..k];
    StillCalling(w, before, after[..k], t);
    var u, c := Exec(w, after[..k]).value, Exec(w, before).value.threads[t].calls[0];
    TimeoutPhase(w, after, k, t, i);
    if c.timing.Relative? {
      var j := BudgetStartsUnderLock(w, before, after[..k], t);
      assert after[..k][..j] == after[..j];
      assert SampledAt(w, after, j, t, u.threads[t].started);
    }
  }

  /** A call times out only after it has read its start. */
  lemma TimeoutPhase<S, R>(w: World<S, R>, after: seq<Event>, k: nat, t: nat, i: nat)
    requires Initial(w) && DecidedAt(w, after, k, t, i, TimedOut)
    ensures var p := Exec(w, after[..k]).value.threads[t].phase; !p.Idle? && !p.Sampling?
  {
    ReachableInv(w, after[..k]);
    StepDecides(Exec(w, after[..k]).value, after[k]);
  }

  /** The outcome that a thread gains by one call is an abstract decision of that call. */
  lemma NewOutcomeIsExplained<S, R>(
      w: World<S, R>, before: seq<Event>, after: seq<Event>, t: nat, a: World<S, R>, b: World<S, R>, o: Outcome<R>)
    requires Initial(w) && before <= after && Exec(w, before) == Some(a) && Exec(w, after) == Some(b)
    requires t < |a.threads| && t < |b.threads| && b.threads[t].outcomes == a.threads[t].outcomes + [o]
    requires a.threads[t].phase.Idle? && a.threads[t].calls != []
    ensures Explained(w, before, after, t, |a.threads[t].outcomes|, a.threads[t].calls[0], o)
  {
    hide Inv;
    RunGrows(w, before, after, t);
    var k := OutcomeWasDecided(w, before, after, t);
    assert before <= after[..k];
    StillCalling(w, before, after[..k], t);
    assert Executing(w, before, after, k, t, a.threads[t].calls[0]);
    if o.TimedOut? { TimeoutsAreNotEarly(w, before, after, k, t, |a.threads[t].outcomes|); }
  }
}
