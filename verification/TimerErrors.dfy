/**
  When a call ends with a Timer error: if and only if, while it was running, the Timer refused its registration or a
  poll of its TimerFuture returned an error, and its future was not dropped before it could report that.
 */
module TimerErrors {
  import opened Basics
  import opened Protocol
  import opened Invariants
  import opened Outcomes
  import opened Runs
  import opened Decisions

  /** Event `e` shows thread `t` a failing Timer: a refused registration, or a poll that returns an error. */
  predicate SeesError<S, R>(u: World<S, R>, e: Event, t: nat) {
    && t < |u.threads| && e.Run? && e.thread == t && u.threads[t].calls != []
    && (|| (Registers(u, u.threads[t]) && !e.accepted)
        || (Polls(u.threads[t]) && PollAnswer(u.threads[t].timer) == Some(false)))
  }

  /** Thread `t` sees a failing Timer at event `j` of a run, while it works on its outcome number `i`. */
  ghost predicate SeenAt<S, R>(w: World<S, R>, schedule: seq<Event>, j: nat, t: nat, i: nat) {
    && j < |schedule| && Exec(w, schedule[..j]).Some?
    && var u := Exec(w, schedule[..j]).value;
    && SeesError(u, schedule[j], t) && |u.threads[t].outcomes| == i
  }

  /** The error has been reported, or is still to be reported. */
  ghost predicate Doomed<S, R>(v: World<S, R>, t: nat, i: nat) {
    && t < |v.threads|
    && var th := v.threads[t];
    if |th.outcomes| > i then th.outcomes[i].TimerError? || th.outcomes[i].Cancelled?
    else |th.outcomes| == i && BrokenTimer(th.timer)
  }

  // ---- An error that is seen ends the call ------------------------------------------------------------

  lemma SeenIsDoomed<S, R>(w: World<S, R>, e: Event, t: nat)
    requires Inv(w) && SeesError(w, e, t) && Step(w, e).Some?
    ensures Doomed(Step(w, e).value, t, |w.threads[t].outcomes|)
  {
    assert ShapeOk(w.threads[t]);
  }

  lemma StepKeepsDoom<S, R>(w: World<S, R>, e: Event, t: nat, i: nat)
    requires Inv(w) && Step(w, e).Some? && Doomed(w, t, i)
    ensures Doomed(Step(w, e).value, t, i)
  {
    StepGrows(w, e, t);
    StepIsGood(w, e);
    StepDecides(w, e);
    if Mover(e).None? {
      assert AmbientThread(w, Step(w, e).value, t);
    } else if Mover(e) == Some(t) && |w.threads[t].outcomes| == i {
      DoomMoves(w, e, Step(w, e).value, t);
    }
  }

  lemma DoomMoves<S, R>(w: World<S, R>, e: Event, v: World<S, R>, t: nat)
    requires Prepared(w, t) && Good(w, v, t) && Decides(w, e, v, t) && BrokenTimer(w.threads[t].timer)
    ensures Doomed(v, t, |w.threads[t].outcomes|)
  {
  }

  lemma {:induction false} SeenStaysDoomed<S, R>(w: World<S, R>, schedule: seq<Event>, j: nat, t: nat, i: nat)
    requires Initial(w) && Exec(w, schedule).Some? && SeenAt(w, schedule, j, t, i)
    ensures Doomed(Exec(w, schedule).value, t, i)
    decreases |schedule|
  {
    hide Inv;
    var k := |schedule| - 1;
    var u := Exec(w, schedule[..k]).value;
    ReachableInv(w, schedule[..k]);
    if j == k {
      SeenIsDoomed(u, schedule[k], t);
    } else {
      assert schedule[..k][..j] == schedule[..j];
      SeenStaysDoomed(w, schedule[..k], j, t, i);
      StepKeepsDoom(u, schedule[k], t, i);
    }
  }

  // ---- A reported error has been seen -----------------------------------------------------------------

  lemma BrokenBefore<S, R>(w: World<S, R>, e: Event, t: nat)
    requires Inv(w) && Step(w, e).Some? && t < |w.threads| == |Step(w, e).value.threads|
    requires BrokenTimer(Step(w, e).value.threads[t].timer)
    ensures Step(w, e).value.threads[t].outcomes == w.threads[t].outcomes
    ensures SeesError(w, e, t) || BrokenTimer(w.threads[t].timer)
  {
    StepIsGood(w, e);
    StepDecides(w, e);
    PreparedThread(w, t);
    if Mover(e).None? { assert AmbientThread(w, Step(w, e).value, t); }
  }

  lemma {:induction false} BrokenWasSeen<S, R>(w: World<S, R>, schedule: seq<Event>, t: nat) returns (j: nat)
    requires Initial(w) && Exec(w, schedule).Some? && t < |Exec(w, schedule).value.threads|
    requires BrokenTimer(Exec(w, schedule).value.threads[t].timer)
    ensures SeenAt(w, schedule, j, t, |Exec(w, schedule).value.threads[t].outcomes|)
    decreases |schedule|
  {
    hide Inv;
    if schedule == [] { FreshThread(w, t); }
    var k := |schedule| - 1;
    var u := Exec(w, schedule[..k]).value;
    ReachableInv(w, schedule[..k]);
    SameThreads(u, schedule[k]);
    BrokenBefore(u, schedule[k], t);
    if SeesError(u, schedule[k], t) {
      j := k;
    } else {
      j := BrokenWasSeen(w, schedule[..k], t);
      assert schedule[..k][..j] == schedule[..j];
    }
  }

  lemma DecidedErrorWasSeen<S, R>(w: World<S, R>, schedule: seq<Event>, k: nat, t: nat, i: nat) returns (j: nat)
    requires Initial(w) && DecidedAt(w, schedule, k, t, i, TimerError)
    ensures SeenAt(w, schedule, j, t, i)
  {
    var u := Exec(w, schedule[..k]).value;
    ReachableInv(w, schedule[..k]);
    StepDecides(u, schedule[k]);
    PreparedThread(u, t);
    if SeesError(u, schedule[k], t) {
      j := k;
    } else {
      j := BrokenWasSeen(w, schedule[..k], t);
      assert schedule[..k][..j] == schedule[..j];
    }
  }

  // ---- Theorems ---------------------------------------------------------------------------------------

  /**
    Over whole runs: a call ends with `TimerError` exactly if a refused registration or a poll showed it a failing
    Timer; the one other end such a call can have is that its future is dropped first. It never runs its action.
   */
  lemma TimerErrorIffSeen<S, R>(w: World<S, R>, schedule: seq<Event>, t: nat, i: nat)
    requires Initial(w) && Exec(w, schedule).Some? && t < |Exec(w, schedule).value.threads|
    requires i < |Exec(w, schedule).value.threads[t].outcomes|
    ensures var o := Exec(w, schedule).value.threads[t].outcomes[i];
      && (o.TimerError? ==> exists j :: SeenAt(w, schedule, j, t, i))
      && ((exists j :: SeenAt(w, schedule, j, t, i)) ==> o.TimerError? || o.Cancelled?)
  {
    var k := DecisionOf(w, schedule, t, i);
    if Exec(w, schedule).value.threads[t].outcomes[i].TimerError? {
      var j := DecidedErrorWasSeen(w, schedule, k, t, i);
    }
    if j :| SeenAt(w, schedule, j, t, i) {
      SeenStaysDoomed(w, schedule, j, t, i);
    }
  }

  /** No TimerFuture completes with an error. */
  predicate NoTimerErrors(schedule: seq<Event>) {
    forall i :: 0 <= i < |schedule| && schedule[i].Fire? ==> schedule[i].ok
  }

  /** The Timer accepts every registration of thread `t`, and none of its TimerFutures completes with an error. */
  predicate Healthy(schedule: seq<Event>, t: nat) {
    forall i :: 0 <= i < |schedule| ==> schedule[i] != Fire(t, false) && schedule[i] != Run(t, false)
  }

  predicate TimerSound(timer: Timer) {
    timer.Timer? ==> timer.status != Fired(false) && timer.status != Spent(false)
  }

  lemma {:induction false} TimersStaySound<S, R>(w: World<S, R>, schedule: seq<Event>, t: nat)
    requires Initial(w) && Exec(w, schedule).Some? && Healthy(schedule, t)
    requires t < |Exec(w, schedule).value.threads|
    ensures TimerSound(Exec(w, schedule).value.threads[t].timer)
    decreases |schedule|
  {
    if schedule == [] {
      assert Fresh(w.threads[t]);
    } else {
      var k := |schedule| - 1;
      ReachableInv(w, schedule[..k]);
      SameThreads(Exec(w, schedule[..k]).value, schedule[k]);
      TimersStaySound(w, schedule[..k], t);
      StepKeepsSound(Exec(w, schedule[..k]).value, schedule[k], t);
    }
  }

  lemma StepKeepsSound<S, R>(w: World<S, R>, e: Event, t: nat)
    requires Inv(w) && Step(w, e).Some? && e != Fire(t, false) && t < |w.threads| == |Step(w, e).value.threads|
    requires TimerSound(w.threads[t].timer)
    ensures TimerSound(Step(w, e).value.threads[t].timer)
  {
    StepIsGood(w, e);
  }

  lemma HealthyUnseen<S, R>(w: World<S, R>, schedule: seq<Event>, j: nat, t: nat, i: nat)
    requires Initial(w) && Healthy(schedule, t)
    ensures !SeenAt(w, schedule, j, t, i)
  {
    hide Step, Inv;
    if SeenAt(w, schedule, j, t, i) {
      TimersStaySound(w, schedule[..j], t);
    }
  }

  /** A thread whose Timer accepts every registration and never fails never ends a call with `TimerError`. */
  lemma SoundTimerNoError<S, R>(w: World<S, R>, schedule: seq<Event>, t: nat, i: nat)
    requires Initial(w) && Exec(w, schedule).Some? && Healthy(schedule, t)
    requires t < |Exec(w, schedule).value.threads| && i < |Exec(w, schedule).value.threads[t].outcomes|
    ensures !Exec(w, schedule).value.threads[t].outcomes[i].TimerError?
  {
    TimerErrorIffSeen(w, schedule, t, i);
    if Exec(w, schedule).value.threads[t].outcomes[i].TimerError? {
      var j :| SeenAt(w, schedule, j, t, i);
      HealthyUnseen(w, schedule, j, t, i);
    }
  }

  /** Behind a `TimerError` lies a refused registration or a failing TimerFuture of the same thread. */
  lemma TimerErrorHasCause<S, R>(w: World<S, R>, schedule: seq<Event>, t: nat, i: nat) returns (k: nat)
    requires Initial(w) && Exec(w, schedule).Some?
    requires t < |Exec(w, schedule).value.threads| && i < |Exec(w, schedule).value.threads[t].outcomes|
    requires Exec(w, schedule).value.threads[t].outcomes[i].TimerError?
    ensures k < |schedule| && (schedule[k] == Fire(t, false) || schedule[k] == Run(t, false))
  {
    hide Exec;
    if Healthy(schedule, t) {
      SoundTimerNoError(w, schedule, t, i);
    }
    k :| k < |schedule| && (schedule[k] == Fire(t, false) || schedule[k] == Run(t, false));
  }
}
