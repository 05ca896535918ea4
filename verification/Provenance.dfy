/**
  Where signals come from, over whole runs. A registration is signalled only by a notification that took it out of the
  registry after it was made, and woken by a Timer only through the TimerFuture of its own thread, completed after it
  was made: no signal of an earlier wait, and no Timer of another thread, reaches it.
 */
module Provenance {
  import opened Basics
  import opened Protocol
  import opened Invariants
  import opened Outcomes
  import opened Selection

  /** Event `i` of a run is the registration of `x` by thread `t`. */
  ghost predicate RegisteredAt<S, R>(w: World<S, R>, schedule: seq<Event>, i: nat, t: nat, x: nat) {
    && i < |schedule| && Mover(schedule[i]) == Some(t)
    && Exec(w, schedule[..i]).Some? && Step(Exec(w, schedule[..i]).value, schedule[i]).Some?
    && var u := Exec(w, schedule[..i]).value;
    var v := Step(u, schedule[i]).value;
    && t < |u.threads| == |v.threads| && u.next == x && v.next == x + 1
    && Enrols(u.threads[t].phase, v.threads[t].phase) && Owns(v, t, x)
  }

  /** Event `j` of a run takes `x`, registered at that moment, out of the registry for a notification. */
  ghost predicate TakenAt<S, R>(w: World<S, R>, schedule: seq<Event>, j: nat, x: nat) {
    && j < |schedule| && schedule[j].Run? && Exec(w, schedule[..j]).Some?
    && var u := Exec(w, schedule[..j]).value;
    var t := schedule[j].thread;
    && t < |u.threads| && u.threads[t].phase.Taking? && x in u.queue && x in Chosen(u.queue, u.threads[t].phase.note)
  }

  /** Event `j` of a run completes the TimerFuture of thread `t`, whose last waker is `x`. */
  ghost predicate CompletedAt<S, R>(w: World<S, R>, schedule: seq<Event>, j: nat, t: nat, x: nat) {
    && j < |schedule| && schedule[j].Fire? && schedule[j].timer == t && Exec(w, schedule[..j]).Some?
    && var u := Exec(w, schedule[..j]).value;
    && t < |u.threads| && u.threads[t].timer.Timer? && u.threads[t].timer.status.Armed?
    && u.threads[t].timer.waker == Some(x)
  }

  // ---- A thread holds only its own identifiers ---------------------------------------------------------

  /** The identifiers a thread works with: its registration, a finished one, and the waker in its TimerFuture. */
  predicate Mentions<S, R>(th: Thread<S, R>, x: nat) {
    || Entry(th.phase) == Some(x)
    || ((th.phase.Relocking? || th.phase.FinalPoll?) && th.phase.id == x)
    || (th.timer.Timer? && th.timer.waker == Some(x))
  }

  /** A thread comes to work with another identifier only by registering under it. */
  lemma MentionedBefore<S, R>(w: World<S, R>, e: Event, t: nat, x: nat)
    requires Inv(w) && Step(w, e).Some? && t < |w.threads| == |Step(w, e).value.threads|
    ensures var v := Step(w, e).value;
      Mentions(v.threads[t], x) && !Mentions(w.threads[t], x) ==>
        && Mover(e) == Some(t) && w.next == x && v.next == x + 1
        && Enrols(w.threads[t].phase, v.threads[t].phase) && Owns(v, t, x)
  {
    hide Step;
    StepIsGood(w, e);
    if Mover(e).None? { assert AmbientThread(w, Step(w, e).value, t); }
  }

  lemma ThreadsStay<S, R>(w: World<S, R>, e: Event)
    requires Inv(w) && Step(w, e).Some?
    ensures |Step(w, e).value.threads| == |w.threads| && w.next <= Step(w, e).value.next <= w.next + 1
  {
    hide Step;
    StepIsGood(w, e);
  }

  /** Whatever identifier a thread works with, it has registered itself. */
  lemma {:induction false} MentionedWasRegistered<S, R>(w: World<S, R>, schedule: seq<Event>, t: nat, x: nat)
      returns (i: nat)
    requires Initial(w) && Exec(w, schedule).Some? && t < |Exec(w, schedule).value.threads|
    requires Mentions(Exec(w, schedule).value.threads[t], x)
    ensures RegisteredAt(w, schedule, i, t, x)
    decreases |schedule|
  {
    hide Inv, Step;
    if schedule == [] { FreshMentionsNone(w, t); }
    var k := |schedule| - 1;
    var u := Exec(w, schedule[..k]).value;
    ReachableInv(w, schedule[..k]);
    ThreadsStay(u, schedule[k]);
    if Mentions(u.threads[t], x) {
      i := MentionedWasRegistered(w, schedule[..k], t, x);
      assert schedule[..k][..i] == schedule[..i];
    } else {
      i := k;
      MentionedBefore(u, schedule[k], t, x);
    }
  }

  lemma FreshMentionsNone<S, R>(w: World<S, R>, t: nat)
    requires Initial(w) && t < |w.threads|
    ensures forall x :: !Mentions(w.threads[t], x)
  {
    assert Fresh(w.threads[t]);
  }

  // ---- Identifiers are registered once ----------------------------------------------------------------

  lemma {:induction false} NextGrows<S, R>(w: World<S, R>, schedule: seq<Event>, k: nat)
    requires Initial(w) && Exec(w, schedule).Some? && k <= |schedule|
    ensures Exec(w, schedule[..k]).Some? && Exec(w, schedule[..k]).value.next <= Exec(w, schedule).value.next
    decreases |schedule|
  {
    hide Inv, Step;
    if k == |schedule| {
      assert schedule[..k] == schedule;
    } else {
      var n := |schedule| - 1;
      assert schedule[..n][..k] == schedule[..k];
      NextGrows(w, schedule[..n], k);
      ReachableInv(w, schedule[..n]);
      ThreadsStay(Exec(w, schedule[..n]).value, schedule[n]);
    }
  }

  lemma RegisteredInOrder<S, R>(w: World<S, R>, schedule: seq<Event>, i: nat, j: nat, t: nat, u: nat, x: nat)
    requires Initial(w) && RegisteredAt(w, schedule, i, t, x) && RegisteredAt(w, schedule, j, u, x)
    ensures j <= i
  {
    hide Inv, Step;
    if i < j {
      assert schedule[..j][..i + 1] == schedule[..i + 1] && schedule[..i + 1][..i] == schedule[..i];
      NextGrows(w, schedule[..j], i + 1);
    }
  }

  lemma RegisteredOnce<S, R>(w: World<S, R>, schedule: seq<Event>, i: nat, j: nat, t: nat, u: nat, x: nat)
    requires Initial(w) && RegisteredAt(w, schedule, i, t, x) && RegisteredAt(w, schedule, j, u, x)
    ensures i == j && t == u
  {
    RegisteredInOrder(w, schedule, i, j, t, u, x);
    RegisteredInOrder(w, schedule, j, i, u, t, x);
  }

  // ---- Signals have been taken, wakes have been owed ---------------------------------------------------

  ghost predicate TakenBy<S, R>(w: World<S, R>, x: nat) {
    x in w.signalled || InFlight(w, x)
  }

  lemma TakenBefore<S, R>(w: World<S, R>, e: Event, x: nat)
    requires Inv(w) && Step(w, e).Some? && TakenBy(Step(w, e).value, x) && !TakenBy(w, x)
    ensures e.Run? && e.thread < |w.threads| && w.threads[e.thread].phase.Taking?
    ensures x in w.queue && x in Chosen(w.queue, w.threads[e.thread].phase.note)
  {
    hide Step;
    var v := Step(w, e).value;
    StepIsGood(w, e);
    if Mover(e).None? {
      forall u | 0 <= u < |v.threads|
        ensures Carries(v, u, x) <==> Carries(w, u, x)
      {
        assert AmbientThread(w, v, u);
      }
    } else {
      PoppedAfter(w, v, Mover(e).value);
      TakenByMover(w, v, Mover(e).value, x);
      OnlyRunsTake(w, e);
    }
  }

  lemma TakenByMover<S, R>(w: World<S, R>, v: World<S, R>, t: nat, x: nat)
    requires Inv(w) && Moved(w, v, t) && TakenBy(v, x) && !TakenBy(w, x)
    ensures w.threads[t].phase.Taking? && x in Chosen(w.queue, w.threads[t].phase.note) && x in w.queue
  {
    PoppedAfter(w, v, t);
    assert !Carries(w, t, x);
    var u :| 0 <= u < |v.threads| && Carries(v, u, x);
    if u != t { assert Carries(w, u, x); }
    ChosenIsPrefix(w.queue, All);
  }

  lemma OnlyRunsTake<S, R>(w: World<S, R>, e: Event)
    requires Step(w, e).Some? && Mover(e).Some? && Mover(e).value < |w.threads|
    requires w.threads[Mover(e).value].phase.Taking?
    ensures e.Run?
  {
  }

  lemma {:induction false} SignalWasTaken<S, R>(w: World<S, R>, schedule: seq<Event>, x: nat) returns (j: nat)
    requires Initial(w) && Exec(w, schedule).Some? && TakenBy(Exec(w, schedule).value, x)
    ensures TakenAt(w, schedule, j, x)
    decreases |schedule|
  {
    hide Inv, Step;
    if schedule == [] { NothingTaken(w, x); }
    var k := |schedule| - 1;
    var u := Exec(w, schedule[..k]).value;
    ReachableInv(w, schedule[..k]);
    if TakenBy(u, x) {
      j := SignalWasTaken(w, schedule[..k], x);
      assert schedule[..k][..j] == schedule[..j];
    } else {
      j := k;
      TakenBefore(u, schedule[k], x);
    }
  }

  lemma NothingTaken<S, R>(w: World<S, R>, x: nat)
    requires Initial(w)
    ensures !TakenBy(w, x)
  {
    forall t | 0 <= t < |w.threads|
      ensures !Carries(w, t, x)
    {
      assert Fresh(w.threads[t]);
    }
  }

  predicate Owed<S, R>(w: World<S, R>, x: nat) {
    x in w.awake || x in w.waking
  }

  lemma OwedBefore<S, R>(w: World<S, R>, e: Event, x: nat)
    requires Inv(w) && Step(w, e).Some? && Owed(Step(w, e).value, x) && !Owed(w, x)
    ensures e.Fire? && e.timer < |w.threads|
    ensures var timer := w.threads[e.timer].timer; timer.Timer? && timer.status.Armed? && timer.waker == Some(x)
  {
    StepIsGood(w, e);
  }

  lemma {:induction false} WakeWasOwed<S, R>(w: World<S, R>, schedule: seq<Event>, x: nat) returns (j: nat, t: nat)
    requires Initial(w) && Exec(w, schedule).Some? && Owed(Exec(w, schedule).value, x)
    ensures CompletedAt(w, schedule, j, t, x)
    decreases |schedule|
  {
    hide Inv, Step;
    var k := |schedule| - 1;
    var u := Exec(w, schedule[..k]).value;
    ReachableInv(w, schedule[..k]);
    if Owed(u, x) {
      j, t := WakeWasOwed(w, schedule[..k], x);
      assert schedule[..k][..j] == schedule[..j];
    } else {
      OwedBefore(u, schedule[k], x);
      j, t := k, schedule[k].timer;
    }
  }

  // ---- Theorems ---------------------------------------------------------------------------------------

  lemma TakenAfterRegistration<S, R>(w: World<S, R>, schedule: seq<Event>, i: nat, j: nat, t: nat, x: nat)
    requires Initial(w) && RegisteredAt(w, schedule, i, t, x) && TakenAt(w, schedule, j, x)
    ensures i < j
  {
    var u := Exec(w, schedule[..j]).value;
    ReachableInv(w, schedule[..j]);
    assert HasOwner(u, x);
    var k :| 0 <= k < |u.threads| && Owns(u, k, x);
    hide Inv, Step;
    var i' := MentionedWasRegistered(w, schedule[..j], k, x);
    assert schedule[..j][..i'] == schedule[..i'];
    RegisteredOnce(w, schedule, i, i', t, k, x);
  }

  lemma CompletedAfterRegistration<S, R>(
      w: World<S, R>, schedule: seq<Event>, i: nat, j: nat, t: nat, k: nat, x: nat)
    requires Initial(w) && RegisteredAt(w, schedule, i, t, x) && CompletedAt(w, schedule, j, k, x)
    ensures i < j && k == t
  {
    hide Inv, Step;
    var i' := MentionedWasRegistered(w, schedule[..j], k, x);
    assert schedule[..j][..i'] == schedule[..i'];
    RegisteredOnce(w, schedule, i, i', t, k, x);
  }

  /**
    No stale signal crosses registrations. If the registration that thread `t` made at event `i` is signalled, a
    notification after `i` found it in the registry and took it; if it is woken by a Timer, the TimerFuture of `t`
    itself completed after `i` with this registration as its last waker.
   */
  lemma SignalsBelongToTheirWait<S, R>(w: World<S, R>, schedule: seq<Event>, i: nat, t: nat, x: nat)
    requires Initial(w) && Exec(w, schedule).Some? && RegisteredAt(w, schedule, i, t, x)
    ensures x in Exec(w, schedule).value.signalled ==> exists j :: i < j < |schedule| && TakenAt(w, schedule, j, x)
    ensures x in Exec(w, schedule).value.awake ==> exists j :: i < j < |schedule| && CompletedAt(w, schedule, j, t, x)
  {
    if x in Exec(w, schedule).value.signalled {
      var j := SignalWasTaken(w, schedule, x);
      TakenAfterRegistration(w, schedule, i, j, t, x);
    }
    if x in Exec(w, schedule).value.awake {
      var j, k := WakeWasOwed(w, schedule, x);
      CompletedAfterRegistration(w, schedule, i, j, t, k, x);
    }
  }

  /**
    A thread that is parked runs again only because of its own wait: it is parked on a registration of its own, and
    when it can run, that registration has been taken since, or its own TimerFuture has completed since.
   */
  lemma WakeupsAreCurrent<S, R>(w: World<S, R>, schedule: seq<Event>, t: nat) returns (i: nat)
    requires Initial(w) && Exec(w, schedule).Some? && t < |Exec(w, schedule).value.threads|
    requires Exec(w, schedule).value.threads[t].phase.Parked? && !Blocked(Exec(w, schedule).value, t)
    ensures var x := Exec(w, schedule).value.threads[t].phase.id;
      && RegisteredAt(w, schedule, i, t, x)
      && exists j :: i < j < |schedule| && (TakenAt(w, schedule, j, x) || CompletedAt(w, schedule, j, t, x))
  {
    var x := Exec(w, schedule).value.threads[t].phase.id;
    i := MentionedWasRegistered(w, schedule, t, x);
    SignalsBelongToTheirWait(w, schedule, i, t, x);
  }

  lemma GoneOnceTaken<S, R>(w: World<S, R>, e: Event, x: nat)
    requires Inv(w) && Step(w, e).Some? && e.Run? && e.thread < |w.threads| && w.threads[e.thread].phase.Taking?
    requires x in w.queue && x in Chosen(w.queue, w.threads[e.thread].phase.note)
    ensures var v := Step(w, e).value; x !in v.queue && x < v.next
  {
    hide Step;
    var t := e.thread;
    StepIsGood(w, e);
    ChosenIsPrefix(w.queue, w.threads[t].phase.note);
    CutOrdered(w.queue, |Chosen(w.queue, w.threads[t].phase.note)|, w.next);
  }

  lemma {:induction false} TakenStaysGone<S, R>(w: World<S, R>, schedule: seq<Event>, j: nat, x: nat)
    requires Initial(w) && Exec(w, schedule).Some? && TakenAt(w, schedule, j, x)
    ensures var v := Exec(w, schedule).value; x !in v.queue && x < v.next
    decreases |schedule|
  {
    hide Inv, Step;
    var k := |schedule| - 1;
    ReachableInv(w, schedule[..k]);
    if j == k {
      GoneOnceTaken(Exec(w, schedule[..k]).value, schedule[k], x);
    } else {
      assert schedule[..k][..j] == schedule[..j];
      TakenStaysGone(w, schedule[..k], j, x);
      StepKeepsGone(Exec(w, schedule[..k]).value, schedule[k], x);
    }
  }

  /** Each registration is selected by at most one notification over its life. */
  lemma SelectedOnce<S, R>(w: World<S, R>, schedule: seq<Event>, j: nat, k: nat, x: nat)
    requires Initial(w) && TakenAt(w, schedule, j, x) && TakenAt(w, schedule, k, x)
    ensures j == k
  {
    hide Inv, Step;
    if j < k {
      assert schedule[..k][..j] == schedule[..j];
      TakenStaysGone(w, schedule[..k], j, x);
    } else if k < j {
      assert schedule[..j][..k] == schedule[..k];
      TakenStaysGone(w, schedule[..j], k, x);
    }
  }
}
