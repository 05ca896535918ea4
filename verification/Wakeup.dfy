/**
  No lost wakeup: when every action that can unblock a predicate is followed by `notify_all`, no thread stays
  parked on a predicate that no longer blocks. Timer errors and cancelled Tokio futures are allowed.
 */
module Wakeup {
  import opened Basics
  import opened Protocol
  import opened Invariants

  /** Running `c` never unblocks `d` without a `notify_all`. */
  ghost predicate Announces<S(!new), R>(c: Call<S, R>, d: Call<S, R>) {
    forall s :: !c.waiting(s) && d.waiting(s) && !d.waiting(c.action(s).0) ==> c.note(c.action(s).1) == All
  }

  ghost predicate Disciplined<S(!new), R>(w: World<S, R>) {
    forall t, u, i, j ::
      && 0 <= t < |w.threads| && 0 <= u < |w.threads|
      && 0 <= i < |w.threads[t].calls| && 0 <= j < |w.threads[u].calls|
      ==> Announces(w.threads[t].calls[i], w.threads[u].calls[j])
  }

  lemma AnnouncesSameCode<S(!new), R>(c: Call<S, R>, d: Call<S, R>, c': Call<S, R>, d': Call<S, R>)
    requires Announces(c, d) && SameCode(c', c) && SameCode(d', d)
    ensures Announces(c', d')
  {
  }

  /** Each remaining call of a thread is one it had before the step, up to its timing. */
  lemma CallBefore<S, R>(a: Thread<S, R>, b: Thread<S, R>, clock: nat, horizon: nat, j: nat) returns (k: nat)
    requires (b.calls == a.calls || CallsMove(a, b, clock, horizon)) && j < |b.calls|
    ensures k < |a.calls| && SameCode(b.calls[j], a.calls[k]) && Continues(b.calls[j], a.calls[k], clock, horizon)
  {
    k := if b.calls == a.calls || |b.calls| == |a.calls| then j else j + 1;
    if b.calls != a.calls && |b.calls| == |a.calls| && j > 0 {
      assert b.calls[1..][j - 1] == a.calls[1..][j - 1];
    }
  }

  lemma StepKeepsDiscipline<S(!new), R>(w: World<S, R>, e: Event)
    requires Inv(w) && Disciplined(w) && Step(w, e).Some?
    ensures Disciplined(Step(w, e).value)
  {
    var v := Step(w, e).value;
    StepIsGood(w, e);
    assert forall t :: 0 <= t < |w.threads| ==> ThreadCallsMove(w, v, t) by {
      forall t | 0 <= t < |w.threads|
        ensures ThreadCallsMove(w, v, t)
      {
        if Mover(e).None? { assert AmbientThread(w, v, t); }
      }
    }
    forall t, u, i, j |
      && 0 <= t < |v.threads| && 0 <= u < |v.threads|
      && 0 <= i < |v.threads[t].calls| && 0 <= j < |v.threads[u].calls|
      ensures Announces(v.threads[t].calls[i], v.threads[u].calls[j])
    {
      assert ThreadCallsMove(w, v, t) && ThreadCallsMove(w, v, u);
      var i' := CallBefore(w.threads[t], v.threads[t], w.clock, w.horizon, i);
      var j' := CallBefore(w.threads[u], v.threads[u], w.clock, w.horizon, j);
      AnnouncesSameCode(w.threads[t].calls[i'], w.threads[u].calls[j'], v.threads[t].calls[i], v.threads[u].calls[j]);
    }
  }

  ghost predicate ThreadCallsMove<S, R>(w: World<S, R>, v: World<S, R>, t: nat) {
    && t < |w.threads| == |v.threads|
    && (v.threads[t].calls == w.threads[t].calls || CallsMove(w.threads[t], v.threads[t], w.clock, w.horizon))
  }

  // ---- The invariant ----------------------------------------------------------------------------------

  /** Thread `t` is going to take every registered waiter. */
  predicate WillNotifyAll<S, R>(w: World<S, R>, t: nat)
    requires t < |w.threads|
  {
    w.threads[t].phase == Leaving(All) || w.threads[t].phase == Taking(All)
  }

  ghost predicate AllPending<S, R>(w: World<S, R>) {
    exists t :: 0 <= t < |w.threads| && WillNotifyAll(w, t)
  }

  /** Thread `t` has released the lock and nobody has selected it yet. */
  predicate Unselected<S, R>(w: World<S, R>, t: nat)
    requires t < |w.threads|
  {
    var p := w.threads[t].phase;
    (p.Parked? || p.Polling?) && p.id in w.queue && w.threads[t].calls != []
  }

  ghost predicate WakeOk<S, R>(w: World<S, R>, t: nat)
    requires t < |w.threads|
  {
    Unselected(w, t) ==> w.threads[t].calls[0].waiting(w.data) || AllPending(w)
  }

  ghost predicate WakeInv<S, R>(w: World<S, R>) {
    forall t :: 0 <= t < |w.threads| ==> WakeOk(w, t)
  }

  /** A pending `notify_all` stays pending until it has emptied the registry. */
  lemma PendingStays<S, R>(w: World<S, R>, v: World<S, R>, t: nat)
    requires AllPending(w) && Good(w, v, t) && v.queue != []
    ensures AllPending(v)
  {
    var k :| 0 <= k < |w.threads| && WillNotifyAll(w, k);
    assert k == t && w.threads[t].phase.Taking? ==> v.queue == [];
    assert WillNotifyAll(v, k);
  }

  /** The moving thread itself: its predicate blocked when it released the lock. */
  lemma MoverKeepsWake<S, R>(w: World<S, R>, v: World<S, R>, t: nat)
    requires Inv(w) && WakeInv(w) && Good(w, v, t) && Unselected(v, t)
    ensures WakeOk(v, t)
  {
    QueueAfter(w, v, t);
    assert WakeOk(w, t) && CheckOk(w, t) && ShapeOk(w.threads[t]);
    var p := w.threads[t].phase;
    assert v.threads[t].calls == w.threads[t].calls && v.data == w.data && v.queue == w.queue;
    if !p.Releasing? && !w.threads[t].calls[0].waiting(w.data) {
      assert Unselected(w, t);
      PendingStays(w, v, t);
    }
  }

  /** Another parked thread: if the action unblocks it, the moving thread is about to notify everyone. */
  lemma OtherKeepsWake<S(!new), R>(w: World<S, R>, v: World<S, R>, t: nat, u: nat)
    requires Inv(w) && Disciplined(w) && WakeInv(w) && Good(w, v, t)
    requires u < |v.threads| && u != t && Unselected(v, u)
    ensures WakeOk(v, u)
  {
    QueueAfter(w, v, t);
    assert WakeOk(w, u) && IdOk(w, u);
    assert Unselected(w, u);
    var d := w.threads[u].calls[0];
    if !d.waiting(w.data) {
      PendingStays(w, v, t);
    } else if Acts(w, t) {
      assert Announces(w.threads[t].calls[0], d);
      if !d.waiting(v.data) { assert WillNotifyAll(v, t); }
    }
  }

  lemma GoodKeepsWake<S(!new), R>(w: World<S, R>, v: World<S, R>, t: nat)
    requires Inv(w) && Disciplined(w) && WakeInv(w) && Good(w, v, t)
    ensures WakeInv(v)
  {
    forall u | 0 <= u < |v.threads| && Unselected(v, u)
      ensures WakeOk(v, u)
    {
      if u == t { MoverKeepsWake(w, v, t); } else { OtherKeepsWake(w, v, t, u); }
    }
  }

  lemma AmbientKeepsWake<S, R>(w: World<S, R>, v: World<S, R>)
    requires WakeInv(w) && Ambient(w, v)
    ensures WakeInv(v)
  {
    forall t | 0 <= t < |v.threads| && Unselected(v, t)
      ensures WakeOk(v, t)
    {
      assert AmbientThread(w, v, t) && WakeOk(w, t);
      if AllPending(w) {
        var k :| 0 <= k < |w.threads| && WillNotifyAll(w, k);
        assert AmbientThread(w, v, k) && WillNotifyAll(v, k);
      }
    }
  }

  lemma {:induction false} ReachableWake<S(!new), R>(w: World<S, R>, schedule: seq<Event>)
    requires Initial(w) && Disciplined(w) && Exec(w, schedule).Some?
    ensures Inv(Exec(w, schedule).value) && WakeInv(Exec(w, schedule).value)
    ensures Disciplined(Exec(w, schedule).value)
    decreases |schedule|
  {
    ReachableInv(w, schedule);
    if schedule == [] {
      assert forall t :: 0 <= t < |w.threads| ==> Fresh(w.threads[t]);
    } else {
      var k := |schedule| - 1;
      ReachableWake(w, schedule[..k]);
      var before, e := Exec(w, schedule[..k]).value, schedule[k];
      StepKeepsDiscipline(before, e);
      StepIsGood(before, e);
      if Mover(e).Some? {
        GoodKeepsWake(before, Step(before, e).value, Mover(e).value);
      } else {
        AmbientKeepsWake(before, Step(before, e).value);
      }
    }
  }

  // ---- Theorems ---------------------------------------------------------------------------------------

  /**
    Where a thread between registration and recheck can be, in any reachable state: its predicate still blocks,
    or it is signalled, or a notifier has taken it, or it is registered and a `notify_all` is on its way.
   */
  lemma WaiterFates<S(!new), R>(w: World<S, R>, schedule: seq<Event>, t: nat)
    requires Initial(w) && Disciplined(w) && Exec(w, schedule).Some?
    requires var v := Exec(w, schedule).value;
      t < |v.threads| && (v.threads[t].phase.Parked? || v.threads[t].phase.Polling?)
    ensures var v := Exec(w, schedule).value;
      var id := v.threads[t].phase.id;
      && v.threads[t].calls != []
      && (|| id in v.signalled
          || InFlight(v, id)
          || (id in v.queue && (v.threads[t].calls[0].waiting(v.data) || AllPending(v))))
  {
    ReachableWake(w, schedule);
    var v := Exec(w, schedule).value;
    assert ShapeOk(v.threads[t]) && WakeOk(v, t) && Accounted(v, Entry(v.threads[t].phase).value);
  }

  /** A thread that has returned from all its calls. */
  predicate Finished<S, R>(th: Thread<S, R>) {
    th.phase.Idle? && th.calls == []
  }

  /** A thread that is not finished and holds no parked, unlatched waiter can run when the lock is free. */
  lemma BlockedMeans<S, R>(w: World<S, R>, t: nat)
    requires Inv(w) && t < |w.threads| && Blocked(w, t)
    ensures var th := w.threads[t];
      || Finished(th)
      || (th.phase.Parked? && th.phase.id !in w.signalled && th.phase.id !in w.awake)
      || (w.owner.Some? && w.owner != Some(t) && (th.phase.Idle? || th.phase.Relocking?))
  {
    assert ShapeOk(w.threads[t]) && LockOk(w, t);
  }

  /** In a quiescent state the lock is free, nothing is in flight, and every thread is finished or parked. */
  lemma QuiescentShape<S, R>(w: World<S, R>)
    requires Inv(w) && Quiescent(w)
    ensures w.owner == None
    ensures forall t :: 0 <= t < |w.threads| ==>
      Finished(w.threads[t]) || (w.threads[t].phase.Parked? && w.threads[t].phase.id in w.queue)
  {
    if w.owner.Some? {
      var t := w.owner.value;
      assert LockOk(w, t) && Blocked(w, t);
      BlockedMeans(w, t);
    }
    forall t | 0 <= t < |w.threads|
      ensures Finished(w.threads[t]) || (w.threads[t].phase.Parked? && w.threads[t].phase.id in w.queue)
    {
      assert Blocked(w, t);
      BlockedMeans(w, t);
      if !Finished(w.threads[t]) {
        var id := w.threads[t].phase.id;
        assert Accounted(w, id);
        if InFlight(w, id) {
          var u :| 0 <= u < |w.threads| && Carries(w, u, id);
          assert Blocked(w, u);
          BlockedMeans(w, u);
        }
      }
    }
  }

  /**
    No lost wakeup: when no thread can step, every thread has returned from all its calls or is parked, still
    registered, on a predicate that blocks in the current state.
   */
  lemma NoLostWakeup<S(!new), R>(w: World<S, R>, schedule: seq<Event>, t: nat)
    requires Initial(w) && Disciplined(w) && Exec(w, schedule).Some?
    requires Quiescent(Exec(w, schedule).value) && t < |Exec(w, schedule).value.threads|
    ensures var v := Exec(w, schedule).value;
      var th := v.threads[t];
      || Finished(th)
      || (th.phase.Parked? && th.phase.id in v.queue && th.calls != [] && th.calls[0].waiting(v.data))
  {
    ReachableWake(w, schedule);
    var v := Exec(w, schedule).value;
    QuiescentShape(v);
    assert ShapeOk(v.threads[t]) && WakeOk(v, t);
  }
}
