/** Selection and cancellation: each registration is selected at most once, and nothing leaks into another wait. */
module Selection {
  import opened Basics
  import opened Protocol
  import opened Invariants
  import opened Outcomes

  /** Identifiers only grow, and one that has left the registry is not selectable by this step either. */
  lemma StepKeepsGone<S, R>(w: World<S, R>, e: Event, x: nat)
    requires Inv(w) && Step(w, e).Some? && x < w.next && x !in w.queue
    ensures var v := Step(w, e).value; x < v.next && x !in v.queue && w.signalled <= v.signalled
  {
    StepIsGood(w, e);
    if Mover(e).Some? { QueueAfter(w, Step(w, e).value, Mover(e).value); }
  }

  /**
    At most one selection: once a registration has been taken by a notifier, has been dropped or was cancelled, it
    is never in the registry again, so no later notification selects it, under any continuation.
   */
  lemma {:induction false} GoneForGood<S, R>(w: World<S, R>, schedule: seq<Event>, x: nat)
    requires Inv(w) && Exec(w, schedule).Some? && x < w.next && x !in w.queue
    ensures var v := Exec(w, schedule).value;
      Inv(v) && x < v.next && x !in v.queue && w.signalled <= v.signalled
    decreases |schedule|
  {
    if schedule != [] {
      var k := |schedule| - 1;
      GoneForGood(w, schedule[..k], x);
      StepKeepsGone(Exec(w, schedule[..k]).value, schedule[k], x);
      StepKeepsInv(Exec(w, schedule[..k]).value, schedule[k]);
    }
  }

  /**
    Memoryless: a registration starts unsignalled. No earlier notification, no popped list that is still being
    signalled and no Timer wake on its way refers to it.
   */
  lemma RegistrationIsFresh<S, R>(w: World<S, R>, t: nat, accepted: bool)
    requires Inv(w) && t < |w.threads| && RunStep(w, t, accepted).Some?
    requires w.threads[t].phase.Registering? && w.next < MAX_ID
    ensures var v := RunStep(w, t, accepted).value;
      && |v.threads| == |w.threads| && Entry(v.threads[t].phase) == Some(w.next)
      && v.queue == w.queue + [w.next] && w.next !in w.queue
      && w.next !in v.signalled && w.next !in v.awake && w.next !in v.waking && !InFlight(v, w.next)
  {
    assert ShapeOk(w.threads[t]);
    var v := RunStep(w, t, accepted).value;
    forall u | 0 <= u < |v.threads|
      ensures !Carries(v, u, w.next)
    {
      assert PoppedOk(w, u);
    }
  }

  /** Dropping a registration, selected or not, leaves every other thread's registration as it was. */
  lemma DropTouchesOnlyItself<S, R>(w: World<S, R>, t: nat, u: nat)
    requires Inv(w) && t < |w.threads| && u < |w.threads| && u != t
    requires w.threads[t].phase.Dropping? && Entry(w.threads[u].phase).Some?
    ensures RunStep(w, t, true).Some?
    ensures var v := RunStep(w, t, true).value;
      var id, other := w.threads[t].phase.id, Entry(w.threads[u].phase).value;
      && id !in v.queue && (other in v.queue <==> other in w.queue)
      && v.signalled == w.signalled && v.threads[u] == w.threads[u]
  {
    assert ShapeOk(w.threads[t]) && Apart(w, t, u);
  }

  /**
    A late signal reaches only the registration it was taken for: a thread that has meanwhile begun another wait
    can run after it exactly if it could before.
   */
  lemma LateSignalIsHarmless<S, R>(w: World<S, R>, t: nat, u: nat)
    requires Inv(w) && t < |w.threads| && u < |w.threads| && u != t
    requires w.threads[t].phase.Signalling? && w.threads[u].phase.Parked?
    ensures RunStep(w, t, true).Some?
    ensures var v := RunStep(w, t, true).value;
      && |v.threads| == |w.threads| && v.threads[u] == w.threads[u] && v.queue == w.queue && v.data == w.data
      && (w.threads[u].phase.id != w.threads[t].phase.popped[0] ==>
            (RunStep(v, u, true).Some? <==> RunStep(w, u, true).Some?))
      && (w.threads[u].phase.id == w.threads[t].phase.popped[0] ==> RunStep(v, u, true).Some?)
  {
    assert ShapeOk(w.threads[t]) && ShapeOk(w.threads[u]);
  }

  /** A notification that finds nobody registered changes nothing but its caller. */
  lemma EmptyNotification<S, R>(w: World<S, R>, t: nat)
    requires Inv(w) && t < |w.threads| && w.threads[t].phase.Taking? && w.queue == []
    ensures RunStep(w, t, true).Some?
    ensures var v := RunStep(w, t, true).value;
      && |v.threads| == |w.threads| && v == w.(threads := v.threads)
      && (forall u :: 0 <= u < |w.threads| && u != t ==> v.threads[u] == w.threads[u])
      && v.threads[t].phase.Idle?
  {
    assert ShapeOk(w.threads[t]);
  }

  // ---- The cut of one notification --------------------------------------------------------------------

  /** `notify_all` takes exactly the waiters registered at that moment, `notify_one` the oldest of them. */
  lemma CutAtTake<S, R>(w: World<S, R>, t: nat)
    requires Inv(w) && t < |w.threads| && w.threads[t].phase.Taking? && w.queue != []
    ensures RunStep(w, t, true).Some?
    ensures var v := RunStep(w, t, true).value;
      && |v.threads| == |w.threads| && v.threads[t].phase.Signalling?
      && var popped := v.threads[t].phase.popped;
      && popped + v.queue == w.queue && v.signalled == w.signalled
      && (w.threads[t].phase.note.All? ==> v.queue == [])
      && (w.threads[t].phase.note.One? ==> popped == [w.queue[0]] && forall x :: x in v.queue ==> popped[0] < x)
  {
    assert ShapeOk(w.threads[t]);
    assert w.queue == w.queue[..|Chosen(w.queue, w.threads[t].phase.note)|]
                    + w.queue[|Chosen(w.queue, w.threads[t].phase.note)|..];
  }

  /** How far thread `t` has come in signalling `popped`: it is in the middle of it, or has returned. */
  ghost predicate Delivering<S, R>(v: World<S, R>, t: nat, popped: seq<nat>, calls: nat) {
    && t < |v.threads|
    && if |v.threads[t].calls| == calls then
         && v.threads[t].phase.Signalling?
         && var rest := v.threads[t].phase.popped;
         && |rest| <= |popped| && rest == popped[|popped| - |rest|..]
         && forall i :: 0 <= i < |popped| - |rest| ==> popped[i] in v.signalled
       else
         |v.threads[t].calls| < calls && forall x :: x in popped ==> x in v.signalled
  }

  lemma StepKeepsDelivering<S, R>(w: World<S, R>, e: Event, t: nat, popped: seq<nat>, calls: nat)
    requires Inv(w) && Step(w, e).Some? && Delivering(w, t, popped, calls)
    ensures Delivering(Step(w, e).value, t, popped, calls)
  {
    var v := Step(w, e).value;
    StepIsGood(w, e);
    assert ShapeOk(w.threads[t]);
    if Mover(e).None? {
      assert AmbientThread(w, v, t);
    } else {
      DeliveringMoves(w, v, Mover(e).value, t, popped, calls);
    }
  }

  lemma DeliveringMoves<S, R>(w: World<S, R>, v: World<S, R>, m: nat, t: nat, popped: seq<nat>, calls: nat)
    requires Good(w, v, m) && Delivering(w, t, popped, calls) && ShapeOk(w.threads[t])
    ensures Delivering(v, t, popped, calls)
  {
    assert w.signalled <= v.signalled;
    if m == t && |w.threads[t].calls| == calls {
      var rest := w.threads[t].phase.popped;
      assert popped[|popped| - |rest|] == rest[0];
      if |v.threads[t].calls| != calls {
        forall x | x in popped
          ensures x in v.signalled
        {
          var i :| 0 <= i < |popped| && popped[i] == x;
        }
      }
    }
  }

  /**
    The cut is delivered: whatever happens after a notifier has taken `popped`, exactly the taken waiters are left
    to signal or signalled by it, in order, and all of them are signalled once its call has returned.
   */
  lemma {:induction false} CutIsDelivered<S, R>(w: World<S, R>, schedule: seq<Event>, t: nat)
    requires Inv(w) && t < |w.threads| && w.threads[t].phase.Signalling? && Exec(w, schedule).Some?
    ensures Delivering(Exec(w, schedule).value, t, w.threads[t].phase.popped, |w.threads[t].calls|)
    ensures Inv(Exec(w, schedule).value)
    decreases |schedule|
  {
    if schedule != [] {
      var k := |schedule| - 1;
      CutIsDelivered(w, schedule[..k], t);
      var u := Exec(w, schedule[..k]).value;
      StepKeepsDelivering(u, schedule[k], t, w.threads[t].phase.popped, |w.threads[t].calls|);
      StepKeepsInv(u, schedule[k]);
    }
  }

  /** Only a notifier latches a waiter: a step adds to `signalled` the head of the list its thread has taken. */
  lemma OnlyTakenAreSignalled<S, R>(w: World<S, R>, e: Event, x: nat)
    requires Inv(w) && Step(w, e).Some? && x in Step(w, e).value.signalled && x !in w.signalled
    ensures e.Run? && e.thread < |w.threads| && w.threads[e.thread].phase.Signalling?
    ensures x == w.threads[e.thread].phase.popped[0]
  {
    StepIsGood(w, e);
    if e.Run? { assert ShapeOk(w.threads[e.thread]); }
  }

  // ---- Cancellation and the exits of a wait -----------------------------------------------------------

  /** No monitor future is suspended while it holds the state lock. */
  lemma SuspendedHoldsNothing<S, R>(w: World<S, R>, schedule: seq<Event>, t: nat)
    requires Initial(w) && Exec(w, schedule).Some? && t < |Exec(w, schedule).value.threads|
    requires Suspended(Exec(w, schedule).value.threads[t])
    ensures Exec(w, schedule).value.owner != Some(t)
  {
    ReachableInv(w, schedule);
    assert LockOk(Exec(w, schedule).value, t);
  }

  /**
    A future can be dropped wherever it is suspended. Its registration is gone, it does not hold the lock, its
    action has not run and will not, and every other thread, latch and registration is as before.
   */
  lemma CancelIsClean<S, R>(w: World<S, R>, schedule: seq<Event>, t: nat)
    requires Initial(w) && Exec(w, schedule).Some? && t < |Exec(w, schedule).value.threads|
    requires Suspended(Exec(w, schedule).value.threads[t])
    ensures Step(Exec(w, schedule).value, Cancel(t)).Some?
    ensures var u := Exec(w, schedule).value;
      var v := Step(u, Cancel(t)).value;
      && v.owner == u.owner && v.owner != Some(t)
      && v.data == u.data && v.log == u.log
      && v.signalled == u.signalled && v.awake == u.awake && v.waking == u.waking
      && |v.threads| == |u.threads| && (forall k :: 0 <= k < |u.threads| && k != t ==> v.threads[k] == u.threads[k])
      && NewOutcome(u, v, t) == Some(Cancelled) && |v.threads[t].calls| == |u.threads[t].calls| - 1
      && (forall x :: x in v.queue <==> x in u.queue && !Owns(u, t, x))
      && (forall x :: x in v.queue ==> OwnedByAnother(v, t, x))
  {
    ReachableInv(w, schedule);
    var u := Exec(w, schedule).value;
    var v := Step(u, Cancel(t)).value;
    StepKeepsInv(u, Cancel(t));
    assert LockOk(u, t);
    forall x | x in v.queue
      ensures OwnedByAnother(v, t, x)
    {
      assert HasOwner(v, x);
      var k :| 0 <= k < |v.threads| && Owns(v, k, x);
    }
    if u.threads[t].phase.Relocking? { assert IdOk(u, t); }
  }

  ghost predicate OwnedByAnother<S, R>(w: World<S, R>, t: nat, x: nat) {
    exists k :: 0 <= k < |w.threads| && k != t && Owns(w, k, x)
  }

  /**
    Whenever a predicate or an action runs, its thread holds the lock and every registration belongs to another
    thread; and after reacquiring the lock the registration of the finished wait is no longer active.
   */
  lemma WaitExits<S, R>(w: World<S, R>, schedule: seq<Event>, t: nat)
    requires Initial(w) && Exec(w, schedule).Some? && t < |Exec(w, schedule).value.threads|
    ensures var v := Exec(w, schedule).value;
      var p := v.threads[t].phase;
      && (p.Checking? || p.FinalPoll? || p.Leaving? ==>
            v.owner == Some(t) && forall x :: x in v.queue ==> OwnedByAnother(v, t, x))
      && (p.Relocking? || p.FinalPoll? ==> p.id !in v.queue)
  {
    ReachableInv(w, schedule);
    var v := Exec(w, schedule).value;
    assert LockOk(v, t) && IdOk(v, t);
    forall x | x in v.queue && Entry(v.threads[t].phase).None?
      ensures OwnedByAnother(v, t, x)
    {
      assert HasOwner(v, x);
      var k :| 0 <= k < |v.threads| && Owns(v, k, x);
    }
  }
}
