/** What the steps of others, and the Timer, leave to a thread. */
module Interference {
  import opened Basics
  import opened Protocol
  import opened Invariants

  /** An event that is not a step of thread `t`. */
  predicate Foreign(e: Event, t: nat) {
    Mover(e) != Some(t)
  }

  /** `after` continues `before` with steps of others only. */
  predicate Interleaves(before: seq<Event>, after: seq<Event>, t: nat) {
    before <= after && forall i :: |before| <= i < |after| ==> Foreign(after[i], t)
  }

  /** The TimerFuture of a thread changes under its feet only by completing. */
  predicate Ages(a: Timer, b: Timer) {
    b == a || (a.Timer? && a.status.Armed? && b.Timer? && b.status.Fired? && b.deadline == a.deadline)
  }

  ghost predicate Undisturbed<S, R>(u: World<S, R>, v: World<S, R>, t: nat) {
    && t < |u.threads| == |v.threads|
    && v.threads[t] == u.threads[t].(timer := v.threads[t].timer)
    && Ages(u.threads[t].timer, v.threads[t].timer)
    && (u.owner == Some(t) <==> v.owner == Some(t))
    && (u.owner == Some(t) ==> v.data == u.data && v.log == u.log)
    && u.clock <= v.clock && u.horizon == v.horizon
    && u.signalled <= v.signalled && u.awake <= v.awake
  }

  lemma ForeignStep<S, R>(u: World<S, R>, e: Event, t: nat)
    requires Inv(u) && Step(u, e).Some? && Foreign(e, t) && t < |u.threads|
    ensures Undisturbed(u, Step(u, e).value, t)
  {
    var v := Step(u, e).value;
    StepIsGood(u, e);
    assert LockOk(u, t);
    match e
    case Run(k, _) => assert LockOk(u, k);
    case Cancel(k) => assert LockOk(u, k);
    case Repoll(k) => assert LockOk(u, k);
    case _ => assert AmbientThread(u, v, t);
  }

  /** Whatever others do, a thread finds its own phase, its lock and the data it has locked as it left them. */
  lemma {:induction false} ForeignRun<S, R>(w: World<S, R>, before: seq<Event>, after: seq<Event>, t: nat)
    requires Initial(w) && Interleaves(before, after, t) && Exec(w, before).Some? && Exec(w, after).Some?
    requires t < |Exec(w, before).value.threads|
    ensures Undisturbed(Exec(w, before).value, Exec(w, after).value, t)
    decreases |after|
  {
    if before != after {
      var k := |after| - 1;
      assert before <= after[..k];
      ForeignRun(w, before, after[..k], t);
      ReachableInv(w, after[..k]);
      ForeignStep(Exec(w, after[..k]).value, after[k], t);
    }
  }

  // ---- What a thread does with the visits of the scheduler ---------------------------------------------

  /** The scheduler visits a thread that waits: it may run, or, if it is a task, its executor drops its future. */
  datatype Visit = Go | Drop

  /** The thread was blocked when visit `i` came, at event `visits[i]`, or has used the visit for a step of its own. */
  ghost predicate Used<S, R>(w: World<S, R>, trace: seq<Event>, visits: seq<nat>, i: nat, t: nat)
    requires i < |visits|
  {
    && visits[i] <= |trace| && Exec(w, trace[..visits[i]]).Some?
    && var u := Exec(w, trace[..visits[i]]).value;
    && t < |u.threads|
    && (Blocked(u, t) || (visits[i] < |trace| && Mover(trace[visits[i]]) == Some(t)))
  }

  /** No visit is wasted; only the last one may still be `pending`. */
  ghost predicate Diligent<S, R>(w: World<S, R>, trace: seq<Event>, visits: seq<nat>, pending: bool, t: nat) {
    && (pending ==> visits != [] && visits[|visits| - 1] == |trace|)
    && forall i: nat :: i < |visits| && (pending ==> i < |visits| - 1) ==> Used(w, trace, visits, i, t)
  }

  lemma DiligentStep<S, R>(w: World<S, R>, trace: seq<Event>, visits: seq<nat>, pending: bool, t: nat, e: Event)
    requires Diligent(w, trace, visits, pending, t) && Mover(e) == Some(t)
    requires Exec(w, trace).Some? && t < |Exec(w, trace).value.threads|
    ensures Diligent(w, trace + [e], visits, false, t)
  {
    hide Exec, Blocked;
    forall i: nat | i < |visits|
      ensures Used(w, trace + [e], visits, i, t)
    {
      if pending && i == |visits| - 1 {
        assert (trace + [e])[..|trace|] == trace;
      } else {
        assert Used(w, trace, visits, i, t);
        assert (trace + [e])[..visits[i]] == trace[..visits[i]];
      }
    }
  }

  lemma DiligentWait<S, R>(w: World<S, R>, trace: seq<Event>, visits: seq<nat>, pending: bool, t: nat)
    requires Diligent(w, trace, visits, pending, t)
    requires Exec(w, trace).Some? && t < |Exec(w, trace).value.threads|
    requires pending ==> Blocked(Exec(w, trace).value, t)
    ensures Diligent(w, trace, visits, false, t)
  {
    hide Exec, Blocked;
    assert trace[..|trace|] == trace;
  }

  lemma DiligentVisit<S, R>(w: World<S, R>, trace: seq<Event>, visits: seq<nat>, t: nat)
    requires Diligent(w, trace, visits, false, t)
    ensures Diligent(w, trace, visits + [|trace|], true, t)
  {
    forall i: nat | i < |visits|
      ensures Used(w, trace, visits + [|trace|], i, t)
    {
      assert Used(w, trace, visits, i, t);
    }
  }
}
