/** The TimerFuture of a call: never polled after completion, and its completion always reaches the parked waiter. */
module Timers {
  import opened Basics
  import opened Protocol
  import opened Invariants

  /** In every run, no TimerFuture that has returned `Ready` (success or error) is polled again. */
  lemma NoPollAfterCompletion<S, R>(w: World<S, R>, schedule: seq<Event>)
    requires Initial(w) && Exec(w, schedule).Some?
    ensures !Exec(w, schedule).value.misused
  {
    ReachableInv(w, schedule);
  }

  /**
    Whenever a timed wait is parked, its TimerFuture has not been consumed, and the last waker installed in it is
    the waiter the thread is parked on, or that waiter's wake is on its way or has arrived.
   */
  lemma ParkedWaiterIsInstalled<S, R>(w: World<S, R>, schedule: seq<Event>, t: nat)
    requires Initial(w) && Exec(w, schedule).Some? && t < |Exec(w, schedule).value.threads|
    requires var th := Exec(w, schedule).value.threads[t];
      th.phase.Parked? && th.calls != [] && Timed(th.calls[0])
    ensures var v := Exec(w, schedule).value;
      v.threads[t].timer.Timer? && !v.threads[t].timer.status.Spent?
      && WillWake(v, v.threads[t].timer, v.threads[t].phase.id)
  {
    ReachableInv(w, schedule);
    assert TimerOk(Exec(w, schedule).value, Exec(w, schedule).value.threads[t]);
  }

  /** Timer completion, then the wake it owes, unpark the thread, whatever it had polled with before. */
  lemma NoLostTimerWake<S, R>(w: World<S, R>, schedule: seq<Event>, t: nat, ok: bool)
    requires Initial(w) && Exec(w, schedule).Some? && t < |Exec(w, schedule).value.threads|
    requires var v := Exec(w, schedule).value;
      && v.threads[t].phase.Parked? && v.threads[t].calls != [] && Timed(v.threads[t].calls[0])
      && v.threads[t].timer.Timer? && v.threads[t].timer.status.Armed?
    requires ok ==> Exec(w, schedule).value.clock >= Exec(w, schedule).value.threads[t].timer.deadline
    ensures var v := Exec(w, schedule).value;
      var id := v.threads[t].phase.id;
      && Step(v, Fire(t, ok)).Some?
      && var fired := Step(v, Fire(t, ok)).value;
      && Step(fired, Wake(id)).Some?
      && var woken := Step(fired, Wake(id)).value;
      && |woken.threads| == |v.threads| && RunStep(woken, t, true).Some?
  {
    ParkedWaiterIsInstalled(w, schedule, t);
  }

  /** A Timer that has completed and delivered its wakes leaves no timed thread parked. */
  lemma CompletedTimerUnparks<S, R>(w: World<S, R>, schedule: seq<Event>, t: nat)
    requires Initial(w) && Exec(w, schedule).Some? && t < |Exec(w, schedule).value.threads|
    requires var v := Exec(w, schedule).value;
      && v.threads[t].phase.Parked? && v.threads[t].calls != [] && Timed(v.threads[t].calls[0])
      && v.threads[t].phase.id !in v.waking
      && !(v.threads[t].timer.Timer? && v.threads[t].timer.status.Armed?)
    ensures RunStep(Exec(w, schedule).value, t, true).Some?
  {
    ParkedWaiterIsInstalled(w, schedule, t);
  }

  /** Time alone unparks a timed wait: once its deadline has come, its Timer can complete and wake it. */
  lemma TimeUnparks<S, R>(w: World<S, R>, schedule: seq<Event>, t: nat)
    requires Initial(w) && Exec(w, schedule).Some? && t < |Exec(w, schedule).value.threads|
    requires var th := Exec(w, schedule).value.threads[t];
      th.phase.Parked? && th.calls != [] && Timed(th.calls[0]) && th.timer.Timer? && th.timer.status.Armed?
    ensures var v := Exec(w, schedule).value;
      var d, id := v.threads[t].timer.deadline, v.threads[t].phase.id;
      && Step(v, Tick(if d > v.clock then d - v.clock else 0)).Some?
      && var due := Step(v, Tick(if d > v.clock then d - v.clock else 0)).value;
      && due.clock >= d && Step(due, Fire(t, true)).Some?
      && var fired := Step(due, Fire(t, true)).value;
      && Step(fired, Wake(id)).Some?
      && var woken := Step(fired, Wake(id)).value;
      && |woken.threads| == |v.threads| && RunStep(woken, t, true).Some?
  {
    hide Inv, Exec;
    ParkedWaiterIsInstalled(w, schedule, t);
  }

  /** The program points that a timed call reaches only after a poll, in the same step, that found its Timer pending. */
  predicate NeedsPending(p: Phase, q: Phase, kind: Kind) {
    || (kind.Blocking? && (q.Registering? || q.Releasing?))
    || (kind.Tokio? && p.Polling? && (q.Parked? || (q.Dropping? && q.status.Signal?)))
    || q == Checking(false, false)
  }

  /**
    No wait on a Timer that has completed. A timed blocking call registers, and then lets go of the lock, only if a
    poll has just found its TimerFuture pending; an asynchronous one stays suspended, or counts as notified, only then;
    and after reacquiring the lock both recheck without expiring only then.
   */
  lemma OnlyPendingWaits<S, R>(w: World<S, R>, schedule: seq<Event>, t: nat, accepted: bool)
    requires Initial(w) && Exec(w, schedule).Some? && t < |Exec(w, schedule).value.threads|
    requires RunStep(Exec(w, schedule).value, t, accepted).Some?
    requires var th := Exec(w, schedule).value.threads[t]; th.calls != [] && Timed(th.calls[0])
    ensures var u := Exec(w, schedule).value;
      var v := RunStep(u, t, accepted).value;
      |v.threads| == |u.threads| && PendingOnly(u, v, t)
  {
    hide Exec;
    ReachableInv(w, schedule);
    PreparedThread(Exec(w, schedule).value, t);
    PendingStep(Exec(w, schedule).value, t, accepted);
  }

  /** What `OnlyPendingWaits` says of one step. */
  ghost predicate PendingOnly<S, R>(u: World<S, R>, v: World<S, R>, t: nat)
    requires t < |u.threads| == |v.threads| && u.threads[t].calls != []
  {
    var p := u.threads[t].phase;
    NeedsPending(p, v.threads[t].phase, u.threads[t].calls[0].kind) ==>
      && Polls(u.threads[t]) && PollAnswer(u.threads[t].timer) == None && v.threads[t].timer.Timer?
      && (p.WaiterPoll? || p.Polling? ==> v.threads[t].timer.waker == Entry(p))
  }

  lemma PendingStep<S, R>(u: World<S, R>, t: nat, accepted: bool)
    requires Prepared(u, t) && RunStep(u, t, accepted).Some?
    requires u.threads[t].calls != [] && Timed(u.threads[t].calls[0])
    ensures |RunStep(u, t, accepted).value.threads| == |u.threads|
    ensures PendingOnly(u, RunStep(u, t, accepted).value, t)
  {
    RunIsGood(u, t, accepted);
    var p := u.threads[t].phase;
    if p.Checking? || p.Arming? || p.PrePoll? {
      PendingBefore(u, t, accepted);
    } else if Polls(u.threads[t]) {
      PendingPoll(u, t, accepted);
    }
  }

  lemma PendingBefore<S, R>(u: World<S, R>, t: nat, accepted: bool)
    requires Prepared(u, t) && RunStep(u, t, accepted).Some? && |RunStep(u, t, accepted).value.threads| == |u.threads|
    requires u.threads[t].calls != [] && Timed(u.threads[t].calls[0])
    requires var p := u.threads[t].phase; p.Checking? || p.Arming? || p.PrePoll?
    ensures PendingOnly(u, RunStep(u, t, accepted).value, t)
  {
  }

  lemma PendingPoll<S, R>(u: World<S, R>, t: nat, accepted: bool)
    requires Prepared(u, t) && RunStep(u, t, accepted).Some? && |RunStep(u, t, accepted).value.threads| == |u.threads|
    requires u.threads[t].calls != [] && Polls(u.threads[t]) && !u.threads[t].phase.PrePoll?
    ensures PendingOnly(u, RunStep(u, t, accepted).value, t)
  {
  }
}
