/**
  What the outcome of a call means. The four timed loops (blocking and Tokio, relative and absolute) poll their
  TimerFuture at different points; all of them decide by the same table, and refine one abstract timed wait.
 */
module Outcomes {
  import opened Basics
  import opened Protocol
  import opened Invariants
  import opened Sums

  /** The Timer is asked to register the deadline of the call: the budget is neither zero nor out of range. */
  predicate Registers<S, R>(w: World<S, R>, th: Thread<S, R>)
    requires th.calls != []
  {
    && th.phase.Arming?
    && match th.calls[0].timing
       case Relative(timeout) => timeout > 0 && th.started + timeout <= w.horizon
       case Absolute(_) => true
       case _ => false
  }

  /** Exactly why event `e` may end the call of thread `t` with outcome `o` in world `w`. */
  ghost predicate Because<S, R>(w: World<S, R>, e: Event, t: nat, o: Outcome<R>)
    requires t < |w.threads| && w.threads[t].calls != []
  {
    var a := w.threads[t];
    var p, timing, answer := a.phase, a.calls[0].timing, PollAnswer(a.timer);
    match o
    case Ready(r) => Acts(w, t) && r == a.calls[0].action(w.data).1
    case TimedOut =>
      || (p == Checking(p.Checking? && p.first, true) && a.calls[0].waiting(w.data))
      || (p.Arming? && timing == Relative(0))
      || (p.PrePoll? && answer == Some(true))
    case TimerError =>
      || (Registers(w, a) && e == Run(t, false))
      || ((p.PrePoll? || p.LoopPoll? || (p.FinalPoll? && p.status.Signal?)) && answer == Some(false))
      || (p.Abandoning? && !p.ok)
      || (p.FinalPoll? && p.status.Broken?)
    case Overflow =>
      || (p.Arming? && timing.Relative? && a.started + timing.timeout > w.horizon)
      || (p.Idle? && timing.Total? && w.clock + timing.budget > w.horizon)
    case Exhausted => p.Registering? && w.next >= MAX_ID
    case Cancelled => Suspended(a) && e == Cancel(t)
  }

  /** The outcome of the call is decided; what is left is to release the lock and to notify. */
  predicate Decided(p: Phase) {
    p.Leaving? || p.Taking? || p.Signalling?
  }

  /** A step decides at most one outcome, for a cause in the table; no call returns without exactly one. */
  ghost predicate Decides<S, R>(w: World<S, R>, e: Event, v: World<S, R>, t: nat) {
    && t < |w.threads| == |v.threads|
    && var a, b := w.threads[t], v.threads[t];
    if b.outcomes == a.outcomes then
      && (Decided(b.phase) ==> Decided(a.phase))
      && (b.phase.Idle? ==> Decided(a.phase) || a.phase.Idle?)
    else
      && a.calls != [] && !Decided(a.phase)
      && |b.outcomes| == |a.outcomes| + 1 && b.outcomes[..|a.outcomes|] == a.outcomes
      && Because(w, e, t, b.outcomes[|a.outcomes|])
      && (b.phase.Leaving? || b.phase.Idle?)
  }

  lemma DecidesChecking<S, R>(w: World<S, R>, e: Event, t: nat)
    requires Prepared(w, t) && w.threads[t].phase.Checking?
    ensures Decides(w, e, RunChecking(w, t), t)
  {
  }

  lemma DecidesArming<S, R>(w: World<S, R>, t: nat, accepted: bool)
    requires Prepared(w, t) && w.threads[t].phase.Arming?
    ensures Decides(w, Run(t, accepted), RunArming(w, t, accepted), t)
  {
  }

  lemma DecidesPrePoll<S, R>(w: World<S, R>, e: Event, t: nat)
    requires Prepared(w, t) && w.threads[t].phase.PrePoll?
    ensures Decides(w, e, RunPrePoll(w, t), t)
  {
  }

  lemma DecidesInLoop<S, R>(w: World<S, R>, e: Event, t: nat, waker: Option<nat>, pending: Phase)
    requires Prepared(w, t) && (pending.Registering? || pending.Checking?)
    requires var p := w.threads[t].phase; p.LoopPoll? || (p.FinalPoll? && p.status.Signal?)
    ensures Decides(w, e, PollInLoop(w, t, waker, pending), t)
  {
  }

  lemma DecidesIdle<S, R>(w: World<S, R>, e: Event, t: nat)
    requires Prepared(w, t) && w.threads[t].phase.Idle? && RunIdle(w, t).Some?
    ensures Decides(w, e, RunIdle(w, t).value, t)
  {
  }

  /** The program points inside a call without a predicate or a poll in the loop. */
  lemma DecidesElsewhere<S, R>(w: World<S, R>, t: nat, accepted: bool)
    requires Prepared(w, t) && RunStep(w, t, accepted).Some?
    requires var p := w.threads[t].phase;
      !p.Idle? && !p.Checking? && !p.Arming? && !p.PrePoll? && !p.LoopPoll? && !p.FinalPoll?
    ensures Decides(w, Run(t, accepted), RunStep(w, t, accepted).value, t)
  {
  }

  lemma RunDecides<S, R>(w: World<S, R>, t: nat, accepted: bool)
    requires Prepared(w, t) && RunStep(w, t, accepted).Some?
    ensures Decides(w, Run(t, accepted), RunStep(w, t, accepted).value, t)
  {
    var e := Run(t, accepted);
    match w.threads[t].phase
    case Idle => DecidesIdle(w, e, t);
    case Checking(_, _) => DecidesChecking(w, e, t);
    case Arming => DecidesArming(w, t, accepted);
    case PrePoll => DecidesPrePoll(w, e, t);
    case LoopPoll => DecidesInLoop(w, e, t, None, Registering);
    case FinalPoll(id, status) =>
      if status.Signal? { DecidesInLoop(w, e, t, Some(id), Checking(false, false)); }
    case _ => DecidesElsewhere(w, t, accepted);
  }

  /** Every step of a run decides by the table. */
  lemma StepDecides<S, R>(w: World<S, R>, e: Event)
    requires Inv(w) && Step(w, e).Some?
    ensures Mover(e).Some? ==> Decides(w, e, Step(w, e).value, Mover(e).value)
  {
    match e
    case Run(t, accepted) => PreparedThread(w, t); RunDecides(w, t, accepted);
    case _ =>
  }

  // ---- The abstract wait ------------------------------------------------------------------------------

  /** The instant from which a call may report that its budget is spent. */
  function Bound<S, R>(th: Thread<S, R>): Option<nat>
    requires th.calls != []
  {
    match th.calls[0].timing
    case Untimed => None
    case Relative(timeout) => Some(th.started + timeout)
    case Absolute(deadline) => Some(deadline)
    case Total(_) => None
  }

  /** The Timer has refused to register the call, or the call's TimerFuture has completed with an error. */
  predicate TimerFailed<S, R>(w: World<S, R>, t: nat, e: Event)
    requires t < |w.threads| && w.threads[t].calls != []
  {
    var th := w.threads[t];
    || (Registers(w, th) && e == Run(t, false))
    || (th.timer.Timer? && (th.timer.status == Fired(false) || th.timer.status == Spent(false)))
  }

  /** The budget was zero, or the call's TimerFuture has completed successfully. */
  predicate TimerElapsed<S, R>(th: Thread<S, R>)
    requires th.calls != []
  {
    || th.calls[0].timing == Relative(0)
    || (th.timer.Timer? && (th.timer.status == Fired(true) || th.timer.status == Spent(true)))
  }

  /**
    The abstract wait that all loops refine: in one atomic step it either runs the action on data that does not
    block, or gives up on data that blocks once its budget is spent, or reports a Timer that has failed, or fails
    otherwise without touching data; all but overflow of a total budget and cancellation happen under the lock.
   */
  ghost predicate AbstractDecision<S, R>(w: World<S, R>, e: Event, v: World<S, R>, t: nat, o: Outcome<R>)
    requires t < |w.threads| && w.threads[t].calls != []
  {
    var th := w.threads[t];
    var c := th.calls[0];
    match o
    case Ready(r) => w.owner == Some(t) && !c.waiting(w.data) && c.action(w.data) == (v.data, r) && v.log == w.log + [r]
    case TimedOut =>
      && w.owner == Some(t) && c.waiting(w.data) && v.data == w.data && v.log == w.log
      && Due(th, w.clock) && TimerElapsed(th)
    case TimerError =>
      Timed(c) && w.owner == Some(t) && v.data == w.data && v.log == w.log && TimerFailed(w, t, e)
    case Overflow =>
      && v.data == w.data && v.log == w.log
      && (|| (c.timing.Relative? && w.owner == Some(t) && c.waiting(w.data)
              && th.started + c.timing.timeout > w.horizon)
          || (c.timing.Total? && w.owner != Some(t) && w.clock + c.timing.budget > w.horizon))
    case Exhausted => w.owner == Some(t) && c.waiting(w.data) && v.data == w.data && v.log == w.log && w.next >= MAX_ID
    case Cancelled => c.kind.Tokio? && e == Cancel(t) && w.owner != Some(t) && v.data == w.data && v.log == w.log
  }

  /** The budget of a call is spent. */
  predicate Due<S, R>(th: Thread<S, R>, clock: nat)
    requires th.calls != []
  {
    Bound(th).Some? && Bound(th).value <= clock
  }

  /** A poll has read an error out of the TimerFuture. */
  predicate BrokenTimer(timer: Timer) {
    timer.Timer? && timer.status == Spent(false)
  }

  /** The new outcome of thread `t` in a step from `w` to `v`, if there is one. */
  function NewOutcome<S, R>(w: World<S, R>, v: World<S, R>, t: nat): Option<Outcome<R>> {
    if t < |w.threads| == |v.threads| && |v.threads[t].outcomes| > |w.threads[t].outcomes| then
      Some(v.threads[t].outcomes[|w.threads[t].outcomes|])
    else None
  }

  lemma MoverRefines<S, R>(w: World<S, R>, e: Event, v: World<S, R>, t: nat)
    requires Prepared(w, t) && Good(w, v, t) && Decides(w, e, v, t)
    ensures match NewOutcome(w, v, t)
      case Some(o) => w.threads[t].calls != [] && AbstractDecision(w, e, v, t, o)
      case None => v.data == w.data && v.log == w.log
  {
  }

  /** One step: every new outcome is an abstract decision, and without one neither data nor log moves. */
  lemma StepRefines<S, R>(w: World<S, R>, e: Event, t: nat)
    requires Inv(w) && Step(w, e).Some? && t < |w.threads|
    ensures var v := Step(w, e).value;
      match NewOutcome(w, v, t)
      case Some(o) => Mover(e) == Some(t) && w.threads[t].calls != [] && AbstractDecision(w, e, v, t, o)
      case None => Mover(e) == Some(t) ==> v.data == w.data && v.log == w.log
  {
    var v := Step(w, e).value;
    StepIsGood(w, e);
    StepDecides(w, e);
    PreparedThread(w, t);
    if Mover(e) == Some(t) { MoverRefines(w, e, v, t); }
    if Mover(e).None? { assert AmbientThread(w, v, t); }
  }

  /** The loops of both monitors, for every schedule: each outcome ever recorded was an abstract decision. */
  lemma TimedWaitsRefine<S, R>(w: World<S, R>, schedule: seq<Event>, e: Event, t: nat)
    requires Initial(w) && Exec(w, schedule).Some? && Step(Exec(w, schedule).value, e).Some?
    requires t < |Exec(w, schedule).value.threads|
    ensures var u := Exec(w, schedule).value;
      var v := Step(u, e).value;
      match NewOutcome(u, v, t)
      case Some(o) => Mover(e) == Some(t) && u.threads[t].calls != [] && AbstractDecision(u, e, v, t, o)
      case None => Mover(e) == Some(t) ==> v.data == u.data && v.log == u.log
  {
    ReachableInv(w, schedule);
    StepRefines(Exec(w, schedule).value, e, t);
  }

  /** The check that follows an observed deadline ends the call one way or the other, without registering. */
  lemma ExpiredCheckEnds<S, R>(w: World<S, R>, t: nat, accepted: bool)
    requires Inv(w) && t < |w.threads| && w.threads[t].phase.Checking? && w.threads[t].phase.expired
    ensures RunStep(w, t, accepted).Some?
    ensures var v := RunStep(w, t, accepted).value;
      && |v.threads| == |w.threads| && v.queue == w.queue && v.threads[t].phase.Leaving?
      && NewOutcome(w, v, t).Some?
      && (NewOutcome(w, v, t).value.Ready? <==> !w.threads[t].calls[0].waiting(w.data))
      && (NewOutcome(w, v, t).value.TimedOut? <==> w.threads[t].calls[0].waiting(w.data))
  {
    assert ShapeOk(w.threads[t]);
  }

  // ---- One outcome per call, one action per Ready ------------------------------------------------------

  /** Calls of a thread that have an outcome or are still to have one. */
  function Accounts<S, R>(th: Thread<S, R>): int {
    |th.outcomes| + |th.calls| - if Decided(th.phase) then 1 else 0
  }

  ghost predicate SameAccounts<S, R>(w: World<S, R>, v: World<S, R>) {
    |w.threads| == |v.threads| && forall t :: 0 <= t < |w.threads| ==> Accounts(v.threads[t]) == Accounts(w.threads[t])
  }

  lemma StepKeepsAccounts<S, R>(w: World<S, R>, e: Event)
    requires Inv(w) && Step(w, e).Some?
    ensures SameAccounts(w, Step(w, e).value)
  {
    var v := Step(w, e).value;
    StepIsGood(w, e);
    StepDecides(w, e);
    forall t | 0 <= t < |w.threads|
      ensures Accounts(v.threads[t]) == Accounts(w.threads[t])
    {
      assert ShapeOk(w.threads[t]);
      if Mover(e).None? { assert AmbientThread(w, v, t); }
    }
  }

  function ReadyCount<R>(outcomes: seq<Outcome<R>>): nat {
    if outcomes == [] then 0
    else ReadyCount(outcomes[..|outcomes| - 1]) + if outcomes[|outcomes| - 1].Ready? then 1 else 0
  }

  ghost function ReadyCounts<S, R>(w: World<S, R>): seq<nat> {
    seq(|w.threads|, t requires 0 <= t < |w.threads| => ReadyCount(w.threads[t].outcomes))
  }

  lemma MoverReady<S, R>(w: World<S, R>, e: Event, v: World<S, R>, t: nat)
    requires Good(w, v, t) && Decides(w, e, v, t)
    ensures ReadyCount(v.threads[t].outcomes) - ReadyCount(w.threads[t].outcomes) == |v.log| - |w.log|
  {
    var a, b := w.threads[t].outcomes, v.threads[t].outcomes;
    if b != a {
      assert b[..|b| - 1] == a;
    }
  }

  lemma MoveKeepsReady<S, R>(w: World<S, R>, e: Event, v: World<S, R>, t: nat)
    requires Good(w, v, t) && Decides(w, e, v, t) && Sum(ReadyCounts(w)) == |w.log|
    ensures Sum(ReadyCounts(v)) == |v.log|
  {
    var n := ReadyCount(v.threads[t].outcomes);
    SumUpdate(ReadyCounts(w), t, n);
    assert ReadyCounts(v) == ReadyCounts(w)[t := n];
    MoverReady(w, e, v, t);
  }

  lemma StepKeepsReady<S, R>(w: World<S, R>, e: Event)
    requires Inv(w) && Step(w, e).Some? && Sum(ReadyCounts(w)) == |w.log|
    ensures var v := Step(w, e).value; Sum(ReadyCounts(v)) == |v.log|
  {
    var v := Step(w, e).value;
    StepIsGood(w, e);
    StepDecides(w, e);
    if Mover(e).Some? {
      MoveKeepsReady(w, e, v, Mover(e).value);
    } else {
      assert forall t :: 0 <= t < |w.threads| ==> AmbientThread(w, v, t);
      assert ReadyCounts(v) == ReadyCounts(w);
    }
  }

  /**
    Conservation over whole runs: every call of every thread ends with exactly one outcome, and exactly the calls
    that end `Ready` have run their action.
   */
  lemma {:induction false} OutcomesAreConserved<S, R>(w: World<S, R>, schedule: seq<Event>)
    requires Initial(w) && Exec(w, schedule).Some?
    ensures var v := Exec(w, schedule).value;
      SameAccounts(w, v) && Sum(ReadyCounts(v)) == |v.log|
    decreases |schedule|
  {
    ReachableInv(w, schedule);
    if schedule == [] {
      assert forall t :: 0 <= t < |w.threads| ==> Fresh(w.threads[t]);
      SumZero(ReadyCounts(w));
    } else {
      var k := |schedule| - 1;
      OutcomesAreConserved(w, schedule[..k]);
      ReachableInv(w, schedule[..k]);
      StepKeepsAccounts(Exec(w, schedule[..k]).value, schedule[k]);
      StepKeepsReady(Exec(w, schedule[..k]).value, schedule[k]);
    }
  }
}
