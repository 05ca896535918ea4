/**
  What `notify_one` guarantees one-permit consumers: producers add one permit and notify one waiter, consumers wait
  while there is none and take one. Consumers are blocking or asynchronous, with or without a deadline; Timers may fail
  and futures may be dropped. A permit can be stranded beside a parked consumer only by a consumer that was selected
  for it and then left without looking, and at most one permit by each.
 */
module Permits {
  import opened Basics
  import opened Protocol
  import opened Invariants
  import opened Wakeup
  import opened Outcomes
  import opened Sums

  // ---- The clients ------------------------------------------------------------------------------------

  ghost predicate Producer<R>(c: Call<nat, R>) {
    forall n: nat :: !c.waiting(n) && c.action(n).0 == n + 1 && c.note(c.action(n).1) == One
  }

  ghost predicate Consumer<R>(c: Call<nat, R>) {
    && (forall n: nat :: c.waiting(n) <==> n == 0)
    && (forall n: nat :: n > 0 ==> c.action(n).0 == n - 1 && c.note(c.action(n).1) == Silent)
  }

  ghost predicate PermitCalls<R>(w: World<nat, R>) {
    forall t, i :: 0 <= t < |w.threads| && 0 <= i < |w.threads[t].calls| ==> PermitCall(w.threads[t].calls[i])
  }

  ghost predicate PermitCall<R>(c: Call<nat, R>) {
    Producer(c) || Consumer(c)
  }

  /** Phases that only a consumer reaches: its predicate has blocked once. */
  predicate HasWaited(p: Phase) {
    AboutToPark(p) || Entry(p).Some? || p.Relocking? || p.FinalPoll? || (p.Checking? && !p.first)
  }

  ghost predicate ConsumersWait<R>(w: World<nat, R>) {
    forall t :: 0 <= t < |w.threads| ==> ConsumerWaits(w, t)
  }

  ghost predicate ConsumerWaits<R>(w: World<nat, R>, t: nat)
    requires t < |w.threads|
  {
    HasWaited(w.threads[t].phase) ==> w.threads[t].calls != [] && Consumer(w.threads[t].calls[0])
  }

  // ---- The balance ------------------------------------------------------------------------------------

  /** A notifier has taken the registration `id`. */
  ghost predicate Selected<R>(w: World<nat, R>, id: nat) {
    id in w.signalled || InFlight(w, id)
  }

  /**
    Credit of a thread: one if it owes a `notify_one`, if it has been selected and will look before it can park again,
    or if it is about to look again.
   */
  ghost function Credit<R>(w: World<nat, R>, t: nat): nat
    requires t < |w.threads|
  {
    var p := w.threads[t].phase;
    if Entry(p).Some? then (if Entry(p).value in w.queue then 0 else 1)
    else if p.Relocking? || p.FinalPoll? then (if Selected(w, p.id) then 1 else 0)
    else if (p.Checking? && !p.first) || p == Leaving(One) || p == Taking(One) then 1
    else 0
  }

  ghost function Credits<R>(w: World<nat, R>): seq<nat> {
    seq(|w.threads|, t requires 0 <= t < |w.threads| => Credit(w, t))
  }

  /** A selected consumer leaves without looking, because its future is dropped or its Timer fails: a permit is lost. */
  ghost predicate Loses<R>(w: World<nat, R>, e: Event) {
    && Mover(e).Some? && Mover(e).value < |w.threads| && Step(w, e).Some?
    && Credit(w, Mover(e).value) == 1 && w.data > 0
    && var o := NewOutcome(w, Step(w, e).value, Mover(e).value);
    o == Some(Cancelled) || o == Some(TimerError)
  }

  ghost function Losses<R>(w: World<nat, R>, schedule: seq<Event>): nat
    decreases |schedule|
  {
    if schedule == [] then 0
    else
      var k := |schedule| - 1;
      var before := Exec(w, schedule[..k]);
      Losses(w, schedule[..k]) + if before.Some? && Loses(before.value, schedule[k]) then 1 else 0
  }

  /** While anybody is registered, the permits do not outnumber the credits and the losses. */
  ghost predicate Balanced<R>(w: World<nat, R>, losses: nat) {
    w.queue != [] ==> w.data <= Sum(Credits(w)) + losses
  }

  ghost predicate PermitInv<R>(w: World<nat, R>, losses: nat) {
    Inv(w) && PermitCalls(w) && ConsumersWait(w) && Balanced(w, losses)
  }

  lemma GoodKeepsCalls<R>(w: World<nat, R>, v: World<nat, R>, t: nat)
    requires Inv(w) && PermitCalls(w) && ConsumersWait(w) && Good(w, v, t)
    ensures PermitCalls(v) && ConsumersWait(v)
  {
    forall u, i | 0 <= u < |v.threads| && 0 <= i < |v.threads[u].calls|
      ensures PermitCall(v.threads[u].calls[i])
    {
      var k := CallBefore(w.threads[u], v.threads[u], w.clock, w.horizon, i);
      assert PermitCall(w.threads[u].calls[k]);
    }
    forall u | 0 <= u < |v.threads|
      ensures ConsumerWaits(v, u)
    {
      assert ConsumerWaits(w, u) && ConsumerWaits(w, t) && ShapeOk(w.threads[t]);
      if w.threads[t].calls != [] { assert PermitCall(w.threads[t].calls[0]); }
    }
  }

  /** A selection is never undone. */
  lemma SelectedStays<R>(w: World<nat, R>, v: World<nat, R>, t: nat, x: nat)
    requires Inv(w) && Moved(w, v, t) && Selected(w, x)
    ensures Selected(v, x)
  {
    PoppedAfter(w, v, t);
    if x !in w.signalled {
      var u :| 0 <= u < |w.threads| && Carries(w, u, x);
      if u != t { assert Carries(v, u, x); }
    }
  }

  /** A thread that has dropped its registration keeps the credit of its selection. */
  lemma DroppedCredit<R>(w: World<nat, R>, v: World<nat, R>, t: nat)
    requires Inv(w) && Good(w, v, t) && (w.threads[t].phase.Dropping? || w.threads[t].phase.Relocking?)
    requires v.threads[t].phase.Relocking? || v.threads[t].phase.FinalPoll?
    ensures Credit(w, t) <= Credit(v, t)
  {
    var id := w.threads[t].phase.id;
    if w.threads[t].phase.Dropping? && id !in w.queue { assert Accounted(w, id); }
    if Selected(w, id) { SelectedStays(w, v, t, id); }
  }

  /** A check that finds a permit takes it; one that finds none leaves none behind. */
  lemma RecheckCredit<R>(w: World<nat, R>, v: World<nat, R>, t: nat)
    requires Inv(w) && PermitCalls(w) && ConsumersWait(w) && Good(w, v, t) && ConsumersWait(v)
    requires w.threads[t].phase.Checking?
    ensures v.data == 0 || v.data + Credit(w, t) <= w.data + Credit(v, t)
  {
    assert ConsumerWaits(w, t) && ConsumerWaits(v, t) && ShapeOk(w.threads[t]);
    assert PermitCall(w.threads[t].calls[0]) && CheckOk(v, t);
  }

  /** A call that ends without looking again loses at most its own credit, and says so. */
  lemma LeaverCredit<R>(w: World<nat, R>, e: Event, v: World<nat, R>, t: nat)
    requires Inv(w) && ConsumersWait(w) && Step(w, e) == Some(v) && Mover(e) == Some(t)
    requires Good(w, v, t) && Decides(w, e, v, t)
    requires !w.threads[t].phase.Checking? && w.threads[t].outcomes != v.threads[t].outcomes
    ensures v.data == 0 || v.data + Credit(w, t) <= w.data + Credit(v, t) + if Loses(w, e) then 1 else 0
  {
    hide Step;
    assert ConsumerWaits(w, t) && CheckOk(w, t) && ShapeOk(w.threads[t]);
  }

  /** Between its checks a thread keeps its credit until it has used it. */
  lemma WaiterCredit<R>(w: World<nat, R>, e: Event, v: World<nat, R>, t: nat)
    requires Inv(w) && Good(w, v, t) && Decides(w, e, v, t) && w.threads[t].phase != Taking(One)
    requires !w.threads[t].phase.Checking? && w.threads[t].outcomes == v.threads[t].outcomes
    ensures v.data == w.data && Credit(w, t) <= Credit(v, t)
  {
    var p, q := w.threads[t].phase, v.threads[t].phase;
    assert ShapeOk(w.threads[t]);
    QueueAfter(w, v, t);
    if (p.Dropping? || p.Relocking?) && (q.Relocking? || q.FinalPoll?) {
      DroppedCredit(w, v, t);
    }
  }

  /** The moving thread: what it takes out of the permits, or stops owing, is covered or lost. */
  lemma MoverCredit<R>(w: World<nat, R>, e: Event, v: World<nat, R>, t: nat)
    requires Inv(w) && PermitCalls(w) && ConsumersWait(w) && Step(w, e) == Some(v) && Mover(e) == Some(t)
    requires Good(w, v, t) && Decides(w, e, v, t) && ConsumersWait(v) && w.threads[t].phase != Taking(One)
    ensures v.data == 0 || v.data + Credit(w, t) <= w.data + Credit(v, t) + if Loses(w, e) then 1 else 0
  {
    hide Step, Inv, Decides, Loses;
    if w.threads[t].phase.Checking? {
      RecheckCredit(w, v, t);
    } else if w.threads[t].outcomes != v.threads[t].outcomes {
      LeaverCredit(w, e, v, t);
    } else {
      WaiterCredit(w, e, v, t);
    }
  }

  /** Every other thread keeps its credit: a registration that stays was there before. */
  lemma OtherCredit<R>(w: World<nat, R>, v: World<nat, R>, t: nat, u: nat)
    requires Inv(w) && Good(w, v, t) && u < |v.threads| && u != t
    ensures Credit(w, u) <= Credit(v, u)
  {
    QueueAfter(w, v, t);
    assert IdOk(w, u);
    var p := w.threads[u].phase;
    if (p.Relocking? || p.FinalPoll?) && Selected(w, p.id) { SelectedStays(w, v, t, p.id); }
  }

  lemma GoodKeepsBalance<R>(w: World<nat, R>, e: Event, v: World<nat, R>, t: nat, losses: nat)
    requires PermitInv(w, losses) && Step(w, e) == Some(v) && Mover(e) == Some(t)
    requires Good(w, v, t) && Decides(w, e, v, t) && ConsumersWait(v)
    ensures Balanced(v, losses + if Loses(w, e) then 1 else 0)
  {
    hide Step;
    if v.queue != [] {
      CreditsAfter(w, v, t);
      if w.threads[t].phase != Taking(One) {
        MoverCredit(w, e, v, t);
        if w.queue == [] { NewcomerFindsNone(w, v, t); }
      }
    }
  }

  /** The first registration is made under a lock hold that saw no permit. */
  lemma NewcomerFindsNone<R>(w: World<nat, R>, v: World<nat, R>, t: nat)
    requires Inv(w) && ConsumersWait(w) && Good(w, v, t) && w.queue == [] && v.queue != []
    ensures v.data == 0
  {
    assert CheckOk(w, t) && ConsumerWaits(w, t) && ShapeOk(w.threads[t]);
  }

  lemma OthersCredit<R>(w: World<nat, R>, v: World<nat, R>, t: nat)
    requires Inv(w) && Good(w, v, t)
    ensures |v.threads| == |w.threads|
    ensures forall u :: 0 <= u < |v.threads| && u != t ==> Credits(w)[u] <= Credits(v)[u]
  {
    forall u | 0 <= u < |v.threads| && u != t
      ensures Credits(w)[u] <= Credits(v)[u]
    {
      OtherCredit(w, v, t, u);
    }
  }

  /** `notify_one` passes its credit on to the owner of the registration it takes. */
  lemma TakenOwner<R>(w: World<nat, R>, v: World<nat, R>, t: nat) returns (u: nat)
    requires Inv(w) && Good(w, v, t) && w.threads[t].phase == Taking(One) && v.queue != []
    ensures u < |w.threads| && u != t
    ensures Credit(w, u) == 0 && Credit(v, u) == 1
    ensures w.data == v.data && Credit(w, t) == 1
  {
    var x := w.queue[0];
    assert HasOwner(w, x);
    u :| 0 <= u < |w.threads| && Owns(w, u, x);
    assert x !in w.queue[1..];
  }

  /** `notify_one` loses no credit. */
  lemma TakingCredits<R>(w: World<nat, R>, v: World<nat, R>, t: nat)
    requires Inv(w) && Good(w, v, t) && v.queue != [] && w.threads[t].phase == Taking(One)
    ensures Sum(Credits(w)) <= Sum(Credits(v)) && v.data == w.data
  {
    OthersCredit(w, v, t);
    var u := TakenOwner(w, v, t);
    hide Good, Inv, Credit;
    var base := Credits(w)[t := Credit(v, t)];
    SumUpdate(Credits(w), t, Credit(v, t));
    SumUpdate(base, u, 1);
    SumLe(base[u := 1], Credits(v));
  }

  /** The credits change by what the moving thread gains; `notify_one` loses none. */
  lemma CreditsAfter<R>(w: World<nat, R>, v: World<nat, R>, t: nat)
    requires Inv(w) && Good(w, v, t) && v.queue != []
    ensures if w.threads[t].phase == Taking(One) then Sum(Credits(w)) <= Sum(Credits(v)) && v.data == w.data
            else Sum(Credits(w)) + Credit(v, t) <= Sum(Credits(v)) + Credit(w, t)
  {
    if w.threads[t].phase == Taking(One) {
      TakingCredits(w, v, t);
    } else {
      OthersCredit(w, v, t);
      hide Good, Inv, Credit;
      SumUpdate(Credits(w), t, Credit(v, t));
      SumLe(Credits(w)[t := Credit(v, t)], Credits(v));
    }
  }

  lemma AmbientKeepsPermits<R>(w: World<nat, R>, v: World<nat, R>, losses: nat)
    requires PermitInv(w, losses) && Ambient(w, v)
    ensures PermitInv(v, losses)
  {
    AmbientKeepsInv(w, v);
    forall t | 0 <= t < |v.threads|
      ensures ConsumerWaits(v, t) && v.threads[t].calls == w.threads[t].calls
      ensures Credit(v, t) == Credit(w, t)
    {
      assert AmbientThread(w, v, t) && ConsumerWaits(w, t);
      AmbientSelected(w, v, w.threads[t].phase);
    }
    assert Credits(v) == Credits(w);
  }

  lemma AmbientSelected<R>(w: World<nat, R>, v: World<nat, R>, p: Phase)
    requires Ambient(w, v)
    ensures p.Relocking? || p.FinalPoll? ==> (Selected(v, p.id) <==> Selected(w, p.id))
  {
    forall u, x | 0 <= u < |w.threads|
      ensures Carries(v, u, x) <==> Carries(w, u, x)
    {
      assert AmbientThread(w, v, u);
    }
  }

  lemma StepKeepsPermits<R>(w: World<nat, R>, e: Event, losses: nat)
    requires PermitInv(w, losses) && Step(w, e).Some?
    ensures PermitInv(Step(w, e).value, losses + if Loses(w, e) then 1 else 0)
  {
    hide Step, Inv;
    var v := Step(w, e).value;
    StepIsGood(w, e);
    StepDecides(w, e);
    StepKeepsInv(w, e);
    if Mover(e).Some? {
      GoodKeepsCalls(w, v, Mover(e).value);
      GoodKeepsBalance(w, e, v, Mover(e).value, losses);
    } else {
      AmbientKeepsPermits(w, v, losses);
    }
  }

  lemma {:induction false} ReachablePermits<R>(w: World<nat, R>, schedule: seq<Event>)
    requires Initial(w) && PermitCalls(w) && Exec(w, schedule).Some?
    ensures PermitInv(Exec(w, schedule).value, Losses(w, schedule))
    decreases |schedule|
  {
    if schedule == [] {
      InitialInv(w);
      assert forall t :: 0 <= t < |w.threads| ==> Fresh(w.threads[t]);
    } else {
      var k := |schedule| - 1;
      ReachablePermits(w, schedule[..k]);
      StepKeepsPermits(Exec(w, schedule[..k]).value, schedule[k], Losses(w, schedule[..k]));
    }
  }

  // ---- Theorems ---------------------------------------------------------------------------------------

  lemma QuiescentPermits<R>(w: World<nat, R>, losses: nat, t: nat)
    requires PermitInv(w, losses) && Quiescent(w) && t < |w.threads| && !Finished(w.threads[t])
    ensures w.threads[t].phase.Parked? && w.data <= losses
  {
    QuiescentShape(w);
    SumZero(Credits(w));
  }

  /**
    Stranded permits have been lost: when no thread can step, a thread that has not returned is parked, and the
    permits beside it are no more than the selected consumers that left without looking; although every producer woke
    at most one consumer, and whichever consumers timed out, failed or were dropped before they were selected.
   */
  lemma NotifyOneSuffices<R>(w: World<nat, R>, schedule: seq<Event>, t: nat)
    requires Initial(w) && PermitCalls(w) && Exec(w, schedule).Some?
    requires Quiescent(Exec(w, schedule).value) && t < |Exec(w, schedule).value.threads|
    requires !Finished(Exec(w, schedule).value.threads[t])
    ensures Exec(w, schedule).value.threads[t].phase.Parked?
    ensures var v: World<nat, R> := Exec(w, schedule).value; v.data <= Losses(w, schedule)
  {
    ReachablePermits(w, schedule);
    QuiescentPermits(Exec(w, schedule).value, Losses(w, schedule), t);
  }

  /** A consumer whose predicate blocks can come to wait in a way that lets it leave without looking. */
  predicate CanLose<R>(c: Call<nat, R>, clock: nat, horizon: nat) {
    match c.timing
    case Untimed => c.kind.Tokio?
    case Relative(timeout) => timeout > 0 && clock + timeout <= horizon
    case Absolute(_) => true
    case Total(budget) => clock + budget <= horizon
  }

  ghost predicate SafeCalls<R>(w: World<nat, R>, clock: nat) {
    forall t, i :: 0 <= t < |w.threads| && 0 <= i < |w.threads[t].calls|
      ==> !CanLose(w.threads[t].calls[i], clock, w.horizon)
  }

  /** Every relative budget that is running started at `clock` or later. */
  ghost predicate StartsOk<R>(w: World<nat, R>, clock: nat) {
    clock <= w.clock && forall t :: 0 <= t < |w.threads| ==> StartOk(w.threads[t], clock)
  }

  predicate StartOk<R>(th: Thread<nat, R>, clock: nat) {
    th.phase.Idle? || th.phase.Sampling? || th.calls == [] || !th.calls[0].timing.Relative? || th.started >= clock
  }

  lemma SafeStep<R>(w: World<nat, R>, e: Event, clock: nat)
    requires Inv(w) && SafeCalls(w, clock) && StartsOk(w, clock) && Step(w, e).Some?
    ensures !Loses(w, e)
  {
    hide Step;
    if Loses(w, e) {
      var t := Mover(e).value;
      assert w.threads[t].calls != [] ==> !CanLose(w.threads[t].calls[0], clock, w.horizon);
      assert ShapeOk(w.threads[t]) && TimerOk(w, w.threads[t]) && StartOk(w.threads[t], clock);
      StepDecides(w, e);
    }
  }

  lemma StepKeepsSafe<R>(w: World<nat, R>, e: Event, clock: nat)
    requires Inv(w) && SafeCalls(w, clock) && StartsOk(w, clock) && Step(w, e).Some?
    ensures SafeCalls(Step(w, e).value, clock) && StartsOk(Step(w, e).value, clock)
  {
    hide Step;
    var v := Step(w, e).value;
    StepIsGood(w, e);
    forall t, i | 0 <= t < |v.threads| && 0 <= i < |v.threads[t].calls|
      ensures !CanLose(v.threads[t].calls[i], clock, v.horizon)
    {
      if Mover(e).None? { assert AmbientThread(w, v, t); }
      var k := CallBefore(w.threads[t], v.threads[t], w.clock, w.horizon, i);
      assert !CanLose(w.threads[t].calls[k], clock, w.horizon);
    }
    forall t | 0 <= t < |v.threads|
      ensures StartOk(v.threads[t], clock)
    {
      assert StartOk(w.threads[t], clock);
      if Mover(e).None? { assert AmbientThread(w, v, t); }
    }
  }

  lemma {:induction false} SafeRun<R>(w: World<nat, R>, schedule: seq<Event>)
    requires Initial(w) && SafeCalls(w, w.clock) && Exec(w, schedule).Some?
    ensures Losses(w, schedule) == 0
    ensures SafeCalls(Exec(w, schedule).value, w.clock) && StartsOk(Exec(w, schedule).value, w.clock)
    decreases |schedule|
  {
    if schedule == [] {
      assert forall t :: 0 <= t < |w.threads| ==> Fresh(w.threads[t]);
    } else {
      var k := |schedule| - 1;
      SafeRun(w, schedule[..k]);
      ReachableInv(w, schedule[..k]);
      SafeStep(Exec(w, schedule[..k]).value, schedule[k], w.clock);
      StepKeepsSafe(Exec(w, schedule[..k]).value, schedule[k], w.clock);
    }
  }

  /**
    For clients whose calls cannot lose a permit, which their kinds and timings tell, nothing is ever stranded, under
    any schedule.
   */
  lemma SafeClientsStrandNothing<R>(w: World<nat, R>, schedule: seq<Event>, t: nat)
    requires Initial(w) && PermitCalls(w) && SafeCalls(w, w.clock) && Exec(w, schedule).Some?
    requires Quiescent(Exec(w, schedule).value) && t < |Exec(w, schedule).value.threads|
    requires !Finished(Exec(w, schedule).value.threads[t])
    ensures Exec(w, schedule).value.threads[t].phase.Parked? && Exec(w, schedule).value.data == 0
  {
    SafeRun(w, schedule);
    NotifyOneSuffices(w, schedule, t);
  }
}
