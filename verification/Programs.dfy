/** The outcomes of a thread belong to its calls one by one, and the results of all threads are what the log holds. */
module Programs {
  import opened Basics
  import opened Protocol
  import opened Invariants
  import opened Outcomes
  import opened Runs
  import opened Decisions
  import opened Sums

  // ---- Outcome number i is the outcome of call number i ------------------------------------------------

  /** `rest` are the last calls of `program`, in order. */
  ghost predicate Remaining<S, R>(program: seq<Call<S, R>>, rest: seq<Call<S, R>>, from: nat, to: nat) {
    |rest| <= |program| && forall j :: 0 <= j < |rest| ==> SameCall(rest[j], program[|program| - |rest| + j], from, to)
  }

  lemma StepRemains<S, R>(w: World<S, R>, e: Event, t: nat, program: seq<Call<S, R>>, from: nat)
    requires Inv(w) && Step(w, e).Some? && t < |w.threads| == |Step(w, e).value.threads|
    requires from <= w.clock && Remaining(program, w.threads[t].calls, from, w.clock)
    ensures Remaining(program, Step(w, e).value.threads[t].calls, from, Step(w, e).value.clock)
  {
    hide Step;
    var v := Step(w, e).value;
    StepIsGood(w, e);
    if Mover(e).None? { assert AmbientThread(w, v, t); }
    var a, b := w.threads[t].calls, v.threads[t].calls;
    forall j | 0 <= j < |b|
      ensures |b| <= |program| && SameCall(b[j], program[|program| - |b| + j], from, v.clock)
    {
      var k := |a| - |b| + j;
      assert SameCall(a[k], program[|program| - |a| + k], from, w.clock);
      if b != a && |b| == |a| && j > 0 { assert b[1..][j - 1] == a[1..][j - 1]; }
    }
  }

  lemma {:induction false} CallsRemain<S, R>(w: World<S, R>, schedule: seq<Event>, t: nat)
    requires Initial(w) && Exec(w, schedule).Some? && t < |w.threads|
    ensures |Exec(w, schedule).value.threads| == |w.threads| && w.clock <= Exec(w, schedule).value.clock
    ensures Remaining(w.threads[t].calls, Exec(w, schedule).value.threads[t].calls, w.clock,
                      Exec(w, schedule).value.clock)
    decreases |schedule|
  {
    hide Inv, Step;
    if schedule != [] {
      var k := |schedule| - 1;
      CallsRemain(w, schedule[..k], t);
      ReachableInv(w, schedule[..k]);
      StepGrows(Exec(w, schedule[..k]).value, schedule[k], t);
      StepRemains(Exec(w, schedule[..k]).value, schedule[k], t, w.threads[t].calls, w.clock);
    }
  }

  /** Event `k` decides outcome number `i` of thread `t`, and is a step of its call number `i`. */
  ghost predicate CallDecidedAt<S, R>(w: World<S, R>, schedule: seq<Event>, k: nat, t: nat, i: nat, o: Outcome<R>) {
    && DecidedAt(w, schedule, k, t, i, o) && t < |w.threads| && i < |w.threads[t].calls|
    && var u := Exec(w, schedule[..k]).value;
    SameCall(u.threads[t].calls[0], w.threads[t].calls[i], w.clock, u.clock)
  }

  lemma DecidedIsCall<S, R>(w: World<S, R>, schedule: seq<Event>, k: nat, t: nat, i: nat, o: Outcome<R>)
    requires Initial(w) && DecidedAt(w, schedule, k, t, i, o) && t < |w.threads|
    ensures CallDecidedAt(w, schedule, k, t, i, o)
  {
    hide Inv, Step, Exec, AbstractDecision;
    OutcomesAreConserved(w, schedule[..k]);
    CallsRemain(w, schedule[..k], t);
    FreshThread(w, t);
    var u := Exec(w, schedule[..k]).value;
    assert Accounts(u.threads[t]) == Accounts(w.threads[t]);
  }

  /** Every outcome of a thread was decided by a step of the call with the same number. */
  lemma OutcomeBelongsToCall<S, R>(w: World<S, R>, schedule: seq<Event>, t: nat, i: nat) returns (k: nat)
    requires Initial(w) && Exec(w, schedule).Some? && t < |w.threads| == |Exec(w, schedule).value.threads|
    requires i < |Exec(w, schedule).value.threads[t].outcomes|
    ensures CallDecidedAt(w, schedule, k, t, i, Exec(w, schedule).value.threads[t].outcomes[i])
  {
    hide Inv, Step;
    k := DecisionOf(w, schedule, t, i);
    DecidedIsCall(w, schedule, k, t, i, Exec(w, schedule).value.threads[t].outcomes[i]);
  }

  // ---- The log holds the results, each as often as it was returned -------------------------------------

  ghost function Times<R>(log: seq<R>, r: R): nat {
    if log == [] then 0 else Times(log[..|log| - 1], r) + if log[|log| - 1] == r then 1 else 0
  }

  ghost function Returns<R>(outcomes: seq<Outcome<R>>, r: R): nat {
    if outcomes == [] then 0
    else Returns(outcomes[..|outcomes| - 1], r) + if outcomes[|outcomes| - 1] == Ready(r) then 1 else 0
  }

  ghost function AllReturns<S, R>(w: World<S, R>, r: R): seq<nat> {
    seq(|w.threads|, t requires 0 <= t < |w.threads| => Returns(w.threads[t].outcomes, r))
  }

  lemma MoverReturns<S, R>(w: World<S, R>, e: Event, v: World<S, R>, t: nat, r: R)
    requires Good(w, v, t) && Decides(w, e, v, t)
    ensures Returns(v.threads[t].outcomes, r) - Returns(w.threads[t].outcomes, r) == Times(v.log, r) - Times(w.log, r)
  {
    var a, b := w.threads[t].outcomes, v.threads[t].outcomes;
    if b != a {
      assert b[..|b| - 1] == a;
    }
    if v.log != w.log {
      assert v.log[..|v.log| - 1] == w.log;
    }
  }

  lemma StepReturns<S, R>(w: World<S, R>, e: Event, r: R)
    requires Inv(w) && Step(w, e).Some? && Sum(AllReturns(w, r)) == Times(w.log, r)
    ensures var v := Step(w, e).value; Sum(AllReturns(v, r)) == Times(v.log, r)
  {
    hide Step;
    var v := Step(w, e).value;
    StepIsGood(w, e);
    StepDecides(w, e);
    if Mover(e).Some? {
      var t := Mover(e).value;
      var n := Returns(v.threads[t].outcomes, r);
      SumUpdate(AllReturns(w, r), t, n);
      assert AllReturns(v, r) == AllReturns(w, r)[t := n];
      MoverReturns(w, e, v, t, r);
    } else {
      forall t | 0 <= t < |w.threads|
        ensures AllReturns(v, r)[t] == AllReturns(w, r)[t]
      {
        assert AmbientThread(w, v, t);
      }
      assert AllReturns(v, r) == AllReturns(w, r);
    }
  }

  /** Over whole runs the log holds each result exactly as often as calls have returned it. */
  lemma {:induction false} LogIsWhatCallsReturn<S, R>(w: World<S, R>, schedule: seq<Event>, r: R)
    requires Initial(w) && Exec(w, schedule).Some?
    ensures Sum(AllReturns(Exec(w, schedule).value, r)) == Times(Exec(w, schedule).value.log, r)
    decreases |schedule|
  {
    hide Inv, Step;
    if schedule == [] {
      forall t | 0 <= t < |w.threads|
        ensures Returns(w.threads[t].outcomes, r) == 0
      {
        FreshThread(w, t);
      }
      SumZero(AllReturns(w, r));
    } else {
      var k := |schedule| - 1;
      LogIsWhatCallsReturn(w, schedule[..k], r);
      ReachableInv(w, schedule[..k]);
      StepReturns(Exec(w, schedule[..k]).value, schedule[k], r);
    }
  }
}
