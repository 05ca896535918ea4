/** What one thread keeps along a run: its outcomes, its call and the passing of time. */
module Runs {
  import opened Basics
  import opened Protocol
  import opened Invariants
  import opened Outcomes

  /**
    `b` is the call `c`, possibly with its total budget fixed to a deadline at some instant between `from` and `to`.
   */
  ghost predicate SameCall<S, R>(b: Call<S, R>, c: Call<S, R>, from: nat, to: nat) {
    || b == c
    || (c.timing.Total? && b.timing.Absolute? && b == c.(timing := b.timing)
        && from + c.timing.budget <= b.timing.deadline <= to + c.timing.budget)
  }

  ghost predicate Grows<S, R>(u: World<S, R>, v: World<S, R>, t: nat) {
    && t < |u.threads| == |v.threads|
    && u.clock <= v.clock && u.horizon == v.horizon && u.next <= v.next
    && var a, b := u.threads[t], v.threads[t];
    && a.outcomes <= b.outcomes
    && |b.calls| <= |a.calls|
    && (|b.calls| == |a.calls| > 0 ==> SameCall(b.calls[0], a.calls[0], u.clock, v.clock))
  }

  lemma StepGrows<S, R>(w: World<S, R>, e: Event, t: nat)
    requires Inv(w) && Step(w, e).Some? && t < |w.threads|
    ensures Grows(w, Step(w, e).value, t)
    ensures |Step(w, e).value.threads[t].outcomes| <= |w.threads[t].outcomes| + 1
    ensures var a, b := w.threads[t], Step(w, e).value.threads[t];
      |b.calls| == |a.calls| > 0 ==> Continues(b.calls[0], a.calls[0], w.clock, w.horizon)
  {
    StepIsGood(w, e);
    StepDecides(w, e);
    if Mover(e).None? { assert AmbientThread(w, Step(w, e).value, t); }
  }

  lemma GrowsOn<S, R>(w: World<S, R>, u: World<S, R>, v: World<S, R>, t: nat)
    requires Grows(w, u, t) && Grows(u, v, t)
    ensures Grows(w, v, t)
  {
  }

  /** Along a run a thread only gains outcomes, and while it has as many calls left it is executing the same call. */
  lemma {:induction false} RunGrows<S, R>(w: World<S, R>, before: seq<Event>, after: seq<Event>, t: nat)
    requires Initial(w) && before <= after && Exec(w, before).Some? && Exec(w, after).Some?
    requires t < |Exec(w, before).value.threads|
    ensures Grows(Exec(w, before).value, Exec(w, after).value, t)
    decreases |after|
  {
    hide Inv;
    if before != after {
      var k := |after| - 1;
      assert before <= after[..k];
      var u := Exec(w, after[..k]).value;
      RunGrows(w, before, after[..k], t);
      ReachableInv(w, after[..k]);
      StepGrows(u, after[k], t);
      GrowsOn(Exec(w, before).value, u, Exec(w, after).value, t);
    }
  }

  /** A thread whose call has not been decided yet is still executing it. */
  lemma StillCalling<S, R>(w: World<S, R>, before: seq<Event>, after: seq<Event>, t: nat)
    requires Initial(w) && before <= after && Exec(w, before).Some? && Exec(w, after).Some?
    requires var a, b := Exec(w, before).value.threads, Exec(w, after).value.threads;
      && t < |a| && t < |b| && a[t].phase.Idle? && a[t].calls != []
      && |a[t].outcomes| == |b[t].outcomes| && !Decided(b[t].phase)
    ensures var u, v := Exec(w, before).value, Exec(w, after).value;
      && |v.threads[t].calls| == |u.threads[t].calls|
      && SameCall(v.threads[t].calls[0], u.threads[t].calls[0], u.clock, v.clock)
  {
    hide Inv, Exec;
    OutcomesAreConserved(w, before);
    OutcomesAreConserved(w, after);
    RunGrows(w, before, after, t);
    var u, v := Exec(w, before).value, Exec(w, after).value;
    assert Accounts(u.threads[t]) == Accounts(w.threads[t]) == Accounts(v.threads[t]);
  }
}
