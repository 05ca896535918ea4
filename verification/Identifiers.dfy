/** Registration identifiers over whole runs: a registration fails if and only if 2^64 - 2 have been made. */
module Identifiers {
  import opened Basics
  import opened Protocol
  import opened Invariants
  import opened Outcomes
  import opened Decisions

  /** Event `e` enters a waiter into the registry. */
  ghost predicate Enters<S, R>(w: World<S, R>, e: Event) {
    && Step(w, e).Some? && Mover(e).Some?
    && var v, t := Step(w, e).value, Mover(e).value;
    t < |w.threads| == |v.threads| && Enrols(w.threads[t].phase, v.threads[t].phase)
  }

  /** How many registrations a run has made. */
  ghost function Registrations<S, R>(w: World<S, R>, schedule: seq<Event>): nat
    decreases |schedule|
  {
    if schedule == [] then 0
    else
      var k := |schedule| - 1;
      var before := Exec(w, schedule[..k]);
      Registrations(w, schedule[..k]) + if before.Some? && Enters(before.value, schedule[k]) then 1 else 0
  }

  lemma StepCounts<S, R>(w: World<S, R>, e: Event)
    requires Inv(w) && Step(w, e).Some?
    ensures Step(w, e).value.next == w.next + if Enters(w, e) then 1 else 0
  {
    hide Step;
    StepIsGood(w, e);
  }

  lemma RegistersBelow<S, R>(w: World<S, R>, e: Event)
    requires Inv(w) && Enters(w, e)
    ensures w.next < 0xFFFF_FFFF_FFFF_FFFF
  {
    assert ShapeOk(w.threads[Mover(e).value]);
  }

  /** The counter is one more than the number of registrations, and stays in range. */
  lemma {:induction false} NextCounts<S, R>(w: World<S, R>, schedule: seq<Event>)
    requires Initial(w) && Exec(w, schedule).Some?
    ensures Exec(w, schedule).value.next == Registrations(w, schedule) + 1 <= 0xFFFF_FFFF_FFFF_FFFF
    decreases |schedule|
  {
    hide Inv, Step;
    if schedule != [] {
      var k := |schedule| - 1;
      var u := Exec(w, schedule[..k]).value;
      NextCounts(w, schedule[..k]);
      ReachableInv(w, schedule[..k]);
      StepCounts(u, schedule[k]);
      if Enters(u, schedule[k]) { RegistersBelow(u, schedule[k]); }
    }
  }

  /**
    A thread that registers gets the next identifier and joins the end of the registry, if and only if the run has
    made fewer than 2^64 - 2 registrations; otherwise its call ends `Exhausted` and the registry is unchanged.
   */
  lemma RegisteringSucceeds<S, R>(w: World<S, R>, schedule: seq<Event>, t: nat, accepted: bool)
    requires Initial(w) && Exec(w, schedule).Some? && t < |Exec(w, schedule).value.threads|
    requires Exec(w, schedule).value.threads[t].phase.Registering?
    ensures RunStep(Exec(w, schedule).value, t, accepted).Some?
    ensures var u := Exec(w, schedule).value;
      var v, n := RunStep(u, t, accepted).value, Registrations(w, schedule);
      && |v.threads| == |u.threads|
      && if n < 0x1_0000_0000_0000_0000 - 2 then
           Entry(v.threads[t].phase) == Some(n + 1) && v.queue == u.queue + [n + 1] && NewOutcome(u, v, t) == None
         else NewOutcome(u, v, t) == Some(Exhausted) && v.queue == u.queue && v.next == u.next
  {
    hide Exec, Registrations;
    NextCounts(w, schedule);
    ReachableInv(w, schedule);
    RegisterStep(Exec(w, schedule).value, t, accepted);
  }

  lemma RegisterStep<S, R>(u: World<S, R>, t: nat, accepted: bool)
    requires Inv(u) && t < |u.threads| && u.threads[t].phase.Registering?
    ensures RunStep(u, t, accepted).Some?
    ensures var v := RunStep(u, t, accepted).value;
      && |v.threads| == |u.threads|
      && if u.next < 0xFFFF_FFFF_FFFF_FFFF then
           Entry(v.threads[t].phase) == Some(u.next) && v.queue == u.queue + [u.next] && NewOutcome(u, v, t) == None
         else NewOutcome(u, v, t) == Some(Exhausted) && v.queue == u.queue && v.next == u.next
  {
    assert ShapeOk(u.threads[t]);
  }

  /** No call ends `Exhausted` before the run has made 2^64 - 2 registrations. */
  lemma ExhaustedMeansUsedUp<S, R>(w: World<S, R>, schedule: seq<Event>, k: nat, t: nat, i: nat)
    requires Initial(w) && DecidedAt(w, schedule, k, t, i, Exhausted)
    ensures Registrations(w, schedule[..k]) == 0x1_0000_0000_0000_0000 - 2
  {
    hide Inv, Step;
    NextCounts(w, schedule[..k]);
  }
}
