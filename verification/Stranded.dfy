/**
  Exactly when a permit can be stranded beside a parked consumer. One consumer makes a call of any kind and timing, a
  second one waits in a blocking call without a deadline, and a producer gives one permit to the first: some schedule
  strands it if and only if the first call `CanLose` it.
 */
module Stranded {
  import opened Basics
  import opened Protocol
  import opened Invariants
  import opened Wakeup
  import opened Permits
  import opened TimerErrors

  function Taker(kind: Kind, timing: Timing): Call<nat, ()> {
    Call<nat, ()>.Call(kind, timing, n => n == 0, n => (if n > 0 then n - 1 else 0, ()), _ => Silent)
  }

  function Giver(): Call<nat, ()> {
    Call<nat, ()>.Call(Blocking, Untimed, n => false, n => (n + 1, ()), _ => One)
  }

  function Newcomer(c: Call<nat, ()>): Thread<nat, ()> {
    Thread([c], Idle, NoTimer, 0, [])
  }

  /** A consumer making call `a`, a second, untimed blocking consumer, and one producer. */
  function Trio(a: Call<nat, ()>, clock: nat, horizon: nat): World<nat, ()> {
    World(None, 0, 1, [], {}, {}, {}, [Newcomer(a), Newcomer(Taker(Blocking, Untimed)), Newcomer(Giver())],
          clock, horizon, false, [])
  }

  /** Nothing can move, and a permit is left beside a parked consumer. */
  ghost predicate PermitStranded(v: World<nat, ()>) {
    Quiescent(v) && v.data > 0 && exists t :: 0 <= t < |v.threads| && v.threads[t].phase.Parked?
  }

  ghost predicate Strands(w: World<nat, ()>, schedule: seq<Event>) {
    Exec(w, schedule).Some? && PermitStranded(Exec(w, schedule).value)
  }

  ghost predicate Reaches(w0: World<nat, ()>, s: seq<Event>, w: World<nat, ()>) {
    Exec(w0, s) == Some(w)
  }

  lemma Go(w0: World<nat, ()>, s: seq<Event>, w: World<nat, ()>, e: Event) returns (r: seq<Event>, v: World<nat, ()>)
    requires Reaches(w0, s, w) && Step(w, e).Some?
    ensures Reaches(w0, r, v) && r == s + [e] && Step(w, e) == Some(v)
  {
    hide Step;
    r := s + [e];
    v := Step(w, e).value;
    assert r[..|s|] == s;
  }

  // ---- The first consumer registers and parks ---------------------------------------------------------

  /** The first thread is at `p` of its call, nobody else has begun, and there is no permit. */
  ghost predicate At(w: World<nat, ()>, clock: nat, horizon: nat, c: Call<nat, ()>, p: Phase, timer: Timer) {
    && w.data == 0 && w.clock == clock && w.horizon == horizon
    && w.signalled == {} && w.awake == {} && w.waking == {}
    && w.owner == (if HoldsLock(p) then Some(0) else None)
    && (if Entry(p).Some? then Entry(p) == Some(1) && w.next == 2 && w.queue == [1] else w.next == 1 && w.queue == [])
    && |w.threads| == 3
    && w.threads[1] == Newcomer(Taker(Blocking, Untimed)) && w.threads[2] == Newcomer(Giver())
    && var th := w.threads[0];
    && th.calls == [c] && th.phase == p && th.timer == timer && th.outcomes == []
    && (c.timing.Relative? && !p.Idle? && !p.Sampling? ==> th.started == clock)
  }

  /** A step of the first thread at `p` of the call `c` takes it to `q` of the call `d`. */
  ghost predicate Leads(clock: nat, horizon: nat, c: Call<nat, ()>, p: Phase, timer: Timer,
                        d: Call<nat, ()>, q: Phase, after: Timer) {
    forall u {:trigger At(u, clock, horizon, c, p, timer)} :: At(u, clock, horizon, c, p, timer) ==>
      RunStep(u, 0, true).Some? && At(RunStep(u, 0, true).value, clock, horizon, d, q, after)
  }

  /** One step of the first thread. */
  lemma Walk(w0: World<nat, ()>, s: seq<Event>, w: World<nat, ()>, clock: nat, horizon: nat,
             c: Call<nat, ()>, p: Phase, timer: Timer, d: Call<nat, ()>, q: Phase, after: Timer)
      returns (r: seq<Event>, v: World<nat, ()>)
    requires Reaches(w0, s, w) && At(w, clock, horizon, c, p, timer)
    requires Leads(clock, horizon, c, p, timer, d, q, after)
    ensures Reaches(w0, r, v) && At(v, clock, horizon, d, q, after)
    ensures NoTimerErrors(s) ==> NoTimerErrors(r)
  {
    r, v := Go(w0, s, w, Run(0, true));
  }

  /** A total budget within range becomes a deadline first. */
  lemma FixLeads(clock: nat, horizon: nat, kind: Kind, b: nat)
    requires clock + b <= horizon
    ensures Leads(clock, horizon, Taker(kind, Total(b)), Idle, NoTimer, Taker(kind, Absolute(clock + b)), Idle, NoTimer)
  {
  }

  lemma LockLeads(clock: nat, horizon: nat, c: Call<nat, ()>)
    requires !c.timing.Total?
    ensures Leads(clock, horizon, c, Idle, NoTimer, c,
                  if c.timing.Relative? then Sampling else Checking(true, false), NoTimer)
  {
  }

  lemma SampleLeads(clock: nat, horizon: nat, c: Call<nat, ()>)
    ensures Leads(clock, horizon, c, Sampling, NoTimer, c, Checking(true, false), NoTimer)
  {
  }

  lemma CheckLeads(clock: nat, horizon: nat, kind: Kind, timing: Timing)
    ensures var c := Taker(kind, timing);
      Leads(clock, horizon, c, Checking(true, false), NoTimer, c, if Timed(c) then Arming else Registering, NoTimer)
  {
  }

  lemma ArmLeads(clock: nat, horizon: nat, c: Call<nat, ()>)
    requires CanLose(c, clock, horizon) && (c.timing.Relative? || c.timing.Absolute?)
    ensures Leads(clock, horizon, c, Arming, NoTimer, c, if c.timing.Absolute? then PrePoll else LoopStart(c.kind),
                  Timer(Deadline(c.timing, clock), Armed, None))
  {
  }

  lemma PrePollLeads(clock: nat, horizon: nat, c: Call<nat, ()>, d: nat)
    ensures var timer := Timer(d, Armed, None);
      Leads(clock, horizon, c, PrePoll, timer, c, LoopStart(c.kind), timer)
  {
  }

  lemma LoopLeads(clock: nat, horizon: nat, c: Call<nat, ()>, d: nat)
    ensures var timer := Timer(d, Armed, None);
      Leads(clock, horizon, c, LoopPoll, timer, c, Registering, timer)
  {
  }

  lemma RegisterLeads(clock: nat, horizon: nat, c: Call<nat, ()>, timer: Timer)
    ensures Leads(clock, horizon, c, Registering, timer, c,
                  if c.kind.Blocking? && Timed(c) then WaiterPoll(1) else Releasing(1), timer)
  {
  }

  lemma WaiterPollLeads(clock: nat, horizon: nat, c: Call<nat, ()>, d: nat)
    ensures Leads(clock, horizon, c, WaiterPoll(1), Timer(d, Armed, None), c, Releasing(1), Timer(d, Armed, Some(1)))
  {
  }

  lemma ReleaseLeads(clock: nat, horizon: nat, c: Call<nat, ()>, timer: Timer)
    ensures Leads(clock, horizon, c, Releasing(1), timer, c,
                  if c.kind.Blocking? then Parked(1) else Polling(1), timer)
  {
  }

  lemma PollLeads(clock: nat, horizon: nat, c: Call<nat, ()>, timer: Timer)
    requires if Timed(c) then timer.Timer? && timer.status.Armed? else timer == NoTimer
    ensures Leads(clock, horizon, c, Polling(1), timer, c, Parked(1),
                  if Timed(c) then timer.(waker := Some(1)) else NoTimer)
  {
  }

  function Deadline(timing: Timing, clock: nat): nat {
    match timing
    case Untimed => 0
    case Relative(timeout) => clock + timeout
    case Absolute(deadline) => deadline
    case Total(budget) => clock + budget
  }

  // ---- The first consumer parks -----------------------------------------------------------------------

  /** A call with a budget begins, blocks, and creates its TimerFuture. */
  lemma ToLoop(w0: World<nat, ()>, s: seq<Event>, w: World<nat, ()>, clock: nat, horizon: nat,
               kind: Kind, timing: Timing)
      returns (r: seq<Event>, v: World<nat, ()>)
    requires Reaches(w0, s, w) && At(w, clock, horizon, Taker(kind, timing), Idle, NoTimer)
    requires CanLose(Taker(kind, timing), clock, horizon) && (timing.Relative? || timing.Absolute?)
    ensures Reaches(w0, r, v) && (NoTimerErrors(s) ==> NoTimerErrors(r))
    ensures At(v, clock, horizon, Taker(kind, timing), LoopStart(kind), Timer(Deadline(timing, clock), Armed, None))
  {
    hide Leads, At;
    var c, timer := Taker(kind, timing), Timer(Deadline(timing, clock), Armed, None);
    LockLeads(clock, horizon, c);
    SampleLeads(clock, horizon, c);
    CheckLeads(clock, horizon, kind, timing);
    ArmLeads(clock, horizon, c);
    PrePollLeads(clock, horizon, c, Deadline(timing, clock));
    if timing.Relative? {
      r, v := Walk(w0, s, w, clock, horizon, c, Idle, NoTimer, c, Sampling, NoTimer);
      r, v := Walk(w0, r, v, clock, horizon, c, Sampling, NoTimer, c, Checking(true, false), NoTimer);
      r, v := Walk(w0, r, v, clock, horizon, c, Checking(true, false), NoTimer, c, Arming, NoTimer);
      r, v := Walk(w0, r, v, clock, horizon, c, Arming, NoTimer, c, LoopStart(kind), timer);
    } else {
      r, v := Walk(w0, s, w, clock, horizon, c, Idle, NoTimer, c, Checking(true, false), NoTimer);
      r, v := Walk(w0, r, v, clock, horizon, c, Checking(true, false), NoTimer, c, Arming, NoTimer);
      r, v := Walk(w0, r, v, clock, horizon, c, Arming, NoTimer, c, PrePoll, timer);
      r, v := Walk(w0, r, v, clock, horizon, c, PrePoll, timer, c, LoopStart(kind), timer);
    }
  }

  lemma ParksBlocking(w0: World<nat, ()>, s: seq<Event>, w: World<nat, ()>, clock: nat, horizon: nat,
                      c: Call<nat, ()>, d: nat) returns (r: seq<Event>, v: World<nat, ()>)
    requires Reaches(w0, s, w) && At(w, clock, horizon, c, LoopPoll, Timer(d, Armed, None))
    requires c.kind.Blocking? && Timed(c)
    ensures Reaches(w0, r, v) && At(v, clock, horizon, c, Parked(1), Timer(d, Armed, Some(1)))
  {
    hide Leads, At;
    var timer, own := Timer(d, Armed, None), Timer(d, Armed, Some(1));
    LoopLeads(clock, horizon, c, d);
    RegisterLeads(clock, horizon, c, timer);
    WaiterPollLeads(clock, horizon, c, d);
    ReleaseLeads(clock, horizon, c, own);
    r, v := Walk(w0, s, w, clock, horizon, c, LoopPoll, timer, c, Registering, timer);
    r, v := Walk(w0, r, v, clock, horizon, c, Registering, timer, c, WaiterPoll(1), timer);
    r, v := Walk(w0, r, v, clock, horizon, c, WaiterPoll(1), timer, c, Releasing(1), own);
    r, v := Walk(w0, r, v, clock, horizon, c, Releasing(1), own, c, Parked(1), own);
  }

  lemma ParksTokio(w0: World<nat, ()>, s: seq<Event>, w: World<nat, ()>, clock: nat, horizon: nat,
                   c: Call<nat, ()>, timer: Timer) returns (r: seq<Event>, v: World<nat, ()>, own: Timer)
    requires Reaches(w0, s, w) && c.kind.Tokio?
    requires At(w, clock, horizon, c, Registering, timer)
    requires if Timed(c) then timer.Timer? && timer.status.Armed? else timer == NoTimer
    ensures Reaches(w0, r, v) && At(v, clock, horizon, c, Parked(1), own)
    ensures NoTimerErrors(s) ==> NoTimerErrors(r)
  {
    hide Leads, At;
    own := if Timed(c) then timer.(waker := Some(1)) else NoTimer;
    RegisterLeads(clock, horizon, c, timer);
    ReleaseLeads(clock, horizon, c, timer);
    PollLeads(clock, horizon, c, timer);
    r, v := Walk(w0, s, w, clock, horizon, c, Registering, timer, c, Releasing(1), timer);
    r, v := Walk(w0, r, v, clock, horizon, c, Releasing(1), timer, c, Polling(1), timer);
    r, v := Walk(w0, r, v, clock, horizon, c, Polling(1), timer, c, Parked(1), own);
  }

  lemma ToRegistering(w0: World<nat, ()>, w: World<nat, ()>, clock: nat, horizon: nat)
      returns (r: seq<Event>, v: World<nat, ()>)
    requires Reaches(w0, [], w) && At(w, clock, horizon, Taker(Tokio, Untimed), Idle, NoTimer)
    ensures Reaches(w0, r, v) && At(v, clock, horizon, Taker(Tokio, Untimed), Registering, NoTimer) && NoTimerErrors(r)
  {
    hide Leads, At;
    var c := Taker(Tokio, Untimed);
    LockLeads(clock, horizon, c);
    CheckLeads(clock, horizon, Tokio, Untimed);
    r, v := Walk(w0, [], w, clock, horizon, c, Idle, NoTimer, c, Checking(true, false), NoTimer);
    r, v := Walk(w0, r, v, clock, horizon, c, Checking(true, false), NoTimer, c, Registering, NoTimer);
  }

  // ---- The second consumer parks and the producer gives -----------------------------------------------

  lemma Advance(w0: World<nat, ()>, s: seq<Event>, w: World<nat, ()>, e: Event, v: World<nat, ()>)
      returns (r: seq<Event>)
    requires Reaches(w0, s, w) && Step(w, e) == Some(v)
    ensures Reaches(w0, r, v) && r == s + [e]
  {
    hide Step;
    r := s + [e];
    assert r[..|s|] == s;
  }

  /** A newcomer that finds no permit registers and parks. */
  lemma Parks(w0: World<nat, ()>, s: seq<Event>, w: World<nat, ()>, t: nat) returns (r: seq<Event>)
    requires Reaches(w0, s, w) && t < |w.threads| && w.threads[t] == Newcomer(Taker(Blocking, Untimed))
    requires w.owner == None && w.data == 0 && w.next < 10
    ensures Reaches(w0, r, Goto(w.(next := w.next + 1, queue := w.queue + [w.next]), t, Parked(w.next)))
    ensures NoTimerErrors(s) ==> NoTimerErrors(r)
  {
    var w1 := Goto(w.(owner := Some(t)), t, Checking(true, false));
    r := Advance(w0, s, w, Run(t, true), w1);
    var w2 := Goto(w1, t, Registering);
    r := Advance(w0, r, w1, Run(t, true), w2);
    var w3 := Goto(w2.(next := w.next + 1, queue := w.queue + [w.next]), t, Releasing(w.next));
    r := Advance(w0, r, w2, Run(t, true), w3);
    r := Advance(w0, r, w3, Run(t, true), Goto(w3.(owner := None), t, Parked(w.next)));
    assert Goto(w3.(owner := None), t, Parked(w.next)).threads
        == w.threads[t := w.threads[t].(phase := Parked(w.next))];
  }

  lemma Notifies(w0: World<nat, ()>, s: seq<Event>, w: World<nat, ()>, t: nat) returns (r: seq<Event>)
    requires Reaches(w0, s, w) && t < |w.threads| && w.threads[t].phase == Taking(One) && w.threads[t].calls != []
    requires w.queue != []
    ensures Reaches(w0, r, Put(w.(queue := w.queue[1..], signalled := w.signalled + {w.queue[0]}), t,
                               Returned(w.threads[t])))
    ensures NoTimerErrors(s) ==> NoTimerErrors(r)
  {
    assert w.queue[..1] == [w.queue[0]];
    var w1 := Goto(w.(queue := w.queue[1..]), t, Signalling([w.queue[0]]));
    r := Advance(w0, s, w, Run(t, true), w1);
    var w2 := Put(w1.(signalled := w.signalled + {w.queue[0]}), t, Returned(w1.threads[t]));
    r := Advance(w0, r, w1, Run(t, true), w2);
    assert w2.threads == w.threads[t := Returned(w.threads[t])];
  }

  /** The producer adds a permit and signals the oldest registration. */
  lemma Gives(w0: World<nat, ()>, s: seq<Event>, w: World<nat, ()>, t: nat) returns (r: seq<Event>)
    requires Reaches(w0, s, w) && t < |w.threads| && w.threads[t] == Newcomer(Giver())
    requires w.owner == None && w.queue != []
    ensures Reaches(w0, r, Put(w.(data := w.data + 1, log := w.log + [()], queue := w.queue[1..],
                                  signalled := w.signalled + {w.queue[0]}), t,
                               Thread([], Idle, NoTimer, 0, [Ready(())])))
    ensures NoTimerErrors(s) ==> NoTimerErrors(r)
  {
    var w1 := Goto(w.(owner := Some(t)), t, Checking(true, false));
    r := Advance(w0, s, w, Run(t, true), w1);
    var given := w1.threads[t].(phase := Leaving(One), outcomes := w1.threads[t].outcomes + [Ready(())]);
    var w2 := Put(w1.(data := w.data + 1, log := w.log + [()]), t, given);
    r := Advance(w0, r, w1, Run(t, true), w2);
    var w3 := Goto(w2.(owner := None), t, Taking(One));
    r := Advance(w0, r, w2, Run(t, true), w3);
    r := Notifies(w0, r, w3, t);
    assert given.outcomes == [Ready(())] && given.calls[1..] == [];
    assert w3.threads[t := Returned(w3.threads[t])] == w.threads[t := Thread([], Idle, NoTimer, 0, [Ready(())])];
  }

  /** The first consumer is parked and selected, the second one parked, and one permit is there. */
  ghost predicate FirstSelected(w: World<nat, ()>, kind: Kind, timer: Timer, p: Phase) {
    && w.data == 1 && w.queue == [2] && w.signalled == {1} && w.awake == {}
    && w.owner == (if HoldsLock(p) then Some(0) else None)
    && |w.threads| == 3 && w.threads[2].calls == [] && w.threads[2].phase == Idle
    && w.threads[1].calls == [Taker(Blocking, Untimed)] && w.threads[1].phase == Parked(2)
    && |w.threads[0].calls| == 1 && w.threads[0].calls[0].kind == kind
    && w.threads[0].phase == p && w.threads[0].timer == timer
    && (kind.Blocking? ==> Timed(w.threads[0].calls[0]))
  }

  /** The second consumer parks behind the first, and the producer's one permit selects the first. */
  lemma Selects(w0: World<nat, ()>, s: seq<Event>, w: World<nat, ()>, clock: nat, horizon: nat,
                c: Call<nat, ()>, own: Timer)
      returns (r: seq<Event>, v: World<nat, ()>)
    requires Reaches(w0, s, w) && At(w, clock, horizon, c, Parked(1), own) && (c.kind.Blocking? ==> Timed(c))
    ensures Reaches(w0, r, v) && FirstSelected(v, c.kind, own, Parked(1))
    ensures NoTimerErrors(s) ==> NoTimerErrors(r)
  {
    hide Exec, Step;
    r := Parks(w0, s, w, 1);
    var w1 := Goto(w.(next := w.next + 1, queue := w.queue + [w.next]), 1, Parked(w.next));
    r := Gives(w0, r, w1, 2);
    v := Put(w1.(data := w1.data + 1, log := w1.log + [()], queue := w1.queue[1..],
                 signalled := w1.signalled + {w1.queue[0]}), 2, Thread([], Idle, NoTimer, 0, [Ready(())]));
  }

  // ---- The selected consumer leaves without looking ----------------------------------------------------

  lemma CancelEnds(w0: World<nat, ()>, s: seq<Event>, w: World<nat, ()>, timer: Timer) returns (r: seq<Event>)
    requires Reaches(w0, s, w) && FirstSelected(w, Tokio, timer, Parked(1))
    ensures Strands(w0, r) && (NoTimerErrors(s) ==> NoTimerErrors(r))
  {
    var v;
    r, v := Go(w0, s, w, Cancel(0));
    assert v.queue == [2] by { assert Without([2], 1) == [2]; }
    StrandedWhen(v);
  }

  /** All three are out of the game, and the permit is left. */
  lemma StrandedWhen(v: World<nat, ()>)
    requires v.data > 0 && v.awake == {} && v.signalled == {1} && |v.threads| == 3
    requires v.threads[0].calls == [] && v.threads[0].phase == Idle && v.threads[2].calls == []
    requires v.threads[2].phase == Idle && v.threads[1].calls != [] && v.threads[1].phase == Parked(2)
    ensures PermitStranded(v)
  {
    forall t | 0 <= t < |v.threads|
      ensures Blocked(v, t)
    {
    }
  }

  /** The Timer fails: the consumer reacquires the lock and reports the error. */
  lemma ErrorEnds(w0: World<nat, ()>, s: seq<Event>, w: World<nat, ()>, d: nat) returns (r: seq<Event>)
    requires Reaches(w0, s, w) && FirstSelected(w, Blocking, Timer(d, Armed, Some(1)), Parked(1))
    ensures Strands(w0, r)
  {
    var failed := Timer(d, Fired(false), None);
    var v;
    r, v := Go(w0, s, w, Fire(0, false));
    assert FirstSelected(v, Blocking, failed, Parked(1));
    r, v := ErrorDrops(w0, r, v, failed);
    r, v := ErrorRelocks(w0, r, v, failed);
    r := ErrorReturns(w0, r, v, failed);
  }

  lemma ErrorDrops(w0: World<nat, ()>, s: seq<Event>, w: World<nat, ()>, timer: Timer)
      returns (r: seq<Event>, v: World<nat, ()>)
    requires Reaches(w0, s, w) && FirstSelected(w, Blocking, timer, Parked(1))
    ensures Reaches(w0, r, v) && FirstSelected(v, Blocking, timer, Relocking(1, Signal))
  {
    r, v := Go(w0, s, w, Run(0, true));
    assert FirstSelected(v, Blocking, timer, Dropping(1, Signal));
    assert Without([2], 1) == [2];
    r, v := Go(w0, r, v, Run(0, true));
  }

  lemma ErrorRelocks(w0: World<nat, ()>, s: seq<Event>, w: World<nat, ()>, timer: Timer)
      returns (r: seq<Event>, v: World<nat, ()>)
    requires Reaches(w0, s, w) && FirstSelected(w, Blocking, timer, Relocking(1, Signal))
    ensures Reaches(w0, r, v) && FirstSelected(v, Blocking, timer, FinalPoll(1, Signal))
  {
    r, v := Go(w0, s, w, Run(0, true));
  }

  lemma ErrorReturns(w0: World<nat, ()>, s: seq<Event>, w: World<nat, ()>, timer: Timer) returns (r: seq<Event>)
    requires Reaches(w0, s, w) && FirstSelected(w, Blocking, timer, FinalPoll(1, Signal))
    requires timer.Timer? && timer.status == Fired(false)
    ensures Strands(w0, r)
  {
    var v;
    r, v := Go(w0, s, w, Run(0, true));
    assert FirstSelected(v, Blocking, NoTimer, Leaving(Silent));
    r, v := Go(w0, r, v, Run(0, true));
    StrandedWhen(v);
  }

  // ---- Theorems ---------------------------------------------------------------------------------------

  /** Without any Timer error: an asynchronous consumer that can wait is selected and then dropped. */
  lemma CancelStrands(timing: Timing, clock: nat, horizon: nat) returns (schedule: seq<Event>)
    requires CanLose(Taker(Tokio, timing), clock, horizon)
    ensures NoTimerErrors(schedule) && Strands(Trio(Taker(Tokio, timing), clock, horizon), schedule)
  {
    var w := Trio(Taker(Tokio, timing), clock, horizon);
    var r: seq<Event>, v: World<nat, ()>, own: Timer;
    if timing.Untimed? {
      r, v := ToRegistering(w, w, clock, horizon);
      r, v, own := ParksTokio(w, r, v, clock, horizon, Taker(Tokio, timing), NoTimer);
      r, v := Selects(w, r, v, clock, horizon, Taker(Tokio, timing), own);
    } else {
      var fixed;
      r, v, fixed := Begins(w, clock, horizon, Tokio, timing);
      r, v, own := ParksTokio(w, r, v, clock, horizon, Taker(Tokio, fixed), Timer(Deadline(fixed, clock), Armed, None));
      r, v := Selects(w, r, v, clock, horizon, Taker(Tokio, fixed), own);
    }
    schedule := CancelEnds(w, r, v, own);
  }

  /** A blocking consumer with a budget is selected, and its Timer fails before it has looked again. */
  lemma ErrorStrands(timing: Timing, clock: nat, horizon: nat) returns (schedule: seq<Event>)
    requires CanLose(Taker(Blocking, timing), clock, horizon)
    ensures Strands(Trio(Taker(Blocking, timing), clock, horizon), schedule)
  {
    var w := Trio(Taker(Blocking, timing), clock, horizon);
    var r, v, fixed := Begins(w, clock, horizon, Blocking, timing);
    r, v := ParksBlocking(w, r, v, clock, horizon, Taker(Blocking, fixed), Deadline(fixed, clock));
    r, v := Selects(w, r, v, clock, horizon, Taker(Blocking, fixed), Timer(Deadline(fixed, clock), Armed, Some(1)));
    schedule := ErrorEnds(w, r, v, Deadline(fixed, clock));
  }

  /** A call with a budget reaches its loop with an armed TimerFuture. */
  lemma Begins(w: World<nat, ()>, clock: nat, horizon: nat, kind: Kind, timing: Timing)
      returns (r: seq<Event>, v: World<nat, ()>, fixed: Timing)
    requires w == Trio(Taker(kind, timing), clock, horizon)
    requires CanLose(Taker(kind, timing), clock, horizon) && !timing.Untimed?
    ensures Reaches(w, r, v) && NoTimerErrors(r) && (fixed.Relative? || fixed.Absolute?)
    ensures At(v, clock, horizon, Taker(kind, fixed), LoopStart(kind), Timer(Deadline(fixed, clock), Armed, None))
  {
    r, v, fixed := [], w, timing;
    assert At(w, clock, horizon, Taker(kind, timing), Idle, NoTimer);
    if timing.Total? {
      fixed := Absolute(clock + timing.budget);
      FixLeads(clock, horizon, kind, timing.budget);
      r, v := Walk(w, r, v, clock, horizon, Taker(kind, timing), Idle, NoTimer, Taker(kind, fixed), Idle, NoTimer);
    }
    r, v := ToLoop(w, r, v, clock, horizon, kind, fixed);
  }

  lemma TrioIsClient(a: Call<nat, ()>, clock: nat, horizon: nat)
    requires Consumer(a)
    ensures var w := Trio(a, clock, horizon);
      && Initial(w) && PermitCalls(w)
      && (!CanLose(a, clock, horizon) ==> SafeCalls(w, w.clock))
  {
    var w := Trio(a, clock, horizon);
    assert Consumer(Taker(Blocking, Untimed)) && Producer(Giver());
    forall t, i | 0 <= t < |w.threads| && 0 <= i < |w.threads[t].calls|
      ensures PermitCall(w.threads[t].calls[i])
      ensures !CanLose(a, clock, horizon) ==> !CanLose(w.threads[t].calls[i], w.clock, w.horizon)
    {
    }
  }

  /**
    The exact condition, which a caller can read off the call: a permit can be stranded if and only if the first
    consumer can wait with a TimerFuture, or is asynchronous and waits without one.
   */
  lemma StrandsIffCanLose(kind: Kind, timing: Timing, clock: nat, horizon: nat)
    ensures (exists schedule :: Strands(Trio(Taker(kind, timing), clock, horizon), schedule))
            <==> CanLose(Taker(kind, timing), clock, horizon)
  {
    var a := Taker(kind, timing);
    if CanLose(a, clock, horizon) {
      var schedule: seq<Event>;
      if kind.Tokio? {
        schedule := CancelStrands(timing, clock, horizon);
      } else {
        schedule := ErrorStrands(timing, clock, horizon);
      }
    } else {
      var w := Trio(a, clock, horizon);
      TrioIsClient(a, clock, horizon);
      forall schedule | Exec(w, schedule).Some?
        ensures !Strands(w, schedule)
      {
        if PermitStranded(Exec(w, schedule).value) {
          var t :| 0 <= t < |Exec(w, schedule).value.threads| && Exec(w, schedule).value.threads[t].phase.Parked?;
          SafeClientsStrandNothing(w, schedule, t);
        }
      }
    }
  }
}
