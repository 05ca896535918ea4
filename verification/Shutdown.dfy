/** Shutdown terminates: after a close every step uses up a bounded budget, and only finished threads can stop. */
module Shutdown {
  import opened Basics
  import opened Protocol
  import opened Invariants
  import opened Wakeup
  import opened Sums
  import opened Queue

  /** Work a thread still has before its current call returns, when its predicate no longer blocks. */
  function Rank(p: Phase): nat {
    match p
    case Sampling => 20
    case Checking(first, _) => if first then 19 else 8
    case Abandoning(_, _) => 9
    case Parked(_) => 12
    case Dropping(_, _) => 11
    case Relocking(_, _) => 10
    case FinalPoll(_, _) => 9
    case Leaving(_) => 7
    case Taking(_) => 6
    case Signalling(popped) => 5 + |popped|
    case _ => 0
  }

  function TimerWork(timer: Timer): nat {
    if timer.Timer? && timer.status.Armed? then 3
    else if timer.Timer? && timer.status.Fired? then 1
    else 0
  }

  /** Every call not yet begun counts in full; a total budget has one more step, fixing its deadline. */
  function ThreadWork<S, R>(th: Thread<S, R>): nat {
    TimerWork(th.timer) +
    if th.calls == [] then 0
    else if th.phase.Idle? then 40 * |th.calls| + (if th.calls[0].timing.Total? then 1 else 0)
    else 40 * (|th.calls| - 1) + 2 + Rank(th.phase)
  }

  ghost function ThreadWorks<S, R>(w: World<S, R>): seq<nat> {
    seq(|w.threads|, t requires 0 <= t < |w.threads| => ThreadWork(w.threads[t]))
  }

  /** The budget: thread phases, registry size, unsent signals, Timers and wakes. */
  ghost function Work<S, R>(w: World<S, R>): nat {
    Sum(ThreadWorks(w)) + 2 * |w.queue| + |w.waking|
  }

  /** No remaining call blocks any more. */
  ghost predicate Open<T(!new)>(w: World<QueueState<T>, QueueResult<T>>) {
    Inv(w) && QueueCalls(w) && w.data.closed
  }

  lemma RunWork<T(!new)>(w: World<QueueState<T>, QueueResult<T>>, v: World<QueueState<T>, QueueResult<T>>, t: nat)
    requires Open(w) && Good(w, v, t)
    ensures v.data.closed
    ensures ThreadWork(v.threads[t]) + 2 * |v.queue| < ThreadWork(w.threads[t]) + 2 * |w.queue|
  {
    var a := w.threads[t];
    assert ShapeOk(a) && CheckOk(w, t) && TimerOk(w, a);
    if a.calls != [] {
      assert QueueCall(a.calls[0]);
      assert !a.calls[0].waiting(w.data);
    }
    ChosenIsPrefix(w.queue, All);
  }

  lemma MoveWorks<T(!new)>(w: World<QueueState<T>, QueueResult<T>>, v: World<QueueState<T>, QueueResult<T>>, t: nat)
    requires Open(w) && Good(w, v, t)
    ensures v.data.closed && Work(v) < Work(w)
  {
    RunWork(w, v, t);
    SumUpdate(ThreadWorks(w), t, ThreadWork(v.threads[t]));
    assert ThreadWorks(v) == ThreadWorks(w)[t := ThreadWork(v.threads[t])];
  }

  lemma FireWorks<S, R>(w: World<S, R>, t: nat, ok: bool)
    requires t < |w.threads| && FireStep(w, t, ok).Some?
    ensures Work(FireStep(w, t, ok).value) < Work(w)
  {
    var v := FireStep(w, t, ok).value;
    SumUpdate(ThreadWorks(w), t, ThreadWork(v.threads[t]));
    assert ThreadWorks(v) == ThreadWorks(w)[t := ThreadWork(v.threads[t])];
  }

  /** After a close, every step but the passing of time uses up work. */
  lemma StepWorks<T(!new)>(w: World<QueueState<T>, QueueResult<T>>, e: Event)
    requires Open(w) && Step(w, e).Some?
    ensures Open(Step(w, e).value)
    ensures if e.Tick? then Work(Step(w, e).value) == Work(w) else Work(Step(w, e).value) < Work(w)
  {
    var v := Step(w, e).value;
    StepIsGood(w, e);
    StepKeepsInv(w, e);
    StepKeepsCalls(w, e);
    match e
    case Run(t, _) => MoveWorks(w, v, t);
    case Cancel(t) => MoveWorks(w, v, t);
    case Repoll(t) => MoveWorks(w, v, t);
    case Fire(t, ok) => FireWorks(w, t, ok);
    case Wake(_) => assert ThreadWorks(v) == ThreadWorks(w);
    case Tick(_) => assert ThreadWorks(v) == ThreadWorks(w);
  }

  /** Events of a schedule other than the passing of time. */
  function Moves(schedule: seq<Event>): nat {
    if schedule == [] then 0
    else Moves(schedule[..|schedule| - 1]) + if schedule[|schedule| - 1].Tick? then 0 else 1
  }

  lemma {:induction false} ScheduleWorks<T(!new)>(w: World<QueueState<T>, QueueResult<T>>, schedule: seq<Event>)
    requires Open(w) && Exec(w, schedule).Some?
    ensures Open(Exec(w, schedule).value)
    ensures Moves(schedule) + Work(Exec(w, schedule).value) <= Work(w)
    decreases |schedule|
  {
    if schedule != [] {
      var k := |schedule| - 1;
      ScheduleWorks(w, schedule[..k]);
      StepWorks(Exec(w, schedule[..k]).value, schedule[k]);
    }
  }

  lemma {:induction false} ExecConcat<S, R>(w: World<S, R>, s: seq<Event>, r: seq<Event>)
    requires Exec(w, s + r).Some?
    ensures Exec(w, s).Some? && Exec(Exec(w, s).value, r) == Exec(w, s + r)
    decreases |r|
  {
    if r == [] {
      assert s + r == s;
    } else {
      var k := |r| - 1;
      assert (s + r)[..|s + r| - 1] == s + r[..k];
      ExecConcat(w, s, r[..k]);
    }
  }

  /**
    Shutdown terminates. Once a schedule has closed the queue, every continuation makes at most `Work` further moves,
    however it interleaves; and where nothing can move any more, every producer and consumer has returned.
   */
  lemma ShutdownTerminates<T(!new)>(
      w: World<QueueState<T>, QueueResult<T>>, schedule: seq<Event>, rest: seq<Event>)
    requires NewQueue(w) && Exec(w, schedule + rest).Some?
    requires Exec(w, schedule).Some? && Exec(w, schedule).value.data.closed
    ensures Moves(rest) <= Work(Exec(w, schedule).value)
    ensures var v := Exec(w, schedule + rest).value;
      Quiescent(v) ==> forall t :: 0 <= t < |v.threads| ==> Finished(v.threads[t])
  {
    QueueHistory(w, schedule);
    ExecConcat(w, schedule, rest);
    ScheduleWorks(Exec(w, schedule).value, rest);
    var v := Exec(w, schedule + rest).value;
    if Quiescent(v) {
      forall t | 0 <= t < |v.threads|
        ensures Finished(v.threads[t])
      {
        if !Finished(v.threads[t]) { QueueQuiescence(w, schedule + rest, t); }
      }
    }
  }
}
