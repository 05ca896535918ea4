/** What each call of the bounded queue gets, over all interleavings: its own item goes in, and nothing else. */
module QueueItems {
  import opened Basics
  import opened Protocol
  import opened Invariants
  import opened Outcomes
  import opened Runs
  import opened Decisions
  import opened Programs
  import opened Queue
  import opened Sums
  import opened Wakeup

  // ---- Items ------------------------------------------------------------------------------------------

  /** The call of a thread that decides its outcome, before a total budget was fixed. */
  lemma EffectOfCall<T(!new)>(
      b: Call<QueueState<T>, QueueResult<T>>, c: Call<QueueState<T>, QueueResult<T>>, r: QueueResult<T>,
      before: QueueState<T>, after: QueueState<T>)
    requires SameCode(b, c) && QueueCall(c) && Effect(b, r, before, after)
    ensures Effect(c, r, before, after)
  {
    QueueCallSameCode(b, c);
    assert c == Close(c.timing) <==> b == Close(b.timing);
    assert IsPop(c) <==> IsPop(b);
    forall x: T | c == Push(x, c.timing)
      ensures PushEffect(x, r, before, after)
    {
      assert b == Push(x, b.timing);
    }
  }

  /**
    Over all interleavings: the call that ends `Ready(r)` has had the effect of that call on the queue. So a push that
    succeeds appends the caller's own item and returns it; it is refused, with the item, exactly on a closed queue; a
    pop takes the oldest item, and returns `None` only on a closed, empty queue; a close closes and keeps the items.
   */
  lemma QueueCallsHaveTheirEffect<T(!new)>(
      w: World<QueueState<T>, QueueResult<T>>, schedule: seq<Event>, t: nat, i: nat) returns (k: nat)
    requires NewQueue(w) && Exec(w, schedule).Some? && t < |w.threads| == |Exec(w, schedule).value.threads|
    requires i < |Exec(w, schedule).value.threads[t].outcomes|
    requires Exec(w, schedule).value.threads[t].outcomes[i].Ready?
    ensures k < |schedule| && i < |w.threads[t].calls|
    ensures Exec(w, schedule[..k]).Some? && Exec(w, schedule[..k + 1]).Some?
    ensures var u, v := Exec(w, schedule[..k]).value, Exec(w, schedule[..k + 1]).value;
      var r := Exec(w, schedule).value.threads[t].outcomes[i].result;
      Effect(w.threads[t].calls[i], r, u.data, v.data) && v.log == u.log + [r]
  {
    hide Inv, Step;
    k := OutcomeBelongsToCall(w, schedule, t, i);
    var u, r := Exec(w, schedule[..k]).value, Exec(w, schedule).value.threads[t].outcomes[i].result;
    QueueHistory(w, schedule[..k]);
    assert schedule[..k + 1][..k] == schedule[..k];
    var b, c := u.threads[t].calls[0], w.threads[t].calls[i];
    assert QueueCall(b) && QueueCall(c);
    ActionEffect(b, u.data);
    EffectOfCall(b, c, r, u.data, Exec(w, schedule[..k + 1]).value.data);
  }

  /** What a queue call returns names the call: a pushed or refused item is the one its caller passed. */
  lemma ResultsNameTheirCalls<T(!new)>(
      w: World<QueueState<T>, QueueResult<T>>, schedule: seq<Event>, t: nat, i: nat)
    requires NewQueue(w) && Exec(w, schedule).Some? && t < |w.threads| == |Exec(w, schedule).value.threads|
    requires i < |Exec(w, schedule).value.threads[t].outcomes|
    requires Exec(w, schedule).value.threads[t].outcomes[i].Ready?
    ensures i < |w.threads[t].calls|
    ensures var c, r := w.threads[t].calls[i], Exec(w, schedule).value.threads[t].outcomes[i].result;
      match r
      case Pushed(x) => c == Push(x, c.timing)
      case Refused(x) => c == Push(x, c.timing)
      case Removed(_) => IsPop(c)
      case Drained => IsPop(c)
      case Closing => c == Close(c.timing)
  {
    hide Inv, Step, Exec;
    var k := QueueCallsHaveTheirEffect(w, schedule, t, i);
    var c := w.threads[t].calls[i];
    assert QueueCall(c);
    if IsPush(c) {
      var x :| c == Push(x, c.timing);
    }
  }

  lemma {:induction false} PushesCount<T>(log: seq<QueueResult<T>>, x: T)
    ensures multiset(Pushes(log))[x] == Times(log, Pushed(x))
  {
    if log != [] {
      PushesCount(log[..|log| - 1], x);
    }
  }

  /**
    The pushed sequence is made of the items of push calls, one for each call that succeeded: every item occurs in it
    as often as calls have returned it as pushed.
   */
  lemma PushedOncePerCall<T(!new)>(w: World<QueueState<T>, QueueResult<T>>, schedule: seq<Event>, x: T)
    requires NewQueue(w) && Exec(w, schedule).Some?
    ensures var v := Exec(w, schedule).value;
      multiset(Pushes(v.log))[x] == Sum(AllReturns(v, Pushed(x)))
  {
    LogIsWhatCallsReturn(w, schedule, Pushed(x));
    PushesCount(Exec(w, schedule).value.log, x);
  }

  // ---- A timed pop ------------------------------------------------------------------------------------

  /** Thread `t` is at `p` of a pop that may take `timeout`, on an empty open queue; all others have not begun. */
  ghost predicate PoppingAt<T(!new)>(
      u: World<QueueState<T>, QueueResult<T>>, t: nat, timeout: nat, p: Phase, timer: Timer, start: nat, clock: nat) {
    && u.data.items == [] && !u.data.closed && u.clock == clock && start + timeout <= u.horizon && t < |u.threads|
    && u.owner == (if HoldsLock(p) then Some(t) else None)
    && var th := u.threads[t];
    && th.calls != [] && th.calls[0] == Pop(Relative(timeout)) && th.phase == p && th.timer == timer
    && th.outcomes == [] && (p.Idle? || p.Sampling? || th.started == start)
  }

  lemma Extend<T(!new)>(w: World<QueueState<T>, QueueResult<T>>, s: seq<Event>, u: World<QueueState<T>, QueueResult<T>>,
                        e: Event) returns (r: seq<Event>, v: World<QueueState<T>, QueueResult<T>>)
    requires Exec(w, s) == Some(u) && Step(u, e).Some?
    ensures r == s + [e] && Exec(w, r) == Some(v) && Step(u, e) == Some(v)
  {
    hide Step;
    r := s + [e];
    v := Step(u, e).value;
    assert r[..|s|] == s;
  }

  lemma PopBegins<T(!new)>(w: World<QueueState<T>, QueueResult<T>>, t: nat, timeout: nat)
      returns (r: seq<Event>, v: World<QueueState<T>, QueueResult<T>>)
    requires PoppingAt(w, t, timeout, Idle, NoTimer, w.clock, w.clock)
    ensures Exec(w, r) == Some(v) && PoppingAt(v, t, timeout, Arming, NoTimer, w.clock, w.clock)
  {
    r, v := Extend(w, [], w, Run(t, true));
    assert PoppingAt(v, t, timeout, Sampling, NoTimer, w.clock, w.clock);
    r, v := Extend(w, r, v, Run(t, true));
    assert PoppingAt(v, t, timeout, Checking(true, false), NoTimer, w.clock, w.clock);
    r, v := PopBlocks(w, r, v, t, timeout);
  }

  lemma PopBlocks<T(!new)>(w: World<QueueState<T>, QueueResult<T>>, s: seq<Event>,
                           u: World<QueueState<T>, QueueResult<T>>, t: nat, timeout: nat)
      returns (r: seq<Event>, v: World<QueueState<T>, QueueResult<T>>)
    requires Exec(w, s) == Some(u)
    requires PoppingAt(u, t, timeout, Checking(true, false), NoTimer, w.clock, w.clock)
    ensures Exec(w, r) == Some(v) && PoppingAt(v, t, timeout, Arming, NoTimer, w.clock, w.clock)
  {
    r, v := Extend(w, s, u, Run(t, true));
  }

  /** The Timer accepts the deadline, time passes, and the TimerFuture completes. */
  lemma PopExpires<T(!new)>(w: World<QueueState<T>, QueueResult<T>>, s: seq<Event>,
                            u: World<QueueState<T>, QueueResult<T>>, t: nat, timeout: nat, start: nat)
      returns (r: seq<Event>, v: World<QueueState<T>, QueueResult<T>>)
    requires Exec(w, s) == Some(u) && timeout > 0 && PoppingAt(u, t, timeout, Arming, NoTimer, start, start)
    ensures Exec(w, r) == Some(v)
    ensures PoppingAt(v, t, timeout, LoopPoll, Timer(start + timeout, Fired(true), None), start, start + timeout)
  {
    r, v := Extend(w, s, u, Run(t, true));
    assert PoppingAt(v, t, timeout, LoopPoll, Timer(start + timeout, Armed, None), start, start);
    r, v := Extend(w, r, v, Tick(timeout));
    assert PoppingAt(v, t, timeout, LoopPoll, Timer(start + timeout, Armed, None), start, start + timeout);
    r, v := Extend(w, r, v, Fire(t, true));
  }

  lemma PopEnds<T(!new)>(w: World<QueueState<T>, QueueResult<T>>, s: seq<Event>,
                         u: World<QueueState<T>, QueueResult<T>>, t: nat, timeout: nat, start: nat)
      returns (r: seq<Event>, v: World<QueueState<T>, QueueResult<T>>)
    requires Exec(w, s) == Some(u)
    requires PoppingAt(u, t, timeout, LoopPoll, Timer(start + timeout, Fired(true), None), start, start + timeout)
    ensures Exec(w, r) == Some(v) && t < |v.threads| && v.threads[t].outcomes == [TimedOut]
    ensures v.clock == start + timeout
  {
    r, v := Extend(w, s, u, Run(t, true));
    assert PoppingAt(v, t, timeout, Checking(false, true), Timer(start + timeout, Spent(true), None), start,
                     start + timeout);
    r, v := Extend(w, r, v, Run(t, true));
  }

  /**
    A timed pop on an empty open queue times out once its timeout has passed, at once if that is zero: there is a
    schedule that ends it so at exactly that instant.
   */
  lemma PopForTimesOut<T(!new)>(w: World<QueueState<T>, QueueResult<T>>, t: nat, timeout: nat) returns (r: seq<Event>)
    requires NewQueue(w) && t < |w.threads| && w.clock + timeout <= w.horizon
    requires w.threads[t].calls != [] && w.threads[t].calls[0] == Pop(Relative(timeout))
    ensures Exec(w, r).Some?
    ensures var v := Exec(w, r).value;
      t < |v.threads| && v.threads[t].outcomes == [TimedOut] && v.clock == w.clock + timeout
  {
    assert Fresh(w.threads[t]);
    var v;
    r, v := PopBegins(w, t, timeout);
    if timeout == 0 {
      r, v := Extend(w, r, v, Run(t, true));
    } else {
      r, v := PopExpires(w, r, v, t, timeout, w.clock);
      r, v := PopEnds(w, r, v, t, timeout, w.clock);
    }
  }
}
