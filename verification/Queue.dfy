/** The closable bounded queue as a client of the blocking monitor. */
module Queue {
  import opened Basics
  import opened Protocol
  import opened Invariants
  import opened Wakeup

  datatype QueueState<T> = QueueState(items: seq<T>, capacity: nat, closed: bool)

  /** What an action returns: `Ok(())` or `Err(item)` of push, `Some(item)` or `None` of pop, and close. */
  datatype QueueResult<T> = Pushed(item: T) | Refused(item: T) | Removed(item: T) | Drained | Closing

  function Push<T>(item: T, timing: Timing): Call<QueueState<T>, QueueResult<T>> {
    Call(Blocking, timing,
         (q: QueueState<T>) => !(q.closed || |q.items| < q.capacity),
         (q: QueueState<T>) => if q.closed then (q, Refused(item)) else (q.(items := q.items + [item]), Pushed(item)),
         (r: QueueResult<T>) => if r.Pushed? then All else Silent)
  }

  function Pop<T>(timing: Timing): Call<QueueState<T>, QueueResult<T>> {
    Call(Blocking, timing,
         (q: QueueState<T>) => !(q.closed || q.items != []),
         (q: QueueState<T>) => if q.items == [] then (q, Drained) else (q.(items := q.items[1..]), Removed(q.items[0])),
         (r: QueueResult<T>) => if r.Removed? then All else Silent)
  }

  function Close<T>(timing: Timing): Call<QueueState<T>, QueueResult<T>> {
    Call(Blocking, timing,
         (q: QueueState<T>) => false,
         (q: QueueState<T>) => (q.(closed := true), Closing),
         (r: QueueResult<T>) => All)
  }

  ghost predicate IsPush<T(!new)>(c: Call<QueueState<T>, QueueResult<T>>) {
    exists item: T :: c == Push(item, c.timing)
  }

  ghost predicate IsPop<T>(c: Call<QueueState<T>, QueueResult<T>>) {
    c == Pop(c.timing)
  }

  ghost predicate QueueCall<T(!new)>(c: Call<QueueState<T>, QueueResult<T>>) {
    IsPush(c) || IsPop(c) || c == Close(c.timing)
  }

  /** A new queue with any number of threads, each making any finite sequence of queue calls. */
  ghost predicate NewQueue<T(!new)>(w: World<QueueState<T>, QueueResult<T>>) {
    && Initial(w) && w.data.items == [] && w.data.capacity > 0 && !w.data.closed
    && QueueCalls(w)
  }

  ghost predicate QueueCalls<T(!new)>(w: World<QueueState<T>, QueueResult<T>>) {
    forall t, i :: 0 <= t < |w.threads| && 0 <= i < |w.threads[t].calls| ==> QueueCall(w.threads[t].calls[i])
  }

  // ---- History ----------------------------------------------------------------------------------------

  function Pushes<T>(log: seq<QueueResult<T>>): seq<T> {
    if log == [] then []
    else Pushes(log[..|log| - 1]) + var r := log[|log| - 1]; if r.Pushed? then [r.item] else []
  }

  function Pops<T>(log: seq<QueueResult<T>>): seq<T> {
    if log == [] then []
    else Pops(log[..|log| - 1]) + var r := log[|log| - 1]; if r.Removed? then [r.item] else []
  }

  /**
    A history a bounded FIFO queue can have: after every prefix, what was pushed is what was popped followed by
    what the queue holds; never more than `capacity` items; no push after a close; `None` only when closed and empty.
   */
  ghost predicate Legal<T>(log: seq<QueueResult<T>>, capacity: nat) {
    forall k :: 0 <= k <= |log| ==> LegalAt(log, k, capacity)
  }

  ghost predicate LegalAt<T>(log: seq<QueueResult<T>>, k: nat, capacity: nat)
    requires k <= |log|
  {
    && Pops(log[..k]) <= Pushes(log[..k])
    && |Pushes(log[..k])| - |Pops(log[..k])| <= capacity
    && (k < |log| ==>
          match log[k]
          case Pushed(_) => Closing !in log[..k]
          case Refused(_) => Closing in log[..k]
          case Drained => Closing in log[..k] && Pushes(log[..k]) == Pops(log[..k])
          case _ => true)
  }

  ghost predicate HistoryInv<T>(q: QueueState<T>, log: seq<QueueResult<T>>, capacity: nat) {
    && q.capacity == capacity
    && Pushes(log) == Pops(log) + q.items
    && (q.closed <==> Closing in log)
    && |q.items| <= capacity
    && Legal(log, capacity)
  }

  /** What the step that ends `c` with `r` does to the queue. */
  ghost predicate Effect<T(!new)>(
      c: Call<QueueState<T>, QueueResult<T>>, r: QueueResult<T>, before: QueueState<T>, after: QueueState<T>) {
    && after.capacity == before.capacity
    && (after.closed <==> before.closed || c == Close(c.timing))
    && (forall x: T :: c == Push(x, c.timing) ==> PushEffect(x, r, before, after))
    && (IsPop(c) ==> PopEffect(r, before, after))
    && (c == Close(c.timing) ==> r == Closing && after.items == before.items)
  }

  ghost predicate PushEffect<T>(x: T, r: QueueResult<T>, before: QueueState<T>, after: QueueState<T>) {
    if before.closed then r == Refused(x) && after.items == before.items
    else r == Pushed(x) && |before.items| < before.capacity && after.items == before.items + [x]
  }

  ghost predicate PopEffect<T>(r: QueueResult<T>, before: QueueState<T>, after: QueueState<T>) {
    if before.items == [] then r == Drained && before.closed && after.items == []
    else r == Removed(before.items[0]) && after.items == before.items[1..]
  }

  lemma CloseIsNeither<T(!new)>(c: Call<QueueState<T>, QueueResult<T>>)
    requires c == Close(c.timing)
    ensures !IsPush(c) && !IsPop(c)
  {
    var full: QueueState<T> := QueueState([], 0, false);
    assert Pop<T>(c.timing).waiting(full);
    assert forall x: T :: Push(x, c.timing).waiting(full);
    assert !Close<T>(c.timing).waiting(full);
  }

  lemma ActionEffect<T(!new)>(c: Call<QueueState<T>, QueueResult<T>>, q: QueueState<T>)
    requires QueueCall(c) && !c.waiting(q)
    ensures Effect(c, c.action(q).1, q, c.action(q).0)
  {
    if c == Close(c.timing) { CloseIsNeither(c); }
    PushIsNotPop(c);
    forall x: T | c == Push(x, c.timing)
      ensures PushEffect(x, c.action(q).1, q, c.action(q).0)
    {
    }
  }

  /** A queue call extends the history by its own result, and has its own effect. */
  lemma ActionKeepsHistory<T(!new)>(
      q: QueueState<T>, log: seq<QueueResult<T>>, capacity: nat, c: Call<QueueState<T>, QueueResult<T>>)
    requires HistoryInv(q, log, capacity) && QueueCall(c) && !c.waiting(q)
    ensures HistoryInv(c.action(q).0, log + [c.action(q).1], capacity)
    ensures Effect(c, c.action(q).1, q, c.action(q).0)
  {
    hide Effect;
    ActionEffect(c, q);
    var r := c.action(q).1;
    var next := log + [r];
    assert next[..|log|] == log;
    assert LegalAt(log, |log|, capacity) && log[..|log|] == log;
    forall k | 0 <= k <= |next|
      ensures LegalAt(next, k, capacity)
    {
      if k <= |log| {
        assert LegalAt(log, k, capacity) && next[..k] == log[..k];
      } else {
        assert next[..k] == next;
      }
    }
  }

  lemma QueueCallSameCode<T(!new)>(c: Call<QueueState<T>, QueueResult<T>>, d: Call<QueueState<T>, QueueResult<T>>)
    requires QueueCall(d) && SameCode(c, d)
    ensures QueueCall(c)
  {
    if IsPush(d) {
      var item :| d == Push(item, d.timing);
      assert c == Push(item, c.timing);
    }
  }

  lemma StepKeepsCalls<T(!new)>(w: World<QueueState<T>, QueueResult<T>>, e: Event)
    requires Inv(w) && QueueCalls(w) && Step(w, e).Some?
    ensures QueueCalls(Step(w, e).value)
  {
    var v := Step(w, e).value;
    StepIsGood(w, e);
    forall t, i | 0 <= t < |v.threads| && 0 <= i < |v.threads[t].calls|
      ensures QueueCall(v.threads[t].calls[i])
    {
      if Mover(e).None? { assert AmbientThread(w, v, t); }
      var k := CallBefore(w.threads[t], v.threads[t], w.clock, w.horizon, i);
      QueueCallSameCode(v.threads[t].calls[i], w.threads[t].calls[k]);
    }
  }

  lemma StepKeepsHistory<T(!new)>(w: World<QueueState<T>, QueueResult<T>>, e: Event, capacity: nat)
    requires Inv(w) && QueueCalls(w) && HistoryInv(w.data, w.log, capacity) && Step(w, e).Some?
    ensures HistoryInv(Step(w, e).value.data, Step(w, e).value.log, capacity)
  {
    StepIsGood(w, e);
    if Mover(e).Some? && Acts(w, Mover(e).value) {
      ActionKeepsHistory(w.data, w.log, capacity, w.threads[Mover(e).value].calls[0]);
    }
  }

  /**
    Queue history, over all interleavings: the queue is a bounded FIFO. At every moment the items pushed so far are
    the items popped so far followed by the items held, at most `capacity` of them; no push succeeds after a close;
    a pop returns `None` only on a closed, empty queue.
   */
  lemma {:induction false} QueueHistory<T(!new)>(w: World<QueueState<T>, QueueResult<T>>, schedule: seq<Event>)
    requires NewQueue(w) && Exec(w, schedule).Some?
    ensures var v := Exec(w, schedule).value;
      HistoryInv(v.data, v.log, w.data.capacity) && QueueCalls(v) && Inv(v)
    decreases |schedule|
  {
    ReachableInv(w, schedule);
    if schedule != [] {
      var k := |schedule| - 1;
      QueueHistory(w, schedule[..k]);
      StepKeepsCalls(Exec(w, schedule[..k]).value, schedule[k]);
      StepKeepsHistory(Exec(w, schedule[..k]).value, schedule[k], w.data.capacity);
    }
  }

  // ---- Quiescence -------------------------------------------------------------------------------------

  lemma QueueAnnounces<T(!new)>(c: Call<QueueState<T>, QueueResult<T>>, d: Call<QueueState<T>, QueueResult<T>>)
    requires QueueCall(c) && QueueCall(d)
    ensures Announces(c, d)
  {
    forall s | !c.waiting(s) && d.waiting(s) && !d.waiting(c.action(s).0)
      ensures c.note(c.action(s).1) == All
    {
      assert c.action(s).0 != s;
    }
  }

  lemma QueueIsDisciplined<T(!new)>(w: World<QueueState<T>, QueueResult<T>>)
    requires QueueCalls(w)
    ensures Disciplined(w)
  {
    forall t, u, i, j |
      && 0 <= t < |w.threads| && 0 <= u < |w.threads|
      && 0 <= i < |w.threads[t].calls| && 0 <= j < |w.threads[u].calls|
      ensures Announces(w.threads[t].calls[i], w.threads[u].calls[j])
    {
      QueueAnnounces(w.threads[t].calls[i], w.threads[u].calls[j]);
    }
  }

  /**
    When no thread can step, whoever has not returned is parked in a push on a full open queue, or in a pop on an
    empty open queue. So producers and consumers are never parked together, and nobody is parked after a close.
   */
  lemma QueueQuiescence<T(!new)>(w: World<QueueState<T>, QueueResult<T>>, schedule: seq<Event>, t: nat)
    requires NewQueue(w) && Exec(w, schedule).Some?
    requires Quiescent(Exec(w, schedule).value) && t < |Exec(w, schedule).value.threads|
    requires !Finished(Exec(w, schedule).value.threads[t])
    ensures var v := Exec(w, schedule).value;
      var th := v.threads[t];
      && th.phase.Parked? && th.calls != [] && !v.data.closed && v.data.capacity > 0
      && (|| (IsPush(th.calls[0]) && |v.data.items| == v.data.capacity)
          || (IsPop(th.calls[0]) && v.data.items == []))
  {
    QueueHistory(w, schedule);
    QueueIsDisciplined(w);
    NoLostWakeup(w, schedule, t);
    assert QueueCall(Exec(w, schedule).value.threads[t].calls[0]);
  }

  lemma NeverBothParked<T(!new)>(w: World<QueueState<T>, QueueResult<T>>, schedule: seq<Event>, t: nat, u: nat)
    requires NewQueue(w) && Exec(w, schedule).Some? && Quiescent(Exec(w, schedule).value)
    requires var v := Exec(w, schedule).value;
      && t < |v.threads| && u < |v.threads| && !Finished(v.threads[t]) && !Finished(v.threads[u])
    ensures var v := Exec(w, schedule).value;
      && v.threads[t].calls != [] && v.threads[u].calls != []
      && (IsPush(v.threads[t].calls[0]) <==> IsPush(v.threads[u].calls[0]))
  {
    QueueQuiescence(w, schedule, t);
    QueueQuiescence(w, schedule, u);
    PushIsNotPop(Exec(w, schedule).value.threads[t].calls[0]);
    PushIsNotPop(Exec(w, schedule).value.threads[u].calls[0]);
  }

  lemma PushIsNotPop<T(!new)>(c: Call<QueueState<T>, QueueResult<T>>)
    ensures !(IsPush(c) && IsPop(c))
  {
    var empty: QueueState<T> := QueueState([], 1, false);
    if IsPush(c) {
      var item :| c == Push(item, c.timing);
      assert !Push(item, c.timing).waiting(empty);
      assert Pop<T>(c.timing).waiting(empty);
    }
  }
}
