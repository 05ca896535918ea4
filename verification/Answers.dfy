/**
  What a caller may expect of every answer of a waiter registry, in terms of the operations before it alone. The
  reference knows no queue: it says of each identifier whether it has been given out, and whether it is still alive.
 */
module Answers {
  import opened Basics
  import opened FifoSpec

  /** The waiters that identifiers 1, 2, ... were given to; a 64-bit counter that starts at 1 has 2^64 - 2 of them. */
  function Roll<W>(ops: seq<Op<W>>): seq<W> {
    if ops == [] then []
    else
      var k := |ops| - 1;
      var roll := Roll(ops[..k]);
      if ops[k].Enrol? && |roll| < 0x1_0000_0000_0000_0000 - 2 then roll + [ops[k].waiter] else roll
  }

  /** The identifier `id` has been given out and has neither been selected nor cancelled since. */
  ghost predicate Alive<W>(ops: seq<Op<W>>, id: nat)
    decreases |ops|, 0
  {
    ops != [] &&
    var k := |ops| - 1;
    var before := ops[..k];
    match ops[k]
    case Enrol(_) => Alive(before, id) || (|Roll(before)| < |Roll(ops)| && id == |Roll(ops)|)
    case First => Alive(before, id) && !Oldest(before, id)
    case Every => false
    case Withdraw(x) => Alive(before, id) && id != x
  }

  ghost predicate Oldest<W>(ops: seq<Op<W>>, id: nat)
    decreases |ops|, 1
  {
    Alive(ops, id) && forall j: nat :: j < id ==> !Alive(ops, j)
  }

  /** The right answer to `op` after the operations `before`. */
  ghost predicate Right<W>(before: seq<Op<W>>, op: Op<W>, reply: Reply<W>) {
    var roll := Roll(before);
    match op
    case Enrol(_) =>
      reply == if |roll| < 0x1_0000_0000_0000_0000 - 2 then Registered(|roll| + 1) else NoIdentifier
    case First =>
      reply.Taken? &&
      if reply.waiters == [] then forall id: nat :: !Alive(before, id)
      else |reply.waiters| == 1 && exists id: nat :: Oldest(before, id) && Belongs(roll, id, reply.waiters[0])
    case Every =>
      reply.Taken? && exists ids: seq<nat> :: Lists(before, ids) && AllBelong(roll, ids, reply.waiters)
    case Withdraw(id) =>
      reply.Removed? &&
      if Alive(before, id) then reply.waiter.Some? && Belongs(roll, id, reply.waiter.value) else reply.waiter.None?
  }

  /** `ids` are the identifiers that are alive, oldest first. */
  ghost predicate Lists<W>(ops: seq<Op<W>>, ids: seq<nat>) {
    Ascending(ids) && forall id: nat :: id in ids <==> Alive(ops, id)
  }

  ghost predicate AllBelong<W>(roll: seq<W>, ids: seq<nat>, waiters: seq<W>) {
    |waiters| == |ids| && forall i :: 0 <= i < |ids| ==> Belongs(roll, ids[i], waiters[i])
  }

  // ---- The queue gives these answers ------------------------------------------------------------------

  /** The queue `q` after the operations `ops`, as the reference sees it. */
  ghost predicate Known<W>(q: Fifo<W>, ops: seq<Op<W>>) {
    && Lawful(q) && q.next == |Roll(ops)| + 1
    && Lists(ops, Ids(q.active)) && AllBelong(Roll(ops), Ids(q.active), Waiters(q.active))
  }

  lemma OldestIsFirst<W>(ops: seq<Op<W>>, ids: seq<nat>)
    requires Lists(ops, ids)
    ensures forall id: nat :: Oldest(ops, id) <==> ids != [] && id == ids[0]
  {
    if ids != [] {
      assert ids[0] in ids;
      forall j: nat | j < ids[0]
        ensures !Alive(ops, j)
      {
        assert j !in ids;
      }
    }
  }

  lemma EnrolIsRight<W>(q: Fifo<W>, ops: seq<Op<W>>, waiter: W)
    requires Known(q, ops)
    ensures Right(ops, Enrol(waiter), Apply(q, Enrol(waiter)).1)
    ensures Known(Apply(q, Enrol(waiter)).0, ops + [Enrol(waiter)])
  {
    var all, v := ops + [Enrol(waiter)], Apply(q, Enrol(waiter)).0;
    assert all[..|ops|] == ops;
    ApplyKeepsLawful(q, Enrol(waiter));
    if |Roll(ops)| < 0x1_0000_0000_0000_0000 - 2 {
      assert Ids(v.active) == Ids(q.active) + [q.next] && Waiters(v.active) == Waiters(q.active) + [waiter];
      EnrolledLists(ops, waiter, Ids(q.active), q.next);
    }
  }

  lemma EnrolledLists<W>(ops: seq<Op<W>>, waiter: W, ids: seq<nat>, next: nat)
    requires Lists(ops, ids) && |Roll(ops)| < 0x1_0000_0000_0000_0000 - 2 && next == |Roll(ops)| + 1
    requires forall i :: 0 <= i < |ids| ==> ids[i] < next
    ensures Lists(ops + [Enrol(waiter)], ids + [next])
  {
    var all := ops + [Enrol(waiter)];
    assert all[..|ops|] == ops;
    forall id: nat
      ensures id in ids + [next] <==> Alive(all, id)
    {
      assert Alive(all, id) <==> Alive(ops, id) || id == next;
    }
  }

  lemma FirstIsRight<W>(q: Fifo<W>, ops: seq<Op<W>>)
    requires Known(q, ops)
    ensures Right(ops, First, Apply(q, First).1)
    ensures Known(Apply(q, First).0, ops + [First])
  {
    var all, ids := ops + [First], Ids(q.active);
    assert all[..|ops|] == ops;
    ApplyKeepsLawful(q, First);
    OldestIsFirst(ops, ids);
    if q.active == [] {
      assert forall id: nat :: !Alive(ops, id) by { assert forall id: nat :: id !in ids; }
    } else {
      assert Oldest(ops, ids[0]) && Belongs(Roll(ops), ids[0], Waiters(q.active)[0]);
      assert Ids(q.active[1..]) == ids[1..] && Waiters(q.active[1..]) == Waiters(q.active)[1..];
      assert forall id :: id in ids[1..] <==> id in ids && id != ids[0];
    }
  }

  lemma EveryIsRight<W>(q: Fifo<W>, ops: seq<Op<W>>)
    requires Known(q, ops)
    ensures Right(ops, Every, Apply(q, Every).1)
    ensures Known(Apply(q, Every).0, ops + [Every])
  {
    assert (ops + [Op<W>.Every])[..|ops|] == ops;
    ApplyKeepsLawful(q, Every);
  }

  lemma WithdrawIsRight<W>(q: Fifo<W>, ops: seq<Op<W>>, id: nat)
    requires Known(q, ops)
    ensures Right(ops, Withdraw(id), Apply(q, Withdraw(id)).1)
    ensures Known(Apply(q, Withdraw(id)).0, ops + [Withdraw(id)])
  {
    var all, ids, k := ops + [Op<W>.Withdraw(id)], Ids(q.active), Position(q.active, id);
    assert all[..|ops|] == ops;
    ApplyKeepsLawful(q, Withdraw(id));
    if k < |ids| {
      assert ids[k] == id && Belongs(Roll(ops), ids[k], Waiters(q.active)[k]);
      IdsCut(q.active, k);
      CutAscending(ids, k);
      WithdrawnBelong(q, Roll(ops), k);
    } else {
      assert id !in ids;
    }
  }

  lemma WithdrawnBelong<W>(q: Fifo<W>, roll: seq<W>, k: nat)
    requires k < |q.active| && AllBelong(roll, Ids(q.active), Waiters(q.active))
    ensures var rest := q.active[..k] + q.active[k + 1..]; AllBelong(roll, Ids(rest), Waiters(rest))
  {
    var rest := q.active[..k] + q.active[k + 1..];
    forall i | 0 <= i < |rest|
      ensures Belongs(roll, Ids(rest)[i], Waiters(rest)[i])
    {
      var j := if i < k then i else i + 1;
      assert rest[i] == q.active[j] && Belongs(roll, Ids(q.active)[j], Waiters(q.active)[j]);
    }
  }

  lemma ApplyIsRight<W>(q: Fifo<W>, ops: seq<Op<W>>, op: Op<W>)
    requires Known(q, ops)
    ensures Right(ops, op, Apply(q, op).1) && Known(Apply(q, op).0, ops + [op])
  {
    hide Known, Right;
    match op
    case Enrol(waiter) => EnrolIsRight(q, ops, waiter);
    case First => FirstIsRight(q, ops);
    case Every => EveryIsRight(q, ops);
    case Withdraw(id) => WithdrawIsRight(q, ops, id);
  }

  ghost predicate AllRight<W>(ops: seq<Op<W>>, replies: seq<Reply<W>>) {
    |replies| == |ops| && forall k :: 0 <= k < |ops| ==> Right(ops[..k], ops[k], replies[k])
  }

  lemma OneMoreRight<W>(ops: seq<Op<W>>, op: Op<W>, replies: seq<Reply<W>>, reply: Reply<W>)
    requires AllRight(ops, replies) && Right(ops, op, reply)
    ensures AllRight(ops + [op], replies + [reply])
  {
    hide Right;
    var all, answers := ops + [op], replies + [reply];
    forall k | 0 <= k < |all|
      ensures Right(all[..k], all[k], answers[k])
    {
      if k < |ops| {
        assert all[..k] == ops[..k] && Right(ops[..k], ops[k], replies[k]);
      } else {
        assert all[..k] == ops;
      }
    }
  }

  lemma NoneKnown<W>()
    ensures Known(Empty<W>(), [])
  {
    assert Lists<W>([], []);
  }

  /**
    Every answer of every sequence of operations is right: a registration is refused if and only if all 2^64 - 2
    identifiers are gone and otherwise gets the next one; `take_one` hands out the oldest waiter that is alive,
    `take_all` all of them in order; and a cancellation returns its waiter if and only if it is alive.
   */
  lemma {:induction false} RepliesAreRight<W>(ops: seq<Op<W>>)
    ensures Known(Replay(ops).0, ops) && AllRight(ops, Replay(ops).1)
  {
    hide Known, Right, Apply;
    if ops == [] {
      NoneKnown<W>();
    } else {
      var k := |ops| - 1;
      RepliesAreRight(ops[..k]);
      var (q, replies) := Replay(ops[..k]);
      assert ops[..k] + [ops[k]] == ops;
      ApplyIsRight(q, ops[..k], ops[k]);
      OneMoreRight(ops[..k], ops[k], replies, Apply(q, ops[k]).1);
    }
  }
}
