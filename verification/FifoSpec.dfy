/** What a waiter registry means: a FIFO queue with cancellation by identifier. */
module FifoSpec {
  import opened Basics

  /** Active registrations, oldest first, and the identifiers that left by selection or by cancellation. */
  datatype Fifo<W> = Fifo(next: nat, active: seq<(nat, W)>, selected: seq<nat>, cancelled: set<nat>)

  datatype Op<W> = Enrol(waiter: W) | First | Every | Withdraw(id: nat)

  /** `NoIdentifier` is the panic of a registration that finds no identifier left. */
  datatype Reply<W> = Registered(id: nat) | NoIdentifier | Taken(waiters: seq<W>) | Removed(waiter: Option<W>)

  function Empty<W>(): Fifo<W> {
    Fifo(1, [], [], {})
  }

  function Ids<W>(s: seq<(nat, W)>): (ids: seq<nat>)
    ensures |ids| == |s| && forall i :: 0 <= i < |s| ==> ids[i] == s[i].0
  {
    seq(|s|, i requires 0 <= i < |s| => s[i].0)
  }

  function Waiters<W>(s: seq<(nat, W)>): (waiters: seq<W>)
    ensures |waiters| == |s| && forall i :: 0 <= i < |s| ==> waiters[i] == s[i].1
  {
    seq(|s|, i requires 0 <= i < |s| => s[i].1)
  }

  function Position<W>(s: seq<(nat, W)>, id: nat): (k: nat)
    ensures k <= |s| && (k < |s| ==> s[k].0 == id) && forall i :: 0 <= i < k ==> s[i].0 != id
  {
    if s == [] || s[0].0 == id then 0 else 1 + Position(s[1..], id)
  }

  function Apply<W>(q: Fifo<W>, op: Op<W>): (Fifo<W>, Reply<W>) {
    match op
    case Enrol(waiter) =>
      if q.next >= MAX_ID then (q, NoIdentifier)
      else (q.(next := q.next + 1, active := q.active + [(q.next, waiter)]), Registered(q.next))
    case First =>
      if q.active == [] then (q, Taken([]))
      else (q.(active := q.active[1..], selected := q.selected + [q.active[0].0]), Taken([q.active[0].1]))
    case Every =>
      (q.(active := [], selected := q.selected + Ids(q.active)), Taken(Waiters(q.active)))
    case Withdraw(id) =>
      var k := Position(q.active, id);
      if k == |q.active| then (q, Removed(None))
      else
        var rest := q.active[..k] + q.active[k + 1..];
        (q.(active := rest, cancelled := q.cancelled + {id}), Removed(Some(q.active[k].1)))
  }

  predicate Ascending(s: seq<nat>) {
    forall i, j :: 0 <= i < j < |s| ==> s[i] < s[j]
  }

  /**
    Identifiers 1, 2, ... in order of registration. Each is active, selected or cancelled, and only one of these;
    selections happen in registration order, and everything still active is younger than everything selected.
   */
  ghost predicate Lawful<W>(q: Fifo<W>) {
    1 <= q.next <= MAX_ID && Partition(q.selected + Ids(q.active), q.cancelled, q.next)
  }

  ghost predicate Partition(all: seq<nat>, cancelled: set<nat>, next: nat) {
    && Ascending(all)
    && (forall id :: (1 <= id < next) <==> (id in all || id in cancelled))
    && (forall id :: id in cancelled ==> id !in all)
    && |all| + |cancelled| == next - 1
  }

  lemma CutAscending(all: seq<nat>, m: nat)
    requires Ascending(all) && m < |all|
    ensures var rest := all[..m] + all[m + 1..];
      Ascending(rest) && forall x :: x in rest <==> x in all && x != all[m]
  {
    assert all == all[..m] + [all[m]] + all[m + 1..];
  }

  lemma EnrolKeepsLawful<W>(q: Fifo<W>, waiter: W)
    requires Lawful(q)
    ensures Lawful(Apply(q, Enrol(waiter)).0)
  {
    var all, v := q.selected + Ids(q.active), Apply(q, Enrol(waiter)).0;
    if q.next < MAX_ID {
      assert v.selected + Ids(v.active) == all + [q.next];
      assert forall i :: 0 <= i < |all| ==> all[i] in all;
    }
  }

  lemma IdsCut<W>(s: seq<(nat, W)>, k: nat)
    requires k < |s|
    ensures Ids(s[..k] + s[k + 1..]) == Ids(s)[..k] + Ids(s)[k + 1..]
  {
  }

  /** Moving one identifier from the ordered ones to the cancelled ones keeps the partition. */
  lemma WithdrawMoves(all: seq<nat>, cancelled: set<nat>, m: nat, next: nat)
    requires Partition(all, cancelled, next) && m < |all|
    ensures Partition(all[..m] + all[m + 1..], cancelled + {all[m]}, next)
  {
    CutAscending(all, m);
  }

  lemma WithdrawIds<W>(q: Fifo<W>, k: nat)
    requires k < |q.active|
    ensures var all, m := q.selected + Ids(q.active), |q.selected| + k;
      q.selected + Ids(q.active[..k] + q.active[k + 1..]) == all[..m] + all[m + 1..]
  {
    IdsCut(q.active, k);
  }

  lemma CutKeepsLawful<W>(q: Fifo<W>, k: nat)
    requires Lawful(q) && k < |q.active|
    ensures Lawful(q.(active := q.active[..k] + q.active[k + 1..], cancelled := q.cancelled + {q.active[k].0}))
  {
    var all, m := q.selected + Ids(q.active), |q.selected| + k;
    WithdrawMoves(all, q.cancelled, m, q.next);
    WithdrawIds(q, k);
    assert all[m] == q.active[k].0;
  }

  lemma WithdrawKeepsLawful<W>(q: Fifo<W>, id: nat)
    requires Lawful(q)
    ensures Lawful(Apply(q, Withdraw(id)).0)
  {
    if Position(q.active, id) < |q.active| {
      CutKeepsLawful(q, Position(q.active, id));
    }
  }

  lemma ApplyKeepsLawful<W>(q: Fifo<W>, op: Op<W>)
    requires Lawful(q)
    ensures Lawful(Apply(q, op).0)
  {
    match op
    case Enrol(waiter) => EnrolKeepsLawful(q, waiter);
    case Withdraw(id) => WithdrawKeepsLawful(q, id);
    case _ =>
      var v := Apply(q, op).0;
      assert v.selected + Ids(v.active) == q.selected + Ids(q.active);
  }

  /** A registry after a sequence of operations, with their replies. */
  function Replay<W>(ops: seq<Op<W>>): (Fifo<W>, seq<Reply<W>>) {
    if ops == [] then (Empty(), [])
    else
      var (q, replies) := Replay(ops[..|ops| - 1]);
      var (v, reply) := Apply(q, ops[|ops| - 1]);
      (v, replies + [reply])
  }

  function Registrations<W>(replies: seq<Reply<W>>): nat {
    if replies == [] then 0
    else Registrations(replies[..|replies| - 1]) + if replies[|replies| - 1].Registered? then 1 else 0
  }

  function Attempts<W>(ops: seq<Op<W>>): nat {
    if ops == [] then 0 else Attempts(ops[..|ops| - 1]) + if ops[|ops| - 1].Enrol? then 1 else 0
  }

  /**
    For every sequence of operations: identifiers are consecutive, selection is FIFO, and registered = active +
    selected + cancelled. The first 2^64 - 2 registrations succeed, and no other.
   */
  lemma {:induction false} RegistryLaw<W>(ops: seq<Op<W>>)
    ensures var (q, replies) := Replay(ops);
      && Lawful(q) && |replies| == |ops|
      && Registrations(replies) == q.next - 1 == |q.active| + |q.selected| + |q.cancelled|
      && Registrations(replies) ==
         if Attempts(ops) < 0x1_0000_0000_0000_0000 - 2 then Attempts(ops) else 0x1_0000_0000_0000_0000 - 2
  {
    if ops != [] {
      var k := |ops| - 1;
      RegistryLaw(ops[..k]);
      var (q, replies) := Replay(ops[..k]);
      ApplyKeepsLawful(q, ops[k]);
      assert Replay(ops).1[..k] == replies;
    }
  }

  // ---- Which waiters are handed out -------------------------------------------------------------------

  /** The waiters of all successful registrations, in order: identifier `k` belongs to entry `k - 1`. */
  function Enrolled<W>(ops: seq<Op<W>>, replies: seq<Reply<W>>): seq<W>
    requires |ops| == |replies|
  {
    if ops == [] then []
    else
      var k := |ops| - 1;
      Enrolled(ops[..k], replies[..k]) + if ops[k].Enrol? && replies[k].Registered? then [ops[k].waiter] else []
  }

  /** Everything that notifications have taken out, in order. */
  function Delivered<W>(replies: seq<Reply<W>>): seq<W> {
    if replies == [] then []
    else
      var k := |replies| - 1;
      Delivered(replies[..k]) + if replies[k].Taken? then replies[k].waiters else []
  }

  /** The registry agrees with what was registered: entry by entry, and for everything handed out so far. */
  ghost predicate Faithful<W>(q: Fifo<W>, enrolled: seq<W>, delivered: seq<W>) {
    && |enrolled| == q.next - 1 && |delivered| == |q.selected|
    && (forall i :: 0 <= i < |q.active| ==> Belongs(enrolled, q.active[i].0, q.active[i].1))
    && (forall i :: 0 <= i < |delivered| ==> Belongs(enrolled, q.selected[i], delivered[i]))
  }

  ghost predicate Belongs<W>(enrolled: seq<W>, id: nat, waiter: W) {
    1 <= id <= |enrolled| && enrolled[id - 1] == waiter
  }

  lemma EnrolKeepsFaithful<W>(q: Fifo<W>, waiter: W, enrolled: seq<W>, delivered: seq<W>)
    requires Faithful(q, enrolled, delivered) && q.next >= 1
    ensures var (v, reply) := Apply(q, Enrol(waiter));
      Faithful(v, enrolled + if reply.Registered? then [waiter] else [], delivered)
  {
    forall id, x | Belongs(enrolled, id, x)
      ensures Belongs(enrolled + [waiter], id, x)
    {
    }
  }

  lemma FirstKeepsFaithful<W>(q: Fifo<W>, enrolled: seq<W>, delivered: seq<W>)
    requires Faithful(q, enrolled, delivered)
    ensures Faithful(Apply(q, First).0, enrolled, delivered + Apply(q, First).1.waiters)
  {
    if q.active != [] { assert Belongs(enrolled, q.active[0].0, q.active[0].1); }
  }

  lemma EveryKeepsFaithful<W>(q: Fifo<W>, enrolled: seq<W>, delivered: seq<W>)
    requires Faithful(q, enrolled, delivered)
    ensures Faithful(Apply(q, Every).0, enrolled, delivered + Waiters(q.active))
  {
    var v, more := Apply(q, Every).0, delivered + Waiters(q.active);
    forall i | 0 <= i < |more|
      ensures Belongs(enrolled, v.selected[i], more[i])
    {
      if i >= |delivered| { assert Belongs(enrolled, q.active[i - |delivered|].0, q.active[i - |delivered|].1); }
    }
  }

  lemma WithdrawKeepsFaithful<W>(q: Fifo<W>, id: nat, enrolled: seq<W>, delivered: seq<W>)
    requires Faithful(q, enrolled, delivered)
    ensures var (v, reply) := Apply(q, Withdraw(id));
      && Faithful(v, enrolled, delivered) && (reply.waiter.Some? ==> Belongs(enrolled, id, reply.waiter.value))
      && (reply.waiter.Some? <==> id in Ids(q.active))
  {
    var k := Position(q.active, id);
    if k < |q.active| { assert Ids(q.active)[k] == id && Belongs(enrolled, q.active[k].0, q.active[k].1); }
  }

  lemma ApplyKeepsFaithful<W>(q: Fifo<W>, op: Op<W>, enrolled: seq<W>, delivered: seq<W>)
    requires Lawful(q) && Faithful(q, enrolled, delivered)
    ensures var (v, reply) := Apply(q, op);
      && Faithful(v, enrolled + if op.Enrol? && reply.Registered? then [op.waiter] else [],
                  delivered + if reply.Taken? then reply.waiters else [])
      && (op.Withdraw? ==>
            reply.Removed? && (reply.waiter.Some? <==> op.id in Ids(q.active))
            && (reply.waiter.Some? ==> Belongs(enrolled, op.id, reply.waiter.value)))
  {
    assert q.next >= 1 && enrolled + [] == enrolled && delivered + [] == delivered;
    hide Lawful, Faithful;
    match op
    case Enrol(waiter) => EnrolKeepsFaithful(q, waiter, enrolled, delivered);
    case First => FirstKeepsFaithful(q, enrolled, delivered);
    case Every => EveryKeepsFaithful(q, enrolled, delivered);
    case Withdraw(id) => WithdrawKeepsFaithful(q, id, enrolled, delivered);
  }

  /**
    For every sequence of operations: the waiters handed out are those registered, each under its own identifier,
    in registration order, and each at most once.
   */
  lemma {:induction false} HandsOutInOrder<W>(ops: seq<Op<W>>)
    ensures var (q, replies) := Replay(ops);
      && |replies| == |ops| && Lawful(q) && Ascending(q.selected)
      && Faithful(q, Enrolled(ops, replies), Delivered(replies))
  {
    RegistryLaw(ops);
    var (v, all) := Replay(ops);
    assert forall i :: 0 <= i < |v.selected| ==> (v.selected + Ids(v.active))[i] == v.selected[i];
    if ops != [] {
      var k := |ops| - 1;
      HandsOutInOrder(ops[..k]);
      var (q, replies) := Replay(ops[..k]);
      ApplyKeepsFaithful(q, ops[k], Enrolled(ops[..k], replies), Delivered(replies));
      assert all[..k] == replies;
    }
  }
}
