/** The registry of the monitors: one ordered map from identifiers to waiters. */
module Registry {
  import opened Basics
  import opened FifoSpec

  /** `m` holds exactly the registrations of `s`. */
  ghost predicate Holds<W>(m: map<nat, W>, s: seq<(nat, W)>) {
    && (forall i :: 0 <= i < |s| ==> s[i].0 in m && m[s[i].0] == s[i].1)
    && (forall id :: id in m ==> Position(s, id) < |s|)
  }

  predicate Least(ids: set<nat>, k: nat) {
    k in ids && forall j :: j in ids ==> k <= j
  }

  /** The first key of an ordered map. */
  method LeastKey(ids: set<nat>, ghost k: nat) returns (id: nat)
    requires Least(ids, k)
    ensures id == k
  {
    id :| id in ids && forall j :: j in ids ==> id <= j;
  }

  /** The oldest registration has the least key. */
  lemma OldestFirst<W>(m: map<nat, W>, s: seq<(nat, W)>)
    requires Holds(m, s) && Ascending(Ids(s))
    ensures s != [] ==> Least(m.Keys, s[0].0)
  {
    forall j | j in m.Keys && s != []
      ensures s[0].0 <= j
    {
      assert Ids(s)[Position(s, j)] == j && Ids(s)[0] == s[0].0;
    }
  }

  lemma AscendingTail(s: seq<nat>, r: seq<nat>)
    requires Ascending(s + r)
    ensures Ascending(r) && forall x :: x in r ==> x in s + r
  {
    forall i, j | 0 <= i < j < |r|
      ensures r[i] < r[j]
    {
      assert (s + r)[|s| + i] == r[i] && (s + r)[|s| + j] == r[j];
    }
  }

  /** Every active identifier has been given out already. */
  lemma ActiveIsOld(all: seq<nat>, cancelled: set<nat>, next: nat, id: nat)
    requires Partition(all, cancelled, next) && id in all
    ensures id < next
  {
  }

  lemma ActiveIds<W>(q: Fifo<W>)
    requires Lawful(q)
    ensures Ascending(Ids(q.active)) && Position(q.active, q.next) == |q.active|
  {
    AscendingTail(q.selected, Ids(q.active));
    var k := Position(q.active, q.next);
    if k < |q.active| {
      assert Ids(q.active)[k] == q.next;
      ActiveIsOld(q.selected + Ids(q.active), q.cancelled, q.next, q.next);
    }
  }

  lemma HoldsMore<W>(m: map<nat, W>, s: seq<(nat, W)>, id: nat, w: W)
    requires Holds(m, s) && Position(s, id) == |s|
    ensures Holds(m[id := w], s + [(id, w)])
  {
    var more := s + [(id, w)];
    forall x | x in m[id := w]
      ensures Position(more, x) < |more|
    {
      assert more[if x == id then |s| else Position(s, x)].0 == x;
    }
  }

  lemma HoldsLess<W>(m: map<nat, W>, s: seq<(nat, W)>, k: nat)
    requires Holds(m, s) && Ascending(Ids(s)) && k < |s|
    ensures Holds(m - {s[k].0}, s[..k] + s[k + 1..])
  {
    var rest := s[..k] + s[k + 1..];
    forall i | 0 <= i < |rest|
      ensures rest[i].0 in m && rest[i].0 != s[k].0 && m[rest[i].0] == rest[i].1
    {
      var j := if i < k then i else i + 1;
      assert rest[i] == s[j] && Ids(s)[j] != Ids(s)[k];
    }
    forall x | x in m - {s[k].0}
      ensures Position(rest, x) < |rest|
    {
      var j := Position(s, x);
      assert rest[if j < k then j else j - 1].0 == x;
    }
  }

  /** The entry with the least key is the oldest, and without it the map holds the rest. */
  lemma LeastIsOldest<W>(m: map<nat, W>, s: seq<(nat, W)>)
    requires Holds(m, s) && Ascending(Ids(s)) && m != map[]
    ensures s != [] && Least(m.Keys, s[0].0) && m[s[0].0] == s[0].1
    ensures Holds(m - {s[0].0}, s[1..]) && Ascending(Ids(s[1..]))
  {
    HoldsNone(m, s);
    OldestFirst(m, s);
    HoldsTail(m, s);
  }

  lemma HoldsTail<W>(m: map<nat, W>, s: seq<(nat, W)>)
    requires Holds(m, s) && Ascending(Ids(s)) && s != []
    ensures Holds(m - {s[0].0}, s[1..]) && Ascending(Ids(s[1..]))
  {
    HoldsLess(m, s, 0);
    assert s[..0] + s[0 + 1..] == s[1..];
    forall i, j | 0 <= i < j < |s[1..]|
      ensures Ids(s[1..])[i] < Ids(s[1..])[j]
    {
      assert Ids(s)[i + 1] < Ids(s)[j + 1];
    }
  }

  /** What taking the first entry does to a map that holds the active registrations. */
  lemma OldestEntry<W>(m: map<nat, W>, q: Fifo<W>)
    requires Lawful(q) && Holds(m, q.active)
    ensures Lawful(Apply(q, First).0)
    ensures m == map[] <==> q.active == []
    ensures m != map[] ==> Least(m.Keys, q.active[0].0) && m[q.active[0].0] == q.active[0].1
    ensures m != map[] ==> Holds(m - {q.active[0].0}, Apply(q, First).0.active)
  {
    ApplyKeepsLawful(q, First);
    ActiveIds(q);
    HoldsNone(m, q.active);
    if m != map[] { LeastIsOldest(m, q.active); }
  }

  lemma HeldAt<W>(m: map<nat, W>, s: seq<(nat, W)>, id: nat)
    requires Holds(m, s)
    ensures id in m <==> Position(s, id) < |s|
    ensures id in m ==> m[id] == s[Position(s, id)].1
    ensures id !in m ==> m - {id} == m
  {
  }

  /** What cancelling an identifier does to a map that holds the active registrations. */
  lemma Withdrawn<W>(m: map<nat, W>, q: Fifo<W>, id: nat)
    requires Lawful(q) && Holds(m, q.active)
    ensures var (v, reply) := Apply(q, Withdraw(id));
      && Lawful(v) && v.next == q.next && Holds(m - {id}, v.active)
      && reply == Removed(if id in m then Some(m[id]) else None) && (id !in m ==> m - {id} == m)
  {
    ApplyKeepsLawful(q, Withdraw(id));
    ActiveIds(q);
    HeldAt(m, q.active, id);
    if id in m { HoldsLess(m, q.active, Position(q.active, id)); }
  }

  /** Removes the entry with the least key from an ordered map. */
  method TakeLeast<W>(m: map<nat, W>, ghost s: seq<(nat, W)>) returns (first: (nat, W), rest: map<nat, W>)
    requires Holds(m, s) && Ascending(Ids(s)) && m != map[]
    ensures s != [] && first == s[0] && Holds(rest, s[1..]) && Ascending(Ids(s[1..]))
  {
    LeastIsOldest(m, s);
    var id := LeastKey(m.Keys, s[0].0);
    first, rest := (id, m[id]), m - {id};
  }

  /** The values of an ordered map, in key order. */
  method IntoValues<W>(m: map<nat, W>, ghost s: seq<(nat, W)>) returns (values: seq<W>)
    requires Holds(m, s) && Ascending(Ids(s))
    ensures values == Waiters(s)
  {
    var rest := m;
    values := [];
    ghost var left := s;
    while rest != map[]
      invariant |values| <= |s| && left == s[|values|..] && Holds(rest, left) && Ascending(Ids(left))
      invariant values == Waiters(s)[..|values|]
      decreases |left|
    {
      var first;
      first, rest := TakeLeast(rest, left);
      values, left := values + [first.1], left[1..];
    }
    HoldsNone(rest, left);
  }

  class WaiterRegistry<W> {
    var nextWaiterId: nat
    var waiters: map<nat, W>
    ghost var fifo: Fifo<W>

    ghost predicate Valid()
      reads this
    {
      Lawful(fifo) && nextWaiterId == fifo.next && Holds(waiters, fifo.active)
    }

    constructor ()
      ensures Valid() && fifo == Empty()
    {
      nextWaiterId, waiters, fifo := 1, map[], Empty();
    }

    /** `None` stands for the panic on exhausted identifiers, which leaves the registry unchanged. */
    method Register(waiter: W) returns (id: Option<nat>)
      requires Valid()
      modifies this
      ensures Valid() && fifo == Apply(old(fifo), Enrol(waiter)).0
      ensures Apply(old(fifo), Enrol(waiter)).1 == if id.Some? then Registered(id.value) else NoIdentifier
      ensures id == if old(nextWaiterId) < 0xFFFF_FFFF_FFFF_FFFF then Some(old(nextWaiterId)) else None
      ensures id.None? ==> waiters == old(waiters) && nextWaiterId == old(nextWaiterId)
    {
      ApplyKeepsLawful(fifo, Enrol(waiter));
      ActiveIds(fifo);
      if nextWaiterId + 1 > MAX_ID {
        return None;
      }
      var waiterId := nextWaiterId;
      nextWaiterId := waiterId + 1;
      HoldsMore(waiters, fifo.active, waiterId, waiter);
      waiters := waiters[waiterId := waiter];
      fifo := Apply(fifo, Enrol(waiter)).0;
      id := Some(waiterId);
    }

    /** Removes the entry with the least key. */
    method PopFirst() returns (first: Option<(nat, W)>)
      requires Valid()
      modifies this
      ensures Valid() && fifo == Apply(old(fifo), First).0
      ensures first == if old(fifo).active == [] then None else Some(old(fifo).active[0])
    {
      OldestEntry(waiters, fifo);
      if waiters == map[] {
        return None;
      }
      var id := LeastKey(waiters.Keys, fifo.active[0].0);
      first := Some((id, waiters[id]));
      waiters := waiters - {id};
      fifo := Apply(fifo, First).0;
    }

    method TakeOne() returns (waiter: Option<W>)
      requires Valid()
      modifies this
      ensures Valid() && fifo == Apply(old(fifo), First).0
      ensures Apply(old(fifo), First).1 == Taken(if waiter.Some? then [waiter.value] else [])
    {
      var first := PopFirst();
      waiter := if first.Some? then Some(first.value.1) else None;
    }

    /** Empties the map at once and hands out its values in key order. */
    method TakeAll() returns (taken: seq<W>)
      requires Valid()
      modifies this
      ensures Valid() && fifo == Apply(old(fifo), Every).0
      ensures Apply(old(fifo), Every).1 == Taken(taken)
    {
      ActiveIds(fifo);
      taken := IntoValues(waiters, fifo.active);
      waiters := map[];
      ApplyKeepsLawful(fifo, Every);
      fifo := Apply(fifo, Every).0;
    }

    method Unregister(id: nat) returns (waiter: Option<W>)
      requires Valid()
      modifies this
      ensures Valid() && fifo == Apply(old(fifo), Withdraw(id)).0
      ensures Apply(old(fifo), Withdraw(id)).1 == Removed(waiter)
      ensures waiter == if id in old(waiters) then Some(old(waiters)[id]) else None
      ensures waiters == old(waiters) - {id}
    {
      Withdrawn(waiters, fifo, id);
      hide Lawful, Holds, Apply;
      if id in waiters {
        waiter := Some(waiters[id]);
        waiters := waiters - {id};
      } else {
        waiter := None;
      }
      fifo := Apply(fifo, Withdraw(id)).0;
    }
  }

  lemma HoldsNone<W>(m: map<nat, W>, s: seq<(nat, W)>)
    requires Holds(m, s)
    ensures m == map[] <==> s == []
  {
    if s != [] { assert s[0].0 in m; }
    if m != map[] { var id :| id in m; assert Position(s, id) < |s|; }
  }
}
