/** The former registry index of the benchmark: a value map and a separate order map that must agree. */
module DualIndex {
  import opened Basics
  import opened FifoSpec
  import opened Answers
  import opened Registry

  class BTreeHashWaiters<W> {
    var nextWaiterId: nat
    var values: map<nat, W>
    var order: set<nat>   // a map from identifiers to ()
    ghost var fifo: Fifo<W>

    /** Both maps have the keys of the active registrations. */
    ghost predicate Valid()
      reads this
    {
      Lawful(fifo) && nextWaiterId == fifo.next && Holds(values, fifo.active) && order == values.Keys
    }

    constructor ()
      ensures Valid() && fifo == Empty()
    {
      nextWaiterId, values, order, fifo := 1, map[], {}, Empty();
    }

    method Register(waiter: W) returns (id: Option<nat>)
      requires Valid()
      modifies this
      ensures Valid() && fifo == Apply(old(fifo), Enrol(waiter)).0
      ensures Apply(old(fifo), Enrol(waiter)).1 == if id.Some? then Registered(id.value) else NoIdentifier
      ensures id == if old(nextWaiterId) < 0xFFFF_FFFF_FFFF_FFFF then Some(old(nextWaiterId)) else None
    {
      ApplyKeepsLawful(fifo, Enrol(waiter));
      ActiveIds(fifo);
      if nextWaiterId + 1 > MAX_ID {
        return None;
      }
      var waiterId := nextWaiterId;
      nextWaiterId := waiterId + 1;
      HoldsMore(values, fifo.active, waiterId, waiter);
      values := values[waiterId := waiter];
      order := order + {waiterId};
      fifo := Apply(fifo, Enrol(waiter)).0;
      id := Some(waiterId);
    }

    /** The first key of the order map selects the value to remove. */
    method TakeOne() returns (waiter: Option<W>)
      requires Valid()
      modifies this
      ensures Valid() && fifo == Apply(old(fifo), First).0
      ensures Apply(old(fifo), First).1 == Taken(if waiter.Some? then [waiter.value] else [])
    {
      OldestEntry(values, fifo);
      if order == {} {
        return None;
      }
      var id := LeastKey(order, fifo.active[0].0);
      order := order - {id};
      waiter := Some(values[id]);
      values := values - {id};
      fifo := Apply(fifo, First).0;
    }

    method TakeAll() returns (taken: seq<W>)
      requires Valid()
      modifies this
      ensures Valid() && fifo == Apply(old(fifo), Every).0
      ensures Apply(old(fifo), Every).1 == Taken(taken)
    {
      hide Lawful, Holds;
      taken := [];
      ghost var all := fifo;
      var more := true;
      while more
        invariant Valid() && |taken| <= |all.active|
        invariant fifo == all.(active := all.active[|taken|..], selected := all.selected + Ids(all.active[..|taken|]))
        invariant taken == Waiters(all.active)[..|taken|]
        invariant !more ==> fifo.active == []
        decreases |fifo.active|, more
      {
        var waiter := TakeOne();
        if waiter.Some? {
          assert all.active[..|taken| + 1] == all.active[..|taken|] + [all.active[|taken|]];
          taken := taken + [waiter.value];
        } else {
          more := false;
        }
      }
      assert all.active[..|taken|] == all.active;
    }

    /** The order map is touched only if the value map knew the identifier. */
    method Unregister(id: nat) returns (waiter: Option<W>)
      requires Valid()
      modifies this
      ensures Valid() && fifo == Apply(old(fifo), Withdraw(id)).0
      ensures Apply(old(fifo), Withdraw(id)).1 == Removed(waiter)
      ensures waiter == if id in old(values) then Some(old(values)[id]) else None
      ensures values == old(values) - {id} && order == old(order) - {id}
    {
      Withdrawn(values, fifo, id);
      hide Lawful, Holds, Apply;
      waiter := if id in values then Some(values[id]) else None;
      if waiter.Some? {
        values := values - {id};
        order := order - {id};
      }
      fifo := Apply(fifo, Withdraw(id)).0;
    }

    method Do(op: Op<W>) returns (reply: Reply<W>)
      requires Valid()
      modifies this
      ensures Valid() && (fifo, reply) == Apply(old(fifo), op)
    {
      match op
      case Enrol(waiter) =>
        var id := Register(waiter);
        reply := if id.Some? then Registered(id.value) else NoIdentifier;
      case First => var waiter := TakeOne(); reply := Taken(if waiter.Some? then [waiter.value] else []);
      case Every => var taken := TakeAll(); reply := Taken(taken);
      case Withdraw(id) => var waiter := Unregister(id); reply := Removed(waiter);
    }
  }

  method DoSingle<W>(r: WaiterRegistry<W>, op: Op<W>) returns (reply: Reply<W>)
    requires r.Valid()
    modifies r
    ensures r.Valid() && (r.fifo, reply) == Apply(old(r.fifo), op)
  {
    match op
    case Enrol(waiter) =>
      var id := r.Register(waiter);
      reply := if id.Some? then Registered(id.value) else NoIdentifier;
    case First => var waiter := r.TakeOne(); reply := Taken(if waiter.Some? then [waiter.value] else []);
    case Every => var taken := r.TakeAll(); reply := Taken(taken);
    case Withdraw(id) => var waiter := r.Unregister(id); reply := Removed(waiter);
  }

  /**
    The two index strategies answer every sequence of operations alike, and rightly: the same identifiers, the same
    waiters in the same order, exhaustion at the same call.
   */
  method ReplayBoth<W>(ops: seq<Op<W>>) returns (single: seq<Reply<W>>, dual: seq<Reply<W>>)
    ensures single == dual == FifoSpec.Replay(ops).1 && AllRight(ops, single)
  {
    var a := new WaiterRegistry<W>();
    var b := new BTreeHashWaiters<W>();
    single, dual := [], [];
    for i := 0 to |ops|
      invariant a.Valid() && b.Valid() && fresh(a) && fresh(b)
      invariant (a.fifo, single) == FifoSpec.Replay(ops[..i]) && (b.fifo, dual) == FifoSpec.Replay(ops[..i])
    {
      assert ops[..i + 1][..i] == ops[..i];
      var x := DoSingle(a, ops[i]);
      var y := b.Do(ops[i]);
      single, dual := single + [x], dual + [y];
    }
    assert ops[..|ops|] == ops;
    RepliesAreRight(ops);
  }
}
