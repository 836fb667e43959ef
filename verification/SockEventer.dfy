/** Connections that go back to their pool, and the proxy's handlers on a pair of them. */
module SockEventers {
  import Rings
  import opened SendProtocol
  import opened SockSprays

  class SockEventerPool {
    var reference_: nat
    var objects_: seq<SockSpray>
    /** The connections handed out and the number of references held outside. */
    ghost var out: set<SockSpray>
    ghost var holders: nat

    ghost predicate Valid()
      reads this, objects_
    {
      && Rings.Distinct(objects_)
      && (forall i :: 0 <= i < |objects_| ==> Recycled(objects_[i]) && objects_[i] !in out)
      && reference_ == holders + |out|
    }

    constructor ()
      ensures Valid() && objects_ == [] && out == {} && holders == 1
    {
      reference_, objects_, out, holders := 1, [], {}, 1;
    }

    /** PopObject: the connection last recycled, with one more reference on the pool. */
    method PopObject() returns (result: SockSpray?)
      requires Valid()
      modifies this
      ensures Valid() && holders == old(holders)
      ensures old(objects_) == [] ==>
                result == null && out == old(out) && objects_ == [] && reference_ == old(reference_)
      ensures old(objects_) != [] ==>
                && result == old(objects_)[0] && objects_ == old(objects_)[1..] && Recycled(result)
                && result !in old(out) && out == old(out) + {result}
    {
      result := null;
      if objects_ != [] {
        result := objects_[0];
        objects_, out, reference_ := objects_[1..], out + {result}, reference_ + 1;
      }
    }

    /** A new connection, with one more reference on the pool. */
    method NewObject() returns (result: SockSpray)
      requires Valid()
      modifies this`out, this`reference_
      ensures Valid() && fresh(result) && Recycled(result)
      ensures result !in old(out) && out == old(out) + {result}
    {
      result := new SockSpray();
      out, reference_ := out + {result}, reference_ + 1;
    }

    /** Alloc of a pool: the connection last recycled, or a new one; equal to a fresh one in
        every field that a constructor sets, except what Alloc itself fills in. */
    method Alloc(memory: bool) returns (result: SockSpray?)
      requires Valid()
      modifies this, objects_
      ensures Valid() && holders == old(holders)
      ensures result == null <==> old(objects_) == [] && !memory
      ensures result == null ==> out == old(out) && objects_ == old(objects_) && reference_ == old(reference_)
      ensures result != null ==>
                && result !in old(out) && out == old(out) + {result} && result.Cleanable()
                && result.socket_ && result.handler_ && result.View() == Opened && result.BaseAsConstructed()
      ensures result == null || (if old(objects_) == [] then fresh(result) && objects_ == []
                                 else result == old(objects_)[0] && objects_ == old(objects_)[1..])
    {
      result := PopObject();
      if result == null && memory {
        result := NewObject();
      }
      if result != null {
        Assign(result);
      }
    }

    /** What Alloc fills in. */
    method Assign(eventer: SockSpray)
      modifies eventer`socket_, eventer`handler_
      ensures eventer.socket_ && eventer.handler_
    {
      eventer.socket_ := true;
      eventer.handler_ := true;
    }

    /** ObjectDestroy: Clean gives back every block reference that the connection holds and
        restores its own fields and the poller, then the fields of the bases are restored. */
    method Restore(eventer: SockSpray) returns (released: multiset<Block>)
      requires eventer.Cleanable()
      modifies eventer
      ensures released == old(eventer.flow.held)
      ensures Recycled(eventer) && eventer.context_ == null
    {
      released := eventer.Clean();
      RestoreBases(eventer);
    }

    method RestoreBases(eventer: SockSpray)
      modifies eventer`reference_, eventer`prev_, eventer`next_, eventer`context_
      ensures eventer.BaseAsConstructed() && eventer.context_ == null
    {
      eventer.reference_ := 1;
      eventer.prev_ := null;
      eventer.next_ := null;
      eventer.context_ := null;
    }

    /** ObjectDestroy and PushObject: restored, in front of the cache; deleted when the cache has
        no memory for it.  The pool keeps one reference less either way. */
    method Recycle(eventer: SockSpray, memory: bool) returns (released: multiset<Block>)
      requires Valid() && eventer in out && eventer.Cleanable()
      modifies this, eventer
      ensures Valid() && holders == old(holders) && out == old(out) - {eventer}
      ensures reference_ == old(reference_) - 1
      ensures released == old(eventer.flow.held)
      ensures Recycled(eventer) && eventer.context_ == null
      ensures objects_ == (if memory then [eventer] else []) + old(objects_)
    {
      released := Restore(eventer);
      if memory {
        objects_ := [eventer] + objects_;
      }
      assert |out - {eventer}| == |out| - 1;
      out := out - {eventer};
      reference_ := reference_ - 1;
    }

    /** Release of a connection. */
    method ReleaseObject(eventer: SockSpray, memory: bool) returns (recycled: bool)
      requires Valid() && eventer in out && eventer.reference_ > 0 && eventer.Cleanable()
      modifies this, eventer
      ensures Valid() && holders == old(holders)
      ensures recycled <==> old(eventer.reference_) == 1
      ensures recycled ==>
                && out == old(out) - {eventer} && Recycled(eventer) && eventer.context_ == null
                && objects_ == (if memory then [eventer] else []) + old(objects_)
      ensures !recycled ==>
                && out == old(out) && objects_ == old(objects_) && eventer.Cleanable()
                && eventer.reference_ == old(eventer.reference_) - 1 && eventer.context_ == old(eventer.context_)
    {
      recycled := false;
      eventer.reference_ := eventer.reference_ - 1;
      if eventer.reference_ < 1 {
        var _ := Recycle(eventer, memory);
        recycled := true;
      }
    }

    /** AddRef and Release of the pool by those who hold it.  The pool is to be destroyed when
        nobody holds it and no connection is out: here, or when the last one is recycled. */
    method AddRef()
      requires Valid() && holders > 0
      modifies this`reference_, this`holders
      ensures Valid() && holders == old(holders) + 1 && reference_ == old(reference_) + 1
    {
      reference_, holders := reference_ + 1, holders + 1;
    }

    method Release() returns (destroy: bool)
      requires Valid() && holders > 0
      modifies this`reference_, this`holders
      ensures Valid() && holders == old(holders) - 1 && reference_ == old(reference_) - 1
      ensures destroy <==> reference_ == 0
      ensures destroy <==> holders == 0 && out == {}
    {
      reference_, holders := reference_ - 1, holders - 1;
      destroy := reference_ < 1;
    }

    /** The pool's destructor, when nothing refers to it: no connection is out, and each cached
        one is deleted once. */
    method Destroy() returns (deleted: seq<SockSpray>)
      requires Valid() && reference_ == 0
      modifies this`objects_
      ensures deleted == old(objects_) && objects_ == [] && out == {} && Valid()
      ensures Rings.Distinct(deleted)
    {
      deleted := [];
      while objects_ != []
        invariant deleted + objects_ == old(objects_) && Valid()
      {
        deleted, objects_ := deleted + [objects_[0]], objects_[1..];
      }
    }
  }

  /** Ready to be handed out again. */
  ghost predicate Recycled(eventer: SockSpray)
    reads eventer
  {
    eventer.AsConstructed() && eventer.Cleanable() && eventer.View() == Opened
  }

  // ---------------------------------------------------------------------------------------
  // The proxy's handlers
  // ---------------------------------------------------------------------------------------

  /** Both sides are up: each has its own reference and the one its peer's context stands for. */
  ghost predicate Paired(pool: SockEventerPool, a: SockSpray, b: SockSpray)
    reads pool, pool.objects_, a, b
  {
    && pool.Valid() && a in pool.out && b in pool.out && a != b
    && a.context_ == b && b.context_ == a && a.reference_ == b.reference_ == 2
    && a.Cleanable() && b.Cleanable()
  }

  /** `a` is torn down, `b` is not. */
  ghost predicate HalfPaired(pool: SockEventerPool, a: SockSpray, b: SockSpray)
    reads pool, pool.objects_, a, b
  {
    && pool.Valid() && a in pool.out && b in pool.out && a != b
    && a.context_ == null && b.context_ == a && a.reference_ == b.reference_ == 1
    && a.Cleanable() && b.Cleanable()
  }

  lemma BothTakenOut(before: set<SockSpray>, a: SockSpray?, between: set<SockSpray>, b: SockSpray?, after: set<SockSpray>)
    requires if a == null then between == before else between == before + {a} && a !in before
    requires if b == null then after == between else after == between + {b} && b !in between
    ensures after - {a, b} == before
  {
  }

  /** HandleClient's two connections. */
  method AllocBoth(pool: SockEventerPool, inMemory: bool, outMemory: bool)
    returns (inward: SockSpray?, outward: SockSpray?)
    requires pool.Valid()
    modifies pool, pool.objects_
    ensures pool.Valid() && pool.holders == old(pool.holders)
    ensures inward != null ==>
              && inward in pool.out && inward.reference_ == 1 && inward.Cleanable()
              && inward !in old(pool.out) && inward != outward
    ensures outward != null ==>
              outward in pool.out && outward.reference_ == 1 && outward.Cleanable() && outward !in old(pool.out)
    ensures pool.out - {inward, outward} == old(pool.out)
    ensures inward != null ==> fresh(inward) || inward in old(pool.objects_)
    ensures outward != null ==> fresh(outward) || outward in old(pool.objects_)
  {
    ghost var before := pool.out;
    inward := pool.Alloc(inMemory);
    assert forall e :: e in pool.objects_ ==> e in old(pool.objects_);
    ghost var between := pool.out;
    outward := pool.Alloc(outMemory);
    BothTakenOut(before, inward, between, outward, pool.out);
  }

  /** Contexts, references and pollers of a pair; the ring that Bind links them into is
      SockReactors.SockReactor.Bind. */
  method Connect(pool: SockEventerPool, inward: SockSpray, outward: SockSpray)
    requires pool.Valid() && inward in pool.out && outward in pool.out && inward != outward
    requires inward.reference_ == outward.reference_ == 1 && inward.Cleanable() && outward.Cleanable()
    modifies inward, outward
    ensures Paired(pool, inward, outward) && inward.poller_ && outward.poller_
  {
    inward.context_ := outward;
    outward.context_ := inward;
    inward.reference_ := inward.reference_ + 1;
    outward.reference_ := outward.reference_ + 1;
    inward.poller_ := true;
    outward.poller_ := true;
  }

  /** What HandleClient does with one connection when it has no other. */
  method GiveBack(pool: SockEventerPool, inward: SockSpray?, outward: SockSpray?, memory: bool)
    requires pool.Valid() && (inward == null || outward == null)
    requires inward != null ==> inward in pool.out && inward.reference_ == 1 && inward.Cleanable()
    requires outward != null ==> outward in pool.out && outward.reference_ == 1 && outward.Cleanable()
    modifies pool, inward, outward
    ensures pool.Valid() && pool.holders == old(pool.holders)
    ensures pool.out == old(pool.out) - {inward, outward}
  {
    if inward != null {
      var _ := pool.ReleaseObject(inward, memory);
    }
    if outward != null {
      var _ := pool.ReleaseObject(outward, memory);
    }
  }

  /** HandleClient, once the connector has connected: a pair, or nothing is out that was not
      before. */
  method HandleClient(pool: SockEventerPool, inMemory: bool, outMemory: bool, pushMemory: bool)
    returns (inward: SockSpray?, outward: SockSpray?)
    requires pool.Valid()
    modifies pool, pool.objects_
    ensures pool.holders == old(pool.holders)
    ensures inward != null && outward != null ==>
              && Paired(pool, inward, outward) && inward.poller_ && outward.poller_ && pool.out - {inward, outward} == old(pool.out)
              && inward !in old(pool.out) && outward !in old(pool.out)
              && (fresh(inward) || inward in old(pool.objects_)) && (fresh(outward) || outward in old(pool.objects_))
    ensures inward == null || outward == null ==> pool.Valid() && pool.out == old(pool.out)
  {
    inward, outward := AllocBoth(pool, inMemory, outMemory);
    if inward != null && outward != null {
      Connect(pool, inward, outward);
    } else {
      GiveBack(pool, inward, outward, pushMemory);
    }
  }

  /** One teardown: the handler's HandleShutdown or HandleTerminate, then the connection's own
      Release.  The first of a pair recycles nothing, the second recycles both. */
  method TearDown(pool: SockEventerPool, client: SockSpray, ghost peer: SockSpray, memory: bool)
    requires Paired(pool, client, peer) || HalfPaired(pool, peer, client)
    modifies pool, client, peer
    ensures pool.holders == old(pool.holders)
    ensures old(Paired(pool, client, peer)) ==> HalfPaired(pool, client, peer) && pool.out == old(pool.out)
    ensures old(HalfPaired(pool, peer, client)) ==>
              && pool.Valid() && pool.out == old(pool.out) - {client, peer}
              && Recycled(client) && Recycled(peer)
  {
    var pair := client.context_;
    if pair != null {
      client.context_ := null;
      var _ := pool.ReleaseObject(pair, memory);
    }
    var _ := pool.ReleaseObject(client, memory);
  }

  /** Both teardowns. */
  method TearBothDown(pool: SockEventerPool, first: SockSpray, second: SockSpray, memory: bool)
    requires Paired(pool, first, second)
    modifies pool, first, second
    ensures pool.Valid() && pool.holders == old(pool.holders) && pool.out == old(pool.out) - {first, second}
    ensures Recycled(first) && Recycled(second)
  {
    TearDown(pool, first, second, memory);
    TearDown(pool, second, first, memory);
  }

  /** Set-up and both teardowns, in either order, leave the pool with what was out before. */
  method PairLife(pool: SockEventerPool, outwardFirst: bool, memory: bool)
    requires pool.Valid()
    modifies pool, pool.objects_
    ensures pool.Valid() && pool.out == old(pool.out) && pool.holders == old(pool.holders)
    ensures pool.reference_ == old(pool.reference_)
  {
    var a, b := HandleClient(pool, memory, memory, memory);
    if a != null && b != null {
      if outwardFirst {
        a, b := b, a;
      }
      TearBothDown(pool, a, b, memory);
    }
  }
}
