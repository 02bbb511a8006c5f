/** The reference-counted pointer, in place. Each method does to the memory that a set of
    live handles spans what the function of the same name in SharedPtrSteps says. */
module SharedPtr {
  import opened Wrappers
  import opened SharedPtrSteps

  /** What a handle owns; `deletes` tells how often it was deleted. */
  class Resource {
    var deletes: nat

    constructor ()
      ensures deletes == 0
    {
      deletes := 0;
    }

    method Delete(ghost objects: set<Resource>)
      requires this in objects
      modifies this
      ensures Objects(objects) == old(Objects(objects))[this := old(deletes) + 1]
    {
      deletes := deletes + 1;
    }
  }

  class Counter {
    var value: int
    var deletes: nat

    constructor (value: int)
      ensures this.value == value && deletes == 0
    {
      this.value, deletes := value, 0;
    }

    method Set(value: int, ghost counters: set<Counter>)
      requires this in counters
      modifies this
      ensures this.value == value && deletes == old(deletes)
      ensures Counters(counters) == old(Counters(counters))[this := Count(value, deletes)]
    {
      this.value := value;
    }

    method Delete(ghost counters: set<Counter>)
      requires this in counters
      modifies this
      ensures Counters(counters) == old(Counters(counters))[this := Count(old(value), old(deletes) + 1)]
    {
      deletes := deletes + 1;
    }
  }

  function Fields(ptr: Resource?, pCount: Counter?): Handle<Resource, Counter> {
    var owned: Option<Resource> := if ptr == null then None else Some(ptr);
    var counter: Option<Counter> := if pCount == null then None else Some(pCount);
    Handle(owned, counter)
  }

  ghost function Handles(live: set<SharedPtr>): map<SharedPtr, Handle<Resource, Counter>>
    reads live
  {
    map h | h in live :: Fields(h.ptr, h.pCount)
  }

  ghost function Objects(objects: set<Resource>): map<Resource, nat>
    reads objects
  {
    map o | o in objects :: o.deletes
  }

  ghost function Counters(counters: set<Counter>): map<Counter, Count>
    reads counters
  {
    map c | c in counters :: Count(c.value, c.deletes)
  }

  ghost function View(live: set<SharedPtr>, objects: set<Resource>, counters: set<Counter>)
    : Memory<SharedPtr, Resource, Counter>
    reads live, objects, counters
  {
    Memory(Handles(live), Objects(objects), Counters(counters))
  }

  lemma UpdatedTwice<K, V>(m: map<K, V>, k: K, v: V, w: V)
    ensures m[k := v][k := w] == m[k := w]
  {
  }

  class SharedPtr {
    var ptr: Resource?
    var pCount: Counter?

    /** `SharedPtr(T *ptr)`. */
    constructor (p: Resource, ghost live: set<SharedPtr>, ghost objects: set<Resource>, ghost counters: set<Counter>)
      requires p !in objects ==> p.deletes == 0
      ensures ptr == p && pCount != null && fresh(pCount)
      ensures View(live + {this}, objects + {p}, counters + {pCount}) ==
        Construct(old(View(live, objects, counters)), this, Some(p), pCount)
    {
      ptr := p;
      pCount := new Counter(1);
      new;
      assert Handles(live + {this}) == old(Handles(live))[this := Fields(ptr, pCount)];
      assert Objects(objects + {p}) == old(Objects(objects))[p := p.deletes];
      assert Counters(counters + {pCount}) == old(Counters(counters))[pCount := Count(1, 0)];
    }

    /** `SharedPtr()`: a null handle has no counter. */
    constructor Null(ghost live: set<SharedPtr>)
      ensures Handles(live + {this}) == old(Handles(live))[this := Handle(None, None)]
    {
      ptr, pCount := null, null;
    }

    constructor Copy(sp: SharedPtr, ghost live: set<SharedPtr>, ghost objects: set<Resource>,
          ghost counters: set<Counter>)
      requires sp in live
      requires sp.ptr != null ==> CounterAlive(View(live, objects, counters), Fields(sp.ptr, sp.pCount).count)
      modifies sp.pCount
      ensures Next(View(live + {this}, objects, counters)) ==
        SharedPtrSteps.Copy(old(View(live, objects, counters)), this, sp)
    {
      ptr, pCount := sp.ptr, sp.pCount;
      new;
      assert old(Handles(live))[sp] == Fields(sp.ptr, sp.pCount);
      if ptr != null {
        pCount.Set(pCount.value + 1, counters);
      }
      assert Handles(live + {this}) == old(Handles(live))[this := Fields(sp.ptr, sp.pCount)];
    }

    method SetFields(ptr: Resource?, pCount: Counter?, ghost live: set<SharedPtr>)
      requires this in live
      modifies this
      ensures this.ptr == ptr && this.pCount == pCount
      ensures Handles(live) == old(Handles(live))[this := Fields(ptr, pCount)]
    {
      this.ptr, this.pCount := ptr, pCount;
    }

    method Release(ghost live: set<SharedPtr>, ghost objects: set<Resource>, ghost counters: set<Counter>)
      requires this in live && SharedPtrSteps.Release(View(live, objects, counters), this).Next?
      modifies this, ptr, pCount
      ensures Next(View(live, objects, counters)) == SharedPtrSteps.Release(old(View(live, objects, counters)), this)
    {
      assert Handles(live)[this] == Fields(ptr, pCount);
      if ptr != null {
        ghost var c: Counter := pCount;
        ghost var before: map<Counter, Count> := Counters(counters);
        pCount.Set(pCount.value - 1, counters);
        if pCount.value == 0 {
          Last(live, objects, counters);
          UpdatedTwice(before, c, Count(0, 0), Count(0, 1));
        }
      }
    }

    /** The last handle deletes the object and the counter. */
    method Last(ghost live: set<SharedPtr>, ghost objects: set<Resource>, ghost counters: set<Counter>)
      requires this in live && ptr != null && pCount != null && ptr in objects && pCount in counters
      modifies this, ptr, pCount
      ensures Handles(live) == old(Handles(live))[this := Handle(None, None)]
      ensures Objects(objects) == old(Objects(objects))[old(ptr) := old(ptr.deletes) + 1]
      ensures Counters(counters) ==
        old(Counters(counters))[old(pCount) := Count(old(pCount.value), old(pCount.deletes) + 1)]
    {
      ptr.Delete(objects);
      pCount.Delete(counters);
      SetFields(null, null, live);
    }

    /** `~SharedPtr`. */
    method Destroy(ghost live: set<SharedPtr>, ghost objects: set<Resource>, ghost counters: set<Counter>)
      requires this in live && SharedPtrSteps.Release(View(live, objects, counters), this).Next?
      modifies this, ptr, pCount
      ensures Next(View(live - {this}, objects, counters)) ==
        SharedPtrSteps.Destroy(old(View(live, objects, counters)), this)
    {
      Release(live, objects, counters);
      assert Handles(live - {this}) == Handles(live) - {this};
    }

    /** The end of `operator=`: the other handle's fields, and one more on its counter. */
    method Share(sp: SharedPtr, ghost live: set<SharedPtr>, ghost counters: set<Counter>)
      requires this in live && sp in live && sp.pCount != null && sp.pCount in counters
      modifies this, sp.pCount
      ensures Handles(live) == old(Handles(live))[this := old(Handles(live))[sp]]
      ensures Counters(counters) ==
        old(Counters(counters))[old(sp.pCount) := Count(old(sp.pCount.value) + 1, old(sp.pCount.deletes))]
    {
      assert Handles(live)[sp] == Fields(sp.ptr, sp.pCount);
      SetFields(sp.ptr, sp.pCount, live);
      pCount.Set(pCount.value + 1, counters);
    }

    /** `operator=`; AssignFailsIff says when a caller may. */
    method Assign(sp: SharedPtr, ghost live: set<SharedPtr>, ghost objects: set<Resource>, ghost counters: set<Counter>)
      requires this in live && sp in live
      requires SharedPtrSteps.Assign(View(live, objects, counters), this, sp).Next?
      modifies this, ptr, pCount, sp.pCount
      ensures Next(View(live, objects, counters)) == SharedPtrSteps.Assign(old(View(live, objects, counters)), this, sp)
    {
      if this != sp {
        ghost var before := View(live, objects, counters);
        Release(live, objects, counters);
        assert Next(View(live, objects, counters)) == SharedPtrSteps.Release(before, this);
        assert Handles(live)[sp] == Fields(sp.ptr, sp.pCount);
        Share(sp, live, counters);
      }
    }
  }
}
