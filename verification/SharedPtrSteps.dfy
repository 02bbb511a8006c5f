/** What the reference-counted pointer's calls do to memory, for handles, objects and
    counters of any kind. */
module SharedPtrSteps {
  import opened Wrappers

  /** A handle's two fields; none stands for a null pointer. */
  datatype Handle<O, C> = Handle(ptr: Option<O>, count: Option<C>)

  /** A counter's value, and how often it was deleted. */
  datatype Count = Count(value: int, frees: nat)

  /** The live handles, how often each object was deleted, and the counters. */
  datatype Memory<H, O, C> = Memory(handles: map<H, Handle<O, C>>, objects: map<O, nat>, counters: map<C, Count>)

  // ---------- The calls ----------

  /** `_ptr && GetRef()`: the counter behind a handle can be read and written. */
  predicate CounterAlive<H, O, C>(m: Memory<H, O, C>, count: Option<C>) {
    count.Some? && count.value in m.counters && m.counters[count.value].frees == 0
  }

  function Increment<H, O, C>(m: Memory<H, O, C>, count: Option<C>): Outcome<Memory<H, O, C>> {
    if CounterAlive(m, count)
    then Next(m.(counters := m.counters[count.value := Count(m.counters[count.value].value + 1, 0)]))
    else Fault
  }

  /** `SharedPtr(T *ptr)`; `c` is the counter it allocates, if any. */
  function Construct<H, O, C>(m: Memory<H, O, C>, h: H, ptr: Option<O>, c: C): Memory<H, O, C> {
    match ptr
    case None => m.(handles := m.handles[h := Handle(None, None)])
    case Some(o) =>
      m.(handles := m.handles[h := Handle(ptr, Some(c))],
         objects := if o in m.objects then m.objects else m.objects[o := 0],
         counters := m.counters[c := Count(1, 0)])
  }

  function Copy<H, O, C>(m: Memory<H, O, C>, h: H, from: H): Outcome<Memory<H, O, C>>
    requires from in m.handles
  {
    var m1 := m.(handles := m.handles[h := m.handles[from]]);
    if m.handles[from].ptr.Some? then Increment(m1, m.handles[from].count) else Next(m1)
  }

  function Release<H, O, C>(m: Memory<H, O, C>, h: H): Outcome<Memory<H, O, C>>
    requires h in m.handles
  {
    var x := m.handles[h];
    if x.ptr.None? then Next(m)
    else if !CounterAlive(m, x.count) || x.ptr.value !in m.objects then Fault
    else
      var c, left := x.count.value, m.counters[x.count.value].value - 1;
      if left == 0 then
        Next(Memory(
          m.handles[h := Handle(None, None)],
          m.objects[x.ptr.value := m.objects[x.ptr.value] + 1],
          m.counters[c := Count(0, 1)]))
      else Next(m.(counters := m.counters[c := Count(left, 0)]))
  }

  function Destroy<H, O, C>(m: Memory<H, O, C>, h: H): Outcome<Memory<H, O, C>>
    requires h in m.handles
  {
    match Release(m, h)
    case Next(m1) => Next(m1.(handles := m1.handles - {h}))
    case _ => Fault
  }

  /** `operator=`: the counter is incremented without a test of the pointer. */
  function Assign<H, O, C>(m: Memory<H, O, C>, to: H, from: H): Outcome<Memory<H, O, C>>
    requires to in m.handles && from in m.handles
  {
    if to == from then Next(m)
    else
      match Release(m, to)
      case Next(m1) => Increment(m1.(handles := m1.handles[to := m1.handles[from]]), m1.handles[from].count)
      case _ => Fault
  }

  // ---------- Programs ----------

  datatype Op<H, O, C> =
    | DoConstruct(h: H, ptr: Option<O>, c: C)
    | DoCopy(h: H, from: H)
    | DoAssign(to: H, from: H)
    | DoDestroy(h: H)

  /** A handle is made once and used while it lives; a counter is newly allocated; an
      object is adopted when new; and no handle is assigned from a null one. */
  predicate Fair<H, O, C>(m: Memory<H, O, C>, op: Op<H, O, C>) {
    match op
    case DoConstruct(h, ptr, c) => h !in m.handles && c !in m.counters && (ptr.Some? ==> ptr.value !in m.objects)
    case DoCopy(h, from) => h !in m.handles && from in m.handles
    case DoAssign(to, from) => to in m.handles && from in m.handles && m.handles[from].ptr.Some?
    case DoDestroy(h) => h in m.handles
  }

  function Step<H, O, C>(m: Memory<H, O, C>, op: Op<H, O, C>): Outcome<Memory<H, O, C>>
    requires Fair(m, op)
  {
    match op
    case DoConstruct(h, ptr, c) => Next(Construct(m, h, ptr, c))
    case DoCopy(h, from) => Copy(m, h, from)
    case DoAssign(to, from) => Assign(m, to, from)
    case DoDestroy(h) => Destroy(m, h)
  }

  /** An unfair call is skipped. */
  function Run<H, O, C>(m: Memory<H, O, C>, program: seq<Op<H, O, C>>): Outcome<Memory<H, O, C>>
    decreases |program|
  {
    if program == [] then Next(m)
    else if !Fair(m, program[0]) then Run(m, program[1..])
    else match Step(m, program[0])
      case Next(m1) => Run(m1, program[1..])
      case _ => Fault
  }

  // ---------- The invariant ----------

  function Holders<H, O, C>(m: Memory<H, O, C>, c: C): set<H> {
    set h | h in m.handles && m.handles[h].count == Some(c)
  }

  function Owners<H, O, C>(m: Memory<H, O, C>, o: O): set<H> {
    set h | h in m.handles && m.handles[h].ptr == Some(o)
  }

  ghost predicate Closed<H, O, C>(m: Memory<H, O, C>) {
    forall h :: h in m.handles ==>
      && (m.handles[h].ptr.None? <==> m.handles[h].count.None?)
      && (m.handles[h].ptr.Some? ==> m.handles[h].ptr.value in m.objects && m.handles[h].count.value in m.counters)
  }

  /** Two handles share an object exactly when they share a counter. */
  ghost predicate Paired<H, O, C>(m: Memory<H, O, C>) {
    forall h, g :: h in m.handles && g in m.handles ==>
      (m.handles[h].ptr == m.handles[g].ptr <==> m.handles[h].count == m.handles[g].count)
  }

  ghost predicate Counted<H, O, C>(m: Memory<H, O, C>) {
    forall c :: c in m.counters ==> m.counters[c] == Count(|Holders(m, c)|, if Holders(m, c) == {} then 1 else 0)
  }

  ghost predicate Freed<H, O, C>(m: Memory<H, O, C>) {
    forall o :: o in m.objects ==> m.objects[o] == if Owners(m, o) == {} then 1 else 0
  }

  ghost predicate Inv<H, O, C>(m: Memory<H, O, C>) {
    Closed(m) && Paired(m) && Counted(m) && Freed(m)
  }

  /** What a new handle adds to the holders of a counter and the owners of an object. */
  lemma HolderAdded<H, O, C>(m: Memory<H, O, C>, m1: Memory<H, O, C>, h: H, x: Handle<O, C>, c: C)
    requires h !in m.handles && m1.handles == m.handles[h := x]
    ensures x.count != Some(c) ==> Holders(m1, c) == Holders(m, c)
    ensures x.count == Some(c) ==> h in Holders(m1, c) && |Holders(m1, c)| == |Holders(m, c)| + 1
  {
    var s, s1 := Holders(m, c), Holders(m1, c);
    assert h !in s;
    if x.count == Some(c) {
      assert s1 == s + {h};
      assert |s1| == |s| + 1;
    } else {
      assert s1 == s;
    }
  }

  lemma OwnerAdded<H, O, C>(m: Memory<H, O, C>, m1: Memory<H, O, C>, h: H, x: Handle<O, C>, o: O)
    requires h !in m.handles && m1.handles == m.handles[h := x]
    ensures x.ptr != Some(o) ==> Owners(m1, o) == Owners(m, o)
    ensures x.ptr == Some(o) ==> h in Owners(m1, o)
  {
  }

  lemma HolderDropped<H, O, C>(m: Memory<H, O, C>, m1: Memory<H, O, C>, h: H, c: C)
    requires h in m.handles && m1.handles == m.handles - {h}
    ensures m.handles[h].count != Some(c) ==> Holders(m1, c) == Holders(m, c)
    ensures m.handles[h].count == Some(c) ==>
      |Holders(m1, c)| == |Holders(m, c)| - 1 && (Holders(m1, c) == {} <==> |Holders(m, c)| == 1)
  {
    if m.handles[h].count == Some(c) {
      assert h in Holders(m, c);
      assert Holders(m1, c) == Holders(m, c) - {h};
      assert |Holders(m1, c)| == 0 <==> Holders(m1, c) == {};
    }
  }

  lemma OwnerDropped<H, O, C>(m: Memory<H, O, C>, m1: Memory<H, O, C>, h: H, o: O)
    requires h in m.handles && m1.handles == m.handles - {h}
    ensures m.handles[h].ptr != Some(o) ==> Owners(m1, o) == Owners(m, o)
    ensures m.handles[h].ptr == Some(o) ==> Owners(m1, o) == Owners(m, o) - {h}
  {
  }

  lemma ConstructCounts<H, O, C>(m: Memory<H, O, C>, h: H, ptr: Option<O>, c: C)
    requires Inv(m) && h !in m.handles && c !in m.counters
    ensures Counted(Construct(m, h, ptr, c))
  {
    var m1 := Construct(m, h, ptr, c);
    assert Holders(m, c) == {};
    forall d | d in m1.counters
      ensures m1.counters[d] == Count(|Holders(m1, d)|, if Holders(m1, d) == {} then 1 else 0)
    {
      HolderAdded(m, m1, h, m1.handles[h], d);
    }
  }

  lemma ConstructFrees<H, O, C>(m: Memory<H, O, C>, h: H, ptr: Option<O>, c: C)
    requires Inv(m) && h !in m.handles && c !in m.counters && (ptr.Some? ==> ptr.value !in m.objects)
    ensures Freed(Construct(m, h, ptr, c))
  {
    var m1 := Construct(m, h, ptr, c);
    forall o | o in m1.objects
      ensures m1.objects[o] == if Owners(m1, o) == {} then 1 else 0
    {
      OwnerAdded(m, m1, h, m1.handles[h], o);
    }
  }

  /** A handle on a new object and a new counter, or on nothing, is closed and paired. */
  lemma NewHandlePaired<H, O, C>(m: Memory<H, O, C>, m1: Memory<H, O, C>, h: H, x: Handle<O, C>)
    requires Closed(m) && Paired(m) && h !in m.handles && m1.handles == m.handles[h := x]
    requires m.objects.Keys <= m1.objects.Keys && m.counters.Keys <= m1.counters.Keys
    requires x.ptr.None? <==> x.count.None?
    requires x.ptr.Some? ==> x.ptr.value in m1.objects && x.count.value in m1.counters
    requires forall g :: g in m.handles ==> (m.handles[g].ptr == x.ptr <==> m.handles[g].count == x.count)
    ensures Closed(m1) && Paired(m1)
  {
  }

  /** An object that already had a handle gets a second counter, or was freed before. */
  lemma WrappedAgain<H, O, C>(m: Memory<H, O, C>, h: H, o: O, c: C)
    requires Inv(m) && h !in m.handles && c !in m.counters && o in m.objects
    ensures !Inv(Construct(m, h, Some(o), c))
  {
    var m1 := Construct(m, h, Some(o), c);
    assert h in Owners(m1, o);
    if Owners(m, o) != {} {
      var g :| g in Owners(m, o);
      assert m1.handles[g].ptr == m1.handles[h].ptr && m1.handles[g].count != m1.handles[h].count;
    }
  }

  /** Wrapping a raw pointer keeps the bookkeeping right exactly when no handle was ever
      made from that pointer before. */
  lemma ConstructKeepsIff<H, O, C>(m: Memory<H, O, C>, h: H, ptr: Option<O>, c: C)
    requires Inv(m) && h !in m.handles && c !in m.counters
    ensures Inv(Construct(m, h, ptr, c)) <==> ptr.None? || ptr.value !in m.objects
  {
    if ptr.Some? && ptr.value in m.objects {
      WrappedAgain(m, h, ptr.value, c);
    } else {
      ConstructCounts(m, h, ptr, c);
      ConstructFrees(m, h, ptr, c);
      var m1 := Construct(m, h, ptr, c);
      NewHandlePaired(m, m1, h, m1.handles[h]);
    }
  }

  lemma CopyCounts<H, O, C>(m: Memory<H, O, C>, h: H, from: H)
    requires Inv(m) && h !in m.handles && from in m.handles
    ensures Copy(m, h, from).Next? && Counted(Copy(m, h, from).state) && Freed(Copy(m, h, from).state)
  {
    var x := m.handles[from];
    if x.ptr.Some? {
      HandleIsGood(m, from);
    }
    var m1 := Copy(m, h, from).state;
    forall c | c in m1.counters
      ensures m1.counters[c] == Count(|Holders(m1, c)|, if Holders(m1, c) == {} then 1 else 0)
    {
      HolderAdded(m, m1, h, x, c);
    }
    forall o | o in m1.objects
      ensures m1.objects[o] == if Owners(m1, o) == {} then 1 else 0
    {
      OwnerAdded(m, m1, h, x, o);
    }
  }

  lemma CopyKeeps<H, O, C>(m: Memory<H, O, C>, h: H, from: H)
    requires Inv(m) && h !in m.handles && from in m.handles
    ensures Copy(m, h, from).Next? && Inv(Copy(m, h, from).state)
  {
    CopyCounts(m, h, from);
    NewHandlePaired(m, Copy(m, h, from).state, h, m.handles[from]);
  }

  /** A handle that is not null holds a live counter and a live object. */
  lemma HandleIsGood<H, O, C>(m: Memory<H, O, C>, h: H)
    requires Inv(m) && h in m.handles && m.handles[h].ptr.Some?
    ensures CounterAlive(m, m.handles[h].count) && m.objects[m.handles[h].ptr.value] == 0
    ensures m.counters[m.handles[h].count.value].value == |Holders(m, m.handles[h].count.value)|
    ensures Holders(m, m.handles[h].count.value) == Owners(m, m.handles[h].ptr.value)
    ensures h in Owners(m, m.handles[h].ptr.value)
  {
    var x := m.handles[h];
    assert h in Holders(m, x.count.value) && h in Owners(m, x.ptr.value);
  }

  lemma DestroyCounts<H, O, C>(m: Memory<H, O, C>, h: H)
    requires Inv(m) && h in m.handles
    ensures Destroy(m, h).Next? && Counted(Destroy(m, h).state)
  {
    var x := m.handles[h];
    if x.ptr.Some? {
      HandleIsGood(m, h);
    }
    var m1 := Destroy(m, h).state;
    forall c | c in m1.counters
      ensures m1.counters[c] == Count(|Holders(m1, c)|, if Holders(m1, c) == {} then 1 else 0)
    {
      HolderDropped(m, m1, h, c);
    }
  }

  lemma DestroyFrees<H, O, C>(m: Memory<H, O, C>, h: H)
    requires Inv(m) && h in m.handles
    ensures Destroy(m, h).Next? && Freed(Destroy(m, h).state)
  {
    var x := m.handles[h];
    if x.ptr.Some? {
      HandleIsGood(m, h);
    }
    var m1 := Destroy(m, h).state;
    forall o | o in m1.objects
      ensures m1.objects[o] == if Owners(m1, o) == {} then 1 else 0
    {
      OwnerDropped(m, m1, h, o);
      if x.ptr == Some(o) {
        HolderDropped(m, m1, h, x.count.value);
        assert |Owners(m, o) - {h}| == |Owners(m, o)| - 1;
      }
    }
  }

  lemma DestroyKeeps<H, O, C>(m: Memory<H, O, C>, h: H)
    requires Inv(m) && h in m.handles
    ensures Destroy(m, h).Next? && Inv(Destroy(m, h).state)
  {
    DestroyCounts(m, h);
    DestroyFrees(m, h);
  }

  /** Releasing a handle touches no other handle. */
  lemma ReleaseIsLocal<H, O, C>(m: Memory<H, O, C>, h: H)
    requires Inv(m) && h in m.handles
    ensures Release(m, h).Next? && Destroy(m, h).Next?
    ensures var m1 := Release(m, h).state;
      && h in m1.handles && m1.handles - {h} == m.handles - {h}
      && Destroy(m, h).state == m1.(handles := m.handles - {h})
  {
    if m.handles[h].ptr.Some? {
      HandleIsGood(m, h);
    }
    var m1 := Release(m, h).state;
    assert m1.handles - {h} == m.handles - {h};
  }

  /** Assignment between two handles is the destruction of one followed by its copy
      construction from the other, also when the two already share their object. */
  lemma AssignIsDestroyThenCopy<H, O, C>(m: Memory<H, O, C>, to: H, from: H)
    requires Inv(m) && to in m.handles && from in m.handles && to != from && m.handles[from].ptr.Some?
    ensures Destroy(m, to).Next?
    ensures Assign(m, to, from) == Copy(Destroy(m, to).state, to, from)
  {
    ReleaseIsLocal(m, to);
    var m1, m2 := Release(m, to).state, Destroy(m, to).state;
    assert m2.handles[from] == m1.handles[from] == m.handles[from];
    assert m1.handles[to := m.handles[from]] == m2.handles[to := m.handles[from]];
  }

  lemma AssignKeeps<H, O, C>(m: Memory<H, O, C>, to: H, from: H)
    requires Inv(m) && to in m.handles && from in m.handles && m.handles[from].ptr.Some?
    ensures Assign(m, to, from).Next? && Inv(Assign(m, to, from).state)
  {
    if to != from {
      AssignIsDestroyThenCopy(m, to, from);
      DestroyKeeps(m, to);
      CopyKeeps(Destroy(m, to).state, to, from);
    }
  }

  lemma StepKeepsInv<H, O, C>(m: Memory<H, O, C>, op: Op<H, O, C>)
    requires Inv(m) && Fair(m, op)
    ensures Step(m, op).Next? && Inv(Step(m, op).state)
  {
    match op
    case DoConstruct(h, ptr, c) => ConstructKeepsIff(m, h, ptr, c);
    case DoCopy(h, from) => CopyKeeps(m, h, from);
    case DoAssign(to, from) => AssignKeeps(m, to, from);
    case DoDestroy(h) => DestroyKeeps(m, h);
  }

  lemma {:induction false} RunKeepsInv<H, O, C>(m: Memory<H, O, C>, program: seq<Op<H, O, C>>)
    requires Inv(m)
    ensures Run(m, program).Next? && Inv(Run(m, program).state)
    decreases |program|
  {
    if program == [] {
    } else {
      if Fair(m, program[0]) {
        StepKeepsInv(m, program[0]);
        RunKeepsInv(Step(m, program[0]).state, program[1..]);
      } else {
        RunKeepsInv(m, program[1..]);
      }
    }
  }

  // ---------- What the source promises ----------

  function Empty<H, O, C>(): Memory<H, O, C> {
    Memory(map[], map[], map[])
  }

  /** In every program nothing dangling is followed; the count behind a handle is the
      number of live handles to its object; and an object has been freed, once, exactly
      when no handle to it is left. */
  lemma CountsAndFrees<H, O, C>(program: seq<Op<H, O, C>>)
    ensures Run(Empty(), program).Next?
    ensures var m := Run(Empty(), program).state;
      && (forall h :: h in m.handles && m.handles[h].ptr.Some? ==>
            CounterAlive(m, m.handles[h].count) &&
            m.counters[m.handles[h].count.value].value == |Owners(m, m.handles[h].ptr.value)|)
      && (forall o :: o in m.objects ==> m.objects[o] == if Owners(m, o) == {} then 1 else 0)
      && (forall c :: c in m.counters ==> m.counters[c].frees == if Holders(m, c) == {} then 1 else 0)
  {
    RunKeepsInv(Empty<H, O, C>(), program);
    var m := Run(Empty<H, O, C>(), program).state;
    forall h | h in m.handles && m.handles[h].ptr.Some?
      ensures CounterAlive(m, m.handles[h].count)
      ensures m.counters[m.handles[h].count.value].value == |Owners(m, m.handles[h].ptr.value)|
    {
      HandleIsGood(m, h);
    }
  }

  /** A program that leaves no handle has freed every object and every counter once. */
  lemma NoLeak<H, O, C>(program: seq<Op<H, O, C>>)
    requires Run(Empty(), program).Next? && Run(Empty(), program).state.handles == map[]
    ensures var m := Run(Empty(), program).state;
      (forall o :: o in m.objects ==> m.objects[o] == 1) && (forall c :: c in m.counters ==>
        m.counters[c] == Count(0, 1))
  {
    RunKeepsInv(Empty<H, O, C>(), program);
    var m := Run(Empty<H, O, C>(), program).state;
    assert forall o :: Owners(m, o) == {};
    assert forall c :: Holders(m, c) == {};
  }

  /** An assignment goes wrong exactly when its source is another handle and null. */
  lemma AssignFailsIff<H, O, C>(m: Memory<H, O, C>, to: H, from: H)
    requires Inv(m) && to in m.handles && from in m.handles
    ensures Assign(m, to, from).Fault? <==> to != from && m.handles[from].ptr.None?
  {
    if m.handles[from].ptr.Some? {
      AssignKeeps(m, to, from);
    }
  }

  /** Whenever a handle lives a null one can be made, and assigning from it goes wrong; so it
      does at once in a program that makes two null handles. */
  lemma NullAssignFails<H, O, C>(m: Memory<H, O, C>, to: H, from: H, c: C)
    requires Inv(m) && to in m.handles && from !in m.handles
    ensures Assign(Construct(m, from, None, c), to, from).Fault?
    ensures to != from && Assign(Construct(Construct(Empty<H, O, C>(), to, None, c), from, None, c), to, from).Fault?
  {
    ConstructKeepsIff(Empty<H, O, C>(), to, None, c);
  }

  /** One raw pointer wrapped twice: both handles think they are the last. */
  lemma WrappedTwiceFreedTwice()
    ensures var m := Construct(Construct(Empty<nat, nat, nat>(), 0, Some(7), 0), 1, Some(7), 1);
      && Destroy(m, 0).Next? && Destroy(Destroy(m, 0).state, 1).Next?
      && Destroy(Destroy(m, 0).state, 1).state.objects[7] == 2
  {
  }
}
