/** The two-lock linked queue: a list that always ends in an unpublished dummy
    node, with one mutex for `head_` and one for `tail_`. Every lock, unlock, read
    and write of the source is one atomic step of one of arbitrarily many threads,
    and any schedule of those steps is a run. */
module TwoLockQueue {
  import opened Wrappers

  type Ref = nat
  type Tid = nat
  type Value = int

  datatype Node = Node(data: Option<Value>, next: Option<Ref>)

  /** The consumer entry points: `try_pop()`, `wait_and_pop()`, `wait_and_pop(T &)`
      and `empty()`. */
  datatype PopKind = TryPop | WaitPop | WaitPopInto | IsEmpty

  /** `slot` counts the pops that came before; `pushedThen` and `poppedThen` are
      the totals at the instant `get_tail` read `tail_`. */
  datatype Answer =
    | NoAnswer
    | Popped(value: Value, slot: nat)
    | Nothing(pushedThen: nat, poppedThen: nat)
    | EmptyIs(isEmpty: bool, pushedThen: nat, poppedThen: nat)

  /** Where a thread stands: each constructor names the last atomic action done. */
  datatype PC =
    | Done(answer: Answer)
    | NodeMade(v: Value, p: Ref)
    | TailLocked(v: Value, p: Ref)
    | DataStored(v: Value, p: Ref)
    | NextLinked(v: Value, p: Ref)
    | TailMoved
    | Entering(kind: PopKind)
    | HeadLocked(kind: PopKind)
    | BothLocked(kind: PopKind)
    | TailRead(kind: PopKind, snap: Ref, pushedThen: nat, poppedThen: nat)
    | Snapped(kind: PopKind, snap: Ref, pushedThen: nat, poppedThen: nat)
    | Answered(answer: Answer)
    | Found(kind: PopKind)
    | Copied(v: Value)
    | HeadTaken(node: Ref, copy: Option<Value>)
    | HeadAdvanced(node: Ref, slot: nat, copy: Option<Value>)
    | NodeOwned(node: Ref, slot: nat, copy: Option<Value>)

  /** `head` is None while `pop_head` has moved `head_` out and not yet refilled it.
      The last six fields are history, which no step reads to decide anything: the
      values in the order of `tail_ = new_tail` and the threads that published them, the
      values in the order of head advance and the threads that took them, the list nodes
      in order, and who alone can reach each node that is off the list. */
  datatype State = State(
    heap: map<Ref, Node>,
    head: Option<Ref>,
    tail: Ref,
    headLock: Option<Tid>,
    tailLock: Option<Tid>,
    threads: map<Tid, PC>,
    pushed: seq<Value>,
    pushers: seq<Tid>,
    popped: seq<Value>,
    takers: seq<Tid>,
    nodes: seq<Ref>,
    owner: map<Ref, Tid>)
  {
    function At(t: Tid, pc: PC): State {
      this.(threads := threads[t := pc])
    }
  }

  /** `StartPush` carries the address the allocator chose for the new node;
      a freed address may come back. */
  datatype Action = StartPush(v: Value, p: Ref) | StartPop(kind: PopKind) | Advance

  predicate HoldsHead(pc: PC) {
    pc.HeadLocked? || pc.BothLocked? || pc.TailRead? || pc.Snapped? || pc.Answered? ||
    pc.Found? || pc.Copied? || pc.HeadTaken? || pc.HeadAdvanced?
  }

  predicate HoldsTail(pc: PC) {
    pc.TailLocked? || pc.DataStored? || pc.NextLinked? || pc.TailMoved? ||
    pc.BothLocked? || pc.TailRead?
  }

  // ---------- The steps ----------

  function Step(s: State, t: Tid, a: Action): Outcome<State>
    requires t in s.threads
  {
    match s.threads[t]
    case Done(_) =>
      (match a
       case StartPush(v, p) =>
         if p in s.heap then Blocked
         else Next(s.(heap := s.heap[p := Node(None, None)], owner := s.owner[p := t]).At(t, NodeMade(v, p)))
       case StartPop(kind) => Next(s.At(t, Entering(kind)))
       case Advance => Blocked)
    case pc =>
      if !a.Advance? then Blocked
      else if HoldsHead(pc) || pc.Entering? || pc.NodeOwned? then PopStep(s, t)
      else PushStep(s, t)
  }

  function PushStep(s: State, t: Tid): Outcome<State>
    requires t in s.threads
  {
    match s.threads[t]
    case NodeMade(v, p) =>
      if s.tailLock.Some? then Blocked
      else Next(s.(tailLock := Some(t)).At(t, TailLocked(v, p)))
    case TailLocked(v, p) =>
      if s.tail !in s.heap then Fault
      else Next(s.(heap := s.heap[s.tail := s.heap[s.tail].(data := Some(v))]).At(t, DataStored(v, p)))
    case DataStored(v, p) =>
      if s.tail !in s.heap then Fault
      else Next(s.(heap := s.heap[s.tail := s.heap[s.tail].(next := Some(p))]).At(t, NextLinked(v, p)))
    case NextLinked(v, p) =>
      Next(s.(tail := p, pushed := s.pushed + [v], pushers := s.pushers + [t], nodes := s.nodes + [p],
              owner := s.owner - {p}).At(t, TailMoved))
    case TailMoved => Next(s.(tailLock := None).At(t, Done(NoAnswer)))
    case _ => Blocked
  }

  function PopStep(s: State, t: Tid): Outcome<State>
    requires t in s.threads
  {
    match s.threads[t]
    case Entering(kind) =>
      if s.headLock.Some? then Blocked
      else Next(s.(headLock := Some(t)).At(t, HeadLocked(kind)))
    case HeadLocked(kind) =>
      if s.tailLock.Some? then Blocked
      else Next(s.(tailLock := Some(t)).At(t, BothLocked(kind)))
    case BothLocked(kind) =>
      Next(s.At(t, TailRead(kind, s.tail, |s.pushed|, |s.popped|)))
    case TailRead(kind, snap, n, m) =>
      Next(s.(tailLock := None).At(t, Snapped(kind, snap, n, m)))
    case Snapped(kind, snap, n, m) =>
      var pc := Verdict(kind, s.head == Some(snap), n, m);
      Next(s.(headLock := if pc.Entering? then None else s.headLock).At(t, pc))
    case Answered(answer) => Next(s.(headLock := None).At(t, Done(answer)))
    case Found(kind) =>
      if kind.WaitPopInto? then
        if s.head.None? || s.head.value !in s.heap || s.heap[s.head.value].data.None? then Fault
        else Next(s.At(t, Copied(s.heap[s.head.value].data.value)))
      else TakeHead(s, t, None)
    case Copied(v) => TakeHead(s, t, Some(v))
    case HeadTaken(node, copy) =>
      if node !in s.heap || s.heap[node].data.None? then Fault
      else Next(s.(head := s.heap[node].next,
                   heap := s.heap[node := s.heap[node].(next := None)],
                   popped := s.popped + [s.heap[node].data.value],
                   takers := s.takers + [t],
                   nodes := if s.nodes == [] then [] else s.nodes[1..],
                   owner := s.owner[node := t]).At(t, HeadAdvanced(node, |s.popped|, copy)))
    case HeadAdvanced(node, slot, copy) =>
      Next(s.(headLock := None).At(t, NodeOwned(node, slot, copy)))
    case NodeOwned(node, slot, copy) =>
      if node !in s.heap || s.heap[node].data.None? then Fault
      else
        var v := if copy.Some? then copy.value else s.heap[node].data.value;
        Next(s.(heap := s.heap - {node}, owner := s.owner - {node}).At(t, Done(Popped(v, slot))))
    case _ => Blocked
  }

  /** After `head_.get() == get_tail()`: an empty queue answers at once, except that
      a waiting pop releases the head lock, sleeps, and comes back to the lock. */
  function Verdict(kind: PopKind, equal: bool, n: nat, m: nat): PC {
    match kind
    case IsEmpty => Answered(EmptyIs(equal, n, m))
    case TryPop => if equal then Answered(Nothing(n, m)) else Found(kind)
    case _ => if equal then Entering(kind) else Found(kind)
  }

  function TakeHead(s: State, t: Tid, copy: Option<Value>): Outcome<State>
    requires t in s.threads
  {
    if s.head.None? then Fault
    else Next(s.(head := None).At(t, HeadTaken(s.head.value, copy)))
  }

  // ---------- Runs ----------

  function Init(threads: set<Tid>, dummy: Ref): State {
    State(map[dummy := Node(None, None)], Some(dummy), dummy, None, None,
          map t | t in threads :: Done(NoAnswer), [], [], [], [], [dummy], map[])
  }

  /** A schedule names who moves next; a blocked thread leaves the state alone. */
  function Run(s: State, schedule: seq<(Tid, Action)>): Outcome<State>
    decreases |schedule|
  {
    if schedule == [] then Next(s)
    else if schedule[0].0 !in s.threads then Run(s, schedule[1..])
    else match Step(s, schedule[0].0, schedule[0].1)
      case Fault => Fault
      case Blocked => Run(s, schedule[1..])
      case Next(s') => Run(s', schedule[1..])
  }

  // ---------- The invariant ----------

  predicate Distinct(xs: seq<Ref>) {
    forall i, j :: 0 <= i < j < |xs| ==> xs[i] != xs[j]
  }

  ghost predicate LocksOk(threads: map<Tid, PC>, headLock: Option<Tid>, tailLock: Option<Tid>) {
    && (headLock.Some? ==> headLock.value in threads)
    && (tailLock.Some? ==> tailLock.value in threads)
    && (forall t :: t in threads ==> (HoldsHead(threads[t]) <==> headLock == Some(t)))
    && (forall t :: t in threads ==> (HoldsTail(threads[t]) <==> tailLock == Some(t)))
  }

  /** The program counter of a lock's holder, if it is held. */
  function HolderPC(threads: map<Tid, PC>, lock: Option<Tid>): PC {
    if lock.Some? && lock.value in threads then threads[lock.value] else Done(NoAnswer)
  }

  /** The first node of the list: what `head_` points to, or what `pop_head` has
      just moved out of it. */
  function FrontOf(threads: map<Tid, PC>, headLock: Option<Tid>, head: Option<Ref>): Option<Ref> {
    match HolderPC(threads, headLock)
    case HeadTaken(node, _) => if head.None? then Some(node) else None
    case _ => head
  }

  function Front(s: State): Option<Ref> {
    FrontOf(s.threads, s.headLock, s.head)
  }

  /** What the node behind `tail_` contains, given how far the producer is. */
  function Dummy(producer: PC): Node {
    match producer
    case DataStored(v, _) => Node(Some(v), None)
    case NextLinked(v, p) => Node(Some(v), Some(p))
    case _ => Node(None, None)
  }

  /** The list in memory: each node but the last holds the next value still to be
      popped and points to its successor; the last is the dummy. */
  ghost predicate ListOk(heap: map<Ref, Node>, nodes: seq<Ref>, pushed: seq<Value>, popped: seq<Value>, dummy: Node) {
    && Distinct(nodes)
    && (forall i :: 0 <= i < |nodes| ==> nodes[i] in heap)
    && popped <= pushed
    && |nodes| == |pushed| - |popped| + 1
    && (forall i :: 0 <= i < |nodes| - 1 ==>
          heap[nodes[i]] == Node(Some(pushed[|popped| + i]), Some(nodes[i + 1])))
    && heap[nodes[|nodes| - 1]] == dummy
  }

  /** The node a thread alone may reach: one it has made and not published, or one
      it has taken off the list and not freed. */
  function Owned(pc: PC): Option<Ref> {
    match pc
    case NodeMade(_, p) => Some(p)
    case TailLocked(_, p) => Some(p)
    case DataStored(_, p) => Some(p)
    case NextLinked(_, p) => Some(p)
    case HeadAdvanced(node, _, _) => Some(node)
    case NodeOwned(node, _, _) => Some(node)
    case _ => None
  }

  /** Every allocated node is on the list or owned by exactly one thread. */
  ghost predicate OwnersOk(keys: set<Ref>, nodes: seq<Ref>, owner: map<Ref, Tid>, threads: map<Tid, PC>) {
    && (forall r :: r in keys <==> r in nodes || r in owner)
    && (forall r :: r in owner ==> r !in nodes && owner[r] in threads && Owned(threads[owner[r]]) == Some(r))
    && (forall t :: t in threads && Owned(threads[t]).Some? ==>
          Owned(threads[t]).value in owner && owner[Owned(threads[t]).value] == t)
  }

  function Slot(pc: PC): Option<nat> {
    match pc
    case HeadAdvanced(_, slot, _) => Some(slot)
    case NodeOwned(_, slot, _) => Some(slot)
    case Done(Popped(_, slot)) => Some(slot)
    case _ => None
  }

  predicate AnswerOk(popped: seq<Value>, answer: Answer) {
    match answer
    case NoAnswer => true
    case Popped(v, slot) => slot < |popped| && popped[slot] == v
    case Nothing(n, m) => n == m
    case EmptyIs(b, n, m) => b <==> n == m
  }

  predicate ThreadOk(heap: map<Ref, Node>, nodes: seq<Ref>, popped: seq<Value>, pc: PC) {
    match pc
    case Done(answer) => AnswerOk(popped, answer)
    case Answered(answer) => AnswerOk(popped, answer) && !answer.Popped?
    case NodeMade(_, p) => BlankAt(heap, p)
    case TailLocked(_, p) => BlankAt(heap, p)
    case DataStored(_, p) => BlankAt(heap, p)
    case NextLinked(_, p) => BlankAt(heap, p)
    case TailRead(_, snap, n, m) => SnapOk(nodes, popped, snap, n, m)
    case Snapped(_, snap, n, m) => SnapOk(nodes, popped, snap, n, m)
    case Found(kind) => |nodes| > 1 && !kind.IsEmpty?
    case Copied(v) => |nodes| > 1 && nodes[0] in heap && heap[nodes[0]].data == Some(v)
    case HeadTaken(node, copy) =>
      |nodes| > 1 && nodes[0] == node && node in heap && (copy.Some? ==> heap[node].data == copy)
    case HeadAdvanced(node, slot, copy) => TakenOk(heap, popped, node, slot, copy)
    case NodeOwned(node, slot, copy) => TakenOk(heap, popped, node, slot, copy)
    case _ => true
  }

  predicate BlankAt(heap: map<Ref, Node>, p: Ref) {
    p in heap && heap[p] == Node(None, None)
  }

  /** A snapshot of the tail may be stale, but while the head lock is held it still
      names the node that was last when it was taken. */
  predicate SnapOk(nodes: seq<Ref>, popped: seq<Value>, snap: Ref, n: nat, m: nat) {
    m == |popped| <= n && n - m < |nodes| && nodes[n - m] == snap
  }

  predicate TakenOk(heap: map<Ref, Node>, popped: seq<Value>, node: Ref, slot: nat, copy: Option<Value>) {
    && slot < |popped|
    && node in heap
    && heap[node] == Node(Some(popped[slot]), None)
    && (copy.Some? ==> copy.value == popped[slot])
  }

  ghost predicate ThreadsOk(heap: map<Ref, Node>, nodes: seq<Ref>, popped: seq<Value>, threads: map<Tid, PC>) {
    forall t :: t in threads ==> ThreadOk(heap, nodes, popped, threads[t])
  }

  /** No two threads hold the same pop. */
  ghost predicate TakersOk(takers: seq<Tid>, count: nat, threads: map<Tid, PC>) {
    && |takers| == count
    && (forall t :: t in threads && Slot(threads[t]).Some? ==>
          Slot(threads[t]).value < count && takers[Slot(threads[t]).value] == t)
  }

  ghost predicate Inv(s: State) {
    && LocksOk(s.threads, s.headLock, s.tailLock)
    && ListOk(s.heap, s.nodes, s.pushed, s.popped, Dummy(HolderPC(s.threads, s.tailLock)))
    && s.tail == s.nodes[|s.nodes| - 1]
    && Front(s) == Some(s.nodes[0])
    && OwnersOk(s.heap.Keys, s.nodes, s.owner, s.threads)
    && ThreadsOk(s.heap, s.nodes, s.popped, s.threads)
    && TakersOk(s.takers, |s.popped|, s.threads)
  }

  // ---------- Each step keeps it ----------

  /** A lock stays as it is, or the thread releases it, or takes it while free. */
  predicate Moves(lock: Option<Tid>, t: Tid, lock': Option<Tid>) {
    lock' == lock || (lock == Some(t) && lock'.None?) || (lock.None? && lock' == Some(t))
  }

  lemma LocksUpdate(threads: map<Tid, PC>, headLock: Option<Tid>, tailLock: Option<Tid>,
                    t: Tid, pc: PC, headLock': Option<Tid>, tailLock': Option<Tid>)
    requires LocksOk(threads, headLock, tailLock) && t in threads
    requires Moves(headLock, t, headLock') && Moves(tailLock, t, tailLock')
    requires (HoldsHead(pc) <==> headLock' == Some(t)) && (HoldsTail(pc) <==> tailLock' == Some(t))
    ensures LocksOk(threads[t := pc], headLock', tailLock')
  {
  }

  lemma OwnersUpdate(keys: set<Ref>, nodes: seq<Ref>, owner: map<Ref, Tid>, threads: map<Tid, PC>, t: Tid, pc: PC)
    requires OwnersOk(keys, nodes, owner, threads) && t in threads
    requires Owned(pc) == Owned(threads[t])
    ensures OwnersOk(keys, nodes, owner, threads[t := pc])
  {
  }

  lemma TakersUpdate(takers: seq<Tid>, count: nat, threads: map<Tid, PC>, t: Tid, pc: PC)
    requires TakersOk(takers, count, threads) && t in threads
    requires Slot(pc).None? || Slot(pc) == Slot(threads[t])
    ensures TakersOk(takers, count, threads[t := pc])
  {
  }

  lemma ThreadsUpdate(heap: map<Ref, Node>, nodes: seq<Ref>, popped: seq<Value>, threads: map<Tid, PC>, t: Tid, pc: PC)
    requires ThreadsOk(heap, nodes, popped, threads) && ThreadOk(heap, nodes, popped, pc)
    ensures ThreadsOk(heap, nodes, popped, threads[t := pc])
  {
  }

  lemma DummyUpdate(threads: map<Tid, PC>, lock: Option<Tid>, t: Tid, pc: PC, lock': Option<Tid>)
    requires t in threads && Moves(lock, t, lock')
    requires Dummy(threads[t]) == Dummy(pc)
    requires lock' != lock ==> Dummy(pc) == Node(None, None)
    ensures Dummy(HolderPC(threads[t := pc], lock')) == Dummy(HolderPC(threads, lock))
  {
  }

  /** A thread that neither takes the first node off `head_` nor puts the next one there
      leaves the front as it is. */
  lemma FrontUpdate(threads: map<Tid, PC>, lock: Option<Tid>, head: Option<Ref>, t: Tid, pc: PC, lock': Option<Tid>)
    requires t in threads && Moves(lock, t, lock') && !threads[t].HeadTaken? && !pc.HeadTaken?
    ensures FrontOf(threads[t := pc], lock', head) == FrontOf(threads, lock, head)
  {
  }

  lemma ListAppend(heap: map<Ref, Node>, nodes: seq<Ref>, pushed: seq<Value>, popped: seq<Value>, v: Value, p: Ref)
    requires ListOk(heap, nodes, pushed, popped, Node(Some(v), Some(p)))
    requires BlankAt(heap, p) && p !in nodes
    ensures ListOk(heap, nodes + [p], pushed + [v], popped, Node(None, None))
  {
  }

  lemma ListUnlink(heap: map<Ref, Node>, nodes: seq<Ref>, pushed: seq<Value>, popped: seq<Value>, dummy: Node,
        cut: Node)
    requires ListOk(heap, nodes, pushed, popped, dummy) && |nodes| > 1
    ensures ListOk(heap[nodes[0] := cut], nodes[1..], pushed, popped + [pushed[|popped|]], dummy)
  {
    var heap', nodes', popped' := heap[nodes[0] := cut], nodes[1..], popped + [pushed[|popped|]];
    assert popped' <= pushed;
    forall i | 0 <= i < |nodes'| - 1
      ensures heap'[nodes'[i]] == Node(Some(pushed[|popped'| + i]), Some(nodes'[i + 1]))
    {
      assert nodes'[i] == nodes[i + 1];
    }
  }

  lemma ListFree(heap: map<Ref, Node>, nodes: seq<Ref>, pushed: seq<Value>, popped: seq<Value>, dummy: Node, r: Ref)
    requires ListOk(heap, nodes, pushed, popped, dummy) && r !in nodes
    ensures ListOk(heap - {r}, nodes, pushed, popped, dummy)
  {
  }

  /** The first node of a non-empty list holds the oldest value not yet popped. */
  lemma FirstNode(s: State)
    requires Inv(s) && |s.nodes| > 1
    ensures |s.popped| < |s.pushed| && s.nodes[0] in s.heap
    ensures s.heap[s.nodes[0]] == Node(Some(s.pushed[|s.popped|]), Some(s.nodes[1]))
  {
    assert s.heap[s.nodes[0]] == Node(Some(s.pushed[|s.popped| + 0]), Some(s.nodes[0 + 1]));
  }

  /** A step that writes no shared memory but a lock. */
  lemma QuietStep(s: State, t: Tid, pc: PC, headLock: Option<Tid>, tailLock: Option<Tid>)
    requires Inv(s) && t in s.threads
    requires Moves(s.headLock, t, headLock) && Moves(s.tailLock, t, tailLock)
    requires (HoldsHead(pc) <==> headLock == Some(t)) && (HoldsTail(pc) <==> tailLock == Some(t))
    requires Owned(pc) == Owned(s.threads[t])
    requires Slot(pc).None? || Slot(pc) == Slot(s.threads[t])
    requires ThreadOk(s.heap, s.nodes, s.popped, pc)
    requires !s.threads[t].HeadTaken? && !pc.HeadTaken?
    requires Dummy(s.threads[t]) == Dummy(pc) == Node(None, None)
    ensures Inv(s.(headLock := headLock, tailLock := tailLock).At(t, pc))
  {
    LocksUpdate(s.threads, s.headLock, s.tailLock, t, pc, headLock, tailLock);
    OwnersUpdate(s.heap.Keys, s.nodes, s.owner, s.threads, t, pc);
    TakersUpdate(s.takers, |s.popped|, s.threads, t, pc);
    ThreadsUpdate(s.heap, s.nodes, s.popped, s.threads, t, pc);
    DummyUpdate(s.threads, s.tailLock, t, pc, tailLock);
    FrontUpdate(s.threads, s.headLock, s.head, t, pc, headLock);
  }

  /** A producer's write to the node behind `tail_`, under the tail lock, disturbs
      neither the list before it nor what any other thread relies on. */
  lemma TailWrite(s: State, t: Tid, pc: PC)
    requires Inv(s) && t in s.threads && s.tailLock == Some(t)
    requires HoldsTail(pc) && !HoldsHead(pc) && Owned(pc) == Owned(s.threads[t]) && Slot(pc).None?
    requires Owned(pc).Some? && BlankAt(s.heap, Owned(pc).value)
    requires pc.DataStored? || pc.NextLinked?
    ensures Inv(s.(heap := s.heap[s.tail := Dummy(pc)]).At(t, pc))
  {
    var s' := s.(heap := s.heap[s.tail := Dummy(pc)]).At(t, pc);
    LocksUpdate(s.threads, s.headLock, s.tailLock, t, pc, s.headLock, s.tailLock);
    FrontUpdate(s.threads, s.headLock, s.head, t, pc, s.headLock);
    assert s'.heap.Keys == s.heap.Keys;
    OwnersUpdate(s.heap.Keys, s.nodes, s.owner, s.threads, t, pc);
    TakersUpdate(s.takers, |s.popped|, s.threads, t, pc);
    assert ThreadsOk(s'.heap, s'.nodes, s'.popped, s'.threads) by {
      forall u | u in s'.threads ensures ThreadOk(s'.heap, s'.nodes, s'.popped, s'.threads[u]) {
        OffTail(s, u);
      }
    }
  }

  /** No thread but the tail lock's holder depends on the last node's contents. */
  lemma OffTail(s: State, u: Tid)
    requires Inv(s) && u in s.threads
    ensures Owned(s.threads[u]) != Some(s.tail)
    ensures |s.nodes| > 1 ==> s.nodes[0] != s.tail
  {
  }

  lemma NodeMadeKeeps(s: State, t: Tid)
    requires Inv(s) && t in s.threads && s.threads[t].NodeMade?
    ensures !PushStep(s, t).Fault?
    ensures PushStep(s, t).Next? ==> Inv(PushStep(s, t).state)
  {
    if s.tailLock.None? {
      QuietStep(s, t, TailLocked(s.threads[t].v, s.threads[t].p), s.headLock, Some(t));
    }
  }

  lemma TailLockedKeeps(s: State, t: Tid)
    requires Inv(s) && t in s.threads && s.threads[t].TailLocked?
    ensures PushStep(s, t).Next? && Inv(PushStep(s, t).state)
  {
    TailWrite(s, t, DataStored(s.threads[t].v, s.threads[t].p));
  }

  lemma DataStoredKeeps(s: State, t: Tid)
    requires Inv(s) && t in s.threads && s.threads[t].DataStored?
    ensures PushStep(s, t).Next? && Inv(PushStep(s, t).state)
  {
    TailWrite(s, t, NextLinked(s.threads[t].v, s.threads[t].p));
  }

  lemma NextLinkedKeeps(s: State, t: Tid)
    requires Inv(s) && t in s.threads && s.threads[t].NextLinked?
    ensures PushStep(s, t).Next? && Inv(PushStep(s, t).state)
  {
    var s' := PushStep(s, t).state;
    var p := s.threads[t].p;
    LocksUpdate(s.threads, s.headLock, s.tailLock, t, TailMoved, s.headLock, s.tailLock);
    FrontUpdate(s.threads, s.headLock, s.head, t, TailMoved, s.headLock);
    TakersUpdate(s.takers, |s.popped|, s.threads, t, TailMoved);
    ListAppend(s.heap, s.nodes, s.pushed, s.popped, s.threads[t].v, p);
    PublishOwners(s.heap.Keys, s.nodes, s.owner, s.threads, t, p);
    DummyUpdateAfterPublish(s.threads, s.tailLock, t);
    PublishThreads(s.heap, s.nodes, s.popped, s.threads, t, p);
  }

  lemma DummyUpdateAfterPublish(threads: map<Tid, PC>, lock: Option<Tid>, t: Tid)
    requires t in threads && lock == Some(t)
    ensures Dummy(HolderPC(threads[t := TailMoved], lock)) == Node(None, None)
  {
  }

  lemma PublishThreads(heap: map<Ref, Node>, nodes: seq<Ref>, popped: seq<Value>, threads: map<Tid, PC>, t: Tid, p: Ref)
    requires ThreadsOk(heap, nodes, popped, threads)
    ensures ThreadsOk(heap, nodes + [p], popped, threads[t := TailMoved])
  {
    forall u | u in threads && u != t ensures ThreadOk(heap, nodes + [p], popped, threads[u]) {
      LongerList(heap, nodes, popped, threads[u], p);
    }
  }

  lemma PublishOwners(keys: set<Ref>, nodes: seq<Ref>, owner: map<Ref, Tid>, threads: map<Tid, PC>, t: Tid, p: Ref)
    requires OwnersOk(keys, nodes, owner, threads) && t in threads && Owned(threads[t]) == Some(p)
    ensures OwnersOk(keys, nodes + [p], owner - {p}, threads[t := TailMoved])
  {
  }

  lemma LongerList(heap: map<Ref, Node>, nodes: seq<Ref>, popped: seq<Value>, pc: PC, p: Ref)
    requires ThreadOk(heap, nodes, popped, pc)
    ensures ThreadOk(heap, nodes + [p], popped, pc)
  {
  }

  lemma TailMovedKeeps(s: State, t: Tid)
    requires Inv(s) && t in s.threads && s.threads[t].TailMoved?
    ensures PushStep(s, t).Next? && Inv(PushStep(s, t).state)
  {
    QuietStep(s, t, Done(NoAnswer), s.headLock, None);
  }

  lemma EnteringKeeps(s: State, t: Tid)
    requires Inv(s) && t in s.threads && s.threads[t].Entering?
    ensures !PopStep(s, t).Fault?
    ensures PopStep(s, t).Next? ==> Inv(PopStep(s, t).state)
  {
    if s.headLock.None? {
      QuietStep(s, t, HeadLocked(s.threads[t].kind), Some(t), s.tailLock);
    }
  }

  lemma HeadLockedKeeps(s: State, t: Tid)
    requires Inv(s) && t in s.threads && s.threads[t].HeadLocked?
    ensures !PopStep(s, t).Fault?
    ensures PopStep(s, t).Next? ==> Inv(PopStep(s, t).state)
  {
    if s.tailLock.None? {
      QuietStep(s, t, BothLocked(s.threads[t].kind), s.headLock, Some(t));
    }
  }

  lemma BothLockedKeeps(s: State, t: Tid)
    requires Inv(s) && t in s.threads && s.threads[t].BothLocked?
    ensures PopStep(s, t).Next? && Inv(PopStep(s, t).state)
  {
    QuietStep(s, t, TailRead(s.threads[t].kind, s.tail, |s.pushed|, |s.popped|), s.headLock, s.tailLock);
  }

  lemma TailReadKeeps(s: State, t: Tid)
    requires Inv(s) && t in s.threads && s.threads[t].TailRead?
    ensures PopStep(s, t).Next? && Inv(PopStep(s, t).state)
  {
    var TailRead(kind, snap, n, m) := s.threads[t];
    QuietStep(s, t, Snapped(kind, snap, n, m), s.headLock, None);
  }

  /** Comparing `head_` with the stale snapshot answers whether the queue was empty
      when the snapshot was taken. */
  lemma StaleCompare(s: State, t: Tid)
    requires Inv(s) && t in s.threads && s.threads[t].Snapped?
    ensures s.head == Some(s.threads[t].snap) <==> s.threads[t].pushedThen == s.threads[t].poppedThen
  {
    assert s.head == Some(s.nodes[0]);
  }

  lemma SnappedKeeps(s: State, t: Tid)
    requires Inv(s) && t in s.threads && s.threads[t].Snapped?
    ensures PopStep(s, t).Next? && Inv(PopStep(s, t).state)
  {
    StaleCompare(s, t);
    var Snapped(kind, snap, n, m) := s.threads[t];
    var pc := Verdict(kind, s.head == Some(snap), n, m);
    QuietStep(s, t, pc, if pc.Entering? then None else s.headLock, s.tailLock);
  }

  lemma AnsweredKeeps(s: State, t: Tid)
    requires Inv(s) && t in s.threads && s.threads[t].Answered?
    ensures PopStep(s, t).Next? && Inv(PopStep(s, t).state)
  {
    QuietStep(s, t, Done(s.threads[t].answer), None, s.tailLock);
  }

  /** A consumer past the comparison stands at the first node. */
  lemma HeadIsFirst(s: State, t: Tid)
    requires Inv(s) && t in s.threads && (s.threads[t].Found? || s.threads[t].Copied?)
    ensures s.headLock == Some(t) && s.head == Some(s.nodes[0]) && |s.nodes| > 1
  {
    assert ThreadOk(s.heap, s.nodes, s.popped, s.threads[t]);
  }

  lemma TakenFront(threads: map<Tid, PC>, t: Tid, node: Ref, copy: Option<Value>)
    requires t in threads
    ensures FrontOf(threads[t := HeadTaken(node, copy)], Some(t), None) == Some(node)
  {
  }

  lemma TakeHeadKeeps(s: State, t: Tid, copy: Option<Value>)
    requires Inv(s) && t in s.threads && (s.threads[t].Found? || s.threads[t].Copied?)
    requires copy.Some? ==> s.threads[t] == Copied(copy.value)
    ensures TakeHead(s, t, copy).Next? && Inv(TakeHead(s, t, copy).state)
  {
    var pc := HeadTaken(s.nodes[0], copy);
    HeadIsFirst(s, t);
    TakenFront(s.threads, t, s.nodes[0], copy);
    assert ThreadOk(s.heap, s.nodes, s.popped, s.threads[t]);
    LocksUpdate(s.threads, s.headLock, s.tailLock, t, pc, s.headLock, s.tailLock);
    DummyUpdate(s.threads, s.tailLock, t, pc, s.tailLock);
    OwnersUpdate(s.heap.Keys, s.nodes, s.owner, s.threads, t, pc);
    TakersUpdate(s.takers, |s.popped|, s.threads, t, pc);
    ThreadsUpdate(s.heap, s.nodes, s.popped, s.threads, t, pc);
  }

  lemma FoundKeeps(s: State, t: Tid)
    requires Inv(s) && t in s.threads && s.threads[t].Found?
    ensures PopStep(s, t).Next? && Inv(PopStep(s, t).state)
  {
    FirstNode(s);
    if s.threads[t].kind.WaitPopInto? {
      QuietStep(s, t, Copied(s.pushed[|s.popped|]), s.headLock, s.tailLock);
    } else {
      TakeHeadKeeps(s, t, None);
    }
  }

  lemma CopiedKeeps(s: State, t: Tid)
    requires Inv(s) && t in s.threads && s.threads[t].Copied?
    ensures PopStep(s, t).Next? && Inv(PopStep(s, t).state)
  {
    TakeHeadKeeps(s, t, Some(s.threads[t].v));
  }

  /** The state after `head_ = old_head->next`. */
  ghost function Unlinked(s: State, t: Tid, copy: Option<Value>): State
    requires |s.nodes| > 1 && |s.popped| < |s.pushed| && t in s.threads
  {
    s.(head := Some(s.nodes[1]),
       heap := s.heap[s.nodes[0] := Node(Some(s.pushed[|s.popped|]), None)],
       popped := s.popped + [s.pushed[|s.popped|]],
       takers := s.takers + [t],
       nodes := s.nodes[1..],
       owner := s.owner[s.nodes[0] := t]).At(t, HeadAdvanced(s.nodes[0], |s.popped|, copy))
  }

  lemma UnlinkedIsNext(s: State, t: Tid)
    requires Inv(s) && t in s.threads && s.threads[t].HeadTaken?
    ensures |s.nodes| > 1 && |s.popped| < |s.pushed|
    ensures PopStep(s, t) == Next(Unlinked(s, t, s.threads[t].copy))
    ensures s.threads[t].copy.Some? ==> s.threads[t].copy.value == s.pushed[|s.popped|]
  {
    FirstNode(s);
  }

  lemma UnlinkedList(s: State, t: Tid, copy: Option<Value>)
    requires Inv(s) && |s.nodes| > 1 && t in s.threads && s.threads[t].HeadTaken?
    requires |s.popped| < |s.pushed|
    ensures var s' := Unlinked(s, t, copy);
      ListOk(s'.heap, s'.nodes, s'.pushed, s'.popped, Dummy(HolderPC(s'.threads, s'.tailLock)))
    ensures var s' := Unlinked(s, t, copy); OwnersOk(s'.heap.Keys, s'.nodes, s'.owner, s'.threads)
  {
    var s' := Unlinked(s, t, copy);
    DummyUpdate(s.threads, s.tailLock, t, s'.threads[t], s.tailLock);
    ListUnlink(s.heap, s.nodes, s.pushed, s.popped, Dummy(HolderPC(s.threads, s.tailLock)), s'.heap[s.nodes[0]]);
    assert s'.heap.Keys == s.heap.Keys;
    UnlinkOwners(s.heap.Keys, s.nodes, s.owner, s.threads, t, s'.threads[t]);
  }

  lemma UnlinkedThreads(s: State, t: Tid, copy: Option<Value>)
    requires Inv(s) && |s.nodes| > 1 && t in s.threads && s.threads[t].HeadTaken?
    requires |s.popped| < |s.pushed| && (copy.Some? ==> copy.value == s.pushed[|s.popped|])
    ensures var s' := Unlinked(s, t, copy);
      && LocksOk(s'.threads, s'.headLock, s'.tailLock)
      && ThreadsOk(s'.heap, s'.nodes, s'.popped, s'.threads)
      && TakersOk(s'.takers, |s'.popped|, s'.threads)
  {
    var s' := Unlinked(s, t, copy);
    var pc := s'.threads[t];
    LocksUpdate(s.threads, s.headLock, s.tailLock, t, pc, s.headLock, s.tailLock);
    assert TakenOk(s'.heap, s'.popped, s.nodes[0], |s.popped|, copy);
    UnlinkThreads(s, t, pc, s'.heap[s.nodes[0]], s'.popped);
    UnlinkTakers(s.takers, |s.popped|, s.threads, t, pc);
  }

  lemma HeadTakenKeeps(s: State, t: Tid)
    requires Inv(s) && t in s.threads && s.threads[t].HeadTaken?
    ensures PopStep(s, t).Next? && Inv(PopStep(s, t).state)
  {
    UnlinkedIsNext(s, t);
    UnlinkedList(s, t, s.threads[t].copy);
    UnlinkedThreads(s, t, s.threads[t].copy);
  }

  lemma UnlinkTakers(takers: seq<Tid>, count: nat, threads: map<Tid, PC>, t: Tid, pc: PC)
    requires TakersOk(takers, count, threads) && t in threads && Slot(pc) == Some(count)
    ensures TakersOk(takers + [t], count + 1, threads[t := pc])
  {
  }

  lemma UnlinkThreads(s: State, t: Tid, pc: PC, cut: Node, popped: seq<Value>)
    requires Inv(s) && t in s.threads && s.headLock == Some(t) && s.popped <= popped
    requires ThreadOk(s.heap[s.nodes[0] := cut], s.nodes[1..], popped, pc)
    ensures ThreadsOk(s.heap[s.nodes[0] := cut], s.nodes[1..], popped, s.threads[t := pc])
  {
    forall u | u in s.threads && u != t
      ensures ThreadOk(s.heap[s.nodes[0] := cut], s.nodes[1..], popped, s.threads[u])
    {
      assert Owned(s.threads[u]) != Some(s.nodes[0]);
      ShorterList(s.heap, s.nodes, s.popped, s.threads[u], cut, popped);
    }
  }

  lemma UnlinkOwners(keys: set<Ref>, nodes: seq<Ref>, owner: map<Ref, Tid>, threads: map<Tid, PC>, t: Tid, pc: PC)
    requires OwnersOk(keys, nodes, owner, threads) && t in threads && Owned(threads[t]).None?
    requires nodes != [] && nodes[0] in keys && Distinct(nodes) && Owned(pc) == Some(nodes[0])
    ensures OwnersOk(keys, nodes[1..], owner[nodes[0] := t], threads[t := pc])
  {
    assert forall r :: r in nodes <==> r == nodes[0] || r in nodes[1..];
    assert nodes[0] !in nodes[1..];
  }

  lemma ShorterList(heap: map<Ref, Node>, nodes: seq<Ref>, popped: seq<Value>, pc: PC, cut: Node, popped': seq<Value>)
    requires ThreadOk(heap, nodes, popped, pc) && nodes != [] && !HoldsHead(pc) && Owned(pc) != Some(nodes[0])
    requires popped <= popped'
    ensures ThreadOk(heap[nodes[0] := cut], nodes[1..], popped', pc)
  {
  }

  lemma HeadAdvancedKeeps(s: State, t: Tid)
    requires Inv(s) && t in s.threads && s.threads[t].HeadAdvanced?
    ensures PopStep(s, t).Next? && Inv(PopStep(s, t).state)
  {
    var HeadAdvanced(node, slot, copy) := s.threads[t];
    QuietStep(s, t, NodeOwned(node, slot, copy), None, s.tailLock);
  }

  /** The state after the old head is freed. */
  ghost function Freed(s: State, t: Tid, node: Ref, answer: Answer): State {
    s.(heap := s.heap - {node}, owner := s.owner - {node}).At(t, Done(answer))
  }

  lemma FreedIsNext(s: State, t: Tid)
    requires Inv(s) && t in s.threads && s.threads[t].NodeOwned?
    ensures s.threads[t].slot < |s.popped|
    ensures PopStep(s, t) ==
      Next(Freed(s, t, s.threads[t].node, Popped(s.popped[s.threads[t].slot], s.threads[t].slot)))
    ensures s.threads[t].node !in s.nodes
  {
    assert ThreadOk(s.heap, s.nodes, s.popped, s.threads[t]);
    assert Owned(s.threads[t]) == Some(s.threads[t].node);
  }

  lemma FreedList(s: State, t: Tid, node: Ref, answer: Answer)
    requires Inv(s) && t in s.threads && s.threads[t].NodeOwned? && node !in s.nodes
    ensures var s' := Freed(s, t, node, answer);
      && LocksOk(s'.threads, s'.headLock, s'.tailLock) && Front(s') == Front(s)
      && ListOk(s'.heap, s'.nodes, s'.pushed, s'.popped, Dummy(HolderPC(s'.threads, s'.tailLock)))
  {
    LocksUpdate(s.threads, s.headLock, s.tailLock, t, Done(answer), s.headLock, s.tailLock);
    FrontUpdate(s.threads, s.headLock, s.head, t, Done(answer), s.headLock);
    DummyUpdate(s.threads, s.tailLock, t, Done(answer), s.tailLock);
    ListFree(s.heap, s.nodes, s.pushed, s.popped, Dummy(HolderPC(s.threads, s.tailLock)), node);
  }

  lemma FreedThreads(s: State, t: Tid, node: Ref, slot: nat)
    requires Inv(s) && t in s.threads && s.threads[t].NodeOwned? && s.threads[t].node == node
    requires s.threads[t].slot == slot < |s.popped|
    ensures var s' := Freed(s, t, node, Popped(s.popped[slot], slot));
      && OwnersOk(s'.heap.Keys, s'.nodes, s'.owner, s'.threads)
      && ThreadsOk(s'.heap, s'.nodes, s'.popped, s'.threads)
      && TakersOk(s'.takers, |s'.popped|, s'.threads)
  {
    var pc := Done(Popped(s.popped[slot], slot));
    TakersUpdate(s.takers, |s.popped|, s.threads, t, pc);
    assert (s.heap - {node}).Keys == s.heap.Keys - {node};
    FreeOwners(s.heap.Keys, s.nodes, s.owner, s.threads, t, pc, node);
    FreeThreads(s, t, pc, node);
  }

  lemma NodeOwnedKeeps(s: State, t: Tid)
    requires Inv(s) && t in s.threads && s.threads[t].NodeOwned?
    ensures PopStep(s, t).Next? && Inv(PopStep(s, t).state)
  {
    var node, slot := s.threads[t].node, s.threads[t].slot;
    FreedIsNext(s, t);
    FreedList(s, t, node, Popped(s.popped[slot], slot));
    FreedThreads(s, t, node, slot);
  }

  lemma FreeThreads(s: State, t: Tid, pc: PC, r: Ref)
    requires Inv(s) && t in s.threads && Owned(s.threads[t]) == Some(r)
    requires ThreadOk(s.heap - {r}, s.nodes, s.popped, pc)
    ensures ThreadsOk(s.heap - {r}, s.nodes, s.popped, s.threads[t := pc])
  {
    forall u | u in s.threads && u != t ensures ThreadOk(s.heap - {r}, s.nodes, s.popped, s.threads[u]) {
      OneOwner(s, t, u, r);
      SmallerHeap(s.heap, s.nodes, s.popped, s.threads[u], r);
    }
  }

  lemma FreeOwners(keys: set<Ref>, nodes: seq<Ref>, owner: map<Ref, Tid>, threads: map<Tid, PC>, t: Tid, pc: PC, r: Ref)
    requires OwnersOk(keys, nodes, owner, threads) && t in threads
    requires Owned(threads[t]) == Some(r) && Owned(pc).None?
    ensures OwnersOk(keys - {r}, nodes, owner - {r}, threads[t := pc])
  {
  }

  lemma SmallerHeap(heap: map<Ref, Node>, nodes: seq<Ref>, popped: seq<Value>, pc: PC, r: Ref)
    requires ThreadOk(heap, nodes, popped, pc) && r !in nodes && Owned(pc) != Some(r)
    ensures ThreadOk(heap - {r}, nodes, popped, pc)
  {
  }

  /** The state with a new blank node that only its maker knows. */
  ghost function Allocated(s: State, t: Tid, v: Value, p: Ref): State {
    s.(heap := s.heap[p := Node(None, None)], owner := s.owner[p := t]).At(t, NodeMade(v, p))
  }

  lemma AllocatedList(s: State, t: Tid, v: Value, p: Ref)
    requires Inv(s) && t in s.threads && s.threads[t].Done? && p !in s.heap
    ensures var s' := Allocated(s, t, v, p);
      && LocksOk(s'.threads, s'.headLock, s'.tailLock) && Front(s') == Front(s)
      && ListOk(s'.heap, s'.nodes, s'.pushed, s'.popped, Dummy(HolderPC(s'.threads, s'.tailLock)))
  {
    var pc := NodeMade(v, p);
    LocksUpdate(s.threads, s.headLock, s.tailLock, t, pc, s.headLock, s.tailLock);
    FrontUpdate(s.threads, s.headLock, s.head, t, pc, s.headLock);
    DummyUpdate(s.threads, s.tailLock, t, pc, s.tailLock);
    ListAlloc(s.heap, s.nodes, s.pushed, s.popped, Dummy(HolderPC(s.threads, s.tailLock)), p);
  }

  lemma AllocatedThreads(s: State, t: Tid, v: Value, p: Ref)
    requires Inv(s) && t in s.threads && s.threads[t].Done? && p !in s.heap
    ensures var s' := Allocated(s, t, v, p);
      && OwnersOk(s'.heap.Keys, s'.nodes, s'.owner, s'.threads)
      && ThreadsOk(s'.heap, s'.nodes, s'.popped, s'.threads)
      && TakersOk(s'.takers, |s'.popped|, s'.threads)
  {
    var pc := NodeMade(v, p);
    TakersUpdate(s.takers, |s.popped|, s.threads, t, pc);
    assert s.heap[p := Node(None, None)].Keys == s.heap.Keys + {p};
    AllocOwners(s.heap.Keys, s.nodes, s.owner, s.threads, t, pc, p);
    AllocThreads(s, t, pc, p);
  }

  lemma StartPushKeeps(s: State, t: Tid, v: Value, p: Ref)
    requires Inv(s) && t in s.threads && s.threads[t].Done? && p !in s.heap
    ensures Inv(Allocated(s, t, v, p))
  {
    AllocatedList(s, t, v, p);
    AllocatedThreads(s, t, v, p);
  }

  lemma AllocThreads(s: State, t: Tid, pc: PC, p: Ref)
    requires Inv(s) && t in s.threads && p !in s.heap
    requires ThreadOk(s.heap[p := Node(None, None)], s.nodes, s.popped, pc)
    ensures ThreadsOk(s.heap[p := Node(None, None)], s.nodes, s.popped, s.threads[t := pc])
  {
    forall u | u in s.threads && u != t
      ensures ThreadOk(s.heap[p := Node(None, None)], s.nodes, s.popped, s.threads[u])
    {
      LargerHeap(s.heap, s.nodes, s.popped, s.threads[u], p);
    }
  }

  lemma AllocOwners(keys: set<Ref>, nodes: seq<Ref>, owner: map<Ref, Tid>, threads: map<Tid, PC>, t: Tid, pc: PC,
        p: Ref)
    requires OwnersOk(keys, nodes, owner, threads) && t in threads && p !in keys
    requires Owned(threads[t]).None? && Owned(pc) == Some(p)
    ensures OwnersOk(keys + {p}, nodes, owner[p := t], threads[t := pc])
  {
  }

  lemma LargerHeap(heap: map<Ref, Node>, nodes: seq<Ref>, popped: seq<Value>, pc: PC, p: Ref)
    requires ThreadOk(heap, nodes, popped, pc) && p !in heap
    ensures ThreadOk(heap[p := Node(None, None)], nodes, popped, pc)
  {
  }

  lemma ListAlloc(heap: map<Ref, Node>, nodes: seq<Ref>, pushed: seq<Value>, popped: seq<Value>, dummy: Node, p: Ref)
    requires ListOk(heap, nodes, pushed, popped, dummy) && p !in heap
    ensures ListOk(heap[p := Node(None, None)], nodes, pushed, popped, dummy)
  {
  }

  lemma PushStepKeeps(s: State, t: Tid)
    requires Inv(s) && t in s.threads
    ensures !PushStep(s, t).Fault?
    ensures PushStep(s, t).Next? ==> Inv(PushStep(s, t).state)
  {
    match s.threads[t]
    case NodeMade(_, _) => NodeMadeKeeps(s, t);
    case TailLocked(_, _) => TailLockedKeeps(s, t);
    case DataStored(_, _) => DataStoredKeeps(s, t);
    case NextLinked(_, _) => NextLinkedKeeps(s, t);
    case TailMoved => TailMovedKeeps(s, t);
    case _ =>
  }

  lemma PopStepKeeps(s: State, t: Tid)
    requires Inv(s) && t in s.threads
    ensures !PopStep(s, t).Fault?
    ensures PopStep(s, t).Next? ==> Inv(PopStep(s, t).state)
  {
    match s.threads[t]
    case Entering(_) => EnteringKeeps(s, t);
    case HeadLocked(_) => HeadLockedKeeps(s, t);
    case BothLocked(_) => BothLockedKeeps(s, t);
    case TailRead(_, _, _, _) => TailReadKeeps(s, t);
    case Snapped(_, _, _, _) => SnappedKeeps(s, t);
    case Answered(_) => AnsweredKeeps(s, t);
    case Found(_) => FoundKeeps(s, t);
    case Copied(_) => CopiedKeeps(s, t);
    case HeadTaken(_, _) => HeadTakenKeeps(s, t);
    case HeadAdvanced(_, _, _) => HeadAdvancedKeeps(s, t);
    case NodeOwned(_, _, _) => NodeOwnedKeeps(s, t);
    case _ =>
  }

  lemma BeginKeeps(s: State, t: Tid, a: Action)
    requires Inv(s) && t in s.threads && s.threads[t].Done?
    ensures !Step(s, t, a).Fault?
    ensures Step(s, t, a).Next? ==> Inv(Step(s, t, a).state)
  {
    if a.StartPush? && a.p !in s.heap {
      StartPushKeeps(s, t, a.v, a.p);
    } else if a.StartPop? {
      QuietStep(s, t, Entering(a.kind), s.headLock, s.tailLock);
    }
  }

  lemma StepKeepsInv(s: State, t: Tid, a: Action)
    requires Inv(s) && t in s.threads
    ensures !Step(s, t, a).Fault?
    ensures Step(s, t, a).Next? ==> Inv(Step(s, t, a).state)
  {
    if s.threads[t].Done? {
      BeginKeeps(s, t, a);
    } else {
      PushStepKeeps(s, t);
      PopStepKeeps(s, t);
    }
  }

  lemma {:induction false} RunKeepsInv(s: State, schedule: seq<(Tid, Action)>)
    requires Inv(s)
    ensures Run(s, schedule).Next? && Inv(Run(s, schedule).state)
    decreases |schedule|
  {
    if schedule == [] {
    } else if schedule[0].0 in s.threads {
      StepKeepsInv(s, schedule[0].0, schedule[0].1);
      var next := Step(s, schedule[0].0, schedule[0].1);
      RunKeepsInv(if next.Next? then next.state else s, schedule[1..]);
    } else {
      RunKeepsInv(s, schedule[1..]);
    }
  }

  // ---------- What the source promises ----------

  /** The values met by following `next` from one node up to another, read from the
      memory alone. The last node's own value does not count, and no node on the way
      is the last one, so the walk never goes round. */
  predicate Path(heap: map<Ref, Node>, from: Ref, to: Ref, values: seq<Value>)
    decreases |values|
  {
    if values == [] then from == to
    else
      && from != to
      && from in heap
      && heap[from].data == Some(values[0])
      && heap[from].next.Some?
      && Path(heap, heap[from].next.value, to, values[1..])
  }

  lemma {:induction false} PathUnique(heap: map<Ref, Node>, from: Ref, to: Ref, xs: seq<Value>, ys: seq<Value>)
    requires Path(heap, from, to, xs) && Path(heap, from, to, ys)
    ensures xs == ys
    decreases |xs|
  {
    if xs == [] {
    } else {
      PathUnique(heap, heap[from].next.value, to, xs[1..], ys[1..]);
      assert xs == [xs[0]] + xs[1..] && ys == [ys[0]] + ys[1..];
    }
  }

  lemma {:induction false} ListIsPath(heap: map<Ref, Node>, nodes: seq<Ref>, pushed: seq<Value>, popped: seq<Value>,
        dummy: Node)
    requires ListOk(heap, nodes, pushed, popped, dummy)
    ensures Path(heap, nodes[0], nodes[|nodes| - 1], pushed[|popped|..])
    decreases |nodes|
  {
    if |nodes| > 1 {
      var popped' := popped + [pushed[|popped|]];
      ListUnlink(heap, nodes, pushed, popped, dummy, heap[nodes[0]]);
      assert heap[nodes[0] := heap[nodes[0]]] == heap;
      ListIsPath(heap, nodes[1..], pushed, popped', dummy);
      assert heap[nodes[0]] == Node(Some(pushed[|popped| + 0]), Some(nodes[0 + 1]));
      assert pushed[|popped|..] == [pushed[|popped|]] + pushed[|popped'|..];
    }
  }

  /** In every run of any number of producers and consumers: no step fails, and the
      values popped so far followed by the values found by walking the memory from
      the front of the list to `tail_` are exactly the values pushed, in order. */
  lemma QueueIsFifo(threads: set<Tid>, dummy: Ref, schedule: seq<(Tid, Action)>)
    ensures Run(Init(threads, dummy), schedule).Next?
    ensures var s := Run(Init(threads, dummy), schedule).state;
      Front(s).Some? && s.popped <= s.pushed &&
      forall values :: Path(s.heap, Front(s).value, s.tail, values) <==> s.popped + values == s.pushed
  {
    InitInv(threads, dummy);
    RunKeepsInv(Init(threads, dummy), schedule);
    var s := Run(Init(threads, dummy), schedule).state;
    var rest := s.pushed[|s.popped|..];
    ListIsPath(s.heap, s.nodes, s.pushed, s.popped, Dummy(HolderPC(s.threads, s.tailLock)));
    assert s.popped + rest == s.pushed;
    forall values ensures Path(s.heap, Front(s).value, s.tail, values) <==> s.popped + values == s.pushed {
      if Path(s.heap, Front(s).value, s.tail, values) {
        PathUnique(s.heap, Front(s).value, s.tail, values, rest);
      }
      assert (s.popped + values)[|s.popped|..] == values;
    }
  }

  lemma InitInv(threads: set<Tid>, dummy: Ref)
    ensures Inv(Init(threads, dummy))
  {
  }

  /** In every run: a pop that returned holds the value pushed at its own place in
      the order, no other thread holds that place, and `try_pop` came back with
      nothing, or `empty` said true, exactly when every value pushed before it read
      `tail_` had been popped. */
  lemma AnswersAreRight(threads: set<Tid>, dummy: Ref, schedule: seq<(Tid, Action)>, t: Tid)
    ensures Run(Init(threads, dummy), schedule).Next?
    ensures var s := Run(Init(threads, dummy), schedule).state;
      t in s.threads && s.threads[t].Done? ==>
      match s.threads[t].answer
      case NoAnswer => true
      case Popped(v, slot) =>
        slot < |s.popped| == |s.takers| && s.popped[slot] == v && s.popped <= s.pushed && s.takers[slot] == t
      case Nothing(n, m) => n == m
      case EmptyIs(b, n, m) => b <==> n == m
  {
    InitInv(threads, dummy);
    RunKeepsInv(Init(threads, dummy), schedule);
  }

  /** The totals an answer carries are those at the instant `get_tail` reads
      `tail_`: they agree exactly when the list in memory is empty at that instant. */
  lemma SnapshotInstant(s: State, t: Tid)
    requires Inv(s) && t in s.threads && s.threads[t].BothLocked?
    ensures PopStep(s, t).Next?
    ensures var pc := PopStep(s, t).state.threads[t];
      pc.TailRead? && pc.snap == s.tail &&
      (pc.pushedThen == pc.poppedThen <==> Path(s.heap, Front(s).value, s.tail, []))
  {
    ListIsPath(s.heap, s.nodes, s.pushed, s.popped, Dummy(HolderPC(s.threads, s.tailLock)));
    if s.nodes[0] == s.tail {
      PathUnique(s.heap, s.nodes[0], s.tail, [], s.pushed[|s.popped|..]);
    }
  }

  /** Advancing `head_` removes the oldest value; no other step changes what has been
      popped, and only publishing `tail_` adds to what has been pushed. */
  lemma OrderOnlyGrows(s: State, t: Tid, a: Action)
    requires Inv(s) && t in s.threads && Step(s, t, a).Next?
    ensures s.threads[t].HeadTaken? ==> |s.popped| < |s.pushed|
    ensures var s' := Step(s, t, a).state;
      && s'.pushed == (if s.threads[t].NextLinked? then s.pushed + [s.threads[t].v] else s.pushed)
      && s'.pushers == (if s.threads[t].NextLinked? then s.pushers + [t] else s.pushers)
      && s'.popped == (if s.threads[t].HeadTaken? then s.popped + [s.pushed[|s.popped|]] else s.popped)
      && s'.takers == (if s.threads[t].HeadTaken? then s.takers + [t] else s.takers)
  {
    HistoryStep(s, t, a);
    if s.threads[t].HeadTaken? {
      FirstNode(s);
    }
  }

  lemma HistoryStep(s: State, t: Tid, a: Action)
    requires t in s.threads && Step(s, t, a).Next?
    ensures s.threads[t].HeadTaken? ==>
      s.threads[t].node in s.heap && s.heap[s.threads[t].node].data.Some?
    ensures var s' := Step(s, t, a).state;
      && s'.pushed == (if s.threads[t].NextLinked? then s.pushed + [s.threads[t].v] else s.pushed)
      && s'.pushers == (if s.threads[t].NextLinked? then s.pushers + [t] else s.pushers)
      && s'.popped == (if s.threads[t].HeadTaken?
                       then s.popped + [s.heap[s.threads[t].node].data.value] else s.popped)
      && s'.takers == (if s.threads[t].HeadTaken? then s.takers + [t] else s.takers)
  {
  }

  // ---------- No data race, no leak ----------

  datatype Loc = HeadVar | TailVar | NodeAt(r: Ref)

  /** What a thread's next step reads of the shared variables and nodes. */
  function Reads(s: State, t: Tid): set<Loc>
    requires t in s.threads
  {
    match s.threads[t]
    case TailLocked(_, _) => {TailVar}
    case DataStored(_, _) => {TailVar}
    case BothLocked(_) => {TailVar}
    case Snapped(_, _, _, _) => {HeadVar}
    case Found(kind) =>
      if kind.WaitPopInto? && s.head.Some? then {HeadVar, NodeAt(s.head.value)} else {HeadVar}
    case Copied(_) => {HeadVar}
    case HeadTaken(node, _) => {NodeAt(node)}
    case NodeOwned(node, _, _) => {NodeAt(node)}
    case _ => {}
  }

  /** What it writes, freeing a node included. */
  function Writes(s: State, t: Tid): set<Loc>
    requires t in s.threads
  {
    match s.threads[t]
    case TailLocked(_, _) => {NodeAt(s.tail)}
    case DataStored(_, p) => {NodeAt(s.tail)}
    case NextLinked(_, _) => {TailVar}
    case Found(kind) => if kind.WaitPopInto? then {} else {HeadVar}
    case Copied(_) => {HeadVar}
    case HeadTaken(node, _) => {HeadVar, NodeAt(node)}
    case NodeOwned(node, _, _) => {NodeAt(node)}
    case _ => {}
  }

  /** Two states hold the same at a place. */
  predicate SameAt(s: State, u: State, loc: Loc) {
    match loc
    case HeadVar => s.head == u.head
    case TailVar => s.tail == u.tail
    case NodeAt(r) => (r in s.heap <==> r in u.heap) && (r in s.heap ==> s.heap[r] == u.heap[r])
  }

  /** A step changes only the places it is said to write, and a node it makes. */
  lemma StepWritesOnly(s: State, t: Tid, a: Action, loc: Loc)
    requires t in s.threads && Step(s, t, a).Next? && loc !in Writes(s, t)
    requires a.StartPush? && s.threads[t].Done? ==> loc != NodeAt(a.p)
    ensures SameAt(s, Step(s, t, a).state, loc)
  {
  }

  predicate SameFor(s: State, u: State, places: set<Loc>) {
    forall loc :: loc in places ==> SameAt(s, u, loc)
  }

  /** A thread stands at the same point of its call, with the same locks held around it. */
  predicate SamePoint(s: State, u: State, t: Tid) {
    && t in s.threads && t in u.threads && u.threads[t] == s.threads[t]
    && u.headLock == s.headLock && u.tailLock == s.tailLock
    && |u.pushed| == |s.pushed| && |u.popped| == |s.popped|
  }

  lemma SameFootprint(s: State, u: State, t: Tid)
    requires SamePoint(s, u, t) && SameFor(s, u, Reads(s, t))
    ensures Reads(u, t) == Reads(s, t) && Writes(u, t) == Writes(s, t)
  {
    assert HeadVar in Reads(s, t) ==> SameAt(s, u, HeadVar);
    assert TailVar in Reads(s, t) ==> SameAt(s, u, TailVar);
  }

  lemma PushReadsOnly(s: State, u: State, t: Tid)
    requires SamePoint(s, u, t) && SameFor(s, u, Reads(s, t))
    requires PushStep(s, t).Next? && PushStep(u, t).Next?
    ensures SamePoint(PushStep(s, t).state, PushStep(u, t).state, t)
  {
  }

  /** The steps of a pop that take or look at `head_`. */
  lemma HeadReadsOnly(s: State, u: State, t: Tid)
    requires SamePoint(s, u, t) && SameFor(s, u, Reads(s, t))
    requires s.threads[t].Snapped? || s.threads[t].Found? || s.threads[t].Copied?
    requires PopStep(s, t).Next? && PopStep(u, t).Next?
    ensures SamePoint(PopStep(s, t).state, PopStep(u, t).state, t)
  {
    assert SameAt(s, u, HeadVar);
    if s.threads[t].Found? && s.threads[t].kind.WaitPopInto? {
      assert SameAt(s, u, NodeAt(s.head.value));
    }
  }

  /** Those that look at the node they have taken. */
  lemma NodeReadsOnly(s: State, u: State, t: Tid)
    requires SamePoint(s, u, t) && SameFor(s, u, Reads(s, t))
    requires s.threads[t].HeadTaken? || s.threads[t].NodeOwned?
    requires PopStep(s, t).Next? && PopStep(u, t).Next?
    ensures SamePoint(PopStep(s, t).state, PopStep(u, t).state, t)
  {
    assert SameAt(s, u, NodeAt(s.threads[t].node));
  }

  lemma TailReadsOnly(s: State, u: State, t: Tid)
    requires SamePoint(s, u, t) && SameFor(s, u, Reads(s, t))
    requires s.threads[t].BothLocked? && PopStep(s, t).Next? && PopStep(u, t).Next?
    ensures SamePoint(PopStep(s, t).state, PopStep(u, t).state, t)
  {
    assert SameAt(s, u, TailVar);
  }

  /** The steps of a pop that look at nothing but a lock. */
  predicate Blind(pc: PC) {
    pc.Entering? || pc.HeadLocked? || pc.TailRead? || pc.Answered? || pc.HeadAdvanced?
  }

  lemma BlindReadsOnly(s: State, u: State, t: Tid)
    requires SamePoint(s, u, t) && Blind(s.threads[t]) && PopStep(s, t).Next? && PopStep(u, t).Next?
    ensures SamePoint(PopStep(s, t).state, PopStep(u, t).state, t)
  {
  }

  /** Inside a call, where a step takes its thread and the locks depends only on the places
      it is said to read, */
  lemma StepReadsOnly(s: State, u: State, t: Tid)
    requires SamePoint(s, u, t) && SameFor(s, u, Reads(s, t))
    requires Step(s, t, Advance).Next? && Step(u, t, Advance).Next?
    ensures SamePoint(Step(s, t, Advance).state, Step(u, t, Advance).state, t)
  {
    var pc := s.threads[t];
    if !(HoldsHead(pc) || pc.Entering? || pc.NodeOwned?) {
      PushReadsOnly(s, u, t);
    } else if Blind(pc) {
      BlindReadsOnly(s, u, t);
    } else if pc.BothLocked? {
      TailReadsOnly(s, u, t);
    } else if pc.HeadTaken? || pc.NodeOwned? {
      NodeReadsOnly(s, u, t);
    } else {
      HeadReadsOnly(s, u, t);
    }
  }

  /** and what it writes only on those and on what it overwrites. */
  lemma StepWritesFrom(s: State, u: State, t: Tid)
    requires SamePoint(s, u, t) && SameFor(s, u, Reads(s, t)) && SameFor(s, u, Writes(s, t))
    requires Step(s, t, Advance).Next? && Step(u, t, Advance).Next?
    ensures SameFor(Step(s, t, Advance).state, Step(u, t, Advance).state, Writes(s, t))
  {
    SameFootprint(s, u, t);
    forall loc | loc in Writes(s, t)
      ensures SameAt(Step(s, t, Advance).state, Step(u, t, Advance).state, loc)
    {
      WrittenAlike(s, u, t, loc);
    }
  }

  lemma WrittenAlike(s: State, u: State, t: Tid, loc: Loc)
    requires SamePoint(s, u, t) && SameFor(s, u, Reads(s, t)) && loc in Writes(s, t) && SameAt(s, u, loc)
    requires Step(s, t, Advance).Next? && Step(u, t, Advance).Next?
    ensures SameAt(Step(s, t, Advance).state, Step(u, t, Advance).state, loc)
  {
    var pc := s.threads[t];
    if HoldsHead(pc) || pc.Entering? || pc.NodeOwned? {
      PoppedAlike(s, u, t, loc);
    } else {
      PushedAlike(s, u, t, loc);
    }
  }

  lemma PushedAlike(s: State, u: State, t: Tid, loc: Loc)
    requires SamePoint(s, u, t) && SameFor(s, u, Reads(s, t)) && loc in Writes(s, t) && SameAt(s, u, loc)
    requires PushStep(s, t).Next? && PushStep(u, t).Next?
    ensures SameAt(PushStep(s, t).state, PushStep(u, t).state, loc)
  {
    assert TailVar in Reads(s, t) ==> SameAt(s, u, TailVar);
  }

  lemma PoppedAlike(s: State, u: State, t: Tid, loc: Loc)
    requires SamePoint(s, u, t) && SameFor(s, u, Reads(s, t)) && loc in Writes(s, t) && SameAt(s, u, loc)
    requires PopStep(s, t).Next? && PopStep(u, t).Next?
    ensures SameAt(PopStep(s, t).state, PopStep(u, t).state, loc)
  {
    if s.threads[t].HeadTaken? || s.threads[t].NodeOwned? {
      assert SameAt(s, u, NodeAt(s.threads[t].node));
    }
  }

  /** In every run no two threads are ever about to touch the same variable or node
      with one of them writing it. In particular a consumer holding the head lock
      alone, however stale its snapshot of the tail, never meets the node a producer
      is filling under the tail lock. */
  lemma NoDataRace(threads: set<Tid>, dummy: Ref, schedule: seq<(Tid, Action)>, t: Tid, u: Tid)
    requires t in threads && u in threads && t != u
    ensures Run(Init(threads, dummy), schedule).Next?
    ensures var s := Run(Init(threads, dummy), schedule).state;
      t in s.threads && u in s.threads ==> Writes(s, t) !! Reads(s, u) + Writes(s, u)
  {
    InitInv(threads, dummy);
    RunKeepsInv(Init(threads, dummy), schedule);
    var s := Run(Init(threads, dummy), schedule).state;
    if t in s.threads && u in s.threads {
      WriteIsExclusive(s, t, u);
    }
  }

  predicate Touches(s: State, t: Tid, loc: Loc)
    requires t in s.threads
  {
    loc in Reads(s, t) || loc in Writes(s, t)
  }

  /** A variable is touched under its lock. */
  lemma VariableUnderLock(s: State, t: Tid)
    requires t in s.threads
    ensures Touches(s, t, HeadVar) ==> HoldsHead(s.threads[t])
    ensures Touches(s, t, TailVar) ==> HoldsTail(s.threads[t])
  {
  }

  /** A node is touched as the last one under the tail lock, as the first of several under
      the head lock, or as the thread's own. */
  lemma NodeUnderLock(s: State, t: Tid, r: Ref)
    requires Inv(s) && t in s.threads && Touches(s, t, NodeAt(r))
    ensures
      || (r == s.tail && HoldsTail(s.threads[t]))
      || (|s.nodes| > 1 && r == s.nodes[0] && HoldsHead(s.threads[t]))
      || Owned(s.threads[t]) == Some(r)
  {
    assert ThreadOk(s.heap, s.nodes, s.popped, s.threads[t]);
  }

  lemma OneHolder(s: State, t: Tid, u: Tid)
    requires LocksOk(s.threads, s.headLock, s.tailLock) && t in s.threads && u in s.threads && t != u
    ensures !(HoldsHead(s.threads[t]) && HoldsHead(s.threads[u]))
    ensures !(HoldsTail(s.threads[t]) && HoldsTail(s.threads[u]))
  {
  }

  lemma OneOwner(s: State, t: Tid, u: Tid, r: Ref)
    requires OwnersOk(s.heap.Keys, s.nodes, s.owner, s.threads) && t in s.threads && u in s.threads && t != u
    requires Owned(s.threads[t]) == Some(r)
    ensures Owned(s.threads[u]) != Some(r) && r !in s.nodes
  {
  }

  /** No two threads are about to touch the same place. */
  lemma TouchedByOne(s: State, t: Tid, u: Tid, loc: Loc)
    requires Inv(s) && t in s.threads && u in s.threads && t != u && Touches(s, t, loc)
    ensures !Touches(s, u, loc)
  {
    OneHolder(s, t, u);
    VariableUnderLock(s, t);
    VariableUnderLock(s, u);
    if loc.NodeAt? && Touches(s, u, loc) {
      NodeUnderLock(s, t, loc.r);
      NodeUnderLock(s, u, loc.r);
      OffTail(s, t);
      assert s.tail in s.nodes && s.nodes[0] in s.nodes;
      if Owned(s.threads[t]) == Some(loc.r) {
        OneOwner(s, t, u, loc.r);
      } else if Owned(s.threads[u]) == Some(loc.r) {
        OneOwner(s, u, t, loc.r);
      }
    }
  }

  lemma WriteIsExclusive(s: State, t: Tid, u: Tid)
    requires Inv(s) && t in s.threads && u in s.threads && t != u
    ensures Writes(s, t) !! Reads(s, u) + Writes(s, u)
  {
    forall loc | loc in Writes(s, t) ensures loc !in Reads(s, u) + Writes(s, u) {
      TouchedByOne(s, t, u, loc);
    }
  }

  /** Every node is freed once it leaves the list: when no call is in progress the
      memory is the list and nothing else. */
  lemma NoLeak(threads: set<Tid>, dummy: Ref, schedule: seq<(Tid, Action)>)
    ensures Run(Init(threads, dummy), schedule).Next?
    ensures var s := Run(Init(threads, dummy), schedule).state;
      (forall t :: t in s.threads ==> s.threads[t].Done?) ==>
        s.heap.Keys == Elements(s.nodes) && |s.heap| == |s.pushed| - |s.popped| + 1
  {
    InitInv(threads, dummy);
    RunKeepsInv(Init(threads, dummy), schedule);
    var s := Run(Init(threads, dummy), schedule).state;
    if forall t :: t in s.threads ==> s.threads[t].Done? {
      assert forall r :: r !in s.owner;
      DistinctSize(s.nodes);
      assert s.heap.Keys == Elements(s.nodes);
      assert |s.heap| == |s.heap.Keys|;
    }
  }

  function Elements(xs: seq<Ref>): set<Ref> {
    set x | x in xs
  }

  lemma {:induction false} DistinctSize(xs: seq<Ref>)
    requires Distinct(xs)
    ensures |Elements(xs)| == |xs|
  {
    if xs == [] {
    } else {
      var n := |xs| - 1;
      DistinctSize(xs[..n]);
      assert Elements(xs) == Elements(xs[..n]) + {xs[n]} && xs[n] !in Elements(xs[..n]);
    }
  }
}
