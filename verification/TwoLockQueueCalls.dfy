/** The two-lock queue seen by its callers: what they asked for, read from the schedule of
    a run, against what the queue did with it. */
module TwoLockQueueCalls {
  import opened Wrappers
  import opened Histories
  import opened TwoLockQueue

  // ---------- What the schedule asks ----------

  /** The call that this step begins, if it begins one. */
  function Begins(s: State, t: Tid, a: Action): Option<Action>
    requires t in s.threads
  {
    if s.threads[t].Done? && Step(s, t, a).Next? then Some(a) else None
  }

  /** The value that this step gives thread `u` to push. */
  function ToldNow(s: State, t: Tid, a: Action, u: Tid): seq<Value>
    requires t in s.threads
  {
    if t != u then []
    else match Begins(s, t, a)
      case Some(StartPush(v, _)) => [v]
      case _ => []
  }

  /** The state after a step, which a blocked thread leaves alone. */
  function After(s: State, t: Tid, a: Action): State
    requires t in s.threads
  {
    if Step(s, t, a).Next? then Step(s, t, a).state else s
  }

  /** The values that a run tells thread `u` to push, in order. */
  function Told(s: State, schedule: seq<(Tid, Action)>, u: Tid): seq<Value>
    decreases |schedule|
  {
    if schedule == [] then []
    else
      var (t, a) := schedule[0];
      if t !in s.threads then Told(s, schedule[1..], u)
      else ToldNow(s, t, a, u) + Told(After(s, t, a), schedule[1..], u)
  }

  /** The values that a run tells any thread to push. */
  function ToldAll(s: State, schedule: seq<(Tid, Action)>): seq<Value>
    decreases |schedule|
  {
    if schedule == [] then []
    else
      var (t, a) := schedule[0];
      if t !in s.threads then ToldAll(s, schedule[1..])
      else ToldNow(s, t, a, t) + ToldAll(After(s, t, a), schedule[1..])
  }

  /** The last call that thread `u` began in a run, or else `call`. */
  function LastCall(s: State, schedule: seq<(Tid, Action)>, u: Tid, call: Option<Action>): Option<Action>
    decreases |schedule|
  {
    if schedule == [] then call
    else
      var (t, a) := schedule[0];
      if t !in s.threads then LastCall(s, schedule[1..], u, call)
      else
        var call1 := if t == u && Begins(s, t, a).Some? then Some(a) else call;
        LastCall(After(s, t, a), schedule[1..], u, call1)
  }

  function Got(s: State, t: Tid): seq<Value> {
    if t !in s.threads then []
    else match s.threads[t]
      case Done(Popped(v, _)) => [v]
      case _ => []
  }

  /** The value that this step returns from a pop of thread `u`. */
  function ReturnedNow(s: State, t: Tid, a: Action, u: Tid): seq<Value>
    requires t in s.threads
  {
    if t == u && Step(s, t, a).Next? then Got(After(s, t, a), t) else []
  }

  /** The values that a run returns from the pops of thread `u`, in order. */
  function Returned(s: State, schedule: seq<(Tid, Action)>, u: Tid): seq<Value>
    decreases |schedule|
  {
    if schedule == [] then []
    else
      var (t, a) := schedule[0];
      if t !in s.threads then Returned(s, schedule[1..], u)
      else ReturnedNow(s, t, a, u) + Returned(After(s, t, a), schedule[1..], u)
  }

  lemma RunSplits(s: State, schedule: seq<(Tid, Action)>)
    requires schedule != [] && schedule[0].0 in s.threads && !Step(s, schedule[0].0, schedule[0].1).Fault?
    ensures Run(s, schedule) == Run(After(s, schedule[0].0, schedule[0].1), schedule[1..])
  {
  }

  // ---------- What was pushed is what callers asked to push ----------

  /** The value of a push under way, not yet published. */
  function InHand(pc: PC): seq<Value> {
    match pc
    case NodeMade(v, _) => [v]
    case TailLocked(v, _) => [v]
    case DataStored(v, _) => [v]
    case NextLinked(v, _) => [v]
    case _ => []
  }

  predicate InPop(pc: PC) {
    HoldsHead(pc) || pc.Entering? || pc.NodeOwned?
  }

  lemma PushTouchesOne(s: State, t: Tid)
    requires t in s.threads && PushStep(s, t).Next?
    ensures var s' := PushStep(s, t).state; t in s'.threads && s'.threads == s.threads[t := s'.threads[t]]
  {
  }

  /** The steps of a pop up to the comparison of `head_` with the tail. */
  predicate Early(pc: PC) {
    pc.Entering? || pc.HeadLocked? || pc.BothLocked? || pc.TailRead? || pc.Snapped? || pc.Answered?
  }

  /** What no step of a pop touches. */
  predicate PopOnly(s: State, t: Tid, s': State)
    requires t in s.threads
  {
    && t in s'.threads && s'.threads == s.threads[t := s'.threads[t]]
    && s'.pushed == s.pushed && s'.pushers == s.pushers
    && InHand(s'.threads[t]) == InHand(s.threads[t]) == []
  }

  lemma EarlyPopOnly(s: State, t: Tid)
    requires t in s.threads && PopStep(s, t).Next? && Early(s.threads[t])
    ensures PopOnly(s, t, PopStep(s, t).state)
  {
  }

  lemma LatePopOnly(s: State, t: Tid)
    requires t in s.threads && PopStep(s, t).Next? && !Early(s.threads[t])
    ensures PopOnly(s, t, PopStep(s, t).state)
  {
  }

  lemma PopTouchesOne(s: State, t: Tid)
    requires t in s.threads && PopStep(s, t).Next?
    ensures PopOnly(s, t, PopStep(s, t).state)
  {
    if Early(s.threads[t]) {
      EarlyPopOnly(s, t);
    } else {
      LatePopOnly(s, t);
    }
  }

  /** A step moves its own thread only. */
  lemma TouchesOne(s: State, t: Tid, a: Action)
    requires t in s.threads
    ensures var s' := After(s, t, a); t in s'.threads && s'.threads == s.threads[t := s'.threads[t]]
  {
    assert s.threads == s.threads[t := s.threads[t]];
    if !s.threads[t].Done? && a.Advance? && Step(s, t, a).Next? {
      if InPop(s.threads[t]) {
        PopTouchesOne(s, t);
      } else {
        PushTouchesOne(s, t);
      }
    }
  }

  lemma OthersStay(s: State, t: Tid, a: Action, u: Tid)
    requires t in s.threads && u in s.threads && t != u
    ensures u in After(s, t, a).threads && After(s, t, a).threads[u] == s.threads[u]
  {
    TouchesOne(s, t, a);
  }

  lemma PushHand(s: State, t: Tid)
    requires t in s.threads && PushStep(s, t).Next?
    ensures var s' := PushStep(s, t).state;
      && t in s'.threads
      && (if s.threads[t].NextLinked? then
            && InHand(s'.threads[t]) == [] && s'.pushed == s.pushed + InHand(s.threads[t])
            && s'.pushers == s.pushers + [t]
          else
            s'.pushed == s.pushed && s'.pushers == s.pushers && InHand(s'.threads[t]) == InHand(s.threads[t]))
  {
  }

  /** A step turns the value asked for into one in hand, and that into one published. */
  lemma HandMoves(s: State, t: Tid, a: Action)
    requires t in s.threads
    ensures var s' := After(s, t, a);
      && t in s'.threads
      && (s.threads[t].NextLinked? && a.Advance? ==>
            && InHand(s'.threads[t]) == [] && s'.pushed == s.pushed + InHand(s.threads[t])
            && s'.pushers == s.pushers + [t])
      && (!(s.threads[t].NextLinked? && a.Advance?) ==>
            && s'.pushed == s.pushed && s'.pushers == s.pushers
            && InHand(s'.threads[t]) == InHand(s.threads[t]) + ToldNow(s, t, a, t))
      && (ToldNow(s, t, a, t) != [] ==> InHand(s.threads[t]) == [])
  {
    if !s.threads[t].Done? && a.Advance? && Step(s, t, a).Next? {
      if InPop(s.threads[t]) {
        PopTouchesOne(s, t);
      } else {
        PushHand(s, t);
      }
    }
  }

  lemma StepToldOther(s: State, t: Tid, a: Action, u: Tid)
    requires t in s.threads && u in s.threads && t != u && |s.pushers| == |s.pushed|
    ensures var s' := After(s, t, a);
      && u in s'.threads && s'.threads[u] == s.threads[u] && |s'.pushers| == |s'.pushed|
      && By(s'.pushed, s'.pushers, u) == By(s.pushed, s.pushers, u) && ToldNow(s, t, a, u) == []
  {
    HandMoves(s, t, a);
    OthersStay(s, t, a, u);
    if s.threads[t].NextLinked? && a.Advance? {
      ByPush(s.pushed, s.pushers, s.threads[t].v, t, u);
    }
  }

  lemma StepToldOwn(s: State, t: Tid, a: Action)
    requires t in s.threads && |s.pushers| == |s.pushed|
    ensures var s' := After(s, t, a);
      && t in s'.threads && |s'.pushers| == |s'.pushed|
      && By(s'.pushed, s'.pushers, t) + InHand(s'.threads[t]) ==
           By(s.pushed, s.pushers, t) + InHand(s.threads[t]) + ToldNow(s, t, a, t)
  {
    HandMoves(s, t, a);
    if s.threads[t].NextLinked? && a.Advance? {
      ByPush(s.pushed, s.pushers, s.threads[t].v, t, t);
    } else {
      Regroup(By(s.pushed, s.pushers, t), InHand(s.threads[t]), ToldNow(s, t, a, t));
    }
  }

  lemma StepTold(s: State, t: Tid, a: Action, u: Tid)
    requires t in s.threads && u in s.threads && |s.pushers| == |s.pushed|
    ensures var s' := After(s, t, a);
      && u in s'.threads && |s'.pushers| == |s'.pushed|
      && By(s'.pushed, s'.pushers, u) + InHand(s'.threads[u]) ==
           By(s.pushed, s.pushers, u) + InHand(s.threads[u]) + ToldNow(s, t, a, u)
  {
    if t == u {
      StepToldOwn(s, t, a);
    } else {
      StepToldOther(s, t, a, u);
      Regroup(By(s.pushed, s.pushers, u), InHand(s.threads[u]), []);
    }
  }

  lemma {:induction false} RunTold(s: State, schedule: seq<(Tid, Action)>, u: Tid)
    requires Inv(s) && u in s.threads && |s.pushers| == |s.pushed|
    ensures Run(s, schedule).Next?
    ensures var s' := Run(s, schedule).state;
      && u in s'.threads && |s'.pushers| == |s'.pushed|
      && By(s'.pushed, s'.pushers, u) + InHand(s'.threads[u]) ==
           By(s.pushed, s.pushers, u) + InHand(s.threads[u]) + Told(s, schedule, u)
    decreases |schedule|
  {
    if schedule == [] {
      NothingAdded(By(s.pushed, s.pushers, u) + InHand(s.threads[u]));
    } else if schedule[0].0 in s.threads {
      var (t, a) := schedule[0];
      StepKeepsInv(s, t, a);
      StepTold(s, t, a, u);
      RunSplits(s, schedule);
      RunTold(After(s, t, a), schedule[1..], u);
      Regroup(By(s.pushed, s.pushers, u) + InHand(s.threads[u]), ToldNow(s, t, a, u),
              Told(After(s, t, a), schedule[1..], u));
    } else {
      RunTold(s, schedule[1..], u);
    }
  }

  /** In every run, for every thread: what it has published, followed by what it is about to
      publish, is what its calls of `push` were given, in order. */
  lemma PushedAsTold(threads: set<Tid>, dummy: Ref, schedule: seq<(Tid, Action)>, u: Tid)
    requires u in threads
    ensures Run(Init(threads, dummy), schedule).Next?
    ensures var s := Run(Init(threads, dummy), schedule).state;
      && u in s.threads && |s.pushers| == |s.pushed|
      && By(s.pushed, s.pushers, u) + InHand(s.threads[u]) == Told(Init(threads, dummy), schedule, u)
  {
    InitInv(threads, dummy);
    RunTold(Init(threads, dummy), schedule, u);
  }

  // ---------- All threads together ----------

  /** The threads that have this value in hand. */
  function Holding(threads: map<Tid, PC>, v: Value): set<Tid> {
    set t | t in threads && InHand(threads[t]) == [v]
  }

  function One(b: bool): nat {
    if b then 1 else 0
  }

  lemma HoldingSplit(threads: map<Tid, PC>, t: Tid, v: Value)
    requires t in threads
    ensures |Holding(threads, v)| == |Holding(threads - {t}, v)| + One(InHand(threads[t]) == [v])
  {
    if InHand(threads[t]) == [v] {
      assert Holding(threads, v) == Holding(threads - {t}, v) + {t};
    } else {
      assert Holding(threads, v) == Holding(threads - {t}, v);
    }
  }

  lemma HoldingUpdate(threads: map<Tid, PC>, t: Tid, pc: PC, v: Value)
    requires t in threads
    ensures |Holding(threads[t := pc], v)| + One(InHand(threads[t]) == [v]) ==
      |Holding(threads, v)| + One(InHand(pc) == [v])
  {
    HoldingSplit(threads, t, v);
    HoldingSplit(threads[t := pc], t, v);
    assert threads[t := pc] - {t} == threads - {t};
  }

  lemma StepCounts(s: State, t: Tid, a: Action, v: Value)
    requires t in s.threads
    ensures var s' := After(s, t, a);
      multiset(s'.pushed)[v] + |Holding(s'.threads, v)| ==
      multiset(s.pushed)[v] + |Holding(s.threads, v)| + multiset(ToldNow(s, t, a, t))[v]
  {
    var s' := After(s, t, a);
    HandMoves(s, t, a);
    TouchesOne(s, t, a);
    HoldingUpdate(s.threads, t, s'.threads[t], v);
  }

  lemma {:induction false} RunCounts(s: State, schedule: seq<(Tid, Action)>, v: Value)
    requires Inv(s)
    ensures Run(s, schedule).Next?
    ensures var s' := Run(s, schedule).state;
      multiset(s'.pushed)[v] + |Holding(s'.threads, v)| ==
      multiset(s.pushed)[v] + |Holding(s.threads, v)| + multiset(ToldAll(s, schedule))[v]
    decreases |schedule|
  {
    if schedule == [] {
    } else if schedule[0].0 in s.threads {
      var (t, a) := schedule[0];
      StepKeepsInv(s, t, a);
      StepCounts(s, t, a, v);
      RunSplits(s, schedule);
      RunCounts(After(s, t, a), schedule[1..], v);
    } else {
      RunCounts(s, schedule[1..], v);
    }
  }

  /** In every run every value has been published, or is in some thread's hand, exactly as
      often as the calls of `push` were given it. */
  lemma NothingLostOrMade(threads: set<Tid>, dummy: Ref, schedule: seq<(Tid, Action)>, v: Value)
    ensures Run(Init(threads, dummy), schedule).Next?
    ensures var s := Run(Init(threads, dummy), schedule).state;
      multiset(s.pushed)[v] + |Holding(s.threads, v)| == multiset(ToldAll(Init(threads, dummy), schedule))[v]
  {
    InitInv(threads, dummy);
    RunCounts(Init(threads, dummy), schedule, v);
    assert Holding(Init(threads, dummy).threads, v) == {};
  }

  // ---------- What was popped is what callers got ----------

  /** The value of a pop that has left the list and not returned yet. */
  function Grasped(popped: seq<Value>, pc: PC): seq<Value> {
    match pc
    case HeadAdvanced(_, slot, _) => if slot < |popped| then [popped[slot]] else []
    case NodeOwned(_, slot, _) => if slot < |popped| then [popped[slot]] else []
    case _ => []
  }

  lemma PushGrasp(s: State, t: Tid)
    requires t in s.threads && PushStep(s, t).Next?
    ensures var s' := PushStep(s, t).state;
      && t in s'.threads && s'.popped == s.popped && s'.takers == s.takers
      && Grasped(s'.popped, s'.threads[t]) == Grasped(s.popped, s.threads[t]) == []
      && (s'.threads[t].Done? ==> s'.threads[t].answer.NoAnswer?)
  {
  }

  /** The steps of a pop that neither take the first node off nor return. */
  lemma QuietGrasp(s: State, t: Tid)
    requires t in s.threads && PopStep(s, t).Next? && ThreadOk(s.heap, s.nodes, s.popped, s.threads[t])
    requires !s.threads[t].HeadTaken? && !s.threads[t].NodeOwned?
    ensures var s' := PopStep(s, t).state;
      && t in s'.threads && s'.popped == s.popped && s'.takers == s.takers
      && Grasped(s'.popped, s'.threads[t]) == Grasped(s.popped, s.threads[t])
      && (s'.threads[t].Done? ==> !s'.threads[t].answer.Popped?)
  {
  }

  lemma ReturnGrasp(s: State, t: Tid)
    requires t in s.threads && PopStep(s, t).Next? && ThreadOk(s.heap, s.nodes, s.popped, s.threads[t])
    requires s.threads[t].NodeOwned?
    ensures var s' := PopStep(s, t).state;
      && t in s'.threads && s'.popped == s.popped && s'.takers == s.takers
      && Grasped(s.popped, s.threads[t]) == [s.popped[s.threads[t].slot]]
      && s'.threads[t] == Done(Popped(s.popped[s.threads[t].slot], s.threads[t].slot))
  {
  }

  lemma TakeGrasp(s: State, t: Tid)
    requires t in s.threads && PopStep(s, t).Next? && s.threads[t].HeadTaken?
    ensures var s' := PopStep(s, t).state;
      && t in s'.threads && |s'.popped| == |s.popped| + 1 && s'.popped == s.popped + [s'.popped[|s.popped|]]
      && s'.takers == s.takers + [t]
      && Grasped(s'.popped, s'.threads[t]) == [s'.popped[|s.popped|]] && !s'.threads[t].Done?
  {
  }

  predicate Takes(s: State, t: Tid, a: Action)
    requires t in s.threads
  {
    s.threads[t].HeadTaken? && a.Advance? && Step(s, t, a).Next?
  }

  /** A step takes a value into a thread's grasp, and returns it. */
  lemma GraspMoves(s: State, t: Tid, a: Action)
    requires t in s.threads && ThreadOk(s.heap, s.nodes, s.popped, s.threads[t])
    ensures var s' := After(s, t, a);
      && t in s'.threads
      && (Takes(s, t, a) ==>
            && |s'.popped| == |s.popped| + 1 && s'.popped == s.popped + [s'.popped[|s.popped|]]
            && s'.takers == s.takers + [t] && Grasped(s.popped, s.threads[t]) == [] && ReturnedNow(s, t, a, t) == []
            && Grasped(s'.popped, s'.threads[t]) == [s'.popped[|s.popped|]])
      && (!Takes(s, t, a) ==>
            && s'.popped == s.popped && s'.takers == s.takers
            && ReturnedNow(s, t, a, t) + Grasped(s'.popped, s'.threads[t]) == Grasped(s.popped, s.threads[t]))
  {
    if !s.threads[t].Done? && a.Advance? && Step(s, t, a).Next? {
      if !InPop(s.threads[t]) {
        PushGrasp(s, t);
      } else if s.threads[t].HeadTaken? {
        TakeGrasp(s, t);
      } else if s.threads[t].NodeOwned? {
        ReturnGrasp(s, t);
      } else {
        QuietGrasp(s, t);
      }
    }
  }

  lemma GraspStays(s: State, t: Tid, a: Action, u: Tid)
    requires Inv(s) && t in s.threads && u in s.threads && t != u && s.popped <= After(s, t, a).popped
    ensures u in After(s, t, a).threads
    ensures Grasped(After(s, t, a).popped, After(s, t, a).threads[u]) == Grasped(s.popped, s.threads[u])
  {
    OthersStay(s, t, a, u);
    assert ThreadOk(s.heap, s.nodes, s.popped, s.threads[u]);
  }

  lemma StepReturned(s: State, t: Tid, a: Action, u: Tid, before: seq<Value>)
    requires Inv(s) && t in s.threads && u in s.threads
    requires |s.takers| == |s.popped| && By(s.popped, s.takers, u) == before + Grasped(s.popped, s.threads[u])
    ensures var s' := After(s, t, a);
      && u in s'.threads && |s'.takers| == |s'.popped|
      && By(s'.popped, s'.takers, u) == before + ReturnedNow(s, t, a, u) + Grasped(s'.popped, s'.threads[u])
  {
    var s' := After(s, t, a);
    assert ThreadOk(s.heap, s.nodes, s.popped, s.threads[t]);
    GraspMoves(s, t, a);
    if Takes(s, t, a) {
      ByPush(s.popped, s.takers, s'.popped[|s.popped|], t, u);
    }
    if t != u {
      GraspStays(s, t, a, u);
      assert before + [] == before;
    } else {
      Regroup(before, ReturnedNow(s, t, a, u), Grasped(s'.popped, s'.threads[u]));
    }
  }

  lemma {:induction false} RunReturned(s: State, schedule: seq<(Tid, Action)>, u: Tid, before: seq<Value>)
    requires Inv(s) && u in s.threads
    requires |s.takers| == |s.popped| && By(s.popped, s.takers, u) == before + Grasped(s.popped, s.threads[u])
    ensures Run(s, schedule).Next?
    ensures var s' := Run(s, schedule).state;
      && u in s'.threads && |s'.takers| == |s'.popped|
      && By(s'.popped, s'.takers, u) == before + Returned(s, schedule, u) + Grasped(s'.popped, s'.threads[u])
    decreases |schedule|
  {
    if schedule == [] {
      assert before + [] == before;
    } else if schedule[0].0 in s.threads {
      var (t, a) := schedule[0];
      StepKeepsInv(s, t, a);
      StepReturned(s, t, a, u, before);
      RunSplits(s, schedule);
      RunReturned(After(s, t, a), schedule[1..], u, before + ReturnedNow(s, t, a, u));
      Regroup(before, ReturnedNow(s, t, a, u), Returned(After(s, t, a), schedule[1..], u));
    } else {
      RunReturned(s, schedule[1..], u, before);
    }
  }

  /** In every run, for every thread: what its pops have returned, followed by what it has
      taken off the list and not returned yet, is what it took off, in order. So no value
      taken is dropped, and none is returned twice. */
  lemma ReturnedAsTaken(threads: set<Tid>, dummy: Ref, schedule: seq<(Tid, Action)>, u: Tid)
    requires u in threads
    ensures Run(Init(threads, dummy), schedule).Next?
    ensures var s := Run(Init(threads, dummy), schedule).state;
      && u in s.threads && |s.takers| == |s.popped|
      && By(s.popped, s.takers, u) == Returned(Init(threads, dummy), schedule, u) + Grasped(s.popped, s.threads[u])
  {
    InitInv(threads, dummy);
    RunReturned(Init(threads, dummy), schedule, u, []);
    assert [] + Returned(Init(threads, dummy), schedule, u) == Returned(Init(threads, dummy), schedule, u);
  }

  // ---------- Each call gets an answer of its kind ----------

  predicate AnswerFits(kind: PopKind, answer: Answer) {
    match kind
    case TryPop => answer.Popped? || answer.Nothing?
    case WaitPop => answer.Popped?
    case WaitPopInto => answer.Popped?
    case IsEmpty => answer.EmptyIs?
  }

  /** Where a thread can stand in its last call. */
  predicate Stands(call: Option<Action>, pc: PC) {
    match call
    case None => pc == Done(NoAnswer)
    case Some(StartPush(v, p)) =>
      pc == NodeMade(v, p) || pc == TailLocked(v, p) || pc == DataStored(v, p) || pc == NextLinked(v, p) ||
      pc.TailMoved? || pc == Done(NoAnswer)
    case Some(StartPop(kind)) => StandsInPop(kind, pc)
    case Some(Advance) => false
  }

  predicate StandsInPop(kind: PopKind, pc: PC) {
    match pc
    case Entering(k) => k == kind
    case HeadLocked(k) => k == kind
    case BothLocked(k) => k == kind
    case TailRead(k, _, _, _) => k == kind
    case Snapped(k, _, _, _) => k == kind
    case Answered(answer) => AnswerFits(kind, answer)
    case Found(k) => k == kind && !kind.IsEmpty?
    case Copied(_) => kind.WaitPopInto?
    case HeadTaken(_, copy) => !kind.IsEmpty? && (copy.Some? <==> kind.WaitPopInto?)
    case HeadAdvanced(_, _, copy) => !kind.IsEmpty? && (copy.Some? <==> kind.WaitPopInto?)
    case NodeOwned(_, _, copy) => !kind.IsEmpty? && (copy.Some? <==> kind.WaitPopInto?)
    case Done(answer) => AnswerFits(kind, answer)
    case _ => false
  }

  lemma PushStands(s: State, t: Tid, call: Option<Action>)
    requires t in s.threads && Stands(call, s.threads[t]) && PushStep(s, t).Next?
    ensures t in PushStep(s, t).state.threads && Stands(call, PushStep(s, t).state.threads[t])
  {
  }

  lemma PopStands(s: State, t: Tid, kind: PopKind)
    requires t in s.threads && StandsInPop(kind, s.threads[t]) && PopStep(s, t).Next?
    ensures t in PopStep(s, t).state.threads && StandsInPop(kind, PopStep(s, t).state.threads[t])
  {
  }

  lemma StepStands(s: State, t: Tid, a: Action, call: Option<Action>)
    requires t in s.threads && Stands(call, s.threads[t])
    ensures t in After(s, t, a).threads
    ensures Stands(if Begins(s, t, a).Some? then Some(a) else call, After(s, t, a).threads[t])
  {
    if !s.threads[t].Done? && a.Advance? && Step(s, t, a).Next? {
      if InPop(s.threads[t]) {
        PopStands(s, t, call.value.kind);
      } else {
        PushStands(s, t, call);
      }
    }
  }

  lemma {:induction false} RunStands(s: State, schedule: seq<(Tid, Action)>, u: Tid, call: Option<Action>)
    requires Inv(s) && u in s.threads && Stands(call, s.threads[u])
    ensures Run(s, schedule).Next? && u in Run(s, schedule).state.threads
    ensures Stands(LastCall(s, schedule, u, call), Run(s, schedule).state.threads[u])
    decreases |schedule|
  {
    if schedule == [] {
    } else if schedule[0].0 in s.threads {
      var (t, a) := schedule[0];
      StepKeepsInv(s, t, a);
      RunSplits(s, schedule);
      if t == u {
        StepStands(s, t, a, call);
        RunStands(After(s, t, a), schedule[1..], u, if Begins(s, t, a).Some? then Some(a) else call);
      } else {
        OthersStay(s, t, a, u);
        RunStands(After(s, t, a), schedule[1..], u, call);
      }
    } else {
      RunStands(s, schedule[1..], u, call);
    }
  }

  /** In every run every thread stands in the call it last began, with the value it was
      given; and a finished call has an answer of its kind: a `try_pop` a value or nothing,
      a waiting pop always a value, `empty` a truth value, a `push` none. */
  lemma AnswersFit(threads: set<Tid>, dummy: Ref, schedule: seq<(Tid, Action)>, u: Tid)
    requires u in threads
    ensures Run(Init(threads, dummy), schedule).Next?
    ensures var s := Run(Init(threads, dummy), schedule).state;
      u in s.threads && Stands(LastCall(Init(threads, dummy), schedule, u, None), s.threads[u])
  {
    InitInv(threads, dummy);
    RunStands(Init(threads, dummy), schedule, u, None);
  }

  // ---------- Nobody is stuck ----------

  /** Inside a call a thread is held up by nothing but a lock that is taken. */
  lemma BlockedIff(s: State, t: Tid)
    requires Inv(s) && t in s.threads && !s.threads[t].Done?
    ensures Step(s, t, Advance).Blocked? <==>
      || ((s.threads[t].NodeMade? || s.threads[t].HeadLocked?) && s.tailLock.Some?)
      || (s.threads[t].Entering? && s.headLock.Some?)
  {
  }

  /** In every run, as long as some thread is inside a call, some thread can step: the head
      lock is only ever waited for without the tail lock. */
  lemma NoDeadlock(threads: set<Tid>, dummy: Ref, schedule: seq<(Tid, Action)>, t: Tid)
    ensures Run(Init(threads, dummy), schedule).Next?
    ensures var s := Run(Init(threads, dummy), schedule).state;
      t in s.threads && !s.threads[t].Done? ==> exists u :: u in s.threads && Step(s, u, Advance).Next?
  {
    InitInv(threads, dummy);
    TwoLockQueue.RunKeepsInv(Init(threads, dummy), schedule);
    var s := Run(Init(threads, dummy), schedule).state;
    if t in s.threads && !s.threads[t].Done? {
      var u := Mover(s, t);
      assert Step(s, u, Advance).Next?;
    }
  }

  /** The holder of the tail lock, or else of the head lock, or else the thread itself. */
  ghost function Mover(s: State, t: Tid): (u: Tid)
    requires Inv(s) && t in s.threads && !s.threads[t].Done?
    ensures u in s.threads && Step(s, u, Advance).Next?
  {
    var u := if s.tailLock.Some? then s.tailLock.value else if s.headLock.Some? then s.headLock.value else t;
    StepKeepsInv(s, u, Advance);
    BlockedIff(s, u);
    u
  }
}
