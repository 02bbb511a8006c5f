/** The blocking queue seen by its callers: what they asked for, read from the schedule of
    a run, against what the queue did with it. */
module BlockingQueueCalls {
  import opened Wrappers
  import opened Histories
  import opened BlockingQueue

  // ---------- What the schedule asks, and what it gets ----------

  /** The call that this step begins, if it begins one. */
  function Begins(s: State, t: Tid, a: Action): Option<Action>
    requires t in s.threads
  {
    if s.threads[t].Idle? && Step(s, t, a).Next? then Some(a) else None
  }

  function After(s: State, t: Tid, a: Action): State
    requires t in s.threads
  {
    if Step(s, t, a).Next? then Step(s, t, a).state else s
  }

  /** The value that this step gives thread `u` to put. */
  function ToldNow(s: State, t: Tid, a: Action, u: Tid): seq<Value>
    requires t in s.threads
  {
    if t != u then []
    else match Begins(s, t, a)
      case Some(Put(v)) => [v]
      case _ => []
  }

  /** The values that a run tells thread `u` to put, in order. */
  function Told(s: State, schedule: seq<(Tid, Action)>, u: Tid): seq<Value>
    decreases |schedule|
  {
    if schedule == [] then []
    else
      var (t, a) := schedule[0];
      if t !in s.threads then Told(s, schedule[1..], u)
      else ToldNow(s, t, a, u) + Told(After(s, t, a), schedule[1..], u)
  }

  predicate Advances(s: State, t: Tid, a: Action)
    requires t in s.threads
  {
    a.Advance? && Step(s, t, a).Next?
  }

  function Got(s: State, t: Tid): seq<Value> {
    if t in s.threads && s.threads[t].Idle? && s.threads[t].result.Taken? then [s.threads[t].result.value] else []
  }

  /** The value that this step returns from a `take` of thread `u`. */
  function ReturnedNow(s: State, t: Tid, a: Action, u: Tid): seq<Value>
    requires t in s.threads
  {
    if t == u && Advances(s, t, a) then Got(After(s, t, a), t) else []
  }

  /** The values that a run returns from the calls of `take` of thread `u`, in order. */
  function Returned(s: State, schedule: seq<(Tid, Action)>, u: Tid): seq<Value>
    decreases |schedule|
  {
    if schedule == [] then []
    else
      var (t, a) := schedule[0];
      if t !in s.threads then Returned(s, schedule[1..], u)
      else ReturnedNow(s, t, a, u) + Returned(After(s, t, a), schedule[1..], u)
  }

  /** The last call that thread `u` began in a run, or else `call`. */
  function LastCall(s: State, schedule: seq<(Tid, Action)>, u: Tid, call: Option<Action>): Option<Action>
    decreases |schedule|
  {
    if schedule == [] then call
    else
      var (t, a) := schedule[0];
      if t !in s.threads then LastCall(s, schedule[1..], u, call)
      else
        var call1 := if t == u && Begins(s, t, a).Some? then Some(a) else call;
        LastCall(After(s, t, a), schedule[1..], u, call1)
  }

  lemma RunSplits(s: State, schedule: seq<(Tid, Action)>)
    requires schedule != [] && schedule[0].0 in s.threads && !Step(s, schedule[0].0, schedule[0].1).Fault?
    ensures Run(s, schedule) == Run(After(s, schedule[0].0, schedule[0].1), schedule[1..])
  {
  }

  // ---------- What a step moves ----------

  /** The value of a `put` under way. */
  function InHand(pc: PC): seq<Value> {
    match pc
    case Putting(v) => [v]
    case PutLocked(v) => [v]
    case _ => []
  }

  /** The value of a `take` that has popped it and not returned yet. */
  function Grasped(pc: PC): seq<Value> {
    match pc
    case TookOut(front, _) => [front]
    case _ => []
  }

  /** The histories after a step, what the thread has in hand and in its grasp, and what it
      returns. */
  predicate Moved(s: State, t: Tid, told: seq<Value>, returned: seq<Value>, advance: bool, s': State)
    requires t in s.threads
  {
    var pc := s.threads[t];
    && t in s'.threads && (pc.PutLocked? ==> told == [])
    && s'.put == (if pc.PutLocked? && advance then s.put + [pc.v] else s.put)
    && s'.putters == (if pc.PutLocked? && advance then s.putters + [t] else s.putters)
    && s'.taken == (if pc.Fronted? && advance then s.taken + [pc.front] else s.taken)
    && s'.takers == (if pc.Fronted? && advance then s.takers + [t] else s.takers)
    && InHand(s'.threads[t]) == (if pc.PutLocked? && advance then [] else InHand(pc) + told)
    && Grasped(s'.threads[t]) ==
         (if pc.Fronted? && advance then [pc.front] else if pc.TookOut? && advance then [] else Grasped(pc))
    && returned == (if advance && pc.TookOut? then Grasped(pc) else [])
  }

  lemma InsideMoves(s: State, t: Tid)
    requires t in s.threads && ThreadOk(s.queue, s.taken, s.takers, t, s.threads[t]) && Inside(s, t).Next?
    ensures Moved(s, t, [], Got(Inside(s, t).state, t), true, Inside(s, t).state)
  {
  }

  lemma StepMoves(s: State, t: Tid, a: Action)
    requires t in s.threads && ThreadOk(s.queue, s.taken, s.takers, t, s.threads[t])
    ensures Moved(s, t, ToldNow(s, t, a, t), ReturnedNow(s, t, a, t), Advances(s, t, a), After(s, t, a))
  {
    if Advances(s, t, a) {
      InsideMoves(s, t);
      assert Step(s, t, a) == Inside(s, t);
    }
  }

  lemma PutBy(s: State, t: Tid, told: seq<Value>, returned: seq<Value>, advance: bool, s': State, u: Tid)
    requires t in s.threads && Moved(s, t, told, returned, advance, s') && |s.putters| == |s.put|
    ensures |s'.putters| == |s'.put|
    ensures By(s'.put, s'.putters, u) == By(s.put, s.putters, u) +
      (if t == u && advance && s.threads[t].PutLocked? then [s.threads[t].v] else [])
  {
    NothingAdded(By(s.put, s.putters, u));
    if s.threads[t].PutLocked? {
      ByPush(s.put, s.putters, s.threads[t].v, t, u);
    }
  }

  lemma TakenBy(s: State, t: Tid, told: seq<Value>, returned: seq<Value>, advance: bool, s': State, u: Tid)
    requires t in s.threads && Moved(s, t, told, returned, advance, s') && |s.takers| == |s.taken|
    ensures |s'.takers| == |s'.taken|
    ensures By(s'.taken, s'.takers, u) == By(s.taken, s.takers, u) +
      (if t == u && advance && s.threads[t].Fronted? then [s.threads[t].front] else [])
  {
    NothingAdded(By(s.taken, s.takers, u));
    if s.threads[t].Fronted? {
      ByPush(s.taken, s.takers, s.threads[t].front, t, u);
    }
  }

  /** Another thread stays where it is, unless it sleeps and is woken. */
  lemma OthersStay(s: State, t: Tid, a: Action, u: Tid)
    requires t in s.threads && u in s.threads && t != u
    ensures var s' := After(s, t, a);
      u in s'.threads && (s'.threads[u] == s.threads[u] || (s.threads[u].Sleeping? && s'.threads[u] == Taking(true)))
  {
  }

  // ---------- What was put is what callers asked to put ----------

  lemma StepToldOther(s: State, t: Tid, a: Action, u: Tid)
    requires Inv(s) && t in s.threads && u in s.threads && t != u && |s.putters| == |s.put|
    ensures var s' := After(s, t, a);
      && u in s'.threads && InHand(s'.threads[u]) == InHand(s.threads[u]) && |s'.putters| == |s'.put|
      && By(s'.put, s'.putters, u) == By(s.put, s.putters, u) && ToldNow(s, t, a, u) == []
  {
    OthersStay(s, t, a, u);
    StepMoves(s, t, a);
    PutBy(s, t, ToldNow(s, t, a, t), ReturnedNow(s, t, a, t), Advances(s, t, a), After(s, t, a), u);
    NothingAdded(By(s.put, s.putters, u));
  }

  lemma ToldOwn(s: State, t: Tid, told: seq<Value>, returned: seq<Value>, advance: bool, s': State)
    requires t in s.threads && Moved(s, t, told, returned, advance, s') && |s.putters| == |s.put|
    ensures |s'.putters| == |s'.put|
    ensures By(s'.put, s'.putters, t) + InHand(s'.threads[t]) == By(s.put, s.putters, t) + InHand(s.threads[t]) + told
  {
    PutBy(s, t, told, returned, advance, s', t);
    NothingAdded(By(s.put, s.putters, t));
    NothingAdded(By(s'.put, s'.putters, t));
    Regroup(By(s.put, s.putters, t), InHand(s.threads[t]), told);
  }

  lemma StepToldOwn(s: State, t: Tid, a: Action)
    requires Inv(s) && t in s.threads && |s.putters| == |s.put|
    ensures var s' := After(s, t, a);
      && t in s'.threads && |s'.putters| == |s'.put|
      && By(s'.put, s'.putters, t) + InHand(s'.threads[t]) ==
           By(s.put, s.putters, t) + InHand(s.threads[t]) + ToldNow(s, t, a, t)
  {
    StepMoves(s, t, a);
    ToldOwn(s, t, ToldNow(s, t, a, t), ReturnedNow(s, t, a, t), Advances(s, t, a), After(s, t, a));
  }

  lemma StepTold(s: State, t: Tid, a: Action, u: Tid)
    requires Inv(s) && t in s.threads && u in s.threads && |s.putters| == |s.put|
    ensures var s' := After(s, t, a);
      && u in s'.threads && |s'.putters| == |s'.put|
      && By(s'.put, s'.putters, u) + InHand(s'.threads[u]) ==
           By(s.put, s.putters, u) + InHand(s.threads[u]) + ToldNow(s, t, a, u)
  {
    if t == u {
      StepToldOwn(s, t, a);
    } else {
      StepToldOther(s, t, a, u);
      Regroup(By(s.put, s.putters, u), InHand(s.threads[u]), []);
    }
  }

  lemma {:induction false} RunTold(s: State, schedule: seq<(Tid, Action)>, u: Tid)
    requires Inv(s) && u in s.threads && |s.putters| == |s.put|
    ensures Run(s, schedule).Next?
    ensures var s' := Run(s, schedule).state;
      && u in s'.threads && |s'.putters| == |s'.put|
      && By(s'.put, s'.putters, u) + InHand(s'.threads[u]) ==
           By(s.put, s.putters, u) + InHand(s.threads[u]) + Told(s, schedule, u)
    decreases |schedule|
  {
    if schedule == [] {
      NothingAdded(By(s.put, s.putters, u) + InHand(s.threads[u]));
    } else if schedule[0].0 in s.threads {
      var (t, a) := schedule[0];
      StepKeepsInv(s, t, a);
      StepTold(s, t, a, u);
      RunSplits(s, schedule);
      RunTold(After(s, t, a), schedule[1..], u);
      Regroup(By(s.put, s.putters, u) + InHand(s.threads[u]), ToldNow(s, t, a, u),
              Told(After(s, t, a), schedule[1..], u));
    } else {
      RunTold(s, schedule[1..], u);
    }
  }

  lemma InitInv(threads: set<Tid>)
    ensures Inv(Init(threads))
  {
    assert Members(Init(threads).threads, Asleep) == {};
  }

  /** In every run, for every thread: what it has put into the queue, followed by what it is
      about to put, is what its calls of `put` were given, in order. */
  lemma PutAsTold(threads: set<Tid>, schedule: seq<(Tid, Action)>, u: Tid)
    requires u in threads
    ensures Run(Init(threads), schedule).Next?
    ensures var s := Run(Init(threads), schedule).state;
      && u in s.threads && |s.putters| == |s.put|
      && By(s.put, s.putters, u) + InHand(s.threads[u]) == Told(Init(threads), schedule, u)
  {
    InitInv(threads);
    RunTold(Init(threads), schedule, u);
    NothingAdded(Told(Init(threads), schedule, u));
    assert By(Init(threads).put, Init(threads).putters, u) + InHand(Init(threads).threads[u]) == [];
  }

  // ---------- What was taken is what callers got ----------

  lemma StepReturnedOther(s: State, t: Tid, a: Action, u: Tid)
    requires Inv(s) && t in s.threads && u in s.threads && t != u
    ensures var s' := After(s, t, a);
      && u in s'.threads && Grasped(s'.threads[u]) == Grasped(s.threads[u]) && |s'.takers| == |s'.taken|
      && By(s'.taken, s'.takers, u) == By(s.taken, s.takers, u) && ReturnedNow(s, t, a, u) == []
  {
    OthersStay(s, t, a, u);
    StepMoves(s, t, a);
    TakenBy(s, t, ToldNow(s, t, a, t), ReturnedNow(s, t, a, t), Advances(s, t, a), After(s, t, a), u);
    NothingAdded(By(s.taken, s.takers, u));
  }

  /** What a thread has popped and not returned before a step, it has returned or still has
      after it. */
  lemma ReturnedOwn(s: State, t: Tid, told: seq<Value>, returned: seq<Value>, advance: bool, s': State,
        before: seq<Value>)
    requires t in s.threads && Moved(s, t, told, returned, advance, s') && |s.takers| == |s.taken|
    requires By(s.taken, s.takers, t) == before + Grasped(s.threads[t])
    ensures |s'.takers| == |s'.taken|
    ensures By(s'.taken, s'.takers, t) == before + returned + Grasped(s'.threads[t])
  {
    TakenBy(s, t, told, returned, advance, s', t);
    NothingAdded(before);
    NothingAdded(before + returned);
    NothingAdded(By(s.taken, s.takers, t));
  }

  lemma StepReturned(s: State, t: Tid, a: Action, u: Tid, before: seq<Value>)
    requires Inv(s) && t in s.threads && u in s.threads
    requires By(s.taken, s.takers, u) == before + Grasped(s.threads[u])
    ensures var s' := After(s, t, a);
      && u in s'.threads && |s'.takers| == |s'.taken|
      && By(s'.taken, s'.takers, u) == before + ReturnedNow(s, t, a, u) + Grasped(s'.threads[u])
  {
    NothingAdded(before);
    if t == u {
      StepMoves(s, t, a);
      ReturnedOwn(s, t, ToldNow(s, t, a, t), ReturnedNow(s, t, a, t), Advances(s, t, a), After(s, t, a), before);
    } else {
      StepReturnedOther(s, t, a, u);
    }
  }

  lemma {:induction false} RunReturned(s: State, schedule: seq<(Tid, Action)>, u: Tid, before: seq<Value>)
    requires Inv(s) && u in s.threads && By(s.taken, s.takers, u) == before + Grasped(s.threads[u])
    ensures Run(s, schedule).Next?
    ensures var s' := Run(s, schedule).state;
      && u in s'.threads && |s'.takers| == |s'.taken|
      && By(s'.taken, s'.takers, u) == before + Returned(s, schedule, u) + Grasped(s'.threads[u])
    decreases |schedule|
  {
    if schedule == [] {
      NothingAdded(before);
    } else if schedule[0].0 in s.threads {
      var (t, a) := schedule[0];
      StepKeepsInv(s, t, a);
      StepReturned(s, t, a, u, before);
      RunSplits(s, schedule);
      RunReturned(After(s, t, a), schedule[1..], u, before + ReturnedNow(s, t, a, u));
      Regroup(before, ReturnedNow(s, t, a, u), Returned(After(s, t, a), schedule[1..], u));
    } else {
      RunReturned(s, schedule[1..], u, before);
    }
  }

  /** In every run, for every thread: what its calls of `take` have returned, followed by
      what it has popped and not returned yet, is what it popped, in order. */
  lemma ReturnedAsTaken(threads: set<Tid>, schedule: seq<(Tid, Action)>, u: Tid)
    requires u in threads
    ensures Run(Init(threads), schedule).Next?
    ensures var s := Run(Init(threads), schedule).state;
      && u in s.threads && |s.takers| == |s.taken|
      && By(s.taken, s.takers, u) == Returned(Init(threads), schedule, u) + Grasped(s.threads[u])
  {
    InitInv(threads);
    RunReturned(Init(threads), schedule, u, []);
    NothingAdded(Returned(Init(threads), schedule, u));
  }

  // ---------- Each call gets an answer of its kind ----------

  /** Where a thread can stand in its last call. */
  predicate Stands(call: Option<Action>, pc: PC) {
    match call
    case None => pc == Idle(Nothing)
    case Some(Put(v)) =>
      pc == Putting(v) || pc == PutLocked(v) || pc.Pushed? || pc.Unlocked? || pc == Idle(Nothing)
    case Some(Take) =>
      pc.Taking? || pc.TakeLocked? || pc.Sleeping? || pc.Ready? || pc.Fronted? || pc.TookOut? ||
      (pc.Idle? && pc.result.Taken?)
    case _ => false
  }

  lemma StepStands(s: State, t: Tid, a: Action, u: Tid, call: Option<Action>)
    requires t in s.threads && u in s.threads && Stands(call, s.threads[u])
    ensures u in After(s, t, a).threads
    ensures Stands(if t == u && Begins(s, t, a).Some? then Some(a) else call, After(s, t, a).threads[u])
  {
    if t != u {
      OthersStay(s, t, a, u);
    }
  }

  lemma {:induction false} RunStands(s: State, schedule: seq<(Tid, Action)>, u: Tid, call: Option<Action>)
    requires Inv(s) && u in s.threads && Stands(call, s.threads[u])
    ensures Run(s, schedule).Next? && u in Run(s, schedule).state.threads
    ensures Stands(LastCall(s, schedule, u, call), Run(s, schedule).state.threads[u])
    decreases |schedule|
  {
    if schedule == [] {
    } else if schedule[0].0 in s.threads {
      var (t, a) := schedule[0];
      StepKeepsInv(s, t, a);
      RunSplits(s, schedule);
      StepStands(s, t, a, u, call);
      RunStands(After(s, t, a), schedule[1..], u, if t == u && Begins(s, t, a).Some? then Some(a) else call);
    } else {
      RunStands(s, schedule[1..], u, call);
    }
  }

  /** In every run every thread stands in the call it last began, and a finished `take` has a
      value. */
  lemma AnswersFit(threads: set<Tid>, schedule: seq<(Tid, Action)>, u: Tid)
    requires u in threads
    ensures Run(Init(threads), schedule).Next? && u in Run(Init(threads), schedule).state.threads
    ensures Stands(LastCall(Init(threads), schedule, u, None), Run(Init(threads), schedule).state.threads[u])
  {
    InitInv(threads);
    RunStands(Init(threads), schedule, u, None);
  }

  // ---------- Nobody is stuck ----------

  /** Inside a call a thread is held up by the taken lock or by sleep, and by nothing else. */
  lemma BlockedIff(s: State, t: Tid)
    requires Inv(s) && t in s.threads && !s.threads[t].Idle?
    ensures (forall a: Action :: !a.WakeSpuriously? ==> Step(s, t, a).Blocked?) <==>
      s.threads[t].Sleeping? || ((s.threads[t].Putting? || s.threads[t].Taking?) && s.lock.Some?)
  {
    InsideNeverFaults(s, t);
    if s.threads[t].Unlocked? {
      var sleepers := Members(s.threads, Asleep);
      if sleepers == {} {
        assert Step(s, t, Notify(t)).Next?;
      } else {
        var u :| u in sleepers;
        assert Step(s, t, Notify(u)).Next?;
      }
    } else if s.threads[t].Sleeping? {
    } else {
      assert !Step(s, t, Advance).Blocked? <==> !((s.threads[t].Putting? || s.threads[t].Taking?) && s.lock.Some?);
    }
  }

  /** In every run, as long as some thread is inside a call and awake, some thread can step. */
  lemma NoDeadlock(threads: set<Tid>, schedule: seq<(Tid, Action)>, t: Tid)
    ensures Run(Init(threads), schedule).Next?
    ensures var s := Run(Init(threads), schedule).state;
      t in s.threads && !s.threads[t].Idle? && !s.threads[t].Sleeping? ==>
        exists u: Tid, a: Action :: u in s.threads && !a.WakeSpuriously? && Step(s, u, a).Next?
  {
    RunFromInit(threads, schedule);
    var s := Run(Init(threads), schedule).state;
    if t in s.threads && !s.threads[t].Idle? && !s.threads[t].Sleeping? {
      var u := if s.lock.Some? then s.lock.value else t;
      BlockedIff(s, u);
      var a: Action :| !a.WakeSpuriously? && !Step(s, u, a).Blocked?;
      StepKeepsInv(s, u, a);
      assert Step(s, u, a).Next?;
    }
  }
}
