/** The loop's deferred functions: any thread may queue one, the loop's thread swaps the
    queue out and runs the batch once an iteration, and an eventfd counter cuts the next
    poll short. Each access to shared state is one atomic step. */
module EventLoop {
  import opened Wrappers
  import opened Histories

  type Tid = nat
  type Fn = nat

  /** A queued function: who queued it and how many batches had been taken by then. */
  datatype Entry = Entry(fn: Fn, byLoop: bool, round: nat)

  /** Where the loop's thread stands: before `loop`, at the poll, handling events (with
      or without the wake-up descriptor among them), about to swap, running a batch. */
  datatype LoopPC = Before | AtPoll | Handling(wakeReady: bool) | Swapping | Running

  /** A foreign thread inside `queueInLoop`. */
  datatype ForeignPC = Outside | Appended | Waking

  /** `owesWake` is the loop's own thread between its append and its `wakeup`.
      `enqueued` and `executed` are history; an execution carries its batch's number. */
  datatype State = State(
    pc: LoopPC,
    owesWake: bool,
    calling: bool,
    counter: nat,
    round: nat,
    pending: seq<Entry>,
    batch: seq<Entry>,
    foreign: map<Tid, ForeignPC>,
    enqueued: seq<Entry>,
    executed: seq<(Entry, nat)>)

  datatype Action =
    | LoopAppend(fn: Fn) | LoopWake
    | StartLoop | PollReturns(wakeReady: bool) | ReadWakeup | EndHandling | Swap | RunNext | EndBatch
    | ForeignAppend(t: Tid, fn: Fn) | ForeignCheck(t: Tid) | ForeignWake(t: Tid)

  // ---------- The steps ----------

  function Append(s: State, e: Entry): State {
    s.(pending := s.pending + [e], enqueued := s.enqueued + [e])
  }

  function Step(s: State, a: Action): Outcome<State> {
    match a
    case ForeignAppend(t, fn) =>
      if t in s.foreign && s.foreign[t].Outside?
      then Next(Append(s, Entry(fn, false, s.round)).(foreign := s.foreign[t := Appended])) else Blocked
    case ForeignCheck(t) =>
      if t in s.foreign && s.foreign[t].Appended?
      then Next(s.(foreign := s.foreign[t := if s.calling then Waking else Outside])) else Blocked
    case ForeignWake(t) =>
      if t in s.foreign && s.foreign[t].Waking?
      then Next(s.(counter := s.counter + 1, foreign := s.foreign[t := Outside])) else Blocked
    case LoopWake => if s.owesWake then Next(s.(counter := s.counter + 1, owesWake := false)) else Blocked
    case _ => if s.owesWake then Blocked else LoopStep(s, a)
  }

  /** The loop thread's steps outside `queueInLoop`'s second half. */
  function LoopStep(s: State, a: Action): Outcome<State> {
    match (a, s.pc)
    case (LoopAppend(fn), _) =>
      if s.pc.Before? || s.pc.Handling? || s.pc.Running?
      then Next(Append(s, Entry(fn, true, s.round)).(owesWake := true)) else Blocked
    case (StartLoop, Before) => Next(s.(pc := AtPoll))
    case (PollReturns(wakeReady), AtPoll) =>
      if wakeReady && s.counter == 0 then Blocked else Next(s.(pc := Handling(wakeReady)))
    case (ReadWakeup, Handling(true)) => Next(s.(counter := 0, pc := Handling(false)))
    case (EndHandling, Handling(false)) => Next(s.(calling := true, pc := Swapping))
    case (Swap, Swapping) =>
      Next(s.(batch := s.pending, pending := [], round := s.round + 1, pc := Running))
    case (RunNext, Running) =>
      if s.batch == [] then Blocked
      else Next(s.(batch := s.batch[1..], executed := s.executed + [(s.batch[0], s.round)]))
    case (EndBatch, Running) => if s.batch != [] then Blocked else Next(s.(calling := false, pc := AtPoll))
    case _ => Blocked
  }

  function Init(threads: set<Tid>): State {
    State(Before, false, false, 0, 0, [], [], map t | t in threads :: Outside, [], [])
  }

  function Run(s: State, schedule: seq<Action>): State
    decreases |schedule|
  {
    if schedule == [] then s
    else
      var next := Step(s, schedule[0]);
      Run(if next.Next? then next.state else s, schedule[1..])
  }

  // ---------- The invariant ----------

  function Functions(executed: seq<(Entry, nat)>): seq<Entry>
    ensures |Functions(executed)| == |executed|
  {
    if executed == [] then [] else Functions(executed[..|executed| - 1]) + [executed[|executed| - 1].0]
  }

  ghost predicate ByLoop(pending: seq<Entry>) {
    exists i :: 0 <= i < |pending| && pending[i].byLoop
  }

  /** Executed, then the rest of the batch, then pending: what was queued, in order. */
  predicate OrderOk(executed: seq<(Entry, nat)>, batch: seq<Entry>, pending: seq<Entry>, enqueued: seq<Entry>) {
    Functions(executed) + batch + pending == enqueued
  }

  /** Everything runs in the first batch taken after it was queued. */
  ghost predicate RoundsOk(executed: seq<(Entry, nat)>, batch: seq<Entry>, pending: seq<Entry>, round: nat) {
    && (forall i :: 0 <= i < |pending| ==> pending[i].round == round)
    && (forall i :: 0 <= i < |batch| ==> batch[i].round + 1 == round)
    && (forall i :: 0 <= i < |executed| ==> executed[i].1 == executed[i].0.round + 1)
  }

  /** What the loop's place says of its flags; and wherever the next thing may be the poll,
      a function pending from the loop's own thread has left a wake-up. */
  ghost predicate PlaceOk(pc: LoopPC, owesWake: bool, calling: bool, counter: nat, batch: seq<Entry>,
        pending: seq<Entry>)
  {
    && (!pc.Running? ==> batch == [])
    && (owesWake ==> pc.Before? || pc.Handling? || pc.Running?)
    && (calling <==> pc.Swapping? || pc.Running?)
    && ((pc.Before? || pc.AtPoll? || pc.Running?) && ByLoop(pending) ==> counter > 0 || owesWake)
  }

  ghost predicate Inv(s: State) {
    && OrderOk(s.executed, s.batch, s.pending, s.enqueued)
    && RoundsOk(s.executed, s.batch, s.pending, s.round)
    && PlaceOk(s.pc, s.owesWake, s.calling, s.counter, s.batch, s.pending)
  }

  lemma AppendKeepsOrder(executed: seq<(Entry, nat)>, batch: seq<Entry>, pending: seq<Entry>, enqueued: seq<Entry>,
        e: Entry)
    requires OrderOk(executed, batch, pending, enqueued)
    ensures OrderOk(executed, batch, pending + [e], enqueued + [e])
  {
  }

  lemma SwapKeepsOrder(executed: seq<(Entry, nat)>, pending: seq<Entry>, enqueued: seq<Entry>)
    requires OrderOk(executed, [], pending, enqueued)
    ensures OrderOk(executed, pending, [], enqueued)
  {
    assert Functions(executed) + [] + pending == Functions(executed) + pending + [];
  }

  lemma RunNextKeepsOrder(executed: seq<(Entry, nat)>, batch: seq<Entry>, pending: seq<Entry>, enqueued: seq<Entry>,
        round: nat)
    requires OrderOk(executed, batch, pending, enqueued) && batch != []
    ensures OrderOk(executed + [(batch[0], round)], batch[1..], pending, enqueued)
  {
    var executed' := executed + [(batch[0], round)];
    assert executed'[..|executed'| - 1] == executed;
    assert Functions(executed') == Functions(executed) + [batch[0]];
    assert batch == [batch[0]] + batch[1..];
  }

  /** A foreign append leaves none pending from the loop's thread that was not. */
  lemma ForeignAppendKeeps(s: State, fn: Fn, foreign: map<Tid, ForeignPC>)
    requires Inv(s)
    ensures Inv(Append(s, Entry(fn, false, s.round)).(foreign := foreign))
  {
    var e := Entry(fn, false, s.round);
    AppendKeepsOrder(s.executed, s.batch, s.pending, s.enqueued, e);
    if ByLoop(s.pending + [e]) {
      var i :| 0 <= i < |s.pending + [e]| && (s.pending + [e])[i].byLoop;
      assert s.pending[i].byLoop;
    }
  }

  /** A wake-up, and a foreign thread's moves. */
  lemma WakeKeeps(s: State, foreign: map<Tid, ForeignPC>)
    requires Inv(s)
    ensures Inv(s.(foreign := foreign))
    ensures Inv(s.(counter := s.counter + 1, foreign := foreign))
    ensures Inv(s.(counter := s.counter + 1, owesWake := false))
  {
  }

  lemma LoopAppendKeeps(s: State, fn: Fn)
    requires Inv(s) && (s.pc.Before? || s.pc.Handling? || s.pc.Running?)
    ensures Inv(Append(s, Entry(fn, true, s.round)).(owesWake := true))
  {
    AppendKeepsOrder(s.executed, s.batch, s.pending, s.enqueued, Entry(fn, true, s.round));
  }

  lemma SwapKeeps(s: State)
    requires Inv(s) && s.pc.Swapping?
    ensures Inv(s.(batch := s.pending, pending := [], round := s.round + 1, pc := Running))
  {
    SwapKeepsOrder(s.executed, s.pending, s.enqueued);
  }

  lemma RunNextKeeps(s: State)
    requires Inv(s) && s.pc.Running? && s.batch != []
    ensures Inv(s.(batch := s.batch[1..], executed := s.executed + [(s.batch[0], s.round)]))
  {
    RunNextKeepsOrder(s.executed, s.batch, s.pending, s.enqueued, s.round);
    RunNextKeepsRounds(s.executed, s.batch, s.pending, s.round);
  }

  lemma RunNextKeepsRounds(executed: seq<(Entry, nat)>, batch: seq<Entry>, pending: seq<Entry>, round: nat)
    requires RoundsOk(executed, batch, pending, round) && batch != []
    ensures RoundsOk(executed + [(batch[0], round)], batch[1..], pending, round)
  {
  }

  /** A step that moves the loop and its flags, and no function. */
  lemma MoveKeeps(s: State, pc: LoopPC, calling: bool, counter: nat)
    requires Inv(s) && PlaceOk(pc, s.owesWake, calling, counter, s.batch, s.pending)
    ensures Inv(s.(pc := pc, calling := calling, counter := counter))
  {
  }

  lemma LoopStepKeeps(s: State, a: Action)
    requires Inv(s) && LoopStep(s, a).Next? && !s.owesWake
    ensures Inv(LoopStep(s, a).state)
  {
    match a
    case LoopAppend(fn) => LoopAppendKeeps(s, fn);
    case StartLoop => MoveKeeps(s, AtPoll, s.calling, s.counter);
    case PollReturns(wakeReady) => MoveKeeps(s, Handling(wakeReady), s.calling, s.counter);
    case ReadWakeup => MoveKeeps(s, Handling(false), s.calling, 0);
    case EndHandling => MoveKeeps(s, Swapping, true, s.counter);
    case Swap => SwapKeeps(s);
    case RunNext => RunNextKeeps(s);
    case EndBatch => MoveKeeps(s, AtPoll, false, s.counter);
    case _ =>
  }

  predicate ForeignsOrWake(a: Action) {
    a.ForeignAppend? || a.ForeignCheck? || a.ForeignWake? || a.LoopWake?
  }

  lemma OutsideKeeps(s: State, a: Action)
    requires Inv(s) && ForeignsOrWake(a)
    ensures !Step(s, a).Fault?
    ensures Step(s, a).Next? ==> Inv(Step(s, a).state)
  {
    match a
    case ForeignAppend(t, fn) => ForeignAppendKeeps(s, fn, s.foreign[t := Appended]);
    case ForeignCheck(t) => WakeKeeps(s, s.foreign[t := if s.calling then Waking else Outside]);
    case ForeignWake(t) => WakeKeeps(s, s.foreign[t := Outside]);
    case _ => WakeKeeps(s, s.foreign);
  }

  lemma StepKeepsInv(s: State, a: Action)
    requires Inv(s)
    ensures !Step(s, a).Fault?
    ensures Step(s, a).Next? ==> Inv(Step(s, a).state)
  {
    if ForeignsOrWake(a) {
      OutsideKeeps(s, a);
    } else if !s.owesWake && LoopStep(s, a).Next? {
      LoopStepKeeps(s, a);
    }
  }

  lemma {:induction false} RunKeepsInv(s: State, schedule: seq<Action>)
    requires Inv(s)
    ensures Inv(Run(s, schedule))
    decreases |schedule|
  {
    if schedule == [] {
    } else {
      StepKeepsInv(s, schedule[0]);
      var next := Step(s, schedule[0]);
      RunKeepsInv(if next.Next? then next.state else s, schedule[1..]);
    }
  }

  // ---------- What the source promises ----------

  /** In every run, with any threads queueing at any moment: the functions executed,
      then the rest of the current batch, then those pending, are those queued, in order;
      so each runs once and in order. Each runs in exactly the first batch taken after it
      was queued, so one queued from within a batch waits for the next. */
  lemma RunOnceInOrder(threads: set<Tid>, schedule: seq<Action>)
    ensures var s := Run(Init(threads), schedule);
      && Functions(s.executed) + s.batch + s.pending == s.enqueued
      && (forall i :: 0 <= i < |s.executed| ==> s.executed[i].1 == s.executed[i].0.round + 1)
      && (s.pc.Running? ==> forall i :: 0 <= i < |s.pending| ==> s.pending[i].round == s.round)
  {
    RunKeepsInv(Init(threads), schedule);
  }

  /** The functions queued and by whom. */
  function Tags(entries: seq<Entry>): seq<(Fn, bool)>
    ensures |Tags(entries)| == |entries|
    ensures forall i :: 0 <= i < |entries| ==> Tags(entries)[i] == (entries[i].fn, entries[i].byLoop)
  {
    if entries == [] then [] else [(entries[0].fn, entries[0].byLoop)] + Tags(entries[1..])
  }

  /** What this step asks the loop to run, and whether the loop's own thread asks. */
  function AskedNow(s: State, a: Action): seq<(Fn, bool)> {
    if !Step(s, a).Next? then []
    else match a
      case LoopAppend(fn) => [(fn, true)]
      case ForeignAppend(_, fn) => [(fn, false)]
      case _ => []
  }

  function After(s: State, a: Action): State {
    if Step(s, a).Next? then Step(s, a).state else s
  }

  /** What a run asks the loop to run, in order. */
  function Asked(s: State, schedule: seq<Action>): seq<(Fn, bool)>
    decreases |schedule|
  {
    if schedule == [] then [] else AskedNow(s, schedule[0]) + Asked(After(s, schedule[0]), schedule[1..])
  }

  /** How often the descriptor has been written since it was last read, `n` times before. */
  function WritesSinceRead(s: State, schedule: seq<Action>, n: nat): nat
    decreases |schedule|
  {
    if schedule == [] then n
    else
      var n1 := if !Step(s, schedule[0]).Next? then n
        else match schedule[0]
          case LoopWake => n + 1
          case ForeignWake(_) => n + 1
          case ReadWakeup => 0
          case _ => n;
      WritesSinceRead(After(s, schedule[0]), schedule[1..], n1)
  }

  lemma TagsPush(entries: seq<Entry>, e: Entry)
    ensures Tags(entries + [e]) == Tags(entries) + [(e.fn, e.byLoop)]
  {
  }

  lemma StepAppends(s: State, a: Action)
    ensures After(s, a).enqueued ==
      if !Step(s, a).Next? then s.enqueued
      else match a
        case LoopAppend(fn) => s.enqueued + [Entry(fn, true, s.round)]
        case ForeignAppend(_, fn) => s.enqueued + [Entry(fn, false, s.round)]
        case _ => s.enqueued
  {
  }

  lemma StepAsked(s: State, a: Action)
    ensures Tags(After(s, a).enqueued) == Tags(s.enqueued) + AskedNow(s, a)
  {
    StepAppends(s, a);
    NothingAdded(Tags(s.enqueued));
    match a
    case LoopAppend(fn) => TagsPush(s.enqueued, Entry(fn, true, s.round));
    case ForeignAppend(_, fn) => TagsPush(s.enqueued, Entry(fn, false, s.round));
    case _ =>
  }

  lemma {:induction false} RunAsked(s: State, schedule: seq<Action>)
    ensures Tags(Run(s, schedule).enqueued) == Tags(s.enqueued) + Asked(s, schedule)
    decreases |schedule|
  {
    if schedule == [] {
    } else {
      StepAsked(s, schedule[0]);
      RunAsked(After(s, schedule[0]), schedule[1..]);
      Regroup(Tags(s.enqueued), AskedNow(s, schedule[0]), Asked(After(s, schedule[0]), schedule[1..]));
    }
  }

  lemma EnqueuedInOrder(s: State, schedule: seq<Action>)
    requires Inv(s)
    ensures var s' := Run(s, schedule); Functions(s'.executed) + s'.batch + s'.pending == s'.enqueued
  {
    RunKeepsInv(s, schedule);
  }

  /** In every run the functions executed, then the rest of the batch, then those pending, are
      exactly those that the run's calls of `queueInLoop` asked for, in order. */
  lemma QueuedAsAsked(threads: set<Tid>, schedule: seq<Action>)
    ensures var s := Run(Init(threads), schedule);
      Tags(Functions(s.executed) + s.batch + s.pending) == Asked(Init(threads), schedule)
  {
    RunAsked(Init(threads), schedule);
    EnqueuedInOrder(Init(threads), schedule);
    NothingAdded(Asked(Init(threads), schedule));
  }

  lemma UnservedIsPending(functions: seq<Entry>, pending: seq<Entry>, i: nat)
    requires |functions| <= i < |functions| + |pending|
    requires Tags(functions + [] + pending)[i].1
    ensures ByLoop(pending)
  {
    assert (functions + [] + pending)[i] == pending[i - |functions|];
  }

  lemma UnservedWakes(s: State, i: nat)
    requires Inv(s) && s.pc.AtPoll? && |s.executed| <= i < |s.executed| + |s.pending|
    requires Tags(Functions(s.executed) + s.batch + s.pending)[i].1
    ensures s.counter > 0
  {
    UnservedIsPending(Functions(s.executed), s.pending, i);
  }

  /** In every run, at every entry to the poll: if any call of `queueInLoop` by the loop's own
      thread has not been served, the wake-up counter is non-zero. */
  lemma LoopEnqueueWakesPoll(threads: set<Tid>, schedule: seq<Action>, i: nat)
    ensures var s, asked := Run(Init(threads), schedule), Asked(Init(threads), schedule);
      s.pc.AtPoll? && |s.executed| <= i < |asked| && asked[i].1 ==> s.counter > 0
  {
    var s, asked := Run(Init(threads), schedule), Asked(Init(threads), schedule);
    RunKeepsInv(Init(threads), schedule);
    QueuedAsAsked(threads, schedule);
    if s.pc.AtPoll? && |s.executed| <= i < |asked| && asked[i].1 {
      UnservedWakes(s, i);
    }
  }

  lemma StepWrites(s: State, a: Action)
    ensures After(s, a).counter ==
      if !Step(s, a).Next? then s.counter
      else match a
        case LoopWake => s.counter + 1
        case ForeignWake(_) => s.counter + 1
        case ReadWakeup => 0
        case _ => s.counter
  {
  }

  lemma {:induction false} RunWrites(s: State, schedule: seq<Action>)
    ensures Run(s, schedule).counter == WritesSinceRead(s, schedule, s.counter)
    decreases |schedule|
  {
    if schedule == [] {
    } else {
      StepWrites(s, schedule[0]);
      RunWrites(After(s, schedule[0]), schedule[1..]);
    }
  }

  /** In every run the counter is the number of wake-ups written since it was last read. So
      once it is read, and nobody wakes the loop again, the poll can block. */
  lemma CounterIsWrites(threads: set<Tid>, schedule: seq<Action>)
    ensures Run(Init(threads), schedule).counter == WritesSinceRead(Init(threads), schedule, 0)
  {
    RunWrites(Init(threads), schedule);
  }

  /** In every run the loop's thread can go on without queueing anything more, and so can a
      foreign thread inside `queueInLoop`. */
  lemma NobodyStuck(threads: set<Tid>, schedule: seq<Action>, t: Tid)
    ensures var s := Run(Init(threads), schedule);
      exists a: Action :: Step(s, a).Next? && !a.LoopAppend? && !a.ForeignAppend? && !a.ForeignCheck? && !a.ForeignWake?
    ensures var s := Run(Init(threads), schedule);
      t in s.foreign && !s.foreign[t].Outside? ==> Step(s, ForeignCheck(t)).Next? || Step(s, ForeignWake(t)).Next?
  {
    RunKeepsInv(Init(threads), schedule);
    var s := Run(Init(threads), schedule);
    var a := if s.owesWake then LoopWake else
      match s.pc
      case Before => StartLoop
      case AtPoll => PollReturns(false)
      case Handling(wakeReady) => if wakeReady then ReadWakeup else EndHandling
      case Swapping => Swap
      case Running => if s.batch == [] then EndBatch else RunNext;
    assert Step(s, a).Next?;
  }

  /** A foreign thread that has queued a function goes on to wake the loop exactly when
      it finds the loop between the start of `doPendingFunctions` and its end. */
  lemma ForeignWakesIff(threads: set<Tid>, schedule: seq<Action>, t: Tid)
    ensures var s := Run(Init(threads), schedule);
      t in s.foreign && s.foreign[t].Appended? ==>
        Step(s, ForeignCheck(t)).Next? &&
        (Step(s, ForeignCheck(t)).state.foreign[t].Waking? <==> s.pc.Swapping? || s.pc.Running?)
  {
    RunKeepsInv(Init(threads), schedule);
  }

  /** So a foreign thread's function can be pending at the poll with nothing to end it. */
  lemma ForeignEnqueueMayWait()
    ensures var s := Run(Init({1}), [StartLoop, ForeignAppend(1, 7), ForeignCheck(1)]);
      s.pc.AtPoll? && s.pending != [] && s.counter == 0 && s.foreign[1].Outside?
  {
    var schedule := [StartLoop, ForeignAppend(1, 7), ForeignCheck(1)];
    var s0 := Init({1});
    var s1 := s0.(pc := AtPoll);
    var s2 := Append(s1, Entry(7, false, 0)).(foreign := s1.foreign[1 := Appended]);
    var s3 := s2.(foreign := s2.foreign[1 := Outside]);
    assert Step(s0, schedule[0]) == Next(s1);
    assert Step(s1, schedule[1..][0]) == Next(s2);
    assert Step(s2, schedule[1..][1..][0]) == Next(s3);
    assert Run(s0, schedule) == Run(s1, schedule[1..]) == Run(s2, schedule[1..][1..]);
    assert Run(s2, schedule[1..][1..]) == Run(s3, schedule[1..][1..][1..]);
  }

  // ---------- The loop object, on its own thread ----------

  /** A function together with those it queues when it runs. */
  datatype Function = Function(id: Fn, queues: seq<Function>)

  /** What running these in turn queues. */
  function QueuedBy(functions: seq<Function>): seq<Function> {
    if functions == [] then [] else QueuedBy(functions[..|functions| - 1]) + functions[|functions| - 1].queues
  }

  class EventLoop {
    var pendingFunctors: seq<Function>
    var callingPendingFunctions: bool
    var wakeupCounter: nat
    /** The functions run so far, in order. */
    var ran: seq<Function>

    constructor ()
      ensures pendingFunctors == [] && !callingPendingFunctions && wakeupCounter == 0 && ran == []
    {
      pendingFunctors, callingPendingFunctions, wakeupCounter, ran := [], false, 0, [];
    }

    /** Wakes the loop for a call on its own thread or during a batch. */
    method QueueInLoop(cb: Function, isInLoopThread: bool)
      modifies this`pendingFunctors, this`wakeupCounter
      ensures pendingFunctors == old(pendingFunctors) + [cb]
      ensures wakeupCounter == old(wakeupCounter) + if isInLoopThread || callingPendingFunctions then 1 else 0
    {
      pendingFunctors := pendingFunctors + [cb];
      if isInLoopThread || callingPendingFunctions {
        Wakeup();
      }
    }

    method Wakeup()
      modifies this`wakeupCounter
      ensures wakeupCounter == old(wakeupCounter) + 1
    {
      wakeupCounter := wakeupCounter + 1;
    }

    method HandleRead()
      modifies this`wakeupCounter
      ensures wakeupCounter == 0
    {
      wakeupCounter := 0;
    }

    /** Calls one function: it is recorded and queues what it queues. */
    method Call(func: Function)
      modifies this`pendingFunctors, this`wakeupCounter, this`ran
      ensures ran == old(ran) + [func]
      ensures pendingFunctors == old(pendingFunctors) + func.queues
      ensures wakeupCounter == old(wakeupCounter) + |func.queues|
    {
      ran := ran + [func];
      for i := 0 to |func.queues|
        invariant pendingFunctors == old(pendingFunctors) + func.queues[..i]
        invariant wakeupCounter == old(wakeupCounter) + i
        invariant ran == old(ran) + [func]
      {
        QueueInLoop(func.queues[i], true);
      }
    }

    /** Runs exactly what was pending, in order; what that queues is left pending, with
        one wake-up each, for the next iteration. */
    method DoPendingFunctions()
      modifies this
      ensures ran == old(ran) + old(pendingFunctors)
      ensures pendingFunctors == QueuedBy(old(pendingFunctors))
      ensures wakeupCounter == old(wakeupCounter) + |pendingFunctors|
      ensures !callingPendingFunctions
    {
      callingPendingFunctions := true;
      var functions := pendingFunctors;
      pendingFunctors := [];
      for i := 0 to |functions|
        invariant ran == old(ran) + functions[..i]
        invariant pendingFunctors == QueuedBy(functions[..i])
        invariant wakeupCounter == old(wakeupCounter) + |pendingFunctors|
      {
        Call(functions[i]);
        assert functions[..i + 1][..i] == functions[..i];
      }
      assert functions[..|functions|] == functions;
      callingPendingFunctions := false;
    }
  }
}
