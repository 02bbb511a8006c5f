/** The unbounded blocking queue: one mutex, one condition variable. Each lock,
    unlock, queue access, wait and notify is one atomic step, and a sleeper may also
    wake for no reason. */
module BlockingQueue {
  import opened Wrappers

  type Tid = nat
  type Value = int

  datatype Result = Nothing | Taken(value: Value, slot: nat)

  /** Where a thread stands. `woken` says that a consumer has slept and was woken
      since it last looked at the queue. */
  datatype PC =
    | Idle(result: Result)
    | Putting(v: Value)
    | PutLocked(v: Value)
    | Pushed
    | Unlocked
    | Taking(woken: bool)
    | TakeLocked(woken: bool)
    | Sleeping
    | Ready(woken: bool)
    | Fronted(woken: bool, front: Value)
    | TookOut(front: Value, slot: nat)

  /** The last four fields are history: the values in the order of `push`, and of `pop`,
      and the thread behind each. */
  datatype State = State(
    queue: seq<Value>,
    lock: Option<Tid>,
    threads: map<Tid, PC>,
    put: seq<Value>,
    putters: seq<Tid>,
    taken: seq<Value>,
    takers: seq<Tid>)
  {
    function At(t: Tid, pc: PC): State {
      this.(threads := threads[t := pc])
    }
  }

  /** `Notify` carries the sleeper that `notify_one` picks, if there is any. */
  datatype Action = Put(v: Value) | Take | Advance | Notify(sleeper: Tid) | WakeSpuriously

  predicate HoldsLock(pc: PC) {
    pc.PutLocked? || pc.Pushed? || pc.TakeLocked? || pc.Ready? || pc.Fronted? || pc.TookOut?
  }

  // ---------- The steps ----------

  function Step(s: State, t: Tid, a: Action): Outcome<State>
    requires t in s.threads
  {
    match (s.threads[t], a)
    case (Idle(_), Put(v)) => Next(s.At(t, Putting(v)))
    case (Idle(_), Take) => Next(s.At(t, Taking(false)))
    case (Sleeping, WakeSpuriously) => Next(s.At(t, Taking(true)))
    case (Unlocked, Notify(u)) => NotifyOne(s, t, u)
    case (_, Advance) => Inside(s, t)
    case _ => Blocked
  }

  function Inside(s: State, t: Tid): Outcome<State>
    requires t in s.threads
  {
    match s.threads[t]
    case Putting(v) => if s.lock.Some? then Blocked else Next(s.(lock := Some(t)).At(t, PutLocked(v)))
    case PutLocked(v) => Next(s.(queue := s.queue + [v], put := s.put + [v], putters := s.putters + [t]).At(t, Pushed))
    case Pushed => Next(s.(lock := None).At(t, Unlocked))
    case Taking(woken) => if s.lock.Some? then Blocked else Next(s.(lock := Some(t)).At(t, TakeLocked(woken)))
    case TakeLocked(woken) =>
      if s.queue == [] then Next(s.(lock := None).At(t, Sleeping)) else Next(s.At(t, Ready(woken)))
    case Ready(woken) => if s.queue == [] then Fault else Next(s.At(t, Fronted(woken, s.queue[0])))
    case Fronted(_, front) =>
      if s.queue == [] then Fault
      else Next(s.(queue := s.queue[1..], taken := s.taken + [s.queue[0]], takers := s.takers + [t])
                 .At(t, TookOut(front, |s.taken|)))
    case TookOut(front, slot) => Next(s.(lock := None).At(t, Idle(Taken(front, slot))))
    case _ => Blocked
  }

  function NotifyOne(s: State, t: Tid, u: Tid): Outcome<State>
    requires t in s.threads
  {
    if Members(s.threads, Asleep) == {} then Next(s.At(t, Idle(Nothing)))
    else if u !in Members(s.threads, Asleep) then Blocked
    else Next(s.At(u, Taking(true)).At(t, Idle(Nothing)))
  }

  function Init(threads: set<Tid>): State {
    State([], None, map t | t in threads :: Idle(Nothing), [], [], [], [])
  }

  /** A blocked thread leaves the state alone. */
  function Run(s: State, schedule: seq<(Tid, Action)>): Outcome<State>
    decreases |schedule|
  {
    if schedule == [] then Next(s)
    else if schedule[0].0 !in s.threads then Run(s, schedule[1..])
    else match Step(s, schedule[0].0, schedule[0].1)
      case Fault => Fault
      case Blocked => Run(s, schedule[1..])
      case Next(s') => Run(s', schedule[1..])
  }

  // ---------- Who owes a wake-up ----------

  /** A notifier has pushed and not yet notified; an awake consumer was woken and has
      not yet taken a value or gone back to sleep. */
  datatype Role = Notifier | Awake | Asleep | Other

  function RoleOf(pc: PC): Role {
    match pc
    case Pushed => Notifier
    case Unlocked => Notifier
    case Taking(woken) => if woken then Awake else Other
    case TakeLocked(woken) => if woken then Awake else Other
    case Ready(woken) => if woken then Awake else Other
    case Fronted(woken, _) => if woken then Awake else Other
    case Sleeping => Asleep
    case _ => Other
  }

  function Members(threads: map<Tid, PC>, role: Role): set<Tid> {
    set t | t in threads && RoleOf(threads[t]) == role
  }

  function Bit(b: bool): nat {
    if b then 1 else 0
  }

  function Others(threads: map<Tid, PC>, t: Tid, role: Role): set<Tid> {
    set u | u in threads && u != t && RoleOf(threads[u]) == role
  }

  lemma SplitMembers(threads: map<Tid, PC>, t: Tid, role: Role)
    requires t in threads
    ensures |Members(threads, role)| == |Others(threads, t, role)| + Bit(RoleOf(threads[t]) == role)
  {
    if RoleOf(threads[t]) == role {
      assert Members(threads, role) == Others(threads, t, role) + {t};
    } else {
      assert Members(threads, role) == Others(threads, t, role);
    }
  }

  lemma RoleChange(threads: map<Tid, PC>, t: Tid, pc: PC, role: Role)
    requires t in threads
    ensures |Members(threads[t := pc], role)| ==
      |Members(threads, role)| - Bit(RoleOf(threads[t]) == role) + Bit(RoleOf(pc) == role)
  {
    SplitMembers(threads, t, role);
    SplitMembers(threads[t := pc], t, role);
    assert Others(threads[t := pc], t, role) == Others(threads, t, role);
  }

  lemma RoleChanges(threads: map<Tid, PC>, t: Tid, pc: PC)
    requires t in threads
    ensures forall role ::
      |Members(threads[t := pc], role)| ==
      |Members(threads, role)| - Bit(RoleOf(threads[t]) == role) + Bit(RoleOf(pc) == role)
  {
    forall role
      ensures |Members(threads[t := pc], role)| ==
              |Members(threads, role)| - Bit(RoleOf(threads[t]) == role) + Bit(RoleOf(pc) == role)
    {
      RoleChange(threads, t, pc, role);
    }
  }

  // ---------- The invariant ----------

  ghost predicate LockOk(lock: Option<Tid>, threads: map<Tid, PC>) {
    && (lock.Some? ==> lock.value in threads)
    && (forall t :: t in threads ==> (HoldsLock(threads[t]) <==> lock == Some(t)))
  }

  predicate ThreadOk(queue: seq<Value>, taken: seq<Value>, takers: seq<Tid>, t: Tid, pc: PC) {
    match pc
    case Ready(_) => queue != []
    case Fronted(_, front) => queue != [] && front == queue[0]
    case TookOut(front, slot) => slot < |taken| == |takers| && taken[slot] == front && takers[slot] == t
    case Idle(Taken(front, slot)) => slot < |taken| == |takers| && taken[slot] == front && takers[slot] == t
    case _ => true
  }

  /** While some consumer sleeps, every queued value is covered by a producer about to
      notify or by a woken consumer about to look. */
  predicate Covered(queue: seq<Value>, threads: map<Tid, PC>) {
    Members(threads, Asleep) != {} ==> |queue| <= |Members(threads, Notifier)| + |Members(threads, Awake)|
  }

  ghost predicate ThreadsOk(queue: seq<Value>, taken: seq<Value>, takers: seq<Tid>, threads: map<Tid, PC>) {
    forall t :: t in threads ==> ThreadOk(queue, taken, takers, t, threads[t])
  }

  ghost predicate Inv(s: State) {
    && LockOk(s.lock, s.threads)
    && ThreadsOk(s.queue, s.taken, s.takers, s.threads)
    && |s.takers| == |s.taken|
    && s.taken + s.queue == s.put
    && Covered(s.queue, s.threads)
  }

  /** A lock stays as it is, or the thread releases it, or takes it while free. */
  predicate Moves(lock: Option<Tid>, t: Tid, lock': Option<Tid>) {
    lock' == lock || (lock == Some(t) && lock'.None?) || (lock.None? && lock' == Some(t))
  }

  lemma LockUpdate(lock: Option<Tid>, threads: map<Tid, PC>, t: Tid, pc: PC, lock': Option<Tid>)
    requires LockOk(lock, threads) && t in threads && Moves(lock, t, lock')
    requires HoldsLock(pc) <==> lock' == Some(t)
    ensures LockOk(lock', threads[t := pc])
  {
  }

  lemma ThreadsUpdate(queue: seq<Value>, taken: seq<Value>, takers: seq<Tid>, threads: map<Tid, PC>, t: Tid, pc: PC)
    requires ThreadsOk(queue, taken, takers, threads) && ThreadOk(queue, taken, takers, t, pc)
    ensures ThreadsOk(queue, taken, takers, threads[t := pc])
  {
  }

  /** Only the lock's holder depends on the front of the queue. */
  lemma HolderUpdate(s: State, t: Tid, pc: PC, queue: seq<Value>, taken: seq<Value>, takers: seq<Tid>)
    requires LockOk(s.lock, s.threads) && ThreadsOk(s.queue, s.taken, s.takers, s.threads)
    requires t in s.threads && s.lock == Some(t) && ThreadOk(queue, taken, takers, t, pc)
    requires s.taken <= taken && s.takers <= takers && |taken| == |takers|
    ensures ThreadsOk(queue, taken, takers, s.threads[t := pc])
  {
    forall u | u in s.threads && u != t
      ensures ThreadOk(queue, taken, takers, u, s.threads[u])
    {
      assert ThreadOk(s.queue, s.taken, s.takers, u, s.threads[u]) && !HoldsLock(s.threads[u]);
    }
  }

  lemma InsideCovered(s: State, t: Tid)
    requires Inv(s) && t in s.threads && Inside(s, t).Next?
    ensures Covered(Inside(s, t).state.queue, Inside(s, t).state.threads)
  {
    RoleChanges(s.threads, t, Inside(s, t).state.threads[t]);
  }

  lemma InsideNeverFaults(s: State, t: Tid)
    requires Inv(s) && t in s.threads
    ensures !Inside(s, t).Fault?
  {
    assert ThreadOk(s.queue, s.taken, s.takers, t, s.threads[t]);
  }

  lemma InsideThread(s: State, t: Tid)
    requires Inv(s) && t in s.threads && Inside(s, t).Next?
    ensures var s' := Inside(s, t).state;
      && Moves(s.lock, t, s'.lock) && (HoldsLock(s'.threads[t]) <==> s'.lock == Some(t))
      && s'.threads == s.threads[t := s'.threads[t]]
      && ThreadOk(s'.queue, s'.taken, s'.takers, t, s'.threads[t])
      && s.taken <= s'.taken && s.takers <= s'.takers && |s'.taken| == |s'.takers|
      && s'.taken + s'.queue == s'.put
      && (s.lock != Some(t) ==> s'.queue == s.queue && s'.taken == s.taken && s'.takers == s.takers)
  {
    assert ThreadOk(s.queue, s.taken, s.takers, t, s.threads[t]);
  }

  lemma InsideKeeps(s: State, t: Tid)
    requires Inv(s) && t in s.threads && Inside(s, t).Next?
    ensures Inv(Inside(s, t).state)
  {
    var s' := Inside(s, t).state;
    var pc := s'.threads[t];
    InsideThread(s, t);
    InsideCovered(s, t);
    LockUpdate(s.lock, s.threads, t, pc, s'.lock);
    if s.lock == Some(t) {
      HolderUpdate(s, t, pc, s'.queue, s'.taken, s'.takers);
    } else {
      ThreadsUpdate(s.queue, s.taken, s.takers, s.threads, t, pc);
    }
  }

  lemma NotifyCovered(s: State, t: Tid, u: Tid)
    requires Inv(s) && t in s.threads && s.threads[t].Unlocked? && u in s.threads && s.threads[u].Sleeping?
    ensures Covered(s.queue, s.threads[u := Taking(true)][t := Idle(Nothing)])
  {
    assert u in Members(s.threads, Asleep);
    RoleChanges(s.threads, u, Taking(true));
    RoleChanges(s.threads[u := Taking(true)], t, Idle(Nothing));
  }

  /** A thread goes where it holds no lock and knows nothing. */
  lemma QuietUpdate(s: State, t: Tid, pc: PC)
    requires LockOk(s.lock, s.threads) && ThreadsOk(s.queue, s.taken, s.takers, s.threads)
    requires t in s.threads && !HoldsLock(s.threads[t]) && (pc.Taking? || pc.Putting? || pc == Idle(Nothing))
    ensures LockOk(s.lock, s.threads[t := pc]) && ThreadsOk(s.queue, s.taken, s.takers, s.threads[t := pc])
  {
    LockUpdate(s.lock, s.threads, t, pc, s.lock);
    ThreadsUpdate(s.queue, s.taken, s.takers, s.threads, t, pc);
  }

  lemma NotifyKeeps(s: State, t: Tid, u: Tid)
    requires Inv(s) && t in s.threads && s.threads[t].Unlocked? && NotifyOne(s, t, u).Next?
    ensures Inv(NotifyOne(s, t, u).state)
  {
    if Members(s.threads, Asleep) == {} {
      RoleChanges(s.threads, t, Idle(Nothing));
      QuietUpdate(s, t, Idle(Nothing));
    } else {
      NotifyCovered(s, t, u);
      QuietUpdate(s, u, Taking(true));
      QuietUpdate(s.At(u, Taking(true)), t, Idle(Nothing));
    }
  }

  lemma CallKeeps(s: State, t: Tid, pc: PC)
    requires Inv(s) && t in s.threads && (s.threads[t].Idle? || s.threads[t].Sleeping?)
    requires pc.Putting? || (pc.Taking? && pc.woken == s.threads[t].Sleeping?)
    ensures Inv(s.At(t, pc))
  {
    RoleChanges(s.threads, t, pc);
    QuietUpdate(s, t, pc);
  }

  lemma StepKeepsInv(s: State, t: Tid, a: Action)
    requires Inv(s) && t in s.threads
    ensures !Step(s, t, a).Fault?
    ensures Step(s, t, a).Next? ==> Inv(Step(s, t, a).state)
  {
    InsideNeverFaults(s, t);
    if Step(s, t, a).Next? {
      match (s.threads[t], a)
      case (Idle(_), Put(v)) => CallKeeps(s, t, Putting(v));
      case (Idle(_), Take) => CallKeeps(s, t, Taking(false));
      case (Sleeping, WakeSpuriously) => CallKeeps(s, t, Taking(true));
      case (Unlocked, Notify(u)) => NotifyKeeps(s, t, u);
      case (_, Advance) => InsideKeeps(s, t);
      case _ =>
    }
  }

  lemma {:induction false} RunKeepsInv(s: State, schedule: seq<(Tid, Action)>)
    requires Inv(s)
    ensures Run(s, schedule).Next? && Inv(Run(s, schedule).state)
    decreases |schedule|
  {
    if schedule == [] {
    } else if schedule[0].0 in s.threads {
      StepKeepsInv(s, schedule[0].0, schedule[0].1);
      var next := Step(s, schedule[0].0, schedule[0].1);
      RunKeepsInv(if next.Next? then next.state else s, schedule[1..]);
    } else {
      RunKeepsInv(s, schedule[1..]);
    }
  }

  lemma RunFromInit(threads: set<Tid>, schedule: seq<(Tid, Action)>)
    ensures Run(Init(threads), schedule).Next? && Inv(Run(Init(threads), schedule).state)
  {
    assert Members(Init(threads).threads, Asleep) == {};
    RunKeepsInv(Init(threads), schedule);
  }

  // ---------- What the source promises ----------

  /** In every run, with spurious wake-ups anywhere: `assert(!queue_.empty())` never
      fails, and while a consumer sleeps unsignalled the queue holds no more values
      than there are producers between push and notify and consumers woken but not
      yet served. So a sleeper with no such thread about faces an empty queue. */
  lemma NoLostWakeup(threads: set<Tid>, schedule: seq<(Tid, Action)>)
    ensures Run(Init(threads), schedule).Next?
    ensures var s := Run(Init(threads), schedule).state;
      Members(s.threads, Asleep) != {} ==>
        && |s.queue| <= |Members(s.threads, Notifier)| + |Members(s.threads, Awake)|
        && (Members(s.threads, Notifier) == {} && Members(s.threads, Awake) == {} ==> s.queue == [])
  {
    RunFromInit(threads, schedule);
  }

  /** In every run, if a consumer sleeps while the queue holds something, then one of
      the threads that owe the wake-up, or the holder of the lock they need, can take
      its next step. */
  lemma WakeupCanProceed(threads: set<Tid>, schedule: seq<(Tid, Action)>)
    ensures Run(Init(threads), schedule).Next?
    ensures var s := Run(Init(threads), schedule).state;
      Members(s.threads, Asleep) != {} && s.queue != [] ==>
        exists t, a ::
          && t in s.threads && Step(s, t, a).Next? && !a.WakeSpuriously?
          && (RoleOf(s.threads[t]) == Notifier || RoleOf(s.threads[t]) == Awake || s.lock == Some(t))
  {
    RunFromInit(threads, schedule);
    var s := Run(Init(threads), schedule).state;
    if Members(s.threads, Asleep) != {} && s.queue != [] {
      if s.lock.Some? {
        assert Step(s, s.lock.value, Advance).Next?;
      } else if Members(s.threads, Notifier) != {} {
        var t :| t in Members(s.threads, Notifier);
        var u :| u in Members(s.threads, Asleep);
        assert Step(s, t, Notify(u)).Next?;
      } else {
        var t :| t in Members(s.threads, Awake);
        assert Step(s, t, Advance).Next?;
      }
    }
  }

  /** In every run, what has been taken followed by what is queued is what was put, in
      order, and a `take` that returned has the value put at its own place, which no
      other thread has. */
  lemma QueueIsFifo(threads: set<Tid>, schedule: seq<(Tid, Action)>)
    ensures Run(Init(threads), schedule).Next?
    ensures var s := Run(Init(threads), schedule).state;
      && s.taken + s.queue == s.put
      && |s.takers| == |s.taken|
      && forall t :: t in s.threads && s.threads[t].Idle? && s.threads[t].result.Taken? ==>
           var Taken(v, slot) := s.threads[t].result;
           slot < |s.taken| && s.put[slot] == v && s.takers[slot] == t
  {
    RunFromInit(threads, schedule);
  }
}
