/** Mutexes with levels: a thread may lock only below the level it is at. Each read,
    write, lock and unlock inside `lock`, `unlock` and `try_lock` is one atomic step,
    and any number of threads and mutexes take part. */
module HierarchicalMutex {
  import opened Wrappers

  type Tid = nat
  type Mid = nat

  /** ULONG_MAX, the level of a thread that holds nothing. */
  const UNLIMITED: nat := 0xFFFF_FFFF_FFFF_FFFF

  datatype Result = Returned | ReturnedFalse | Violation

  /** Where a thread stands inside a call on mutex `m`. */
  datatype PC =
    | Idle(result: Result)
    | Locking(m: Mid)
    | Trying(m: Mid)
    | Owning(m: Mid)
    | Saved(m: Mid)
    | Unlocking(m: Mid)
    | Restored(m: Mid)

  /** `level` is the thread-local `this_thread_hierarchy_value`. */
  datatype Thread = Thread(level: nat, pc: PC)

  /** `levels` is each mutex's constant `hierarchy_value`, `previous` its
      `previous_hierarchy_value`, `owner` who has the internal mutex. `held` is
      history: the mutexes each thread owns, outermost first. */
  datatype State = State(
    levels: map<Mid, nat>,
    previous: map<Mid, nat>,
    owner: map<Mid, Tid>,
    threads: map<Tid, Thread>,
    held: map<Tid, seq<Mid>>)

  datatype Action = Lock(m: Mid) | TryLock(m: Mid) | Unlock(m: Mid) | Advance

  // ---------- The steps ----------

  ghost predicate WellFormed(s: State) {
    && s.held.Keys == s.threads.Keys
    && s.previous.Keys == s.levels.Keys
    && (forall t :: t in s.threads && !s.threads[t].pc.Idle? ==> s.threads[t].pc.m in s.levels)
  }

  function Step(s: State, t: Tid, a: Action): Outcome<State>
    requires WellFormed(s) && t in s.threads
  {
    if s.threads[t].pc.Idle? then
      match Begin(s, t, a)
      case None => Blocked
      case Some(pc) => Next(Go(s, t, s.threads[t].level, pc))
    else if a.Advance? then Inside(s, t)
    else Blocked
  }

  /** Where a call takes an idle thread. There is no such call only by the caller's own
      breach: an unknown mutex, or an unlock of a mutex the thread does not hold. */
  function Begin(s: State, t: Tid, a: Action): Option<PC>
    requires WellFormed(s) && t in s.threads
  {
    var level := s.threads[t].level;
    if a.Advance? || a.m !in s.levels then None
    else
      match a
      case Lock(m) => Some(if level <= s.levels[m] then Idle(Violation) else Locking(m))
      case TryLock(m) => Some(if level <= s.levels[m] then Idle(Violation) else Trying(m))
      case Unlock(m) =>
        if m !in s.held[t] then None
        else Some(if level != s.levels[m] then Idle(Violation) else Unlocking(m))
  }

  /** The next action of a thread that is inside a call. */
  function Inside(s: State, t: Tid): Outcome<State>
    requires WellFormed(s) && t in s.threads && !s.threads[t].pc.Idle?
  {
    var Thread(level, pc) := s.threads[t];
    var m := pc.m;
    match pc
    case Locking(_) => if m in s.owner then Blocked else Next(Acquire(s, t, m))
    case Trying(_) =>
      if m in s.owner then Next(Go(s, t, level, Idle(ReturnedFalse))) else Next(Acquire(s, t, m))
    case Owning(_) => Next(Go(s.(previous := s.previous[m := level]), t, level, Saved(m)))
    case Saved(_) => Next(Go(s, t, s.levels[m], Idle(Returned)))
    case Unlocking(_) => Next(Go(s, t, s.previous[m], Restored(m)))
    case Restored(_) => Next(Release(s, t, m))
  }

  function Go(s: State, t: Tid, level: nat, pc: PC): State {
    s.(threads := s.threads[t := Thread(level, pc)])
  }

  function Acquire(s: State, t: Tid, m: Mid): State
    requires t in s.threads && t in s.held
  {
    Go(s.(owner := s.owner[m := t], held := s.held[t := s.held[t] + [m]]), t, s.threads[t].level, Owning(m))
  }

  function Release(s: State, t: Tid, m: Mid): State
    requires t in s.threads && t in s.held
  {
    Go(s.(owner := s.owner - {m}, held := s.held[t := ButLast(s.held[t])]), t, s.threads[t].level, Idle(Returned))
  }

  function ButLast(held: seq<Mid>): seq<Mid> {
    if held == [] then [] else held[..|held| - 1]
  }

  function Init(threads: set<Tid>, levels: map<Mid, nat>): State {
    State(levels, map m | m in levels :: 0, map[],
          map t | t in threads :: Thread(UNLIMITED, Idle(Returned)),
          map t | t in threads :: [])
  }

  // ---------- The invariant ----------

  /** The level of a thread that holds the first `n` of these mutexes. */
  function LevelAt(levels: map<Mid, nat>, held: seq<Mid>, n: nat): nat {
    if 0 < n <= |held| && held[n - 1] in levels then levels[held[n - 1]] else UNLIMITED
  }

  /** Levels strictly decrease from the outermost mutex in, and the first `saved` of
      them remember the level to go back to. */
  predicate StackOk(levels: map<Mid, nat>, previous: map<Mid, nat>, held: seq<Mid>, saved: nat) {
    && (forall i :: 0 <= i < |held| ==> held[i] in levels && held[i] in previous)
    && (forall i :: 0 <= i < |held| ==> levels[held[i]] < LevelAt(levels, held, i))
    && (forall i :: 0 <= i < |held| && i < saved ==> previous[held[i]] == LevelAt(levels, held, i))
  }

  predicate ThreadOk(levels: map<Mid, nat>, previous: map<Mid, nat>, held: seq<Mid>, thread: Thread) {
    var n := |held|;
    match thread.pc
    case Idle(_) => StackOk(levels, previous, held, n) && thread.level == LevelAt(levels, held, n)
    case Locking(m) =>
      StackOk(levels, previous, held, n) && m in levels && levels[m] < thread.level == LevelAt(levels, held, n)
    case Trying(m) =>
      StackOk(levels, previous, held, n) && m in levels && levels[m] < thread.level == LevelAt(levels, held, n)
    case Unlocking(m) =>
      StackOk(levels, previous, held, n) && thread.level == LevelAt(levels, held, n) && n > 0 && held[n - 1] == m
    case Owning(m) =>
      n > 0 && held[n - 1] == m && StackOk(levels, previous, held, n - 1) &&
        thread.level == LevelAt(levels, held, n - 1)
    case Saved(m) =>
      n > 0 && held[n - 1] == m && StackOk(levels, previous, held, n) && thread.level == LevelAt(levels, held, n - 1)
    case Restored(m) =>
      n > 0 && held[n - 1] == m && StackOk(levels, previous, held, n) && thread.level == LevelAt(levels, held, n - 1)
  }

  ghost predicate OwnersOk(owner: map<Mid, Tid>, held: map<Tid, seq<Mid>>) {
    && (forall t, m :: t in held && m in held[t] ==> m in owner && owner[m] == t)
    && (forall m :: m in owner ==> owner[m] in held && m in held[owner[m]])
  }

  ghost predicate ThreadsOk(levels: map<Mid, nat>, previous: map<Mid, nat>, held: map<Tid, seq<Mid>>,
        threads: map<Tid, Thread>)
  {
    held.Keys == threads.Keys && forall t :: t in threads ==> ThreadOk(levels, previous, held[t], threads[t])
  }

  ghost predicate Inv(s: State) {
    WellFormed(s) && ThreadsOk(s.levels, s.previous, s.held, s.threads) && OwnersOk(s.owner, s.held)
  }

  /** Levels strictly decrease, so they are all below every earlier one. */
  lemma {:induction false} Decreasing(levels: map<Mid, nat>, previous: map<Mid, nat>, held: seq<Mid>, saved: nat,
        i: nat, j: nat)
    requires StackOk(levels, previous, held, saved) && i < j < |held|
    ensures levels[held[j]] < levels[held[i]]
    decreases j
  {
    assert levels[held[j]] < LevelAt(levels, held, j);
    if i < j - 1 {
      Decreasing(levels, previous, held, saved, i, j - 1);
    }
  }

  /** Everything held is at or above the innermost level. */
  lemma InnermostIsLeast(levels: map<Mid, nat>, previous: map<Mid, nat>, held: seq<Mid>, saved: nat, m: Mid)
    requires StackOk(levels, previous, held, saved) && m in held
    ensures LevelAt(levels, held, |held|) <= levels[m]
    ensures LevelAt(levels, held, |held|) == levels[m] ==> m == held[|held| - 1]
  {
    var i :| 0 <= i < |held| && held[i] == m;
    if i < |held| - 1 {
      Decreasing(levels, previous, held, saved, i, |held| - 1);
    }
  }

  /** The innermost mutex occurs once. */
  lemma InnermostOnce(levels: map<Mid, nat>, previous: map<Mid, nat>, held: seq<Mid>, saved: nat)
    requires StackOk(levels, previous, held, saved) && held != []
    ensures held[|held| - 1] !in ButLast(held)
  {
    if held[|held| - 1] in ButLast(held) {
      var i :| 0 <= i < |held| - 1 && held[i] == held[|held| - 1];
      Decreasing(levels, previous, held, saved, i, |held| - 1);
    }
  }

  lemma AcquireOwners(owner: map<Mid, Tid>, held: map<Tid, seq<Mid>>, t: Tid, m: Mid)
    requires OwnersOk(owner, held) && t in held && m !in owner
    ensures OwnersOk(owner[m := t], held[t := held[t] + [m]])
  {
  }

  lemma ReleaseOwners(owner: map<Mid, Tid>, held: map<Tid, seq<Mid>>, t: Tid, m: Mid)
    requires OwnersOk(owner, held) && t in held && held[t] != [] && held[t][|held[t]| - 1] == m
    requires m !in ButLast(held[t])
    ensures OwnersOk(owner - {m}, held[t := ButLast(held[t])])
  {
    var owner', held' := owner - {m}, held[t := ButLast(held[t])];
    assert held[t] == ButLast(held[t]) + [m];
    assert m in held[t] && owner[m] == t;
    forall u, x | u in held' && x in held'[u] ensures x in owner' && owner'[x] == u {
      assert x in held[u];
    }
    forall x | x in owner' ensures owner'[x] in held' && x in held'[owner'[x]] {
      assert x in held[owner[x]] && x != m;
    }
  }

  lemma PushStack(levels: map<Mid, nat>, previous: map<Mid, nat>, held: seq<Mid>, m: Mid)
    requires StackOk(levels, previous, held, |held|) && m in levels && m in previous
    requires levels[m] < LevelAt(levels, held, |held|)
    ensures StackOk(levels, previous, held + [m], |held|)
    ensures LevelAt(levels, held + [m], |held|) == LevelAt(levels, held, |held|)
  {
    var held' := held + [m];
    assert forall i :: 0 <= i <= |held| ==> LevelAt(levels, held', i) == LevelAt(levels, held, i);
  }

  lemma PopStack(levels: map<Mid, nat>, previous: map<Mid, nat>, held: seq<Mid>)
    requires StackOk(levels, previous, held, |held|) && held != []
    ensures StackOk(levels, previous, ButLast(held), |held| - 1)
    ensures LevelAt(levels, ButLast(held), |held| - 1) == LevelAt(levels, held, |held| - 1)
  {
    var held' := ButLast(held);
    assert forall i :: 0 <= i <= |held'| ==> LevelAt(levels, held', i) == LevelAt(levels, held, i);
  }

  /** Saving a level into a mutex disturbs no stack that does not hold it. */
  lemma SaveElsewhere(levels: map<Mid, nat>, previous: map<Mid, nat>, held: seq<Mid>, thread: Thread, m: Mid,
        level: nat)
    requires ThreadOk(levels, previous, held, thread) && m !in held
    ensures ThreadOk(levels, previous[m := level], held, thread)
  {
  }

  /** Saving the enclosing level into the innermost mutex completes its stack. */
  lemma SaveOwn(levels: map<Mid, nat>, previous: map<Mid, nat>, held: seq<Mid>)
    requires held != [] && StackOk(levels, previous, held, |held| - 1)
    ensures StackOk(levels, previous[held[|held| - 1] := LevelAt(levels, held, |held| - 1)], held, |held|)
  {
    InnermostOnce(levels, previous, held, |held| - 1);
    forall i | 0 <= i < |held| - 1 ensures held[i] != held[|held| - 1] {
      assert ButLast(held)[i] == held[i];
    }
  }

  /** A step that writes nothing but the thread's own level and place. */
  lemma GoKeeps(s: State, t: Tid, level: nat, pc: PC)
    requires Inv(s) && t in s.threads && (!pc.Idle? ==> pc.m in s.levels)
    requires ThreadOk(s.levels, s.previous, s.held[t], Thread(level, pc))
    ensures Inv(Go(s, t, level, pc))
  {
  }

  lemma ThreadChanges(levels: map<Mid, nat>, previous: map<Mid, nat>, held: map<Tid, seq<Mid>>,
                      threads: map<Tid, Thread>, t: Tid, mutexes: seq<Mid>, thread: Thread)
    requires ThreadsOk(levels, previous, held, threads) && t in threads
    requires ThreadOk(levels, previous, mutexes, thread)
    ensures ThreadsOk(levels, previous, held[t := mutexes], threads[t := thread])
  {
  }

  /** The stack of the thread that has just got a mutex. */
  lemma AcquirerOk(levels: map<Mid, nat>, previous: map<Mid, nat>, held: seq<Mid>, thread: Thread)
    requires ThreadOk(levels, previous, held, thread) && (thread.pc.Locking? || thread.pc.Trying?)
    requires thread.pc.m in previous
    ensures ThreadOk(levels, previous, held + [thread.pc.m], Thread(thread.level, Owning(thread.pc.m)))
  {
    PushStack(levels, previous, held, thread.pc.m);
  }

  lemma AcquireKeeps(s: State, t: Tid, m: Mid)
    requires Inv(s) && t in s.threads && m in s.levels && m !in s.owner
    requires s.threads[t].pc == Locking(m) || s.threads[t].pc == Trying(m)
    ensures Inv(Acquire(s, t, m))
  {
    AcquireOwners(s.owner, s.held, t, m);
    AcquirerOk(s.levels, s.previous, s.held[t], s.threads[t]);
    ThreadChanges(s.levels, s.previous, s.held, s.threads, t, s.held[t] + [m], Thread(s.threads[t].level, Owning(m)));
  }

  lemma ReleaseKeeps(s: State, t: Tid)
    requires Inv(s) && t in s.threads && s.threads[t].pc.Restored?
    ensures Inv(Release(s, t, s.threads[t].pc.m))
  {
    InnermostOnce(s.levels, s.previous, s.held[t], |s.held[t]|);
    ReleaseOwners(s.owner, s.held, t, s.threads[t].pc.m);
    PopStack(s.levels, s.previous, s.held[t]);
  }

  /** The saving thread's own stack is complete. */
  lemma SaverOk(levels: map<Mid, nat>, previous: map<Mid, nat>, held: seq<Mid>, thread: Thread)
    requires ThreadOk(levels, previous, held, thread) && thread.pc.Owning?
    ensures ThreadOk(levels, previous[thread.pc.m := thread.level], held, Thread(thread.level, Saved(thread.pc.m)))
  {
    SaveOwn(levels, previous, held);
  }

  /** A mutex that one thread holds is in no other thread's stack. */
  lemma HeldByOne(owner: map<Mid, Tid>, held: map<Tid, seq<Mid>>, t: Tid, u: Tid, m: Mid)
    requires OwnersOk(owner, held) && t in held && u in held && u != t && m in held[t]
    ensures m !in held[u]
  {
    assert owner[m] == t;
  }

  lemma SaveThreads(s: State, t: Tid, u: Tid)
    requires Inv(s) && t in s.threads && u in s.threads && s.threads[t].pc.Owning?
    ensures var m, level := s.threads[t].pc.m, s.threads[t].level;
      ThreadOk(s.levels, s.previous[m := level], s.held[u], if u == t then Thread(level, Saved(m)) else s.threads[u])
  {
    var m := s.threads[t].pc.m;
    if u == t {
      SaverOk(s.levels, s.previous, s.held[t], s.threads[t]);
    } else {
      assert s.held[t][|s.held[t]| - 1] == m;
      HeldByOne(s.owner, s.held, t, u, m);
      SaveElsewhere(s.levels, s.previous, s.held[u], s.threads[u], m, s.threads[t].level);
    }
  }

  lemma SaveKeeps(s: State, t: Tid)
    requires Inv(s) && t in s.threads && s.threads[t].pc.Owning?
    ensures Inside(s, t).Next? && Inv(Inside(s, t).state)
  {
    var s' := Inside(s, t).state;
    var m := s.threads[t].pc.m;
    assert m in s.previous;
    assert s'.previous.Keys == s.previous.Keys && s'.threads.Keys == s.threads.Keys;
    forall u | u in s'.threads
      ensures ThreadOk(s'.levels, s'.previous, s'.held[u], s'.threads[u])
    {
      SaveThreads(s, t, u);
    }
  }

  lemma InsideKeeps(s: State, t: Tid)
    requires Inv(s) && t in s.threads && !s.threads[t].pc.Idle?
    ensures !Inside(s, t).Fault?
    ensures Inside(s, t).Next? ==> Inv(Inside(s, t).state)
  {
    match s.threads[t].pc
    case Locking(m) =>
      if m !in s.owner {
        AcquireKeeps(s, t, m);
      }
    case Trying(m) =>
      if m !in s.owner {
        AcquireKeeps(s, t, m);
      } else {
        GoKeeps(s, t, s.threads[t].level, Idle(ReturnedFalse));
      }
    case Owning(_) => SaveKeeps(s, t);
    case Saved(m) => GoKeeps(s, t, s.levels[m], Idle(Returned));
    case Unlocking(m) => GoKeeps(s, t, s.previous[m], Restored(m));
    case Restored(_) => ReleaseKeeps(s, t);
  }

  lemma BeginKeeps(s: State, t: Tid, a: Action)
    requires Inv(s) && t in s.threads && s.threads[t].pc.Idle? && Begin(s, t, a).Some?
    ensures var pc := Begin(s, t, a).value;
      (!pc.Idle? ==> pc.m in s.levels) &&
      ThreadOk(s.levels, s.previous, s.held[t], Thread(s.threads[t].level, pc))
  {
    if a.Unlock? {
      InnermostIsLeast(s.levels, s.previous, s.held[t], |s.held[t]|, a.m);
    }
  }

  lemma StepKeepsInv(s: State, t: Tid, a: Action)
    requires Inv(s) && t in s.threads
    ensures !Step(s, t, a).Fault?
    ensures Step(s, t, a).Next? ==> Inv(Step(s, t, a).state)
  {
    if !s.threads[t].pc.Idle? {
      InsideKeeps(s, t);
    } else if Begin(s, t, a).Some? {
      BeginKeeps(s, t, a);
      GoKeeps(s, t, s.threads[t].level, Begin(s, t, a).value);
    }
  }

  // ---------- Runs ----------

  ghost predicate Reachable(s: State, threads: set<Tid>, levels: map<Mid, nat>, schedule: seq<(Tid, Action)>)
    decreases |schedule|
  {
    if schedule == [] then s == Init(threads, levels)
    else
      var (t, a) := schedule[|schedule| - 1];
      exists r :: Reachable(r, threads, levels, schedule[..|schedule| - 1]) &&
        WellFormed(r) && t in r.threads && Step(r, t, a) == Next(s)
  }

  lemma {:induction false} ReachableInv(s: State, threads: set<Tid>, levels: map<Mid, nat>,
        schedule: seq<(Tid, Action)>)
    requires Reachable(s, threads, levels, schedule)
    ensures Inv(s)
    decreases |schedule|
  {
    if schedule == [] {
    } else {
      var (t, a) := schedule[|schedule| - 1];
      var r :| Reachable(r, threads, levels, schedule[..|schedule| - 1]) &&
        WellFormed(r) && t in r.threads && Step(r, t, a) == Next(s);
      ReachableInv(r, threads, levels, schedule[..|schedule| - 1]);
      StepKeepsInv(r, t, a);
    }
  }

  // ---------- Deadlock freedom ----------

  /** The thread that owns the mutex another one is blocked on. */
  function WaitsFor(s: State, t: Tid): Option<Tid>
    requires WellFormed(s) && t in s.threads
  {
    match s.threads[t].pc
    case Locking(m) => if m in s.owner then Some(s.owner[m]) else None
    case _ => None
  }

  /** Along every edge of the waits-for graph the wanted level goes down. */
  lemma WantedLevelFalls(s: State, t: Tid)
    requires Inv(s) && t in s.threads && WaitsFor(s, t).Some?
    ensures var u := WaitsFor(s, t).value;
      u in s.threads && u != t && s.held[u] != [] &&
      (s.threads[u].pc.Locking? ==> s.levels[s.threads[u].pc.m] < s.levels[s.threads[t].pc.m])
  {
    var m := s.threads[t].pc.m;
    var u := WaitsFor(s, t).value;
    if u == t || s.threads[u].pc.Locking? {
      InnermostIsLeast(s.levels, s.previous, s.held[u], |s.held[u]|, m);
    }
  }

  /** In every reachable state no walk along the waits-for graph, of any length,
      comes back to where it started. */
  lemma NoDeadlock(s: State, threads: set<Tid>, levels: map<Mid, nat>, schedule: seq<(Tid, Action)>, walk: seq<Tid>)
    requires Reachable(s, threads, levels, schedule) && WellFormed(s)
    requires |walk| > 1 && forall i :: 0 <= i < |walk| ==> walk[i] in s.threads
    requires forall i :: 0 <= i < |walk| - 1 ==> WaitsFor(s, walk[i]) == Some(walk[i + 1])
    ensures walk[|walk| - 1] != walk[0]
  {
    ReachableInv(s, threads, levels, schedule);
    var n := |walk| - 1;
    if walk[n] == walk[0] {
      assert WaitsFor(s, walk[0]) == Some(walk[0 + 1]);
      assert WaitsFor(s, walk[n - 1]) == Some(walk[n - 1 + 1]);
      LevelFallsAlong(s, walk, n);
    }
  }

  lemma {:induction false} LevelFallsAlong(s: State, walk: seq<Tid>, k: nat)
    requires Inv(s) && 0 < k < |walk| && forall i :: 0 <= i < |walk| ==> walk[i] in s.threads
    requires forall i :: 0 <= i < k ==> WaitsFor(s, walk[i]) == Some(walk[i + 1])
    requires s.threads[walk[k]].pc.Locking?
    ensures s.threads[walk[0]].pc.Locking?
    ensures s.levels[s.threads[walk[k]].pc.m] < s.levels[s.threads[walk[0]].pc.m]
  {
    assert WaitsFor(s, walk[k - 1]) == Some(walk[k - 1 + 1]);
    WantedLevelFalls(s, walk[k - 1]);
    if k > 1 {
      LevelFallsAlong(s, walk, k - 1);
    }
  }

  /** The end of the chain of owners a thread is waiting for. */
  ghost function Root(s: State, t: Tid): (u: Tid)
    requires Inv(s) && t in s.threads
    ensures u in s.threads && WaitsFor(s, u).None?
    ensures WaitsFor(s, t).Some? ==> s.held[u] != []
    decreases if s.threads[t].pc.Locking? then s.levels[s.threads[t].pc.m] + 1 else 0
  {
    if WaitsFor(s, t).None? then t
    else
      WantedLevelFalls(s, t);
      Root(s, WaitsFor(s, t).value)
  }

  /** A thread that holds something and is not blocked can go on: mid-call it takes
      its next step, and between calls the unlock of its innermost mutex is accepted. */
  ghost predicate CanMove(s: State, u: Tid)
    requires WellFormed(s) && u in s.threads
  {
    if s.threads[u].pc.Idle? then
      s.held[u] != [] &&
      Step(s, u, Unlock(s.held[u][|s.held[u]| - 1])) ==
        Next(Go(s, u, s.threads[u].level, Unlocking(s.held[u][|s.held[u]| - 1])))
    else Step(s, u, Advance).Next?
  }

  lemma UnblockedCanMove(s: State, u: Tid)
    requires Inv(s) && u in s.threads && WaitsFor(s, u).None? && s.held[u] != []
    ensures CanMove(s, u)
  {
  }

  /** In every reachable state, behind every waiting thread there is a thread that
      holds a mutex and can move. */
  lemma SomeoneCanMove(s: State, threads: set<Tid>, levels: map<Mid, nat>, schedule: seq<(Tid, Action)>, t: Tid)
    requires Reachable(s, threads, levels, schedule)
    ensures Inv(s)
    ensures t in s.threads && WaitsFor(s, t).Some? ==> s.held[Root(s, t)] != [] && CanMove(s, Root(s, t))
  {
    ReachableInv(s, threads, levels, schedule);
    if t in s.threads && WaitsFor(s, t).Some? {
      UnblockedCanMove(s, Root(s, t));
    }
  }

  // ---------- Ordering and restoring ----------

  /** Below the thread's level is below everything it holds. */
  lemma LockDecides(s: State, t: Tid, m: Mid)
    requires Inv(s) && t in s.threads && m in s.levels && s.threads[t].pc.Idle?
    ensures forall x :: x in s.held[t] ==> x in s.levels
    ensures s.levels[m] < s.threads[t].level <==>
      s.levels[m] < UNLIMITED && forall x :: x in s.held[t] ==> s.levels[m] < s.levels[x]
  {
    assert ThreadOk(s.levels, s.previous, s.held[t], s.threads[t]);
    BelowAll(s.levels, s.previous, s.held[t], |s.held[t]|, m);
  }

  lemma LockAnswers(s: State, t: Tid, m: Mid)
    requires WellFormed(s) && t in s.threads && m in s.levels && s.threads[t].pc.Idle?
    ensures var below := s.levels[m] < s.threads[t].level;
      && Step(s, t, Lock(m)) == Next(Go(s, t, s.threads[t].level, if below then Locking(m) else Idle(Violation)))
      && Step(s, t, TryLock(m)) == Next(Go(s, t, s.threads[t].level, if below then Trying(m) else Idle(Violation)))
  {
  }

  /** Between calls, in every reachable state, a lock or try_lock is refused exactly
      when the mutex is not below everything the thread holds, and so never blocks a
      thread on a mutex of its own. */
  lemma LockOrderIsEnforced(s: State, threads: set<Tid>, levels: map<Mid, nat>, schedule: seq<(Tid, Action)>, t: Tid,
        m: Mid)
    requires Reachable(s, threads, levels, schedule)
    requires WellFormed(s) && t in s.threads && m in s.levels && s.threads[t].pc.Idle?
    ensures forall x :: x in s.held[t] ==> x in s.levels
    ensures var below := s.levels[m] < UNLIMITED && forall x :: x in s.held[t] ==> s.levels[m] < s.levels[x];
      && Step(s, t, Lock(m)) == Next(Go(s, t, s.threads[t].level, if below then Locking(m) else Idle(Violation)))
      && Step(s, t, TryLock(m)) == Next(Go(s, t, s.threads[t].level, if below then Trying(m) else Idle(Violation)))
  {
    ReachableInv(s, threads, levels, schedule);
    LockDecides(s, t, m);
    LockAnswers(s, t, m);
  }

  lemma BelowAll(levels: map<Mid, nat>, previous: map<Mid, nat>, held: seq<Mid>, saved: nat, m: Mid)
    requires StackOk(levels, previous, held, saved) && m in levels
    ensures levels[m] < LevelAt(levels, held, |held|) <==>
      levels[m] < UNLIMITED && forall x :: x in held ==> levels[m] < levels[x]
  {
    forall x | x in held ensures LevelAt(levels, held, |held|) <= levels[x] {
      InnermostIsLeast(levels, previous, held, saved, x);
    }
    if held == [] {
    } else {
      assert held[|held| - 1] in held;
      BelowUnlimited(levels, previous, held, saved);
    }
  }

  lemma UnlockDecides(s: State, t: Tid, m: Mid)
    requires Inv(s) && t in s.threads && s.threads[t].pc.Idle? && m in s.held[t]
    ensures m in s.levels
    ensures s.threads[t].level == s.levels[m] <==> m == s.held[t][|s.held[t]| - 1]
  {
    assert ThreadOk(s.levels, s.previous, s.held[t], s.threads[t]);
    InnermostIsLeast(s.levels, s.previous, s.held[t], |s.held[t]|, m);
  }

  /** Between calls, in every reachable state, the unlock of a held mutex is accepted
      exactly when it is the innermost one. */
  lemma UnlockOrderIsEnforced(s: State, threads: set<Tid>, levels: map<Mid, nat>, schedule: seq<(Tid, Action)>,
        t: Tid, m: Mid)
    requires Reachable(s, threads, levels, schedule)
    requires WellFormed(s) && t in s.threads && s.threads[t].pc.Idle? && m in s.held[t]
    ensures Step(s, t, Unlock(m)) ==
      Next(Go(s, t, s.threads[t].level, if m == s.held[t][|s.held[t]| - 1] then Unlocking(m) else Idle(Violation)))
  {
    ReachableInv(s, threads, levels, schedule);
    UnlockDecides(s, t, m);
  }

  /** Nothing at the unlimited level is ever held. */
  lemma BelowUnlimited(levels: map<Mid, nat>, previous: map<Mid, nat>, held: seq<Mid>, saved: nat)
    requires StackOk(levels, previous, held, saved) && held != []
    ensures LevelAt(levels, held, |held|) < UNLIMITED
  {
    assert levels[held[0]] < LevelAt(levels, held, 0);
    if |held| > 1 {
      Decreasing(levels, previous, held, saved, 0, |held| - 1);
    }
  }

  /** In every reachable state, whatever the others did meanwhile, a thread between
      calls is at the level of its innermost mutex, or unlimited with none held. */
  lemma LevelFollowsHeld(s: State, threads: set<Tid>, levels: map<Mid, nat>, schedule: seq<(Tid, Action)>, t: Tid)
    requires Reachable(s, threads, levels, schedule) && WellFormed(s) && t in s.threads && s.threads[t].pc.Idle?
    ensures forall m :: m in s.held[t] ==> m in s.levels
    ensures s.threads[t].level == LevelAt(s.levels, s.held[t], |s.held[t]|)
  {
    ReachableInv(s, threads, levels, schedule);
  }

  lemma RestoredLevel(s: State, t: Tid)
    requires Inv(s) && t in s.threads && s.threads[t].pc.Unlocking?
    ensures var held := s.held[t];
      && held != [] && (forall m :: m in held ==> m in s.levels)
      && held[|held| - 1] == s.threads[t].pc.m && s.threads[t].pc.m in s.previous
      && s.previous[s.threads[t].pc.m] == LevelAt(s.levels, held, |held| - 1)
  {
  }

  /** The write of `unlock` puts back the level the thread was at before it locked:
      that of the mutexes outside the one released. */
  lemma UnlockRestores(s: State, threads: set<Tid>, levels: map<Mid, nat>, schedule: seq<(Tid, Action)>, t: Tid)
    requires Reachable(s, threads, levels, schedule) && WellFormed(s) && t in s.threads && s.threads[t].pc.Unlocking?
    ensures var held := s.held[t];
      && held != [] && (forall m :: m in held ==> m in s.levels)
      && held[|held| - 1] == s.threads[t].pc.m
      && Step(s, t, Advance) ==
           Next(Go(s, t, LevelAt(s.levels, held, |held| - 1), Restored(s.threads[t].pc.m)))
  {
    ReachableInv(s, threads, levels, schedule);
    RestoredLevel(s, t);
  }

  /** A thread's level, place and held mutexes change by its own steps only. */
  lemma OnlyOwnSteps(s: State, t: Tid, a: Action, u: Tid)
    requires WellFormed(s) && t in s.threads && u in s.threads && u != t && Step(s, t, a).Next?
    ensures var s' := Step(s, t, a).state;
      u in s'.threads && u in s'.held && s'.threads[u] == s.threads[u] && s'.held[u] == s.held[u]
  {
  }

  // ---------- Answers ----------

  /** The last call that a thread began in a run. */
  function LastCall(schedule: seq<(Tid, Action)>, t: Tid): Option<Action> {
    if schedule == [] then None
    else
      var (u, a) := schedule[|schedule| - 1];
      if u == t && !a.Advance? then Some(a) else LastCall(schedule[..|schedule| - 1], t)
  }

  /** Where a thread can stand in its last call, and what it then holds. A call that
      returned true has the mutex innermost, one that unlocked has it no more. */
  predicate Stands(call: Option<Action>, held: seq<Mid>, pc: PC) {
    match call
    case None => pc == Idle(Returned) && held == []
    case Some(Lock(m)) =>
      pc == Locking(m) || pc == Owning(m) || pc == Saved(m) || pc == Idle(Violation) ||
      (pc == Idle(Returned) && Innermost(held, m))
    case Some(TryLock(m)) =>
      pc == Trying(m) || pc == Owning(m) || pc == Saved(m) || pc == Idle(Violation) || pc == Idle(ReturnedFalse) ||
      (pc == Idle(Returned) && Innermost(held, m))
    case Some(Unlock(m)) =>
      pc == Unlocking(m) || pc == Restored(m) || pc == Idle(Violation) || (pc == Idle(Returned) && m !in held)
    case Some(Advance) => false
  }

  predicate Innermost(held: seq<Mid>, m: Mid) {
    held != [] && held[|held| - 1] == m
  }

  lemma BeginStands(s: State, t: Tid, a: Action)
    requires WellFormed(s) && t in s.threads && !a.Advance? && Step(s, t, a).Next?
    ensures t in Step(s, t, a).state.threads && t in Step(s, t, a).state.held
    ensures Stands(Some(a), Step(s, t, a).state.held[t], Step(s, t, a).state.threads[t].pc)
  {
  }

  lemma AdvanceStands(s: State, t: Tid, call: Option<Action>)
    requires Inv(s) && t in s.threads && Stands(call, s.held[t], s.threads[t].pc) && Step(s, t, Advance).Next?
    ensures var s' := Step(s, t, Advance).state;
      t in s'.threads && t in s'.held && Stands(call, s'.held[t], s'.threads[t].pc)
  {
    assert ThreadOk(s.levels, s.previous, s.held[t], s.threads[t]);
    if s.threads[t].pc.Restored? {
      InnermostOnce(s.levels, s.previous, s.held[t], |s.held[t]|);
    }
  }

  lemma {:induction false} ReachableStands(s: State, threads: set<Tid>, levels: map<Mid, nat>,
        schedule: seq<(Tid, Action)>, t: Tid)
    requires Reachable(s, threads, levels, schedule) && t in threads
    ensures t in s.threads && t in s.held && Stands(LastCall(schedule, t), s.held[t], s.threads[t].pc)
    decreases |schedule|
  {
    if schedule == [] {
    } else {
      var (u, a) := schedule[|schedule| - 1];
      var before := schedule[..|schedule| - 1];
      var r :| Reachable(r, threads, levels, before) && WellFormed(r) && u in r.threads && Step(r, u, a) == Next(s);
      ReachableStands(r, threads, levels, before, t);
      ReachableInv(r, threads, levels, before);
      if u != t {
        OnlyOwnSteps(r, u, a, t);
      } else if a.Advance? {
        AdvanceStands(r, t, LastCall(before, t));
      } else {
        BeginStands(r, t, a);
      }
    }
  }

  /** The thread owns `m`, innermost, and is at its level. */
  predicate Holds(s: State, t: Tid, m: Mid) {
    && t in s.threads && t in s.held && Innermost(s.held[t], m)
    && m in s.owner && s.owner[m] == t
    && m in s.levels && s.threads[t].level == s.levels[m]
  }

  /** What a call that returned true has left the thread with. */
  predicate Done(s: State, t: Tid, call: Option<Action>)
    requires t in s.held
  {
    match call
    case Some(Lock(m)) => Holds(s, t, m)
    case Some(TryLock(m)) => Holds(s, t, m)
    case Some(Unlock(m)) => m !in s.held[t] && (m in s.owner ==> s.owner[m] != t)
    case _ => s.held[t] == []
  }

  lemma InnermostHeld(s: State, t: Tid, m: Mid)
    requires Inv(s) && t in s.threads && s.threads[t].pc.Idle? && Innermost(s.held[t], m)
    ensures Holds(s, t, m)
  {
    assert ThreadOk(s.levels, s.previous, s.held[t], s.threads[t]);
    assert m in s.held[t];
  }

  lemma ReturnedIsDone(s: State, t: Tid, call: Option<Action>)
    requires Inv(s) && t in s.threads && Stands(call, s.held[t], s.threads[t].pc) && s.threads[t].pc == Idle(Returned)
    ensures Done(s, t, call)
  {
    match call
    case Some(Lock(m)) => InnermostHeld(s, t, m);
    case Some(TryLock(m)) => InnermostHeld(s, t, m);
    case _ =>
  }

  /** In every reachable state every thread stands in the call it last began; and if that
      call returned true, a lock or try_lock has left the mutex with the thread, innermost,
      and an unlock without it. */
  lemma AnswersAreRight(s: State, threads: set<Tid>, levels: map<Mid, nat>, schedule: seq<(Tid, Action)>, t: Tid)
    requires Reachable(s, threads, levels, schedule) && t in threads
    ensures t in s.threads && t in s.held && Stands(LastCall(schedule, t), s.held[t], s.threads[t].pc)
    ensures s.threads[t].pc == Idle(Returned) ==> Done(s, t, LastCall(schedule, t))
  {
    ReachableStands(s, threads, levels, schedule, t);
    ReachableInv(s, threads, levels, schedule);
    if s.threads[t].pc == Idle(Returned) {
      ReturnedIsDone(s, t, LastCall(schedule, t));
    }
  }

  /** In every reachable state a `try_lock` past its level check answers at once: false
      exactly when another thread owns the mutex, and then nothing else changes; otherwise
      the mutex is the thread's. */
  lemma TryLockAnswers(s: State, threads: set<Tid>, levels: map<Mid, nat>, schedule: seq<(Tid, Action)>, t: Tid)
    requires Reachable(s, threads, levels, schedule) && WellFormed(s) && t in s.threads && s.threads[t].pc.Trying?
    ensures Step(s, t, Advance).Next?
    ensures var m, s' := s.threads[t].pc.m, Step(s, t, Advance).state;
      && t in s'.threads && t in s'.held
      && (s'.threads[t].pc == Idle(ReturnedFalse) <==> m in s.owner && s.owner[m] != t)
      && (if s'.threads[t].pc == Idle(ReturnedFalse) then
            && s'.owner == s.owner && s'.held == s.held && s'.previous == s.previous
            && s'.threads == s.threads[t := Thread(s.threads[t].level, Idle(ReturnedFalse))]
          else
            && m in s'.owner && s'.owner[m] == t && s'.held[t] == s.held[t] + [m])
  {
    ReachableInv(s, threads, levels, schedule);
    NotOwnedYet(s, t);
  }

  /** A thread never tries, or waits for, a mutex it owns. */
  lemma NotOwnedYet(s: State, t: Tid)
    requires Inv(s) && t in s.threads && (s.threads[t].pc.Trying? || s.threads[t].pc.Locking?)
    ensures s.threads[t].pc.m in s.owner ==> s.owner[s.threads[t].pc.m] != t
  {
    var m := s.threads[t].pc.m;
    assert ThreadOk(s.levels, s.previous, s.held[t], s.threads[t]);
    if m in s.held[t] {
      InnermostIsLeast(s.levels, s.previous, s.held[t], |s.held[t]|, m);
    }
  }

  /** In every reachable state, inside a call a thread is held up only by `lock` of a mutex
      that another thread owns. */
  lemma BlockedIff(s: State, threads: set<Tid>, levels: map<Mid, nat>, schedule: seq<(Tid, Action)>, t: Tid)
    requires Reachable(s, threads, levels, schedule) && WellFormed(s) && t in s.threads && !s.threads[t].pc.Idle?
    ensures Step(s, t, Advance).Blocked? <==>
      s.threads[t].pc.Locking? && s.threads[t].pc.m in s.owner && s.owner[s.threads[t].pc.m] != t
  {
    ReachableInv(s, threads, levels, schedule);
    if s.threads[t].pc.Locking? {
      NotOwnedYet(s, t);
    }
  }
}
