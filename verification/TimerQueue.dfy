/** The timer queue: an ordered set of (expiration, timer) pairs, a descriptor armed for
    the earliest, and a handler that runs what is due. Times are microseconds. */
module TimerQueue {
  import opened Wrappers

  type Time = int

  /** A timer's address; the search sentry is the largest one. */
  const UINTPTR_MAX: nat := 0xFFFF_FFFF_FFFF_FFFF
  type Ref = r: nat | r < UINTPTR_MAX

  datatype Entry = Entry(when: Time, timer: Ref)

  /** `serial` is the timer's `sequence_`, drawn from a counter. */
  datatype Timer = Timer(expiration: Time, interval: nat, repeat: bool, serial: nat)

  // ---------- Arming the descriptor ----------

  const MICROS_PER_SECOND: int := 1_000_000

  datatype TimeSpec = TimeSpec(sec: int, nsec: int)

  function HowMuchTimeFromNow(when: Time, now: Time): TimeSpec {
    var micros := if when - now < 100 then 100 else when - now;
    TimeSpec(micros / MICROS_PER_SECOND, micros % MICROS_PER_SECOND * 1000)
  }

  /** The pair is normalised and worth the time left, but at least 100 microseconds. */
  lemma TimeSpecExact(when: Time, now: Time)
    ensures var ts := HowMuchTimeFromNow(when, now);
      && 0 <= ts.sec && 0 <= ts.nsec < 1_000_000_000
      && ts.sec * 1_000_000_000 + ts.nsec == 1000 * (if when - now < 100 then 100 else when - now)
  {
    var micros := if when - now < 100 then 100 else when - now;
    assert micros == micros / MICROS_PER_SECOND * MICROS_PER_SECOND + micros % MICROS_PER_SECOND;
  }

  /** The kernel's one-shot timer, armed at `at` to expire at `deadline`; it stays
      readable from then until it is read. */
  datatype Arm = Arm(deadline: Time, at: Time)

  function Armed(when: Time, at: Time): Arm {
    var ts := HowMuchTimeFromNow(when, at);
    Arm(at + ts.sec * MICROS_PER_SECOND + ts.nsec / 1000, at)
  }

  lemma ArmedExact(when: Time, at: Time)
    ensures Armed(when, at).deadline == if when < at + 100 then at + 100 else when
  {
    var micros := if when - at < 100 then 100 else when - at;
    assert micros == micros / MICROS_PER_SECOND * MICROS_PER_SECOND + micros % MICROS_PER_SECOND;
  }

  // ---------- The ordered set ----------

  predicate Before(a: Entry, b: Entry) {
    a.when < b.when || (a.when == b.when && a.timer < b.timer)
  }

  predicate Sorted(list: seq<Entry>) {
    forall i, j :: 0 <= i < j < |list| ==> Before(list[i], list[j])
  }

  function Insert(list: seq<Entry>, e: Entry): seq<Entry> {
    if list == [] || Before(e, list[0]) then [e] + list
    else [list[0]] + Insert(list[1..], e)
  }

  lemma {:induction false} InsertSorted(list: seq<Entry>, e: Entry)
    requires Sorted(list) && e !in list
    ensures Sorted(Insert(list, e))
    ensures forall x :: x in Insert(list, e) <==> x in list || x == e
    ensures Insert(list, e)[0] == if list == [] || Before(e, list[0]) then e else list[0]
  {
    if list != [] && !Before(e, list[0]) {
      InsertSorted(list[1..], e);
      var rest := Insert(list[1..], e);
      forall j | 0 <= j < |rest| ensures Before(list[0], rest[j]) {
        assert rest[j] in rest;
        if rest[j] in list[1..] {
          var k :| 0 <= k < |list[1..]| && list[1..][k] == rest[j];
          assert list[k + 1] == rest[j];
        }
      }
      assert forall x :: x in list <==> x == list[0] || x in list[1..];
    }
  }

  /** How many entries, from the front, are due. */
  function Due(list: seq<Entry>, now: Time): (n: nat)
    ensures n <= |list|
  {
    if list == [] || now < list[0].when then 0 else 1 + Due(list[1..], now)
  }

  lemma {:induction false} DueExact(list: seq<Entry>, now: Time)
    requires Sorted(list)
    ensures forall i :: 0 <= i < |list| ==> (i < Due(list, now) <==> list[i].when <= now)
  {
    if list == [] {
    } else {
      DueExact(list[1..], now);
      forall i | 0 <= i < |list| ensures i < Due(list, now) <==> list[i].when <= now {
        if i > 0 {
          assert list[i] == list[1..][i - 1] && Before(list[0], list[i]);
        }
      }
    }
  }

  // ---------- The queue ----------

  /** One run of a timer's callback, in the `handleRead` that read the clock at `at`. */
  datatype Fire = Fire(serial: nat, at: Time)

  /** `runs` and `freed` are history. */
  datatype Queue = Queue(
    timers: map<Ref, Timer>,
    list: seq<Entry>,
    timerfd: Option<Arm>,
    nextSerial: nat,
    runs: seq<Fire>,
    freed: seq<nat>)

  /** A call of `addTimer` on the loop's thread: the allocator picks the address, and
      the descriptor is armed, if at all, at `at`. */
  datatype Add = Add(when: Time, interval: nat, repeat: bool, timer: Ref, at: Time)

  function AddTimer(q: Queue, a: Add): Outcome<Queue> {
    if a.timer in q.timers then Blocked
    else if Entry(a.when, a.timer) in q.list then Fault
    else
      var earliest := q.list == [] || a.when < q.list[0].when;
      Next(q.(timers := q.timers[a.timer := Timer(a.when, a.interval, a.repeat, q.nextSerial)],
              list := Insert(q.list, Entry(a.when, a.timer)),
              nextSerial := q.nextSerial + 1,
              timerfd := if earliest then Some(Armed(a.when, a.at)) else q.timerfd))
  }

  /** The timers a callback adds; an impossible address is skipped. */
  function AddAll(q: Queue, adds: seq<Add>): Outcome<Queue>
    decreases |adds|
  {
    if adds == [] then Next(q)
    else match AddTimer(q, adds[0])
      case Fault => Fault
      case Blocked => AddAll(q, adds[1..])
      case Next(q') => AddAll(q', adds[1..])
  }

  /** `iter->second->run()`: following a freed timer fails. */
  function RunOne(q: Queue, e: Entry, adds: seq<Add>, now: Time): Outcome<Queue> {
    if e.timer !in q.timers then Fault
    else AddAll(q.(runs := q.runs + [Fire(q.timers[e.timer].serial, now)]), adds)
  }

  /** `adds[i]` is what the i-th callback of the batch adds. */
  function RunFirst(q: Queue, batch: seq<Entry>, adds: seq<seq<Add>>, now: Time, n: nat): Outcome<Queue>
    requires n <= |batch|
  {
    if n == 0 then Next(q)
    else match RunFirst(q, batch, adds, now, n - 1)
      case Next(q') => RunOne(q', batch[n - 1], if n - 1 < |adds| then adds[n - 1] else [], now)
      case _ => Fault
  }

  /** A repeating timer goes back, to expire at `when`. */
  function PutBack(q: Queue, r: Ref, when: Time): Queue
    requires r in q.timers
  {
    q.(timers := q.timers[r := q.timers[r].(expiration := when)], list := Insert(q.list, Entry(when, r)))
  }

  /** A one-shot timer is freed. */
  function Release(q: Queue, r: Ref): Queue
    requires r in q.timers
  {
    q.(timers := q.timers - {r}, freed := q.freed + [q.timers[r].serial])
  }

  function ResetOne(q: Queue, e: Entry, now: Time): Outcome<Queue> {
    if e.timer !in q.timers then Fault
    else
      var t := q.timers[e.timer];
      if !t.repeat then Next(Release(q, e.timer))
      else if Entry(now + t.interval, e.timer) in q.list then Fault
      else Next(PutBack(q, e.timer, now + t.interval))
  }

  function ResetFirst(q: Queue, batch: seq<Entry>, now: Time, n: nat): Outcome<Queue>
    requires n <= |batch|
  {
    if n == 0 then Next(q)
    else match ResetFirst(q, batch, now, n - 1)
      case Next(q') => ResetOne(q', batch[n - 1], now)
      case _ => Fault
  }

  /** The end of `reset`: the descriptor is armed for the earliest entry if that is a
      valid time. */
  function Rearm(q: Queue, at: Time): Queue {
    if q.list != [] && q.list[0].when > 0 then q.(timerfd := Some(Armed(q.list[0].when, at))) else q
  }

  /** Reading the descriptor: an expired timer is consumed. */
  function ReadTimerfd(q: Queue, now: Time): Queue {
    if q.timerfd.Some? && q.timerfd.value.deadline <= now then q.(timerfd := None) else q
  }

  /** What is due, from the front of the list, in expiration order. */
  function Batch(q: Queue, now: Time): seq<Entry> {
    q.list[..Due(q.list, now)]
  }

  /** The queue when the descriptor has been read and what is due is off the list. */
  function WithoutBatch(q: Queue, now: Time): Queue {
    ReadTimerfd(q, now).(list := q.list[Due(q.list, now)..])
  }

  /** `handleRead` when the clock reads `now`, re-arming at `at`. */
  function HandleDue(q: Queue, now: Time, adds: seq<seq<Add>>, at: Time): Outcome<Queue> {
    var n, batch := Due(q.list, now), Batch(q, now);
    match RunFirst(WithoutBatch(q, now), batch, adds, now, n)
    case Next(q1) =>
      (match ResetFirst(q1, batch, now, n)
       case Next(q2) => Next(Rearm(q2, at))
       case _ => Fault)
    case _ => Fault
  }

  function Init(): Queue {
    Queue(map[], [], None, 0, [], [])
  }

  // ---------- The invariant ----------

  /** The list and the timers agree; `owed` are the entries taken off the list whose timers
      are still to be reset. */
  ghost predicate EntriesOk(list: seq<Entry>, timers: map<Ref, Timer>, owed: set<Entry>) {
    && Sorted(list)
    && (forall e :: e in list || e in owed ==> e.timer in timers && timers[e.timer].expiration == e.when)
    && (forall e :: e in owed ==> e !in list)
    && (forall r :: r in timers ==> Entry(timers[r].expiration, r) in list || Entry(timers[r].expiration, r) in owed)
  }

  /** Serial numbers are handed out once. */
  ghost predicate SerialsOk(timers: map<Ref, Timer>, next: nat, runs: seq<Fire>, freed: seq<nat>) {
    && (forall r :: r in timers ==> timers[r].serial < next)
    && (forall r, u :: r in timers && u in timers && timers[r].serial == timers[u].serial ==> r == u)
    && (forall i :: 0 <= i < |runs| ==> runs[i].serial < next)
    && (forall i :: 0 <= i < |freed| ==> freed[i] < next)
  }

  ghost predicate InvOwing(q: Queue, owed: set<Entry>) {
    EntriesOk(q.list, q.timers, owed) && SerialsOk(q.timers, q.nextSerial, q.runs, q.freed)
  }

  ghost predicate Inv(q: Queue) {
    InvOwing(q, {})
  }

  lemma EntryAdded(list: seq<Entry>, timers: map<Ref, Timer>, owed: set<Entry>, r: Ref, t: Timer)
    requires EntriesOk(list, timers, owed) && r !in timers
    ensures Entry(t.expiration, r) !in list
    ensures EntriesOk(Insert(list, Entry(t.expiration, r)), timers[r := t], owed)
  {
    InsertSorted(list, Entry(t.expiration, r));
  }

  lemma AddKeeps(q: Queue, a: Add, owed: set<Entry>)
    requires InvOwing(q, owed)
    ensures !AddTimer(q, a).Fault?
    ensures AddTimer(q, a).Next? ==> InvOwing(AddTimer(q, a).state, owed)
  {
    if a.timer !in q.timers {
      EntryAdded(q.list, q.timers, owed, a.timer, Timer(a.when, a.interval, a.repeat, q.nextSerial));
    }
  }

  lemma EntryPutForward(list: seq<Entry>, timers: map<Ref, Timer>, owed: set<Entry>, e: Entry, when: Time)
    requires EntriesOk(list, timers, owed) && e in owed
    ensures Entry(when, e.timer) !in list
    ensures var timers' := timers[e.timer := timers[e.timer].(expiration := when)];
      EntriesOk(Insert(list, Entry(when, e.timer)), timers', owed - {e})
  {
    InsertSorted(list, Entry(when, e.timer));
  }

  lemma EntryReleased(list: seq<Entry>, timers: map<Ref, Timer>, owed: set<Entry>, e: Entry)
    requires EntriesOk(list, timers, owed) && e in owed
    ensures EntriesOk(list, timers - {e.timer}, owed - {e})
  {
  }

  lemma SerialsPutForward(timers: map<Ref, Timer>, next: nat, runs: seq<Fire>, freed: seq<nat>, r: Ref, when: Time)
    requires SerialsOk(timers, next, runs, freed) && r in timers
    ensures SerialsOk(timers[r := timers[r].(expiration := when)], next, runs, freed)
  {
  }

  lemma SerialsReleased(timers: map<Ref, Timer>, next: nat, runs: seq<Fire>, freed: seq<nat>, r: Ref)
    requires SerialsOk(timers, next, runs, freed) && r in timers
    ensures SerialsOk(timers - {r}, next, runs, freed + [timers[r].serial])
  {
  }

  lemma PutBackKeeps(q: Queue, e: Entry, when: Time, owed: set<Entry>)
    requires InvOwing(q, owed) && e in owed && e.timer in q.timers
    ensures Entry(when, e.timer) !in q.list
    ensures InvOwing(PutBack(q, e.timer, when), owed - {e})
  {
    EntryPutForward(q.list, q.timers, owed, e, when);
    SerialsPutForward(q.timers, q.nextSerial, q.runs, q.freed, e.timer, when);
  }

  lemma ReleaseKeeps(q: Queue, e: Entry, owed: set<Entry>)
    requires InvOwing(q, owed) && e in owed && e.timer in q.timers
    ensures InvOwing(Release(q, e.timer), owed - {e})
  {
    EntryReleased(q.list, q.timers, owed, e);
    SerialsReleased(q.timers, q.nextSerial, q.runs, q.freed, e.timer);
  }

  lemma ResetKeeps(q: Queue, e: Entry, now: Time, owed: set<Entry>)
    requires InvOwing(q, owed) && e in owed
    ensures ResetOne(q, e, now).Next? && InvOwing(ResetOne(q, e, now).state, owed - {e})
  {
    var t := q.timers[e.timer];
    if t.repeat {
      PutBackKeeps(q, e, now + t.interval, owed);
      assert ResetOne(q, e, now) == Next(PutBack(q, e.timer, now + t.interval));
    } else {
      ReleaseKeeps(q, e, owed);
      assert ResetOne(q, e, now) == Next(Release(q, e.timer));
    }
  }

  /** The first `n` entries of a batch. */
  function DoneOf(batch: seq<Entry>, n: nat): set<Entry>
    requires n <= |batch|
  {
    set i | 0 <= i < n :: batch[i]
  }

  lemma DoneStep(batch: seq<Entry>, n: nat)
    requires Sorted(batch) && n < |batch|
    ensures batch[n] !in DoneOf(batch, n) && DoneOf(batch, n + 1) == DoneOf(batch, n) + {batch[n]}
  {
    forall i | 0 <= i < n ensures batch[i] != batch[n] {
      assert Before(batch[i], batch[n]);
    }
  }

  lemma DoneOfAll(batch: seq<Entry>)
    ensures forall e :: e in DoneOf(batch, |batch|) <==> e in batch
  {
  }

  lemma SplitMembers(list: seq<Entry>, n: nat)
    requires n <= |list|
    ensures forall e :: e in list <==> e in list[..n] || e in list[n..]
  {
    assert list == list[..n] + list[n..];
  }

  lemma SplitSorted(list: seq<Entry>, n: nat)
    requires Sorted(list) && n <= |list|
    ensures Sorted(list[..n]) && Sorted(list[n..])
    ensures forall e :: e in list[..n] ==> e !in list[n..]
  {
    forall i, k | 0 <= i < n && 0 <= k < |list| - n
      ensures list[..n][i] != list[n..][k]
    {
      assert Before(list[i], list[n + k]);
    }
  }

  /** What is cut off the front of the list is owed. */
  lemma TakeEntries(list: seq<Entry>, timers: map<Ref, Timer>, n: nat)
    requires EntriesOk(list, timers, {}) && n <= |list|
    ensures EntriesOk(list[n..], timers, DoneOf(list[..n], n)) && Sorted(list[..n])
  {
    SplitMembers(list, n);
    SplitSorted(list, n);
    DoneOfAll(list[..n]);
    assert |list[..n]| == n;
  }

  lemma TakeKeeps(q: Queue, n: nat)
    requires Inv(q) && n <= |q.list|
    ensures InvOwing(q.(list := q.list[n..]), DoneOf(q.list[..n], n))
    ensures Sorted(q.list[..n])
  {
    TakeEntries(q.list, q.timers, n);
  }

  // ---------- What one handleRead does ----------

  /** Adding timers leaves every earlier timer, run and release as it was. */
  predicate Grown(q: Queue, q': Queue) {
    && (forall r :: r in q.timers ==> r in q'.timers && q'.timers[r] == q.timers[r])
    && (forall r :: r in q'.timers && r !in q.timers ==> q'.timers[r].serial >= q.nextSerial)
    && q.nextSerial <= q'.nextSerial
    && q'.freed == q.freed
  }

  lemma {:induction false} AddAllKeeps(q: Queue, adds: seq<Add>, owed: set<Entry>)
    requires InvOwing(q, owed)
    ensures AddAll(q, adds).Next? && InvOwing(AddAll(q, adds).state, owed)
    decreases |adds|
  {
    if adds == [] {
    } else {
      AddKeeps(q, adds[0], owed);
      var next := AddTimer(q, adds[0]);
      AddAllKeeps(if next.Next? then next.state else q, adds[1..], owed);
    }
  }

  lemma {:induction false} AddAllGrows(q: Queue, adds: seq<Add>)
    requires AddAll(q, adds).Next?
    ensures Grown(q, AddAll(q, adds).state) && AddAll(q, adds).state.runs == q.runs
    decreases |adds|
  {
    if adds == [] {
    } else {
      var next := AddTimer(q, adds[0]);
      AddAllGrows(if next.Next? then next.state else q, adds[1..]);
    }
  }

  lemma GrownTwice(q: Queue, q1: Queue, q2: Queue)
    requires Grown(q, q1) && Grown(q1, q2)
    ensures Grown(q, q2)
  {
  }

  lemma RunKeepsSerials(q: Queue, e: Entry, now: Time, owed: set<Entry>)
    requires InvOwing(q, owed) && e.timer in q.timers
    ensures InvOwing(q.(runs := q.runs + [Fire(q.timers[e.timer].serial, now)]), owed)
  {
  }

  lemma RunOneKeeps(q: Queue, e: Entry, adds: seq<Add>, now: Time, owed: set<Entry>)
    requires InvOwing(q, owed) && e in owed
    ensures RunOne(q, e, adds, now).Next? && InvOwing(RunOne(q, e, adds, now).state, owed)
  {
    assert e.timer in q.timers;
    RunKeepsSerials(q, e, now, owed);
    AddAllKeeps(q.(runs := q.runs + [Fire(q.timers[e.timer].serial, now)]), adds, owed);
  }

  lemma {:induction false} RunFirstKeeps(q: Queue, batch: seq<Entry>, adds: seq<seq<Add>>, now: Time, n: nat,
        owed: set<Entry>)
    requires InvOwing(q, owed) && n <= |batch| && forall i :: 0 <= i < |batch| ==> batch[i] in owed
    ensures RunFirst(q, batch, adds, now, n).Next? && InvOwing(RunFirst(q, batch, adds, now, n).state, owed)
  {
    if n == 0 {
    } else {
      RunFirstKeeps(q, batch, adds, now, n - 1, owed);
      RunOneKeeps(RunFirst(q, batch, adds, now, n - 1).state, batch[n - 1],
                  if n - 1 < |adds| then adds[n - 1] else [], now, owed);
    }
  }

  /** The runs of the first `n` timers of a batch, in its order. */
  function Fires(timers: map<Ref, Timer>, batch: seq<Entry>, now: Time, n: nat): seq<Fire>
    requires n <= |batch| && forall e :: e in batch ==> e.timer in timers
  {
    if n == 0 then [] else Fires(timers, batch, now, n - 1) + [Fire(timers[batch[n - 1].timer].serial, now)]
  }

  lemma {:induction false} RunFirstEffect(q: Queue, batch: seq<Entry>, adds: seq<seq<Add>>, now: Time, n: nat)
    requires n <= |batch| && RunFirst(q, batch, adds, now, n).Next?
    requires forall e :: e in batch ==> e.timer in q.timers
    ensures var q' := RunFirst(q, batch, adds, now, n).state;
      Grown(q, q') && q'.runs == q.runs + Fires(q.timers, batch, now, n)
  {
    if n == 0 {
    } else {
      RunFirstEffect(q, batch, adds, now, n - 1);
      var q1 := RunFirst(q, batch, adds, now, n - 1).state;
      var e := batch[n - 1];
      assert e in batch;
      var q2 := q1.(runs := q1.runs + [Fire(q1.timers[e.timer].serial, now)]);
      AddAllGrows(q2, if n - 1 < |adds| then adds[n - 1] else []);
      GrownTwice(q, q2, RunFirst(q, batch, adds, now, n).state);
    }
  }

  /** The one-shot timers among the first `n` of a batch, released in its order. */
  function Releases(timers: map<Ref, Timer>, batch: seq<Entry>, n: nat): seq<nat>
    requires n <= |batch| && forall e :: e in batch ==> e.timer in timers
  {
    if n == 0 then []
    else
      var t := timers[batch[n - 1].timer];
      Releases(timers, batch, n - 1) + Released(t)
  }

  /** What becomes of each timer when the first `n` of a batch have been reset: one of
      them is released or put forward, any other is untouched. */
  ghost predicate ResetTimers(timers: map<Ref, Timer>, timers': map<Ref, Timer>, done: set<Entry>, now: Time) {
    && (forall r :: r in timers' ==> r in timers)
    && (forall r :: r in timers ==>
          if Entry(timers[r].expiration, r) !in done then r in timers' && timers'[r] == timers[r]
          else if timers[r].repeat then
            r in timers' && timers'[r] == timers[r].(expiration := now + timers[r].interval)
          else r !in timers')
  }

  lemma ResetOneTimers(timers: map<Ref, Timer>, q: Queue, e: Entry, done: set<Entry>, now: Time)
    requires ResetTimers(timers, q.timers, done, now) && e !in done && ResetOne(q, e, now).Next?
    requires e.timer in timers && timers[e.timer].expiration == e.when
    ensures var q' := ResetOne(q, e, now).state;
      && ResetTimers(timers, q'.timers, done + {e}, now)
      && q'.runs == q.runs && q'.nextSerial == q.nextSerial
      && q'.freed == q.freed + if timers[e.timer].repeat then [] else [timers[e.timer].serial]
  {
  }

  lemma {:induction false} ResetFirstKeeps(q: Queue, batch: seq<Entry>, now: Time, n: nat, owed: set<Entry>)
    requires InvOwing(q, owed) && Sorted(batch) && n <= |batch| && DoneOf(batch, n) <= owed
    ensures ResetFirst(q, batch, now, n).Next?
    ensures InvOwing(ResetFirst(q, batch, now, n).state, owed - DoneOf(batch, n))
  {
    if n == 0 {
      assert owed - DoneOf(batch, 0) == owed;
    } else {
      DoneStep(batch, n - 1);
      ResetFirstKeeps(q, batch, now, n - 1, owed);
      ResetKeeps(ResetFirst(q, batch, now, n - 1).state, batch[n - 1], now, owed - DoneOf(batch, n - 1));
      assert owed - DoneOf(batch, n) == owed - DoneOf(batch, n - 1) - {batch[n - 1]};
    }
  }

  lemma {:induction false} ResetFirstEffect(q: Queue, batch: seq<Entry>, now: Time, n: nat)
    requires n <= |batch| && Sorted(batch) && ResetFirst(q, batch, now, n).Next?
    requires forall e :: e in batch ==> e.timer in q.timers && q.timers[e.timer].expiration == e.when
    ensures var q' := ResetFirst(q, batch, now, n).state;
      && ResetTimers(q.timers, q'.timers, DoneOf(batch, n), now)
      && q'.runs == q.runs && q'.nextSerial == q.nextSerial
      && q'.freed == q.freed + Releases(q.timers, batch, n)
  {
    if n == 0 {
    } else {
      ResetFirstEffect(q, batch, now, n - 1);
      DoneStep(batch, n - 1);
      assert batch[n - 1] in batch;
      ResetOneTimers(q.timers, ResetFirst(q, batch, now, n - 1).state, batch[n - 1], DoneOf(batch, n - 1), now);
    }
  }

  /** An entry is in the batch exactly when its timer is due. */
  lemma BatchExact(q: Queue, now: Time)
    requires Inv(q)
    ensures Sorted(Batch(q, now))
    ensures forall r :: r in q.timers ==>
      (Entry(q.timers[r].expiration, r) in Batch(q, now) <==> q.timers[r].expiration <= now)
    ensures forall e :: e in Batch(q, now) ==> e.timer in q.timers && q.timers[e.timer].expiration == e.when <= now
  {
    DueExact(q.list, now);
    var n := Due(q.list, now);
    forall r | r in q.timers
      ensures Entry(q.timers[r].expiration, r) in Batch(q, now) <==> q.timers[r].expiration <= now
    {
      var e := Entry(q.timers[r].expiration, r);
      var i :| 0 <= i < |q.list| && q.list[i] == e;
      if i < n {
        assert q.list[..n][i] == e;
      }
    }
  }

  /** What one `handleRead` does to each timer: one that is not due is untouched, a due
      one-shot timer is gone, a due repeating one is put forward by its interval from
      `now`, and any other timer now present is a new one. */
  ghost predicate Handled(q: Queue, q': Queue, now: Time) {
    && (forall r :: r in q.timers ==>
          var t := q.timers[r];
          if now < t.expiration then r in q'.timers && q'.timers[r] == t
          else if t.repeat then r in q'.timers && q'.timers[r] == t.(expiration := now + t.interval)
          else r !in q'.timers)
    && (forall r :: r in q'.timers && r !in q.timers ==> q'.timers[r].serial >= q.nextSerial)
    && q.nextSerial <= q'.nextSerial
  }

  /** When the batch is off the list its entries are owed. */
  lemma BatchOwed(q: Queue, now: Time)
    requires Inv(q)
    ensures var batch := Batch(q, now);
      && InvOwing(WithoutBatch(q, now), DoneOf(batch, |batch|)) && Sorted(batch)
      && forall i :: 0 <= i < |batch| ==> batch[i] in DoneOf(batch, |batch|)
  {
    TakeKeeps(q, Due(q.list, now));
  }

  lemma HandleReadSplit(q: Queue, now: Time, adds: seq<seq<Add>>, at: Time) returns (q1: Queue, q2: Queue)
    requires Inv(q)
    ensures var n, batch := Due(q.list, now), Batch(q, now);
      && RunFirst(WithoutBatch(q, now), batch, adds, now, n) == Next(q1)
      && ResetFirst(q1, batch, now, n) == Next(q2)
      && HandleDue(q, now, adds, at) == Next(Rearm(q2, at))
      && Inv(q2)
  {
    var n, batch := Due(q.list, now), Batch(q, now);
    var q0, owed := WithoutBatch(q, now), DoneOf(batch, n);
    BatchOwed(q, now);
    RunFirstKeeps(q0, batch, adds, now, n, owed);
    q1 := RunFirst(q0, batch, adds, now, n).state;
    ResetFirstKeeps(q1, batch, now, n, owed);
    q2 := ResetFirst(q1, batch, now, n).state;
    assert owed - owed == {};
  }

  lemma HandleReadKeeps(q: Queue, now: Time, adds: seq<seq<Add>>, at: Time)
    requires Inv(q)
    ensures HandleDue(q, now, adds, at).Next? && Inv(HandleDue(q, now, adds, at).state)
  {
    var q1, q2 := HandleReadSplit(q, now, adds, at);
  }

  /** One `handleRead` runs exactly what is due, each timer once, in expiration order,
      and then releases the one-shot timers among them. */
  lemma HandleReadEffect(q: Queue, now: Time, adds: seq<seq<Add>>, at: Time)
    requires Inv(q)
    ensures HandleDue(q, now, adds, at).Next?
    ensures Handled(q, HandleDue(q, now, adds, at).state, now)
    ensures forall e :: e in Batch(q, now) ==> e.timer in q.timers
    ensures var q', batch := HandleDue(q, now, adds, at).state, Batch(q, now);
      && q'.runs == q.runs + Fires(q.timers, batch, now, |batch|)
      && q'.freed == q.freed + Releases(q.timers, batch, |batch|)
  {
    var q1, q2 := HandleReadSplit(q, now, adds, at);
    var n, batch := Due(q.list, now), Batch(q, now);
    BatchExact(q, now);
    RunFirstEffect(WithoutBatch(q, now), batch, adds, now, n);
    ResetFirstEffect(q1, batch, now, n);
    SameReleases(q.timers, q1.timers, batch, n);
    forall r | r in q.timers
      ensures Entry(q.timers[r].expiration, r) in DoneOf(batch, n) <==> q.timers[r].expiration <= now
    {
      assert Entry(q.timers[r].expiration, r) in batch <==> Entry(q.timers[r].expiration, r) in DoneOf(batch, n);
    }
    HandledParts(q, q1, q2, batch, now);
  }

  lemma HandledParts(q: Queue, q1: Queue, q2: Queue, batch: seq<Entry>, now: Time)
    requires Grown(q.(runs := q1.runs), q1)
    requires ResetTimers(q1.timers, q2.timers, DoneOf(batch, |batch|), now) && q2.nextSerial == q1.nextSerial
    requires forall e :: e in DoneOf(batch, |batch|) ==> e.timer in q.timers
    requires forall r :: r in q.timers ==>
      (Entry(q.timers[r].expiration, r) in DoneOf(batch, |batch|) <==> q.timers[r].expiration <= now)
    ensures Handled(q, q2, now)
  {
  }

  lemma {:induction false} SameReleases(timers: map<Ref, Timer>, timers': map<Ref, Timer>, batch: seq<Entry>, n: nat)
    requires n <= |batch|
    requires forall e :: e in batch ==>
      e.timer in timers && e.timer in timers' && timers'[e.timer] == timers[e.timer]
    ensures Releases(timers', batch, n) == Releases(timers, batch, n)
  {
    if n == 0 {
    } else {
      SameReleases(timers, timers', batch, n - 1);
      assert batch[n - 1] in batch;
    }
  }

  // ---------- A timer over whole runs ----------

  /** The loop's thread adds a timer, or the descriptor is readable and is handled. */
  datatype Op = Adds(a: Add) | Handles(now: Time, adds: seq<seq<Add>>, at: Time)

  function Apply(q: Queue, op: Op): Outcome<Queue> {
    match op
    case Adds(a) => AddTimer(q, a)
    case Handles(now, adds, at) => HandleDue(q, now, adds, at)
  }

  function Run(q: Queue, ops: seq<Op>): Outcome<Queue>
    decreases |ops|
  {
    if ops == [] then Next(q)
    else match Apply(q, ops[0])
      case Fault => Fault
      case Blocked => Run(q, ops[1..])
      case Next(q') => Run(q', ops[1..])
  }

  lemma ApplyKeeps(q: Queue, op: Op)
    requires Inv(q)
    ensures !Apply(q, op).Fault?
    ensures Apply(q, op).Next? ==> Inv(Apply(q, op).state)
  {
    match op
    case Adds(a) => AddKeeps(q, a, {});
    case Handles(now, adds, at) => HandleReadKeeps(q, now, adds, at);
  }

  /** No assertion fails and no freed timer is followed, in any run. */
  lemma {:induction false} RunKeeps(q: Queue, ops: seq<Op>)
    requires Inv(q)
    ensures Run(q, ops).Next? && Inv(Run(q, ops).state)
    decreases |ops|
  {
    if ops == [] {
    } else {
      ApplyKeeps(q, ops[0]);
      var next := Apply(q, ops[0]);
      RunKeeps(if next.Next? then next.state else q, ops[1..]);
    }
  }

  /** When the timer with this serial number ran. */
  function Times(runs: seq<Fire>, serial: nat): seq<Time> {
    if runs == [] then []
    else
      var last := runs[|runs| - 1];
      Times(runs[..|runs| - 1], serial) + if last.serial == serial then [last.at] else []
  }

  /** How often it was released. */
  function Count(freed: seq<nat>, serial: nat): nat {
    if freed == [] then 0
    else Count(freed[..|freed| - 1], serial) + if freed[|freed| - 1] == serial then 1 else 0
  }

  function Freed(q: Queue, serial: nat): nat {
    Count(q.freed, serial)
  }

  ghost predicate Dead(q: Queue, serial: nat) {
    serial < q.nextSerial && forall r :: r in q.timers ==> q.timers[r].serial != serial
  }

  lemma Regrouped(xs: seq<Fire>, ys: seq<Fire>, fire: Fire)
    ensures xs + (ys + [fire]) == (xs + ys) + [fire]
  {
  }

  lemma TimesPush(runs: seq<Fire>, fire: Fire, serial: nat)
    ensures Times(runs + [fire], serial) == Times(runs, serial) + if fire.serial == serial then [fire.at] else []
  {
    assert (runs + [fire])[..|runs|] == runs;
  }

  /** A batch is sorted, its entries are those of live timers, and serial numbers tell
      timers apart. */
  ghost predicate BatchOk(timers: map<Ref, Timer>, batch: seq<Entry>) {
    && Sorted(batch)
    && (forall i :: 0 <= i < |batch| ==> batch[i].timer in timers && timers[batch[i].timer].expiration == batch[i].when)
    && (forall r, u :: r in timers && u in timers && timers[r].serial == timers[u].serial ==> r == u)
  }

  lemma BatchDistinct(timers: map<Ref, Timer>, batch: seq<Entry>, i: nat, j: nat)
    requires BatchOk(timers, batch) && i < j < |batch|
    ensures timers[batch[i].timer].serial != timers[batch[j].timer].serial
  {
    assert Before(batch[i], batch[j]);
  }

  /** The first `n` of a batch hold a timer with this serial number. */
  predicate Holds(timers: map<Ref, Timer>, batch: seq<Entry>, n: nat, serial: nat)
    requires n <= |batch| && forall i :: 0 <= i < |batch| ==> batch[i].timer in timers
  {
    exists i :: 0 <= i < n && timers[batch[i].timer].serial == serial
  }

  /** And it is a one-shot timer. */
  predicate HoldsOneShot(timers: map<Ref, Timer>, batch: seq<Entry>, n: nat, serial: nat)
    requires n <= |batch| && forall i :: 0 <= i < |batch| ==> batch[i].timer in timers
  {
    exists i :: 0 <= i < n && timers[batch[i].timer].serial == serial && !timers[batch[i].timer].repeat
  }

  /** The last timer of a stretch is in it once. */
  lemma HoldsLast(timers: map<Ref, Timer>, batch: seq<Entry>, n: nat, serial: nat)
    requires BatchOk(timers, batch) && 0 < n <= |batch|
    ensures var t := timers[batch[n - 1].timer];
      if t.serial == serial then
        && Holds(timers, batch, n, serial) && !Holds(timers, batch, n - 1, serial)
        && HoldsOneShot(timers, batch, n, serial) == !t.repeat && !HoldsOneShot(timers, batch, n - 1, serial)
      else
        && Holds(timers, batch, n, serial) == Holds(timers, batch, n - 1, serial)
        && HoldsOneShot(timers, batch, n, serial) == HoldsOneShot(timers, batch, n - 1, serial)
  {
    forall i | 0 <= i < n - 1 ensures timers[batch[i].timer].serial != timers[batch[n - 1].timer].serial {
      BatchDistinct(timers, batch, i, n - 1);
    }
  }

  /** A batch runs a timer once if it contains it, and not otherwise. */
  lemma {:induction false} FiresTimes(timers: map<Ref, Timer>, batch: seq<Entry>, now: Time, n: nat, runs: seq<Fire>,
        serial: nat)
    requires BatchOk(timers, batch) && n <= |batch|
    ensures forall e :: e in batch ==> e.timer in timers
    ensures Times(runs + Fires(timers, batch, now, n), serial) ==
      Times(runs, serial) + if Holds(timers, batch, n, serial) then [now] else []
  {
    if n == 0 {
      assert runs + [] == runs;
    } else {
      FiresTimes(timers, batch, now, n - 1, runs, serial);
      HoldsLast(timers, batch, n, serial);
      var fire := Fire(timers[batch[n - 1].timer].serial, now);
      var prior := runs + Fires(timers, batch, now, n - 1);
      Regrouped(runs, Fires(timers, batch, now, n - 1), fire);
      TimesPush(prior, fire, serial);
    }
  }

  lemma CountPush(freed: seq<nat>, x: nat, serial: nat)
    ensures Count(freed + [x], serial) == Count(freed, serial) + if x == serial then 1 else 0
  {
    assert (freed + [x])[..|freed|] == freed;
  }

  /** What one timer of a batch releases, and what that adds to a count. */
  function Released(t: Timer): seq<nat> {
    if t.repeat then [] else [t.serial]
  }

  lemma CountReleased(freed: seq<nat>, releases: seq<nat>, t: Timer, serial: nat)
    ensures Count(freed + (releases + Released(t)), serial) ==
      Count(freed + releases, serial) + if !t.repeat && t.serial == serial then 1 else 0
  {
    if t.repeat {
      assert releases + Released(t) == releases;
    } else {
      assert freed + (releases + Released(t)) == (freed + releases) + [t.serial];
      CountPush(freed + releases, t.serial, serial);
    }
  }

  lemma {:induction false} ReleasesCount(timers: map<Ref, Timer>, batch: seq<Entry>, n: nat, freed: seq<nat>,
        serial: nat)
    requires BatchOk(timers, batch) && n <= |batch|
    ensures forall e :: e in batch ==> e.timer in timers
    ensures Count(freed + Releases(timers, batch, n), serial) ==
      Count(freed, serial) + if HoldsOneShot(timers, batch, n, serial) then 1 else 0
  {
    if n == 0 {
      assert freed + [] == freed;
    } else {
      ReleasesCount(timers, batch, n - 1, freed, serial);
      HoldsLast(timers, batch, n, serial);
      CountReleased(freed, Releases(timers, batch, n - 1), timers[batch[n - 1].timer], serial);
    }
  }

  /** A live timer is in the batch, under its own serial number only, when it is due; and
      the batch holds live timers only. */
  lemma InBatchIff(q: Queue, now: Time, r: Ref)
    requires Inv(q) && r in q.timers
    ensures BatchOk(q.timers, Batch(q, now))
    ensures var batch, t := Batch(q, now), q.timers[r];
      && (Holds(q.timers, batch, |batch|, t.serial) <==> t.expiration <= now)
      && (HoldsOneShot(q.timers, batch, |batch|, t.serial) <==> t.expiration <= now && !t.repeat)
  {
    BatchIsOk(q, now);
    BatchExact(q, now);
    var batch, t := Batch(q, now), q.timers[r];
    if t.expiration <= now {
      var i :| 0 <= i < |batch| && batch[i] == Entry(t.expiration, r);
    }
  }

  lemma BatchIsOk(q: Queue, now: Time)
    requires Inv(q)
    ensures BatchOk(q.timers, Batch(q, now))
    ensures forall serial: nat :: Holds(q.timers, Batch(q, now), |Batch(q, now)|, serial) ==> serial < q.nextSerial
  {
    BatchExact(q, now);
    assert forall i :: 0 <= i < |Batch(q, now)| ==> Batch(q, now)[i] in Batch(q, now);
  }

  /** One `handleRead` seen from one live timer. */
  lemma HandleReadTimer(q: Queue, now: Time, adds: seq<seq<Add>>, at: Time, r: Ref)
    requires Inv(q) && r in q.timers
    ensures HandleDue(q, now, adds, at).Next?
    ensures var q', t := HandleDue(q, now, adds, at).state, q.timers[r];
      var due := t.expiration <= now;
      && Times(q'.runs, t.serial) == Times(q.runs, t.serial) + (if due then [now] else [])
      && Freed(q', t.serial) == Freed(q, t.serial) + (if due && !t.repeat then 1 else 0)
      && (if due && !t.repeat then Dead(q', t.serial)
          else r in q'.timers && q'.timers[r] == if due then t.(expiration := now + t.interval) else t)
  {
    HandleReadEffect(q, now, adds, at);
    InBatchIff(q, now, r);
    var batch, t := Batch(q, now), q.timers[r];
    FiresTimes(q.timers, batch, now, |batch|, q.runs, t.serial);
    ReleasesCount(q.timers, batch, |batch|, q.freed, t.serial);
  }

  /** And from one that is gone. */
  lemma HandleReadDead(q: Queue, now: Time, adds: seq<seq<Add>>, at: Time, serial: nat)
    requires Inv(q) && Dead(q, serial)
    ensures HandleDue(q, now, adds, at).Next?
    ensures var q' := HandleDue(q, now, adds, at).state;
      Dead(q', serial) && Times(q'.runs, serial) == Times(q.runs, serial) && Freed(q', serial) == Freed(q, serial)
  {
    HandleReadEffect(q, now, adds, at);
    BatchIsOk(q, now);
    var batch := Batch(q, now);
    FiresTimes(q.timers, batch, now, |batch|, q.runs, serial);
    ReleasesCount(q.timers, batch, |batch|, q.freed, serial);
  }

  lemma {:induction false} DeadForever(q: Queue, ops: seq<Op>, serial: nat)
    requires Inv(q) && Dead(q, serial)
    ensures Run(q, ops).Next?
    ensures var q' := Run(q, ops).state;
      Times(q'.runs, serial) == Times(q.runs, serial) && Freed(q', serial) == Freed(q, serial)
    decreases |ops|
  {
    if ops == [] {
    } else {
      ApplyKeeps(q, ops[0]);
      if ops[0].Handles? {
        HandleReadDead(q, ops[0].now, ops[0].adds, ops[0].at, serial);
      }
      var next := Apply(q, ops[0]);
      DeadForever(if next.Next? then next.state else q, ops[1..], serial);
    }
  }

  /** The clock reading of the first `handleRead` at or past a time. */
  function FirstAt(ops: seq<Op>, when: Time): Option<Time> {
    if ops == [] then None
    else if ops[0].Handles? && when <= ops[0].now then Some(ops[0].now)
    else FirstAt(ops[1..], when)
  }

  /** One operation seen from a one-shot timer: a handler at or past its expiration runs and
      frees it, and anything else leaves it alone. */
  lemma OneShotStep(q: Queue, op: Op, r: Ref)
    requires Inv(q) && r in q.timers && !q.timers[r].repeat && Apply(q, op).Next?
    ensures var q', t := Apply(q, op).state, q.timers[r];
      if op.Handles? && t.expiration <= op.now then
        && Times(q'.runs, t.serial) == Times(q.runs, t.serial) + [op.now]
        && Freed(q', t.serial) == Freed(q, t.serial) + 1
        && Dead(q', t.serial)
      else
        && Times(q'.runs, t.serial) == Times(q.runs, t.serial)
        && Freed(q', t.serial) == Freed(q, t.serial)
        && r in q'.timers && q'.timers[r] == t
  {
    if op.Handles? {
      HandleReadTimer(q, op.now, op.adds, op.at, r);
    }
  }

  /** Over every run, callbacks adding timers included: a one-shot timer in the queue
      runs exactly in the first `handleRead` with the clock at or past its expiration,
      never again, and is released exactly then, once. */
  lemma {:induction false} OneShotRunsOnce(q: Queue, ops: seq<Op>, r: Ref)
    requires Inv(q) && r in q.timers && !q.timers[r].repeat
    ensures Run(q, ops).Next?
    ensures var q', t := Run(q, ops).state, q.timers[r];
      var first := FirstAt(ops, t.expiration);
      && Times(q'.runs, t.serial) == Times(q.runs, t.serial) + (if first.Some? then [first.value] else [])
      && Freed(q', t.serial) == Freed(q, t.serial) + (if first.Some? then 1 else 0)
    decreases |ops|
  {
    if ops == [] {
    } else {
      ApplyKeeps(q, ops[0]);
      var next := Apply(q, ops[0]);
      if next.Next? {
        OneShotStep(q, ops[0], r);
      }
      if ops[0].Handles? && q.timers[r].expiration <= ops[0].now {
        HandleReadKeeps(q, ops[0].now, ops[0].adds, ops[0].at);
        DeadForever(next.state, ops[1..], q.timers[r].serial);
      } else {
        OneShotRunsOnce(if next.Next? then next.state else q, ops[1..], r);
      }
    }
  }

  /** Successive runs at least this far apart, the next not before `next`. */
  predicate Spaced(times: seq<Time>, interval: nat, next: Time) {
    && (forall i :: 0 < i < |times| ==> times[i - 1] + interval <= times[i])
    && (times != [] ==> times[|times| - 1] + interval <= next)
  }

  lemma SpacedPush(times: seq<Time>, interval: nat, next: Time, now: Time)
    requires Spaced(times, interval, next) && next <= now
    ensures Spaced(times + [now], interval, now + interval)
  {
  }

  /** A repeating timer is still there, its runs apart and its next one far enough on. */
  ghost predicate Repeating(q: Queue, r: Ref, t: Timer, released: nat) {
    && r in q.timers && q.timers[r].(expiration := t.expiration) == t
    && Spaced(Times(q.runs, t.serial), t.interval, q.timers[r].expiration)
    && Freed(q, t.serial) == released
  }

  lemma RepeatStep(q: Queue, op: Op, r: Ref, t: Timer, released: nat)
    requires Inv(q) && Repeating(q, r, t, released) && t.repeat && Apply(q, op).Next?
    ensures Repeating(Apply(q, op).state, r, t, released)
  {
    if op.Handles? {
      HandleReadTimer(q, op.now, op.adds, op.at, r);
      if q.timers[r].expiration <= op.now {
        SpacedPush(Times(q.runs, t.serial), t.interval, q.timers[r].expiration, op.now);
      }
    }
  }

  /** Over every run, the successive runs of a repeating timer are at least its interval
      apart, and it stays in the queue, never released. */
  lemma {:induction false} RepeatsAreSpaced(q: Queue, ops: seq<Op>, r: Ref, t: Timer, released: nat)
    requires Inv(q) && Repeating(q, r, t, released) && t.repeat
    ensures Run(q, ops).Next? && Repeating(Run(q, ops).state, r, t, released)
    decreases |ops|
  {
    if ops == [] {
    } else {
      ApplyKeeps(q, ops[0]);
      var next := Apply(q, ops[0]);
      if next.Next? {
        RepeatStep(q, ops[0], r, t, released);
      }
      RepeatsAreSpaced(if next.Next? then next.state else q, ops[1..], r, t, released);
    }
  }

  // ---------- From insertion on ----------

  /** The timer of this call has just been inserted, under this serial number: it has the
      expiration and the interval asked for, has never run, and was never released. */
  ghost predicate JustInserted(q: Queue, a: Add, serial: nat) {
    && a.timer in q.timers && q.timers[a.timer] == Timer(a.when, a.interval, a.repeat, serial)
    && Times(q.runs, serial) == []
    && Freed(q, serial) == 0
  }

  lemma {:induction false} NeverRan(runs: seq<Fire>, serial: nat)
    requires forall i :: 0 <= i < |runs| ==> runs[i].serial < serial
    ensures Times(runs, serial) == []
  {
    if runs == [] {
    } else {
      NeverRan(runs[..|runs| - 1], serial);
    }
  }

  lemma {:induction false} NeverFreed(freed: seq<nat>, serial: nat)
    requires forall i :: 0 <= i < |freed| ==> freed[i] < serial
    ensures Count(freed, serial) == 0
  {
    if freed == [] {
    } else {
      NeverFreed(freed[..|freed| - 1], serial);
    }
  }

  /** So is every timer that `addTimer` adds, between handlers or from a callback. */
  lemma AddedTimer(q: Queue, a: Add, owed: set<Entry>)
    requires InvOwing(q, owed) && AddTimer(q, a).Next?
    ensures JustInserted(AddTimer(q, a).state, a, q.nextSerial)
  {
    NeverRan(q.runs, q.nextSerial);
    NeverFreed(q.freed, q.nextSerial);
  }

  /** The queue when the i-th callback of a batch has made the first `j` of its calls. */
  function DuringBatch(q: Queue, now: Time, adds: seq<seq<Add>>, i: nat, j: nat): Outcome<Queue>
    requires i < Due(q.list, now) && i < |adds| && j <= |adds[i]|
  {
    var n := Due(q.list, now);
    match RunFirst(WithoutBatch(q, now), Batch(q, now), adds, now, i)
    case Next(q1) => RunOne(q1, Batch(q, now)[i], adds[i][..j], now)
    case _ => Fault
  }

  lemma {:induction false} AddAllSplits(q: Queue, adds: seq<Add>, j: nat)
    requires j <= |adds| && AddAll(q, adds).Next?
    ensures AddAll(q, adds[..j]).Next?
    ensures AddAll(AddAll(q, adds[..j]).state, adds[j..]) == AddAll(q, adds)
    decreases j
  {
    if j == 0 {
      assert adds[..0] == [] && adds[0..] == adds;
    } else {
      assert adds[..j][1..] == adds[1..][..j - 1] && adds[1..][j - 1..] == adds[j..];
      var next := AddTimer(q, adds[0]);
      AddAllSplits(if next.Next? then next.state else q, adds[1..], j - 1);
    }
  }

  /** Later callbacks of a batch leave every timer in the queue as it is. */
  lemma {:induction false} RunFirstGrows(q: Queue, batch: seq<Entry>, adds: seq<seq<Add>>, now: Time, i: nat, n: nat)
    requires i <= n <= |batch| && RunFirst(q, batch, adds, now, n).Next?
    ensures RunFirst(q, batch, adds, now, i).Next?
    ensures Grown(RunFirst(q, batch, adds, now, i).state, RunFirst(q, batch, adds, now, n).state)
    decreases n
  {
    if i == n {
    } else {
      RunFirstGrows(q, batch, adds, now, i, n - 1);
      var q1 := RunFirst(q, batch, adds, now, n - 1).state;
      RunOneGrows(q1, batch[n - 1], if n - 1 < |adds| then adds[n - 1] else [], now);
      GrownTwice(RunFirst(q, batch, adds, now, i).state, q1, RunFirst(q, batch, adds, now, n).state);
    }
  }

  lemma RunOneGrows(q: Queue, e: Entry, adds: seq<Add>, now: Time)
    requires RunOne(q, e, adds, now).Next?
    ensures Grown(q, RunOne(q, e, adds, now).state)
  {
    AddAllGrows(q.(runs := q.runs + [Fire(q.timers[e.timer].serial, now)]), adds);
  }

  /** What one callback adds is there after the callback. */
  lemma AddedByCallback(q: Queue, e: Entry, adds: seq<Add>, now: Time, j: nat)
    requires RunOne(q, e, adds, now).Next? && j < |adds|
    ensures RunOne(q, e, adds[..j], now).Next?
    ensures Grown(q, RunOne(q, e, adds[..j], now).state)
    ensures var mid := RunOne(q, e, adds[..j], now).state;
      AddTimer(mid, adds[j]).Next? ==> Grown(AddTimer(mid, adds[j]).state, RunOne(q, e, adds, now).state)
  {
    var q1 := q.(runs := q.runs + [Fire(q.timers[e.timer].serial, now)]);
    AddAllSplits(q1, adds, j);
    AddAllGrows(q1, adds[..j]);
    var mid := AddAll(q1, adds[..j]).state;
    if AddTimer(mid, adds[j]).Next? {
      assert adds[j..][0] == adds[j];
      AddAllGrows(AddTimer(mid, adds[j]).state, adds[j..][1..]);
    }
  }

  /** What a callback of the batch adds is still there when all callbacks have run. */
  lemma AddedInBatch(q: Queue, now: Time, adds: seq<seq<Add>>, i: nat, j: nat, q1: Queue)
    requires i < Due(q.list, now) && i < |adds| && j < |adds[i]|
    requires RunFirst(WithoutBatch(q, now), Batch(q, now), adds, now, Due(q.list, now)) == Next(q1)
    ensures DuringBatch(q, now, adds, i, j).Next?
    ensures var mid := DuringBatch(q, now, adds, i, j).state;
      && Grown(q.(runs := mid.runs), mid)
      && (AddTimer(mid, adds[i][j]).Next? ==> Grown(AddTimer(mid, adds[i][j]).state, q1))
  {
    var n, batch := Due(q.list, now), Batch(q, now);
    var q0 := WithoutBatch(q, now);
    RunFirstGrows(q0, batch, adds, now, i + 1, n);
    RunFirstGrows(q0, batch, adds, now, i, i + 1);
    RunFirstGrows(q0, batch, adds, now, 0, i);
    var before := RunFirst(q0, batch, adds, now, i).state;
    AddedByCallback(before, batch[i], adds[i], now, j);
    var mid := DuringBatch(q, now, adds, i, j).state;
    GrownTwice(q0, before, mid);
    if AddTimer(mid, adds[i][j]).Next? {
      GrownTwice(AddTimer(mid, adds[i][j]).state, RunFirst(q0, batch, adds, now, i + 1).state, q1);
    }
  }

  /** The batch neither runs nor releases a timer that it does not hold. */
  lemma BatchLeavesAlone(q: Queue, now: Time, adds: seq<seq<Add>>, at: Time, serial: nat)
    requires Inv(q) && serial >= q.nextSerial
    ensures HandleDue(q, now, adds, at).Next?
    ensures var q' := HandleDue(q, now, adds, at).state; Times(q'.runs, serial) == [] && Freed(q', serial) == 0
  {
    HandleReadEffect(q, now, adds, at);
    BatchIsOk(q, now);
    var batch := Batch(q, now);
    FiresTimes(q.timers, batch, now, |batch|, q.runs, serial);
    ReleasesCount(q.timers, batch, |batch|, q.freed, serial);
    NeverRan(q.runs, serial);
    NeverFreed(q.freed, serial);
  }

  /** Nor does resetting the batch change a timer added while it ran. */
  lemma ResetLeavesAlone(q: Queue, now: Time, q1: Queue, q2: Queue, r: Ref)
    requires Inv(q) && r !in q.timers && r in q1.timers
    requires ResetTimers(q1.timers, q2.timers, DoneOf(Batch(q, now), |Batch(q, now)|), now)
    ensures r in q2.timers && q2.timers[r] == q1.timers[r]
  {
    BatchExact(q, now);
    forall e | e in DoneOf(Batch(q, now), |Batch(q, now)|) ensures e.timer != r {
      assert e in Batch(q, now);
    }
  }

  /** Every timer that a callback adds, when its address is free at that moment, is just
      inserted when the handler returns: with the expiration asked for and not yet run,
      however early that is. */
  lemma CallbackTimer(q: Queue, now: Time, adds: seq<seq<Add>>, at: Time, i: nat, j: nat)
    requires Inv(q) && i < Due(q.list, now) && i < |adds| && j < |adds[i]|
    ensures HandleDue(q, now, adds, at).Next? && DuringBatch(q, now, adds, i, j).Next?
    ensures var mid := DuringBatch(q, now, adds, i, j).state;
      adds[i][j].timer !in mid.timers ==>
        mid.nextSerial >= q.nextSerial && JustInserted(HandleDue(q, now, adds, at).state, adds[i][j], mid.nextSerial)
  {
    var q1, q2 := HandleReadSplit(q, now, adds, at);
    var n, batch, a := Due(q.list, now), Batch(q, now), adds[i][j];
    AddedInBatch(q, now, adds, i, j, q1);
    var mid := DuringBatch(q, now, adds, i, j).state;
    if a.timer !in mid.timers {
      DuringKeeps(q, now, adds, i, j);
      AddKeeps(mid, a, DoneOf(batch, n));
      BatchLeavesAlone(q, now, adds, at, mid.nextSerial);
      BatchInRun(q, now, q1, adds);
      ResetFirstEffect(q1, batch, now, n);
      ResetLeavesAlone(q, now, q1, q2, a.timer);
    }
  }

  lemma DuringKeeps(q: Queue, now: Time, adds: seq<seq<Add>>, i: nat, j: nat)
    requires Inv(q) && i < Due(q.list, now) && i < |adds| && j <= |adds[i]|
    ensures DuringBatch(q, now, adds, i, j).Next?
    ensures InvOwing(DuringBatch(q, now, adds, i, j).state, DoneOf(Batch(q, now), |Batch(q, now)|))
  {
    var batch := Batch(q, now);
    BatchOwed(q, now);
    RunFirstKeeps(WithoutBatch(q, now), batch, adds, now, i, DoneOf(batch, |batch|));
    RunOneKeeps(RunFirst(WithoutBatch(q, now), batch, adds, now, i).state, batch[i], adds[i][..j], now,
                DoneOf(batch, |batch|));
  }

  /** The batch's timers are there, unchanged, when its callbacks have run. */
  lemma BatchInRun(q: Queue, now: Time, q1: Queue, adds: seq<seq<Add>>)
    requires Inv(q)
    requires RunFirst(WithoutBatch(q, now), Batch(q, now), adds, now, Due(q.list, now)) == Next(q1)
    ensures Sorted(Batch(q, now))
    ensures forall e :: e in Batch(q, now) ==> e.timer in q1.timers && q1.timers[e.timer].expiration == e.when
  {
    BatchExact(q, now);
    RunFirstGrows(WithoutBatch(q, now), Batch(q, now), adds, now, 0, Due(q.list, now));
  }

  /** From its insertion on, between handlers or by a callback, over every run: a one-shot
      timer runs exactly in the first `handleRead` begun afterwards with the clock at or
      past its expiration, once, and is freed then, once. */
  lemma OneShotLife(q: Queue, a: Add, serial: nat, ops: seq<Op>)
    requires Inv(q) && JustInserted(q, a, serial) && !a.repeat
    ensures Run(q, ops).Next?
    ensures var q', first := Run(q, ops).state, FirstAt(ops, a.when);
      && Times(q'.runs, serial) == (if first.Some? then [first.value] else [])
      && Freed(q', serial) == (if first.Some? then 1 else 0)
  {
    OneShotRunsOnce(q, ops, a.timer);
  }

  /** And a repeating timer stays, is never freed, and its runs are at least its interval
      apart. */
  lemma RepeatingLife(q: Queue, a: Add, serial: nat, ops: seq<Op>)
    requires Inv(q) && JustInserted(q, a, serial) && a.repeat
    ensures Run(q, ops).Next?
    ensures var q' := Run(q, ops).state;
      && a.timer in q'.timers && q'.timers[a.timer].serial == serial && Freed(q', serial) == 0
      && Spaced(Times(q'.runs, serial), a.interval, q'.timers[a.timer].expiration)
  {
    RepeatsAreSpaced(q, ops, a.timer, q.timers[a.timer], 0);
  }

  // ---------- The descriptor is always armed in time ----------

  /** The descriptor is armed, or expired and unread, for exactly this time or, if that is
      later, the shortest delay after it was armed. */
  predicate ArmedFor(q: Queue, when: Time) {
    q.timerfd.Some? && q.timerfd.value.deadline == if when < q.timerfd.value.at + 100
      then q.timerfd.value.at + 100 else when
  }

  /** Between handlers, whatever is in the list will be looked at in time. */
  predicate ArmOk(q: Queue) {
    q.list != [] ==> ArmedFor(q, q.list[0].when)
  }

  /** Inside `handleRead` only what `reset` would not arm for must be armed already. */
  predicate ArmLate(q: Queue) {
    q.list != [] && q.list[0].when <= 0 ==> ArmedFor(q, q.list[0].when)
  }

  lemma AddArms(q: Queue, a: Add)
    requires AddTimer(q, a).Next?
    ensures ArmOk(q) ==> ArmOk(AddTimer(q, a).state)
    ensures ArmLate(q) ==> ArmLate(AddTimer(q, a).state)
  {
    ArmedExact(a.when, a.at);
  }

  lemma {:induction false} AddAllArms(q: Queue, adds: seq<Add>)
    requires AddAll(q, adds).Next? && ArmLate(q)
    ensures ArmLate(AddAll(q, adds).state)
    decreases |adds|
  {
    if adds == [] {
    } else {
      var next := AddTimer(q, adds[0]);
      if next.Next? {
        AddArms(q, adds[0]);
      }
      AddAllArms(if next.Next? then next.state else q, adds[1..]);
    }
  }

  lemma {:induction false} RunFirstArms(q: Queue, batch: seq<Entry>, adds: seq<seq<Add>>, now: Time, n: nat)
    requires n <= |batch| && RunFirst(q, batch, adds, now, n).Next? && ArmLate(q)
    ensures ArmLate(RunFirst(q, batch, adds, now, n).state)
  {
    if n == 0 {
    } else {
      RunFirstArms(q, batch, adds, now, n - 1);
      var q1 := RunFirst(q, batch, adds, now, n - 1).state;
      AddAllArms(q1.(runs := q1.runs + [Fire(q1.timers[batch[n - 1].timer].serial, now)]),
                 if n - 1 < |adds| then adds[n - 1] else []);
    }
  }

  lemma {:induction false} ResetFirstArms(q: Queue, batch: seq<Entry>, now: Time, n: nat)
    requires n <= |batch| && ResetFirst(q, batch, now, n).Next? && ArmLate(q) && now > 0
    ensures ArmLate(ResetFirst(q, batch, now, n).state)
  {
    if n == 0 {
    } else {
      ResetFirstArms(q, batch, now, n - 1);
    }
  }

  /** What is left when the due entries are off the list expires after now. */
  lemma LateAtStart(q: Queue, now: Time)
    requires Inv(q) && now > 0
    ensures ArmLate(WithoutBatch(q, now))
  {
    DueExact(q.list, now);
  }

  lemma RearmArms(q: Queue, at: Time)
    requires ArmLate(q)
    ensures ArmOk(Rearm(q, at))
  {
    if q.list != [] {
      ArmedExact(q.list[0].when, at);
    }
  }

  lemma HandleReadArms(q: Queue, now: Time, adds: seq<seq<Add>>, at: Time)
    requires Inv(q) && now > 0
    ensures HandleDue(q, now, adds, at).Next? && ArmOk(HandleDue(q, now, adds, at).state)
  {
    var q1, q2 := HandleReadSplit(q, now, adds, at);
    var n, batch := Due(q.list, now), Batch(q, now);
    LateAtStart(q, now);
    RunFirstArms(WithoutBatch(q, now), batch, adds, now, n);
    ResetFirstArms(q1, batch, now, n);
    RearmArms(q2, at);
  }

  predicate PositiveClock(ops: seq<Op>) {
    forall i :: 0 <= i < |ops| && ops[i].Handles? ==> ops[i].now > 0
  }

  /** In every run from an empty queue with a positive clock, whatever the expirations:
      between handlers, if any timer waits the descriptor is armed, or expired and not
      yet read, for exactly the earliest expiration or, if that is later, 100 microseconds
      after it was armed. */
  lemma {:induction false} AlwaysArmed(q: Queue, ops: seq<Op>)
    requires Inv(q) && ArmOk(q) && PositiveClock(ops)
    ensures Run(q, ops).Next? && ArmOk(Run(q, ops).state)
    decreases |ops|
  {
    if ops == [] {
    } else {
      ApplyKeeps(q, ops[0]);
      assert PositiveClock(ops[1..]);
      var next := Apply(q, ops[0]);
      if next.Next? {
        match ops[0]
        case Adds(a) => AddArms(q, a);
        case Handles(now, adds, at) => HandleReadArms(q, now, adds, at);
      }
      AlwaysArmed(if next.Next? then next.state else q, ops[1..]);
    }
  }

  // ---------- What a handler leaves in the descriptor ----------

  lemma {:induction false} AddedNothing(q: Queue, adds: seq<Add>)
    requires AddAll(q, adds).Next? && AddAll(q, adds).state.list == []
    ensures q.list == [] && AddAll(q, adds).state.timerfd == q.timerfd
    decreases |adds|
  {
    if adds == [] {
    } else {
      var next := AddTimer(q, adds[0]);
      AddedNothing(if next.Next? then next.state else q, adds[1..]);
    }
  }

  lemma {:induction false} RanWithoutAdding(q: Queue, batch: seq<Entry>, adds: seq<seq<Add>>, now: Time, n: nat)
    requires n <= |batch| && RunFirst(q, batch, adds, now, n).Next? && RunFirst(q, batch, adds, now, n).state.list == []
    ensures q.list == [] && RunFirst(q, batch, adds, now, n).state.timerfd == q.timerfd
  {
    if n == 0 {
    } else {
      var q1 := RunFirst(q, batch, adds, now, n - 1).state;
      AddedNothing(q1.(runs := q1.runs + [Fire(q1.timers[batch[n - 1].timer].serial, now)]),
                   if n - 1 < |adds| then adds[n - 1] else []);
      RanWithoutAdding(q, batch, adds, now, n - 1);
    }
  }

  lemma {:induction false} ResetLeavesTimerfd(q: Queue, batch: seq<Entry>, now: Time, n: nat)
    requires n <= |batch| && ResetFirst(q, batch, now, n).Next?
    ensures ResetFirst(q, batch, now, n).state.timerfd == q.timerfd
    ensures ResetFirst(q, batch, now, n).state.list == [] ==> q.list == []
  {
    if n == 0 {
    } else {
      ResetLeavesTimerfd(q, batch, now, n - 1);
    }
  }

  /** After `handleRead`, whatever the callbacks added: with timers waiting the descriptor has
      been armed again, for exactly the earliest of them or 100 microseconds from then; with
      none it is as it was if it had not expired, and otherwise it has been read. */
  lemma HandleReadRearms(q: Queue, now: Time, adds: seq<seq<Add>>, at: Time)
    requires Inv(q)
    ensures HandleDue(q, now, adds, at).Next?
    ensures var q' := HandleDue(q, now, adds, at).state;
      if q'.list == [] then
        q'.timerfd == (if q.timerfd.Some? && q.timerfd.value.deadline <= now then None else q.timerfd)
      else q'.list[0].when > 0 ==>
        var soonest := if q'.list[0].when < at + 100 then at + 100 else q'.list[0].when;
        q'.timerfd == Some(Arm(soonest, at))
  {
    var q1, q2 := HandleReadSplit(q, now, adds, at);
    var n, batch := Due(q.list, now), Batch(q, now);
    if q2.list == [] {
      ResetLeavesTimerfd(q1, batch, now, n);
      RanWithoutAdding(WithoutBatch(q, now), batch, adds, now, n);
    } else {
      ArmedExact(q2.list[0].when, at);
    }
  }

  // ---------- The queue in memory ----------

  class TimerQueue {
    var timers: map<Ref, Timer>
    var timerlist: seq<Entry>
    var timerfd: Option<Arm>
    var numCreated: nat
    /** History. */
    var runs: seq<Fire>
    var freed: seq<nat>

    ghost function View(): Queue
      reads this
    {
      Queue(timers, timerlist, timerfd, numCreated, runs, freed)
    }

    constructor ()
      ensures View() == Init() && Inv(View())
    {
      timers, timerlist, timerfd, numCreated, runs, freed := map[], [], None, 0, [], [];
    }

    /** `addTimer` on the loop's thread, with its `addTimerInLoop`. */
    method AddTimerInLoop(a: Add)
      requires AddTimer(View(), a).Next?
      modifies this
      ensures Next(View()) == AddTimer(old(View()), a)
    {
      timers := timers[a.timer := Timer(a.when, a.interval, a.repeat, numCreated)];
      numCreated := numCreated + 1;
      var earliestChange := InsertTimer(a.timer);
      if earliestChange {
        timerfd := Some(Armed(a.when, a.at));
      }
    }

    /** `insert`: into the set, telling whether the front changed. The source asserts
        that the entry is new. */
    method InsertTimer(timer: Ref) returns (earliestChange: bool)
      requires timer in timers && Entry(timers[timer].expiration, timer) !in timerlist
      modifies this`timerlist
      ensures timerlist == Insert(old(timerlist), Entry(timers[timer].expiration, timer))
      ensures earliestChange <==> old(timerlist) == [] || timers[timer].expiration < old(timerlist)[0].when
    {
      var e := Entry(timers[timer].expiration, timer);
      earliestChange := timerlist == [] || e.when < timerlist[0].when;
      var i := 0;
      while i < |timerlist| && !Before(e, timerlist[i])
        invariant timerlist == old(timerlist) && i <= |timerlist| && forall k :: 0 <= k < i ==> !Before(e, timerlist[k])
      {
        i := i + 1;
      }
      InsertAt(timerlist, e, i);
      timerlist := timerlist[..i] + [e] + timerlist[i..];
    }

    /** `getexpiration`: everything below the sentry leaves the list. */
    method GetExpiration(now: Time) returns (expirated: seq<Entry>)
      requires Sorted(timerlist)
      modifies this`timerlist
      ensures var n := Due(old(timerlist), now); expirated == old(timerlist)[..n] && timerlist == old(timerlist)[n..]
    {
      var iter := 0;
      while iter < |timerlist| && (timerlist[iter].when < now || (timerlist[iter].when == now &&
        timerlist[iter].timer < UINTPTR_MAX))
        invariant timerlist == old(timerlist) && iter <= Due(timerlist, now)
      {
        DueExact(timerlist, now);
        iter := iter + 1;
      }
      DueExact(timerlist, now);
      assert iter == |timerlist| || now < timerlist[iter].when;
      expirated := timerlist[..iter];
      timerlist := timerlist[iter..];
    }

    /** Runs one callback, which adds timers of its own. */
    method RunCallback(e: Entry, adds: seq<Add>, now: Time)
      requires RunOne(View(), e, adds, now).Next?
      modifies this
      ensures Next(View()) == RunOne(old(View()), e, adds, now)
    {
      runs := runs + [Fire(timers[e.timer].serial, now)];
      ghost var start := View();
      for i := 0 to |adds|
        invariant AddAll(View(), adds[i..]) == AddAll(start, adds)
      {
        assert adds[i..][1..] == adds[i + 1..];
        if adds[i].timer !in timers {
          AddTimerInLoop(adds[i]);
        }
      }
    }

    method HandleRead(now: Time, adds: seq<seq<Add>>, at: Time)
      requires Inv(View())
      modifies this
      ensures Inv(View()) && Next(View()) == HandleDue(old(View()), now, adds, at)
    {
      ghost var q := View();
      ghost var q1, q2 := HandleReadSplit(q, now, adds, at);
      if timerfd.Some? && timerfd.value.deadline <= now {
        timerfd := None;
      }
      var expirated := GetExpiration(now);
      assert View() == WithoutBatch(q, now);
      RunBatch(expirated, adds, now);
      Reset(expirated, now, at);
    }

    /** The loop of `handleRead` over what has expired. */
    method RunBatch(expirated: seq<Entry>, adds: seq<seq<Add>>, now: Time)
      requires RunFirst(View(), expirated, adds, now, |expirated|).Next?
      modifies this
      ensures RunFirst(old(View()), expirated, adds, now, |expirated|) == Next(View())
    {
      ghost var q0 := View();
      for i := 0 to |expirated|
        invariant RunFirst(q0, expirated, adds, now, i) == Next(View())
      {
        RunFirstBegins(q0, expirated, adds, now, i + 1, |expirated|);
        RunCallback(expirated[i], if i < |adds| then adds[i] else [], now);
      }
    }

    /** One turn of `reset`'s loop. */
    method ResetTimer(e: Entry, now: Time)
      requires ResetOne(View(), e, now).Next?
      modifies this
      ensures Next(View()) == ResetOne(old(View()), e, now)
    {
      var t := timers[e.timer];
      if t.repeat {
        timers := timers[e.timer := t.(expiration := now + t.interval)];
        var _ := InsertTimer(e.timer);
      } else {
        timers := timers - {e.timer};
        freed := freed + [t.serial];
      }
    }

    /** `reset`: repeating timers go back, the others are freed, the descriptor is armed
        again. */
    method Reset(expirated: seq<Entry>, now: Time, at: Time)
      requires ResetFirst(View(), expirated, now, |expirated|).Next?
      modifies this
      ensures View() == Rearm(ResetFirst(old(View()), expirated, now, |expirated|).state, at)
    {
      ghost var q1 := View();
      for i := 0 to |expirated|
        invariant ResetFirst(q1, expirated, now, i) == Next(View())
      {
        ResetFirstBegins(q1, expirated, now, i + 1, |expirated|);
        ResetTimer(expirated[i], now);
      }
      if timerlist != [] && timerlist[0].when > 0 {
        timerfd := Some(Armed(timerlist[0].when, at));
      }
    }
  }

  /** What does not fail as a whole does not fail on the way. */
  lemma {:induction false} RunFirstBegins(q: Queue, batch: seq<Entry>, adds: seq<seq<Add>>, now: Time, i: nat, n: nat)
    requires i <= n <= |batch| && RunFirst(q, batch, adds, now, n).Next?
    ensures RunFirst(q, batch, adds, now, i).Next?
    decreases n
  {
    if i == n {
    } else {
      RunFirstBegins(q, batch, adds, now, i, n - 1);
    }
  }

  lemma {:induction false} ResetFirstBegins(q: Queue, batch: seq<Entry>, now: Time, i: nat, n: nat)
    requires i <= n <= |batch| && ResetFirst(q, batch, now, n).Next?
    ensures ResetFirst(q, batch, now, i).Next?
    decreases n
  {
    if i == n {
    } else {
      ResetFirstBegins(q, batch, now, i, n - 1);
    }
  }

  lemma {:induction false} InsertAt(list: seq<Entry>, e: Entry, i: nat)
    requires i <= |list| && (forall k :: 0 <= k < i ==> !Before(e, list[k])) && (i < |list| ==> Before(e, list[i]))
    ensures Insert(list, e) == list[..i] + [e] + list[i..]
  {
    if i == 0 {
    } else {
      InsertAt(list[1..], e, i - 1);
      assert list[1..][..i - 1] == list[1..i] && list[1..][i - 1..] == list[i..];
    }
  }
}
