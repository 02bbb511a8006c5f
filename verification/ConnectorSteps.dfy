/** What the retrying connector is worth and what each call does to it: it makes a
    socket, waits for it to become writable, and hands it over, or closes it and tries
    again after a growing delay. */
module ConnectorSteps {
  import opened Wrappers
  import opened Epoller

  type Sock = nat

  const INIT_RETRY_DELAY_MS: nat := 500
  const MAX_RETRY_DELAY_MS: nat := 30_000

  datatype States = Disconnected | Connecting | Connected

  /** What `connect` answers, in the source's three groups of errno. */
  datatype ConnectResult = InProgress | Retriable | Fatal

  /** What a writable socket turns out to be. */
  datatype Probe = SocketError | SelfConnect | Good

  /** How often a socket was closed, and how often handed to the callback. */
  datatype Fate = Fate(closed: nat, handed: nat)

  /** `channel` is the descriptor of `channel_`, if any, and `registered` whether the
      poller knows it. `resets` are the `resetChannel` calls queued and not yet run,
      `timers` the loop iterations in which the pending retry timers were set, `waits`
      the delays of the retries since the last restart, `sockets` every socket made. */
  datatype Image = Image(
    connect: bool,
    state: States,
    channel: Option<Sock>,
    registered: bool,
    retryDelayMs: nat,
    resets: nat,
    timers: seq<nat>,
    waits: seq<nat>,
    sockets: map<Sock, Fate>)

  function New(): Image {
    Image(false, Disconnected, None, false, INIT_RETRY_DELAY_MS, 0, [], [], map[])
  }

  // ---------- The calls ----------

  function CloseSocket(c: Image, s: Sock): Image {
    if s in c.sockets then c.(sockets := c.sockets[s := c.sockets[s].(closed := c.sockets[s].closed + 1)]) else c
  }

  function HandOver(c: Image, s: Sock): Image {
    if s in c.sockets then c.(sockets := c.sockets[s := c.sockets[s].(handed := c.sockets[s].handed + 1)]) else c
  }

  /** `now` is the loop's iteration. */
  function Retry(c: Image, s: Sock, now: nat): Image {
    var c1 := CloseSocket(c, s).(state := Disconnected);
    if c.connect then
      c1.(timers := c1.timers + [now],
          waits := c1.waits + [c1.retryDelayMs],
          retryDelayMs := if c1.retryDelayMs * 2 < MAX_RETRY_DELAY_MS then c1.retryDelayMs * 2 else MAX_RETRY_DELAY_MS)
    else c1
  }

  /** `connecting`: asserts that no channel is left over. */
  function BeginConnecting(c: Image, s: Sock): Outcome<Image> {
    if c.channel.Some? then Fault
    else Next(c.(state := Connecting, channel := Some(s), registered := true))
  }

  /** `connect`: `s` is the socket the kernel makes, told apart from every earlier one
      even when it gets a closed one's number. */
  function Connect(c: Image, s: Sock, result: ConnectResult, now: nat): Outcome<Image> {
    var c1 := c.(sockets := c.sockets[s := Fate(0, 0)]);
    match result
    case InProgress => BeginConnecting(c1, s)
    case Retriable => Next(Retry(c1, s, now))
    case Fatal => Next(CloseSocket(c1, s))
  }

  function StartInLoop(c: Image, s: Sock, result: ConnectResult, now: nat): Outcome<Image> {
    if !c.state.Disconnected? then Fault
    else if c.connect then Connect(c, s, result, now)
    else Next(c)
  }

  function Start(c: Image, s: Sock, result: ConnectResult, now: nat): Outcome<Image> {
    StartInLoop(c.(connect := true), s, result, now)
  }

  function Restart(c: Image, s: Sock, result: ConnectResult, now: nat): Outcome<Image> {
    var c1 := c.(state := Disconnected, retryDelayMs := INIT_RETRY_DELAY_MS, waits := [], connect := true);
    StartInLoop(c1, s, result, now)
  }

  function Stop(c: Image): Image {
    c.(connect := false)
  }

  /** The channel leaves the poller at once; its object goes by a queued call. */
  function RemoveAndResetChannel(c: Image): Outcome<Image> {
    if c.channel.None? || !c.registered then Fault
    else Next(c.(registered := false, resets := c.resets + 1))
  }

  function ResetChannel(c: Image): Image {
    c.(channel := None, registered := false)
  }

  function HandleWrite(c: Image, probe: Probe, now: nat): Outcome<Image> {
    match c.state
    case Connecting =>
      (match RemoveAndResetChannel(c)
       case Next(c1) =>
         (match probe
          case Good =>
            var c2 := c1.(state := Connected);
            Next(if c2.connect then HandOver(c2, c.channel.value) else CloseSocket(c2, c.channel.value))
          case _ => Next(Retry(c1, c.channel.value, now)))
       case _ => Fault)
    case Disconnected => Next(c)
    case Connected => Fault
  }

  function HandleError(c: Image, now: nat): Outcome<Image> {
    if !c.state.Connecting? then Fault
    else match RemoveAndResetChannel(c)
      case Next(c1) => Next(Retry(c1, c.channel.value, now))
      case _ => Fault
  }

  /** The channel has an error and a write callback, and no other. */
  function OneCallback(c: Image, callback: Callback, probe: Probe, now: nat): Outcome<Image> {
    match callback
    case OnError => HandleError(c, now)
    case OnWrite => HandleWrite(c, probe, now)
    case _ => Next(c)
  }

  /** `handleEvent` of the channel. */
  function HandleEvent(c: Image, callbacks: seq<Callback>, probe: Probe, now: nat): Outcome<Image>
    decreases |callbacks|
  {
    if callbacks == [] then Next(c)
    else
      match OneCallback(c, callbacks[0], probe, now)
      case Next(c1) => HandleEvent(c1, callbacks[1..], probe, now)
      case _ => Fault
  }

  // ---------- The loop around it ----------

  datatype Phase = Polling | Handling | Running

  /** `ready` is the connector's channel among those the poll returned. */
  datatype World = World(c: Image, phase: Phase, now: nat, ready: Option<Mask>, started: bool)

  datatype Action =
    | Poll(ready: Option<Mask>) | HandleReady(probe: Probe) | EndHandling | RunReset | EndRunning
    | DoStart(s: Sock, result: ConnectResult)
    | DoStop
    | DoRestart(s: Sock, result: ConnectResult)
    | TimerFires(s: Sock, result: ConnectResult)

  function Lift(w: World, o: Outcome<Image>): Outcome<World> {
    match o
    case Next(c) => Next(w.(c := c))
    case Blocked => Blocked
    case Fault => Fault
  }

  /** The caller starts once, and restarts only a connected connector whose old channel
      is gone; a retry timer fires in a later iteration than it was set. */
  predicate Fair(w: World, a: Action) {
    match a
    case DoStart(_, _) => !w.started
    case DoRestart(_, _) => w.c.state.Connected? && w.c.channel.None?
    case TimerFires(_, _) => w.c.timers != [] ==> w.c.timers[0] < w.now
    case _ => true
  }

  function Step(w: World, a: Action): Outcome<World> {
    match a
    case Poll(ready) =>
      if w.phase.Polling? && (ready.Some? ==> w.c.registered)
      then Next(w.(phase := Handling, now := w.now + 1, ready := ready)) else Blocked
    case HandleReady(probe) =>
      if w.phase.Handling? && w.ready.Some?
      then Lift(w.(ready := None), HandleEvent(w.c, Dispatch(w.ready.value), probe, w.now)) else Blocked
    case EndHandling => if w.phase.Handling? && w.ready.None? then Next(w.(phase := Running)) else Blocked
    case RunReset =>
      if w.phase.Running? && w.c.resets > 0 then Next(w.(c := ResetChannel(w.c.(resets := w.c.resets - 1))))
        else Blocked
    case EndRunning => if w.phase.Running? && w.c.resets == 0 then Next(w.(phase := Polling)) else Blocked
    case DoStart(s, result) =>
      if s in w.c.sockets then Blocked else Lift(w.(started := true), Start(w.c, s, result, w.now))
    case DoStop => Next(w.(c := Stop(w.c)))
    case DoRestart(s, result) => if s in w.c.sockets then Blocked else Lift(w, Restart(w.c, s, result, w.now))
    case TimerFires(s, result) =>
      if w.phase.Handling? && w.c.timers != [] && s !in w.c.sockets
      then Lift(w, StartInLoop(w.c.(timers := w.c.timers[1..]), s, result, w.now)) else Blocked
  }

  function Init(): World {
    World(New(), Polling, 0, None, false)
  }

  /** An unfair action is skipped, a blocked one too. */
  function Run(w: World, schedule: seq<Action>): Outcome<World>
    decreases |schedule|
  {
    if schedule == [] then Next(w)
    else if !Fair(w, schedule[0]) then Run(w, schedule[1..])
    else match Step(w, schedule[0])
      case Fault => Fault
      case Blocked => Run(w, schedule[1..])
      case Next(w') => Run(w', schedule[1..])
  }

  // ---------- The invariant ----------

  /** The delay before retry number `k`. */
  function Backoff(k: nat): nat {
    if k == 0 then INIT_RETRY_DELAY_MS
    else if Backoff(k - 1) * 2 < MAX_RETRY_DELAY_MS then Backoff(k - 1) * 2 else MAX_RETRY_DELAY_MS
  }

  function Power2(k: nat): nat {
    if k == 0 then 1 else 2 * Power2(k - 1)
  }

  /** It doubles from half a second up to half a minute. */
  lemma {:induction false} BackoffExact(k: nat)
    ensures Backoff(k) == if 500 * Power2(k) < 30_000 then 500 * Power2(k) else 30_000
  {
    if k == 0 {
    } else {
      BackoffExact(k - 1);
    }
  }

  predicate BackoffOk(c: Image) {
    && c.retryDelayMs == Backoff(|c.waits|)
    && (forall i :: 0 <= i < |c.waits| ==> c.waits[i] == Backoff(i))
  }

  /** Held by the connecting channel, closed once, or handed over once: exactly one. */
  predicate FateOk(c: Image, s: Sock)
    requires s in c.sockets
  {
    c.sockets[s] == if c.state.Connecting? && c.channel == Some(s) then Fate(0, 0)
                    else if c.sockets[s].handed == 0 then Fate(1, 0)
                    else Fate(0, 1)
  }

  ghost predicate ImageOk(c: Image) {
    && (c.registered <==> c.state.Connecting?)
    && (c.state.Connecting? ==> c.channel.Some? && c.channel.value in c.sockets && c.resets == 0 && c.timers == [])
    && (!c.state.Connecting? ==> c.resets == if c.channel.Some? then 1 else 0)
    && |c.timers| <= 1
    && (c.timers != [] ==> c.state.Disconnected?)
    && (forall s :: s in c.sockets ==> FateOk(c, s))
    && BackoffOk(c)
  }

  ghost predicate Inv(w: World) {
    && ImageOk(w.c)
    && (w.phase.Polling? ==> w.c.resets == 0)
    && (w.phase.Running? ==> w.ready.None?)
    && (w.ready.Some? ==> w.c.state.Connecting? || w.c.resets == 0)
    && (w.ready.Some? ==> w.c.registered && w.phase.Handling?)
    && (forall i :: 0 <= i < |w.c.timers| ==> w.c.timers[i] <= w.now)
    && (w.c.timers != [] && w.c.timers[0] < w.now && w.phase.Handling? ==> w.c.resets == 0)
    && (!w.started ==> w.c == Stop(New()))
  }

  lemma RetryKeeps(c: Image, s: Sock, now: nat)
    requires s in c.sockets && c.sockets[s] == Fate(0, 0) && c.timers == [] && BackoffOk(c) && !c.registered
    requires c.resets == if c.channel.Some? then 1 else 0
    requires forall u :: u in c.sockets && u != s ==> FateOk(c.(state := Disconnected), u)
    ensures ImageOk(Retry(c, s, now))
  {
  }

  lemma StartInLoopKeeps(c: Image, s: Sock, result: ConnectResult, now: nat)
    requires ImageOk(c) && c.state.Disconnected? && c.channel.None? && c.timers == [] && s !in c.sockets
    ensures StartInLoop(c, s, result, now).Next? && ImageOk(StartInLoop(c, s, result, now).state)
    ensures StartInLoop(c, s, result, now).state.resets == 0
  {
    if c.connect && result.Retriable? {
      RetryKeeps(c.(sockets := c.sockets[s := Fate(0, 0)]), s, now);
    }
  }

  lemma HandleErrorKeeps(c: Image, now: nat)
    requires ImageOk(c) && c.state.Connecting?
    ensures HandleError(c, now).Next? && ImageOk(HandleError(c, now).state)
    ensures HandleError(c, now).state.state.Disconnected?
  {
    RetryKeeps(RemoveAndResetChannel(c).state, c.channel.value, now);
  }

  lemma HandleWriteKeeps(c: Image, probe: Probe, now: nat)
    requires ImageOk(c) && !c.state.Connected?
    ensures HandleWrite(c, probe, now).Next? && ImageOk(HandleWrite(c, probe, now).state)
    ensures c.state.Disconnected? ==> HandleWrite(c, probe, now).state == c
  {
    if c.state.Connecting? && !probe.Good? {
      RetryKeeps(RemoveAndResetChannel(c).state, c.channel.value, now);
    }
  }

  lemma {:induction false} EventConcat(c: Image, xs: seq<Callback>, ys: seq<Callback>, probe: Probe, now: nat)
    ensures HandleEvent(c, xs + ys, probe, now) ==
      match HandleEvent(c, xs, probe, now)
      case Next(c1) => HandleEvent(c1, ys, probe, now)
      case _ => Fault
    decreases |xs|
  {
    if xs == [] {
      assert xs + ys == ys;
      HandleEventAnswers(c, ys, probe, now);
    } else {
      assert (xs + ys)[1..] == xs[1..] + ys;
      var o := OneCallback(c, xs[0], probe, now);
      if o.Next? {
        EventConcat(o.state, xs[1..], ys, probe, now);
      }
    }
  }

  lemma {:induction false} HandleEventAnswers(c: Image, xs: seq<Callback>, probe: Probe, now: nat)
    ensures !HandleEvent(c, xs, probe, now).Blocked?
    decreases |xs|
  {
    if xs == [] {
    } else {
      var o := OneCallback(c, xs[0], probe, now);
      if o.Next? {
        HandleEventAnswers(o.state, xs[1..], probe, now);
      }
    }
  }

  function If(b: bool, callback: Callback): seq<Callback> {
    if b then [callback] else []
  }

  lemma AtMostOne(c: Image, b: bool, callback: Callback, probe: Probe, now: nat)
    ensures HandleEvent(c, If(b, callback), probe, now) == if b then OneCallback(c, callback, probe, now) else Next(c)
  {
    if b {
      assert If(b, callback)[1..] == [];
    }
  }

  /** One event may carry an error and writability: the error is handled first, and the
      write callback then finds the connector disconnected and does nothing. */
  lemma ErrorThenWrite(c: Image, revents: Mask, probe: Probe, now: nat)
    requires ImageOk(c) && c.state.Connecting?
    ensures HandleEvent(c, Dispatch(revents), probe, now) ==
      if EPOLLERR in revents then HandleError(c, now)
      else if EPOLLOUT in revents then HandleWrite(c, probe, now)
      else Next(c)
  {
    var close := EPOLLRDHUP in revents && EPOLLIN !in revents;
    var error := If(EPOLLERR in revents, OnError);
    var read := If(Listens(revents), OnRead);
    var write := If(EPOLLOUT in revents, OnWrite);
    HandleErrorKeeps(c, now);
    AtMostOne(c, close, OnClose, probe, now);
    AtMostOne(c, EPOLLERR in revents, OnError, probe, now);
    var c1 := HandleEvent(c, error, probe, now).state;
    AtMostOne(c1, Listens(revents), OnRead, probe, now);
    AtMostOne(c1, EPOLLOUT in revents, OnWrite, probe, now);
    HandleWriteKeeps(c1, probe, now);
    EventConcat(c, If(close, OnClose), error, probe, now);
    EventConcat(c, If(close, OnClose) + error, read, probe, now);
    EventConcat(c, If(close, OnClose) + error + read, write, probe, now);
    assert Dispatch(revents) == If(close, OnClose) + error + read + write;
  }

  /** What one event makes of the attempt: the socket is handed over exactly if it came
      up well and is still wanted, a retry is set exactly if it failed and is still wanted,
      and no other socket is touched. */
  lemma EventOutcome(c: Image, revents: Mask, probe: Probe, now: nat)
    requires ImageOk(c) && c.state.Connecting?
    ensures HandleEvent(c, Dispatch(revents), probe, now).Next?
    ensures var c', s := HandleEvent(c, Dispatch(revents), probe, now).state, c.channel.value;
      var failed := EPOLLERR in revents || (EPOLLOUT in revents && !probe.Good?);
      var good := EPOLLERR !in revents && EPOLLOUT in revents && probe.Good?;
      && c'.sockets.Keys == c.sockets.Keys
      && (c'.sockets[s] == Fate(0, 1) <==> good && c.connect)
      && (c'.sockets[s] == Fate(1, 0) <==> failed || (good && !c.connect))
      && (forall u :: u in c.sockets && u != s ==> c'.sockets[u] == c.sockets[u])
      && c'.state == (if failed then Disconnected else if good then Connected else Connecting)
      && c'.timers == (if failed && c.connect then [now] else [])
      && c'.waits == (if failed && c.connect then c.waits + [Backoff(|c.waits|)] else c.waits)
      && c'.connect == c.connect
      && c'.resets == (if failed || good then 1 else 0)
  {
    ErrorThenWrite(c, revents, probe, now);
    assert FateOk(c, c.channel.value);
  }

  lemma EventKeeps(w: World, probe: Probe)
    requires Inv(w) && w.phase.Handling? && w.ready.Some?
    ensures Step(w, HandleReady(probe)).Next? && Inv(Step(w, HandleReady(probe)).state)
  {
    ErrorThenWrite(w.c, w.ready.value, probe, w.now);
    HandleErrorKeeps(w.c, w.now);
    HandleWriteKeeps(w.c, probe, w.now);
  }

  lemma TimerKeeps(w: World, s: Sock, result: ConnectResult)
    requires Inv(w) && Fair(w, TimerFires(s, result))
    ensures var o := Step(w, TimerFires(s, result)); !o.Fault? && (o.Next? ==> Inv(o.state))
  {
    if w.phase.Handling? && w.c.timers != [] && s !in w.c.sockets {
      StartInLoopKeeps(w.c.(timers := []), s, result, w.now);
    }
  }

  lemma StepKeepsInv(w: World, a: Action)
    requires Inv(w) && Fair(w, a)
    ensures !Step(w, a).Fault?
    ensures Step(w, a).Next? ==> Inv(Step(w, a).state)
  {
    match a
    case HandleReady(probe) =>
      if w.phase.Handling? && w.ready.Some? {
        EventKeeps(w, probe);
      }
    case DoStart(s, result) =>
      if s !in w.c.sockets {
        StartInLoopKeeps(w.c.(connect := true), s, result, w.now);
      }
    case DoRestart(s, result) =>
      if s !in w.c.sockets {
        var c := w.c.(state := Disconnected, retryDelayMs := INIT_RETRY_DELAY_MS, waits := [], connect := true);
        StartInLoopKeeps(c, s, result, w.now);
      }
    case TimerFires(s, result) => TimerKeeps(w, s, result);
    case _ =>
  }

  lemma {:induction false} RunKeepsInv(w: World, schedule: seq<Action>)
    requires Inv(w)
    ensures Run(w, schedule).Next? && Inv(Run(w, schedule).state)
    decreases |schedule|
  {
    if schedule == [] {
    } else {
      if Fair(w, schedule[0]) {
        StepKeepsInv(w, schedule[0]);
      }
      var next := if Fair(w, schedule[0]) then Step(w, schedule[0]) else Blocked;
      RunKeepsInv(if next.Next? then next.state else w, schedule[1..]);
    }
  }

  // ---------- What the source promises ----------

  /** In every run, with errors and writability in one event and `stop` at any moment:
      no assertion fails, and every socket made is exactly one of held by the connecting
      channel, closed once, or handed over once. */
  lemma SocketsAccounted(schedule: seq<Action>, s: Sock)
    ensures Run(Init(), schedule).Next?
    ensures var c := Run(Init(), schedule).state.c;
      s in c.sockets ==>
        var held := c.state.Connecting? && c.channel == Some(s);
        && (held <==> c.sockets[s] == Fate(0, 0))
        && (!held ==> c.sockets[s] == Fate(1, 0) || c.sockets[s] == Fate(0, 1))
        && (held ==> c.registered)
  {
    RunKeepsInv(Init(), schedule);
  }

  /** In every run the delays since the last restart double from half a second up to
      half a minute, and at most one retry is pending, only while disconnected. */
  lemma RetriesBackOff(schedule: seq<Action>, i: nat)
    ensures Run(Init(), schedule).Next?
    ensures var c := Run(Init(), schedule).state.c;
      && (i < |c.waits| ==> c.waits[i] == if 500 * Power2(i) < 30_000 then 500 * Power2(i) else 30_000)
      && |c.timers| <= 1 && (c.timers != [] ==> c.state.Disconnected?)
  {
    RunKeepsInv(Init(), schedule);
    BackoffExact(i);
  }

  /** What one attempt makes of its socket: under way it is held by a registered channel and
      nothing is closed; refused for now it is closed and a retry is set after the next delay;
      refused for good it is closed and that is all. Nobody who does not want to connect
      attempts anything. */
  lemma AttemptOutcome(c: Image, s: Sock, result: ConnectResult, now: nat)
    requires c.state.Disconnected? && c.channel.None? && BackoffOk(c) && s !in c.sockets
    ensures StartInLoop(c, s, result, now).Next?
    ensures var c' := StartInLoop(c, s, result, now).state;
      if !c.connect then c' == c
      else
        && c'.sockets.Keys == c.sockets.Keys + {s}
        && c'.sockets[s] == (if result.InProgress? then Fate(0, 0) else Fate(1, 0))
        && (forall u :: u in c.sockets ==> c'.sockets[u] == c.sockets[u])
        && c'.channel == (if result.InProgress? then Some(s) else None)
        && c'.state == (if result.InProgress? then Connecting else Disconnected)
        && (result.InProgress? ==> c'.registered)
        && c'.timers == (if result.Retriable? then c.timers + [now] else c.timers)
        && c'.waits == (if result.Retriable? then c.waits + [Backoff(|c.waits|)] else c.waits)
        && c'.connect && c'.resets == c.resets && BackoffOk(c')
  {
  }

  /** A start, and a restart, wants to connect again; a restart also forgets the delays so
      far, so that a refusal waits half a second. */
  lemma RestartStartsOver(c: Image, s: Sock, result: ConnectResult, now: nat)
    requires c.channel.None? && BackoffOk(c) && s !in c.sockets
    ensures Restart(c, s, result, now).Next?
    ensures var c' := Restart(c, s, result, now).state;
      && c'.connect && s in c'.sockets && BackoffOk(c')
      && c'.waits == (if result.Retriable? then [500] else [])
      && c'.state == (if result.InProgress? then Connecting else Disconnected)
    ensures c.state.Disconnected? ==>
      var o := Start(c, s, result, now);
      o.Next? && o.state.connect && s in o.state.sockets
  {
    var c1 := c.(state := Disconnected, retryDelayMs := INIT_RETRY_DELAY_MS, waits := [], connect := true);
    assert Backoff(0) == 500;
    AttemptOutcome(c1, s, result, now);
    if c.state.Disconnected? {
      AttemptOutcome(c.(connect := true), s, result, now);
    }
  }

  /** No call of the run asks to connect. */
  predicate NoStarts(schedule: seq<Action>) {
    forall i :: 0 <= i < |schedule| ==> !schedule[i].DoStart? && !schedule[i].DoRestart?
  }

  /** Nothing was attempted, handed over or put off between these two states. */
  predicate NothingMore(c: Image, c': Image) {
    && !c'.connect
    && c'.sockets.Keys == c.sockets.Keys
    && (forall s :: s in c.sockets ==> c'.sockets[s].handed == c.sockets[s].handed)
    && c'.waits == c.waits
    && |c'.timers| <= |c.timers|
  }

  lemma StoppedStep(w: World, a: Action)
    requires Inv(w) && !w.c.connect && Fair(w, a) && !a.DoStart? && !a.DoRestart? && Step(w, a).Next?
    ensures NothingMore(w.c, Step(w, a).state.c)
  {
    match a
    case HandleReady(probe) => StoppedEvent(w.c, w.ready.value, probe, w.now);
    case _ =>
  }

  lemma StoppedEvent(c: Image, revents: Mask, probe: Probe, now: nat)
    requires ImageOk(c) && !c.connect && c.state.Connecting?
    ensures HandleEvent(c, Dispatch(revents), probe, now).Next?
    ensures NothingMore(c, HandleEvent(c, Dispatch(revents), probe, now).state)
  {
    EventOutcome(c, revents, probe, now);
    var c', s := HandleEvent(c, Dispatch(revents), probe, now).state, c.channel.value;
    assert FateOk(c, s);
    EventKeepsImage(c, revents, probe, now);
    assert FateOk(c', s);
  }

  lemma EventKeepsImage(c: Image, revents: Mask, probe: Probe, now: nat)
    requires ImageOk(c) && c.state.Connecting?
    ensures HandleEvent(c, Dispatch(revents), probe, now).Next?
    ensures ImageOk(HandleEvent(c, Dispatch(revents), probe, now).state)
  {
    ErrorThenWrite(c, revents, probe, now);
    HandleErrorKeeps(c, now);
    HandleWriteKeeps(c, probe, now);
  }

  lemma {:induction false} StoppedRun(w: World, schedule: seq<Action>)
    requires Inv(w) && !w.c.connect && NoStarts(schedule)
    ensures Run(w, schedule).Next? && NothingMore(w.c, Run(w, schedule).state.c)
    decreases |schedule|
  {
    if schedule == [] {
    } else {
      assert NoStarts(schedule[1..]);
      assert !schedule[0].DoStart? && !schedule[0].DoRestart?;
      if Fair(w, schedule[0]) {
        StepKeepsInv(w, schedule[0]);
      }
      var next := if Fair(w, schedule[0]) then Step(w, schedule[0]) else Blocked;
      if next.Next? {
        StoppedStep(w, schedule[0]);
      }
      StoppedRun(if next.Next? then next.state else w, schedule[1..]);
    }
  }

  /** After a `stop`, whatever was under way: until the next start no socket is made, none is
      handed over, and no retry is set. */
  lemma StopStops(w: World, schedule: seq<Action>)
    requires Inv(w) && NoStarts(schedule)
    ensures Step(w, DoStop).Next?
    ensures var w1 := Step(w, DoStop).state;
      && w1.c.sockets == w.c.sockets && w1.c.timers == w.c.timers && w1.c.waits == w.c.waits
      && Run(w1, schedule).Next? && NothingMore(w.c, Run(w1, schedule).state.c)
  {
    StepKeepsInv(w, DoStop);
    StoppedRun(Step(w, DoStop).state, schedule);
  }

  // ---------- A wanted connection is not forgotten ----------

  /** A connection that is wanted is being attempted, is up, or has a retry set. */
  predicate Pursued(c: Image) {
    c.connect ==> !c.state.Disconnected? || c.timers != []
  }

  function ResultOf(a: Action): ConnectResult {
    match a
    case DoStart(_, result) => result
    case DoRestart(_, result) => result
    case TimerFires(_, result) => result
    case _ => InProgress
  }

  /** No attempt of the run is refused for good. */
  predicate NeverFatal(schedule: seq<Action>) {
    forall i :: 0 <= i < |schedule| ==> !ResultOf(schedule[i]).Fatal?
  }

  lemma StepPursues(w: World, a: Action)
    requires Inv(w) && Fair(w, a) && Pursued(w.c) && !ResultOf(a).Fatal? && Step(w, a).Next?
    ensures Pursued(Step(w, a).state.c)
  {
    match a
    case HandleReady(probe) => EventOutcome(w.c, w.ready.value, probe, w.now);
    case _ =>
  }

  lemma {:induction false} RunPursues(w: World, schedule: seq<Action>)
    requires Inv(w) && Pursued(w.c) && NeverFatal(schedule)
    ensures Run(w, schedule).Next? && Pursued(Run(w, schedule).state.c)
    decreases |schedule|
  {
    if schedule == [] {
    } else {
      assert NeverFatal(schedule[1..]);
      if Fair(w, schedule[0]) {
        StepKeepsInv(w, schedule[0]);
      }
      var next := if Fair(w, schedule[0]) then Step(w, schedule[0]) else Blocked;
      if next.Next? {
        StepPursues(w, schedule[0]);
      }
      RunPursues(if next.Next? then next.state else w, schedule[1..]);
    }
  }

  /** In every run without a refusal for good, however many attempts fail: as long as a
      connection is wanted it is being attempted, is up, or has a retry set. */
  lemma WantedIsPursued(schedule: seq<Action>)
    requires NeverFatal(schedule)
    ensures Run(Init(), schedule).Next?
    ensures Pursued(Run(Init(), schedule).state.c)
  {
    RunPursues(Init(), schedule);
  }

  /** In every state a run can reach: a restart can fail the no-channel assertion exactly
      while a connection attempt is under way or the queued `resetChannel` of the last one
      has not run; a retry timer, which fires while disconnected, exactly in the second
      case. */
  lemma RestartFailsIff(c: Image)
    requires ImageOk(c)
    ensures (exists s, result, now :: Restart(c, s, result, now).Fault?) <==> c.state.Connecting? || c.resets > 0
    ensures c.state.Disconnected? && c.connect ==>
      ((exists s, result, now :: StartInLoop(c, s, result, now).Fault?) <==> c.resets > 0)
  {
    RestartFailsOnChannel(c);
  }

  lemma RestartFailsOnChannel(c: Image)
    ensures (exists s, result, now :: Restart(c, s, result, now).Fault?) <==> c.channel.Some?
    ensures c.state.Disconnected? && c.connect ==>
      ((exists s, result, now :: StartInLoop(c, s, result, now).Fault?) <==> c.channel.Some?)
  {
    if c.channel.Some? {
      assert Restart(c, 0, InProgress, 0).Fault?;
      if c.state.Disconnected? && c.connect {
        assert StartInLoop(c, 0, InProgress, 0).Fault?;
      }
    }
  }

  /** Both happen, whenever a socket becomes writable: a restart in the iteration that
      connected it fails, and so does a retry timer that fires in the iteration that set
      it. */
  lemma TooSoonFails(w: World, s: Sock)
    requires Inv(w) && w.phase.Handling? && w.c.state.Connecting? && w.c.connect && s !in w.c.sockets
    requires w.ready.Some? && EPOLLOUT in w.ready.value && EPOLLERR !in w.ready.value
    ensures var o := Step(w, HandleReady(Good));
      o.Next? && o.state.c.state.Connected? && Step(o.state, DoRestart(s, InProgress)).Fault?
    ensures var o := Step(w, HandleReady(SocketError));
      o.Next? && o.state.c.timers == [w.now] && Step(o.state, TimerFires(s, InProgress)).Fault?
  {
    ErrorThenWrite(w.c, w.ready.value, Good, w.now);
    ErrorThenWrite(w.c, w.ready.value, SocketError, w.now);
  }

  /** And a run from the start gets there. */
  lemma BecomesWritable(s: Sock)
    ensures var o := Run(Init(), [DoStart(s, InProgress), Poll(Some({EPOLLOUT}))]);
      && o.Next? && Inv(o.state) && o.state.phase.Handling? && o.state.c.state.Connecting? && o.state.c.connect
      && o.state.ready == Some({EPOLLOUT}) && o.state.c.sockets.Keys == {s}
  {
    var schedule := [DoStart(s, InProgress), Poll(Some({EPOLLOUT}))];
    var w1 := Step(Init(), schedule[0]).state;
    var w2 := Step(w1, schedule[1..][0]).state;
    RunKeepsInv(Init(), schedule);
    assert Run(Init(), schedule) == Run(w1, schedule[1..]) == Run(w2, schedule[1..][1..]);
  }
}
