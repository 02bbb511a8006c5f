/** The server side of a connection's life on a single loop: accepted, told up, fed
    messages, closed, taken out of the map, and destroyed by a deferred call. One
    iteration of the loop is poll, handle the ready channels, run the deferred calls. */
module TcpServer {
  import opened Wrappers
  import opened Connection
  import opened Epoller
  import B = Buffer

  type Id = nat

  /** What an application callback may do: send on a connection, shut one down, or
      queue a function for later, which may do the same. */
  datatype UserCall =
    | Tell(id: Id, message: seq<B.Byte>, w: WriteResult)
    | HangUp(id: Id)
    | Defer(calls: seq<UserCall>)

  /** A deferred call: `connectDestroyed` of a connection, the `sendInLoop` of another
      thread's `send`, or a function of the application's. */
  datatype Task =
    | Destroy(id: Id)
    | SendLater(id: Id, message: seq<B.Byte>, w: WriteResult)
    | Other(calls: seq<UserCall>)

  /** A ready channel with all that the environment brings to its handler: the
      acceptor's, a connection's, or another one (a timer, the wake-up). */
  datatype Item =
    | Accept(calls: seq<UserCall>)
    | Ready(id: Id, revents: Mask, delivery: B.Delivery, w: WriteResult, calls: seq<UserCall>)
    | Elsewhere(calls: seq<UserCall>)

  datatype Phase = Polling | Handling | Running

  /** `conns` holds every connection ever made, by its number in the server's naming;
      `connections` is the server's map. `late` is history: the connections on which a
      queued send brought something after the write side was shut down. */
  datatype World = World(
    phase: Phase,
    next: Id,
    conns: map<Id, Conn>,
    connections: set<Id>,
    pending: seq<Task>,
    batch: seq<Task>,
    active: seq<Item>,
    late: set<Id>)

  /** `RunTask` carries what the application does when told DOWN. */
  datatype Action =
    | Poll(items: seq<Item>)
    | Handle
    | Swap
    | RunTask(calls: seq<UserCall>)
    | EndBatch
    | Foreign(task: Task)

  // ---------- The steps ----------

  function UserCalls(w: World, calls: seq<UserCall>): World
    decreases |calls|
  {
    if calls == [] then w else UserCalls(OneUserCall(w, calls[0]), calls[1..])
  }

  function OneUserCall(w: World, call: UserCall): World {
    match call
    case Tell(id, message, r) =>
      if id in w.conns && Fits(r, |message|)
      then w.(conns := w.conns[id := Send(w.conns[id], message, r, false)]) else w
    case HangUp(id) =>
      if id in w.conns then w.(conns := w.conns[id := Shutdown(w.conns[id])]) else w
    case Defer(calls) => w.(pending := w.pending + [Other(calls)])
  }

  /** `newConnection`: the next number, a new object, the map, and up. */
  function NewConnection(w: World): Outcome<World> {
    match Connection.ConnectEstablished(NewConn())
    case Next(c) =>
      Next(w.(next := w.next + 1, conns := w.conns[w.next := c], connections := w.connections + {w.next}))
    case _ => Fault
  }

  /** `removeConnectionInLoop`: the source asserts that exactly one entry goes. */
  function RemoveConnection(w: World, id: Id): Outcome<World> {
    if id !in w.connections then Fault
    else Next(w.(connections := w.connections - {id}, pending := w.pending + [Destroy(id)]))
  }

  function Close(w: World, id: Id): Outcome<World>
    requires id in w.conns
  {
    match Connection.HandleClose(w.conns[id])
    case Next(c) => RemoveConnection(w.(conns := w.conns[id := c]), id)
    case _ => Fault
  }

  function IsEof(delivery: B.Delivery): bool {
    delivery == B.Delivered([])
  }

  function OneCallback(w: World, item: Item, callback: Callback): Outcome<World>
    requires item.Ready? && item.id in w.conns
  {
    var id := item.id;
    match callback
    case OnClose => Close(w, id)
    case OnError => Next(w)
    case OnRead =>
      if IsEof(item.delivery) then Close(w, id)
      else (match Connection.HandleRead(w.conns[id], item.delivery)
            case Next(c) => Next(if item.delivery.Delivered?
              then UserCalls(w.(conns := w.conns[id := c]), item.calls) else w)
            case _ => Fault)
    case OnWrite =>
      if Fits(item.w, |w.conns[id].output|)
      then Next(w.(conns := w.conns[id := Connection.HandleWrite(w.conns[id], item.w, false)])) else Next(w)
  }

  /** `handleEvent` of a connection's channel. */
  function Callbacks(w: World, item: Item, callbacks: seq<Callback>): Outcome<World>
    requires item.Ready?
    decreases |callbacks|
  {
    if callbacks == [] then Next(w)
    else if item.id !in w.conns then Fault
    else match OneCallback(w, item, callbacks[0])
      case Next(w') => Callbacks(w', item, callbacks[1..])
      case _ => Fault
  }

  function HandleItem(w: World, item: Item): Outcome<World> {
    match item
    case Accept(calls) =>
      (match NewConnection(w)
       case Next(w') => Next(UserCalls(w', calls))
       case _ => Fault)
    case Ready(_, revents, _, _, _) => Callbacks(w, item, Dispatch(revents))
    case Elsewhere(calls) => Next(UserCalls(w, calls))
  }

  /** The `sendInLoop` that another thread's `send` queued; it does not look at the state. */
  function QueuedSend(w: World, id: Id, message: seq<B.Byte>, r: WriteResult): World
    requires id in w.conns && Fits(r, |message|)
  {
    w.(conns := w.conns[id := SendInLoop(w.conns[id], message, r, false)],
       late := if InTime(w.conns[id], Queued(message, r)) then w.late else w.late + {id})
  }

  function RunOne(w: World, task: Task, onDown: seq<UserCall>): Outcome<World> {
    match task
    case Other(calls) => Next(UserCalls(w, calls))
    case SendLater(id, message, r) =>
      if id in w.conns && Fits(r, |message|) then Next(QueuedSend(w, id, message, r)) else Next(w)
    case Destroy(id) =>
      if id !in w.conns then Fault
      else match Connection.ConnectDestroyed(w.conns[id])
        case Next(c) => Next(UserCalls(w.(conns := w.conns[id := c]), onDown))
        case _ => Fault
  }

  /** The poll reports registered channels, each once. */
  predicate Reportable(w: World, items: seq<Item>) {
    && (forall i :: 0 <= i < |items| && items[i].Ready? ==> items[i].id in w.conns && w.conns[items[i].id].registered)
    && (forall i, j :: 0 <= i < j < |items| && items[i].Ready? && items[j].Ready? ==> items[i].id != items[j].id)
  }

  /** `Foreign`: another thread queues a function or a send at any moment. The send saw the
      connection connected once, perhaps long ago. */
  function Step(w: World, a: Action): Outcome<World> {
    match a
    case Poll(items) =>
      if w.phase.Polling? && Reportable(w, items) then Next(w.(phase := Handling, active := items)) else Blocked
    case Handle =>
      if w.phase.Handling? && w.active != [] then HandleItem(w.(active := w.active[1..]), w.active[0]) else Blocked
    case Swap =>
      if w.phase.Handling? && w.active == [] then Next(w.(phase := Running, batch := w.pending, pending := []))
        else Blocked
    case RunTask(calls) =>
      if w.phase.Running? && w.batch != [] then RunOne(w.(batch := w.batch[1..]), w.batch[0], calls) else Blocked
    case EndBatch =>
      if w.phase.Running? && w.batch == [] then Next(w.(phase := Polling)) else Blocked
    case Foreign(task) =>
      if task.Destroy? || (task.SendLater? && task.id !in w.conns) then Blocked
      else Next(w.(pending := w.pending + [task]))
  }

  function Init(): World {
    World(Polling, 0, map[], {}, [], [], [], {})
  }

  function Run(w: World, schedule: seq<Action>): Outcome<World>
    decreases |schedule|
  {
    if schedule == [] then Next(w)
    else match Step(w, schedule[0])
      case Fault => Fault
      case Blocked => Run(w, schedule[1..])
      case Next(w') => Run(w', schedule[1..])
  }

  // ---------- The life of one connection ----------

  /** UP and then only messages. */
  predicate OpenTrace(trace: seq<Event>) {
    trace != [] && trace[0] == Up && forall i :: 0 < i < |trace| ==> trace[i] == Message
  }

  /** A prefix of UP, messages, DOWN. */
  predicate GoodTrace(trace: seq<Event>) {
    trace == [] || OpenTrace(trace) || (trace[|trace| - 1] == Down && OpenTrace(trace[..|trace| - 1]))
  }

  predicate Alive(c: Conn) {
    c.state.Connected? || c.state.Disconnecting?
  }

  /** Open and listening while in the map; closing while the deferred call is owed; then
      gone. */
  predicate LifeOk(c: Conn, inMap: bool, owed: nat) {
    if inMap then owed == 0 && Alive(c) && c.registered && c.reading && c.closes == 0 && OpenTrace(c.trace)
    else if owed == 1 then Alive(c) && c.registered && !c.reading && c.closes == 1 && OpenTrace(c.trace)
    else
      owed == 0 && c.state.Disconnected? && !c.registered && !c.reading && !c.writing && c.closes == 1 &&
      c.trace != [] && c.trace[|c.trace| - 1] == Down && OpenTrace(c.trace[..|c.trace| - 1])
  }

  /** While in the map its output is in order, and its half-close right unless a queued
      send was late. */
  predicate ConnOk(c: Conn, inMap: bool, owed: nat, late: bool) {
    LifeOk(c, inMap, owed) && (inMap ==> Ordered(c) && if late then Overdue(c) else HalfClosed(c))
  }

  /** One of the calls that a connection gets while it lives. */
  lemma CallOk(c: Conn, call: Call, inMap: bool, owed: nat, late: bool)
    requires ConnOk(c, inMap, owed, late) && Possible(c, call) && !call.Queued? && (Alive(c) || !call.Writable?)
    ensures var c' := Apply(c, call, false); ConnOk(c', inMap, owed, late) && Alive(c') == Alive(c)
  {
    if inMap {
      ApplyKeepsOrder(c, call, false);
      if late {
        ApplyKeepsOverdue(c, call, false);
      } else {
        ApplyKeepsHalfCloseIff(c, call, false);
      }
    }
    LifeOfCall(c, call, inMap, owed);
  }

  lemma LifeOfCall(c: Conn, call: Call, inMap: bool, owed: nat)
    requires LifeOk(c, inMap, owed) && Possible(c, call) && (Alive(c) || !call.Writable?)
    requires call.Queued? ==> Alive(c) || call.message == []
    ensures var c' := Apply(c, call, false); LifeOk(c', inMap, owed) && Alive(c') == Alive(c)
  {
    SameTrace(c, call);
  }

  /** The calls of the output path tell the application nothing and keep the life state. */
  lemma SameTrace(c: Conn, call: Call)
    requires Possible(c, call)
    ensures var c' := Apply(c, call, false);
      && c'.trace == c.trace && c'.closes == c.closes && c'.reading == c.reading
      && (c.registered ==> c'.registered)
      && (Alive(c) ==> Alive(c')) && (!Alive(c) ==> c'.state == c.state)
  {
  }

  /** A queued send makes its connection late exactly if it is not in time. */
  lemma QueuedOk(c: Conn, message: seq<B.Byte>, r: WriteResult, inMap: bool, owed: nat, late: bool)
    requires ConnOk(c, inMap, owed, late) && Fits(r, |message|) && (message == [] || Alive(c))
    ensures ConnOk(SendInLoop(c, message, r, false), inMap, owed, late || !InTime(c, Queued(message, r)))
    ensures Alive(SendInLoop(c, message, r, false)) == Alive(c)
  {
    var call := Queued(message, r);
    LifeOfCall(c, call, inMap, owed);
    if inMap {
      ApplyKeepsOrder(c, call, false);
      if late {
        ApplyKeepsOverdue(c, call, false);
      } else {
        ApplyKeepsHalfCloseIff(c, call, false);
      }
    }
  }

  /** On a destroyed connection the queued send keeps the channel out of the poller,
      whatever the write answers, exactly if it brings nothing. */
  lemma LateSendRevivesIff(c: Conn, message: seq<B.Byte>)
    requires LifeOk(c, false, 0)
    ensures (forall r | Fits(r, |message|) :: !SendInLoop(c, message, r, false).registered) <==> message == []
  {
    assert Fits(WriteFailed, |message|);
    assert SendInLoop(c, message, WriteFailed, false).registered <==> message != [];
  }

  lemma ReadOk(c: Conn, delivery: B.Delivery, inMap: bool, owed: nat, late: bool)
    requires ConnOk(c, inMap, owed, late) && Alive(c) && !IsEof(delivery)
    ensures var o := Connection.HandleRead(c, delivery);
      o.Next? && ConnOk(o.state, inMap, owed, late) && Alive(o.state)
  {
  }

  lemma UpOk()
    ensures var o := Connection.ConnectEstablished(NewConn());
      o.Next? && ConnOk(o.state, true, 0, false) && o.state.state.Connected? && o.state.trace == [Up]
  {
  }

  lemma CloseOk(c: Conn, late: bool)
    requires ConnOk(c, true, 0, late)
    ensures var o := Connection.HandleClose(c); o.Next? && ConnOk(o.state, false, 1, late) && Alive(o.state)
  {
  }

  lemma DownOk(c: Conn, late: bool)
    requires ConnOk(c, false, 1, late)
    ensures var o := Connection.ConnectDestroyed(c); o.Next? && ConnOk(o.state, false, 0, late)
  {
    var c' := Connection.ConnectDestroyed(c).state;
    assert c'.trace[..|c'.trace| - 1] == c.trace;
  }

  // ---------- The invariant ----------

  /** How many times `connectDestroyed` is still to run for a connection. */
  function Owed(tasks: seq<Task>, id: Id): nat {
    multiset(tasks)[Destroy(id)]
  }

  function OwedBy(w: World, id: Id): nat {
    Owed(w.pending, id) + Owed(w.batch, id)
  }

  ghost predicate NoDestroy(tasks: seq<Task>) {
    forall i :: 0 <= i < |tasks| ==> !tasks[i].Destroy?
  }

  ghost predicate ConnsOk(w: World) {
    && (forall id :: id in w.conns ==> id < w.next)
    && w.connections <= w.conns.Keys && w.late <= w.conns.Keys
    && (forall id :: id in w.conns ==> ConnOk(w.conns[id], id in w.connections, OwedBy(w, id), id in w.late))
  }

  /** A deferred call names a connection. */
  ghost predicate TasksOk(tasks: seq<Task>, conns: set<Id>) {
    forall i :: 0 <= i < |tasks| && tasks[i].Destroy? ==> tasks[i].id in conns
  }

  /** A ready connection is in the map, and ready once. */
  ghost predicate ActiveOk(active: seq<Item>, connections: set<Id>) {
    && (forall i :: 0 <= i < |active| && active[i].Ready? ==> active[i].id in connections)
    && (forall i, j :: 0 <= i < j < |active| && active[i].Ready? && active[j].Ready? ==> active[i].id != active[j].id)
  }

  ghost predicate PhaseOk(w: World) {
    && (!w.phase.Handling? ==> NoDestroy(w.pending) && w.active == [])
    && (!w.phase.Running? ==> w.batch == [])
  }

  ghost predicate Inv(w: World) {
    && ConnsOk(w)
    && TasksOk(w.pending, w.conns.Keys)
    && TasksOk(w.batch, w.conns.Keys)
    && PhaseOk(w)
    && ActiveOk(w.active, w.connections)
  }

  lemma OwedNothing(tasks: seq<Task>, id: Id)
    requires NoDestroy(tasks)
    ensures Owed(tasks, id) == 0
  {
    assert Destroy(id) !in tasks;
  }

  lemma OwedPush(tasks: seq<Task>, task: Task, id: Id)
    ensures Owed(tasks + [task], id) == Owed(tasks, id) + if task == Destroy(id) then 1 else 0
  {
  }

  lemma OwedPop(tasks: seq<Task>, id: Id)
    requires tasks != []
    ensures Owed(tasks, id) == Owed(tasks[1..], id) + if tasks[0] == Destroy(id) then 1 else 0
  {
    assert tasks == [tasks[0]] + tasks[1..];
  }

  // ---------- Each step keeps it ----------

  /** A change to one connection that keeps what the invariant needs of it. */
  lemma ConnChange(w: World, id: Id, c: Conn)
    requires ConnsOk(w) && id in w.conns
    requires ConnOk(c, id in w.connections, OwedBy(w, id), id in w.late)
    ensures ConnsOk(w.(conns := w.conns[id := c])) && w.conns[id := c].Keys == w.conns.Keys
  {
    var w' := w.(conns := w.conns[id := c]);
    assert w'.conns.Keys == w.conns.Keys;
    forall k | k in w'.conns
      ensures k < w.next && ConnOk(w'.conns[k], k in w'.connections, OwedBy(w', k), k in w'.late)
    {
      assert OwedBy(w', k) == OwedBy(w, k);
    }
  }

  /** An application call changes neither the loop's place and list nor the map, and
      neither adds, destroys nor revives a connection. */
  predicate SameShape(w: World, w': World) {
    && w'.phase == w.phase && w'.active == w.active && w'.connections == w.connections && w'.next == w.next
    && w'.conns.Keys == w.conns.Keys
    && (forall id :: id in w.conns ==> Alive(w'.conns[id]) == Alive(w.conns[id]))
  }

  lemma DeferConns(w: World, task: Task)
    requires ConnsOk(w) && !task.Destroy?
    ensures ConnsOk(w.(pending := w.pending + [task]))
  {
    var w' := w.(pending := w.pending + [task]);
    forall k | k in w'.conns
      ensures ConnOk(w'.conns[k], k in w'.connections, OwedBy(w', k), k in w'.late)
    {
      OwedPush(w.pending, task, k);
      assert OwedBy(w', k) == OwedBy(w, k);
    }
  }

  lemma DeferKeeps(w: World, task: Task)
    requires Inv(w) && !task.Destroy?
    ensures Inv(w.(pending := w.pending + [task]))
  {
    DeferConns(w, task);
  }

  lemma OneCallKeeps(w: World, id: Id, call: Call)
    requires Inv(w) && id in w.conns && Possible(w.conns[id], call) && !call.Queued?
    requires Alive(w.conns[id]) || !call.Writable?
    ensures var w' := w.(conns := w.conns[id := Apply(w.conns[id], call, false)]); Inv(w') && SameShape(w, w')
  {
    var c := w.conns[id];
    CallOk(c, call, id in w.connections, OwedBy(w, id), id in w.late);
    ConnChange(w, id, Apply(c, call, false));
  }

  lemma OneUserCallKeeps(w: World, call: UserCall)
    requires Inv(w)
    ensures Inv(OneUserCall(w, call)) && SameShape(w, OneUserCall(w, call))
  {
    match call
    case Tell(id, message, r) =>
      if id in w.conns && Fits(r, |message|) {
        OneCallKeeps(w, id, Sends(message, r));
      }
    case HangUp(id) =>
      if id in w.conns {
        OneCallKeeps(w, id, Shuts);
      }
    case Defer(calls) => DeferKeeps(w, Other(calls));
  }

  lemma {:induction false} UserCallsKeep(w: World, calls: seq<UserCall>)
    requires Inv(w)
    ensures Inv(UserCalls(w, calls)) && SameShape(w, UserCalls(w, calls))
    decreases |calls|
  {
    if calls == [] {
    } else {
      OneUserCallKeeps(w, calls[0]);
      UserCallsKeep(OneUserCall(w, calls[0]), calls[1..]);
    }
  }

  lemma AcceptKeeps(w: World)
    requires Inv(w)
    ensures NewConnection(w).Next? && Inv(NewConnection(w).state)
    ensures var w' := NewConnection(w).state;
      && w'.phase == w.phase && w'.active == w.active
      && w.next !in w.conns && w'.connections == w.connections + {w.next}
      && w.next in w'.conns && w'.conns[w.next].state.Connected? && w'.conns[w.next].trace == [Up]
  {
    UpOk();
    var w' := NewConnection(w).state;
    assert w'.conns.Keys == w.conns.Keys + {w.next};
    assert OwedBy(w, w.next) == 0 by {
      assert Destroy(w.next) !in w.pending && Destroy(w.next) !in w.batch;
    }
    forall k | k in w'.conns
      ensures k < w'.next && ConnOk(w'.conns[k], k in w'.connections, OwedBy(w', k), k in w'.late)
    {
      assert OwedBy(w', k) == OwedBy(w, k);
    }
  }

  /** No later ready channel is this connection's. */
  ghost predicate Unready(active: seq<Item>, id: Id) {
    forall i :: 0 <= i < |active| && active[i].Ready? ==> active[i].id != id
  }

  lemma ClosedConns(w: World, id: Id)
    requires ConnsOk(w) && id in w.connections
    ensures Close(w, id).Next? && ConnsOk(Close(w, id).state)
  {
    CloseOk(w.conns[id], id in w.late);
    var w' := Close(w, id).state;
    assert w'.conns.Keys == w.conns.Keys;
    forall k | k in w'.conns
      ensures ConnOk(w'.conns[k], k in w'.connections, OwedBy(w', k), k in w'.late)
    {
      OwedPush(w.pending, Destroy(id), k);
      assert OwedBy(w', k) == OwedBy(w, k) + if k == id then 1 else 0;
    }
  }

  /** Handling a close succeeds exactly for a connection still in the map. */
  lemma CloseKeeps(w: World, id: Id)
    requires Inv(w) && w.phase.Handling? && id in w.conns && Alive(w.conns[id]) && Unready(w.active, id)
    ensures Close(w, id).Fault? <==> id !in w.connections
    ensures Close(w, id).Next? ==> Inv(Close(w, id).state) && Alive(Close(w, id).state.conns[id])
  {
    if id in w.connections {
      ClosedConns(w, id);
      CloseOk(w.conns[id], id in w.late);
    }
  }

  /** How many of these callbacks handle a close. */
  function Closers(callbacks: seq<Callback>, delivery: B.Delivery): nat {
    if callbacks == [] then 0
    else
      (if callbacks[0].OnClose? || (callbacks[0].OnRead? && IsEof(delivery)) then 1 else 0) +
      Closers(callbacks[1..], delivery)
  }

  lemma MessageKeeps(w: World, item: Item)
    requires Inv(w) && item.Ready? && item.id in w.conns && Alive(w.conns[item.id]) && !IsEof(item.delivery)
    ensures var o := OneCallback(w, item, OnRead);
      && o.Next? && Inv(o.state) && SameShape(w, o.state)
  {
    var id := item.id;
    ReadOk(w.conns[id], item.delivery, id in w.connections, OwedBy(w, id), id in w.late);
    if item.delivery.Delivered? {
      var c := Connection.HandleRead(w.conns[id], item.delivery).state;
      ConnChange(w, id, c);
      UserCallsKeep(w.(conns := w.conns[id := c]), item.calls);
    }
  }

  lemma OneCallbackKeeps(w: World, item: Item, callback: Callback)
    requires Inv(w) && w.phase.Handling? && item.Ready? && item.id in w.conns && Alive(w.conns[item.id])
    requires Unready(w.active, item.id)
    ensures var o := OneCallback(w, item, callback);
      var closer := callback.OnClose? || (callback.OnRead? && IsEof(item.delivery));
      && (o.Fault? <==> closer && item.id !in w.connections)
      && !o.Blocked?
      && (o.Next? ==>
            && Inv(o.state) && o.state.phase.Handling? && o.state.active == w.active
            && item.id in o.state.conns && Alive(o.state.conns[item.id])
            && o.state.connections == if closer then w.connections - {item.id} else w.connections)
  {
    var id := item.id;
    match callback
    case OnClose => CloseKeeps(w, id);
    case OnError =>
    case OnRead =>
      if IsEof(item.delivery) {
        CloseKeeps(w, id);
      } else {
        MessageKeeps(w, item);
      }
    case OnWrite =>
      if Fits(item.w, |w.conns[id].output|) {
        OneCallKeeps(w, id, Writable(item.w));
      }
  }

  /** An event fails an assertion exactly when its callbacks close the connection more
      often than it can be closed. */
  lemma {:induction false} CallbacksKeep(w: World, item: Item, callbacks: seq<Callback>)
    requires Inv(w) && w.phase.Handling? && item.Ready? && item.id in w.conns && Alive(w.conns[item.id])
    requires Unready(w.active, item.id)
    ensures var o := Callbacks(w, item, callbacks);
      && !o.Blocked?
      && (o.Fault? <==> Closers(callbacks, item.delivery) > if item.id in w.connections then 1 else 0)
      && (o.Next? ==> Inv(o.state) && o.state.active == w.active)
    decreases |callbacks|
  {
    if callbacks == [] {
    } else {
      OneCallbackKeeps(w, item, callbacks[0]);
      var o := OneCallback(w, item, callbacks[0]);
      if o.Next? {
        CallbacksKeep(o.state, item, callbacks[1..]);
      }
    }
  }

  lemma DispatchClosers(revents: Mask, delivery: B.Delivery)
    ensures Closers(Dispatch(revents), delivery) ==
      (if EPOLLRDHUP in revents && EPOLLIN !in revents then 1 else 0) +
      (if Listens(revents) && IsEof(delivery) then 1 else 0)
  {
    var a := if EPOLLRDHUP in revents && EPOLLIN !in revents then [OnClose] else [];
    var b := if EPOLLERR in revents then [OnError] else [];
    var c := if Listens(revents) then [OnRead] else [];
    var d := if EPOLLOUT in revents then [OnWrite] else [];
    assert Closers([], delivery) == 0;
    assert Closers(a, delivery) == |a| && Closers(b, delivery) == Closers(d, delivery) == 0;
    assert Closers(c, delivery) == if IsEof(delivery) then |c| else 0;
    ClosersConcat(a, b, delivery);
    ClosersConcat(a + b, c, delivery);
    ClosersConcat(a + b + c, d, delivery);
  }

  lemma {:induction false} ClosersConcat(xs: seq<Callback>, ys: seq<Callback>, delivery: B.Delivery)
    ensures Closers(xs + ys, delivery) == Closers(xs, delivery) + Closers(ys, delivery)
  {
    if xs == [] {
      assert xs + ys == ys;
    } else {
      assert (xs + ys)[1..] == xs[1..] + ys;
      ClosersConcat(xs[1..], ys, delivery);
    }
  }

  /** The one combination that makes an event fail: a hang-up without readability, and a
      read that then finds the end. */
  predicate Rude(item: Item) {
    item.Ready? && EPOLLRDHUP in item.revents && EPOLLIN !in item.revents && IsEof(item.delivery)
  }

  /** The event of an open connection fails an assertion of the source if and only if
      the kernel reports a hang-up without readability and the read then finds the end:
      the close is handled twice and the second erase finds nothing. */
  lemma EventFailsIff(w: World)
    requires Inv(w) && w.phase.Handling? && w.active != [] && w.active[0].Ready?
    ensures Step(w, Handle).Fault? <==> Rude(w.active[0])
    ensures !Step(w, Handle).Blocked?
    ensures Step(w, Handle).Next? ==> Inv(Step(w, Handle).state)
  {
    var item := w.active[0];
    var w1 := w.(active := w.active[1..]);
    HandleShrinks(w);
    DispatchOrder(item.revents);
    DispatchClosers(item.revents, item.delivery);
    CallbacksKeep(w1, item, Dispatch(item.revents));
  }

  lemma HandleShrinks(w: World)
    requires Inv(w) && w.phase.Handling? && w.active != []
    ensures Inv(w.(active := w.active[1..]))
    ensures w.active[0].Ready? ==>
      && w.active[0].id in w.connections && Alive(w.conns[w.active[0].id])
      && Unready(w.active[1..], w.active[0].id)
  {
    ActiveShrinks(w.active, w.connections);
    SameConns(w, w.(active := w.active[1..]));
  }

  lemma ActiveShrinks(active: seq<Item>, connections: set<Id>)
    requires ActiveOk(active, connections) && active != []
    ensures ActiveOk(active[1..], connections)
    ensures active[0].Ready? ==> Unready(active[1..], active[0].id)
  {
  }

  /** Moving tasks about, without losing any, leaves the connections as they are. */
  lemma SameConns(w: World, w': World)
    requires ConnsOk(w) && w'.conns == w.conns && w'.connections == w.connections
    requires w'.next == w.next && w'.late == w.late
    requires forall id :: OwedBy(w', id) == OwedBy(w, id)
    ensures ConnsOk(w')
  {
  }

  lemma PollKeeps(w: World, items: seq<Item>)
    requires Inv(w) && w.phase.Polling? && Reportable(w, items)
    ensures Inv(w.(phase := Handling, active := items))
  {
    forall id | id in w.conns ensures w.conns[id].registered ==> id in w.connections {
      OwedNothing(w.pending, id);
      OwedNothing(w.batch, id);
      assert ConnOk(w.conns[id], id in w.connections, OwedBy(w, id), id in w.late);
    }
    SameConns(w, w.(phase := Handling, active := items));
  }

  lemma SwapKeeps(w: World)
    requires Inv(w) && w.phase.Handling? && w.active == []
    ensures Inv(w.(phase := Running, batch := w.pending, pending := []))
  {
    SameConns(w, w.(phase := Running, batch := w.pending, pending := []));
  }

  lemma EndBatchKeeps(w: World)
    requires Inv(w) && w.phase.Running? && w.batch == []
    ensures Inv(w.(phase := Polling))
  {
    SameConns(w, w.(phase := Polling));
  }

  lemma TaskPopped(w: World)
    requires Inv(w) && w.phase.Running? && w.batch != [] && !w.batch[0].Destroy?
    ensures Inv(w.(batch := w.batch[1..]))
  {
    forall id ensures Owed(w.batch, id) == Owed(w.batch[1..], id) {
      OwedPop(w.batch, id);
    }
    SameConns(w, w.(batch := w.batch[1..]));
  }

  /** A queued send whose connection is not destroyed, or that brings nothing. */
  predicate Harmless(w: World, task: Task) {
    task.SendLater? && task.id in w.conns ==> task.message == [] || Alive(w.conns[task.id])
  }

  lemma QueuedSendKeeps(w: World, id: Id, message: seq<B.Byte>, r: WriteResult)
    requires Inv(w) && id in w.conns && Fits(r, |message|) && (message == [] || Alive(w.conns[id]))
    ensures Inv(QueuedSend(w, id, message, r))
  {
    var c, w' := w.conns[id], QueuedSend(w, id, message, r);
    QueuedOk(c, message, r, id in w.connections, OwedBy(w, id), id in w.late);
    assert w'.conns.Keys == w.conns.Keys;
    forall k | k in w'.conns
      ensures ConnOk(w'.conns[k], k in w'.connections, OwedBy(w', k), k in w'.late)
    {
      assert OwedBy(w', k) == OwedBy(w, k);
    }
  }

  /** The object after its `connectDestroyed`, and the batch without that call. */
  function Destroyed(w: World, id: Id): Outcome<World>
    requires w.batch != [] && id in w.conns
  {
    match Connection.ConnectDestroyed(w.conns[id])
    case Next(c) => Next(w.(batch := w.batch[1..], conns := w.conns[id := c]))
    case _ => Fault
  }

  lemma DestroyedConns(w: World, id: Id)
    requires ConnsOk(w) && w.batch != [] && w.batch[0] == Destroy(id) && id in w.conns
    ensures Destroyed(w, id).Next? && ConnsOk(Destroyed(w, id).state)
  {
    OwedPop(w.batch, id);
    assert OwedBy(w, id) == 1;
    DownOk(w.conns[id], id in w.late);
    var w' := Destroyed(w, id).state;
    assert w'.conns.Keys == w.conns.Keys;
    forall k | k in w'.conns
      ensures ConnOk(w'.conns[k], k in w'.connections, OwedBy(w', k), k in w'.late)
    {
      OwedPop(w.batch, k);
      assert OwedBy(w', k) == OwedBy(w, k) - if k == id then 1 else 0;
    }
  }

  lemma DestroyKeeps(w: World, id: Id)
    requires Inv(w) && w.phase.Running? && w.batch != [] && w.batch[0] == Destroy(id)
    ensures id in w.conns && Destroyed(w, id).Next? && Inv(Destroyed(w, id).state)
  {
    DestroyedConns(w, id);
  }

  lemma SendLaterKeeps(w: World, id: Id, message: seq<B.Byte>, r: WriteResult)
    requires Inv(w) && w.phase.Running? && w.batch != [] && w.batch[0] == SendLater(id, message, r)
    requires Harmless(w, w.batch[0])
    ensures var o := RunOne(w.(batch := w.batch[1..]), w.batch[0], []); o.Next? && Inv(o.state)
  {
    TaskPopped(w);
    if id in w.conns && Fits(r, |message|) {
      QueuedSendKeeps(w.(batch := w.batch[1..]), id, message, r);
    }
  }

  lemma TaskKeeps(w: World, onDown: seq<UserCall>)
    requires Inv(w) && w.phase.Running? && w.batch != [] && Harmless(w, w.batch[0])
    ensures var o := RunOne(w.(batch := w.batch[1..]), w.batch[0], onDown); o.Next? && Inv(o.state)
  {
    match w.batch[0]
    case Other(calls) =>
      TaskPopped(w);
      UserCallsKeep(w.(batch := w.batch[1..]), calls);
    case SendLater(id, message, r) => SendLaterKeeps(w, id, message, r);
    case Destroy(id) =>
      DestroyKeeps(w, id);
      UserCallsKeep(Destroyed(w, id).state, onDown);
  }

  lemma HandleKeeps(w: World)
    requires Inv(w) && w.phase.Handling? && w.active != [] && !Rude(w.active[0])
    ensures Step(w, Handle).Next? && Inv(Step(w, Handle).state)
  {
    HandleShrinks(w);
    var w1 := w.(active := w.active[1..]);
    match w.active[0]
    case Accept(calls) =>
      AcceptKeeps(w1);
      UserCallsKeep(NewConnection(w1).state, calls);
    case Ready(_, _, _, _, _) => EventFailsIff(w);
    case Elsewhere(calls) => UserCallsKeep(w1, calls);
  }

  /** The two things that spoil the life of a connection: the event that fails, and a
      queued send that brings something to a destroyed connection. */
  predicate Tame(w: World, a: Action) {
    match a
    case Handle => w.active != [] ==> !Rude(w.active[0])
    case RunTask(_) => w.batch != [] ==> Harmless(w, w.batch[0])
    case _ => true
  }

  lemma StepKeepsInv(w: World, a: Action)
    requires Inv(w) && Tame(w, a)
    ensures !Step(w, a).Fault?
    ensures Step(w, a).Next? ==> Inv(Step(w, a).state)
  {
    if Step(w, a).Blocked? {
    } else {
      match a
      case Poll(items) => PollKeeps(w, items);
      case Handle => HandleKeeps(w);
      case Swap => SwapKeeps(w);
      case RunTask(calls) => TaskKeeps(w, calls);
      case EndBatch => EndBatchKeeps(w);
      case Foreign(task) => DeferKeeps(w, task);
    }
  }

  /** Neither happens anywhere in the run. */
  predicate TameRun(w: World, schedule: seq<Action>)
    decreases |schedule|
  {
    schedule == [] ||
    (Tame(w, schedule[0]) &&
     TameRun(if Step(w, schedule[0]).Next? then Step(w, schedule[0]).state else w, schedule[1..]))
  }

  lemma {:induction false} RunKeepsInv(w: World, schedule: seq<Action>)
    requires Inv(w) && TameRun(w, schedule)
    ensures Run(w, schedule).Next? && Inv(Run(w, schedule).state)
    decreases |schedule|
  {
    if schedule == [] {
    } else {
      StepKeepsInv(w, schedule[0]);
      var next := Step(w, schedule[0]);
      RunKeepsInv(if next.Next? then next.state else w, schedule[1..]);
    }
  }

  // ---------- What the source promises ----------

  /** In every tame run, other threads queueing functions and sends at any moment: no
      assertion fails, so every erase from the map removes one entry and `handleClose` and
      `connectDestroyed` run in the states they assert; each connection's application trace
      is a prefix of UP, messages, DOWN; its close is handled at most once, and its DOWN
      follows that close. */
  lemma ConnectionLifecycle(schedule: seq<Action>, id: Id)
    requires TameRun(Init(), schedule)
    ensures Run(Init(), schedule).Next?
    ensures var w := Run(Init(), schedule).state;
      id in w.conns ==>
        && GoodTrace(w.conns[id].trace)
        && w.conns[id].closes == (if id in w.connections then 0 else 1)
        && (Down in w.conns[id].trace ==> id !in w.connections && w.conns[id].state.Disconnected?)
  {
    RunKeepsInv(Init(), schedule);
    var w := Run(Init(), schedule).state;
    if id in w.conns {
      assert ConnOk(w.conns[id], id in w.connections, OwedBy(w, id), id in w.late);
    }
  }

  /** In every tame run, at each poll exactly the open connections are registered with the
      poller, and listen: a closed one was taken out before the poll. */
  lemma UnregisteredBeforePoll(schedule: seq<Action>, id: Id)
    requires TameRun(Init(), schedule)
    ensures Run(Init(), schedule).Next?
    ensures var w := Run(Init(), schedule).state;
      w.phase.Polling? && id in w.conns ==>
        && (w.conns[id].registered <==> id in w.connections)
        && (w.conns[id].reading <==> id in w.connections)
        && (w.conns[id].writing ==> id in w.connections)
        && (id !in w.connections ==> w.conns[id].state.Disconnected? && Down in w.conns[id].trace)
  {
    RunKeepsInv(Init(), schedule);
    var w := Run(Init(), schedule).state;
    if w.phase.Polling? && id in w.conns {
      OwedOutsideHandling(w, id);
      assert ConnOk(w.conns[id], id in w.connections, 0, id in w.late);
    }
  }

  lemma OwedOutsideHandling(w: World, id: Id)
    requires Inv(w) && w.phase.Polling?
    ensures OwedBy(w, id) == 0
  {
    OwedNothing(w.pending, id);
    OwedNothing(w.batch, id);
  }

  /** In every tame run, an object the loop can still reach is still owned: a ready
      channel's connection is in the map, and a registered one is in the map or held by
      the one deferred `connectDestroyed` that is owed to it. */
  lemma ReachableIsOwned(schedule: seq<Action>, id: Id)
    requires TameRun(Init(), schedule)
    ensures Run(Init(), schedule).Next?
    ensures var w := Run(Init(), schedule).state;
      && (forall i :: 0 <= i < |w.active| && w.active[i].Ready? ==> w.active[i].id in w.connections)
      && (id in w.conns && w.conns[id].registered ==> (id in w.connections) != (OwedBy(w, id) == 1))
      && (id in w.conns ==> OwedBy(w, id) <= 1)
  {
    RunKeepsInv(Init(), schedule);
    var w := Run(Init(), schedule).state;
    if id in w.conns {
      assert ConnOk(w.conns[id], id in w.connections, OwedBy(w, id), id in w.late);
    }
  }

  /** In every tame run the output of every connection in the map is in order, so that the
      direct write is unreachable on the whole server; and its half-close is right exactly
      if every queued send so far was in time for it. */
  lemma OutputInOrderInMap(schedule: seq<Action>, id: Id)
    requires TameRun(Init(), schedule)
    ensures Run(Init(), schedule).Next?
    ensures var w := Run(Init(), schedule).state;
      id in w.connections ==>
        && id in w.conns && Ordered(w.conns[id]) && !WritesDirectly(w.conns[id])
        && (HalfClosed(w.conns[id]) <==> id !in w.late)
  {
    RunKeepsInv(Init(), schedule);
    var w := Run(Init(), schedule).state;
    if id in w.connections {
      assert ConnOk(w.conns[id], true, OwedBy(w, id), id in w.late);
    }
  }

  // ---------- Both exceptions happen ----------

  lemma {:induction false} RunConcat(w: World, xs: seq<Action>, ys: seq<Action>)
    ensures Run(w, xs + ys) ==
      match Run(w, xs)
      case Next(w1) => Run(w1, ys)
      case o => o
    decreases |xs|
  {
    if xs == [] {
      assert xs + ys == ys;
      RunAnswers(w, ys);
    } else {
      assert (xs + ys)[1..] == xs[1..] + ys;
      var next := Step(w, xs[0]);
      if !next.Fault? {
        RunConcat(if next.Next? then next.state else w, xs[1..], ys);
      }
    }
  }

  lemma {:induction false} RunAnswers(w: World, schedule: seq<Action>)
    ensures !Run(w, schedule).Blocked?
    decreases |schedule|
  {
    if schedule == [] {
    } else {
      var next := Step(w, schedule[0]);
      if !next.Fault? {
        RunAnswers(if next.Next? then next.state else w, schedule[1..]);
      }
    }
  }

  /** One step of a run. */
  lemma Runs(w: World, a: Action, w': World, rest: seq<Action>)
    requires Step(w, a) == Next(w')
    ensures Run(w, [a] + rest) == Run(w', rest)
  {
    assert ([a] + rest)[1..] == rest;
  }

  /** The loop after its first connection. */
  function OneOpen(): World {
    Init().(next := 1, conns := Init().conns[0 := Connection.ConnectEstablished(NewConn()).state],
            connections := Init().connections + {0})
  }

  /** One connection is accepted, and the loop is back at its poll. */
  function Opening(): seq<Action> {
    [Poll([Accept([])])] + ([Handle] + ([Swap] + ([EndBatch] + [])))
  }

  lemma Opens()
    ensures Run(Init(), Opening()) == Next(OneOpen()) && Inv(OneOpen())
  {
    var w1 := Init().(phase := Handling, active := [Accept([])]);
    var w2 := OneOpen().(phase := Handling);
    var w3 := OneOpen().(phase := Running);
    assert w1.active[1..] == [];
    Runs(Init(), Poll([Accept([])]), w1, [Handle] + ([Swap] + ([EndBatch] + [])));
    Runs(w1, Handle, w2, [Swap] + ([EndBatch] + []));
    Runs(w2, Swap, w3, [EndBatch] + []);
    Runs(w3, EndBatch, OneOpen(), []);
    UpOk();
  }

  function Hangup(id: Id, revents: Mask, r: WriteResult): Item {
    Ready(id, revents, B.Delivered([]), r, [])
  }

  /** A poll that reports that hang-up can always come while the connection is open. */
  lemma HangupPolled(w: World, id: Id, item: Item)
    requires Inv(w) && w.phase.Polling? && id in w.connections && item.Ready? && item.id == id
    ensures var w1 := w.(phase := Handling, active := [item]);
      Step(w, Poll([item])) == Next(w1) && Inv(w1)
  {
    assert ConnOk(w.conns[id], true, OwedBy(w, id), id in w.late);
    assert Reportable(w, [item]);
    PollKeeps(w, [item]);
  }

  /** Whenever a connection is open at a poll, the kernel can report a hang-up without
      readability; the read finds the end, and the assertion that one entry goes fails. */
  lemma RudeEventFailsFrom(w: World, id: Id, r: WriteResult)
    requires Inv(w) && w.phase.Polling? && id in w.connections
    ensures Run(w, [Poll([Hangup(id, {EPOLLRDHUP}, r)])] + [Handle]).Fault?
  {
    var item := Hangup(id, {EPOLLRDHUP}, r);
    var w1 := w.(phase := Handling, active := [item]);
    HangupPolled(w, id, item);
    Runs(w, Poll([item]), w1, [Handle]);
    EventFailsIff(w1);
  }

  /** And it does in a run from the start. */
  lemma RudeEventFails(r: WriteResult)
    ensures Run(Init(), Opening() + ([Poll([Hangup(0, {EPOLLRDHUP}, r)])] + [Handle])).Fault?
  {
    Opens();
    RunConcat(Init(), Opening(), [Poll([Hangup(0, {EPOLLRDHUP}, r)])] + [Handle]);
    RudeEventFailsFrom(OneOpen(), 0, r);
  }

  lemma HangupCloses(w: World, id: Id, item: Item)
    requires Inv(w) && w.phase.Polling? && id in w.connections
    requires item.Ready? && item.id == id && item.revents == {EPOLLIN, EPOLLRDHUP} && IsEof(item.delivery)
    ensures Close(w.(phase := Handling), id).Next?
    ensures Step(w.(phase := Handling, active := [item]), Handle) == Close(w.(phase := Handling), id)
  {
    var w0, w1 := w.(phase := Handling), w.(phase := Handling, active := [item]);
    assert w1.active[1..] == [] && w.active == [];
    assert EPOLLIN in item.revents * READ_EVENT;
    assert ConnOk(w.conns[id], true, OwedBy(w, id), id in w.late);
    CloseOk(w.conns[id], id in w.late);
    assert Dispatch(item.revents) == [OnRead] && [OnRead][1..] == [];
    assert OneCallback(w0, item, OnRead) == Close(w0, id);
    assert Callbacks(w0, item, [OnRead]) == Close(w0, id);
  }

  /** The deferred `connectDestroyed`, and right behind it another thread's send. */
  lemma BothRun(w: World, id: Id, message: seq<B.Byte>)
    requires w.phase.Running? && w.batch == [Destroy(id), SendLater(id, message, WriteFailed)]
    requires id in w.conns && Alive(w.conns[id]) && w.conns[id].registered && message != []
    ensures var o := Run(w, [RunTask([])] + ([RunTask([])] + [EndBatch]));
      && o.Next? && o.state.phase.Polling? && o.state.connections == w.connections && id in o.state.conns
      && o.state.conns[id].state.Disconnected? && o.state.conns[id].registered && o.state.conns[id].writing
  {
    var w1 := Destroyed(w, id).state;
    assert w.batch[1..] == [SendLater(id, message, WriteFailed)] && w1.batch[1..] == [];
    var w2 := QueuedSend(w1.(batch := []), id, message, WriteFailed);
    Runs(w, RunTask([]), w1, [RunTask([])] + [EndBatch]);
    Runs(w1, RunTask([]), w2, [EndBatch]);
    assert [EndBatch][1..] == [];
  }

  /** Another thread's send, and the loop back to its poll. */
  function LateSend(id: Id, message: seq<B.Byte>): seq<Action> {
    [Foreign(SendLater(id, message, WriteFailed))] +
    ([Swap] + ([RunTask([])] + ([RunTask([])] + [EndBatch])))
  }

  lemma SendAfterClose(w: World, id: Id, message: seq<B.Byte>)
    requires w.phase.Handling? && w.active == [] && w.pending == [Destroy(id)] && message != []
    requires id in w.conns && Alive(w.conns[id]) && w.conns[id].registered
    ensures var o := Run(w, LateSend(id, message));
      && o.Next? && o.state.phase.Polling? && o.state.connections == w.connections && id in o.state.conns
      && o.state.conns[id].state.Disconnected? && o.state.conns[id].registered
  {
    var late := SendLater(id, message, WriteFailed);
    var w1 := w.(pending := [Destroy(id), late]);
    assert w.pending + [late] == [Destroy(id), late];
    var w2 := w1.(phase := Running, batch := w1.pending, pending := []);
    var r := [RunTask([])] + ([RunTask([])] + [EndBatch]);
    Runs(w, Foreign(late), w1, [Swap] + r);
    Runs(w1, Swap, w2, r);
    BothRun(w2, id, message);
  }

  /** Whenever a connection is open at a poll with nothing pending, the peer can close it
      and another thread's send arrive behind the deferred `connectDestroyed`: at the next
      poll the destroyed connection is back in the poller. */
  lemma LateSendRevives(w: World, id: Id, message: seq<B.Byte>, r: WriteResult)
    requires Inv(w) && w.phase.Polling? && id in w.connections && w.pending == [] && message != []
    ensures var o := Run(w, [Poll([Hangup(id, {EPOLLIN, EPOLLRDHUP}, r)])] + ([Handle] + LateSend(id, message)));
      && o.Next? && o.state.phase.Polling? && id !in o.state.connections && id in o.state.conns
      && o.state.conns[id].state.Disconnected? && o.state.conns[id].registered
  {
    var item := Hangup(id, {EPOLLIN, EPOLLRDHUP}, r);
    HangupPolled(w, id, item);
    HangupCloses(w, id, item);
    var w1, w2 := w.(phase := Handling, active := [item]), Close(w.(phase := Handling), id).state;
    Runs(w, Poll([item]), w1, [Handle] + LateSend(id, message));
    Runs(w1, Handle, w2, LateSend(id, message));
    assert ConnOk(w.conns[id], true, OwedBy(w, id), id in w.late);
    assert [] + [Destroy(id)] == [Destroy(id)];
    SendAfterClose(w2, id, message);
  }
}
