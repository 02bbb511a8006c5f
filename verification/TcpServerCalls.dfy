/** The server loop seen from one connection and from the application: what each event and
    each deferred call does, and that every deferred call runs once, in order. */
module TcpServerCalls {
  import opened Wrappers
  import opened Histories
  import opened Connection
  import opened Epoller
  import opened TcpServer
  import B = Buffer

  // ---------- The calls of an application, connection by connection ----------

  function CallOn(call: UserCall, id: Id): seq<Call> {
    match call
    case Tell(k, message, r) => if k == id then [Sends(message, r)] else []
    case HangUp(k) => if k == id then [Shuts] else []
    case Defer(_) => []
  }

  /** The calls that reach one connection. */
  function CallsOn(calls: seq<UserCall>, id: Id): seq<Call> {
    if calls == [] then [] else CallOn(calls[0], id) + CallsOn(calls[1..], id)
  }

  function DeferredBy(call: UserCall): seq<Task> {
    match call
    case Defer(calls) => [Other(calls)]
    case _ => []
  }

  /** The functions that the calls defer. */
  function Deferred(calls: seq<UserCall>): seq<Task> {
    if calls == [] then [] else DeferredBy(calls[0]) + Deferred(calls[1..])
  }

  /** The connection after the calls that reach it. */
  function Served(c: Conn, calls: seq<UserCall>, id: Id): Conn {
    Connection.Run(c, CallsOn(calls, id), false)
  }

  lemma {:induction false} RunJoins(c: Conn, xs: seq<Call>, ys: seq<Call>)
    ensures Connection.Run(c, xs + ys, false) == Connection.Run(Connection.Run(c, xs, false), ys, false)
    decreases |xs|
  {
    if xs == [] {
      assert xs + ys == ys;
    } else {
      assert (xs + ys)[1..] == xs[1..] + ys;
      RunJoins(if Possible(c, xs[0]) then Apply(c, xs[0], false) else c, xs[1..], ys);
    }
  }

  /** Nothing but the connections and the pending calls differs. */
  predicate SameLoop(w: World, w': World) {
    && w'.phase == w.phase && w'.next == w.next && w'.connections == w.connections
    && w'.batch == w.batch && w'.active == w.active && w'.late == w.late
    && w'.conns.Keys == w.conns.Keys
  }

  lemma OneCallServes(w: World, call: UserCall, id: Id)
    requires id in w.conns
    ensures var w' := OneUserCall(w, call);
      && SameLoop(w, w') && w'.pending == w.pending + DeferredBy(call)
      && w'.conns[id] == Connection.Run(w.conns[id], CallOn(call, id), false)
  {
    var w' := OneUserCall(w, call);
    assert w'.conns.Keys == w.conns.Keys;
    assert w.pending + [] == w.pending;
    assert [Shuts][1..] == [];
    if call.Tell? {
      assert [Sends(call.message, call.w)][1..] == [];
    }
  }

  /** An application's calls are, for each connection, the calls that reach it, in order, and
      for the loop the functions they defer, in order. */
  lemma {:induction false} CallsServe(w: World, calls: seq<UserCall>, id: Id)
    requires id in w.conns
    ensures var w' := UserCalls(w, calls);
      && SameLoop(w, w') && w'.pending == w.pending + Deferred(calls)
      && w'.conns[id] == Served(w.conns[id], calls, id)
    decreases |calls|
  {
    if calls == [] {
      assert w.pending + [] == w.pending;
    } else {
      OneCallServes(w, calls[0], id);
      CallsServe(OneUserCall(w, calls[0]), calls[1..], id);
      RunJoins(w.conns[id], CallOn(calls[0], id), CallsOn(calls[1..], id));
      assert (w.pending + DeferredBy(calls[0])) + Deferred(calls[1..]) ==
        w.pending + (DeferredBy(calls[0]) + Deferred(calls[1..]));
    }
  }

  /** The same without a connection to look at. */
  lemma {:induction false} CallsDefer(w: World, calls: seq<UserCall>)
    ensures var w' := UserCalls(w, calls); SameLoop(w, w') && w'.pending == w.pending + Deferred(calls)
    decreases |calls|
  {
    if calls == [] {
      assert w.pending + [] == w.pending;
    } else {
      assert w.pending + [] == w.pending;
      assert OneUserCall(w, calls[0]).conns.Keys == w.conns.Keys;
      CallsDefer(OneUserCall(w, calls[0]), calls[1..]);
      assert (w.pending + DeferredBy(calls[0])) + Deferred(calls[1..]) ==
        w.pending + (DeferredBy(calls[0]) + Deferred(calls[1..]));
    }
  }

  lemma {:induction false} ServedTrace(c: Conn, calls: seq<Call>)
    ensures Connection.Run(c, calls, false).trace == c.trace
    decreases |calls|
  {
    if calls == [] {
    } else if Possible(c, calls[0]) {
      SameTrace(c, calls[0]);
      ServedTrace(Apply(c, calls[0], false), calls[1..]);
    } else {
      ServedTrace(c, calls[1..]);
    }
  }

  // ---------- One event ----------

  /** The event closes the connection. */
  predicate Closing(item: Item)
    requires item.Ready?
  {
    (EPOLLRDHUP in item.revents && EPOLLIN !in item.revents) || (Listens(item.revents) && IsEof(item.delivery))
  }

  /** The event brings a message. */
  predicate Telling(item: Item)
    requires item.Ready?
  {
    Listens(item.revents) && item.delivery.Delivered? && !IsEof(item.delivery)
  }

  /** A connection closed by an event: nothing is of interest any more. */
  function Closed(c: Conn): Conn {
    c.(reading := false, writing := false, closes := c.closes + 1)
  }

  /** What the event makes of its own connection: closed, told, written, in this order. */
  function EventOn(c: Conn, item: Item): Conn
    requires item.Ready?
  {
    var c1 := if Closing(item) then Closed(c) else c;
    var c2 := if Telling(item) then Served(c1.(trace := c1.trace + [Message]), item.calls, item.id) else c1;
    if EPOLLOUT in item.revents && Fits(item.w, |c2.output|) then Connection.HandleWrite(c2, item.w, false) else c2
  }

  lemma {:induction false} CallbacksJoin(w: World, item: Item, xs: seq<Callback>, ys: seq<Callback>)
    requires item.Ready? && item.id in w.conns && Callbacks(w, item, xs).Next?
    ensures Callbacks(w, item, xs + ys) == Callbacks(Callbacks(w, item, xs).state, item, ys)
    decreases |xs|
  {
    if xs == [] {
      assert xs + ys == ys;
    } else {
      assert (xs + ys)[1..] == xs[1..] + ys;
      var w1 := OneCallback(w, item, xs[0]).state;
      if xs[1..] == [] {
        assert xs[1..] + ys == ys;
      } else {
        CallbacksJoin(w1, item, xs[1..], ys);
      }
    }
  }

  function If(b: bool, callback: Callback): seq<Callback> {
    if b then [callback] else []
  }

  lemma AtMostOne(w: World, item: Item, b: bool, callback: Callback)
    requires item.Ready? && item.id in w.conns
    ensures Callbacks(w, item, If(b, callback)) ==
      if !b then Next(w) else match OneCallback(w, item, callback) case Next(w1) => Next(w1) case _ => Fault
  {
    if b {
      assert If(b, callback)[1..] == [];
    }
  }

  lemma CloseEffect(w: World, id: Id)
    requires id in w.conns && Close(w, id).Next?
    ensures var w', c := Close(w, id).state, w.conns[id];
      && w'.conns == w.conns[id := Closed(c)]
      && w'.connections == w.connections - {id} && w'.pending == w.pending + [Destroy(id)]
      && w'.phase == w.phase && w'.active == w.active
  {
  }

  lemma TellEffect(w: World, item: Item, k: Id)
    requires item.Ready? && item.id in w.conns && k in w.conns && item.delivery.Delivered? && !IsEof(item.delivery)
    ensures OneCallback(w, item, OnRead).Next?
    ensures var w', c := OneCallback(w, item, OnRead).state, w.conns[item.id];
      && SameLoop(w, w') && w'.pending == w.pending + Deferred(item.calls)
      && w'.conns[k] == Served(if k == item.id then c.(trace := c.trace + [Message]) else w.conns[k], item.calls, k)
  {
    var c := w.conns[item.id];
    var w1 := w.(conns := w.conns[item.id := c.(trace := c.trace + [Message])]);
    assert w1.conns.Keys == w.conns.Keys;
    CallsServe(w1, item.calls, k);
  }

  /** The close stage of an event. */
  lemma CloseStage(w: World, item: Item)
    requires Inv(w) && w.phase.Handling? && item.Ready? && item.id in w.connections && Unready(w.active, item.id)
    ensures item.id in w.conns
    ensures Callbacks(w, item, If(EPOLLRDHUP in item.revents && EPOLLIN !in item.revents, OnClose)).Next?
    ensures var w' := Callbacks(w, item, If(EPOLLRDHUP in item.revents && EPOLLIN !in item.revents, OnClose)).state;
      if EPOLLRDHUP in item.revents && EPOLLIN !in item.revents then Close(w, item.id) == Next(w') else w' == w
  {
    var b := EPOLLRDHUP in item.revents && EPOLLIN !in item.revents;
    assert ConnOk(w.conns[item.id], true, OwedBy(w, item.id), item.id in w.late);
    CloseKeeps(w, item.id);
    AtMostOne(w, item, b, OnClose);
  }

  /** What connection `k` is after the read. */
  function ReadOn(c: Conn, item: Item, k: Id): Conn
    requires item.Ready?
  {
    var c1 := if k == item.id && Closing(item) then Closed(c) else c;
    if !Telling(item) then c1
    else Served(if k == item.id then c1.(trace := c1.trace + [Message]) else c1, item.calls, k)
  }

  /** What a state has become through the close and the read of an event, as seen from
      connection `k`. */
  predicate Read(w: World, item: Item, k: Id, w': World)
    requires item.Ready? && k in w.conns
  {
    && w'.conns.Keys == w.conns.Keys && w'.phase == w.phase && w'.active == w.active
    && w'.connections == (if Closing(item) then w.connections - {item.id} else w.connections)
    && w'.pending == w.pending + (if Closing(item) then [Destroy(item.id)] else []) +
         (if Telling(item) then Deferred(item.calls) else [])
    && w'.conns[k] == ReadOn(w.conns[k], item, k)
  }

  lemma ReadStage(w: World, item: Item, k: Id)
    requires Inv(w) && w.phase.Handling? && item.Ready? && item.id in w.connections && Unready(w.active, item.id)
    requires !Rude(item) && k in w.conns
    ensures item.id in w.conns
    ensures Callbacks(w, item, ToRead(item)).Next? && Read(w, item, k, Callbacks(w, item, ToRead(item)).state)
  {
    var close := If(EPOLLRDHUP in item.revents && EPOLLIN !in item.revents, OnClose);
    var error, read := If(EPOLLERR in item.revents, OnError), If(Listens(item.revents), OnRead);
    CloseStage(w, item);
    var w1 := Callbacks(w, item, close).state;
    if close != [] {
      CloseEffect(w, item.id);
    }
    CallbacksJoin(w, item, close, error);
    AtMostOne(w1, item, EPOLLERR in item.revents, OnError);
    CallbacksJoin(w, item, close + error, read);
    AtMostOne(w1, item, Listens(item.revents), OnRead);
    ReadOnly(w, item, k, w1);
  }

  /** The callbacks of an event up to its read. */
  function ToRead(item: Item): seq<Callback>
    requires item.Ready?
  {
    If(EPOLLRDHUP in item.revents && EPOLLIN !in item.revents, OnClose) + If(EPOLLERR in item.revents, OnError) +
    If(Listens(item.revents), OnRead)
  }

  /** The read itself, on what the close stage left. */
  lemma ReadOnly(w: World, item: Item, k: Id, w1: World)
    requires Inv(w) && w.phase.Handling? && item.Ready? && item.id in w.connections && Unready(w.active, item.id)
    requires !Rude(item) && k in w.conns && item.id in w.conns
    requires if EPOLLRDHUP in item.revents && EPOLLIN !in item.revents then Close(w, item.id) == Next(w1) else w1 == w
    ensures item.id in w1.conns
    ensures Listens(item.revents) ==>
      OneCallback(w1, item, OnRead).Next? && Read(w, item, k, OneCallback(w1, item, OnRead).state)
    ensures !Listens(item.revents) ==> Read(w, item, k, w1)
  {
    if EPOLLRDHUP in item.revents && EPOLLIN !in item.revents {
      assert EPOLLRDHUP in item.revents * READ_EVENT;
      ClosedThenRead(w, item, k, w1);
    } else if Listens(item.revents) && IsEof(item.delivery) {
      ReadEnd(w, item, k);
    } else {
      OpenRead(w, item, k);
    }
  }

  /** A connection closed before its read, which then does not find the end. */
  lemma ClosedThenRead(w: World, item: Item, k: Id, w1: World)
    requires item.Ready? && item.id in w.conns && k in w.conns && Closing(item) && !IsEof(item.delivery)
    requires Close(w, item.id) == Next(w1)
    ensures item.id in w1.conns
    ensures OneCallback(w1, item, OnRead).Next?
    ensures Listens(item.revents) ==> Read(w, item, k, OneCallback(w1, item, OnRead).state)
    ensures !Listens(item.revents) ==> Read(w, item, k, w1)
  {
    CloseEffect(w, item.id);
    assert w1.conns.Keys == w.conns.Keys;
    Padded(w.pending, [Destroy(item.id)]);
    if item.delivery.Delivered? {
      TellEffect(w1, item, k);
    }
  }

  lemma ReadEnd(w: World, item: Item, k: Id)
    requires Inv(w) && w.phase.Handling? && item.Ready? && item.id in w.connections && Unready(w.active, item.id)
    requires k in w.conns && item.id in w.conns && Listens(item.revents) && IsEof(item.delivery)
    ensures OneCallback(w, item, OnRead).Next? && Read(w, item, k, OneCallback(w, item, OnRead).state)
  {
    assert ConnOk(w.conns[item.id], true, OwedBy(w, item.id), item.id in w.late);
    CloseKeeps(w, item.id);
    CloseEffect(w, item.id);
    assert OneCallback(w, item, OnRead).state.conns.Keys == w.conns.Keys;
    Padded(w.pending, [Destroy(item.id)]);
  }

  /** A read that does not find the end, of a connection not closed. */
  lemma OpenRead(w: World, item: Item, k: Id)
    requires item.Ready? && item.id in w.conns && k in w.conns && !Closing(item)
    ensures Listens(item.revents) ==>
      OneCallback(w, item, OnRead).Next? && Read(w, item, k, OneCallback(w, item, OnRead).state)
    ensures !Listens(item.revents) ==> Read(w, item, k, w)
  {
    Padded(w.pending, []);
    Padded(w.pending, Deferred(item.calls));
    if Telling(item) {
      TellEffect(w, item, k);
    }
  }

  lemma Padded(xs: seq<Task>, ys: seq<Task>)
    ensures xs + ys + [] == xs + ys && xs + [] == xs
  {
  }

  /** The last stage of an event. */
  function Finish(w: World, item: Item): Outcome<World>
    requires item.Ready? && item.id in w.conns
  {
    if EPOLLOUT in item.revents then OneCallback(w, item, OnWrite) else Next(w)
  }

  lemma EventStages(w: World)
    requires Inv(w) && w.phase.Handling? && w.active != [] && w.active[0].Ready? && !Rude(w.active[0])
    ensures var w0, item := w.(active := w.active[1..]), w.active[0];
      && Inv(w0) && item.id in w0.connections && item.id in w0.conns && Unready(w0.active, item.id)
      && Callbacks(w0, item, ToRead(item)).Next?
      && item.id in Callbacks(w0, item, ToRead(item)).state.conns
      && Step(w, Handle) == Finish(Callbacks(w0, item, ToRead(item)).state, item)
  {
    var item := w.active[0];
    var w0 := w.(active := w.active[1..]);
    HandleShrinks(w);
    assert item.id in w0.conns;
    ReadStage(w0, item, item.id);
    var w1 := Callbacks(w0, item, ToRead(item)).state;
    CallbacksJoin(w0, item, ToRead(item), If(EPOLLOUT in item.revents, OnWrite));
    AtMostOne(w1, item, EPOLLOUT in item.revents, OnWrite);
    assert Dispatch(item.revents) == ToRead(item) + If(EPOLLOUT in item.revents, OnWrite);
  }

  /** What the last stage makes of a state: the write touches its own connection and nothing
      else. */
  predicate Finished(w: World, item: Item, k: Id, w': World)
    requires item.Ready? && k in w.conns
  {
    && SameLoop(w, w') && w'.pending == w.pending
    && w'.conns[k] == WrittenOut(w.conns[k], item, k)
  }

  function WrittenOut(c: Conn, item: Item, k: Id): Conn
    requires item.Ready?
  {
    if k == item.id && EPOLLOUT in item.revents && Fits(item.w, |c.output|)
    then Connection.HandleWrite(c, item.w, false) else c
  }

  lemma FinishEffect(w: World, item: Item, k: Id)
    requires item.Ready? && item.id in w.conns && k in w.conns
    ensures Finish(w, item).Next? && Finished(w, item, k, Finish(w, item).state)
  {
    assert Finish(w, item).state.conns.Keys == w.conns.Keys;
  }

  /** What an event defers: the `connectDestroyed` of a close, then what the application
      defers. */
  function QueuedByEvent(item: Item): seq<Task>
    requires item.Ready?
  {
    (if Closing(item) then [Destroy(item.id)] else []) + (if Telling(item) then Deferred(item.calls) else [])
  }

  /** What an event makes of connection `k`. */
  function Reached(c: Conn, item: Item, k: Id): Conn
    requires item.Ready?
  {
    if k == item.id then EventOn(c, item) else if Telling(item) then Served(c, item.calls, k) else c
  }

  /** What the event has done when it is handled. */
  predicate Handled(w: World, item: Item, k: Id, w': World)
    requires item.Ready? && k in w.conns
  {
    && k in w'.conns && w'.active == w.active && w'.phase == w.phase
    && w'.connections == (if Closing(item) then w.connections - {item.id} else w.connections)
    && w'.pending == w.pending + QueuedByEvent(item)
    && w'.conns[k] == Reached(w.conns[k], item, k)
  }

  lemma ReadThenWritten(c: Conn, item: Item, k: Id)
    requires item.Ready?
    ensures WrittenOut(ReadOn(c, item, k), item, k) == Reached(c, item, k)
  {
  }

  lemma StagesJoin(w: World, item: Item, k: Id, w1: World, w2: World)
    requires item.Ready? && k in w.conns && Read(w, item, k, w1) && Finished(w1, item, k, w2)
    ensures Handled(w, item, k, w2)
  {
    ReadThenWritten(w.conns[k], item, k);
    Regroup(w.pending, if Closing(item) then [Destroy(item.id)] else [],
             if Telling(item) then Deferred(item.calls) else []);
  }

  /** What one event of an open connection does. To its own connection: the close, the message
      with what the application does in return, and the write, in this order; to every other:
      what the application does, if there is a message. The map loses the connection exactly
      if it is closed, whose `connectDestroyed` is then deferred, before what the application
      defers. */
  lemma EventOutcome(w: World, k: Id)
    requires Inv(w) && w.phase.Handling? && w.active != [] && w.active[0].Ready? && !Rude(w.active[0]) && k in w.conns
    ensures Step(w, Handle).Next?
    ensures Handled(w.(active := w.active[1..]), w.active[0], k, Step(w, Handle).state)
  {
    var item, w0 := w.active[0], w.(active := w.active[1..]);
    EventStages(w);
    ReadStage(w0, item, k);
    var w1 := Callbacks(w0, item, ToRead(item)).state;
    FinishEffect(w1, item, k);
    StagesJoin(w0, item, k, w1, Finish(w1, item).state);
  }

  /** What that means for the event's own connection: the application is told of the message
      exactly if there is one, what it sends in return is accepted, and, unless it closes,
      writes, or has nothing waiting, a writable event gets out what the write takes. */
  lemma EventTells(c: Conn, item: Item)
    requires item.Ready?
    ensures var c' := EventOn(c, item);
      && c'.trace == c.trace + (if Telling(item) then [Message] else [])
      && c'.accepted == c.accepted +
           (if Telling(item) then Asked(CallsOn(item.calls, item.id), c.state.Connected?) else [])
      && c'.closes == c.closes + (if Closing(item) then 1 else 0)
    ensures !Closing(item) && !Telling(item) && EPOLLOUT in item.revents && Fits(item.w, |c.output|) ==>
      Ordered(c) && c.writing ==>
      var n := if item.w.Wrote? then item.w.n else 0;
      |c.wire| + n <= |c.accepted| && EventOn(c, item).wire == c.accepted[..|c.wire| + n]
  {
    var c1 := if Closing(item) then Closed(c) else c;
    var told := c1.(trace := c1.trace + [Message]);
    var c2 := if Telling(item) then Served(told, item.calls, item.id) else c1;
    assert c.accepted + [] == c.accepted && c.trace + [] == c.trace;
    ServedTrace(told, CallsOn(item.calls, item.id));
    ServedCloses(told, CallsOn(item.calls, item.id));
    AcceptedAsAsked(told, CallsOn(item.calls, item.id), false);
    if EPOLLOUT in item.revents && Fits(item.w, |c2.output|) {
      SameTrace(c2, Writable(item.w));
      AcceptedByWrite(c2, item.w, false);
      if Ordered(c2) && c2.writing {
        WriteGetsOut(c2, item.w, false);
      }
    }
  }

  lemma {:induction false} ServedCloses(c: Conn, calls: seq<Call>)
    ensures Connection.Run(c, calls, false).closes == c.closes
    decreases |calls|
  {
    if calls == [] {
    } else if Possible(c, calls[0]) {
      SameTrace(c, calls[0]);
      ServedCloses(Apply(c, calls[0], false), calls[1..]);
    } else {
      ServedCloses(c, calls[1..]);
    }
  }

  // ---------- The other handlers and the deferred calls ----------

  /** The acceptor's event: a new connection, told UP, and then what the application does; any
      other handler: what the application does. */
  lemma HandlerOutcome(w: World, k: Id)
    requires Inv(w) && w.phase.Handling? && w.active != [] && !w.active[0].Ready?
    ensures Step(w, Handle).Next?
    ensures var w', item := Step(w, Handle).state, w.active[0];
      && w'.pending == w.pending + Deferred(item.calls) && w'.active == w.active[1..]
      && w'.connections == (if item.Accept? then w.connections + {w.next} else w.connections)
      && (k in w.conns ==> k in w'.conns && w'.conns[k] == Served(w.conns[k], item.calls, k))
      && (item.Accept? && k == w.next ==>
            k in w'.conns && w'.conns[k] == Served(Connection.ConnectEstablished(NewConn()).state, item.calls, k))
  {
    var item := w.active[0];
    var w0 := w.(active := w.active[1..]);
    HandleShrinks(w);
    if item.Accept? {
      AcceptKeeps(w0);
      var w1 := NewConnection(w0).state;
      CallsDefer(w1, item.calls);
      if k in w1.conns {
        CallsServe(w1, item.calls, k);
      }
    } else {
      CallsDefer(w0, item.calls);
      if k in w0.conns {
        CallsServe(w0, item.calls, k);
      }
    }
  }

  /** What a deferred call makes of connection `k`. */
  function TaskOn(c: Conn, k: Id, task: Task, onDown: seq<UserCall>): Conn {
    match task
    case Other(calls) => Served(c, calls, k)
    case SendLater(id, message, r) => if k == id then Connection.Run(c, [Queued(message, r)], false) else c
    case Destroy(id) =>
      var c1 := if k != id then c
        else c.(state := Disconnected, reading := false, writing := false, registered := false,
                trace := c.trace + [Down]);
      Served(c1, onDown, k)
  }

  /** The state a task leaves, seen from connection `k`. */
  predicate TaskDone(w: World, k: Id, task: Task, onDown: seq<UserCall>, o: Outcome<World>)
    requires k in w.conns
  {
    && o.Next? && k in o.state.conns && o.state.conns[k] == TaskOn(w.conns[k], k, task, onDown)
    && o.state.batch == w.batch && o.state.pending == w.pending + QueuedBy(task, onDown)
  }

  lemma OtherOutcome(w: World, calls: seq<UserCall>, onDown: seq<UserCall>, k: Id)
    requires k in w.conns
    ensures TaskDone(w, k, Other(calls), onDown, RunOne(w, Other(calls), onDown))
  {
    CallsServe(w, calls, k);
  }

  lemma DestroyOutcome(w: World, id: Id, onDown: seq<UserCall>, k: Id)
    requires k in w.conns && id in w.conns && Connection.ConnectDestroyed(w.conns[id]).Next?
    ensures TaskDone(w, k, Destroy(id), onDown, RunOne(w, Destroy(id), onDown))
  {
    var w1 := w.(conns := w.conns[id := Connection.ConnectDestroyed(w.conns[id]).state]);
    assert w1.conns.Keys == w.conns.Keys;
    CallsServe(w1, onDown, k);
  }

  lemma LateOutcome(w: World, id: Id, message: seq<B.Byte>, r: WriteResult, onDown: seq<UserCall>, k: Id)
    requires k in w.conns
    ensures TaskDone(w, k, SendLater(id, message, r), onDown, RunOne(w, SendLater(id, message, r), onDown))
  {
    var c, call := w.conns[k], Queued(message, r);
    assert [call][1..] == [];
    assert Connection.Run(c, [call], false) == if Fits(r, |message|) then SendInLoop(c, message, r, false) else c;
    assert w.pending + [] == w.pending;
  }

  lemma DestroyPossible(w: World, id: Id)
    requires Inv(w) && w.phase.Running? && w.batch != [] && w.batch[0] == Destroy(id)
    ensures id in w.conns && Connection.ConnectDestroyed(w.conns[id]).Next?
  {
    DestroyKeeps(w, id);
  }

  /** A deferred function does what it was queued to do, a queued send sends, and a
      `connectDestroyed` tells DOWN; each to its own connections only. */
  lemma TaskOutcome(w: World, onDown: seq<UserCall>, k: Id)
    requires Inv(w) && w.phase.Running? && w.batch != [] && k in w.conns
    ensures Step(w, RunTask(onDown)) == RunOne(w.(batch := w.batch[1..]), w.batch[0], onDown)
    ensures TaskDone(w.(batch := w.batch[1..]), k, w.batch[0], onDown, Step(w, RunTask(onDown)))
  {
    var w0 := w.(batch := w.batch[1..]);
    match w.batch[0]
    case Other(calls) => OtherOutcome(w0, calls, onDown, k);
    case SendLater(id, message, r) => LateOutcome(w0, id, message, r, onDown, k);
    case Destroy(id) =>
      DestroyPossible(w, id);
      DestroyOutcome(w0, id, onDown, k);
  }

  // ---------- Every deferred call runs once, in order ----------

  /** What running a deferred call defers. */
  function QueuedBy(task: Task, onDown: seq<UserCall>): seq<Task> {
    match task
    case Other(calls) => Deferred(calls)
    case Destroy(_) => Deferred(onDown)
    case _ => []
  }

  /** What this step defers. */
  function QueuedNow(w: World, a: Action): seq<Task> {
    match a
    case Foreign(task) => [task]
    case Handle =>
      if w.active == [] then []
      else if w.active[0].Ready? then QueuedByEvent(w.active[0])
      else Deferred(w.active[0].calls)
    case RunTask(onDown) => if w.batch == [] then [] else QueuedBy(w.batch[0], onDown)
    case _ => []
  }

  function After(w: World, a: Action): World {
    if Step(w, a).Next? then Step(w, a).state else w
  }

  /** What a run defers, in order. */
  function QueuedIn(w: World, schedule: seq<Action>): seq<Task>
    decreases |schedule|
  {
    if schedule == [] then []
    else
      (if Step(w, schedule[0]).Next? then QueuedNow(w, schedule[0]) else []) +
      QueuedIn(After(w, schedule[0]), schedule[1..])
  }

  function RanNow(w: World, a: Action): seq<Task> {
    if a.RunTask? && Step(w, a).Next? && w.batch != [] then [w.batch[0]] else []
  }

  /** The deferred calls that a run runs, in order. */
  function RanIn(w: World, schedule: seq<Action>): seq<Task>
    decreases |schedule|
  {
    if schedule == [] then [] else RanNow(w, schedule[0]) + RanIn(After(w, schedule[0]), schedule[1..])
  }

  /** The deferred calls not run yet, in order. */
  function Left(w: World): seq<Task> {
    w.batch + w.pending
  }

  /** A step runs the first of the batch, and defers behind everything else. */
  lemma StepQueues(w: World, a: Action)
    requires Inv(w) && Tame(w, a) && Step(w, a).Next?
    ensures RanNow(w, a) + Left(Step(w, a).state) == Left(w) + QueuedNow(w, a)
  {
    match a
    case Handle => HandleQueues(w);
    case RunTask(onDown) => TaskQueues(w, onDown);
    case _ =>
  }

  lemma TaskQueues(w: World, onDown: seq<UserCall>)
    requires Inv(w) && w.phase.Running? && w.batch != [] && Step(w, RunTask(onDown)).Next?
    ensures [w.batch[0]] + Left(Step(w, RunTask(onDown)).state) == Left(w) + QueuedNow(w, RunTask(onDown))
  {
    TaskDefers(w.(batch := w.batch[1..]), w.batch[0], onDown);
    Shifted(w.batch, w.pending, QueuedNow(w, RunTask(onDown)));
  }

  lemma TaskDefers(w: World, task: Task, onDown: seq<UserCall>)
    requires RunOne(w, task, onDown).Next?
    ensures var w' := RunOne(w, task, onDown).state;
      w'.batch == w.batch && w'.pending == w.pending + QueuedBy(task, onDown)
  {
    match task
    case Other(calls) => CallsDefer(w, calls);
    case Destroy(id) => CallsDefer(w.(conns := w.conns[id := Connection.ConnectDestroyed(w.conns[id]).state]), onDown);
    case _ => assert w.pending + [] == w.pending;
  }

  lemma HandleQueues(w: World)
    requires Inv(w) && Tame(w, Handle) && Step(w, Handle).Next?
    ensures Left(Step(w, Handle).state) == Left(w) + QueuedNow(w, Handle)
  {
    HandleShrinks(w);
    HandleBatch(w);
    if w.active[0].Ready? {
      EventOutcome(w, w.active[0].id);
    } else {
      HandlerOutcome(w, w.next);
    }
    Regroup(w.batch, w.pending, QueuedNow(w, Handle));
  }

  /** While events are handled there is no batch. */
  lemma HandleBatch(w: World)
    requires Inv(w) && Tame(w, Handle) && Step(w, Handle).Next?
    ensures Step(w, Handle).state.batch == w.batch == []
  {
    HandleKeeps(w);
    HandlePhase(w);
  }

  lemma HandlePhase(w: World)
    requires Inv(w) && Tame(w, Handle) && Step(w, Handle).Next?
    ensures Step(w, Handle).state.phase.Handling?
  {
    HandleShrinks(w);
    match w.active[0]
    case Accept(calls) =>
      AcceptKeeps(w.(active := w.active[1..]));
      CallsDefer(NewConnection(w.(active := w.active[1..])).state, calls);
    case Ready(_, _, _, _, _) => EventOutcome(w, w.active[0].id);
    case Elsewhere(calls) => CallsDefer(w.(active := w.active[1..]), calls);
  }

  lemma Shifted(batch: seq<Task>, pending: seq<Task>, queued: seq<Task>)
    requires batch != []
    ensures [batch[0]] + (batch[1..] + (pending + queued)) == batch + pending + queued
  {
    assert [batch[0]] + batch[1..] == batch;
  }

  lemma {:induction false} RunQueues(w: World, schedule: seq<Action>)
    requires Inv(w) && TameRun(w, schedule)
    ensures TcpServer.Run(w, schedule).Next?
    ensures RanIn(w, schedule) + Left(TcpServer.Run(w, schedule).state) == Left(w) + QueuedIn(w, schedule)
    decreases |schedule|
  {
    if schedule == [] {
      assert [] + Left(w) == Left(w) + [];
    } else {
      var a, rest := schedule[0], schedule[1..];
      StepKeepsInv(w, a);
      RunQueues(After(w, a), rest);
      var queued := if Step(w, a).Next? then QueuedNow(w, a) else [];
      if Step(w, a).Next? {
        StepQueues(w, a);
      } else {
        assert [] + Left(w) == Left(w) + [];
      }
      Chained(RanNow(w, a), RanIn(After(w, a), rest), Left(After(w, a)), Left(w), queued, QueuedIn(After(w, a), rest),
              Left(TcpServer.Run(w, schedule).state));
    }
  }

  lemma Chained(ran: seq<Task>, ranRest: seq<Task>, left: seq<Task>, start: seq<Task>, queued: seq<Task>,
        queuedRest: seq<Task>, end: seq<Task>)
    requires ran + left == start + queued && ranRest + end == left + queuedRest
    ensures (ran + ranRest) + end == start + (queued + queuedRest)
  {
    assert (ran + ranRest) + end == ran + (ranRest + end) == (ran + left) + queuedRest;
    assert (start + queued) + queuedRest == start + (queued + queuedRest);
  }

  /** In every tame run the deferred calls that have run, then the rest of the batch, then
      those pending, are those deferred, in order: by closes, by the application in its
      callbacks and in deferred functions, and by other threads. */
  lemma DeferredRunInOrder(schedule: seq<Action>)
    requires TameRun(Init(), schedule)
    ensures TcpServer.Run(Init(), schedule).Next?
    ensures var w := TcpServer.Run(Init(), schedule).state;
      RanIn(Init(), schedule) + (w.batch + w.pending) == QueuedIn(Init(), schedule)
  {
    RunQueues(Init(), schedule);
    assert Left(Init()) + QueuedIn(Init(), schedule) == QueuedIn(Init(), schedule);
  }
}
