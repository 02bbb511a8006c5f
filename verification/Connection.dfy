/** What a TCP connection is worth, and what each call on it does to that value. The
    environment decides how much a write accepts and what a read delivers. */
module Connection {
  import opened Wrappers
  import opened Histories
  import opened Buffer

  datatype ConnState = Connecting | Connected | Disconnecting | Disconnected

  /** A write takes a prefix of what it is given, or fails. */
  datatype WriteResult = WriteFailed | Wrote(n: nat)

  predicate Fits(w: WriteResult, size: nat) {
    w.Wrote? ==> w.n <= size
  }

  /** What the application is told. */
  datatype Event = Up | Message | Down

  /** `reading` and `writing` are the channel's interest bits and `registered` its flag.
      The rest is history: `wire` is what the socket took, `accepted` the concatenation
      of the messages handed to `sendInLoop`, `shutdowns` how often the write side was
      shut down, `completions` the write-complete callbacks queued, `closes` the calls
      of the close callback, and `trace` what the application was told. */
  datatype Conn = Conn(
    state: ConnState,
    reading: bool,
    writing: bool,
    registered: bool,
    output: seq<Byte>,
    wire: seq<Byte>,
    accepted: seq<Byte>,
    shutdowns: nat,
    completions: nat,
    closes: nat,
    trace: seq<Event>)

  function NewConn(): Conn {
    Conn(Connecting, false, false, false, [], [], [], 0, 0, 0, [])
  }

  // ---------- The calls ----------

  /** The guard of the direct write: interest off and a non-empty buffer. */
  predicate WritesDirectly(c: Conn) {
    !c.writing && c.output != []
  }

  /** How many bytes the direct write gets out. */
  function DirectBytes(c: Conn, w: WriteResult): nat {
    if WritesDirectly(c) && w.Wrote? then w.n else 0
  }

  /** The first half of `sendInLoop`: the direct write, if its guard holds. */
  function WrittenDirectly(c: Conn, message: seq<Byte>, w: WriteResult, notify: bool): Conn
    requires Fits(w, |message|)
  {
    var n := DirectBytes(c, w);
    c.(wire := c.wire + message[..n],
       completions := if WritesDirectly(c) && w.Wrote? && n == |message| && notify then c.completions + 1
         else c.completions)
  }

  /** The second half: what was not written waits, with write interest on. */
  function Waiting(c: Conn, rest: seq<Byte>): Conn {
    c.(output := c.output + rest, writing := true, registered := true)
  }

  function SendInLoop(c: Conn, message: seq<Byte>, w: WriteResult, notify: bool): Conn
    requires Fits(w, |message|)
  {
    var c0 := c.(accepted := c.accepted + message);
    var c1 := WrittenDirectly(c0, message, w, notify);
    var n := DirectBytes(c0, w);
    if n < |message| then Waiting(c1, message[n..]) else c1
  }

  /** `send` on the loop's thread. */
  function Send(c: Conn, message: seq<Byte>, w: WriteResult, notify: bool): Conn
    requires Fits(w, |message|)
  {
    if c.state.Connected? then SendInLoop(c, message, w, notify) else c
  }

  function ShutdownInLoop(c: Conn): Conn {
    if c.writing then c else c.(shutdowns := c.shutdowns + 1)
  }

  /** `shutdown` on the loop's thread. */
  function Shutdown(c: Conn): Conn {
    if c.state.Connected? then ShutdownInLoop(c.(state := Disconnecting)) else c
  }

  /** The first `n` waiting bytes go out. */
  function TakenOut(c: Conn, n: nat): Conn
    requires n <= |c.output|
  {
    c.(wire := c.wire + c.output[..n], output := c.output[n..])
  }

  /** The last one is out: interest goes off, the completion is queued, and a shutdown that
      was put off happens. */
  function Drained(c: Conn, notify: bool): Conn {
    var c1 := c.(writing := false, completions := if notify then c.completions + 1 else c.completions);
    if c.state.Disconnecting? then ShutdownInLoop(c1) else c1
  }

  function HandleWrite(c: Conn, w: WriteResult, notify: bool): Conn
    requires Fits(w, |c.output|)
  {
    if !c.writing || w.WriteFailed? || w.n == 0 then c
    else
      var c1 := TakenOut(c, w.n);
      if c1.output != [] then c1 else Drained(c1, notify)
  }

  function ConnectEstablished(c: Conn): Outcome<Conn> {
    if !c.state.Connecting? then Fault
    else Next(c.(state := Connected, reading := true, registered := true, trace := c.trace + [Up]))
  }

  function HandleClose(c: Conn): Outcome<Conn> {
    if !c.state.Connected? && !c.state.Disconnecting? then Fault
    else Next(c.(reading := false, writing := false, closes := c.closes + 1))
  }

  /** A read that delivers bytes is a message, one that delivers none is the end, and a
      failed one is only logged. */
  function HandleRead(c: Conn, delivery: Delivery): Outcome<Conn> {
    match delivery
    case Failed(_) => Next(c)
    case Delivered(bytes) => if bytes == [] then HandleClose(c) else Next(c.(trace := c.trace + [Message]))
  }

  function ConnectDestroyed(c: Conn): Outcome<Conn> {
    if (!c.state.Connected? && !c.state.Disconnecting?) || !c.registered then Fault
    else
      Next(c.(state := Disconnected, reading := false, writing := false, registered := false,
              trace := c.trace + [Down]))
  }

  // ---------- Runs of the output path ----------

  /** The calls that reach an open connection before `handleClose`. `Queued` is a
      `sendInLoop` that another thread's `send` queued earlier. */
  datatype Call =
    | Sends(message: seq<Byte>, w: WriteResult)
    | Queued(message: seq<Byte>, w: WriteResult)
    | Shuts
    | Writable(w: WriteResult)

  predicate Possible(c: Conn, call: Call) {
    match call
    case Sends(message, w) => Fits(w, |message|)
    case Queued(message, w) => Fits(w, |message|)
    case Shuts => true
    case Writable(w) => Fits(w, |c.output|)
  }

  function Apply(c: Conn, call: Call, notify: bool): Conn
    requires Possible(c, call)
  {
    match call
    case Sends(message, w) => Send(c, message, w, notify)
    case Queued(message, w) => SendInLoop(c, message, w, notify)
    case Shuts => Shutdown(c)
    case Writable(w) => HandleWrite(c, w, notify)
  }

  /** An impossible call of the environment is skipped. */
  function Run(c: Conn, calls: seq<Call>, notify: bool): Conn
    decreases |calls|
  {
    if calls == [] then c
    else Run(if Possible(c, calls[0]) then Apply(c, calls[0], notify) else c, calls[1..], notify)
  }

  /** Nothing reordered or lost, and write interest on exactly while bytes wait. */
  predicate Ordered(c: Conn) {
    && c.wire + c.output == c.accepted
    && (c.writing <==> c.output != [])
  }

  lemma SendKeepsOrder(c: Conn, message: seq<Byte>, w: WriteResult, notify: bool)
    requires Ordered(c) && Fits(w, |message|)
    ensures Ordered(SendInLoop(c, message, w, notify))
  {
    assert message[..0] == [] && message[0..] == message;
    assert c.wire + (c.output + message) == (c.wire + c.output) + message;
  }

  lemma WriteKeepsOrder(c: Conn, w: WriteResult, notify: bool)
    requires Ordered(c) && Fits(w, |c.output|)
    ensures Ordered(HandleWrite(c, w, notify))
  {
    if w.Wrote? {
      assert (c.wire + c.output[..w.n]) + c.output[w.n..] == c.wire + c.output;
    }
  }

  lemma ApplyKeepsOrder(c: Conn, call: Call, notify: bool)
    requires Ordered(c) && Possible(c, call)
    ensures Ordered(Apply(c, call, notify))
  {
    match call
    case Writable(w) => WriteKeepsOrder(c, w, notify);
    case Sends(message, w) => SendKeepsOrder(c, message, w, notify);
    case Queued(message, w) => SendKeepsOrder(c, message, w, notify);
    case Shuts =>
  }

  /** For every run of sends, queued sends, shutdowns and partial writes: the bytes on
      the wire followed by the bytes in the buffer are the messages in `sendInLoop`
      order, write interest is on exactly while the buffer is non-empty, and so the
      direct write is never taken. */
  lemma {:induction false} OutputInOrder(c: Conn, calls: seq<Call>, notify: bool)
    requires Ordered(c)
    ensures Ordered(Run(c, calls, notify)) && !WritesDirectly(Run(c, calls, notify))
    decreases |calls|
  {
    if calls == [] {
    } else if Possible(c, calls[0]) {
      ApplyKeepsOrder(c, calls[0], notify);
      OutputInOrder(Apply(c, calls[0], notify), calls[1..], notify);
    } else {
      OutputInOrder(c, calls[1..], notify);
    }
  }

  /** A write-complete callback is queued exactly by the call that empties the buffer. */
  lemma CompletionIff(c: Conn, call: Call, notify: bool)
    requires Ordered(c) && Possible(c, call)
    ensures var c' := Apply(c, call, notify);
      c'.completions == c.completions + if notify && c.output != [] && c'.output == [] then 1 else 0
  {
    ApplyKeepsOrder(c, call, notify);
  }

  // ---------- What is accepted is what callers sent ----------

  /** What a call brings, when sends are still accepted and when they are not. A queued send
      was accepted when it was queued. */
  function AskedNow(call: Call, open: bool): seq<Byte> {
    match call
    case Sends(message, w) => if open && Fits(w, |message|) then message else []
    case Queued(message, w) => if Fits(w, |message|) then message else []
    case _ => []
  }

  /** The messages of a run in call order: those sent before the first shutdown, and all
      queued ones. */
  function Asked(calls: seq<Call>, open: bool): seq<Byte> {
    if calls == [] then [] else AskedNow(calls[0], open) + Asked(calls[1..], open && !calls[0].Shuts?)
  }

  /** A call as it comes: an impossible one is skipped. */
  function Applied(c: Conn, call: Call, notify: bool): Conn {
    if Possible(c, call) then Apply(c, call, notify) else c
  }

  lemma AcceptedBySend(c: Conn, message: seq<Byte>, w: WriteResult, notify: bool)
    requires Fits(w, |message|)
    ensures var c' := SendInLoop(c, message, w, notify);
      c'.accepted == c.accepted + message && c'.state == c.state && c.wire <= c'.wire
  {
  }

  lemma AcceptedByWrite(c: Conn, w: WriteResult, notify: bool)
    requires Fits(w, |c.output|)
    ensures var c' := HandleWrite(c, w, notify);
      c'.accepted == c.accepted && c'.state == c.state && c.wire <= c'.wire
  {
  }

  lemma AcceptedByOne(c: Conn, call: Call, notify: bool)
    ensures var c' := Applied(c, call, notify);
      && c'.accepted == c.accepted + AskedNow(call, c.state.Connected?)
      && c'.state == (if call.Shuts? && c.state.Connected? then Disconnecting else c.state)
      && c.wire <= c'.wire
  {
    assert c.accepted + [] == c.accepted;
    if Possible(c, call) {
      match call
      case Sends(message, w) => AcceptedBySend(c, message, w, notify);
      case Queued(message, w) => AcceptedBySend(c, message, w, notify);
      case Writable(w) => AcceptedByWrite(c, w, notify);
      case Shuts =>
    }
  }

  /** For every connection and every run: what has been accepted is exactly what the calls
      brought, and a connected connection is disconnecting exactly after a shutdown. */
  lemma {:induction false} AcceptedAsAsked(c: Conn, calls: seq<Call>, notify: bool)
    ensures var c' := Run(c, calls, notify);
      && c'.accepted == c.accepted + Asked(calls, c.state.Connected?)
      && c'.state == (if Shuts in calls && c.state.Connected? then Disconnecting else c.state)
    decreases |calls|
  {
    if calls == [] {
      assert c.accepted + [] == c.accepted;
    } else {
      var c1 := Applied(c, calls[0], notify);
      AcceptedByOne(c, calls[0], notify);
      AcceptedAsAsked(c1, calls[1..], notify);
      Regroup(c.accepted, AskedNow(calls[0], c.state.Connected?), Asked(calls[1..], c1.state.Connected?));
      assert Shuts in calls <==> calls[0].Shuts? || Shuts in calls[1..];
    }
  }

  lemma {:induction false} WireOnlyGrows(c: Conn, calls: seq<Call>, notify: bool)
    ensures c.wire <= Run(c, calls, notify).wire
    decreases |calls|
  {
    if calls == [] {
    } else {
      AcceptedByOne(c, calls[0], notify);
      WireOnlyGrows(Applied(c, calls[0], notify), calls[1..], notify);
    }
  }

  /** A writable event with bytes waiting gets exactly what the write takes onto the wire, and
      it is the next of what was accepted. */
  lemma WriteGetsOut(c: Conn, w: WriteResult, notify: bool)
    requires Ordered(c) && c.writing && Fits(w, |c.output|)
    ensures var n := if w.Wrote? then w.n else 0;
      && |c.wire| + n <= |c.accepted|
      && HandleWrite(c, w, notify).wire == c.accepted[..|c.wire| + n]
  {
    assert c.accepted == c.wire + c.output;
  }

  // ---------- Graceful half-close ----------

  /** The write side is down exactly once the connection is disconnecting and every
      accepted byte is on the wire. */
  predicate HalfClosed(c: Conn) {
    && (c.state.Connected? || c.state.Disconnecting?)
    && c.shutdowns == if c.state.Disconnecting? && c.wire == c.accepted then 1 else 0
  }

  /** Bytes were accepted after the write side went down, which no later call mends: while
      they wait the shutdown came too early, and once they are out it comes again. */
  predicate Overdue(c: Conn) {
    c.state.Disconnecting? && c.shutdowns >= 1 && (c.wire == c.accepted ==> c.shutdowns >= 2)
  }

  /** A send queued by another thread is in time if it brings nothing or still finds the
      write side up. */
  predicate InTime(c: Conn, call: Call) {
    call.Queued? ==> call.message == [] || c.shutdowns == 0
  }

  lemma Lengths(c: Conn)
    requires Ordered(c)
    ensures c.wire == c.accepted <==> c.output == []
  {
    assert |c.wire| + |c.output| == |c.accepted|;
    assert c.output == [] ==> c.wire + [] == c.wire;
  }

  /** Every call keeps the half-close, but for a queued send exactly if it is in time. */
  lemma ApplyKeepsHalfCloseIff(c: Conn, call: Call, notify: bool)
    requires Ordered(c) && HalfClosed(c) && Possible(c, call)
    ensures HalfClosed(Apply(c, call, notify)) <==> InTime(c, call)
    ensures !InTime(c, call) ==> Overdue(Apply(c, call, notify))
  {
    ApplyKeepsOrder(c, call, notify);
    Lengths(c);
    Lengths(Apply(c, call, notify));
  }

  lemma ApplyKeepsOverdue(c: Conn, call: Call, notify: bool)
    requires Ordered(c) && Overdue(c) && Possible(c, call)
    ensures Overdue(Apply(c, call, notify))
  {
    ApplyKeepsOrder(c, call, notify);
    Lengths(c);
    Lengths(Apply(c, call, notify));
  }

  lemma {:induction false} RunKeepsOverdue(c: Conn, calls: seq<Call>, notify: bool)
    requires Ordered(c) && Overdue(c)
    ensures Overdue(Run(c, calls, notify))
    decreases |calls|
  {
    if calls == [] {
    } else if Possible(c, calls[0]) {
      ApplyKeepsOrder(c, calls[0], notify);
      ApplyKeepsOverdue(c, calls[0], notify);
      RunKeepsOverdue(Apply(c, calls[0], notify), calls[1..], notify);
    } else {
      RunKeepsOverdue(c, calls[1..], notify);
    }
  }

  /** Every queued send of the run is in time when its turn comes. */
  predicate AllInTime(c: Conn, calls: seq<Call>, notify: bool)
    decreases |calls|
  {
    calls == [] ||
    if Possible(c, calls[0])
    then InTime(c, calls[0]) && AllInTime(Apply(c, calls[0], notify), calls[1..], notify)
    else AllInTime(c, calls[1..], notify)
  }

  /** For every run of sends, queued sends, shutdowns and partial writes: the write side is
      shut down at most once, and exactly when a shutdown was asked for and every byte of
      every accepted message has been written, if and only if every queued send was in
      time. */
  lemma {:induction false} ShutdownAfterLastByte(c: Conn, calls: seq<Call>, notify: bool)
    requires Ordered(c) && HalfClosed(c)
    ensures HalfClosed(Run(c, calls, notify)) <==> AllInTime(c, calls, notify)
    decreases |calls|
  {
    if calls == [] {
    } else if Possible(c, calls[0]) {
      var c' := Apply(c, calls[0], notify);
      ApplyKeepsOrder(c, calls[0], notify);
      ApplyKeepsHalfCloseIff(c, calls[0], notify);
      if InTime(c, calls[0]) {
        ShutdownAfterLastByte(c', calls[1..], notify);
      } else {
        RunKeepsOverdue(c', calls[1..], notify);
      }
    } else {
      ShutdownAfterLastByte(c, calls[1..], notify);
    }
  }

  /** Both theorems hold of every connection from the moment it is established: what is
      on the wire is always a prefix of what was sent and the buffer is the rest; and the
      half-close is right exactly if every queued send was in time. */
  lemma FromEstablished(calls: seq<Call>, notify: bool)
    ensures ConnectEstablished(NewConn()).Next?
    ensures var c0 := ConnectEstablished(NewConn()).state;
      var c := Run(c0, calls, notify);
      && c.wire <= c.accepted && c.output == c.accepted[|c.wire|..]
      && c.accepted == Asked(calls, true)
      && c.state == (if Shuts in calls then Disconnecting else Connected)
      && (HalfClosed(c) <==> AllInTime(c0, calls, notify))
  {
    var c0 := ConnectEstablished(NewConn()).state;
    OutputInOrder(c0, calls, notify);
    ShutdownAfterLastByte(c0, calls, notify);
    AcceptedAsAsked(c0, calls, notify);
    assert [] + Asked(calls, true) == Asked(calls, true);
    var c := Run(c0, calls, notify);
    assert c.accepted == c.wire + c.output;
  }

  /** After a `shutdown` nothing is accepted but what other threads had queued; and if that
      comes in time, then once the write side is down it stays down, shut down once, with
      nothing more accepted or written. */
  lemma {:induction false} NothingAfterShutdown(c: Conn, calls: seq<Call>, notify: bool)
    requires Ordered(c) && HalfClosed(c) && c.state.Disconnecting?
    ensures var c' := Run(c, calls, notify);
      && c'.state.Disconnecting? && c'.accepted == c.accepted + Asked(calls, false) && c.wire <= c'.wire
      && (c.shutdowns == 1 && AllInTime(c, calls, notify) ==>
            c'.wire == c.wire && c'.accepted == c.accepted && c'.shutdowns == 1)
    decreases |calls|
  {
    AcceptedAsAsked(c, calls, notify);
    WireOnlyGrows(c, calls, notify);
    if c.shutdowns == 1 && AllInTime(c, calls, notify) {
      Lengths(c);
      Frozen(c, calls, notify);
    }
  }

  /** A connection whose write side is down and that has nothing waiting. */
  lemma {:induction false} Frozen(c: Conn, calls: seq<Call>, notify: bool)
    requires c.state.Disconnecting? && c.shutdowns == 1 && c.output == [] && !c.writing
    requires AllInTime(c, calls, notify)
    ensures var c' := Run(c, calls, notify);
      c'.wire == c.wire && c'.accepted == c.accepted && c'.shutdowns == 1
    decreases |calls|
  {
    if calls == [] {
    } else if Possible(c, calls[0]) {
      var c1 := Apply(c, calls[0], notify);
      assert c1.wire == c.wire && c1.accepted == c.accepted by {
        assert c.wire + [] == c.wire && c.accepted + [] == c.accepted;
      }
      Frozen(c1, calls[1..], notify);
    } else {
      Frozen(c, calls[1..], notify);
    }
  }

  // ---------- Where the promises end ----------

  /** A send keeps the byte order whatever the message and whatever the write accepts,
      exactly when the direct write's guard is false. */
  lemma OrderKeptIff(c: Conn)
    requires c.wire + c.output == c.accepted
    ensures (forall message, w, notify | Fits(w, |message|) ::
              var c' := SendInLoop(c, message, w, notify); c'.wire + c'.output == c'.accepted)
            <==> !WritesDirectly(c)
  {
    if WritesDirectly(c) {
      var other: Byte := if c.output[0] == 0 then 1 else 0;
      var c' := SendInLoop(c, [other], Wrote(1), false);
      var k := |c.wire|;
      assert (c'.wire + c'.output)[k] == other;
      assert c'.accepted[k] == c.output[0];
      assert Fits(Wrote(1), |[other]|);
    } else {
      forall message, w, notify | Fits(w, |message|)
        ensures var c' := SendInLoop(c, message, w, notify); c'.wire + c'.output == c'.accepted
      {
        assert message[..0] == [] && message[0..] == message;
      }
    }
  }

  /** `handleClose` turns interest off with bytes still waiting and leaves the state
      connected: the next message overtakes them on the wire. */
  lemma CloseLetsAMessageOvertake()
    ensures var c := Conn(Connected, true, true, true, [1], [], [1], 0, 0, 0, [Up]);
      && Ordered(c) && HandleClose(c).Next?
      && var c' := Send(HandleClose(c).state, [2], Wrote(1), false);
         c'.wire == [2] && c'.output == [1] && c'.accepted == [1, 2]
  {
    var c := Conn(Connected, true, true, true, [1], [], [1], 0, 0, 0, [Up]);
    var c' := Send(HandleClose(c).state, [2], Wrote(1), false);
    assert c'.wire == [2] && c'.accepted == [1, 2];
  }

  /** A `shutdown` of a connected connection cuts off bytes still waiting exactly when
      that guard is true. */
  lemma ShutdownCutsOffIff(c: Conn)
    requires c.state.Connected? && c.output != []
    ensures Shutdown(c).shutdowns > c.shutdowns <==> WritesDirectly(c)
  {
  }

  /** A queued send that is late is still buffered, written, and followed by a second
      shutdown. */
  lemma QueuedSendAfterShutdown()
    ensures var c := Conn(Connected, true, false, true, [], [], [], 0, 0, 0, [Up]);
      && Ordered(c) && HalfClosed(c)
      && Run(c, [Shuts, Queued([7], WriteFailed), Writable(Wrote(1))], false).shutdowns == 2
      && Run(c, [Shuts, Queued([7], WriteFailed), Writable(Wrote(1))], false).wire == [7]
  {
    var c := Conn(Connected, true, false, true, [], [], [], 0, 0, 0, [Up]);
    var calls := [Shuts, Queued([7], WriteFailed), Writable(Wrote(1))];
    var c1 := Shutdown(c);
    var c2 := SendInLoop(c1, [7], WriteFailed, false);
    assert c2.output == [7] && c2.wire == [];
    var c3 := HandleWrite(c2, Wrote(1), false);
    assert calls[1..] == [Queued([7], WriteFailed), Writable(Wrote(1))] && calls[1..][1..] == [Writable(Wrote(1))];
    assert Run(c, calls, false) == Run(c1, calls[1..], false) == Run(c2, calls[1..][1..], false) == Run(c3, [], false);
  }
}
