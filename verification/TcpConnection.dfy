/** The connection object: its state, channel and buffers, updated in place. Each
    method takes the value of the connection where the function of the same name in
    Connection takes it, and keeps the epoll records in agreement. */
module TcpConnection {
  import opened Wrappers
  import opened Connection
  import opened Epoller
  import B = Buffer

  /** The connected socket: part of the environment. */
  class Socket {
    var wire: seq<B.Byte>
    var shutdowns: nat

    constructor ()
      ensures wire == [] && shutdowns == 0
    {
      wire, shutdowns := [], 0;
    }

    /** `::write`: takes a prefix, or fails with -1. */
    method Write(bytes: seq<B.Byte>, w: WriteResult) returns (n: int)
      requires Fits(w, |bytes|)
      modifies this`wire
      ensures w.WriteFailed? ==> n == -1 && wire == old(wire)
      ensures w.Wrote? ==> n == w.n && wire == old(wire) + bytes[..w.n]
    {
      if w.WriteFailed? {
        return -1;
      }
      wire := wire + bytes[..w.n];
      return w.n;
    }

    method ShutdownWrite()
      modifies this`shutdowns
      ensures shutdowns == old(shutdowns) + 1
    {
      shutdowns := shutdowns + 1;
    }
  }

  class TcpConnection {
    var state: ConnState
    const socket: Socket
    const channel: Channel
    const inputBuffer: B.Buffer
    const outputBuffer: B.Buffer
    /** Whether a write-complete callback is set. */
    const notify: bool
    /** What was handed to the loop, the server and the application. */
    var completions: nat
    var closes: nat
    var trace: seq<Event>
    ghost var accepted: seq<B.Byte>

    ghost predicate Valid()
      reads this, inputBuffer, outputBuffer
    {
      && inputBuffer != outputBuffer && inputBuffer.data != outputBuffer.data
      && inputBuffer.Valid() && outputBuffer.Valid()
    }

    ghost function View(): Conn
      requires Valid()
      reads this, inputBuffer, outputBuffer, outputBuffer.data, channel, socket
    {
      Conn(state, Listens(channel.events), Writes(channel.events), channel.registered,
           outputBuffer.View().readable, socket.wire, accepted, socket.shutdowns, completions, closes, trace)
    }

    constructor (epoller: Epoller, fd: int, notify: bool)
      ensures Valid() && View() == NewConn()
      ensures fresh(socket) && fresh(channel) && fresh(inputBuffer) && fresh(outputBuffer)
      ensures fresh(inputBuffer.data) && fresh(outputBuffer.data)
      ensures channel.epoller == epoller && channel.fd == fd && this.notify == notify
      ensures channel.events == NONE_EVENT && !channel.edgeTriggered
    {
      state := Connecting;
      socket := new Socket();
      channel := new Channel(epoller, fd, false);
      inputBuffer := new B.Buffer();
      outputBuffer := new B.Buffer();
      this.notify := notify;
      completions, closes, trace, accepted := 0, 0, [], [];
    }

    method Send(message: seq<B.Byte>, w: WriteResult, ghost live: set<Channel>)
      requires Valid() && Fits(w, |message|)
      requires channel in live && channel.epoller.Agrees(live)
      modifies this, socket, outputBuffer, outputBuffer.data, channel`events, channel`registered, channel.epoller
      ensures Valid() && channel.epoller.Agrees(live)
      ensures View() == Connection.Send(old(View()), message, w, notify)
    {
      if state.Connected? {
        SendInLoop(message, w, live);
      }
    }

    method SendInLoop(message: seq<B.Byte>, w: WriteResult, ghost live: set<Channel>)
      requires Valid() && Fits(w, |message|)
      requires channel in live && channel.epoller.Agrees(live)
      modifies this`accepted, this`completions, socket, outputBuffer, outputBuffer.data
      modifies channel`events, channel`registered, channel.epoller
      ensures Valid() && channel.epoller.Agrees(live)
      ensures View() == Connection.SendInLoop(old(View()), message, w, notify)
    {
      accepted := accepted + message;
      var nwrote := DirectWrite(message, w);
      assert nwrote >= 0;
      if nwrote < |message| {
        BufferRest(message[nwrote..], live);
      }
    }

    /** The first half of `sendInLoop`. */
    method DirectWrite(message: seq<B.Byte>, w: WriteResult) returns (nwrote: int)
      requires Valid() && Fits(w, |message|)
      modifies this`completions, socket
      ensures Valid() && nwrote == DirectBytes(old(View()), w)
      ensures View() == WrittenDirectly(old(View()), message, w, notify)
    {
      nwrote := 0;
      if !channel.IsWriting() && outputBuffer.writerIndex - outputBuffer.readerIndex > 0 {
        nwrote := socket.Write(message, w);
        if nwrote >= 0 {
          if nwrote == |message| && notify {
            completions := completions + 1;
          }
        } else {
          nwrote := 0;
        }
      }
    }

    /** The second half: what was not written waits, with write interest on. */
    method BufferRest(rest: seq<B.Byte>, ghost live: set<Channel>)
      requires Valid() && channel in live && channel.epoller.Agrees(live)
      modifies outputBuffer, outputBuffer.data, channel`events, channel`registered, channel.epoller
      ensures Valid() && channel.epoller.Agrees(live)
      ensures View() == Waiting(old(View()), rest)
    {
      outputBuffer.Append(rest);
      if !channel.IsWriting() {
        channel.EnableWriting(live);
      } else {
        channel.InterestIsRegistered(live);
      }
    }

    method Shutdown()
      requires Valid()
      modifies this`state, socket
      ensures Valid() && View() == Connection.Shutdown(old(View()))
    {
      if state.Connected? {
        state := Disconnecting;
        ShutdownInLoop();
      }
    }

    method ShutdownInLoop()
      requires Valid()
      modifies socket
      ensures Valid() && View() == Connection.ShutdownInLoop(old(View()))
    {
      if !channel.IsWriting() {
        socket.ShutdownWrite();
      }
    }

    method HandleWrite(w: WriteResult, ghost live: set<Channel>)
      requires Valid() && Fits(w, |outputBuffer.View().readable|)
      requires channel in live && channel.epoller.Agrees(live)
      modifies this`completions, socket, outputBuffer, channel`events, channel`registered, channel.epoller
      ensures Valid() && channel.epoller.Agrees(live)
      ensures View() == Connection.HandleWrite(old(View()), w, notify)
    {
      if channel.IsWriting() {
        var n := WriteOut(w);
        if n > 0 {
          if outputBuffer.writerIndex - outputBuffer.readerIndex == 0 {
            Drained(live);
          }
        }
      }
    }

    /** The write of `handleWrite`: what the socket took leaves the buffer. */
    method WriteOut(w: WriteResult) returns (n: int)
      requires Valid() && Fits(w, |outputBuffer.View().readable|)
      modifies socket, outputBuffer
      ensures Valid() && n == if w.WriteFailed? then -1 else w.n
      ensures View() == if n <= 0 then old(View()) else TakenOut(old(View()), n)
    {
      var waiting := outputBuffer.data[outputBuffer.readerIndex..outputBuffer.writerIndex];
      n := socket.Write(waiting, w);
      if n > 0 {
        outputBuffer.Retrieve(n);
      } else {
        assert socket.wire == old(socket.wire);
      }
    }

    /** The branch of `handleWrite` taken when the last waiting byte is out. */
    method Drained(ghost live: set<Channel>)
      requires Valid() && channel in live && channel.epoller.Agrees(live)
      modifies this`completions, socket, channel`events, channel`registered, channel.epoller
      ensures Valid() && channel.epoller.Agrees(live)
      ensures View() == Connection.Drained(old(View()), notify)
    {
      channel.DisableWriting(live);
      assert View() == old(View()).(writing := false);
      Complete();
    }

    /** The completion, and the shutdown that was put off. */
    method Complete()
      requires Valid() && !View().writing
      modifies this`completions, socket
      ensures Valid() && View() == Connection.Drained(old(View()), notify)
    {
      if notify {
        completions := completions + 1;
      }
      if state.Disconnecting? {
        ShutdownInLoop();
      }
    }

    method ConnectEstablished(ghost live: set<Channel>)
      requires Valid() && channel in live && channel.epoller.Agrees(live)
      requires state.Connecting? && !channel.edgeTriggered
      modifies this`state, this`trace, channel`events, channel`registered, channel.epoller
      ensures Valid() && channel.epoller.Agrees(live)
      ensures Next(View()) == Connection.ConnectEstablished(old(View()))
    {
      channel.EnableReading(live);
      state := Connected;
      trace := trace + [Up];
    }

    method HandleRead(delivery: B.Delivery, ghost live: set<Channel>)
      requires Valid() && channel in live && channel.epoller.Agrees(live)
      requires delivery.Delivered? ==> |delivery.bytes| <= inputBuffer.View().Writable() + B.EXTRA_SIZE
      requires delivery == B.Delivered([]) ==> state.Connected? || state.Disconnecting?
      modifies this, inputBuffer, inputBuffer.data, channel`events, channel`registered, channel.epoller
      ensures Valid() && channel.epoller.Agrees(live)
      ensures Next(View()) == Connection.HandleRead(old(View()), delivery)
      ensures inputBuffer.View().readable == old(inputBuffer.View()).readable + (if delivery.Delivered?
        then delivery.bytes else [])
    {
      var n, savedErrno := inputBuffer.ReadFd(delivery);
      if n > 0 {
        trace := trace + [Message];
      } else if n == 0 {
        HandleClose(live);
      }
    }

    method HandleClose(ghost live: set<Channel>)
      requires Valid() && channel in live && channel.epoller.Agrees(live)
      requires state.Connected? || state.Disconnecting?
      modifies this`closes, channel`events, channel`registered, channel.epoller
      ensures Valid() && channel.epoller.Agrees(live)
      ensures Next(View()) == Connection.HandleClose(old(View()))
    {
      channel.DisableAll(live);
      closes := closes + 1;
    }

    method ConnectDestroyed(ghost live: set<Channel>)
      requires Valid() && channel in live && channel.epoller.Agrees(live)
      requires state.Connected? || state.Disconnecting?
      requires channel.registered
      modifies this`state, this`trace, channel`events, channel`registered, channel.epoller
      ensures Valid() && channel.epoller.Agrees(live) && channel.epoller.Agrees(live - {channel})
      ensures Next(View()) == Connection.ConnectDestroyed(old(View()))
    {
      state := Disconnected;
      channel.DisableAll(live);
      trace := trace + [Down];
      channel.epoller.RemoveChannelMap(channel, live);
    }
  }
}
