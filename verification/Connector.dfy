/** The connector object with its channel, updated in place. Each method takes its value
    where the function of the same name in ConnectorSteps takes it, and keeps the epoll
    records in agreement; its preconditions are the source's assertions. */
module Connector {
  import opened Wrappers
  import opened ConnectorSteps
  import opened Epoller

  class Connector {
    const epoller: Epoller
    var connect: bool
    var state: States
    var channel: Channel?
    var retryDelayMs: nat
    /** What it asked of the loop and of the kernel. */
    var resets: nat
    var timers: seq<nat>
    var waits: seq<nat>
    var sockets: map<Sock, Fate>

    /** Its channel, if any, is among the live ones, and the epoll records agree. */
    ghost predicate Valid(live: set<Channel>)
      reads this, epoller, live
    {
      && epoller.Agrees(live)
      && (channel != null ==> channel in live && channel.fd >= 0)
    }

    ghost function View(): Image
      requires channel != null ==> channel.fd >= 0
      reads this, channel
    {
      var fd: Option<Sock> := if channel == null then None else Some(channel.fd);
      Image(connect, state, fd, channel != null && channel.registered, retryDelayMs, resets, timers, waits, sockets)
    }

    constructor (epoller: Epoller)
      ensures this.epoller == epoller && channel == null && View() == New()
    {
      this.epoller := epoller;
      connect, state, channel := false, Disconnected, null;
      retryDelayMs, resets, timers, waits, sockets := INIT_RETRY_DELAY_MS, 0, [], [], map[];
    }

    /** `start`, on the loop's thread; `s` is the descriptor that the kernel picks. */
    method Start(s: Sock, result: ConnectResult, now: nat, ghost live: set<Channel>)
      requires Valid(live) && state.Disconnected? && channel == null && Unused(live, s)
      modifies this, epoller
      ensures Valid(WithChannel(live)) && (channel != null ==> fresh(channel))
      ensures Next(View()) == ConnectorSteps.Start(old(View()), s, result, now)
    {
      connect := true;
      StartInLoop(s, result, now, live);
    }

    method StartInLoop(s: Sock, result: ConnectResult, now: nat, ghost live: set<Channel>)
      requires Valid(live) && state.Disconnected? && channel == null && Unused(live, s)
      modifies this, epoller
      ensures Valid(WithChannel(live)) && (channel != null ==> fresh(channel))
      ensures Next(View()) == ConnectorSteps.StartInLoop(old(View()), s, result, now)
    {
      if connect {
        Connect(s, result, now, live);
      }
    }

    /** The live channels together with its own. */
    ghost function WithChannel(live: set<Channel>): set<Channel>
      reads this
    {
      if channel == null then live else live + {channel}
    }

    method Connect(s: Sock, result: ConnectResult, now: nat, ghost live: set<Channel>)
      requires Valid(live) && channel == null && Unused(live, s)
      modifies this, epoller
      ensures Valid(WithChannel(live)) && (channel != null ==> fresh(channel))
      ensures Next(View()) == ConnectorSteps.Connect(old(View()), s, result, now)
    {
      sockets := sockets[s := Fate(0, 0)];
      match result
      case InProgress => Connecting(s, live);
      case Retriable => Retry(s, now);
      case Fatal => CloseFd(s);
    }

    method CloseFd(s: Sock)
      requires s in sockets && (channel != null ==> channel.fd >= 0)
      modifies this`sockets
      ensures View() == CloseSocket(old(View()), s)
    {
      sockets := sockets[s := sockets[s].(closed := sockets[s].closed + 1)];
    }

    method Restart(s: Sock, result: ConnectResult, now: nat, ghost live: set<Channel>)
      requires Valid(live) && channel == null && Unused(live, s)
      modifies this, epoller
      ensures Valid(WithChannel(live)) && (channel != null ==> fresh(channel))
      ensures Next(View()) == ConnectorSteps.Restart(old(View()), s, result, now)
    {
      state := Disconnected;
      retryDelayMs, waits := INIT_RETRY_DELAY_MS, [];
      connect := true;
      StartInLoop(s, result, now, live);
    }

    method Stop()
      requires channel != null ==> channel.fd >= 0
      modifies this`connect
      ensures View() == ConnectorSteps.Stop(old(View()))
    {
      connect := false;
    }

    /** A new channel on the socket, with write interest on. */
    method Connecting(s: Sock, ghost live: set<Channel>)
      requires Valid(live) && channel == null && Unused(live, s)
      modifies this`state, this`channel, epoller
      ensures channel != null && fresh(channel) && Valid(live + {channel})
      ensures channel.events == WRITE_EVENT
      ensures Next(View()) == BeginConnecting(old(View()), s)
    {
      state := States.Connecting;
      assert channel == null;
      var c := new Channel(epoller, s, true);
      channel := c;
      c.EnableWriting(live + {c});
    }

    /** Out of every epoll record at once; the object goes by a queued call. */
    method RemoveAndResetChannel(ghost live: set<Channel>) returns (s: Sock)
      requires Valid(live) && channel != null && channel.registered
      modifies this`resets, channel`events, channel`registered, epoller
      ensures Valid(live) && epoller.Agrees(live - {channel}) && channel.events == NONE_EVENT
      ensures Next(View()) == ConnectorSteps.RemoveAndResetChannel(old(View()))
      ensures s == channel.fd
    {
      channel.DisableAll(live);
      epoller.RemoveChannelMap(channel, live);
      s := channel.fd;
      resets := resets + 1;
    }

    /** The queued call: the channel object goes, which no epoll record knows any more. */
    method ResetChannel(ghost live: set<Channel>)
      requires Valid(live) && (channel != null ==> !channel.registered)
      modifies this`channel
      ensures Valid(if old(channel) == null then live else live - {old(channel)})
      ensures View() == ConnectorSteps.ResetChannel(old(View()))
    {
      channel := null;
    }

    method HandleWrite(probe: Probe, now: nat, ghost live: set<Channel>)
      requires Valid(live) && !state.Connected?
      requires state.Connecting? ==> channel != null && channel.registered && channel.fd in sockets
      modifies this, channel, epoller
      ensures channel == old(channel) && Valid(live)
      ensures Next(View()) == ConnectorSteps.HandleWrite(old(View()), probe, now)
    {
      if state.Connecting? {
        var s := RemoveAndResetChannel(live);
        if !probe.Good? {
          Retry(s, now);
        } else {
          Conclude(s);
        }
      } else {
        assert state.Disconnected?;
      }
    }

    /** The socket came up well: handed over, or closed after a `stop`. */
    method Conclude(s: Sock)
      requires s in sockets && (channel != null ==> channel.fd >= 0)
      modifies this`state, this`sockets
      ensures var c := old(View()).(state := Connected);
        View() == if c.connect then HandOver(c, s) else CloseSocket(c, s)
    {
      state := Connected;
      if connect {
        sockets := sockets[s := sockets[s].(handed := sockets[s].handed + 1)];
      } else {
        CloseFd(s);
      }
    }

    method HandleError(now: nat, ghost live: set<Channel>)
      requires Valid(live) && state.Connecting? && channel != null && channel.registered && channel.fd in sockets
      modifies this, channel, epoller
      ensures channel == old(channel) && Valid(live)
      ensures Next(View()) == ConnectorSteps.HandleError(old(View()), now)
    {
      var s := RemoveAndResetChannel(live);
      Retry(s, now);
    }

    method Retry(s: Sock, now: nat)
      requires s in sockets && (channel != null ==> channel.fd >= 0)
      modifies this`sockets, this`state, this`timers, this`waits, this`retryDelayMs
      ensures View() == ConnectorSteps.Retry(old(View()), s, now)
    {
      CloseFd(s);
      state := Disconnected;
      if connect {
        timers := timers + [now];
        waits := waits + [retryDelayMs];
        retryDelayMs := if retryDelayMs * 2 < MAX_RETRY_DELAY_MS then retryDelayMs * 2 else MAX_RETRY_DELAY_MS;
      }
    }
  }

  /** No live channel has this descriptor. */
  ghost predicate Unused(live: set<Channel>, s: Sock) {
    forall c :: c in live ==> c.fd != s
  }
}
