/** Channels and the epoll wrapper that keeps three records of interest in step: the
    channel's own mask and registered flag, the map from descriptor to channel, and
    the kernel's interest set. */
module Epoller {
  /** The event flags in use. A mask is the set of its bits, so `|=` is union and
      `&= ~` is difference. */
  datatype Bit = EPOLLIN | EPOLLPRI | EPOLLOUT | EPOLLERR | EPOLLHUP | EPOLLRDHUP | EPOLLET

  type Mask = set<Bit>

  const NONE_EVENT: Mask := {}
  const READ_EVENT: Mask := {EPOLLIN, EPOLLPRI, EPOLLRDHUP}
  const WRITE_EVENT: Mask := {EPOLLOUT}

  predicate Writes(events: Mask) {
    events * WRITE_EVENT != {}
  }

  predicate Listens(events: Mask) {
    events * READ_EVENT != {}
  }

  // ---------- Which callbacks an event runs ----------

  datatype Callback = OnClose | OnError | OnRead | OnWrite

  /** `handleEvent`: the callbacks to run for the ready bits, in order. */
  function Dispatch(revents: Mask): seq<Callback> {
    (if EPOLLRDHUP in revents && EPOLLIN !in revents then [OnClose] else []) +
    (if EPOLLERR in revents then [OnError] else []) +
    (if Listens(revents) then [OnRead] else []) +
    (if EPOLLOUT in revents then [OnWrite] else [])
  }

  /** The order in which an event's callbacks run. */
  function Rank(callback: Callback): nat {
    match callback
    case OnClose => 0
    case OnError => 1
    case OnRead => 2
    case OnWrite => 3
  }

  /** Close, error, read and write run in this order, each at most once and for exactly its
      bits: a close only when the peer hung up with nothing to read, and then always with a
      read behind it. */
  lemma DispatchOrder(revents: Mask)
    ensures var d := Dispatch(revents);
      && (forall i, j :: 0 <= i < j < |d| ==> Rank(d[i]) < Rank(d[j]))
      && (OnClose in d <==> EPOLLRDHUP in revents && EPOLLIN !in revents)
      && (OnClose in d ==> OnRead in d)
      && (OnError in d <==> EPOLLERR in revents)
      && (OnWrite in d <==> EPOLLOUT in revents)
      && (OnRead in d <==> Listens(revents))
  {
    if EPOLLRDHUP in revents {
      assert EPOLLRDHUP in revents * READ_EVENT;
    }
  }

  // ---------- Channels ----------

  class Channel {
    const epoller: Epoller
    const fd: int
    const edgeTriggered: bool
    var registered: bool
    var events: Mask
    var revents: Mask

    constructor (epoller: Epoller, fd: int, edgeTriggered: bool)
      ensures this.epoller == epoller && this.fd == fd && this.edgeTriggered == edgeTriggered
      ensures !registered && events == NONE_EVENT && revents == NONE_EVENT
    {
      this.epoller, this.fd, this.edgeTriggered := epoller, fd, edgeTriggered;
      registered, events, revents := false, NONE_EVENT, NONE_EVENT;
    }

    function IsWriting(): bool
      reads this
    {
      Writes(events)
    }

    /** A channel that wants anything is registered. */
    lemma InterestIsRegistered(live: set<Channel>)
      requires this in live && epoller.Agrees(live)
      ensures Writes(events) || Listens(events) ==> registered
    {
    }

    method EnableReading(ghost live: set<Channel>)
      requires this in live && epoller.Agrees(live)
      modifies this`events, this`registered, epoller
      ensures epoller.Agrees(live)
      ensures events == old(events) + READ_EVENT + (if edgeTriggered then {EPOLLET} else {})
      ensures Listens(events) && Writes(events) == old(Writes(events)) && registered
    {
      events := events + READ_EVENT;
      if edgeTriggered {
        events := events + {EPOLLET};
      }
      assert EPOLLIN in events * READ_EVENT;
      epoller.UpdateChannelMap(this, live);
    }

    method EnableWriting(ghost live: set<Channel>)
      requires this in live && epoller.Agrees(live)
      modifies this`events, this`registered, epoller
      ensures epoller.Agrees(live)
      ensures events == old(events) + WRITE_EVENT
      ensures Writes(events) && Listens(events) == old(Listens(events)) && registered
    {
      events := events + WRITE_EVENT;
      assert EPOLLOUT in events * WRITE_EVENT && events * READ_EVENT == old(events) * READ_EVENT;
      epoller.UpdateChannelMap(this, live);
    }

    method DisableWriting(ghost live: set<Channel>)
      requires this in live && epoller.Agrees(live)
      modifies this`events, this`registered, epoller
      ensures epoller.Agrees(live)
      ensures events == old(events) - WRITE_EVENT
      ensures !Writes(events) && Listens(events) == old(Listens(events))
      ensures registered == old(registered)
    {
      events := events - WRITE_EVENT;
      assert events * WRITE_EVENT == {} && events * READ_EVENT == old(events) * READ_EVENT;
      epoller.UpdateChannelMap(this, live);
    }

    method DisableAll(ghost live: set<Channel>)
      requires this in live && epoller.Agrees(live)
      modifies this`events, this`registered, epoller
      ensures epoller.Agrees(live)
      ensures events == NONE_EVENT && registered == old(registered)
      ensures !Listens(events) && !Writes(events)
    {
      events := NONE_EVENT;
      epoller.UpdateChannelMap(this, live);
    }
  }

  // ---------- The epoll wrapper ----------

  datatype Op = Add | Mod | Del

  class Epoller {
    var channels: map<int, Channel>
    /** The kernel's interest set: part of the environment, kept by `Control` only. */
    var kernel: map<int, Mask>

    constructor ()
      ensures channels == map[] && kernel == map[]
      ensures Agrees({})
    {
      channels, kernel := map[], map[];
    }

    /** The flags, the map and the kernel agree for every live channel, and each kernel
        mask is the channel's own; a channel with no registration wants nothing. */
    ghost predicate Agrees(live: set<Channel>)
      reads this, live
    {
      && AgreesBut(live, null)
    }

    /** The same, but for the mask of one channel that has just changed it. */
    ghost predicate AgreesBut(live: set<Channel>, changed: Channel?)
      reads this, live
    {
      && (forall c :: c in live ==> c.epoller == this)
      && (forall c, d :: c in live && d in live && c.fd == d.fd ==> c == d)
      && channels.Keys == kernel.Keys
      && (forall fd :: fd in channels ==> channels[fd] in live && channels[fd].fd == fd)
      && (forall c :: c in live ==> (c.registered <==> c.fd in channels))
      && (forall c :: c in live && c.registered && c != changed ==> kernel[c.fd] == c.events)
      && (forall c :: c in live && !c.registered && c != changed ==> c.events == NONE_EVENT)
    }

    /** `epoll_ctl`: adding a present descriptor or changing an absent one fails. */
    method Control(op: Op, fd: int, events: Mask) returns (ret: int)
      modifies this`kernel
      ensures ret == 0 <==> (op.Add? <==> fd !in old(kernel))
      ensures ret != 0 ==> kernel == old(kernel)
      ensures ret == 0 ==> kernel == if op.Del? then old(kernel) - {fd} else old(kernel)[fd := events]
    {
      if op.Add? == (fd in kernel) {
        return -1;
      }
      kernel := if op.Del? then kernel - {fd} else kernel[fd := events];
      return 0;
    }

    method UpdateChannelMap(channel: Channel, ghost live: set<Channel>)
      requires channel in live && AgreesBut(live, channel)
      modifies this, channel`registered
      ensures Agrees(live)
      ensures old(channel.registered) ==> channel.registered
      ensures channel.events != NONE_EVENT ==> channel.registered
      ensures channel.events == NONE_EVENT ==> channel.registered == old(channel.registered)
    {
      if !channel.registered {
        EpollAdd(channel, live);
      } else {
        EpollMod(channel, live);
      }
    }

    method EpollAdd(channel: Channel, ghost live: set<Channel>)
      requires channel in live && AgreesBut(live, channel) && !channel.registered
      modifies this, channel`registered
      ensures Agrees(live)
      ensures channel.registered == (channel.events != NONE_EVENT)
    {
      if channel.events != NONE_EVENT {
        assert channel.fd !in channels;
        var ret := Control(Add, channel.fd, channel.events);
        assert ret == 0;
        channels := channels[channel.fd := channel];
        channel.registered := true;
      }
    }

    method EpollMod(channel: Channel, ghost live: set<Channel>)
      requires channel in live && AgreesBut(live, channel) && channel.registered
      modifies this`kernel
      ensures Agrees(live)
    {
      assert channels[channel.fd] == channel;
      var ret := Control(Mod, channel.fd, channel.events);
      assert ret == 0;
    }

    /** `removeChannelMap`: the source asserts that the channel is registered, is the one
        in the map, and wants nothing. */
    method RemoveChannelMap(channel: Channel, ghost live: set<Channel>)
      requires channel in live && Agrees(live) && channel.registered && channel.events == NONE_EVENT
      modifies this, channel`registered
      ensures Agrees(live) && Agrees(live - {channel})
      ensures !channel.registered && channel.fd !in channels && channel.fd !in kernel
    {
      assert channels[channel.fd] == channel;
      var ret := Control(Del, channel.fd, channel.events);
      assert ret == 0;
      channels := channels - {channel.fd};
      channel.registered := false;
    }

    /** `fillActiveChannels`: every descriptor the kernel reports is found, and its
        channel gets the ready bits. */
    method FillActiveChannels(ready: seq<(int, Mask)>, ghost live: set<Channel>) returns (active: seq<Channel>)
      requires Agrees(live)
      requires forall i :: 0 <= i < |ready| ==> ready[i].0 in kernel
      requires forall i, j :: 0 <= i < j < |ready| ==> ready[i].0 != ready[j].0
      modifies live`revents
      ensures Agrees(live) && |active| == |ready|
      ensures forall i :: 0 <= i < |ready| ==>
        active[i] in live && active[i].registered && active[i].fd == ready[i].0 && active[i].revents == ready[i].1
      ensures forall c :: c in live && c !in active ==> c.revents == old(c.revents)
    {
      active := [];
      for i := 0 to |ready|
        invariant |active| == i && Agrees(live) && channels == old(channels)
        invariant forall k :: 0 <= k < i ==>
          active[k] in live && active[k].registered && active[k].fd == ready[k].0 && active[k].revents == ready[k].1
        invariant forall c :: c in live && c !in active ==> c.revents == old(c.revents)
      {
        assert ready[i].0 in channels;
        var channel := channels[ready[i].0];
        assert forall k :: 0 <= k < i ==> active[k].fd == ready[k].0 != channel.fd;
        channel.revents := ready[i].1;
        active := active + [channel];
      }
    }
  }
}
