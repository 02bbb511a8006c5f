/** The growing byte buffer: a vector with a readable region between two indices, a
    prependable part before it and a writable part after it. */
module Buffer {
  import opened Wrappers

  type Byte = b: int | 0 <= b < 256

  const CHEAP_PREPEND: nat := 8
  const INITIAL_SIZE: nat := 1024
  const EXTRA_SIZE: nat := 65536

  // ---------- What a buffer is worth ----------

  /** The value of a buffer: the vector's size, `readerIndex_`, and the readable bytes.
      Bytes outside the readable region are never read. */
  datatype Image = Image(size: nat, reader: nat, readable: seq<Byte>)
  {
    function Writer(): nat { reader + |readable| }
    predicate Valid() { CHEAP_PREPEND <= size && Writer() <= size }
    function Writable(): nat requires Valid() { size - Writer() }
  }

  function Empty(): Image {
    Image(CHEAP_PREPEND + INITIAL_SIZE, CHEAP_PREPEND, [])
  }

  /** `ensureWritableBytes`: enough room, or grow, or slide the readable bytes down. */
  function WithRoom(v: Image, len: nat): (r: Image)
    requires v.Valid()
    ensures r.Valid() && r.readable == v.readable && r.Writable() >= len
  {
    if v.Writable() >= len then v
    else if v.Writable() + v.reader < len + CHEAP_PREPEND then v.(size := v.Writer() + len)
    else v.(reader := CHEAP_PREPEND)
  }

  function Appended(v: Image, bytes: seq<Byte>): (r: Image)
    requires v.Valid()
    ensures r.Valid() && r.readable == v.readable + bytes
  {
    var w := WithRoom(v, |bytes|);
    w.(readable := w.readable + bytes)
  }

  function Prepended(v: Image, bytes: seq<Byte>): (r: Image)
    requires v.Valid() && |bytes| <= v.reader
    ensures r.Valid() && r.readable == bytes + v.readable
  {
    v.(reader := v.reader - |bytes|, readable := bytes + v.readable)
  }

  function Retrieved(v: Image, n: nat): (r: Image)
    requires v.Valid() && n <= |v.readable|
    ensures r.Valid() && r.readable == v.readable[n..]
  {
    v.(reader := v.reader + n, readable := v.readable[n..])
  }

  function Cleared(v: Image): (r: Image)
    requires v.Valid()
    ensures r.Valid() && r.readable == []
  {
    v.(reader := CHEAP_PREPEND, readable := [])
  }

  /** The buffer with its writable part filled. */
  function Full(v: Image, bytes: seq<Byte>): (r: Image)
    requires v.Valid() && |bytes| >= v.Writable()
    ensures r.Valid()
  {
    v.(readable := v.readable + bytes[..v.Writable()])
  }

  /** `readFd`: bytes land in the writable part, and what spills over it is appended. */
  function Received(v: Image, bytes: seq<Byte>): (r: Image)
    requires v.Valid()
    ensures r.Valid() && r.readable == v.readable + bytes
  {
    if |bytes| <= v.Writable() then v.(readable := v.readable + bytes)
    else
      assert bytes == bytes[..v.Writable()] + bytes[v.Writable()..];
      Appended(Full(v, bytes), bytes[v.Writable()..])
  }

  lemma ReceivedSpills(v: Image, bytes: seq<Byte>)
    requires v.Valid() && |bytes| > v.Writable()
    ensures Received(v, bytes) == Appended(Full(v, bytes), bytes[v.Writable()..])
  {
  }

  // ---------- Runs of a buffer against a plain byte sequence ----------

  datatype Op =
    | Append(bytes: seq<Byte>)
    | Prepend(bytes: seq<Byte>)
    | Retrieve(n: nat)
    | RetrieveAll
    | ReadFd(bytes: seq<Byte>)

  /** The source asserts that `retrieve` and `prepend` stay in their region; one
      `readv` delivers at most what its two pieces of memory hold. */
  predicate Allowed(v: Image, op: Op)
    requires v.Valid()
  {
    match op
    case Prepend(bytes) => |bytes| <= v.reader
    case Retrieve(n) => n <= |v.readable|
    case ReadFd(bytes) => |bytes| <= v.Writable() + EXTRA_SIZE
    case _ => true
  }

  function Apply(v: Image, op: Op): (r: Image)
    requires v.Valid() && Allowed(v, op)
    ensures r.Valid()
  {
    match op
    case Append(bytes) => Appended(v, bytes)
    case Prepend(bytes) => Prepended(v, bytes)
    case Retrieve(n) => Retrieved(v, n)
    case RetrieveAll => Cleared(v)
    case ReadFd(bytes) => Received(v, bytes)
  }

  /** The state after a run, if every call of it was allowed. */
  function Run(v: Image, ops: seq<Op>): Option<Image>
    requires v.Valid()
    decreases |ops|
  {
    if ops == [] then Some(v)
    else if !Allowed(v, ops[0]) then None
    else Run(Apply(v, ops[0]), ops[1..])
  }

  /** The same run on a plain byte sequence. */
  function Plain(s: seq<Byte>, ops: seq<Op>): seq<Byte>
    decreases |ops|
  {
    if ops == [] then s
    else
      var s' := match ops[0]
        case Append(bytes) => s + bytes
        case Prepend(bytes) => bytes + s
        case Retrieve(n) => if n <= |s| then s[n..] else s
        case RetrieveAll => []
        case ReadFd(bytes) => s + bytes;
      Plain(s', ops[1..])
  }

  lemma {:induction false} RunIsPlain(v: Image, ops: seq<Op>)
    requires v.Valid() && Run(v, ops).Some?
    ensures Run(v, ops).value.readable == Plain(v.readable, ops)
    decreases |ops|
  {
    if ops == [] {
    } else {
      RunIsPlain(Apply(v, ops[0]), ops[1..]);
    }
  }

  // ---------- Capacity ----------

  /** Making room never grows the vector past the readable bytes plus twice the
      request and seven, and does so only when it must. */
  lemma GrowthBound(v: Image, len: nat)
    requires v.Valid()
    ensures WithRoom(v, len).size == v.size || v.size < WithRoom(v, len).size <= |v.readable| + 2 * len + 7
    ensures WithRoom(v, len).size > v.size <==> v.size < CHEAP_PREPEND + |v.readable| + len && v.Writable() < len
  {
  }

  /** Without room for the request at the end, the bytes slide to the cheap prepend if that
      makes it, and otherwise they stay and the vector grows by what is missing. Retrieving
      everything gives the whole vector back but the cheap prepend. */
  lemma SlidesOrGrows(v: Image, len: nat)
    requires v.Valid() && v.Writable() < len
    ensures WithRoom(v, len) ==
      if CHEAP_PREPEND + |v.readable| + len <= v.size then Image(v.size, CHEAP_PREPEND, v.readable)
      else Image(v.size + (len - v.Writable()), v.reader, v.readable)
    ensures Cleared(v).size == v.size && Cleared(v).Writable() == v.size - CHEAP_PREPEND
  {
  }

  /** The bytes prepended by a run. */
  function PrependedBy(ops: seq<Op>): nat {
    if ops == [] then 0
    else (match ops[0] case Prepend(bytes) => |bytes| case _ => 0) + PrependedBy(ops[1..])
  }

  lemma {:induction false} HeadroomFrom(v: Image, ops: seq<Op>, headroom: nat)
    requires v.Valid() && Run(v, ops).Some? && headroom <= v.reader && headroom <= CHEAP_PREPEND
    ensures Run(v, ops).value.Valid() && headroom <= Run(v, ops).value.reader + PrependedBy(ops)
    decreases |ops|
  {
    if ops == [] {
    } else {
      var v' := Apply(v, ops[0]);
      HeadroomFrom(v', ops[1..], if v'.reader < headroom then v'.reader else headroom);
    }
  }

  /** Over any run from a new buffer, sliding and growing included, the prependable part is
      at least what the prepends have left of the cheap eight bytes, so a prepend within
      them always fits. */
  lemma Headroom(ops: seq<Op>, bytes: seq<Byte>)
    requires Run(Empty(), ops).Some? && PrependedBy(ops) + |bytes| <= CHEAP_PREPEND
    ensures Run(Empty(), ops).value.Valid() && Allowed(Run(Empty(), ops).value, Prepend(bytes))
  {
    HeadroomFrom(Empty(), ops, CHEAP_PREPEND);
  }

  /** A run in which no append, spilling read included, is longer than `l` and none
      leaves more than `r` readable bytes. */
  predicate Moderate(v: Image, ops: seq<Op>, r: nat, l: nat)
    requires v.Valid() && Run(v, ops).Some?
    decreases |ops|
  {
    ops != [] ==>
      && (match ops[0]
          case Append(bytes) => |bytes| <= l && |v.readable| + |bytes| <= r
          case ReadFd(bytes) =>
            |bytes| <= v.Writable() || (|bytes| - v.Writable() <= l && |v.readable| + |bytes| <= r)
          case _ => true)
      && Moderate(Apply(v, ops[0]), ops[1..], r, l)
  }

  lemma {:induction false} CapacityBoundFrom(v: Image, ops: seq<Op>, r: nat, l: nat, bound: nat)
    requires v.Valid() && Run(v, ops).Some? && Moderate(v, ops, r, l)
    requires v.size <= bound && r + l + 7 <= bound
    ensures Run(v, ops).value.size <= bound
    decreases |ops|
  {
    if ops == [] {
    } else {
      CapacityBoundFrom(Apply(v, ops[0]), ops[1..], r, l, bound);
    }
  }

  /** Over any run from a new buffer the vector stays within the larger of its first
      size and the longest content plus the longest append plus seven. */
  lemma CapacityBound(ops: seq<Op>, r: nat, l: nat)
    requires Run(Empty(), ops).Some? && Moderate(Empty(), ops, r, l)
    ensures Run(Empty(), ops).value.size <= if 1032 < r + l + 7 then r + l + 7 else 1032
  {
    CapacityBoundFrom(Empty(), ops, r, l, if 1032 < r + l + 7 then r + l + 7 else 1032);
  }

  // ---------- The buffer in memory ----------

  /** What one `readv` did. */
  datatype Delivery = Failed(errno: int) | Delivered(bytes: seq<Byte>)

  /** Stores a run of bytes. */
  method Store(a: array<Byte>, at: nat, bytes: seq<Byte>)
    requires at + |bytes| <= a.Length
    modifies a
    ensures a[..] == old(a[..at]) + bytes + old(a[at + |bytes|..])
  {
    for i := 0 to |bytes|
      invariant a[at..at + i] == bytes[..i]
      invariant a[..at] == old(a[..at]) && a[at + i..] == old(a[at + i..])
    {
      a[at + i] := bytes[i];
    }
  }

  /** `std::copy` towards the front: it goes forward, so an overlap loses nothing. */
  method CopyDown(a: array<Byte>, from: nat, to: nat, n: nat)
    requires to <= from && from + n <= a.Length
    modifies a
    ensures a[to..to + n] == old(a[from..from + n])
  {
    for i := 0 to n
      invariant forall k :: to <= k < to + i ==> a[k] == old(a[..])[from - to + k]
      invariant forall k :: to + i <= k < a.Length ==> a[k] == old(a[..])[k]
    {
      a[to + i] := a[from + i];
    }
  }

  /** `readv` into two pieces of memory: `split` bytes fit the first. */
  method Scatter(a: array<Byte>, at: nat, extra: array<Byte>, bytes: seq<Byte>) returns (ghost split: nat)
    requires at <= a.Length && a != extra && |bytes| <= a.Length - at + extra.Length
    modifies a, extra
    ensures split == if |bytes| <= a.Length - at then |bytes| else a.Length - at
    ensures a[..at] == old(a[..at])
    ensures a[at..at + split] == bytes[..split]
    ensures extra[..|bytes| - split] == bytes[split..]
  {
    var first := if |bytes| <= a.Length - at then |bytes| else a.Length - at;
    split := first;
    Store(a, at, bytes[..first]);
    Store(extra, 0, bytes[first..]);
    assert a[..at] == a[..][..at];
    assert a[at..at + first] == a[..][at..at + first] == bytes[..first];
    assert extra[..|bytes| - first] == extra[..][..|bytes| - first] == bytes[first..];
  }

  lemma Joined(s: seq<Byte>, i: nat, j: nat, k: nat)
    requires i <= j <= k <= |s|
    ensures s[i..k] == s[i..j] + s[j..k]
  {
  }

  lemma Untouched(s: seq<Byte>, t: seq<Byte>, i: nat, j: nat)
    requires i <= j <= |s| && j <= |t| && s[..j] == t[..j]
    ensures s[i..j] == t[i..j]
  {
    assert s[i..j] == s[..j][i..] && t[i..j] == t[..j][i..];
  }

  class Buffer {
    var data: array<Byte>
    var readerIndex: nat
    var writerIndex: nat

    ghost predicate Valid()
      reads this
    {
      CHEAP_PREPEND <= data.Length && readerIndex <= writerIndex <= data.Length
    }

    ghost function View(): (v: Image)
      requires Valid()
      reads this, data
      ensures v.Valid()
    {
      Image(data.Length, readerIndex, data[readerIndex..writerIndex])
    }

    constructor ()
      ensures Valid() && fresh(data)
      ensures View() == Empty()
    {
      data := new Byte[CHEAP_PREPEND + INITIAL_SIZE];
      readerIndex, writerIndex := CHEAP_PREPEND, CHEAP_PREPEND;
    }

    method Retrieve(n: nat)
      requires Valid() && n <= |View().readable|
      modifies this`readerIndex
      ensures Valid() && View() == Retrieved(old(View()), n)
    {
      readerIndex := readerIndex + n;
    }

    method RetrieveAll()
      requires Valid()
      modifies this`readerIndex, this`writerIndex
      ensures Valid() && View() == Cleared(old(View()))
    {
      readerIndex, writerIndex := CHEAP_PREPEND, CHEAP_PREPEND;
    }

    method RetrieveAsString() returns (s: seq<Byte>)
      requires Valid()
      modifies this`readerIndex, this`writerIndex
      ensures Valid() && View() == Cleared(old(View()))
      ensures s == old(View()).readable
    {
      s := data[readerIndex..writerIndex];
      RetrieveAll();
    }

    method Prepend(bytes: seq<Byte>)
      requires Valid() && |bytes| <= View().reader
      modifies this`readerIndex, data
      ensures Valid() && View() == Prepended(old(View()), bytes)
    {
      readerIndex := readerIndex - |bytes|;
      Store(data, readerIndex, bytes);
      assert data[readerIndex..writerIndex] == data[..][readerIndex..writerIndex];
    }

    method Append(bytes: seq<Byte>)
      requires Valid()
      modifies this, data
      ensures Valid() && (data == old(data) || fresh(data))
      ensures View() == Appended(old(View()), bytes)
    {
      EnsureWritableBytes(|bytes|);
      ghost var before := View();
      ghost var memory := data[..];
      Store(data, writerIndex, bytes);
      assert View() == before by {
        Untouched(memory, data[..], readerIndex, writerIndex);
      }
      assert data[writerIndex..writerIndex + |bytes|] == data[..][writerIndex..writerIndex + |bytes|];
      HasWritten(|bytes|);
    }

    /** Moves the end of the readable region over bytes already in place. */
    method HasWritten(n: nat)
      requires Valid() && n <= View().Writable()
      modifies this`writerIndex
      ensures Valid()
      ensures View() == old(View()).(
        readable := old(View()).readable + old(data[writerIndex..writerIndex + n]))
    {
      Joined(data[..], readerIndex, writerIndex, writerIndex + n);
      writerIndex := writerIndex + n;
    }

    method EnsureWritableBytes(len: nat)
      requires Valid()
      modifies this, data
      ensures Valid() && (data == old(data) || fresh(data))
      ensures View() == WithRoom(old(View()), len)
    {
      if data.Length - writerIndex < len {
        MakeSpace(len);
      }
      assert data.Length - writerIndex >= len;
    }

    /** Reached only when the writable part is too short; then the assertion before the
        sliding copy always holds. */
    method MakeSpace(len: nat)
      requires Valid() && View().Writable() < len
      modifies this, data
      ensures Valid() && (data == old(data) || fresh(data))
      ensures View() == WithRoom(old(View()), len)
    {
      if data.Length - writerIndex + readerIndex < len + CHEAP_PREPEND {
        var grown := new Byte[writerIndex + len];
        Store(grown, 0, data[..]);
        assert data[readerIndex..writerIndex] == data[..][readerIndex..writerIndex];
        assert grown[readerIndex..writerIndex] == grown[..][readerIndex..writerIndex];
        data := grown;
      } else {
        assert CHEAP_PREPEND < readerIndex;
        var readable := writerIndex - readerIndex;
        CopyDown(data, readerIndex, CHEAP_PREPEND, readable);
        readerIndex := CHEAP_PREPEND;
        writerIndex := readerIndex + readable;
        assert readable == writerIndex - readerIndex;
      }
    }

    /** `readv` into the writable part and a spill area, then the bookkeeping. */
    method ReadFd(delivery: Delivery) returns (n: int, savedErrno: Option<int>)
      requires Valid()
      requires delivery.Delivered? ==> |delivery.bytes| <= View().Writable() + EXTRA_SIZE
      modifies this, data
      ensures Valid() && (data == old(data) || fresh(data))
      ensures delivery.Failed? ==> n == -1 && savedErrno == Some(delivery.errno) && View() == old(View())
      ensures delivery.Delivered? ==>
        n == |delivery.bytes| && savedErrno.None? && View() == Received(old(View()), delivery.bytes)
    {
      if delivery.Failed? {
        return -1, Some(delivery.errno);
      }
      var extrabuf := new Byte[EXTRA_SIZE];
      Fill(delivery.bytes, extrabuf);
      Account(delivery.bytes, extrabuf);
      return |delivery.bytes|, None;
    }

    /** `readv`: nothing becomes readable yet. */
    method Fill(bytes: seq<Byte>, extrabuf: array<Byte>)
      requires Valid() && extrabuf != data && |bytes| <= View().Writable() + extrabuf.Length
      modifies data, extrabuf
      ensures Valid() && View() == old(View()) && Filled(bytes, extrabuf)
    {
      ghost var memory := data[..];
      ghost var split := Scatter(data, writerIndex, extrabuf, bytes);
      Untouched(memory, data[..], readerIndex, writerIndex);
    }

    /** The bytes lie behind the readable ones, and what spilled over in the extra area. */
    ghost predicate Filled(bytes: seq<Byte>, extrabuf: array<Byte>)
      requires Valid()
      reads this, data, extrabuf
    {
      var writable := View().Writable();
      var split := if |bytes| <= writable then |bytes| else writable;
      && |bytes| - split <= extrabuf.Length
      && data[writerIndex..writerIndex + split] == bytes[..split]
      && extrabuf[..|bytes| - split] == bytes[split..]
    }

    /** The bookkeeping after `readv`. */
    method Account(bytes: seq<Byte>, extrabuf: array<Byte>)
      requires Valid() && extrabuf != data && Filled(bytes, extrabuf)
      modifies this, data
      ensures Valid() && (data == old(data) || fresh(data))
      ensures View() == Received(old(View()), bytes)
    {
      var writable := data.Length - writerIndex;
      if |bytes| <= writable {
        assert bytes[..|bytes|] == bytes;
        HasWritten(|bytes|);
      } else {
        var spill := extrabuf[..|bytes| - writable];
        assert spill == bytes[writable..];
        ReceivedSpills(View(), bytes);
        FillUp(bytes);
        Append(spill);
      }
    }

    /** `writerIndex_ = buffer_.size()`. */
    method FillUp(bytes: seq<Byte>)
      requires Valid() && |bytes| >= View().Writable()
      requires data[writerIndex..writerIndex + View().Writable()] == bytes[..View().Writable()]
      modifies this`writerIndex
      ensures Valid() && View() == Full(old(View()), bytes)
    {
      HasWritten(data.Length - writerIndex);
    }
  }
}
