/** The log stream: a fixed buffer into which text, integers and pointers are inserted,
    each wholly or not at all. */
module LoggingStream {
  import opened Numerals

  const MIN_BUFFER_SIZE: nat := 4000
  const MAX_NUMERIC_SIZE: nat := 32

  // ---------- What a stream is worth ----------

  /** An insertion: text (a string, a character, a flag), an integer, or a pointer. */
  datatype Piece = Text(s: string) | Number(v: int) | Pointer(address: nat)

  predicate InRange(piece: Piece) {
    match piece
    case Text(s) => |s| < 0x8000_0000
    case Number(v) => -0x8000_0000_0000_0000 <= v < 0x1_0000_0000_0000_0000
    case Pointer(address) => address < 0x1_0000_0000_0000_0000
  }

  function Rendered(piece: Piece): string {
    match piece
    case Text(s) => s
    case Number(v) => Decimal(v)
    case Pointer(address) => "0x" + Numeral(address, 16)
  }

  /** The guards: text must leave a byte free, a number needs room for the longest. */
  predicate Taken(capacity: nat, text: string, piece: Piece) {
    if piece.Text? then |text| + |piece.s| < capacity else |text| + MAX_NUMERIC_SIZE <= capacity
  }

  function Inserted(capacity: nat, text: string, piece: Piece): string {
    if Taken(capacity, text, piece) then text + Rendered(piece) else text
  }

  // ---------- Runs of insertions ----------

  function Run(capacity: nat, text: string, pieces: seq<Piece>): string
    decreases |pieces|
  {
    if pieces == [] then text else Run(capacity, Inserted(capacity, text, pieces[0]), pieces[1..])
  }

  /** The pieces kept, whole and in order: a subsequence of those inserted. */
  function Kept(capacity: nat, text: string, pieces: seq<Piece>): seq<Piece>
    decreases |pieces|
  {
    if pieces == [] then []
    else
      (if Taken(capacity, text, pieces[0]) then [pieces[0]] else []) +
      Kept(capacity, Inserted(capacity, text, pieces[0]), pieces[1..])
  }

  function Joined(pieces: seq<Piece>): string {
    if pieces == [] then "" else Rendered(pieces[0]) + Joined(pieces[1..])
  }

  predicate Subsequence(xs: seq<Piece>, ys: seq<Piece>)
    decreases |ys|
  {
    xs == [] || (ys != [] && (Subsequence(xs, ys[1..]) || (xs[0] == ys[0] && Subsequence(xs[1..], ys[1..]))))
  }

  predicate AllInRange(pieces: seq<Piece>) {
    forall i :: 0 <= i < |pieces| ==> InRange(pieces[i])
  }

  lemma InsertedLeavesRoom(capacity: nat, text: string, piece: Piece)
    requires |text| < capacity && InRange(piece)
    ensures |Inserted(capacity, text, piece)| < capacity
    ensures !piece.Text? ==> |Rendered(piece)| + 1 < MAX_NUMERIC_SIZE
  {
    match piece
    case Text(_) =>
    case Number(v) => DecimalRoundTrip(v);
    case Pointer(address) => HexRoundTrip(address);
  }

  /** A piece taken comes before those kept after it. */
  lemma TakenFirst(text: string, piece: Piece, rest: seq<Piece>, pieces: seq<Piece>)
    requires Subsequence(rest, pieces)
    ensures Subsequence([piece] + rest, [piece] + pieces)
    ensures (text + Rendered(piece)) + Joined(rest) == text + Joined([piece] + rest)
  {
    assert ([piece] + rest)[1..] == rest && ([piece] + pieces)[1..] == pieces;
  }

  lemma DroppedFirst(piece: Piece, rest: seq<Piece>, pieces: seq<Piece>)
    requires Subsequence(rest, pieces)
    ensures Subsequence(rest, [piece] + pieces)
  {
    assert ([piece] + pieces)[1..] == pieces;
  }

  lemma KeptSplits(capacity: nat, text: string, pieces: seq<Piece>)
    requires pieces != []
    ensures var rest := Kept(capacity, Inserted(capacity, text, pieces[0]), pieces[1..]);
      Kept(capacity, text, pieces) == if Taken(capacity, text, pieces[0]) then [pieces[0]] + rest else rest
  {
    assert forall rest: seq<Piece> :: [] + rest == rest;
  }

  /** In every run of insertions the buffer holds exactly some of the pieces, each whole,
      in the order they were inserted, and at least one byte always stays free. */
  lemma {:induction false} WholePiecesInOrder(capacity: nat, text: string, pieces: seq<Piece>)
    requires |text| < capacity && AllInRange(pieces)
    ensures |Run(capacity, text, pieces)| < capacity
    ensures Run(capacity, text, pieces) == text + Joined(Kept(capacity, text, pieces))
    ensures Subsequence(Kept(capacity, text, pieces), pieces)
    decreases |pieces|
  {
    if pieces == [] {
      assert text + "" == text;
    } else {
      InsertedLeavesRoom(capacity, text, pieces[0]);
      var text' := Inserted(capacity, text, pieces[0]);
      var rest := Kept(capacity, text', pieces[1..]);
      assert AllInRange(pieces[1..]);
      WholePiecesInOrder(capacity, text', pieces[1..]);
      KeptSplits(capacity, text, pieces);
      assert pieces == [pieces[0]] + pieces[1..];
      if Taken(capacity, text, pieces[0]) {
        TakenFirst(text, pieces[0], rest, pieces[1..]);
      } else {
        DroppedFirst(pieces[0], rest, pieces[1..]);
      }
    }
  }

  /** What an insertion must find free: a text a byte more than its length, any number the
      room for the longest. */
  function Needed(piece: Piece): nat {
    if piece.Text? then |piece.s| + 1 else MAX_NUMERIC_SIZE
  }

  /** Every piece finds free what it needs behind all the pieces before it. */
  predicate EachFits(capacity: nat, text: string, pieces: seq<Piece>) {
    forall i :: 0 <= i < |pieces| ==> |text| + |Joined(pieces[..i])| + Needed(pieces[i]) <= capacity
  }

  lemma FitsFromFirst(capacity: nat, text: string, pieces: seq<Piece>)
    requires pieces != []
    ensures EachFits(capacity, text, pieces) <==>
      |text| + Needed(pieces[0]) <= capacity && EachFits(capacity, text + Rendered(pieces[0]), pieces[1..])
  {
    assert pieces[..0] == [];
    forall i | 0 < i < |pieces| ensures Joined(pieces[..i]) == Rendered(pieces[0]) + Joined(pieces[1..][..i - 1]) {
      assert pieces[..i][1..] == pieces[1..][..i - 1];
    }
    if EachFits(capacity, text, pieces) {
      forall i | 0 <= i < |pieces[1..]|
        ensures |text + Rendered(pieces[0])| + |Joined(pieces[1..][..i])| + Needed(pieces[1..][i]) <= capacity
      {
        assert pieces[i + 1] == pieces[1..][i];
      }
    }
    if |text| + Needed(pieces[0]) <= capacity && EachFits(capacity, text + Rendered(pieces[0]), pieces[1..]) {
      forall i | 0 <= i < |pieces| ensures |text| + |Joined(pieces[..i])| + Needed(pieces[i]) <= capacity {
        if i > 0 {
          assert pieces[i] == pieces[1..][i - 1];
        }
      }
    }
  }

  lemma {:induction false} KeptIsNoLonger(capacity: nat, text: string, pieces: seq<Piece>)
    ensures |Kept(capacity, text, pieces)| <= |pieces|
    decreases |pieces|
  {
    if pieces == [] {
    } else {
      KeptIsNoLonger(capacity, Inserted(capacity, text, pieces[0]), pieces[1..]);
    }
  }

  lemma SameHead(piece: Piece, xs: seq<Piece>, ys: seq<Piece>)
    ensures [piece] + xs == [piece] + ys <==> xs == ys
  {
    assert ([piece] + xs)[1..] == xs && ([piece] + ys)[1..] == ys;
  }

  /** If and only if the first piece is taken and all the others are kept after it. */
  lemma KeptFromFirst(capacity: nat, text: string, pieces: seq<Piece>)
    requires pieces != []
    ensures Kept(capacity, text, pieces) == pieces <==>
      && |text| + Needed(pieces[0]) <= capacity
      && Kept(capacity, text + Rendered(pieces[0]), pieces[1..]) == pieces[1..]
  {
    KeptSplits(capacity, text, pieces);
    if Taken(capacity, text, pieces[0]) {
      assert pieces == [pieces[0]] + pieces[1..];
      SameHead(pieces[0], Kept(capacity, text + Rendered(pieces[0]), pieces[1..]), pieces[1..]);
    } else {
      KeptIsNoLonger(capacity, text, pieces[1..]);
    }
  }

  /** A run of insertions keeps every piece exactly if each fits behind those before it. */
  lemma {:induction false} AllKeptIff(capacity: nat, text: string, pieces: seq<Piece>)
    ensures Kept(capacity, text, pieces) == pieces <==> EachFits(capacity, text, pieces)
    decreases |pieces|
  {
    if pieces == [] {
    } else {
      FitsFromFirst(capacity, text, pieces);
      KeptFromFirst(capacity, text, pieces);
      AllKeptIff(capacity, text + Rendered(pieces[0]), pieces[1..]);
    }
  }

  /** So with room for everything and one number more, nothing is dropped and the buffer is
      the old text followed by all the pieces. */
  lemma NothingDropped(capacity: nat, text: string, pieces: seq<Piece>)
    requires AllInRange(pieces) && |text| + |Joined(pieces)| + MAX_NUMERIC_SIZE <= capacity
    ensures Run(capacity, text, pieces) == text + Joined(pieces)
  {
    forall i | 0 <= i < |pieces| ensures |text| + |Joined(pieces[..i])| + Needed(pieces[i]) <= capacity {
      JoinedUpTo(pieces, i);
    }
    AllKeptIff(capacity, text, pieces);
    WholePiecesInOrder(capacity, text, pieces);
  }

  lemma {:induction false} JoinedUpTo(pieces: seq<Piece>, i: nat)
    requires i < |pieces|
    ensures |Joined(pieces[..i])| + |Rendered(pieces[i])| <= |Joined(pieces)|
  {
    if i == 0 {
      assert pieces[..0] == [];
    } else {
      JoinedUpTo(pieces[1..], i - 1);
      assert pieces[..i][1..] == pieces[1..][..i - 1];
    }
  }

  // ---------- The buffer and the stream in memory ----------

  lemma ReversedIs(was: string, now: string)
    requires |was| == |now|
    requires forall k :: 0 <= k < |now| ==> now[k] == was[|was| - 1 - k]
    ensures now == Reversed(was)
  {
  }

  /** `std::reverse` of a stretch of an array. */
  method ReverseStretch(buf: array<char>, from: nat, to: nat)
    requires from <= to <= buf.Length
    modifies buf
    ensures buf[..from] == old(buf[..from]) && buf[to..] == old(buf[to..])
    ensures buf[from..to] == Reversed(old(buf[from..to]))
  {
    ghost var was := buf[..];
    var i, j := from, to;
    while i + 1 < j
      invariant from <= i <= j + 1 && j <= to && i - from == to - j
      invariant buf[..from] == was[..from] && buf[to..] == was[to..]
      invariant forall k {:trigger buf[k]} :: i <= k < j ==> buf[k] == was[k]
      invariant forall k {:trigger buf[k]} :: from <= k < i ==> buf[k] == was[from + to - 1 - k]
      invariant forall k {:trigger buf[k]} :: j <= k < to ==> buf[k] == was[from + to - 1 - k]
    {
      buf[i], buf[j - 1] := buf[j - 1], buf[i];
      i, j := i + 1, j - 1;
    }
    assert forall k {:trigger buf[k]} :: from <= k < to ==> buf[k] == was[from + to - 1 - k];
    ReversedIs(was[from..to], buf[from..to]);
  }

  /** `*p++ = c`. */
  method Put(buf: array<char>, p: nat, c: char) returns (q: nat)
    requires p < buf.Length
    modifies buf
    ensures q == p + 1
    ensures buf[..q] == old(buf[..p]) + [c]
  {
    buf[p] := c;
    q := p + 1;
  }

  /** The loop of `convert`: the digits of `v`, least significant first. */
  method WriteDigits(buf: array<char>, at: nat, v: int) returns (p: nat)
    requires at + |LowDigits(v)| <= buf.Length
    modifies buf
    ensures p == at + |LowDigits(v)|
    ensures buf[..p] == old(buf[..at]) + LowDigits(v)
  {
    ghost var written: seq<char> := [];
    var i, again := v, true;
    p := at;
    while again
      invariant written + Pending(again, i) == LowDigits(v)
      invariant p == at + |written| && p <= buf.Length
      invariant buf[..p] == old(buf[..at]) + written
      decreases again, Magnitude(i)
    {
      DigitWritten(written, i);
      var lsd := TruncMod(i, 10);
      i := TruncDiv(i, 10);
      again := i != 0;
      p := Put(buf, p, Centred(lsd));
      written := written + [Centred(lsd)];
    }
  }

  /** The loop of `convertHex`. */
  method WriteHexDigits(buf: array<char>, at: nat, value: nat) returns (p: nat)
    requires at + |LowHexDigits(value)| <= buf.Length
    modifies buf
    ensures p == at + |LowHexDigits(value)|
    ensures buf[..p] == old(buf[..at]) + LowHexDigits(value)
  {
    ghost var written: seq<char> := [];
    var i, again := value, true;
    p := at;
    while again
      invariant written + PendingHex(again, i) == LowHexDigits(value)
      invariant p == at + |written| && p <= buf.Length
      invariant buf[..p] == old(buf[..at]) + written
      decreases again, i
    {
      HexDigitWritten(written, i);
      var lsd := i % 16;
      i := i / 16;
      again := i != 0;
      p := Put(buf, p, HEX_DIGITS[lsd]);
      written := written + [HEX_DIGITS[lsd]];
    }
  }

  /** The digits and then, of a negative number, the minus. */
  method WriteSigned(buf: array<char>, at: nat, v: int, ghost low: string) returns (p: nat)
    requires low == LowDigits(v) + Sign(v) && at + |low| <= buf.Length
    modifies buf
    ensures p == at + |low|
    ensures buf[..p] == old(buf[..at]) + low
  {
    p := WriteDigits(buf, at, v);
    if v < 0 {
      p := Put(buf, p, '-');
    }
  }

  /** The terminator, and the reversal of what was written from `at` to `p`. */
  method Finish(buf: array<char>, at: nat, p: nat, ghost before: seq<char>, ghost low: seq<char>, ghost text: string)
    requires at <= p < buf.Length
    requires |before| == at && buf[..p] == before + low
    requires text == Reversed(low)
    modifies buf
    ensures p == at + |text| && buf[..p] == before + text
  {
    buf[p] := '\0';
    assert buf[..p] == before + low;
    assert buf[..at] == before && buf[at..p] == low;
    ReverseStretch(buf, at, p);
    assert buf[..p] == buf[..at] + buf[at..p];
  }

  /** `convert`: writes `v` from `at` on and tells how many characters. */
  method Convert(buf: array<char>, at: nat, v: int) returns (len: nat)
    requires at + |Decimal(v)| < buf.Length
    modifies buf
    ensures len == |Decimal(v)|
    ensures buf[..at + len] == old(buf[..at]) + Decimal(v)
  {
    ghost var before, low, text := buf[..at], LowDigits(v) + Sign(v), Decimal(v);
    assert text == Reversed(low) by {
      ConvertedIsDecimal(v);
    }
    var p := WriteSigned(buf, at, v, low);
    Finish(buf, at, p, before, low, text);
    len := p - at;
  }

  /** `convertHex`. */
  method ConvertHex(buf: array<char>, at: nat, value: nat) returns (len: nat)
    requires at + |Numeral(value, 16)| < buf.Length
    modifies buf
    ensures len == |Numeral(value, 16)|
    ensures buf[..at + len] == old(buf[..at]) + Numeral(value, 16)
  {
    ghost var before, low, text := buf[..at], LowHexDigits(value), Numeral(value, 16);
    LowHexDigitsAreNumeral(value);
    var p := WriteHexDigits(buf, at, value);
    Finish(buf, at, p, before, low, text);
    len := p - at;
  }

  method PutPrefix(buf: array<char>, at: nat)
    requires at + 2 <= buf.Length
    modifies buf
    ensures buf[..at + 2] == old(buf[..at]) + "0x"
  {
    buf[at] := '0';
    buf[at + 1] := 'x';
  }

  lemma PointerText(before: string, address: nat)
    ensures before + "0x" + Numeral(address, 16) == before + Rendered(Pointer(address))
    ensures |Rendered(Pointer(address))| == 2 + |Numeral(address, 16)|
  {
    var digits := Numeral(address, 16);
    assert before + "0x" + digits == before + ("0x" + digits);
  }

  /** `0x` and the digits of an address. */
  method WritePointer(buf: array<char>, at: nat, address: nat) returns (len: nat)
    requires at + 2 + |Numeral(address, 16)| < buf.Length
    modifies buf
    ensures len == 2 + |Numeral(address, 16)|
    ensures buf[..at + len] == old(buf[..at]) + "0x" + Numeral(address, 16)
  {
    PutPrefix(buf, at);
    len := ConvertHex(buf, at + 2, address);
    len := len + 2;
  }

  class FixedBuffer {
    const data: array<char>
    var cur: nat

    ghost predicate Valid()
      reads this
    {
      cur <= data.Length
    }

    ghost function Text(): string
      requires Valid()
      reads this, data
    {
      data[..cur]
    }

    constructor (size: nat)
      ensures Valid() && fresh(data) && data.Length == size && Text() == ""
    {
      data := new char[size](_ => '\0');
      cur := 0;
    }

    function Avail(): nat
      requires Valid()
      reads this
    {
      data.Length - cur
    }

    method Append(s: string)
      requires Valid()
      modifies this`cur, data
      ensures Valid() && Text() == if old(Avail()) > |s| then old(Text()) + s else old(Text())
    {
      if Avail() > |s| {
        for i := 0 to |s|
          invariant cur == old(cur) && data[..cur] == old(data[..cur]) && data[cur..cur + i] == s[..i]
        {
          data[cur + i] := s[i];
        }
        assert data[..cur + |s|] == data[..cur] + data[cur..cur + |s|];
        cur := cur + |s|;
      }
    }

    method Add(len: nat)
      requires Valid() && len <= Avail()
      modifies this`cur
      ensures Valid() && Text() == data[..old(cur) + len]
    {
      cur := cur + len;
    }

    method Reset()
      modifies this`cur
      ensures Valid() && Text() == ""
    {
      cur := 0;
    }
  }

  class LoggingStream {
    const buffer: FixedBuffer

    constructor ()
      ensures fresh(buffer) && fresh(buffer.data) && buffer.Valid()
      ensures buffer.data.Length == MIN_BUFFER_SIZE && buffer.Text() == ""
    {
      buffer := new FixedBuffer(MIN_BUFFER_SIZE);
    }

    method InsertText(s: string)
      requires buffer.Valid()
      modifies buffer, buffer.data
      ensures buffer.Valid() && buffer.Text() == Inserted(buffer.data.Length, old(buffer.Text()), Text(s))
    {
      buffer.Append(s);
    }

    method FormatInteger(v: int)
      requires buffer.Valid() && InRange(Number(v))
      modifies buffer, buffer.data
      ensures buffer.Valid() && buffer.Text() == Inserted(buffer.data.Length, old(buffer.Text()), Number(v))
    {
      if buffer.Avail() >= MAX_NUMERIC_SIZE {
        InsertedLeavesRoom(buffer.data.Length, "", Number(v));
        var len := Convert(buffer.data, buffer.cur, v);
        buffer.Add(len);
      }
    }

    method InsertPointer(address: nat)
      requires buffer.Valid() && InRange(Pointer(address))
      modifies buffer, buffer.data
      ensures buffer.Valid() && buffer.Text() == Inserted(buffer.data.Length, old(buffer.Text()), Pointer(address))
    {
      if buffer.Avail() >= MAX_NUMERIC_SIZE {
        InsertedLeavesRoom(buffer.data.Length, "", Pointer(address));
        PointerText(buffer.Text(), address);
        var len := WritePointer(buffer.data, buffer.cur, address);
        buffer.Add(len);
      }
    }

    /** Inserts one piece through the operator for its kind. */
    method Insert(piece: Piece)
      requires buffer.Valid() && InRange(piece) && |buffer.Text()| < buffer.data.Length
      modifies buffer, buffer.data
      ensures buffer.Valid() && buffer.Text() == Inserted(buffer.data.Length, old(buffer.Text()), piece)
      ensures |buffer.Text()| < buffer.data.Length
    {
      InsertedLeavesRoom(buffer.data.Length, buffer.Text(), piece);
      match piece
      case Text(s) => InsertText(s);
      case Number(v) => FormatInteger(v);
      case Pointer(address) => InsertPointer(address);
    }
  }
}
