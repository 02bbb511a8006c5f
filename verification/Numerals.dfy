/** Integers as text: the numeral of a number, a parser for it, and the digit-by-digit
    form the formatter produces. */
module Numerals {
  import opened Wrappers

  const DIGITS: string := "9876543210123456789"
  const HEX_DIGITS: string := "0123456789abcdef"

  // ---------- What a numeral is ----------

  predicate IsBase(base: nat) {
    base == 10 || base == 16
  }

  /** Most significant digit first. */
  function Numeral(n: nat, base: nat): (s: string)
    requires IsBase(base)
    ensures s != []
  {
    if n < base then [HEX_DIGITS[n]] else Numeral(n / base, base) + [HEX_DIGITS[n % base]]
  }

  function Decimal(v: int): string {
    if v < 0 then "-" + Numeral(-v, 10) else Numeral(v, 10)
  }

  // ---------- Reading one back ----------

  function DigitValue(c: char): Option<nat> {
    if '0' <= c <= '9' then Some(c as int - '0' as int)
    else if 'a' <= c <= 'f' then Some(c as int - 'a' as int + 10)
    else None
  }

  function ParseNat(s: string, base: nat): Option<nat> {
    if s == [] then None
    else
      match DigitValue(s[|s| - 1])
      case None => None
      case Some(d) =>
        if d >= base then None
        else if |s| == 1 then Some(d)
        else match ParseNat(s[..|s| - 1], base)
          case None => None
          case Some(n) => Some(base * n + d)
  }

  function ParseInt(s: string): Option<int> {
    var negative := s != [] && s[0] == '-';
    match ParseNat(if negative then s[1..] else s, 10)
    case None => None
    case Some(n) =>
      var v: int := n;
      Some(if negative then -v else v)
  }

  lemma HexDigit(d: nat)
    requires d < 16
    ensures DigitValue(HEX_DIGITS[d]) == Some(d)
  {
  }

  lemma DivMod(n: nat, base: nat)
    requires IsBase(base)
    ensures base * (n / base) + n % base == n
  {
    if base == 10 {
      assert 10 * (n / 10) + n % 10 == n;
    } else {
      assert 16 * (n / 16) + n % 16 == n;
    }
  }

  lemma ParseSnoc(s: string, d: nat, base: nat)
    requires IsBase(base) && d < base && s != []
    ensures ParseNat(s + [HEX_DIGITS[d]], base) ==
      match ParseNat(s, base) case None => None case Some(n) => Some(base * n + d)
  {
    HexDigit(d);
    var t := s + [HEX_DIGITS[d]];
    assert t[..|t| - 1] == s && t[|t| - 1] == HEX_DIGITS[d];
  }

  lemma {:induction false} ParseNumeral(n: nat, base: nat)
    requires IsBase(base)
    ensures ParseNat(Numeral(n, base), base) == Some(n)
  {
    if n < base {
      HexDigit(n);
    } else {
      ParseNumeral(n / base, base);
      ParseSnoc(Numeral(n / base, base), n % base, base);
      DivMod(n, base);
    }
  }

  /** No numeral starts with a zero but that of zero. */
  lemma {:induction false} NoLeadingZero(n: nat, base: nat)
    requires IsBase(base)
    ensures Numeral(n, base)[0] in HEX_DIGITS
    ensures Numeral(n, base)[0] == '0' <==> n == 0
  {
    if n < base {
      HexDigit(n);
    } else {
      NoLeadingZero(n / base, base);
    }
  }

  function Power(base: nat, k: nat): nat {
    if k == 0 then 1 else base * Power(base, k - 1)
  }

  /** A number below the k-th power has at most k digits. */
  lemma {:induction false} NumeralLength(n: nat, base: nat, k: nat)
    requires IsBase(base) && 0 < k && n < Power(base, k)
    ensures |Numeral(n, base)| <= k
  {
    if n >= base {
      assert k > 1 by {
        assert Power(base, 1) == base * Power(base, 0);
      }
      assert n / base < Power(base, k - 1) by {
        assert n < Power(base, k - 1) * base;
      }
      NumeralLength(n / base, base, k - 1);
    }
  }

  /** Every signed or unsigned 64-bit value reads back from its decimal form, which has
      at most 20 characters, and no leading zeros after its sign. */
  lemma DecimalRoundTrip(v: int)
    requires -0x8000_0000_0000_0000 <= v < 0x1_0000_0000_0000_0000
    ensures ParseInt(Decimal(v)) == Some(v)
    ensures 1 <= |Decimal(v)| <= 20
    ensures var digits := if v < 0 then Decimal(v)[1..] else Decimal(v);
      digits != [] && (digits[0] == '0' ==> v == 0 && digits == "0")
  {
    var n := if v < 0 then -v else v;
    var s := Numeral(n, 10);
    ParseNumeral(n, 10);
    NoLeadingZero(n, 10);
    assert Power(10, 5) == 100_000;
    assert Power(10, 10) == 100_000 * Power(10, 5);
    assert Power(10, 15) == 100_000 * Power(10, 10);
    assert Power(10, 19) == 10_000 * Power(10, 15);
    assert Power(10, 20) == 10 * Power(10, 19);
    NumeralLength(n, 10, if v < 0 then 19 else 20);
    if v < 0 {
      assert Decimal(v)[1..] == s;
    } else {
      assert s[0] != '-';
    }
  }

  /** Every 64-bit address reads back from its hexadecimal form of at most 16 digits. */
  lemma HexRoundTrip(n: nat)
    requires n < 0x1_0000_0000_0000_0000
    ensures ParseNat(Numeral(n, 16), 16) == Some(n)
    ensures 1 <= |Numeral(n, 16)| <= 16
    ensures Numeral(n, 16)[0] == '0' ==> Numeral(n, 16) == "0"
  {
    ParseNumeral(n, 16);
    NoLeadingZero(n, 16);
    assert Power(16, 4) == 0x1_0000;
    assert Power(16, 8) == 0x1_0000 * Power(16, 4);
    assert Power(16, 12) == 0x1_0000 * Power(16, 8);
    assert Power(16, 16) == 0x1_0000 * Power(16, 12);
    NumeralLength(n, 16, 16);
  }

  // ---------- The digits as the formatter meets them ----------

  /** Division and remainder as the machine does them: towards zero. */
  function TruncDiv(a: int, b: nat): int
    requires b > 0
  {
    if a >= 0 then a / b else -(-a / b)
  }

  function TruncMod(a: int, b: nat): int
    requires b > 0
  {
    if a >= 0 then a % b else -(-a % b)
  }

  function Magnitude(i: int): nat {
    if i < 0 then -i else i
  }

  /** `zero[lsd]`: the table is centred, so a negative remainder finds its digit too. */
  function Centred(lsd: int): char
    requires -10 < lsd < 10
  {
    DIGITS[9 + lsd]
  }

  lemma CentredDigit(lsd: int)
    requires -10 < lsd < 10
    ensures Centred(lsd) == HEX_DIGITS[if lsd < 0 then -lsd else lsd]
  {
  }

  /** The loop's digits, least significant first. */
  function LowDigits(i: int): seq<char>
    decreases Magnitude(i)
  {
    var rest := TruncDiv(i, 10);
    [Centred(TruncMod(i, 10))] + if rest == 0 then [] else LowDigits(rest)
  }

  function LowHexDigits(i: nat): seq<char> {
    [HEX_DIGITS[i % 16]] + if i / 16 == 0 then [] else LowHexDigits(i / 16)
  }

  /** The digits still to come, in a loop that stops when the quotient is zero. */
  function Pending(again: bool, i: int): seq<char> {
    if again then LowDigits(i) else []
  }

  function PendingHex(again: bool, i: nat): seq<char> {
    if again then LowHexDigits(i) else []
  }

  /** One turn of the decimal loop moves one digit from what is to come to what is written. */
  lemma DigitWritten(written: seq<char>, i: int)
    ensures var rest := TruncDiv(i, 10);
      written + LowDigits(i) == (written + [Centred(TruncMod(i, 10))]) + Pending(rest != 0, rest)
    ensures TruncDiv(i, 10) != 0 ==> Magnitude(TruncDiv(i, 10)) < Magnitude(i)
  {
  }

  lemma HexDigitWritten(written: seq<char>, i: nat)
    ensures written + LowHexDigits(i) == (written + [HEX_DIGITS[i % 16]]) + PendingHex(i / 16 != 0, i / 16)
    ensures i / 16 != 0 ==> i / 16 < i
  {
  }

  function Reversed(s: seq<char>): (r: seq<char>)
    ensures |r| == |s|
    ensures forall k :: 0 <= k < |s| ==> r[k] == s[|s| - 1 - k]
  {
    if s == [] then [] else Reversed(s[1..]) + [s[0]]
  }

  lemma {:induction false} LowDigitsAreNumeral(i: int)
    ensures Reversed(LowDigits(i)) == Numeral(Magnitude(i), 10)
    decreases Magnitude(i)
  {
    var n := Magnitude(i);
    var rest := TruncDiv(i, 10);
    CentredDigit(TruncMod(i, 10));
    assert Magnitude(TruncMod(i, 10)) == n % 10;
    if n >= 10 {
      LowDigitsAreNumeral(rest);
      assert LowDigits(i)[1..] == LowDigits(rest);
    } else {
      assert rest == 0;
      assert LowDigits(i)[1..] == [];
    }
  }

  lemma {:induction false} LowHexDigitsAreNumeral(i: nat)
    ensures Reversed(LowHexDigits(i)) == Numeral(i, 16)
  {
    if i >= 16 {
      LowHexDigitsAreNumeral(i / 16);
      assert LowHexDigits(i)[1..] == LowHexDigits(i / 16);
    } else {
      assert LowHexDigits(i)[1..] == [];
    }
  }

  function Sign(v: int): string {
    if v < 0 then "-" else ""
  }

  /** What `convert` writes: the low digits, a sign, reversed. */
  lemma ConvertedIsDecimal(v: int)
    ensures |LowDigits(v)| + |Sign(v)| == |Decimal(v)|
    ensures Reversed(LowDigits(v) + Sign(v)) == Decimal(v)
  {
    LowDigitsAreNumeral(v);
    var low := LowDigits(v);
    if v < 0 {
      assert Reversed(low + "-") == "-" + Reversed(low);
    } else {
      assert low + "" == low;
    }
  }
}
