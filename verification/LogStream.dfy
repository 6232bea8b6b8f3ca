/** Integer printing of base/LogStream.cc: digits are produced least significant first with
    C++ division (which truncates toward zero), a mirrored digit table serves negative
    remainders, and the text is reversed in place. */
module Logging {

  const DIGITS := "9876543210123456789"
  const MAX_NUM_SIZE: nat := 32
  const MAX_TEXT: nat := 20

  /** The value range of one integer type `append_num` is instantiated with. */
  datatype Width = Width(lo: int, hi: int)

  const SHORT := Width(-0x8000, 0x7fff)
  const INT := Width(-0x8000_0000, 0x7fff_ffff)
  const UINT := Width(0, 0xffff_ffff)
  const LONG := Width(-0x8000_0000_0000_0000, 0x7fff_ffff_ffff_ffff)
  const ULONG := Width(0, 0xffff_ffff_ffff_ffff)

  predicate Supported(t: Width) {
    t in {SHORT, INT, UINT, LONG, ULONG}
  }

  function Abs(v: int): nat { if v < 0 then -v else v }

  function TruncDiv(a: int, b: nat): int
    requires b > 0
  {
    if a >= 0 then a / b else -(-a / b)
  }

  function TruncMod(a: int, b: nat): int
    requires b > 0
  {
    a - TruncDiv(a, b) * b
  }

  function Digit(d: nat): (c: char)
    requires d < 10
    ensures '0' <= c <= '9' && c as int - '0' as int == d
  {
    "0123456789"[d]
  }

  function Digits(n: nat): (s: string)
    ensures |s| > 0
  {
    if n < 10 then [Digit(n)] else Digits(n / 10) + [Digit(n % 10)]
  }

  /** The decimal text of an integer. */
  function Decimal(v: int): string {
    if v < 0 then "-" + Digits(-v) else Digits(v)
  }

  predicate AllDigits(s: string) {
    forall i :: 0 <= i < |s| ==> '0' <= s[i] <= '9'
  }

  function NatOf(s: string): nat
    requires AllDigits(s)
  {
    if s == "" then 0
    else NatOf(s[..|s| - 1]) * 10 + (s[|s| - 1] as int - '0' as int)
  }

  predicate IsNumeral(s: string) {
    if s != "" && s[0] == '-' then |s| > 1 && AllDigits(s[1..]) else s != "" && AllDigits(s)
  }

  function ValueOf(s: string): int
    requires IsNumeral(s)
  {
    if s[0] == '-' then 0 - NatOf(s[1..]) else NatOf(s)
  }

  /** No leading zero except for "0" itself, and a sign only on a non-zero number. */
  predicate Canonical(s: string) {
    && IsNumeral(s)
    && (s[0] == '-' ==> s[1] != '0')
    && (s[0] == '0' ==> |s| == 1)
  }

  lemma {:induction false} DigitsRoundTrip(n: nat)
    ensures AllDigits(Digits(n)) && NatOf(Digits(n)) == n
    ensures Digits(n)[0] == '0' ==> n == 0 && |Digits(n)| == 1
  {
    if n >= 10 {
      DigitsRoundTrip(n / 10);
      var s := Digits(n);
      assert s[..|s| - 1] == Digits(n / 10);
    } else {
      assert Digits(n)[..0] == "";
    }
  }

  lemma {:induction false} NatOfPositive(s: string)
    requires AllDigits(s) && s != "" && s[0] != '0'
    ensures NatOf(s) > 0
  {
    if |s| > 1 {
      NatOfPositive(s[..|s| - 1]);
    }
  }

  lemma {:induction false} NumeralRoundTrip(s: string)
    requires AllDigits(s) && s != "" && (s[0] == '0' ==> |s| == 1)
    ensures Digits(NatOf(s)) == s
  {
    var front, last := s[..|s| - 1], s[|s| - 1];
    if |s| > 1 {
      NumeralRoundTrip(front);
      NatOfPositive(front);
      NumeralSnoc(front, last);
      assert s == front + [last];
    } else {
      assert NatOf(front) == 0 && s == [s[0]];
      DigitOf(s[0]);
    }
  }

  lemma NatOfSnoc(front: string, last: char)
    requires AllDigits(front) && '0' <= last <= '9'
    ensures AllDigits(front + [last]) && NatOf(front + [last]) == 10 * NatOf(front) + (last as int - '0' as int)
  {
    assert (front + [last])[..|front|] == front;
  }

  lemma NumeralSnoc(front: string, last: char)
    requires AllDigits(front) && '0' <= last <= '9'
    requires NatOf(front) > 0 && Digits(NatOf(front)) == front
    ensures AllDigits(front + [last]) && Digits(NatOf(front + [last])) == front + [last]
  {
    NatOfSnoc(front, last);
    DigitOf(last);
    DigitsStep(NatOf(front), last as int - '0' as int);
  }

  lemma DigitOf(c: char)
    requires '0' <= c <= '9'
    ensures Digit(c as int - '0' as int) == c
  {
  }

  lemma DigitsStep(n: nat, d: nat)
    requires n > 0 && d < 10
    ensures Digits(10 * n + d) == Digits(n) + [Digit(d)]
  {
    assert (10 * n + d) / 10 == n;
  }

  /** Reading the printed text gives the number back, and the text is canonical. */
  lemma PrintThenParse(v: int)
    ensures Canonical(Decimal(v)) && ValueOf(Decimal(v)) == v
  {
    DigitsRoundTrip(Abs(v));
    if v < 0 {
      assert Decimal(v)[1..] == Digits(-v);
    }
  }

  /** A canonical text is the printed form of the number it denotes, and of no other. */
  lemma ParseThenPrint(s: string)
    requires Canonical(s)
    ensures Decimal(ValueOf(s)) == s
  {
    if s[0] == '-' {
      NatOfPositive(s[1..]);
      NumeralRoundTrip(s[1..]);
    } else {
      NumeralRoundTrip(s);
    }
  }

  function Pow10(k: nat): nat { if k == 0 then 1 else 10 * Pow10(k - 1) }

  lemma {:induction false} DigitsLength(n: nat, k: nat)
    requires k > 0 && n < Pow10(k)
    ensures |Digits(n)| <= k
  {
    if n >= 10 {
      assert Pow10(1) == 10 * Pow10(0) == 10;
      DigitsLength(n / 10, k - 1);
    }
  }

  lemma Pow10At(k: nat)
    requires 19 <= k <= 20
    ensures Pow10(19) == 10_000_000_000_000_000_000 && Pow10(20) == 100_000_000_000_000_000_000
  {
    assert Pow10(5) == 100000;
    assert Pow10(10) == 10_000_000_000;
    assert Pow10(15) == 1_000_000_000_000_000;
    assert Pow10(19) == 10_000_000_000_000_000_000;
  }

  /** Every value of every supported width prints in at most 20 characters. */
  lemma DecimalFits(v: int, t: Width)
    requires Supported(t) && t.lo <= v <= t.hi
    ensures 1 <= |Decimal(v)| <= MAX_TEXT
  {
    Pow10At(20);
    DigitsLength(Abs(v), if v < 0 then 19 else 20);
  }

  /** The ranges of the five integer types. */
  lemma SupportedTypes(t: Width)
    ensures Supported(t) <==>
            t in {Width(-32768, 32767), Width(-2147483648, 2147483647), Width(0, 4294967295),
                  Width(-9223372036854775808, 9223372036854775807), Width(0, 18446744073709551615)}
  {
  }

  /** Some supported type holds each integer of 64 bits, signed or not. */
  lemma EveryIntegerPrints(v: int)
    requires -9223372036854775808 <= v <= 18446744073709551615
    ensures exists t: Width :: Supported(t) && t.lo <= v <= t.hi
    ensures 1 <= |Decimal(v)| <= 20
  {
    var t := if v <= LONG.hi then LONG else ULONG;
    assert Supported(t);
    DecimalFits(v, t);
  }

  function Reversed(s: string): string {
    seq(|s|, i requires 0 <= i < |s| => s[|s| - 1 - i])
  }

  method ReverseRange(buf: array<char>, lo: nat, hi: nat)
    requires lo <= hi <= buf.Length
    modifies buf
    ensures buf[lo..hi] == Reversed(old(buf[lo..hi]))
    ensures forall k :: 0 <= k < lo || hi <= k < buf.Length ==> buf[k] == old(buf[k])
  {
    ghost var was := buf[..];
    var i, j := lo, hi;
    while i + 1 < j
      invariant lo <= i <= j <= hi && i - lo == hi - j
      invariant forall k :: lo <= k < i ==> buf[k] == was[lo + hi - 1 - k]
      invariant forall k :: j <= k < hi ==> buf[k] == was[lo + hi - 1 - k]
      invariant forall k :: 0 <= k < lo || i <= k < j || hi <= k < buf.Length ==> buf[k] == was[k]
    {
      j := j - 1;
      buf[i], buf[j] := buf[j], buf[i];
      i := i + 1;
    }
    assert buf[lo..hi] == Reversed(was[lo..hi]);
  }

  lemma ReversedSnoc(s: string, c: char)
    ensures Reversed(s + [c]) == [c] + Reversed(s)
  {
    assert |s + [c]| == |[c] + Reversed(s)|;
  }

  /** One division step: the remainder of either sign selects the digit of the magnitude. */
  lemma TailDigit(i: int)
    ensures -9 <= TruncMod(i, 10) <= 9
    ensures DIGITS[9 + TruncMod(i, 10)] == Digit(Abs(i) % 10)
    ensures Abs(TruncDiv(i, 10)) == Abs(i) / 10
  {
    var tail := TruncMod(i, 10);
    assert Abs(tail) == Abs(i) % 10;
    assert DIGITS[9 + tail] == "0123456789"[Abs(tail)];
  }

  lemma EmitStep(all: string, n: nat, before: string, after: string)
    requires all == Digits(n) + Reversed(before)
    requires after == before + [Digit(n % 10)]
    ensures all == (if n / 10 != 0 then Digits(n / 10) else "") + Reversed(after)
  {
    ReversedSnoc(before, Digit(n % 10));
    assert Digits(n) == (if n / 10 != 0 then Digits(n / 10) else "") + [Digit(n % 10)];
  }

  /** The do-while loop of `num10_to_str`: the digits of |v|, least significant first. Every
      quotient stays inside the width, so no step overflows. */
  method EmitDigits(buf: array<char>, cur: nat, v: int, t: Width) returns (p: nat)
    requires Supported(t) && t.lo <= v <= t.hi
    requires cur + |Digits(Abs(v))| <= buf.Length
    modifies buf
    ensures p == cur + |Digits(Abs(v))|
    ensures Reversed(buf[cur..p]) == Digits(Abs(v))
    ensures forall k :: 0 <= k < cur || p <= k < buf.Length ==> buf[k] == old(buf[k])
  {
    var i := v;
    p := cur;
    var more := true;
    ghost var all := Digits(Abs(v));
    while more
      invariant t.lo <= i <= t.hi
      invariant cur <= p <= buf.Length
      invariant all == (if more then Digits(Abs(i)) else "") + Reversed(buf[cur..p])
      invariant forall k :: 0 <= k < cur || p <= k < buf.Length ==> buf[k] == old(buf[k])
      decreases more, Abs(i)
    {
      ghost var before, n := buf[cur..p], Abs(i);
      i := EmitDigit(buf, cur, p, i);
      p := p + 1;
      more := i != 0;
      EmitStep(all, n, before, buf[cur..p]);
    }
  }

  method EmitDigit(buf: array<char>, cur: nat, p: nat, i: int) returns (quotient: int)
    requires cur <= p < buf.Length
    modifies buf
    ensures quotient == TruncDiv(i, 10) && Abs(quotient) == Abs(i) / 10
    ensures buf[cur..p + 1] == old(buf[cur..p]) + [Digit(Abs(i) % 10)]
    ensures forall k :: 0 <= k < buf.Length && k != p ==> buf[k] == old(buf[k])
  {
    TailDigit(i);
    var tail := TruncMod(i, 10);
    quotient := TruncDiv(i, 10);
    buf[p] := DIGITS[9 + tail];
    assert buf[cur..p] == old(buf[cur..p]);
  }

  /** The terminator, and the reversal of the text before it. */
  method Finish(buf: array<char>, cur: nat, p: nat)
    requires cur <= p < buf.Length
    modifies buf
    ensures buf[cur..p] == Reversed(old(buf[cur..p])) && buf[p] == '\0'
    ensures forall k :: 0 <= k < cur || p < k < buf.Length ==> buf[k] == old(buf[k])
  {
    ghost var was := buf[cur..p];
    buf[p] := '\0';
    assert buf[cur..p] == was;
    ReverseRange(buf, cur, p);
  }

  /** The text of the number, sign included, last character first. */
  method EmitReversed(buf: array<char>, cur: nat, v: int, t: Width) returns (p: nat)
    requires Supported(t) && t.lo <= v <= t.hi
    requires cur + |Decimal(v)| <= buf.Length
    modifies buf
    ensures p == cur + |Decimal(v)| && Reversed(buf[cur..p]) == Decimal(v)
    ensures forall k :: 0 <= k < cur || p <= k < buf.Length ==> buf[k] == old(buf[k])
  {
    p := EmitDigits(buf, cur, v, t);
    if v < 0 {
      ghost var before := buf[cur..p];
      buf[p] := '-';
      p := p + 1;
      assert buf[cur..p] == before + ['-'];
      ReversedSnoc(before, '-');
    }
  }

  method Num10ToStr(buf: array<char>, cur: nat, v: int, t: Width) returns (len: nat)
    requires Supported(t) && t.lo <= v <= t.hi
    requires cur + MAX_NUM_SIZE < buf.Length
    modifies buf
    ensures 1 <= len <= MAX_TEXT
    ensures buf[cur..cur + len] == Decimal(v) && buf[cur + len] == '\0'
    ensures forall k :: 0 <= k < cur || cur + len < k < buf.Length ==> buf[k] == old(buf[k])
  {
    DecimalFits(v, t);
    ghost var text := Decimal(v);
    var p := EmitReversed(buf, cur, v, t);
    len := p - cur;
    assert p == cur + len && len == |text|;
    Finish(buf, cur, p);
  }

  lemma SplitPrefix(s: string, i: nat, j: nat)
    requires i <= j <= |s|
    ensures s[..j] == s[..i] + s[i..j]
  {
  }

  class LogStream {
    const data: array<char>
    var cur: nat

    ghost predicate Valid()
      reads this
    {
      cur <= data.Length
    }

    ghost function Text(): string
      requires Valid()
      reads this, data
    {
      data[..cur]
    }

    constructor (size: nat)
      ensures Valid() && fresh(data) && data.Length == size && Text() == ""
    {
      data := new char[size];
      cur := 0;
    }

    /** `append_num`: the whole number, or nothing when at most 32 bytes are left. */
    method AppendNum(v: int, t: Width)
      requires Valid() && Supported(t) && t.lo <= v <= t.hi
      modifies this, data
      ensures Valid()
      ensures Text() ==
              if data.Length - |old(Text())| > 32 then old(Text()) + Decimal(v) else old(Text())
    {
      if data.Length - cur > MAX_NUM_SIZE {
        var len := Num10ToStr(data, cur, v, t);
        assert data[..cur] == old(data[..cur]);
        SplitPrefix(data[..], cur, cur + len);
        cur := cur + len;
      }
    }
  }
}
