/**
 * Bytes on the wire and the few text encodings the transports need: ASCII
 * literals, the decimal rendering of a length (Go's `%d`, Python's `str`) and
 * UTF-8 (Python's `str.encode('utf-8')`).
 */
module Bytes {

  newtype byte = x: int | 0 <= x < 256

  const LF: byte := 10
  const CR: byte := 13
  const SP: byte := 32
  const COLON: byte := 58
  const PLUS: byte := 43
  const MINUS: byte := 45

  /** The range of Go's `int` and `int64` on a 64-bit platform. */
  const MinInt64: int := -0x8000_0000_0000_0000
  const MaxInt64: int := 0x7FFF_FFFF_FFFF_FFFF

  /** Every character is a 7-bit ASCII character. */
  predicate IsAsciiText(s: string) {
    forall i | 0 <= i < |s| :: s[i] as int < 128
  }

  /** The bytes of an ASCII string: one byte per character. */
  function Ascii(s: string): (r: seq<byte>)
    requires IsAsciiText(s)
    ensures |r| == |s|
    ensures forall i | 0 <= i < |s| :: r[i] as int == s[i] as int
  {
    seq(|s|, i requires 0 <= i < |s| => s[i] as int as byte)
  }

  lemma AsciiAppend(a: string, b: string)
    requires IsAsciiText(a) && IsAsciiText(b)
    ensures IsAsciiText(a + b) && Ascii(a + b) == Ascii(a) + Ascii(b)
  {
    assert IsAsciiText(a + b) by {
      forall i | 0 <= i < |a + b| ensures (a + b)[i] as int < 128 {
        if i >= |a| { assert (a + b)[i] == b[i - |a|]; }
      }
    }
    var l, r := Ascii(a + b), Ascii(a) + Ascii(b);
    forall i | 0 <= i < |l| ensures l[i] == r[i] {
      if i >= |a| { assert (a + b)[i] == b[i - |a|]; }
    }
  }

  // ---------------------------------------------------------------------------
  // Decimal numbers

  predicate IsDigitChar(c: char) { '0' <= c <= '9' }

  predicate IsDigit(b: byte) { 48 <= b <= 57 }

  predicate AllDigitChars(s: string) {
    forall i | 0 <= i < |s| :: IsDigitChar(s[i])
  }

  predicate AllDigits(s: seq<byte>) {
    forall i | 0 <= i < |s| :: IsDigit(s[i])
  }

  /** The decimal text of a natural number, without sign or leading zeros (Go's `%d`, Python's `str`). */
  function DecimalString(n: nat): (r: string)
    ensures r != [] && AllDigitChars(r) && IsAsciiText(r)
    decreases n
  {
    if n < 10 then ['0' + n as char]
    else DecimalString(n / 10) + ['0' + (n % 10) as char]
  }

  /** The value of a run of decimal digit characters, most significant first. */
  function CharsValue(s: string): nat
    requires AllDigitChars(s)
    decreases |s|
  {
    if s == [] then 0 else CharsValue(s[..|s| - 1]) * 10 + (s[|s| - 1] - '0') as nat
  }

  /** The value of a run of ASCII decimal digit bytes, most significant first. */
  function DigitsValue(s: seq<byte>): nat
    requires AllDigits(s)
    decreases |s|
  {
    if s == [] then 0 else DigitsValue(s[..|s| - 1]) * 10 + (s[|s| - 1] - 48) as nat
  }

  /** The decimal bytes written for a length. */
  function Decimal(n: nat): seq<byte> {
    Ascii(DecimalString(n))
  }

  /** Reading back the decimal text of `n` gives `n`. */
  lemma {:induction false} DecimalStringRoundTrip(n: nat)
    ensures CharsValue(DecimalString(n)) == n
    decreases n
  {
    if n >= 10 {
      DecimalStringRoundTrip(n / 10);
      var s := DecimalString(n);
      assert s[..|s| - 1] == DecimalString(n / 10);
    }
  }

  /** Digit bytes and digit characters have the same value. */
  lemma {:induction false} AsciiDigitsValue(s: string)
    requires AllDigitChars(s) && IsAsciiText(s)
    ensures AllDigits(Ascii(s)) && DigitsValue(Ascii(s)) == CharsValue(s)
    decreases |s|
  {
    if s != [] {
      var p := s[..|s| - 1];
      assert Ascii(s)[..|s| - 1] == Ascii(p);
      AsciiDigitsValue(p);
    }
  }

  /** Reading back the decimal bytes of `n` gives `n`. */
  lemma DecimalRoundTrip(n: nat)
    ensures Decimal(n) != [] && AllDigits(Decimal(n)) && DigitsValue(Decimal(n)) == n
  {
    DecimalStringRoundTrip(n);
    AsciiDigitsValue(DecimalString(n));
  }

  // ---------------------------------------------------------------------------
  // UTF-8

  /** The UTF-8 encoding of one Unicode scalar value. */
  function Utf8Char(c: char): (r: seq<byte>)
    ensures 1 <= |r| <= 4
    ensures (|r| == 1) == (c as int < 128)
    ensures c as int < 128 ==> r == [c as int as byte]
  {
    var n := c as int;
    if n < 0x80 then [n as byte]
    else if n < 0x800 then [(0xC0 + n / 64) as byte, (0x80 + n % 64) as byte]
    else if n < 0x1_0000 then
      [(0xE0 + n / 4096) as byte, (0x80 + (n / 64) % 64) as byte, (0x80 + n % 64) as byte]
    else
      [(0xF0 + n / 262144) as byte, (0x80 + (n / 4096) % 64) as byte,
       (0x80 + (n / 64) % 64) as byte, (0x80 + n % 64) as byte]
  }

  /** The UTF-8 encoding of a string, as Python's `str.encode('utf-8')`. */
  function Utf8(s: string): seq<byte>
    decreases |s|
  {
    if s == [] then [] else Utf8Char(s[0]) + Utf8(s[1..])
  }

  /** On ASCII text UTF-8 is the identity, so the byte length equals the character count. */
  lemma {:induction false} Utf8OfAscii(s: string)
    requires IsAsciiText(s)
    ensures Utf8(s) == Ascii(s) && |Utf8(s)| == |s|
    decreases |s|
  {
    if s != [] {
      Utf8OfAscii(s[1..]);
      assert Ascii(s) == [s[0] as int as byte] + Ascii(s[1..]);
    }
  }

  lemma {:induction false} Utf8Append(a: string, b: string)
    ensures Utf8(a + b) == Utf8(a) + Utf8(b)
    decreases |a|
  {
    if a == [] {
      assert a + b == b;
    } else {
      assert (a + b)[1..] == a[1..] + b;
      Utf8Append(a[1..], b);
    }
  }
}
