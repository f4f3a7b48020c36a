/**
 * Text on the wire. The server prints exit codes in decimal with Java's
 * `PrintStream.print(int)`; the client reads them back with C's `atoi`.
 * The server decodes text payloads as US-ASCII.
 */
module Text {
  import Sequences
  import opened Bytes

  const ZERO: byte := 0x30
  const MINUS: byte := 0x2D
  const PLUS: byte := 0x2B
  const NUL: byte := 0

  predicate IsDigit(b: byte) { ZERO <= b <= 0x39 }

  /** C `isspace` in the "C" locale: space, \t, \n, \v, \f, \r. */
  predicate IsSpace(b: byte) { b == 0x20 || 0x09 <= b <= 0x0D }

  predicate AllDigits(s: seq<byte>) { forall i :: 0 <= i < |s| ==> IsDigit(s[i]) }

  /** The decimal digits of `n`, with no leading zero. */
  function Digits(n: nat): (s: seq<byte>)
    ensures 1 <= |s| && AllDigits(s)
    ensures |s| > 1 ==> s[0] != ZERO
    decreases n
  {
    if n < 10 then [ZERO + n] else Digits(n / 10) + [ZERO + n % 10]
  }

  /** `String.valueOf(int)` as US-ASCII bytes: what `PrintStream.print(int)` writes. */
  function DecimalText(n: int): (s: seq<byte>)
    ensures |s| >= 1
    ensures n < 0 <==> s[0] == MINUS
    ensures n >= 0 ==> AllDigits(s)
  {
    if n < 0 then [MINUS] + Digits(-n) else Digits(n)
  }

  /** The value of a run of decimal digits, most significant first. */
  function DigitsValue(s: seq<byte>): nat
    requires AllDigits(s)
  {
    if s == [] then 0 else DigitsValue(s[..|s| - 1]) * 10 + (s[|s| - 1] - ZERO)
  }

  /** Length of the longest prefix of `s` made of decimal digits. */
  function DigitRun(s: seq<byte>): (k: nat)
    ensures k <= |s| && AllDigits(s[..k])
    ensures k < |s| ==> !IsDigit(s[k])
  {
    if s != [] && IsDigit(s[0]) then
      var k := 1 + DigitRun(s[1..]);
      assert s[..k] == [s[0]] + s[1..][..k - 1];
      k
    else 0
  }

  /** `s` without its leading white space. */
  function SkipSpace(s: seq<byte>): (t: seq<byte>)
    ensures t == [] || !IsSpace(t[0])
    ensures |t| <= |s| && t == s[|s| - |t|..]
  {
    if s != [] && IsSpace(s[0]) then SkipSpace(s[1..]) else s
  }

  /** The value of the digits at the head of `s`. */
  function LeadingValue(s: seq<byte>): nat
  {
    DigitsValue(s[..DigitRun(s)])
  }

  /**
   * C `atoi` (ng.c:177, ng.c:344): skip white space, take an optional
   * sign, then as many decimal digits as follow; no digits gives 0.
   */
  function Atoi(s: seq<byte>): (n: int)
    ensures var t := SkipSpace(s);
      (t == [] || !(IsDigit(t[0]) || t[0] == MINUS || t[0] == PLUS)) ==> n == 0
    ensures n < 0 ==> SkipSpace(s) != [] && SkipSpace(s)[0] == MINUS
  {
    var t := SkipSpace(s);
    if t != [] && t[0] == MINUS then -(LeadingValue(t[1..]) as int)
    else if t != [] && t[0] == PLUS then LeadingValue(t[1..])
    else LeadingValue(t)
  }

  /** US-ASCII decoding of one byte: bytes above 0x7F become U+FFFD. */
  function AsciiChar(b: byte): char
  {
    if b < 0x80 then b as char else '�'
  }

  /** `new String(b, "US-ASCII")` (NGSession.java:98). */
  function Ascii(b: seq<byte>): (s: string)
    ensures |s| == |b|
    ensures forall i :: 0 <= i < |b| && b[i] < 0x80 ==> s[i] as int == b[i]
  {
    seq(|b|, i requires 0 <= i < |b| => AsciiChar(b[i]))
  }

  /** The digits written for `n` read back as `n`. */
  lemma {:induction false} DigitsValueOf(n: nat)
    ensures DigitsValue(Digits(n)) == n
    decreases n
  {
    if n >= 10 {
      var d := Digits(n);
      DigitsValueOf(n / 10);
      assert d[..|d| - 1] == Digits(n / 10);
    }
  }

  /** A digit run followed by a non-digit is read up to that non-digit. */
  lemma {:induction false} DigitRunStopsAt(d: seq<byte>, rest: seq<byte>)
    requires AllDigits(d)
    requires rest == [] || !IsDigit(rest[0])
    ensures DigitRun(d + rest) == |d|
    ensures (d + rest)[..|d|] == d
  {
    if d != [] {
      assert (d + rest)[1..] == d[1..] + rest;
      DigitRunStopsAt(d[1..], rest);
    }
  }

  /**
   * What the server prints for an exit code is what the client's `atoi`
   * reads back, whatever follows it, as long as that is not another digit.
   */
  lemma AtoiReadsDecimalText(n: int, rest: seq<byte>)
    requires rest == [] || !IsDigit(rest[0])
    ensures Atoi(DecimalText(n) + rest) == n
  {
    var m: nat := if n < 0 then -n else n;
    var d := Digits(m);
    LeadingValueOfDigits(m, rest);
    if n < 0 {
      var minus: seq<byte> := [MINUS];
      Sequences.ConcatAssoc(minus, d, rest);
      SkipSpaceStops(minus + (d + rest));
      DropSign(MINUS, d + rest);
    } else {
      SkipSpaceStops(d + rest);
    }
  }

  /** `atoi` skips no white space before a sign or a digit. */
  lemma SkipSpaceStops(s: seq<byte>)
    requires s != [] && !IsSpace(s[0])
    ensures SkipSpace(s) == s
  { }

  lemma DropSign(sign: byte, t: seq<byte>)
    ensures ([sign] + t)[0] == sign && ([sign] + t)[1..] == t
  { }

  /** The digits of `m` followed by a non-digit have leading value `m`. */
  lemma LeadingValueOfDigits(m: nat, rest: seq<byte>)
    requires rest == [] || !IsDigit(rest[0])
    ensures LeadingValue(Digits(m) + rest) == m
  {
    DigitRunStopsAt(Digits(m), rest);
    DigitsValueOf(m);
  }

  /** A Java `int` prints in at most eleven characters. */
  lemma DecimalTextShort(n: int32)
    ensures |DecimalText(n)| <= 11
  {
    var m: nat := if n < 0 then -(n as int) else n;
    DigitsShort(m, 10);
  }

  lemma {:induction false} DigitsShort(m: nat, k: nat)
    requires m < Pow10(k)
    ensures |Digits(m)| <= if k == 0 then 1 else k
    decreases k
  {
    if m >= 10 {
      DigitsShort(m / 10, k - 1);
    }
  }

  function Pow10(k: nat): (p: nat)
    ensures p >= 1
  {
    if k == 0 then 1 else 10 * Pow10(k - 1)
  }
}
