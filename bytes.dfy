/**
 * Byte-level building blocks shared by the C client and the Java server:
 * octets, the 32-bit integers of both languages, and the big-endian
 * four-byte length that starts every chunk.
 */
module Bytes {
  /** One octet on the wire, read as an unsigned value. */
  type byte = x: int | 0 <= x < 0x100

  /** A C `unsigned int`: the range of a chunk's length field. */
  type uint32 = x: int | 0 <= x < 0x1_0000_0000

  /** A Java `int`. */
  type int32 = x: int | -0x8000_0000 <= x < 0x8000_0000

  function Min(a: int, b: int): int { if a < b then a else b }

  /** The four bytes of `n`, most significant first. */
  function BigEndian32(n: uint32): (r: seq<byte>)
    ensures |r| == 4
  {
    [n / 0x100_0000, n / 0x1_0000 % 0x100, n / 0x100 % 0x100, n % 0x100]
  }

  /** The unsigned big-endian value of four bytes. */
  function FromBigEndian32(b: seq<byte>): uint32
    requires |b| == 4
  {
    b[0] as int * 0x100_0000 + b[1] as int * 0x1_0000 + b[2] as int * 0x100 + b[3] as int
  }

  /** Reading back the four bytes written for `n` gives `n`. */
  lemma BigEndianRoundTrip(n: uint32)
    ensures FromBigEndian32(BigEndian32(n)) == n
  {
    var n1, d := n / 0x100, n % 0x100;
    var n2, c := n1 / 0x100, n1 % 0x100;
    var a, b := n2 / 0x100, n2 % 0x100;
    assert n / 0x1_0000 == n2;
    assert n / 0x100_0000 == a;
    assert BigEndian32(n) == [a, b, c, d];
    assert n == ((a * 0x100 + b) * 0x100 + c) * 0x100 + d;
  }

  /** Every four-byte field is the encoding of exactly one value. */
  lemma BigEndianOfValue(b: seq<byte>)
    requires |b| == 4
    ensures BigEndian32(FromBigEndian32(b)) == b
  {
    var n := FromBigEndian32(b);
    assert n / 0x100_0000 == b[0];
    assert n / 0x1_0000 == b[0] as int * 0x100 + b[1] as int;
    assert n / 0x100 == b[0] as int * 0x1_0000 + b[1] as int * 0x100 + b[2] as int;
  }

  /** Java's `(int)` narrowing of a long holding an unsigned 32-bit value. */
  function ToInt32(n: uint32): (r: int32)
    ensures r >= 0 <==> n < 0x8000_0000
    ensures r % 0x1_0000_0000 == n
  {
    if n < 0x8000_0000 then n else n - 0x1_0000_0000
  }

  /** The 32-bit pattern Java's `writeInt` puts on the wire for `v`. */
  function Int32Bits(v: int32): (r: uint32)
    ensures ToInt32(r) == v
  {
    if v < 0 then v + 0x1_0000_0000 else v
  }
}
