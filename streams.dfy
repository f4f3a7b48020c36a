/**
 * The server's side of one client socket, and `NGOutputStream`, which turns
 * every write into exactly one chunk with a fixed stream code.
 */
module Streams {
  import opened Bytes
  import Codec
  import Text

  /** One accepted client socket, as the server sees it. */
  class Connection {
    /** Bytes the client has sent that the server has not read yet. */
    var unread: seq<byte>
    /** Everything the server has written to the socket. */
    var sent: seq<byte>
    var closed: bool

    constructor(incoming: seq<byte>)
      ensures unread == incoming && sent == [] && !closed
    {
      unread := incoming;
      sent := [];
      closed := false;
    }

    /** `socket.close()`. */
    method Close()
      modifies this`closed
      ensures closed
    {
      closed := true;
    }
  }

  /** The line separator `PrintStream.println` ends a line with ("\n" on Unix). */
  const LINE_SEPARATOR: seq<byte> := [0x0A]

  /**
   * What `println(n)` on a `PrintStream` wrapping an `NGOutputStream` with
   * code `code` sends: the decimal text is flushed as one chunk, then the
   * line separator as a second chunk.
   */
  function PrintlnChunks(code: byte, n: int32): (b: seq<byte>)
  {
    Text.DecimalTextShort(n);
    Codec.Chunk(code, Text.DecimalText(n)) + Codec.Chunk(code, LINE_SEPARATOR)
  }

  /**
   * The two chunks of `println(n)`: the first carries the at most eleven
   * characters of `n` in decimal, the second the line separator, both
   * tagged with the stream's code.
   */
  lemma PrintlnChunksLayout(code: byte, n: int32)
    ensures var b := PrintlnChunks(code, n);
      var k := |Text.DecimalText(n)|;
      1 <= k <= 11 && |b| == k + 11
      && FromBigEndian32(b[..4]) == k && b[4] == code && b[5..5 + k] == Text.DecimalText(n)
      && FromBigEndian32(b[5 + k..9 + k]) == 1 && b[9 + k] == code && b[10 + k..] == LINE_SEPARATOR
  {
    var digits := Text.DecimalText(n);
    Text.DecimalTextShort(n);
    var first := Codec.Chunk(code, digits);
    var second := Codec.Chunk(code, LINE_SEPARATOR);
    Codec.ChunkLayout(code, digits);
    Codec.ChunkLayout(code, LINE_SEPARATOR);
    var b := first + second;
    var k := |digits|;
    assert b[..4] == first[..4];
    assert b[5..5 + k] == first[5..];
    assert b[5 + k..9 + k] == second[..4];
    assert b[10 + k..] == second[5..];
  }

  class NGOutputStream {
    /** The socket stream every instance of one session shares. */
    const out: Connection
    const streamCode: byte

    constructor(out: Connection, streamCode: byte)
      ensures this.out == out && this.streamCode == streamCode
    {
      this.out := out;
      this.streamCode := streamCode;
    }

    /**
     * `write(byte[] b, int offset, int len)` (NGOutputStream.java:69-76):
     * `writeInt(len)`, `writeByte(streamCode)`, then the payload. An
     * out-of-range `offset`/`len` makes the underlying `write` throw
     * IndexOutOfBoundsException after the header is already out.
     */
    method WriteRange(b: seq<byte>, offset: int32, len: int32) returns (ok: bool)
      modifies out`sent
      ensures ok <==> 0 <= offset && 0 <= len && offset + len <= |b|
      ensures ok ==> out.sent == old(out.sent) + Codec.Chunk(streamCode, b[offset..offset + len])
      ensures !ok ==> out.sent == old(out.sent) + Codec.ChunkHeader(Int32Bits(len), streamCode)
    {
      out.sent := out.sent + BigEndian32(Int32Bits(len));
      out.sent := out.sent + [streamCode];
      ok := 0 <= offset && 0 <= len && offset + len <= |b|;
      if ok {
        out.sent := out.sent + b[offset..offset + len];
      }
    }

    /** `write(byte[] b)` (NGOutputStream.java:54-56): `write(b, 0, b.length)`. */
    method Write(b: seq<byte>)
      requires Codec.Small(b)
      modifies out`sent
      ensures out.sent == old(out.sent) + Codec.Chunk(streamCode, b)
    {
      var _ := WriteRange(b, 0, |b|);
      assert b[0..|b|] == b;
    }

    /** `write(int b)` (NGOutputStream.java:61-64): a one-byte chunk holding the low byte of `b`. */
    method WriteByte(b: int32)
      modifies out`sent
      ensures out.sent == old(out.sent) + Codec.Chunk(streamCode, [b % 0x100])
    {
      var b2 := [b % 0x100];
      var _ := WriteRange(b2, 0, 1);
      assert b2[0..1] == b2;
    }

    /** `println(n)` on a `PrintStream` wrapping this stream. */
    method Println(n: int32)
      modifies out`sent
      ensures out.sent == old(out.sent) + PrintlnChunks(streamCode, n)
    {
      var digits := Text.DecimalText(n);
      assert |digits| <= 11 by { Text.DecimalTextShort(n); }
      Write(digits);
      Write(LINE_SEPARATOR);
    }
  }
}
