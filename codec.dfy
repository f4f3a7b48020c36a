/**
 * The chunk format: a four-byte big-endian payload length, a one-byte
 * type tag, then the payload. Encoding is shared by `sendHeader`/`sendText`
 * (ng.c) and `NGOutputStream.write`; decoding is done once in the client
 * (`processnailgunstream`) and once in the server (`NGSession.run`).
 */
module Codec {
  import Sequences
  import opened Bytes

  /** The five header bytes `sendHeader` (ng.c:106-112) fills in. */
  function ChunkHeader(size: uint32, tag: byte): (h: seq<byte>)
    ensures |h| == 5
  {
    BigEndian32(size) + [tag]
  }

  /** One whole chunk: header immediately followed by the payload. */
  function Chunk(tag: byte, payload: seq<byte>): (c: seq<byte>)
    requires |payload| < 0x1_0000_0000
    ensures |c| == 5 + |payload|
  {
    ChunkHeader(|payload|, tag) + payload
  }

  /**
   * The layout of a chunk: its first four bytes decode to the payload's
   * length, the fifth is the tag, and the payload follows with no terminator.
   */
  lemma ChunkLayout(tag: byte, payload: seq<byte>)
    requires |payload| < 0x1_0000_0000
    ensures FromBigEndian32(Chunk(tag, payload)[..4]) == |payload|
    ensures Chunk(tag, payload)[4] == tag && Chunk(tag, payload)[5..] == payload
  {
    BigEndianRoundTrip(|payload|);
    assert Chunk(tag, payload)[..4] == BigEndian32(|payload|);
  }

  /** A chunk as a value. */
  datatype Frame = Frame(tag: byte, payload: seq<byte>)

  /** A payload short enough for a Java array and a C `int` length. */
  predicate Small(payload: seq<byte>) { |payload| < 0x8000_0000 }

  predicate AllSmall(fs: seq<Frame>) { forall f :: f in fs ==> Small(f.payload) }

  /** The bytes of a sequence of chunks, in order. */
  function EncodeAll(fs: seq<Frame>): (b: seq<byte>)
    requires AllSmall(fs)
  {
    if fs == [] then [] else
      assert fs[0] in fs;
      Chunk(fs[0].tag, fs[0].payload) + EncodeAll(fs[1..])
  }

  /**
   * The length the client reads from a header (ng.c:195-198) when header
   * bytes are read as unsigned values 0..255: the size whose big-endian
   * encoding is exactly those four bytes.
   */
  function ClientChunkLength(h: seq<byte>): (len: uint32)
    requires |h| >= 4
    ensures BigEndian32(len) == h[..4]
  {
    BigEndianOfValue(h[..4]);
    FromBigEndian32(h[..4])
  }

  /** A `char` holding `b` on a platform where `char` is signed. */
  function SignedChar(b: byte): int
  {
    if b < 0x80 then b else b - 0x100
  }

  /**
   * ng.c:195-198 as written, on a platform where `char` is signed: each
   * `buf[i]` is sign-extended before the shifts, and the sum is then
   * converted to a 64-bit `unsigned long`. The sum is taken here over
   * mathematical integers; C computes it in 32-bit `int`, where
   * `buf[0] << 24` overflows (undefined behaviour) once the first length
   * byte is 0x80 or more. The two agree on every header the server can
   * send, whose first byte is below 0x80 because Java lengths are below 2^31.
   */
  function ClientChunkLengthSignedChar(h: seq<byte>): (len: nat)
    requires |h| >= 4
    ensures len < 0x1_0000_0000_0000_0000
  {
    (SignedChar(h[0]) * 0x100_0000 + SignedChar(h[1]) * 0x1_0000
      + SignedChar(h[2]) * 0x100 + SignedChar(h[3])) % 0x1_0000_0000_0000_0000
  }

  /** Read as unsigned bytes, the client's decode inverts `sendHeader`. */
  lemma ClientReadsHeader(size: uint32, tag: byte, rest: seq<byte>)
    ensures ClientChunkLength(ChunkHeader(size, tag) + rest) == size
    ensures (ChunkHeader(size, tag) + rest)[4] == tag
  {
    assert (ChunkHeader(size, tag) + rest)[..4] == BigEndian32(size);
    BigEndianRoundTrip(size);
  }

  /**
   * With signed `char`, a stdout chunk of 128 bytes is read as a chunk of
   * 2^64 - 128 bytes: the client then waits for data that never comes.
   */
  lemma SignedCharMisreadsLength()
    ensures ClientChunkLengthSignedChar(ChunkHeader(128, 0x31)) == 0x1_0000_0000_0000_0000 - 128
    ensures ClientChunkLength(ChunkHeader(128, 0x31)) == 128
  {
    var h := ChunkHeader(128, 0x31);
    assert h == [0, 0, 0, 128, 0x31];
    assert h[..4] == [0, 0, 0, 128];
  }

  /** When no length byte has its top bit set, both readings agree. */
  lemma SignedCharAgreesBelow0x80(h: seq<byte>)
    requires |h| >= 4
    requires forall i :: 0 <= i < 4 ==> h[i] < 0x80
    ensures ClientChunkLengthSignedChar(h) == ClientChunkLength(h)
  { }

  /** What one server read of a chunk gives (NGSession.java:92-97). */
  datatype ServerRead =
    | Read(tag: byte, payload: seq<byte>, rest: seq<byte>)
    | EndOfStream        // `readFully` ran out of bytes (EOFException)
    | NegativeArraySize  // `new byte[(int) bytesToRead]` with a length of 2^31 or more

  /**
   * `readFully` of the 5-byte header, the length decoded as an unsigned
   * big-endian value, narrowed with `(int)`, then `readFully` of that many
   * payload bytes.
   */
  function ServerReadChunk(input: seq<byte>): (r: ServerRead)
    ensures r.Read? ==> |r.rest| + 5 <= |input|
  {
    if |input| < 5 then EndOfStream
    else
      var size := ToInt32(FromBigEndian32(input[..4]));
      if size < 0 then NegativeArraySize
      else if |input| - 5 < size then EndOfStream
      else Read(input[4], input[5..5 + size], input[5 + size..])
  }

  /** The server reads back exactly the chunk that was written, and no more. */
  lemma ServerReadsChunk(tag: byte, payload: seq<byte>, rest: seq<byte>)
    requires Small(payload)
    ensures ServerReadChunk(Chunk(tag, payload) + rest) == Read(tag, payload, rest)
  {
    var input := Chunk(tag, payload) + rest;
    assert input[..4] == BigEndian32(|payload|);
    BigEndianRoundTrip(|payload|);
    assert input[5..5 + |payload|] == payload;
    assert input[5 + |payload|..] == rest;
  }

  /** A chunk whose length field reads 2^31 or more makes the server throw. */
  lemma ServerRejectsHugeLength(tag: byte, size: uint32, rest: seq<byte>)
    requires size >= 0x8000_0000
    ensures ServerReadChunk(ChunkHeader(size, tag) + rest) == NegativeArraySize
  {
    ClientReadsHeader(size, tag, rest);
  }

  /** A stream cut inside a chunk makes the server's read fail. */
  lemma ServerReadOfTruncatedChunk(tag: byte, payload: seq<byte>, k: nat)
    requires Small(payload) && k < 5 + |payload|
    ensures ServerReadChunk(Chunk(tag, payload)[..k]) == EndOfStream
  {
    var input := Chunk(tag, payload)[..k];
    if k >= 5 {
      assert input[..4] == Chunk(tag, payload)[..4] == BigEndian32(|payload|);
      BigEndianRoundTrip(|payload|);
    }
  }

  /** The byte encoding of a list of chunks splits at every chunk boundary. */
  lemma {:induction false} EncodeAllAppend(a: seq<Frame>, b: seq<Frame>)
    requires AllSmall(a) && AllSmall(b)
    ensures AllSmall(a + b)
    ensures EncodeAll(a + b) == EncodeAll(a) + EncodeAll(b)
  {
    if a != [] {
      assert (a + b)[1..] == a[1..] + b;
      assert (a + b)[0] == a[0];
      EncodeAllAppend(a[1..], b);
      assert EncodeAll(a + b) == Chunk(a[0].tag, a[0].payload) + EncodeAll(a[1..] + b);
    } else {
      assert a + b == b;
    }
  }

  /** Frames with one tag and the given payloads, in order. */
  function TagFrames(tag: byte, ps: seq<seq<byte>>): (fs: seq<Frame>)
    ensures |fs| == |ps|
    ensures forall i :: 0 <= i < |ps| ==> fs[i] == Frame(tag, ps[i])
  {
    if ps == [] then [] else [Frame(tag, ps[0])] + TagFrames(tag, ps[1..])
  }

  /** Payloads that each fit a chunk. */
  predicate AllPayloadsSmall(ps: seq<seq<byte>>) { forall p :: p in ps ==> Small(p) }

  lemma TagFramesSmall(tag: byte, ps: seq<seq<byte>>)
    requires AllPayloadsSmall(ps)
    ensures AllSmall(TagFrames(tag, ps))
  {
    var fs := TagFrames(tag, ps);
    forall f | f in fs ensures Small(f.payload) {
      var i :| 0 <= i < |fs| && fs[i] == f;
      assert ps[i] in ps;
    }
  }

  lemma AllSmallTail(ps: seq<seq<byte>>)
    requires AllPayloadsSmall(ps) && ps != []
    ensures AllPayloadsSmall(ps[1..]) && Small(ps[0])
  {
    assert ps[0] in ps;
    forall p | p in ps[1..] ensures Small(p) {
      var i :| 0 <= i < |ps[1..]| && ps[1..][i] == p;
      assert ps[i + 1] == p;
    }
  }

  lemma EncodeTagFramesFirst(tag: byte, ps: seq<seq<byte>>, rest: seq<byte>)
    requires ps != [] && Small(ps[0])
    requires AllSmall(TagFrames(tag, ps)) && AllSmall(TagFrames(tag, ps[1..]))
    ensures EncodeAll(TagFrames(tag, ps)) + rest
         == Chunk(tag, ps[0]) + (EncodeAll(TagFrames(tag, ps[1..])) + rest)
  {
    var fs := TagFrames(tag, ps);
    var tailFs := TagFrames(tag, ps[1..]);
    assert fs == [Frame(tag, ps[0])] + tailFs;
    assert fs[1..] == tailFs;
    assert EncodeAll(fs) == Chunk(tag, ps[0]) + EncodeAll(tailFs);
    Sequences.ConcatAssoc(Chunk(tag, ps[0]), EncodeAll(tailFs), rest);
  }

  /** The bytes of the frames built from a non-empty list, split at the first. */
  lemma TagFramesFirst(tag: byte, ps: seq<seq<byte>>, rest: seq<byte>)
    requires AllPayloadsSmall(ps) && ps != []
    ensures AllPayloadsSmall(ps[1..]) && Small(ps[0])
    ensures AllSmall(TagFrames(tag, ps)) && AllSmall(TagFrames(tag, ps[1..]))
    ensures EncodeAll(TagFrames(tag, ps)) + rest
         == Chunk(tag, ps[0]) + (EncodeAll(TagFrames(tag, ps[1..])) + rest)
  {
    AllSmallTail(ps);
    TagFramesSmall(tag, ps);
    TagFramesSmall(tag, ps[1..]);
    EncodeTagFramesFirst(tag, ps, rest);
  }
}
