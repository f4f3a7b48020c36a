/**
 * The C client `ng` (ng.c) after its command line is read: it sends the
 * request chunks, then forwards its stdin to the server and the server's
 * stdout and stderr chunks to its own, until an exit chunk arrives.
 *
 * The socket is two byte sequences: `sent` holds what the server has
 * received, `incoming` what the server has sent and the client has not read
 * yet. A `send` accepts at most `sendLimit` bytes at a time, or fails on a
 * broken connection; a `recv` with MSG_WAITALL returns fewer bytes than asked
 * only when the server has closed the connection.
 */
module Client {
  import opened Wrappers
  import opened Bytes
  import Codec
  import Text
  import NgDefines
  import ClientArgs
  import Sequences

  /** How a step of the client ends. */
  datatype Outcome =
    | Continue        // keep looping
    | Exit(code: int) // `exit(code)`
    | Hangs           // `recvToFD` spins forever: `recv` keeps returning 0

  /** One `processnailgunstream` call over the bytes not read yet. */
  datatype Step = Step(outcome: Outcome, rest: seq<byte>, toStdout: seq<byte>, toStderr: seq<byte>)

  /**
   * What `fprintf(stderr, "Unexpected chunk type %d ('%c')\n", ...)` at
   * ng.c:209 prints for the tag `tag`, read as an unsigned byte.
   */
  function UnexpectedChunkMessage(tag: byte): (m: seq<byte>)
    ensures tag in m && m[|m| - 1] == 0x0A
  {
    // "Unexpected chunk type "
    [0x55, 0x6E, 0x65, 0x78, 0x70, 0x65, 0x63, 0x74, 0x65, 0x64, 0x20,
     0x63, 0x68, 0x75, 0x6E, 0x6B, 0x20, 0x74, 0x79, 0x70, 0x65, 0x20]
      + Text.DecimalText(tag)
      + [0x20, 0x28, 0x27, tag, 0x27, 0x29, 0x0A] // " ('" tag "')\n"
  }

  /**
   * The body of `processnailgunstream` (ng.c:195-211) once a whole header
   * is in: `len` is the length the header was read as.
   */
  function ChunkStep(input: seq<byte>, len: nat): (s: Step)
    requires |input| >= NgDefines.CHUNK_HEADER_LEN
    ensures |s.rest| < |input|
  {
    var tag := input[4];
    var body := input[5..];
    var got := Min(len, |body|);
    if tag == NgDefines.CHUNKTYPE_STDOUT then
      Step(if |body| < len then Hangs else Continue, body[got..], body[..got], [])
    else if tag == NgDefines.CHUNKTYPE_STDERR then
      Step(if |body| < len then Hangs else Continue, body[got..], [], body[..got])
    else if tag == NgDefines.CHUNKTYPE_EXIT then
      var n := Min(Min(NgDefines.BUFSIZE - 1, len), |body|);
      Step(Exit(Text.Atoi(body[..n] + [Text.NUL])), body[n..], [], [])
    else Step(Exit(NgDefines.NAILGUN_UNEXPECTED_CHUNKTYPE), body, [], UnexpectedChunkMessage(tag))
  }

  /**
   * `processnailgunstream` (ng.c:185-212) as a function of the unread
   * bytes, with the header bytes read as unsigned values. A short header
   * exits with NAILGUN_CONNECTION_BROKEN; '1' and '2' copy the payload to
   * stdout or stderr (hanging if the server closed early); 'X' exits with
   * the code read by `processExit`; any other tag prints a diagnostic and
   * exits with NAILGUN_UNEXPECTED_CHUNKTYPE.
   */
  function StreamStep(input: seq<byte>): (s: Step)
    ensures |s.rest| <= |input|
    ensures s.outcome.Continue? ==> |s.rest| < |input|
  {
    if |input| < NgDefines.CHUNK_HEADER_LEN then Step(Exit(NgDefines.NAILGUN_CONNECTION_BROKEN), [], [], [])
    else ChunkStep(input, Codec.ClientChunkLength(input[..4]))
  }

  /**
   * `processnailgunstream` as written on a platform where `char` is signed:
   * the length is `Codec.ClientChunkLengthSignedChar` of the header.
   */
  function StreamStepSignedChar(input: seq<byte>): (s: Step)
    ensures |s.rest| <= |input|
  {
    if |input| < NgDefines.CHUNK_HEADER_LEN then Step(Exit(NgDefines.NAILGUN_CONNECTION_BROKEN), [], [], [])
    else ChunkStep(input, Codec.ClientChunkLengthSignedChar(input[..4]))
  }

  /**
   * The signed-`char` client handles a chunk exactly as the unsigned one
   * whenever no length byte has its top bit set, that is for every payload
   * shorter than 128 bytes and many longer ones.
   */
  lemma SignedCharStepAgrees(input: seq<byte>)
    requires |input| >= NgDefines.CHUNK_HEADER_LEN
    requires forall i :: 0 <= i < 4 ==> input[i] < 0x80
    ensures StreamStepSignedChar(input) == StreamStep(input)
  {
    Codec.SignedCharAgreesBelow0x80(input[..4]);
  }

  /**
   * A 128-byte stdout chunk: the unsigned client copies it and continues,
   * the signed-`char` client waits for 2^64 - 128 bytes and hangs.
   */
  lemma SignedCharClientHangs(payload: seq<byte>, rest: seq<byte>)
    requires |payload| == 128 && |rest| < 0x1_0000_0000
    ensures StreamStep(Codec.Chunk(NgDefines.CHUNKTYPE_STDOUT, payload) + rest)
         == Step(Continue, rest, payload, [])
    ensures StreamStepSignedChar(Codec.Chunk(NgDefines.CHUNKTYPE_STDOUT, payload) + rest).outcome == Hangs
  {
    var input := Codec.Chunk(NgDefines.CHUNKTYPE_STDOUT, payload) + rest;
    assert input[..4] == Codec.ChunkHeader(128, NgDefines.CHUNKTYPE_STDOUT)[..4];
    assert input[..5] == Codec.ChunkHeader(128, NgDefines.CHUNKTYPE_STDOUT);
    Codec.SignedCharMisreadsLength();
    Codec.ClientReadsHeader(128, NgDefines.CHUNKTYPE_STDOUT, []);
    assert Codec.ChunkHeader(128, NgDefines.CHUNKTYPE_STDOUT) + [] == Codec.ChunkHeader(128, NgDefines.CHUNKTYPE_STDOUT);
    assert input[4] == NgDefines.CHUNKTYPE_STDOUT;
    assert input[5..] == payload + rest;
    assert (payload + rest)[..128] == payload && (payload + rest)[128..] == rest;
  }

  /** Everything the client prints, and how it ends, reading `input` chunk after chunk. */
  datatype Received = Received(outcome: Outcome, stdout: seq<byte>, stderr: seq<byte>)

  /**
   * The client's main loop over everything the server sends: chunks are
   * handled by `StreamStep` until one ends the session. What it prints for
   * a whole session is stated by `Protocol.ClientReadsWrites` and
   * `Protocol.ClientSeesSession`.
   */
  function Receive(input: seq<byte>): (r: Received)
    ensures !r.outcome.Continue?
    decreases |input|
  {
    var s := StreamStep(input);
    if s.outcome.Continue? then
      var r := Receive(s.rest);
      Received(r.outcome, s.toStdout + r.stdout, s.toStderr + r.stderr)
    else Received(s.outcome, s.toStdout, s.toStderr)
  }

  /** What one `read` of stdin returns: an error, or the bytes read (none at end of file). */
  datatype StdinRead = ReadFailed | ReadBytes(data: seq<byte>)

  /** The chunk `processStdin` sends for a read (ng.c:237-245). */
  function StdinChunk(r: StdinRead): (b: seq<byte>)
    requires r.ReadBytes? ==> |r.data| <= NgDefines.BUFSIZE
    ensures b == [] <==> r.ReadFailed?
    ensures r.ReadBytes? ==> (|b| == 5 + |r.data| && FromBigEndian32(b[..4]) == |r.data| && b[5..] == r.data
      && b[4] == (if r.data == [] then NgDefines.CHUNKTYPE_STDIN_EOF else NgDefines.CHUNKTYPE_STDIN))
  {
    match r
    case ReadFailed => []
    case ReadBytes(data) =>
      if |data| > 0 then
        Codec.ChunkLayout(NgDefines.CHUNKTYPE_STDIN, data);
        Codec.Chunk(NgDefines.CHUNKTYPE_STDIN, data)
      else
        Codec.ChunkLayout(NgDefines.CHUNKTYPE_STDIN_EOF, []);
        Codec.Chunk(NgDefines.CHUNKTYPE_STDIN_EOF, [])
  }

  /** The request chunks in the order ng.c:368-384 sends them: arguments, environment, directory, command. */
  function RequestFrames(args: seq<ClientArgs.CString>, env: seq<ClientArgs.CString>, cwd: ClientArgs.CString): seq<Codec.Frame>
  {
    Codec.TagFrames(NgDefines.CHUNKTYPE_ARG, args) + Codec.TagFrames(NgDefines.CHUNKTYPE_ENV, env)
      + [Codec.Frame(NgDefines.CHUNKTYPE_DIR, cwd)]
  }

  lemma RequestFramesSmall(args: seq<ClientArgs.CString>, env: seq<ClientArgs.CString>, cwd: ClientArgs.CString, cmd: ClientArgs.CString)
    ensures Codec.AllSmall(RequestFrames(args, env, cwd))
    ensures Codec.AllSmall(RequestFrames(args, env, cwd) + [Codec.Frame(NgDefines.CHUNKTYPE_CMD, cmd)])
  {
    Codec.TagFramesSmall(NgDefines.CHUNKTYPE_ARG, args);
    Codec.TagFramesSmall(NgDefines.CHUNKTYPE_ENV, env);
  }

  /** The bytes of a whole request whose command is `cmd`. */
  function RequestBytes(args: seq<ClientArgs.CString>, env: seq<ClientArgs.CString>, cwd: ClientArgs.CString, cmd: ClientArgs.CString): seq<byte>
  {
    RequestFramesSmall(args, env, cwd, cmd);
    Codec.EncodeAll(RequestFrames(args, env, cwd) + [Codec.Frame(NgDefines.CHUNKTYPE_CMD, cmd)])
  }

  class NailgunClient {
    /** `header` (ng.c:48) and `buf` (ng.c:69), the client's two global buffers. */
    const header: array<byte>
    const buf: array<byte>
    /** The most bytes one `send` accepts; every `send` fails when `broken`. */
    const sendLimit: nat
    const broken: bool
    /** The most bytes one `write` to stdout or stderr accepts. */
    const writeLimit: nat
    var sent: seq<byte>
    var incoming: seq<byte>
    var stdout: seq<byte>
    var stderr: seq<byte>
    /** `eof` of `main`: stdin has reached its end and is no longer selected. */
    var eof: bool

    predicate Valid()
    {
      header.Length == NgDefines.CHUNK_HEADER_LEN && buf.Length == NgDefines.BUFSIZE
      && sendLimit > 0 && writeLimit > 0
    }

    constructor(incoming: seq<byte>, sendLimit: nat, writeLimit: nat, broken: bool)
      requires sendLimit > 0 && writeLimit > 0
      ensures Valid() && fresh(header) && fresh(buf)
      ensures this.incoming == incoming && this.sendLimit == sendLimit && this.writeLimit == writeLimit && this.broken == broken
      ensures sent == [] && stdout == [] && stderr == [] && !eof
    {
      header := new byte[NgDefines.CHUNK_HEADER_LEN];
      buf := new byte[NgDefines.BUFSIZE];
      this.incoming := incoming;
      this.sendLimit := sendLimit;
      this.writeLimit := writeLimit;
      this.broken := broken;
      sent, stdout, stderr, eof := [], [], [], false;
    }

    /**
     * `sendall` (ng.c:85-98): `send` until all `len` bytes are out. It
     * returns the count sent, or 0 when a `send` fails.
     */
    method SendAll(data: seq<byte>, len: nat) returns (total: int)
      requires Valid() && len <= |data|
      modifies this`sent
      ensures sent == old(sent) + (if broken then [] else data[..len])
      ensures total == if broken then 0 else len
    {
      total := 0;
      var bytesleft := len;
      var n := 0;
      while total < len
        invariant 0 <= total <= len && bytesleft == len - total
        invariant sent == old(sent) + data[..total]
        invariant broken ==> total == 0
        invariant n == -1 ==> broken
        decreases bytesleft
      {
        n := if broken then -1 else Min(sendLimit, bytesleft);
        if n == -1 {
          break;
        }
        sent := sent + data[total..total + n];
        total := total + n;
        bytesleft := bytesleft - n;
      }
      total := if n == -1 then 0 else total;
    }

    /** `sendHeader` (ng.c:106-113): fill `header` big-endian, then send its five bytes. */
    method SendHeader(size: uint32, chunkType: byte)
      requires Valid()
      modifies header, this`sent
      ensures header[..] == Codec.ChunkHeader(size, chunkType)
      ensures sent == old(sent) + (if broken then [] else Codec.ChunkHeader(size, chunkType))
    {
      header[0] := (size / 0x100_0000) % 0x100;
      header[1] := (size / 0x1_0000) % 0x100;
      header[2] := (size / 0x100) % 0x100;
      header[3] := size % 0x100;
      header[4] := chunkType;
      assert header[..] == Codec.ChunkHeader(size, chunkType);
      var _ := SendAll(header[..], NgDefines.CHUNK_HEADER_LEN);
      assert header[..][..NgDefines.CHUNK_HEADER_LEN] == header[..];
    }

    /** `sendText` (ng.c:121-125): the text's bytes without its terminating NUL. */
    method SendText(chunkType: byte, text: ClientArgs.CString)
      requires Valid()
      modifies header, this`sent
      ensures sent == old(sent) + (if broken then [] else Codec.Chunk(chunkType, text))
    {
      var len := |text|;
      SendHeader(len, chunkType);
      var _ := SendAll(text, len);
      assert text[..len] == text;
    }

    /**
     * `recv(nailgunsocket, buf, count, MSG_WAITALL)`: the next `count`
     * bytes, or all that are left once the server has closed.
     */
    method Recv(count: nat) returns (n: nat)
      requires Valid() && count <= NgDefines.BUFSIZE
      modifies buf, this`incoming
      ensures n == Min(count, |old(incoming)|)
      ensures buf[..n] == old(incoming)[..n] && incoming == old(incoming)[n..]
    {
      n := Min(count, |incoming|);
      assert n <= |incoming| && n <= buf.Length;
      for k := 0 to n
        invariant incoming == old(incoming)
        invariant buf[..k] == incoming[..k]
      {
        buf[k] := incoming[k];
      }
      incoming := incoming[n..];
    }

    /** The inner loop of `recvToFD` (ng.c:155-158): `write` until `thisPass` bytes of `buf` are out. */
    method CopyOut(toStderr: bool, thisPass: nat)
      requires Valid() && thisPass <= NgDefines.BUFSIZE
      modifies this`stdout, this`stderr
      ensures toStderr ==> stderr == old(stderr) + buf[..thisPass] && stdout == old(stdout)
      ensures !toStderr ==> stdout == old(stdout) + buf[..thisPass] && stderr == old(stderr)
    {
      var bytesCopied := 0;
      while bytesCopied < thisPass
        invariant 0 <= bytesCopied <= thisPass
        invariant toStderr ==> stderr == old(stderr) + buf[..bytesCopied] && stdout == old(stdout)
        invariant !toStderr ==> stdout == old(stdout) + buf[..bytesCopied] && stderr == old(stderr)
        decreases thisPass - bytesCopied
      {
        var written := Min(writeLimit, thisPass - bytesCopied);
        if toStderr {
          stderr := stderr + buf[bytesCopied..bytesCopied + written];
        } else {
          stdout := stdout + buf[bytesCopied..bytesCopied + written];
        }
        assert buf[..bytesCopied + written] == buf[..bytesCopied] + buf[bytesCopied..bytesCopied + written];
        bytesCopied := bytesCopied + written;
      }
    }

    /**
     * `recvToFD` (ng.c:142-160): copy `len` bytes to stdout or stderr, at
     * most BUFSIZE per `recv`. When the server closes early, `recv` keeps
     * returning 0 and the loop never ends: `hangs`.
     */
    method RecvToFD(toStderr: bool, len: nat) returns (hangs: bool)
      requires Valid()
      modifies buf, this`incoming, this`stdout, this`stderr
      ensures hangs <==> |old(incoming)| < len
      ensures var got := Min(len, |old(incoming)|);
        incoming == old(incoming)[got..]
        && (toStderr ==> stderr == old(stderr) + old(incoming)[..got] && stdout == old(stdout))
        && (!toStderr ==> stdout == old(stdout) + old(incoming)[..got] && stderr == old(stderr))
    {
      var bytesRead := 0;
      while bytesRead < len
        invariant 0 <= bytesRead <= len && bytesRead <= |old(incoming)|
        invariant incoming == old(incoming)[bytesRead..]
        invariant toStderr ==> stderr == old(stderr) + old(incoming)[..bytesRead] && stdout == old(stdout)
        invariant !toStderr ==> stdout == old(stdout) + old(incoming)[..bytesRead] && stderr == old(stderr)
        decreases len - bytesRead
      {
        var bytesRemaining := len - bytesRead;
        var bytesToRead := if NgDefines.BUFSIZE < bytesRemaining then NgDefines.BUFSIZE else bytesRemaining;
        var thisPass := Recv(bytesToRead);
        if thisPass == 0 {
          return true;
        }
        Sequences.PrefixGrows(old(incoming), bytesRead, thisPass);
        ghost var chunk := buf[..thisPass];
        CopyOut(toStderr, thisPass);
        Sequences.ConcatAssoc(old(stdout), old(incoming)[..bytesRead], chunk);
        Sequences.ConcatAssoc(old(stderr), old(incoming)[..bytesRead], chunk);
        bytesRead := bytesRead + thisPass;
      }
      hangs := false;
    }

    /**
     * `processExit` (ng.c:169-180): read at most BUFSIZE - 1 bytes of the
     * payload, terminate them with NUL inside `buf`, and `atoi` them.
     */
    method ProcessExit(len: nat) returns (exitcode: int)
      requires Valid()
      modifies buf, this`incoming
      ensures var n := Min(Min(NgDefines.BUFSIZE - 1, len), |old(incoming)|);
        n < buf.Length && buf[n] == Text.NUL && buf[..n] == old(incoming)[..n]
        && incoming == old(incoming)[n..]
        && exitcode == Text.Atoi(old(incoming)[..n] + [Text.NUL])
    {
      var bytesToRead := if NgDefines.BUFSIZE - 1 < len then NgDefines.BUFSIZE - 1 else len;
      var bytesRead := Recv(bytesToRead);
      buf[bytesRead] := Text.NUL;
      assert buf[..bytesRead + 1] == old(incoming)[..bytesRead] + [Text.NUL];
      exitcode := Text.Atoi(buf[..bytesRead + 1]);
    }

    /** `processnailgunstream` (ng.c:185-212). */
    method ProcessNailgunStream() returns (o: Outcome)
      requires Valid()
      modifies buf, this`incoming, this`stdout, this`stderr
      ensures var s := StreamStep(old(incoming));
        o == s.outcome && incoming == s.rest
        && stdout == old(stdout) + s.toStdout && stderr == old(stderr) + s.toStderr
    {
      var bytesRead := Recv(NgDefines.CHUNK_HEADER_LEN);
      if bytesRead < NgDefines.CHUNK_HEADER_LEN {
        return Exit(NgDefines.NAILGUN_CONNECTION_BROKEN);
      }
      var len := Codec.ClientChunkLength(buf[..4]);
      var chunkType := buf[4];
      ghost var body := incoming;
      assert buf[..4] == old(incoming)[..4] && body == old(incoming)[5..];
      assert StreamStep(old(incoming)) == ChunkStep(old(incoming), len);
      if chunkType == NgDefines.CHUNKTYPE_STDOUT {
        var hangs := RecvToFD(false, len);
        o := if hangs then Hangs else Continue;
      } else if chunkType == NgDefines.CHUNKTYPE_STDERR {
        var hangs := RecvToFD(true, len);
        o := if hangs then Hangs else Continue;
      } else if chunkType == NgDefines.CHUNKTYPE_EXIT {
        var code := ProcessExit(len);
        o := Exit(code);
      } else {
        stderr := stderr + UnexpectedChunkMessage(chunkType);
        o := Exit(NgDefines.NAILGUN_UNEXPECTED_CHUNKTYPE);
      }
    }

    /** `sendStdin` (ng.c:219-222): a stdin chunk holding the first `len` bytes of `buf`. */
    method SendStdin(len: nat)
      requires Valid() && len <= NgDefines.BUFSIZE
      modifies header, this`sent
      ensures sent == old(sent) + (if broken then [] else Codec.Chunk(NgDefines.CHUNKTYPE_STDIN, buf[..len]))
    {
      SendHeader(len, NgDefines.CHUNKTYPE_STDIN);
      var _ := SendAll(buf[..], len);
      assert buf[..][..len] == buf[..len];
    }

    /** `processEof` (ng.c:227-229): a stdin-eof chunk with no payload. */
    method ProcessEof()
      requires Valid()
      modifies header, this`sent
      ensures sent == old(sent) + (if broken then [] else Codec.Chunk(NgDefines.CHUNKTYPE_STDIN_EOF, []))
    {
      SendHeader(0, NgDefines.CHUNKTYPE_STDIN_EOF);
    }

    /**
     * `processStdin` (ng.c:237-245) for one `read` of stdin into `buf`: its
     * bytes go out in one stdin chunk, end of file sends stdin-eof, and an
     * error sends nothing.
     */
    method ProcessStdin(r: StdinRead) returns (bytesread: int)
      requires Valid() && (r.ReadBytes? ==> |r.data| <= NgDefines.BUFSIZE)
      modifies buf, header, this`sent
      ensures bytesread == if r.ReadFailed? then -1 else |r.data|
      ensures sent == old(sent) + (if broken then [] else StdinChunk(r))
    {
      if r.ReadFailed? {
        return -1;
      }
      bytesread := |r.data|;
      for k := 0 to bytesread
        invariant sent == old(sent)
        invariant buf[..k] == r.data[..k]
      {
        buf[k] := r.data[k];
      }
      if bytesread > 0 {
        assert buf[..bytesread] == r.data;
        SendStdin(bytesread);
      } else if bytesread == 0 {
        ProcessEof();
      }
    }

    /**
     * One turn of the forwarding loop of ng.c:387-409. `socketReadable`
     * says what `select` reported; stdin is only selected before its end,
     * so `select` returns with the socket readable once `eof` is set.
     */
    method Poll(socketReadable: bool, r: StdinRead) returns (o: Outcome)
      requires Valid() && (socketReadable || !eof)
      requires r.ReadBytes? ==> |r.data| <= NgDefines.BUFSIZE
      modifies buf, header, this`sent, this`incoming, this`stdout, this`stderr, this`eof
      ensures socketReadable ==>
        var s := StreamStep(old(incoming));
        o == s.outcome && incoming == s.rest
        && stdout == old(stdout) + s.toStdout && stderr == old(stderr) + s.toStderr
        && sent == old(sent) && eof == old(eof)
      ensures !socketReadable ==>
        o == Continue && incoming == old(incoming) && stdout == old(stdout) && stderr == old(stderr)
        && sent == old(sent) + (if broken then [] else StdinChunk(r))
        && eof == (r == ReadBytes([]))
    {
      if socketReadable {
        o := ProcessNailgunStream();
      } else {
        var n := ProcessStdin(r);
        if n == 0 {
          eof := true;
        }
        o := Continue;
      }
    }

    /**
     * ng.c:368-384: every argument slot from `firstArgIndex` that the scan
     * left non-null, then every environment entry, then the working
     * directory, then the command. With no command, `strlen(NULL)`
     * crashes the client once the directory is out: `crashed`.
     */
    method SendRequest(argv: array<Option<ClientArgs.CString>>, firstArgIndex: nat,
                       env: seq<ClientArgs.CString>, cwd: ClientArgs.CString, cmd: Option<ClientArgs.CString>)
      returns (crashed: bool)
      requires Valid() && firstArgIndex <= argv.Length
      modifies header, this`sent
      ensures crashed <==> cmd.None?
      ensures var args := ClientArgs.Present(argv[firstArgIndex..]);
        Codec.AllSmall(RequestFrames(args, env, cwd))
        && sent == old(sent) + (if broken then []
                                else if cmd.Some? then RequestBytes(args, env, cwd, cmd.value)
                                else Codec.EncodeAll(RequestFrames(args, env, cwd)))
    {
      ghost var args := ClientArgs.Present(argv[firstArgIndex..]);
      SendArgs(argv, firstArgIndex);
      ghost var s1 := sent;
      SendEnv(env);
      ghost var s2 := sent;
      SendText(NgDefines.CHUNKTYPE_DIR, cwd);
      ghost var s3 := sent;
      if cmd.Some? {
        SendText(NgDefines.CHUNKTYPE_CMD, cmd.value);
      }
      RequestSent(old(sent), s1, s2, s3, sent, broken, args, env, cwd, cmd);
      crashed := cmd.None?;
    }

    /** ng.c:368-372: an argument chunk for each slot from `firstArgIndex` on that is not null. */
    method SendArgs(argv: array<Option<ClientArgs.CString>>, firstArgIndex: nat)
      requires Valid() && firstArgIndex <= argv.Length
      modifies header, this`sent
      ensures sent == old(sent) + (if broken then [] else ArgBytes(argv[firstArgIndex..]))
    {
      for i := firstArgIndex to argv.Length
        invariant sent == old(sent) + (if broken then [] else ArgBytes(argv[firstArgIndex..i]))
      {
        ghost var before := sent;
        if argv[i] != None {
          SendText(NgDefines.CHUNKTYPE_ARG, argv[i].value);
        }
        assert argv[firstArgIndex..i + 1] == argv[firstArgIndex..i] + [argv[i]];
        ArgSentStep(old(sent), before, sent, broken, argv[firstArgIndex..i], argv[i]);
      }
      assert argv[firstArgIndex..argv.Length] == argv[firstArgIndex..];
    }

    /** ng.c:375-377: an environment chunk per entry, in order. */
    method SendEnv(env: seq<ClientArgs.CString>)
      requires Valid()
      modifies header, this`sent
      ensures Codec.AllSmall(Codec.TagFrames(NgDefines.CHUNKTYPE_ENV, env))
      ensures sent == old(sent) + (if broken then [] else Codec.EncodeAll(Codec.TagFrames(NgDefines.CHUNKTYPE_ENV, env)))
    {
      Codec.TagFramesSmall(NgDefines.CHUNKTYPE_ENV, env);
      for i := 0 to |env|
        invariant Codec.AllSmall(Codec.TagFrames(NgDefines.CHUNKTYPE_ENV, env[..i]))
        invariant sent == old(sent) + (if broken then [] else Codec.EncodeAll(Codec.TagFrames(NgDefines.CHUNKTYPE_ENV, env[..i])))
      {
        ghost var before := sent;
        SendText(NgDefines.CHUNKTYPE_ENV, env[i]);
        assert env[..i + 1] == env[..i] + [env[i]];
        SentStep(NgDefines.CHUNKTYPE_ENV, old(sent), before, sent, broken, env[..i], env[i]);
      }
      assert env[..|env|] == env;
    }
  }

  /** The bytes of the argument chunks for the non-null slots of `v`. */
  function ArgBytes(v: seq<Option<ClientArgs.CString>>): seq<byte>
  {
    Codec.TagFramesSmall(NgDefines.CHUNKTYPE_ARG, ClientArgs.Present(v));
    Codec.EncodeAll(Codec.TagFrames(NgDefines.CHUNKTYPE_ARG, ClientArgs.Present(v)))
  }

  lemma SentStep(tag: byte, s0: seq<byte>, s1: seq<byte>, s2: seq<byte>, broken: bool, ps: seq<ClientArgs.CString>, p: ClientArgs.CString)
    requires Codec.AllSmall(Codec.TagFrames(tag, ps))
    requires s1 == s0 + (if broken then [] else Codec.EncodeAll(Codec.TagFrames(tag, ps)))
    requires s2 == s1 + (if broken then [] else Codec.Chunk(tag, p))
    ensures Codec.AllSmall(Codec.TagFrames(tag, ps + [p]))
    ensures s2 == s0 + (if broken then [] else Codec.EncodeAll(Codec.TagFrames(tag, ps + [p])))
  {
    TagFramesSnoc(tag, ps, p);
  }

  lemma ArgSentStep(s0: seq<byte>, s1: seq<byte>, s2: seq<byte>, broken: bool, v: seq<Option<ClientArgs.CString>>, x: Option<ClientArgs.CString>)
    requires s1 == s0 + (if broken then [] else ArgBytes(v))
    requires s2 == s1 + (if broken || x.None? then [] else Codec.Chunk(NgDefines.CHUNKTYPE_ARG, x.value))
    ensures s2 == s0 + (if broken then [] else ArgBytes(v + [x]))
  {
    if !broken {
      ArgBytesStep(v, x);
      var c := if x.None? then [] else Codec.Chunk(NgDefines.CHUNKTYPE_ARG, x.value);
      assert s2 == (s0 + ArgBytes(v)) + c;
      Sequences.ConcatAssoc(s0, ArgBytes(v), c);
    }
  }

  /** Encoding frames built one payload at a time. */
  lemma TagFramesSnoc(tag: byte, ps: seq<ClientArgs.CString>, p: ClientArgs.CString)
    ensures Codec.AllSmall(Codec.TagFrames(tag, ps)) && Codec.AllSmall(Codec.TagFrames(tag, ps + [p]))
    ensures Codec.EncodeAll(Codec.TagFrames(tag, ps + [p])) == Codec.EncodeAll(Codec.TagFrames(tag, ps)) + Codec.Chunk(tag, p)
  {
    Codec.TagFramesSmall(tag, ps);
    Codec.TagFramesSmall(tag, ps + [p]);
    Codec.TagFramesSmall(tag, [p]);
    assert Codec.TagFrames(tag, ps + [p]) == Codec.TagFrames(tag, ps) + Codec.TagFrames(tag, [p]);
    Codec.EncodeAllAppend(Codec.TagFrames(tag, ps), Codec.TagFrames(tag, [p]));
    assert Codec.TagFrames(tag, [p]) == [Codec.Frame(tag, p)];
    assert Codec.EncodeAll([Codec.Frame(tag, p)]) == Codec.Chunk(tag, p) by {
      assert [Codec.Frame(tag, p)][1..] == [];
    }
  }

  lemma ArgBytesStep(v: seq<Option<ClientArgs.CString>>, x: Option<ClientArgs.CString>)
    ensures ArgBytes(v + [x]) == ArgBytes(v) + (if x.Some? then Codec.Chunk(NgDefines.CHUNKTYPE_ARG, x.value) else [])
  {
    ClientArgs.PresentAppend(v, [x]);
    var one: seq<Option<ClientArgs.CString>> := [x];
    assert one[..0] == [];
    if x.Some? {
      assert ClientArgs.Present([x]) == [x.value];
      TagFramesSnoc(NgDefines.CHUNKTYPE_ARG, ClientArgs.Present(v), x.value);
    } else {
      assert ClientArgs.Present([x]) == [];
      assert ClientArgs.Present(v + [x]) == ClientArgs.Present(v);
    }
  }

  lemma RequestSent(s0: seq<byte>, s1: seq<byte>, s2: seq<byte>, s3: seq<byte>, s4: seq<byte>, broken: bool,
                    args: seq<ClientArgs.CString>, env: seq<ClientArgs.CString>, cwd: ClientArgs.CString, cmd: Option<ClientArgs.CString>)
    requires Codec.AllSmall(Codec.TagFrames(NgDefines.CHUNKTYPE_ARG, args))
    requires Codec.AllSmall(Codec.TagFrames(NgDefines.CHUNKTYPE_ENV, env))
    requires s1 == s0 + (if broken then [] else Codec.EncodeAll(Codec.TagFrames(NgDefines.CHUNKTYPE_ARG, args)))
    requires s2 == s1 + (if broken then [] else Codec.EncodeAll(Codec.TagFrames(NgDefines.CHUNKTYPE_ENV, env)))
    requires s3 == s2 + (if broken then [] else Codec.Chunk(NgDefines.CHUNKTYPE_DIR, cwd))
    requires s4 == s3 + (if broken || cmd.None? then [] else Codec.Chunk(NgDefines.CHUNKTYPE_CMD, cmd.value))
    ensures Codec.AllSmall(RequestFrames(args, env, cwd))
    ensures s4 == s0 + (if broken then []
                        else if cmd.Some? then RequestBytes(args, env, cwd, cmd.value)
                        else Codec.EncodeAll(RequestFrames(args, env, cwd)))
  {
    RequestSplit(args, env, cwd, cmd);
  }

  /** The request bytes are the argument, environment, directory and command chunks in turn. */
  lemma RequestSplit(args: seq<ClientArgs.CString>, env: seq<ClientArgs.CString>, cwd: ClientArgs.CString, cmd: Option<ClientArgs.CString>)
    ensures Codec.AllSmall(RequestFrames(args, env, cwd))
    ensures Codec.AllSmall(Codec.TagFrames(NgDefines.CHUNKTYPE_ARG, args))
    ensures Codec.AllSmall(Codec.TagFrames(NgDefines.CHUNKTYPE_ENV, env))
    ensures Codec.EncodeAll(RequestFrames(args, env, cwd))
         == Codec.EncodeAll(Codec.TagFrames(NgDefines.CHUNKTYPE_ARG, args))
          + Codec.EncodeAll(Codec.TagFrames(NgDefines.CHUNKTYPE_ENV, env))
          + Codec.Chunk(NgDefines.CHUNKTYPE_DIR, cwd)
    ensures cmd.Some? ==>
      RequestBytes(args, env, cwd, cmd.value)
        == Codec.EncodeAll(RequestFrames(args, env, cwd)) + Codec.Chunk(NgDefines.CHUNKTYPE_CMD, cmd.value)
  {
    var a := Codec.TagFrames(NgDefines.CHUNKTYPE_ARG, args);
    var e := Codec.TagFrames(NgDefines.CHUNKTYPE_ENV, env);
    var d := [Codec.Frame(NgDefines.CHUNKTYPE_DIR, cwd)];
    Codec.TagFramesSmall(NgDefines.CHUNKTYPE_ARG, args);
    Codec.TagFramesSmall(NgDefines.CHUNKTYPE_ENV, env);
    Codec.EncodeAllAppend(a, e);
    Codec.EncodeAllAppend(a + e, d);
    assert Codec.EncodeAll(d) == Codec.Chunk(NgDefines.CHUNKTYPE_DIR, cwd) by {
      assert d[1..] == [];
    }
    if cmd.Some? {
      var c := [Codec.Frame(NgDefines.CHUNKTYPE_CMD, cmd.value)];
      Codec.EncodeAllAppend(a + e + d, c);
      assert Codec.EncodeAll(c) == Codec.Chunk(NgDefines.CHUNKTYPE_CMD, cmd.value) by {
        assert c[1..] == [];
      }
    }
  }
}
