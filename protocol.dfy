/**
 * The two ends of a connection together: what the server's header phase
 * makes of the bytes `ng` sends, and what `ng` makes of the bytes a session
 * sends back.
 */
module Protocol {
  import Sequences
  import opened Wrappers
  import opened Bytes
  import Codec
  import Text
  import Streams
  import NgDefines
  import ClientArgs
  import Client
  import SessionHeader
  import Session

  /** The header the server builds from a request whose entries all hold '='. */
  function RequestHeader(args: seq<ClientArgs.CString>, env: seq<ClientArgs.CString>, cwd: ClientArgs.CString): SessionHeader.Header
  {
    SessionHeader.Header(SessionHeader.AsciiAll(args), SessionHeader.ApplyEnv(map[], SessionHeader.AsciiAll(env)), Some(Text.Ascii(cwd)))
  }

  lemma CStringsSmall(ps: seq<ClientArgs.CString>)
    ensures Codec.AllPayloadsSmall(ps)
  {
    forall p | p in ps
      ensures Codec.Small(p)
    {
      var c: ClientArgs.CString := p;
    }
  }

  /**
   * The header phase over argument, environment and directory chunks from
   * the empty header reaches the request's header with `rest` still to read.
   */
  lemma ReadsRequestFrames(args: seq<ClientArgs.CString>, env: seq<ClientArgs.CString>, cwd: ClientArgs.CString, rest: seq<byte>)
    requires forall e :: e in env ==> 0x3D in e
    ensures Codec.AllSmall(Client.RequestFrames(args, env, cwd))
    ensures SessionHeader.ReadHeader(Codec.EncodeAll(Client.RequestFrames(args, env, cwd)) + rest, SessionHeader.EMPTY)
         == SessionHeader.ReadHeader(rest, RequestHeader(args, env, cwd))
  {
    Client.RequestSplit(args, env, cwd, None);
    CStringsSmall(args);
    CStringsSmall(env);
    var a := Codec.EncodeAll(Codec.TagFrames(0x41, args));
    var e := Codec.EncodeAll(Codec.TagFrames(0x45, env));
    var d := Codec.Chunk(0x44, cwd);
    Sequences.ConcatAssoc(a + e, d, rest);
    Sequences.ConcatAssoc(a, e, d + rest);
    var h0 := SessionHeader.EMPTY;
    var h1 := h0.(args := h0.args + SessionHeader.AsciiAll(args));
    var h2 := h1.(env := SessionHeader.ApplyEnv(h1.env, SessionHeader.AsciiAll(env)));
    var h3 := h2.(cwd := Some(Text.Ascii(cwd)));
    SessionHeader.ArgsAppendedInOrder(args, e + (d + rest), h0);
    SessionHeader.EnvApplied(env, d + rest, h1);
    SessionHeader.DirectoryReplaced(cwd, rest, h2);
    calc {
      SessionHeader.ReadHeader(Codec.EncodeAll(Client.RequestFrames(args, env, cwd)) + rest, h0);
      SessionHeader.ReadHeader(a + (e + (d + rest)), h0);
      SessionHeader.ReadHeader(e + (d + rest), h1);
      SessionHeader.ReadHeader(d + rest, h2);
      SessionHeader.ReadHeader(rest, h3);
    }
    assert h0.args + SessionHeader.AsciiAll(args) == SessionHeader.AsciiAll(args);
    assert h3 == RequestHeader(args, env, cwd);
  }

  /**
   * The server's header phase reads a request from `ng` back as the
   * arguments in order, the environment applied entry by entry, the working
   * directory and the command, and leaves the bytes after the command
   * unread.
   */
  lemma RequestRoundTrip(args: seq<ClientArgs.CString>, env: seq<ClientArgs.CString>, cwd: ClientArgs.CString,
                         cmd: ClientArgs.CString, rest: seq<byte>)
    requires forall e :: e in env ==> 0x3D in e
    ensures SessionHeader.ReadHeader(Client.RequestBytes(args, env, cwd, cmd) + rest, SessionHeader.EMPTY)
         == SessionHeader.Request(RequestHeader(args, env, cwd), Text.Ascii(cmd), rest)
  {
    Client.RequestSplit(args, env, cwd, Some(cmd));
    var c := Codec.Chunk(0x43, cmd);
    assert Client.RequestBytes(args, env, cwd, cmd) + rest
        == Codec.EncodeAll(Client.RequestFrames(args, env, cwd)) + (c + rest);
    ReadsRequestFrames(args, env, cwd, c + rest);
    SessionHeader.CommandEndsHeader(cmd, rest, RequestHeader(args, env, cwd));
  }

  /**
   * When `ng` has no command it crashes after the directory chunk and its
   * socket closes: the server's header phase then ends at end of stream.
   */
  lemma MissingCommandAbortsHeader(args: seq<ClientArgs.CString>, env: seq<ClientArgs.CString>, cwd: ClientArgs.CString)
    requires forall e :: e in env ==> 0x3D in e
    ensures Codec.AllSmall(Client.RequestFrames(args, env, cwd))
    ensures SessionHeader.ReadHeader(Codec.EncodeAll(Client.RequestFrames(args, env, cwd)), SessionHeader.EMPTY)
         == SessionHeader.Aborted(SessionHeader.EndOfStream)
  {
    var none: seq<byte> := [];
    ReadsRequestFrames(args, env, cwd, none);
    assert Codec.EncodeAll(Client.RequestFrames(args, env, cwd)) + none == Codec.EncodeAll(Client.RequestFrames(args, env, cwd));
    assert SessionHeader.ReadHeader(none, RequestHeader(args, env, cwd)) == SessionHeader.Aborted(SessionHeader.EndOfStream);
  }

  /** What one nail write puts on the client's stdout, and on its stderr. */
  function OutData(w: Session.NailWrite): seq<byte> { if w.toStderr then [] else w.data }
  function ErrData(w: Session.NailWrite): seq<byte> { if w.toStderr then w.data else [] }

  /** What a sequence of nail writes puts on the client's stdout. */
  function StdoutOf(ws: seq<Session.NailWrite>): seq<byte>
  {
    if ws == [] then [] else OutData(ws[0]) + StdoutOf(ws[1..])
  }

  /** What a sequence of nail writes puts on the client's stderr. */
  function StderrOf(ws: seq<Session.NailWrite>): seq<byte>
  {
    if ws == [] then [] else ErrData(ws[0]) + StderrOf(ws[1..])
  }

  /** `ng` copies one stdout or stderr chunk whole to its own stdout or stderr and goes on. */
  lemma ClientReadsWrite(w: Session.NailWrite, rest: seq<byte>)
    ensures var f := Session.WriteFrame(w);
      Client.StreamStep(Codec.Chunk(f.tag, f.payload) + rest)
        == Client.Step(Client.Continue, rest, OutData(w), ErrData(w))
  {
    var f := Session.WriteFrame(w);
    var input := Codec.Chunk(f.tag, f.payload) + rest;
    Codec.ClientReadsHeader(|w.data|, f.tag, w.data + rest);
    assert input == Codec.ChunkHeader(|w.data|, f.tag) + (w.data + rest);
    assert input[5..] == w.data + rest;
    assert (w.data + rest)[..|w.data|] == w.data;
  }

  /**
   * The exit chunk a session ends with (decimal text, then a separate
   * line-separator chunk) makes `ng` exit with that very status, printing
   * nothing.
   */
  lemma ClientReadsExit(code: int32, rest: seq<byte>)
    ensures Client.Receive(Streams.PrintlnChunks(0x58, code) + rest) == Client.Received(Client.Exit(code), [], [])
  {
    var digits := Text.DecimalText(code);
    Text.DecimalTextShort(code);
    var after := Codec.Chunk(0x58, Streams.LINE_SEPARATOR) + rest;
    var input := Streams.PrintlnChunks(0x58, code) + rest;
    assert input == Codec.ChunkHeader(|digits|, 0x58) + (digits + after);
    Codec.ClientReadsHeader(|digits|, 0x58, digits + after);
    assert input[5..] == digits + after;
    assert (digits + after)[..|digits|] == digits;
    Text.AtoiReadsDecimalText(code, [Text.NUL]);
  }

  /** Reading on after a chunk that lets the client continue. */
  lemma ReceiveAfter(input: seq<byte>)
    requires Client.StreamStep(input).outcome.Continue?
    ensures var s := Client.StreamStep(input);
      var r := Client.Receive(s.rest);
      Client.Receive(input) == Client.Received(r.outcome, s.toStdout + r.stdout, s.toStderr + r.stderr)
  { }

  /** The frames of a nail's writes, one write at a time. */
  lemma WriteFramesFirst(ws: seq<Session.NailWrite>, rest: seq<byte>)
    requires ws != []
    ensures var f := Session.WriteFrame(ws[0]);
      Codec.EncodeAll(Session.WriteFrames(ws)) + rest
        == Codec.Chunk(f.tag, f.payload) + (Codec.EncodeAll(Session.WriteFrames(ws[1..])) + rest)
  {
    var fs := Session.WriteFrames(ws);
    assert fs[1..] == Session.WriteFrames(ws[1..]);
  }

  /** The client's stdout over writes, split after the first write. */
  lemma StdoutOfFirst(ws: seq<Session.NailWrite>, o: seq<byte>)
    requires ws != []
    ensures OutData(ws[0]) + (StdoutOf(ws[1..]) + o) == StdoutOf(ws) + o
  {
    var a, b := OutData(ws[0]), StdoutOf(ws[1..]);
    assert StdoutOf(ws) == a + b;
    Sequences.ConcatAssoc(a, b, o);
  }

  /** The client's stderr over writes, split after the first write. */
  lemma StderrOfFirst(ws: seq<Session.NailWrite>, e: seq<byte>)
    requires ws != []
    ensures ErrData(ws[0]) + (StderrOf(ws[1..]) + e) == StderrOf(ws) + e
  {
    var a, b := ErrData(ws[0]), StderrOf(ws[1..]);
    assert StderrOf(ws) == a + b;
    Sequences.ConcatAssoc(a, b, e);
  }

  /** Stepping over the chunks of a nail's writes, `ng` prints their data and then reads on. */
  lemma {:induction false} ClientReadsWrites(ws: seq<Session.NailWrite>, rest: seq<byte>)
    ensures var r := Client.Receive(rest);
      Client.Receive(Codec.EncodeAll(Session.WriteFrames(ws)) + rest)
        == Client.Received(r.outcome, StdoutOf(ws) + r.stdout, StderrOf(ws) + r.stderr)
    decreases |ws|
  {
    var r := Client.Receive(rest);
    if ws == [] {
      assert Codec.EncodeAll(Session.WriteFrames(ws)) + rest == rest;
    } else {
      var w := ws[0];
      var f := Session.WriteFrame(w);
      var tail := Codec.EncodeAll(Session.WriteFrames(ws[1..])) + rest;
      var input := Codec.Chunk(f.tag, f.payload) + tail;
      WriteFramesFirst(ws, rest);
      var out := OutData(w);
      var err := ErrData(w);
      ClientReadsWrite(w, tail);
      assert Client.StreamStep(input) == Client.Step(Client.Continue, tail, out, err);
      ReceiveAfter(input);
      var r2 := Client.Receive(tail);
      assert Client.Receive(input) == Client.Received(r2.outcome, out + r2.stdout, err + r2.stderr);
      ClientReadsWrites(ws[1..], rest);
      assert r2 == Client.Received(r.outcome, StdoutOf(ws[1..]) + r.stdout, StderrOf(ws[1..]) + r.stderr);
      StdoutOfFirst(ws, r.stdout);
      StderrOfFirst(ws, r.stderr);
    }
  }

  /** A session's bytes are the chunks of the writes it ran, then the exit chunks. */
  lemma SessionOutputParts(d: Session.Dispatch, rest: seq<byte>)
    ensures var ws := if d.Invoked? then d.run.writes else [];
      Session.SessionOutput(d) + rest
        == Codec.EncodeAll(Session.WriteFrames(ws)) + (Streams.PrintlnChunks(0x58, Session.ExitCode(d)) + rest)
  {
    var ws: seq<Session.NailWrite> := if d.Invoked? then d.run.writes else [];
    assert Session.WriteFrames([]) == [];
    Sequences.ConcatAssoc(Codec.EncodeAll(Session.WriteFrames(ws)), Streams.PrintlnChunks(0x58, Session.ExitCode(d)), rest);
  }

  /**
   * End to end: reading everything a session sends after its header phase,
   * `ng` prints exactly what the nail wrote to each stream, in order, and
   * exits with the session's exit code.
   */
  lemma ClientSeesSession(d: Session.Dispatch, rest: seq<byte>)
    ensures var ws := if d.Invoked? then d.run.writes else [];
      Client.Receive(Session.SessionOutput(d) + rest)
        == Client.Received(Client.Exit(Session.ExitCode(d)), StdoutOf(ws), StderrOf(ws))
  {
    var ws: seq<Session.NailWrite> := if d.Invoked? then d.run.writes else [];
    var code := Session.ExitCode(d);
    var exit := Streams.PrintlnChunks(0x58, code) + rest;
    SessionOutputParts(d, rest);
    ClientReadsExit(code, rest);
    ClientReadsWrites(ws, exit);
    var r := Client.Receive(exit);
    assert r == Client.Received(Client.Exit(code), [], []);
    assert StdoutOf(ws) + r.stdout == StdoutOf(ws);
    assert StderrOf(ws) + r.stderr == StderrOf(ws);
  }
}
