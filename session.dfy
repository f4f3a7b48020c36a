/**
 * `NGSession.run` after the header phase: the entry point is resolved
 * (alias, then class name, then the server's default nail), `nailMain` is
 * preferred to `main`, the nail runs between `nailStarted` and
 * `nailFinished`, and the exit stream receives 0 or EXIT_EXCEPTION. The
 * per-thread stdio is reset after every session, failed ones included.
 */
module Session {
  import Sequences
  import opened Wrappers
  import opened Bytes
  import Codec
  import Text
  import NGConstants
  import Streams
  import Security
  import Runner
  import SessionHeader

  /** A Java `byte[]`: its length fits in an `int`. */
  type ByteArray = b: seq<byte> | Codec.Small(b)

  /** The two entry points reflection may find. */
  datatype Shape = NailMain | Main

  /** How the invoked entry point ends. */
  datatype Ending =
    | Returns                  // normal return
    | Throws                   // any Throwable escapes the entry point
    | CallsExit(status: int32) // `System.exit(status)`, trapped by the security manager

  /** One `write(byte[])` a nail makes on its stdout or its stderr. */
  datatype NailWrite = NailWrite(toStderr: bool, data: ByteArray)

  /** What a nail does when invoked: its writes, in order, then how it ends. */
  datatype Behaviour = Behaviour(writes: seq<NailWrite>, ending: Ending)

  /**
   * A nail class as reflection sees it: whether `nailMain(NGContext)` and
   * `main(String[])` exist, and what the chosen entry point does with the
   * request it is given.
   */
  datatype NailClass = NailClass(
    name: string,
    hasNailMain: bool,
    hasMain: bool,
    behaviour: (Shape, SessionHeader.Header, string) -> Behaviour)

  /**
   * The parts of NGServer that `run` consults: the alias table, whether
   * nails may be named by class, the classes `Class.forName` can load, and
   * the default nail class (`None` when the server has none).
   */
  datatype ServerConfig = ServerConfig(
    aliases: map<string, NailClass>,
    allowsNailsByClassName: bool,
    classesByName: map<string, NailClass>,
    defaultNailClass: Option<NailClass>)

  /** How dispatch turns out. */
  datatype Dispatch =
    | Unresolved                                  // no class: ClassNotFoundException or a null class
    | NoEntryPoint                                // neither entry point: NoSuchMethodException
    | Invoked(c: NailClass, shape: Shape, run: Behaviour)

  /**
   * NGSession.java:136-144: alias first, then `Class.forName` if allowed,
   * else the default. The class always comes from one of those three places.
   */
  function ResolveClass(config: ServerConfig, command: string): (r: Option<NailClass>)
    ensures command in config.aliases ==> r == Some(config.aliases[command])
    ensures command !in config.aliases && config.allowsNailsByClassName ==>
      (r.Some? <==> command in config.classesByName)
    ensures command !in config.aliases && !config.allowsNailsByClassName ==> r == config.defaultNailClass
    ensures r.Some? && r != config.defaultNailClass ==>
      (command in config.aliases && r.value == config.aliases[command])
      || (command in config.classesByName && r.value == config.classesByName[command])
  {
    if command in config.aliases then Some(config.aliases[command])
    else if config.allowsNailsByClassName then
      if command in config.classesByName then Some(config.classesByName[command]) else None
    else config.defaultNailClass
  }

  /**
   * NGSession.java:150-172: `nailMain` when present, else `main`; nothing
   * only when the class has neither.
   */
  function ChooseShape(c: NailClass): (s: Option<Shape>)
    ensures s.Some? <==> c.hasNailMain || c.hasMain
    ensures c.hasNailMain ==> s == Some(NailMain)
    ensures s == Some(Main) ==> !c.hasNailMain && c.hasMain
  {
    if c.hasNailMain then Some(NailMain)
    else if c.hasMain then Some(Main)
    else None
  }

  /** The dispatch of one request. */
  function DispatchOf(config: ServerConfig, request: SessionHeader.Header, command: string): Dispatch
  {
    match ResolveClass(config, command)
    case None => Unresolved
    case Some(c) =>
      match ChooseShape(c)
      case None => NoEntryPoint
      case Some(shape) => Invoked(c, shape, c.behaviour(shape, request, command))
  }

  /**
   * NGSession.java:185, 190: 0 after a normal return, EXIT_EXCEPTION after
   * any throwable. The code is 0 exactly when an entry point was invoked
   * and returned normally; it is never EXIT_NOSUCHCOMMAND.
   */
  function ExitCode(d: Dispatch): (code: int32)
    ensures code == 0 || code == NGConstants.EXIT_EXCEPTION
    ensures code != NGConstants.EXIT_NOSUCHCOMMAND
    ensures code == 0 <==> d.Invoked? && d.run.ending.Returns?
  {
    if d.Invoked? && d.run.ending.Returns? then 0 else NGConstants.EXIT_EXCEPTION
  }

  /** The chunk a nail's write becomes on the socket. */
  function WriteFrame(w: NailWrite): Codec.Frame
  {
    Codec.Frame(if w.toStderr then NGConstants.CHUNKTYPE_STDERR as byte else NGConstants.CHUNKTYPE_STDOUT as byte, w.data)
  }

  function WriteFrames(ws: seq<NailWrite>): (fs: seq<Codec.Frame>)
    ensures |fs| == |ws| && forall i :: 0 <= i < |ws| ==> fs[i] == WriteFrame(ws[i])
    ensures Codec.AllSmall(fs)
  {
    seq(|ws|, i requires 0 <= i < |ws| => WriteFrame(ws[i]))
  }

  /** The chunks of the first `i + 1` writes are those of the first `i`, then the next one. */
  lemma WriteFramesSnoc(writes: seq<NailWrite>, i: nat)
    requires i < |writes|
    ensures Codec.EncodeAll(WriteFrames(writes[..i + 1]))
         == Codec.EncodeAll(WriteFrames(writes[..i])) + Codec.Chunk(WriteFrame(writes[i]).tag, writes[i].data)
  {
    var f := WriteFrame(writes[i]);
    assert WriteFrames(writes[..i + 1]) == WriteFrames(writes[..i]) + [f];
    Codec.EncodeAllAppend(WriteFrames(writes[..i]), [f]);
    assert Codec.EncodeAll([f]) == Codec.Chunk(f.tag, f.payload) by {
      assert [f][1..] == [];
    }
  }

  /** Everything a session sends to the client after its header phase. */
  function SessionOutput(d: Dispatch): seq<byte>
  {
    (if d.Invoked? then Codec.EncodeAll(WriteFrames(d.run.writes)) else [])
      + Streams.PrintlnChunks(NGConstants.CHUNKTYPE_EXIT as byte, ExitCode(d))
  }

  /**
   * A session always ends with the exit code's two chunks, and sends
   * nothing else when no nail was invoked.
   */
  lemma SessionOutputEndsWithExit(d: Dispatch)
    ensures var exit := Streams.PrintlnChunks(NGConstants.CHUNKTYPE_EXIT as byte, ExitCode(d));
      var b := SessionOutput(d);
      |exit| <= |b| && b[|b| - |exit|..] == exit && (!d.Invoked? ==> b == exit)
  { }

  /** A session's bytes: the nail's chunks, then the exit code's chunks. */
  lemma SessionOutputAfter(d: Dispatch, sent0: seq<byte>, written: seq<byte>, code: int32)
    requires written == if d.Invoked? then Codec.EncodeAll(WriteFrames(d.run.writes)) else []
    requires code == ExitCode(d)
    ensures (sent0 + written) + Streams.PrintlnChunks(NGConstants.CHUNKTYPE_EXIT as byte, code) == sent0 + SessionOutput(d)
  { }

  /** Calls NGSession makes on NGServer's nail hooks. */
  datatype Event = Started(name: string) | Finished(name: string)

  /**
   * The hooks one session calls: none unless a nail was invoked, and then
   * `nailStarted` followed by `nailFinished` for the same class.
   */
  function SessionEvents(d: Dispatch): (e: seq<Event>)
    ensures |e| == 0 || |e| == 2
    ensures e != [] <==> d.Invoked?
    ensures |e| == 2 ==> e[0].Started? && e[1].Finished? && e[0].name == e[1].name == d.c.name
  {
    if d.Invoked? then [Started(d.c.name), Finished(d.c.name)] else []
  }

  /** A class with both entry points runs `nailMain`, whatever `main` would do. */
  lemma NailMainPreferred(config: ServerConfig, request: SessionHeader.Header, command: string)
    requires ResolveClass(config, command).Some?
    requires ResolveClass(config, command).value.hasNailMain
    ensures DispatchOf(config, request, command).Invoked?
    ensures DispatchOf(config, request, command).shape == NailMain
  { }

  /** An alias shadows class-name lookup and the default class. */
  lemma AliasShadows(config: ServerConfig, request: SessionHeader.Header, command: string,
                     byName: bool, classes: map<string, NailClass>, default: Option<NailClass>)
    requires command in config.aliases
    ensures DispatchOf(config, request, command)
         == DispatchOf(config.(allowsNailsByClassName := byName, classesByName := classes, defaultNailClass := default), request, command)
  { }

  /**
   * With class names disallowed, every command that is not an alias runs
   * the default nail, and with no default nail it fails with EXIT_EXCEPTION.
   */
  lemma DefaultNailForUnaliased(config: ServerConfig, request: SessionHeader.Header, command: string)
    requires !config.allowsNailsByClassName && command !in config.aliases
    ensures config.defaultNailClass.None? ==>
      SessionOutput(DispatchOf(config, request, command))
        == Streams.PrintlnChunks(NGConstants.CHUNKTYPE_EXIT as byte, NGConstants.EXIT_EXCEPTION)
    ensures config.defaultNailClass.Some? && ChooseShape(config.defaultNailClass.value).Some? ==>
      DispatchOf(config, request, command).Invoked? && DispatchOf(config, request, command).c == config.defaultNailClass.value
  { }

  /** A class name the server cannot load, with no alias, runs nothing and reports EXIT_EXCEPTION. */
  lemma UnknownClassFails(config: ServerConfig, request: SessionHeader.Header, command: string)
    requires config.allowsNailsByClassName
    requires command !in config.aliases && command !in config.classesByName
    ensures SessionEvents(DispatchOf(config, request, command)) == []
    ensures SessionOutput(DispatchOf(config, request, command))
         == Streams.PrintlnChunks(NGConstants.CHUNKTYPE_EXIT as byte, NGConstants.EXIT_EXCEPTION)
  { }

  /**
   * `System.exit` inside a nail never reaches the client as its own
   * status: the trap throws and the session reports EXIT_EXCEPTION, even
   * for `System.exit(0)`.
   */
  lemma ExitInsideNailReported(d: Dispatch)
    requires d.Invoked? && d.run.ending.CallsExit?
    ensures ExitCode(d) == NGConstants.EXIT_EXCEPTION
  { }

  /** The parts of NGServer a session calls back: a log of the nail hooks. */
  class NGServer {
    const config: ServerConfig
    var events: seq<Event>

    constructor(config: ServerConfig)
      ensures this.config == config && events == []
    {
      this.config := config;
      events := [];
    }

    method NailStarted(c: NailClass)
      modifies this`events
      ensures events == old(events) + [Started(c.name)]
    {
      events := events + [Started(c.name)];
    }

    method NailFinished(c: NailClass)
      modifies this`events
      ensures events == old(events) + [Finished(c.name)]
    {
      events := events + [Finished(c.name)];
    }
  }

  /** What one session leaves behind on its connection and on the server's log. */
  ghost predicate Served(conn: Streams.Connection, input: seq<byte>, sent0: seq<byte>, closed0: bool,
                         config: ServerConfig, events0: seq<Event>, events: seq<Event>)
    reads conn
  {
    match SessionHeader.ReadHeader(input, SessionHeader.EMPTY)
    case Request(header, command, rest) =>
      var d := DispatchOf(config, header, command);
      conn.unread == rest && conn.sent == sent0 + SessionOutput(d) && conn.closed
      && events == events0 + SessionEvents(d)
    case Aborted(_) =>
      conn.sent == sent0 && conn.closed == closed0 && events == events0
  }

  class NGSession {
    const index: nat
    const runner: Runner.NGSessionRunner
    const server: NGServer
    /** The security manager installed while the server runs. */
    const security: Security.NGSecurityManager
    /** This worker thread's `System.in`, `System.out` and `System.err` redirections. */
    var stdin: Streams.Connection?
    var stdout: Streams.NGOutputStream?
    var stderr: Streams.NGOutputStream?

    constructor(runner: Runner.NGSessionRunner, server: NGServer, security: Security.NGSecurityManager, index: nat)
      ensures this.runner == runner && this.server == server && this.security == security && this.index == index
      ensures stdin == null && stdout == null && stderr == null
    {
      this.runner := runner;
      this.server := server;
      this.security := security;
      this.index := index;
      stdin := null;
      stdout := null;
      stderr := null;
    }

    /** The nail's writes, each through the stream it chose. */
    method RunWrites(writes: seq<NailWrite>, out: Streams.NGOutputStream, err: Streams.NGOutputStream)
      requires out.out == err.out
      requires out.streamCode == NGConstants.CHUNKTYPE_STDOUT as byte
      requires err.streamCode == NGConstants.CHUNKTYPE_STDERR as byte
      modifies out.out`sent
      ensures out.out.sent == old(out.out.sent) + Codec.EncodeAll(WriteFrames(writes))
    {
      var i := 0;
      while i < |writes|
        invariant 0 <= i <= |writes|
        invariant out.out.sent == old(out.out.sent) + Codec.EncodeAll(WriteFrames(writes[..i]))
      {
        var w := writes[i];
        ghost var before := out.out.sent;
        if w.toStderr {
          err.Write(w.data);
        } else {
          out.Write(w.data);
        }
        WriteFramesSnoc(writes, i);
        Sequences.ConcatAssoc(old(out.out.sent), Codec.EncodeAll(WriteFrames(writes[..i])), Codec.Chunk(WriteFrame(w).tag, w.data));
        i := i + 1;
      }
      assert writes[..i] == writes;
    }

    /**
     * NGSession.java:135-191 once the streams are set up: resolve, pick the
     * entry point, run the nail between the server's hooks, and compute
     * the code the exit stream gets.
     */
    method Dispatch(header: SessionHeader.Header, command: string, out: Streams.NGOutputStream, err: Streams.NGOutputStream)
      returns (code: int32)
      requires out.out == err.out
      requires out.streamCode == NGConstants.CHUNKTYPE_STDOUT as byte
      requires err.streamCode == NGConstants.CHUNKTYPE_STDERR as byte
      requires index !in security.exitSinks
      modifies out.out`sent, server`events
      ensures var d := DispatchOf(server.config, header, command);
        code == ExitCode(d)
        && out.out.sent == old(out.out.sent) + (if d.Invoked? then Codec.EncodeAll(WriteFrames(d.run.writes)) else [])
        && server.events == old(server.events) + SessionEvents(d)
    {
      code := NGConstants.EXIT_EXCEPTION;
      var cmdclass := ResolveClass(server.config, command);
      if cmdclass.Some? {
        var c := cmdclass.value;
        var shape := ChooseShape(c);
        if shape.Some? {
          var run := c.behaviour(shape.value, header, command);
          server.NailStarted(c);
          RunWrites(run.writes, out, err);
          if run.ending.CallsExit? {
            var thrown := security.CheckExit(index, run.ending.status);
          }
          server.NailFinished(c);
          if run.ending.Returns? {
            code := 0;
          }
        }
      }
    }

    /**
     * NGSession.java:123-196 after a complete header: the session's streams
     * over `conn`, the nail, the exit code on the exit stream, and the
     * socket closed.
     */
    method Respond(conn: Streams.Connection, header: SessionHeader.Header, command: string)
      requires index !in security.exitSinks
      modifies this, conn, server`events
      ensures var d := DispatchOf(server.config, header, command);
        conn.sent == old(conn.sent) + SessionOutput(d) && conn.closed && conn.unread == old(conn.unread)
        && server.events == old(server.events) + SessionEvents(d)
    {
      ghost var sent0, unread0, events0 := conn.sent, conn.unread, server.events;
      ghost var d := DispatchOf(server.config, header, command);
      ghost var written := if d.Invoked? then Codec.EncodeAll(WriteFrames(d.run.writes)) else [];
      var out := new Streams.NGOutputStream(conn, NGConstants.CHUNKTYPE_STDOUT as byte);
      var err := new Streams.NGOutputStream(conn, NGConstants.CHUNKTYPE_STDERR as byte);
      var exit := new Streams.NGOutputStream(conn, NGConstants.CHUNKTYPE_EXIT as byte);
      stdin, stdout, stderr := conn, out, err;
      var code := Dispatch(header, command, out, err);
      assert conn.sent == sent0 + written && code == ExitCode(d);
      assert conn.unread == unread0 && server.events == events0 + SessionEvents(d);
      exit.Println(code);
      assert conn.unread == unread0 && server.events == events0 + SessionEvents(d);
      SessionOutputAfter(d, sent0, written, code);
      conn.Close();
    }

    /** One turn of the `while (socket != null)` loop of NGSession.java:78-204, for `conn`. */
    method Serve(conn: Streams.Connection)
      requires index !in security.exitSinks
      modifies this, conn, server`events
      ensures stdin == null && stdout == null && stderr == null
      ensures Served(conn, old(conn.unread), old(conn.sent), old(conn.closed), server.config, old(server.events), server.events)
    {
      var r := SessionHeader.ReadHeaderPhase(conn);
      if r.Request? {
        Respond(conn, r.header, r.command);
      }
      stdin, stdout, stderr := null, null, null;
    }

    /**
     * `run()` (NGSession.java:74-206): serve sockets from the runner until
     * `getSocket` gives none. `interrupted` says how a wait on an empty
     * queue ends; a wait that is not interrupted never ends, and the
     * model stops there. What each turn does to its socket is `Serve`'s
     * contract.
     */
    method Run(interrupted: bool) returns (ghost served: seq<Streams.Connection>)
      requires index !in security.exitSinks
      modifies this, runner`queue, server`events, runner.queue
      ensures served == Runner.Drain(old(runner.Current()))
      ensures runner.Current() == if old(runner.done) then old(runner.Current()) else Runner.State([], false)
      ensures stdin == null && stdout == null && stderr == null
    {
      stdin, stdout, stderr := null, null, null;
      ghost var queue0 := runner.queue;
      ghost var start := runner.Current();
      served := [];
      var socket := runner.GetSocket(interrupted);
      Runner.DrainUnfold(start);
      while socket.Got?
        invariant runner.done == start.done
        invariant start.done ==> runner.queue == queue0 && !socket.Got?
        invariant socket.Got? ==> socket.socket in queue0
        invariant forall c :: c in runner.queue ==> c in queue0
        invariant !socket.Got? ==> runner.done || runner.queue == []
        invariant Runner.Drain(start) == served + (if socket.Got? then [socket.socket] + Runner.Drain(runner.Current()) else [])
        invariant index !in security.exitSinks
        invariant stdin == null && stdout == null && stderr == null
        decreases |runner.queue|, socket.Got?
      {
        var conn := socket.socket;
        ghost var before := runner.Current();
        ghost var served0 := served;
        Serve(conn);
        served := served + [conn];
        socket := runner.GetSocket(interrupted);
        Runner.DrainUnfold(before);
        if socket.Got? {
          Sequences.ConcatAssoc(served0, [conn], [socket.socket] + Runner.Drain(runner.Current()));
        }
      }
    }
  }
}
