/**
 * The header phase of `NGSession.run` (NGSession.java:86-118): chunks are
 * read and folded into the argument list, the environment and the working
 * directory until a command chunk arrives.
 */
module SessionHeader {
  import opened Wrappers
  import opened Bytes
  import Text
  import Codec
  import NGConstants
  import Streams

  /** The request as the header phase builds it: `remoteArgs`, `remoteEnv`, `cwd`. */
  datatype Header = Header(args: seq<string>, env: map<string, string>, cwd: Option<string>)

  const EMPTY: Header := Header([], map[], None)

  /** Why a header phase ends with an exception instead of a command. */
  datatype Abort =
    | EndOfStream        // `readFully` ran out of bytes
    | NegativeArraySize  // a length field of 2^31 or more
    | EnvWithoutEquals   // `line.substring(0, -1)` on an 'E' payload with no '='

  datatype HeaderResult =
    | Request(header: Header, command: string, rest: seq<byte>)
    | Aborted(reason: Abort)

  /** The effect of one chunk on the header being built. */
  datatype Accepted = Next(h: Header) | Finished(command: string) | Throws(reason: Abort)

  /** `String.indexOf(char)`: the first index of `c`, or -1. */
  function IndexOf(s: string, c: char): (i: int)
    ensures -1 <= i < |s|
    ensures i >= 0 ==> s[i] == c && c !in s[..i]
    ensures i == -1 <==> c !in s
  {
    if s == [] then -1
    else if s[0] == c then 0
    else
      var j := IndexOf(s[1..], c);
      assert s[1..][..j + 1] == s[1..j + 2] by { }
      if j == -1 then -1 else j + 1
  }

  /** The tag of a chunk compared as `(char) lbuf[4]`: only bytes below 0x80 can match a tag. */
  predicate IsTag(b: byte, tag: char) { b == tag as int }

  /**
   * One turn of the `switch` at NGSession.java:100-117. 'A' appends, 'E'
   * splits at the first '=' (a leading '=' adds nothing, a missing '='
   * throws), 'C' ends the phase, 'D' replaces the directory, anything else
   * is ignored.
   */
  function AcceptChunk(h: Header, tag: byte, line: string): (a: Accepted)
    ensures a.Finished? <==> IsTag(tag, NGConstants.CHUNKTYPE_COMMAND)
    ensures a.Finished? ==> a.command == line
    ensures a.Throws? <==> IsTag(tag, NGConstants.CHUNKTYPE_ENVIRONMENT) && '=' !in line
    ensures a.Next? ==> a.h.args == (if IsTag(tag, NGConstants.CHUNKTYPE_ARGUMENT) then h.args + [line] else h.args)
    ensures a.Next? ==> h.env.Keys <= a.h.env.Keys
    ensures a.Next? ==> a.h.cwd == (if IsTag(tag, NGConstants.CHUNKTYPE_WORKINGDIRECTORY) then Some(line) else h.cwd)
  {
    if IsTag(tag, NGConstants.CHUNKTYPE_ARGUMENT) then Next(h.(args := h.args + [line]))
    else if IsTag(tag, NGConstants.CHUNKTYPE_ENVIRONMENT) then
      var equalsIndex := IndexOf(line, '=');
      if equalsIndex > 0 then Next(h.(env := h.env[line[..equalsIndex] := line[equalsIndex + 1..]]))
      else if equalsIndex == 0 then Next(h)
      else Throws(EnvWithoutEquals)
    else if IsTag(tag, NGConstants.CHUNKTYPE_COMMAND) then Finished(line)
    else if IsTag(tag, NGConstants.CHUNKTYPE_WORKINGDIRECTORY) then Next(h.(cwd := Some(line)))
    else Next(h)
  }

  /** The whole header phase over the bytes the client sent, starting from `h`. */
  function ReadHeader(input: seq<byte>, h: Header): HeaderResult
    decreases |input|, 0
  {
    match Codec.ServerReadChunk(input)
    case EndOfStream => Aborted(EndOfStream)
    case NegativeArraySize => Aborted(NegativeArraySize)
    case Read(tag, payload, rest) => AfterChunk(h, AcceptChunk(h, tag, Text.Ascii(payload)), rest)
  }

  /** What the header phase yields after one chunk has been accepted. */
  function AfterChunk(h: Header, a: Accepted, rest: seq<byte>): HeaderResult
    decreases |rest|, 1
  {
    match a
    case Next(h') => ReadHeader(rest, h')
    case Finished(command) => Request(h, command, rest)
    case Throws(reason) => Aborted(reason)
  }

  /**
   * The `while (command == null)` loop of NGSession.java:91-118, reading
   * from the connection.
   */
  method ReadHeaderPhase(conn: Streams.Connection) returns (r: HeaderResult)
    modifies conn`unread
    ensures r == ReadHeader(old(conn.unread), EMPTY)
    ensures r.Request? ==> conn.unread == r.rest
  {
    var remoteArgs: seq<string> := [];
    var remoteEnv: map<string, string> := map[];
    var cwd: Option<string> := None;
    var command: Option<string> := None;
    while command.None?
      invariant command.None? ==>
        ReadHeader(old(conn.unread), EMPTY) == ReadHeader(conn.unread, Header(remoteArgs, remoteEnv, cwd))
      invariant command.Some? ==>
        ReadHeader(old(conn.unread), EMPTY) == Request(Header(remoteArgs, remoteEnv, cwd), command.value, conn.unread)
      decreases |conn.unread|, command.None?
    {
      ghost var before := conn.unread;
      ghost var h := Header(remoteArgs, remoteEnv, cwd);
      if |conn.unread| < 5 {
        return Aborted(EndOfStream);
      }
      var lbuf := conn.unread[..5];
      conn.unread := conn.unread[5..];
      var bytesToRead := FromBigEndian32(lbuf[..4]);
      var chunkType := lbuf[4];
      var size := ToInt32(bytesToRead);
      if size < 0 {
        return Aborted(NegativeArraySize);
      }
      if |conn.unread| < size {
        return Aborted(EndOfStream);
      }
      var b := conn.unread[..size];
      conn.unread := conn.unread[size..];
      var line := Text.Ascii(b);
      assert Codec.ServerReadChunk(before) == Codec.Read(chunkType, b, conn.unread) by {
        assert before[..4] == lbuf[..4];
        assert before[5..5 + size] == b;
        assert before[5 + size..] == conn.unread;
      }
      if IsTag(chunkType, NGConstants.CHUNKTYPE_ARGUMENT) {
        remoteArgs := remoteArgs + [line];
      } else if IsTag(chunkType, NGConstants.CHUNKTYPE_ENVIRONMENT) {
        var equalsIndex := IndexOf(line, '=');
        if equalsIndex > 0 {
          remoteEnv := remoteEnv[line[..equalsIndex] := line[equalsIndex + 1..]];
        }
        if equalsIndex < 0 {
          return Aborted(EnvWithoutEquals);
        }
      } else if IsTag(chunkType, NGConstants.CHUNKTYPE_COMMAND) {
        command := Some(line);
      } else if IsTag(chunkType, NGConstants.CHUNKTYPE_WORKINGDIRECTORY) {
        cwd := Some(line);
      }
    }
    r := Request(Header(remoteArgs, remoteEnv, cwd), command.value, conn.unread);
  }

  /** The text of each payload, decoded as US-ASCII. */
  function AsciiAll(ps: seq<seq<byte>>): (r: seq<string>)
    ensures |r| == |ps| && forall i :: 0 <= i < |ps| ==> r[i] == Text.Ascii(ps[i])
  {
    if ps == [] then [] else [Text.Ascii(ps[0])] + AsciiAll(ps[1..])
  }

  /** Environment entries applied left to right, as the 'E' branch does. */
  function ApplyEnv(env: map<string, string>, lines: seq<string>): (r: map<string, string>)
    ensures env.Keys <= r.Keys
    decreases |lines|
  {
    if lines == [] then env
    else
      var line := lines[|lines| - 1];
      var i := IndexOf(line, '=');
      var before := ApplyEnv(env, lines[..|lines| - 1]);
      if i > 0 then before[line[..i] := line[i + 1..]] else before
  }

  /**
   * A header phase that ends with a command has consumed at least that
   * command's chunk, and only ever added to the arguments, the
   * environment's keys and the directory it started from.
   */
  lemma {:induction false} ReadHeaderGrows(input: seq<byte>, h: Header)
    ensures var r := ReadHeader(input, h);
      r.Request? ==> (|r.rest| + 5 <= |input| && |h.args| <= |r.header.args| && r.header.args[..|h.args|] == h.args
        && h.env.Keys <= r.header.env.Keys && (h.cwd.Some? ==> r.header.cwd.Some?))
    decreases |input|
  {
    match Codec.ServerReadChunk(input)
    case EndOfStream =>
    case NegativeArraySize =>
    case Read(tag, payload, rest) =>
      var a := AcceptChunk(h, tag, Text.Ascii(payload));
      if a.Next? {
        ReadHeaderGrows(rest, a.h);
        var r := ReadHeader(rest, a.h);
        if r.Request? {
          assert r.header.args[..|h.args|] == r.header.args[..|a.h.args|][..|h.args|];
        }
      }
  }

  /** The key an entry sets, when its first '=' is not at the start. */
  predicate SetsKey(line: string, key: string)
  {
    var i := IndexOf(line, '=');
    i > 0 && line[..i] == key
  }

  /** A payload decodes to a text holding '=' exactly when it holds the byte '='. */
  lemma AsciiEquals(p: seq<byte>)
    ensures '=' in Text.Ascii(p) <==> 0x3D in p
  {
    var s := Text.Ascii(p);
    if 0x3D in p {
      var k :| 0 <= k < |p| && p[k] == 0x3D;
      assert s[k] == '=';
    }
    if '=' in s {
      var k :| 0 <= k < |s| && s[k] == '=';
      assert p[k] == 0x3D;
    }
  }

  /** Reading one whole chunk and applying it is one step of the header phase. */
  lemma ReadHeaderStep(tag: byte, payload: seq<byte>, rest: seq<byte>, h: Header)
    requires Codec.Small(payload)
    ensures ReadHeader(Codec.Chunk(tag, payload) + rest, h)
         == AfterChunk(h, AcceptChunk(h, tag, Text.Ascii(payload)), rest)
  {
    Codec.ServerReadsChunk(tag, payload, rest);
  }

  /** The header phase ends at the command chunk and leaves what follows it unread. */
  lemma CommandEndsHeader(payload: seq<byte>, rest: seq<byte>, h: Header)
    requires Codec.Small(payload)
    ensures ReadHeader(Codec.Chunk(NGConstants.CHUNKTYPE_COMMAND as int, payload) + rest, h)
         == Request(h, Text.Ascii(payload), rest)
  {
    ReadHeaderStep(NGConstants.CHUNKTYPE_COMMAND as int, payload, rest, h);
  }

  /** A chunk whose tag is none of 'A', 'E', 'C', 'D' changes nothing. */
  lemma UnknownChunkIgnored(tag: byte, payload: seq<byte>, rest: seq<byte>, h: Header)
    requires Codec.Small(payload)
    requires tag !in {0x41, 0x45, 0x43, 0x44}
    ensures ReadHeader(Codec.Chunk(tag, payload) + rest, h) == ReadHeader(rest, h)
  {
    ReadHeaderStep(tag, payload, rest, h);
  }

  /** A 'D' chunk replaces whatever directory came before it. */
  lemma DirectoryReplaced(payload: seq<byte>, rest: seq<byte>, h: Header)
    requires Codec.Small(payload)
    ensures ReadHeader(Codec.Chunk(0x44, payload) + rest, h)
         == ReadHeader(rest, h.(cwd := Some(Text.Ascii(payload))))
  {
    ReadHeaderStep(0x44, payload, rest, h);
  }

  /** An 'E' payload with no '=' aborts the header phase: it is not dropped. */
  lemma EnvWithoutEqualsAborts(payload: seq<byte>, rest: seq<byte>, h: Header)
    requires Codec.Small(payload)
    requires 0x3D !in payload
    ensures ReadHeader(Codec.Chunk(0x45, payload) + rest, h) == Aborted(EnvWithoutEquals)
  {
    AsciiEquals(payload);
    ReadHeaderStep(0x45, payload, rest, h);
  }

  /** An 'E' payload that starts with '=' adds nothing to the environment. */
  lemma EnvLeadingEqualsIgnored(payload: seq<byte>, rest: seq<byte>, h: Header)
    requires Codec.Small(payload)
    requires |payload| > 0 && payload[0] == 0x3D
    ensures ReadHeader(Codec.Chunk(0x45, payload) + rest, h) == ReadHeader(rest, h)
  {
    assert Text.Ascii(payload)[0] == '=';
    ReadHeaderStep(0x45, payload, rest, h);
  }

  /** One 'A' chunk appends its text to the argument list. */
  lemma ArgChunk(payload: seq<byte>, rest: seq<byte>, h: Header)
    requires Codec.Small(payload)
    ensures ReadHeader(Codec.Chunk(0x41, payload) + rest, h)
         == ReadHeader(rest, h.(args := h.args + [Text.Ascii(payload)]))
  {
    ReadHeaderStep(0x41, payload, rest, h);
  }

  /** One 'E' chunk holding '=' applies its entry to the environment. */
  lemma EnvChunk(payload: seq<byte>, rest: seq<byte>, h: Header)
    requires Codec.Small(payload) && 0x3D in payload
    ensures ReadHeader(Codec.Chunk(0x45, payload) + rest, h)
         == ReadHeader(rest, h.(env := ApplyEnv(h.env, [Text.Ascii(payload)])))
  {
    var line := Text.Ascii(payload);
    AsciiEquals(payload);
    var one: seq<string> := [line];
    assert one[..0] == [];
    ReadHeaderStep(0x45, payload, rest, h);
  }

  lemma AppendFirst(before: seq<string>, ps: seq<seq<byte>>)
    requires ps != []
    ensures (before + [Text.Ascii(ps[0])]) + AsciiAll(ps[1..]) == before + AsciiAll(ps)
  {
    assert AsciiAll(ps) == [Text.Ascii(ps[0])] + AsciiAll(ps[1..]);
  }

  /** 'A' chunks are appended to the argument list in arrival order, duplicates kept. */
  lemma {:induction false} ArgsAppendedInOrder(args: seq<seq<byte>>, rest: seq<byte>, h: Header)
    requires Codec.AllPayloadsSmall(args)
    ensures Codec.AllSmall(Codec.TagFrames(0x41, args))
    ensures ReadHeader(Codec.EncodeAll(Codec.TagFrames(0x41, args)) + rest, h)
         == ReadHeader(rest, h.(args := h.args + AsciiAll(args)))
    decreases |args|
  {
    Codec.TagFramesSmall(0x41, args);
    if args == [] {
      assert Codec.EncodeAll(Codec.TagFrames(0x41, args)) + rest == rest;
      assert h.args + AsciiAll(args) == h.args;
    } else {
      Codec.TagFramesFirst(0x41, args, rest);
      var tail := Codec.EncodeAll(Codec.TagFrames(0x41, args[1..])) + rest;
      var line := Text.Ascii(args[0]);
      var later := AsciiAll(args[1..]);
      ArgChunk(args[0], tail, h);
      ArgsAppendedInOrder(args[1..], rest, h.(args := h.args + [line]));
      assert ReadHeader(Codec.EncodeAll(Codec.TagFrames(0x41, args)) + rest, h)
          == ReadHeader(rest, h.(args := (h.args + [line]) + later));
      AppendFirst(h.args, args);
    }
  }

  /** 'E' chunks that all hold '=' update the environment entry by entry. */
  lemma {:induction false} EnvApplied(env: seq<seq<byte>>, rest: seq<byte>, h: Header)
    requires Codec.AllPayloadsSmall(env)
    requires forall e :: e in env ==> 0x3D in e
    ensures Codec.AllSmall(Codec.TagFrames(0x45, env))
    ensures ReadHeader(Codec.EncodeAll(Codec.TagFrames(0x45, env)) + rest, h)
         == ReadHeader(rest, h.(env := ApplyEnv(h.env, AsciiAll(env))))
    decreases |env|
  {
    Codec.TagFramesSmall(0x45, env);
    if env == [] {
      assert Codec.EncodeAll(Codec.TagFrames(0x45, env)) + rest == rest;
      assert AsciiAll(env) == [];
    } else {
      Codec.TagFramesFirst(0x45, env, rest);
      assert env[0] in env;
      var tail := Codec.EncodeAll(Codec.TagFrames(0x45, env[1..])) + rest;
      EnvChunk(env[0], tail, h);
      var line := Text.Ascii(env[0]);
      var h' := h.(env := ApplyEnv(h.env, [line]));
      EnvApplied(env[1..], rest, h');
      ApplyEnvAppend(h.env, [line], AsciiAll(env[1..]));
      assert [line] + AsciiAll(env[1..]) == AsciiAll(env);
    }
  }

  /** Applying two batches of entries is applying their concatenation. */
  lemma {:induction false} ApplyEnvAppend(env: map<string, string>, a: seq<string>, b: seq<string>)
    ensures ApplyEnv(ApplyEnv(env, a), b) == ApplyEnv(env, a + b)
    decreases |b|
  {
    if b == [] {
      assert a + b == a;
    } else {
      var ab := a + b;
      assert ab[..|ab| - 1] == a + b[..|b| - 1];
      assert ab[|ab| - 1] == b[|b| - 1];
      ApplyEnvAppend(env, a, b[..|b| - 1]);
    }
  }

  /**
   * Last write wins: the value of a key is the one from the last entry
   * that sets it, whatever came before.
   */
  lemma {:induction false} EnvLastWins(env: map<string, string>, lines: seq<string>, i: nat, key: string)
    requires i < |lines| && SetsKey(lines[i], key)
    requires forall j :: i < j < |lines| ==> !SetsKey(lines[j], key)
    ensures key in ApplyEnv(env, lines)
    ensures ApplyEnv(env, lines)[key] == lines[i][IndexOf(lines[i], '=') + 1..]
    decreases |lines|
  {
    var n := |lines| - 1;
    var front := lines[..n];
    if i < n {
      EnvLastWins(env, front, i, key);
      assert !SetsKey(lines[n], key);
    }
  }

  /** A key no entry sets keeps the value it had before the header phase. */
  lemma {:induction false} EnvUntouched(env: map<string, string>, lines: seq<string>, key: string)
    requires forall j :: 0 <= j < |lines| ==> !SetsKey(lines[j], key)
    ensures key in ApplyEnv(env, lines) <==> key in env
    ensures key in env ==> ApplyEnv(env, lines)[key] == env[key]
    decreases |lines|
  {
    if lines != [] {
      var n := |lines| - 1;
      assert !SetsKey(lines[n], key);
      EnvUntouched(env, lines[..n], key);
    }
  }
}
