/**
 * The client's command line (ng.c:254-335): the name it was started under,
 * the `--nailgun-server` / `--nailgun-port` options, which are removed from
 * `argv` in place, and the command.
 */
module ClientArgs {
  import opened Wrappers
  import opened Bytes
  import Codec
  import NgDefines
  import Sequences

  /** A C string: no NUL inside, and `strlen` fits in an `int`. */
  type CString = s: seq<byte> | 0 !in s && Codec.Small(s)

  /** FILE_SEPARATOR on a non-Windows build (ng.c:36). */
  const FILE_SEPARATOR: byte := 0x2F

  /** "--nailgun-server" */
  const SERVER_OPTION: seq<byte> :=
    [0x2D, 0x2D, 0x6E, 0x61, 0x69, 0x6C, 0x67, 0x75, 0x6E, 0x2D, 0x73, 0x65, 0x72, 0x76, 0x65, 0x72]

  /** "--nailgun-port" */
  const PORT_OPTION: seq<byte> :=
    [0x2D, 0x2D, 0x6E, 0x61, 0x69, 0x6C, 0x67, 0x75, 0x6E, 0x2D, 0x70, 0x6F, 0x72, 0x74]

  /** `strrchr`: the last index of `b` in `s`, or -1. */
  function LastIndexOf(s: seq<byte>, b: byte): (i: int)
    ensures -1 <= i < |s|
    ensures i >= 0 ==> s[i] == b && b !in s[i + 1..]
    ensures i == -1 <==> b !in s
  {
    if s == [] then -1
    else if s[|s| - 1] == b then |s| - 1
    else
      var t := s[..|s| - 1];
      var i := LastIndexOf(t, b);
      assert s == t + [s[|s| - 1]];
      assert b in s <==> b in t;
      assert i >= 0 ==> s[i + 1..] == t[i + 1..] + [s[|s| - 1]];
      i
  }

  /**
   * `shortClientName` (ng.c:254-257): what follows the last separator, or
   * the whole string when there is none; it never holds a separator.
   */
  function ShortClientName(s: CString): (r: CString)
    ensures FILE_SEPARATOR !in r
    ensures |r| <= |s| && s[|s| - |r|..] == r
    ensures FILE_SEPARATOR !in s ==> r == s
    ensures FILE_SEPARATOR in s ==> |r| < |s| && s[|s| - |r| - 1] == FILE_SEPARATOR
  {
    var i := LastIndexOf(s, FILE_SEPARATOR);
    if i < 0 then s else s[i + 1..]
  }

  /** `isNailgunClientName` (ng.c:265-271), non-Windows: `strcmp` equality with "ng". */
  predicate IsNailgunClientName(s: CString)
  {
    s == NgDefines.NAILGUN_CLIENT_NAME
  }

  /** The variables the option scan of ng.c:310-335 updates, and the argv slots it has nulled. */
  datatype Settings = Settings(
    server: CString,
    port: CString,
    cmd: Option<CString>,
    firstArgIndex: Option<nat>, // `None`: never assigned
    nulled: set<nat>)

  datatype ScanResult = Usage | Scanned(settings: Settings)

  /** Both option names. */
  predicate IsOption(w: CString)
  {
    w == SERVER_OPTION || w == PORT_OPTION
  }

  /** The scan from index `i` on, over the original `argv` strings. */
  function ScanFrom(args: seq<CString>, i: nat, st: Settings): ScanResult
    decreases |args| - i
  {
    if i >= |args| then Scanned(st)
    else if args[i] == SERVER_OPTION then
      if i == |args| - 1 then Usage
      else ScanFrom(args, i + 2, st.(server := args[i + 1], nulled := st.nulled + {i, i + 1}))
    else if args[i] == PORT_OPTION then
      if i == |args| - 1 then Usage
      else ScanFrom(args, i + 2, st.(port := args[i + 1], nulled := st.nulled + {i, i + 1}))
    else if st.cmd.None? then
      ScanFrom(args, i + 1, st.(cmd := Some(args[i]), firstArgIndex := Some(i + 1)))
    else ScanFrom(args, i + 1, st)
  }

  /**
   * The scan only nulls slots from `i` on; it fails only on a trailing
   * option; a command already chosen keeps its `firstArgIndex`, and one
   * taken from the list forwards the slots after its own.
   */
  lemma {:induction false} ScanFromShape(args: seq<CString>, i: nat, st: Settings)
    ensures var r := ScanFrom(args, i, st);
      && (r.Usage? ==> i < |args| && IsOption(args[|args| - 1]))
      && (r.Scanned? ==> (st.nulled <= r.settings.nulled
          && forall j :: j in r.settings.nulled && j !in st.nulled ==> i <= j < |args|))
      && (r.Scanned? && st.cmd.Some? ==>
          r.settings.cmd == st.cmd && r.settings.firstArgIndex == st.firstArgIndex)
      && (r.Scanned? && st.cmd.None? && r.settings.cmd.None? ==>
          r.settings.firstArgIndex == st.firstArgIndex)
      && (r.Scanned? && st.cmd.None? && r.settings.cmd.Some? ==>
          r.settings.firstArgIndex.Some? && i < r.settings.firstArgIndex.value <= |args|
          && r.settings.cmd == Some(args[r.settings.firstArgIndex.value - 1]))
    decreases |args| - i
  {
    if i >= |args| {
    } else if args[i] == SERVER_OPTION {
      if i < |args| - 1 {
        ScanFromShape(args, i + 2, st.(server := args[i + 1], nulled := st.nulled + {i, i + 1}));
      }
    } else if args[i] == PORT_OPTION {
      if i < |args| - 1 {
        ScanFromShape(args, i + 2, st.(port := args[i + 1], nulled := st.nulled + {i, i + 1}));
      }
    } else if st.cmd.None? {
      ScanFromShape(args, i + 1, st.(cmd := Some(args[i]), firstArgIndex := Some(i + 1)));
    } else {
      ScanFromShape(args, i + 1, st);
    }
  }

  /** The short name is "ng" exactly when the path is "ng" or ends in "/ng". */
  lemma ShortNameIsNg(s: CString)
    ensures ShortClientName(s) == NgDefines.NAILGUN_CLIENT_NAME <==> (s == NgDefines.NAILGUN_CLIENT_NAME
      || (|s| >= 3 && s[|s| - 3..] == [FILE_SEPARATOR] + NgDefines.NAILGUN_CLIENT_NAME))
  {
    var n := |s|;
    if n >= 3 && s[n - 3..] == [FILE_SEPARATOR] + NgDefines.NAILGUN_CLIENT_NAME {
      assert s[n - 3] == FILE_SEPARATOR && s[n - 2] != FILE_SEPARATOR && s[n - 1] != FILE_SEPARATOR;
    }
  }

  /** The command named by argv[0], unless the client was started as "ng" (ng.c:310-313). */
  function LaunchCommand(argv0: CString): Option<CString>
  {
    var cmd := ShortClientName(argv0);
    if IsNailgunClientName(cmd) then None else Some(cmd)
  }

  /**
   * There is no command from argv[0] exactly when argv[0] is "ng" or ends
   * in "/ng"; otherwise it is the last path component of argv[0].
   */
  lemma LaunchCommandCases(argv0: CString)
    ensures var c := LaunchCommand(argv0);
      && (c.None? <==> (argv0 == NgDefines.NAILGUN_CLIENT_NAME
          || (|argv0| >= 3 && argv0[|argv0| - 3..] == [FILE_SEPARATOR] + NgDefines.NAILGUN_CLIENT_NAME)))
      && (c.Some? ==> FILE_SEPARATOR !in c.value && |c.value| <= |argv0| && argv0[|argv0| - |c.value|..] == c.value)
  {
    ShortNameIsNg(argv0);
  }

  /**
   * ng.c:292-335 as written: `firstArgIndex` starts unassigned, and only a
   * command taken from the argument list assigns it.
   */
  function ScanArgsAsWritten(args: seq<CString>, server: CString, port: CString): ScanResult
    requires |args| >= 1
  {
    ScanFrom(args, 1, Settings(server, port, LaunchCommand(args[0]), None, {}))
  }

  /** The scan with `firstArgIndex` starting at 1, so a command from argv[0] forwards argv[1..]. */
  function ScanArgs(args: seq<CString>, server: CString, port: CString): ScanResult
    requires |args| >= 1
  {
    ScanFrom(args, 1, Settings(server, port, LaunchCommand(args[0]), Some(1), {}))
  }

  /**
   * The scan fails only on a trailing option; it always forwards from a
   * slot of `argv`, and a command named by argv[0] forwards everything
   * after argv[0].
   */
  lemma ScanArgsShape(args: seq<CString>, server: CString, port: CString)
    requires |args| >= 1
    ensures var r := ScanArgs(args, server, port);
      && (r.Usage? ==> IsOption(args[|args| - 1]))
      && (r.Scanned? ==> r.settings.firstArgIndex.Some? && 1 <= r.settings.firstArgIndex.value <= |args|)
      && (r.Scanned? && LaunchCommand(args[0]).Some? ==>
          r.settings.cmd == LaunchCommand(args[0]) && r.settings.firstArgIndex == Some(1))
  {
    ScanFromShape(args, 1, Settings(server, port, LaunchCommand(args[0]), Some(1), {}));
  }

  /**
   * The scan as written fails only on a trailing option, and leaves
   * `firstArgIndex` unassigned exactly when argv[0] names the command or
   * no command is found at all.
   */
  lemma ScanAsWrittenShape(args: seq<CString>, server: CString, port: CString)
    requires |args| >= 1
    ensures var r := ScanArgsAsWritten(args, server, port);
      && (r.Usage? ==> IsOption(args[|args| - 1]))
      && (r.Scanned? ==>
          (r.settings.firstArgIndex.None? <==> LaunchCommand(args[0]).Some? || r.settings.cmd.None?))
  {
    ScanFromShape(args, 1, Settings(server, port, LaunchCommand(args[0]), None, {}));
  }

  /** `argv` after the scan: nulled slots are `None`. */
  function View(args: seq<CString>, nulled: set<nat>): (v: seq<Option<CString>>)
    ensures |v| == |args|
    ensures forall j :: 0 <= j < |args| ==> v[j] == if j in nulled then None else Some(args[j])
  {
    seq(|args|, j requires 0 <= j < |args| => if j in nulled then None else Some(args[j]))
  }

  /** The non-null entries, in order: what `if (argv[i] != NULL) sendText(...)` sends. */
  function Present(v: seq<Option<CString>>): seq<CString>
    decreases |v|
  {
    if v == [] then []
    else Present(v[..|v| - 1]) + (if v[|v| - 1].Some? then [v[|v| - 1].value] else [])
  }

  lemma {:induction false} PresentAppend(a: seq<Option<CString>>, b: seq<Option<CString>>)
    ensures Present(a + b) == Present(a) + Present(b)
    decreases |b|
  {
    if b != [] {
      var ab := a + b;
      assert ab[..|ab| - 1] == a + b[..|b| - 1];
      PresentAppend(a, b[..|b| - 1]);
    } else {
      assert a + b == a;
    }
  }

  /** The arguments the client forwards, once the scan has succeeded. */
  function Forwarded(args: seq<CString>, st: Settings): seq<CString>
    requires st.firstArgIndex.Some? && st.firstArgIndex.value <= |args|
  {
    Present(View(args, st.nulled)[st.firstArgIndex.value..])
  }

  /**
   * The command line as a user reads the usage line, independently of the
   * scan: an option takes the next word as its value wherever it appears,
   * the first other word is the command unless argv[0] named it, and every
   * later word is forwarded in order.
   */
  datatype Parsed = BadUsage | Parsed(server: CString, port: CString, cmd: Option<CString>, forward: seq<CString>)

  function Parse(words: seq<CString>, server: CString, port: CString, cmd: Option<CString>): (p: Parsed)
    ensures p.BadUsage? ==> words != [] && IsOption(words[|words| - 1])
    ensures p.Parsed? ==> |p.forward| <= |words| && forall w :: w in p.forward ==> w in words
    ensures p.Parsed? && cmd.Some? ==> p.cmd == cmd
    ensures p.Parsed? && p.cmd.Some? && cmd.None? ==> p.cmd.value in words
    decreases |words|
  {
    if words == [] then Parsed(server, port, cmd, [])
    else if words[0] == SERVER_OPTION then
      if |words| == 1 then BadUsage else Parse(words[2..], words[1], port, cmd)
    else if words[0] == PORT_OPTION then
      if |words| == 1 then BadUsage else Parse(words[2..], server, words[1], cmd)
    else if cmd.None? then Parse(words[1..], server, port, Some(words[0]))
    else
      match Parse(words[1..], server, port, cmd)
      case BadUsage => BadUsage
      case Parsed(s, p, c, f) => Parsed(s, p, c, [words[0]] + f)
  }

  /** Nulling slots at or after `i` leaves the view of `[f, i)` as it was. */
  lemma ViewBelow(args: seq<CString>, a: set<nat>, b: set<nat>, f: nat, i: nat)
    requires f <= i <= |args|
    requires a <= b && forall j :: j in b && j !in a ==> j >= i
    ensures View(args, a)[f..i] == View(args, b)[f..i]
  { }

  /** The arguments kept in `[firstArgIndex, i)` so far. */
  function KeptBefore(args: seq<CString>, i: nat, st: Settings): seq<CString>
    requires st.firstArgIndex.Some? && st.firstArgIndex.value <= i <= |args|
  {
    Present(View(args, st.nulled)[st.firstArgIndex.value..i])
  }

  /**
   * The scan from `i` agrees with the reference reading of the words from
   * `i` on: same usage error, same server, port and command, and the
   * forwarded words are those already kept before `i` followed by the
   * reference's.
   */
  predicate AgreesFrom(args: seq<CString>, i: nat, st: Settings)
    requires st.firstArgIndex.Some? && st.firstArgIndex.value <= i <= |args|
  {
    var r := ScanFrom(args, i, st);
    var p := Parse(args[i..], st.server, st.port, st.cmd);
    (r.Usage? <==> p.BadUsage?)
    && (r.Scanned? ==>
      r.settings.firstArgIndex.Some? && r.settings.firstArgIndex.value <= |args|
      && r.settings.server == p.server && r.settings.port == p.port && r.settings.cmd == p.cmd
      && Forwarded(args, r.settings) == KeptBefore(args, i, st) + p.forward)
  }

  /** The invariant of the scan at `i`. */
  predicate ScanState(args: seq<CString>, i: nat, st: Settings)
  {
    1 <= i <= |args|
    && st.firstArgIndex.Some? && 1 <= st.firstArgIndex.value <= i
    && (forall j :: j in st.nulled ==> j < i)
    && (st.cmd.None? ==> KeptBefore(args, i, st) == [])
  }

  /** An option and its value: both slots are nulled and nothing is kept. */
  lemma OptionStep(args: seq<CString>, i: nat, st: Settings, st': Settings)
    requires ScanState(args, i, st) && i < |args| - 1
    requires args[i] == SERVER_OPTION || args[i] == PORT_OPTION
    requires st' == if args[i] == SERVER_OPTION then st.(server := args[i + 1], nulled := st.nulled + {i, i + 1})
                    else st.(port := args[i + 1], nulled := st.nulled + {i, i + 1})
    ensures ScanState(args, i + 2, st')
    ensures AgreesFrom(args, i + 2, st') ==> AgreesFrom(args, i, st)
  {
    var f := st.firstArgIndex.value;
    var words := args[i..];
    assert words[0] == args[i] && words[1] == args[i + 1] && words[2..] == args[i + 2..];
    var v' := View(args, st'.nulled);
    ViewBelow(args, st.nulled, st'.nulled, f, i);
    assert v'[i..i + 2] == [v'[i], v'[i + 1]];
    assert v'[f..i + 2] == v'[f..i] + v'[i..i + 2];
    PresentAppend(v'[f..i], [None, None]);
    assert Present([None, None]) == [] by {
      var two: seq<Option<CString>> := [None, None];
      assert two[..1] == [None];
      assert two[..1][..0] == [];
    }
    assert KeptBefore(args, i + 2, st') == KeptBefore(args, i, st);
  }

  /** The first plain word becomes the command, and forwarding starts after it. */
  lemma CommandStep(args: seq<CString>, i: nat, st: Settings)
    requires ScanState(args, i, st) && i < |args|
    requires args[i] != SERVER_OPTION && args[i] != PORT_OPTION && st.cmd.None?
    ensures ScanState(args, i + 1, st.(cmd := Some(args[i]), firstArgIndex := Some(i + 1)))
    ensures AgreesFrom(args, i + 1, st.(cmd := Some(args[i]), firstArgIndex := Some(i + 1))) ==> AgreesFrom(args, i, st)
  {
    var words := args[i..];
    assert words[0] == args[i] && words[1..] == args[i + 1..];
    var st' := st.(cmd := Some(args[i]), firstArgIndex := Some(i + 1));
    assert View(args, st'.nulled)[i + 1..i + 1] == [];
  }

  /** A slot the scan has not nulled adds its word to those kept. */
  lemma KeptGrows(args: seq<CString>, i: nat, st: Settings)
    requires ScanState(args, i, st) && i < |args|
    ensures KeptBefore(args, i + 1, st) == KeptBefore(args, i, st) + [args[i]]
  {
    var f := st.firstArgIndex.value;
    var v := View(args, st.nulled);
    assert v[f..i + 1] == v[f..i] + [Some(args[i])];
    PresentAppend(v[f..i], [Some(args[i])]);
    var one: seq<Option<CString>> := [Some(args[i])];
    assert one[..0] == [];
    assert Present(one) == [args[i]];
  }

  /** A plain word after the command is kept. */
  lemma ForwardStep(args: seq<CString>, i: nat, st: Settings)
    requires ScanState(args, i, st) && i < |args|
    requires args[i] != SERVER_OPTION && args[i] != PORT_OPTION && st.cmd.Some?
    ensures ScanState(args, i + 1, st)
    ensures AgreesFrom(args, i + 1, st) ==> AgreesFrom(args, i, st)
  {
    KeptGrows(args, i, st);
    var words := args[i..];
    assert words[0] == args[i] && words[1..] == args[i + 1..];
    var p := Parse(args[i + 1..], st.server, st.port, st.cmd);
    if p.Parsed? {
      Sequences.ConcatAssoc(KeptBefore(args, i, st), [args[i]], p.forward);
    }
  }

  lemma {:induction false} ScanFromMatchesParse(args: seq<CString>, i: nat, st: Settings)
    requires ScanState(args, i, st)
    ensures AgreesFrom(args, i, st)
    decreases |args| - i
  {
    var f := st.firstArgIndex.value;
    if i == |args| {
      assert args[i..] == [];
      assert View(args, st.nulled)[f..] == View(args, st.nulled)[f..i];
    } else if args[i] == SERVER_OPTION || args[i] == PORT_OPTION {
      if i < |args| - 1 {
        var st' := if args[i] == SERVER_OPTION then st.(server := args[i + 1], nulled := st.nulled + {i, i + 1})
                   else st.(port := args[i + 1], nulled := st.nulled + {i, i + 1});
        OptionStep(args, i, st, st');
        ScanFromMatchesParse(args, i + 2, st');
      } else {
        assert args[i..] == [args[i]];
      }
    } else if st.cmd.None? {
      CommandStep(args, i, st);
      ScanFromMatchesParse(args, i + 1, st.(cmd := Some(args[i]), firstArgIndex := Some(i + 1)));
    } else {
      ForwardStep(args, i, st);
      ScanFromMatchesParse(args, i + 1, st);
    }
  }

  /**
   * The option scan, with `firstArgIndex` starting at 1, agrees with the
   * reference reading of argv[1..]: options and their values are never
   * forwarded, a trailing option without a value is a usage error, and the
   * forwarded arguments are the other words after the command, in order.
   */
  lemma ScanMatchesParse(args: seq<CString>, server: CString, port: CString)
    requires |args| >= 1
    ensures var r := ScanArgs(args, server, port);
      var p := Parse(args[1..], server, port, LaunchCommand(args[0]));
      (r.Usage? <==> p.BadUsage?)
      && (r.Scanned? ==>
        r.settings.firstArgIndex.Some? && r.settings.firstArgIndex.value <= |args|
        && r.settings.server == p.server && r.settings.port == p.port && r.settings.cmd == p.cmd
        && Forwarded(args, r.settings) == p.forward)
  {
    var st := Settings(server, port, LaunchCommand(args[0]), Some(1), {});
    assert View(args, {})[1..1] == [];
    assert KeptBefore(args, 1, st) == [];
    ScanFromMatchesParse(args, 1, st);
  }

  /** The words of the reference reading that are forwarded never include an option name. */
  lemma {:induction false} ParseNeverForwardsOptions(words: seq<CString>, server: CString, port: CString, cmd: Option<CString>)
    requires Parse(words, server, port, cmd).Parsed?
    ensures SERVER_OPTION !in Parse(words, server, port, cmd).forward
    ensures PORT_OPTION !in Parse(words, server, port, cmd).forward
    decreases |words|
  {
    if words != [] {
      if words[0] == SERVER_OPTION {
        ParseNeverForwardsOptions(words[2..], words[1], port, cmd);
      } else if words[0] == PORT_OPTION {
        ParseNeverForwardsOptions(words[2..], server, words[1], cmd);
      } else if cmd.None? {
        ParseNeverForwardsOptions(words[1..], server, port, Some(words[0]));
      } else {
        ParseNeverForwardsOptions(words[1..], server, port, cmd);
      }
    }
  }

  /**
   * Started under another name (a symlink to the client) and given one
   * argument, the scan as written never assigns `firstArgIndex`, although
   * that argument is meant to be forwarded; the loop at ng.c:368 then
   * starts from an indeterminate index.
   */
  lemma SymlinkModeLeavesFirstArgIndexUnset()
    ensures var args: seq<CString> := [[0x66, 0x6F, 0x6F], [0x78]]; // "foo", "x"
      var r := ScanArgsAsWritten(args, [], []);
      r.Scanned? && r.settings.cmd == Some([0x66, 0x6F, 0x6F]) && r.settings.firstArgIndex.None?
      && Parse(args[1..], [], [], LaunchCommand(args[0])) == Parsed([], [], Some([0x66, 0x6F, 0x6F]), [[0x78]])
  {
    var foo: CString := [0x66, 0x6F, 0x6F];
    var x: CString := [0x78];
    var args: seq<CString> := [foo, x];
    assert LastIndexOf(foo, FILE_SEPARATOR) == -1;
    assert LaunchCommand(foo) == Some(foo);
    assert x != SERVER_OPTION && x != PORT_OPTION;
    var st := Settings([], [], Some(foo), None, {});
    assert ScanFrom(args, 2, st) == Scanned(st);
    assert ScanFrom(args, 1, st) == ScanFrom(args, 2, st);
    assert args[1..] == [x] && [x][1..] == [];
    assert Parse([], [], [], Some(foo)) == Parsed([], [], Some(foo), []);
  }

  /** With `firstArgIndex` starting at 1, the same command line forwards its argument. */
  lemma SymlinkModeForwardsArgument()
    ensures var args: seq<CString> := [[0x66, 0x6F, 0x6F], [0x78]];
      var r := ScanArgs(args, [], []);
      r.Scanned? && r.settings.firstArgIndex == Some(1) && Forwarded(args, r.settings) == [[0x78]]
  {
    var foo: CString := [0x66, 0x6F, 0x6F];
    var x: CString := [0x78];
    var args: seq<CString> := [foo, x];
    assert LastIndexOf(foo, FILE_SEPARATOR) == -1;
    assert LaunchCommand(foo) == Some(foo);
    assert x != SERVER_OPTION && x != PORT_OPTION;
    var st := Settings([], [], Some(foo), Some(1), {});
    assert ScanFrom(args, 1, st) == Scanned(st);
    var v := View(args, {});
    assert v[1..] == [Some(x)];
    var one: seq<Option<CString>> := [Some(x)];
    assert one[..0] == [];
  }

  /**
   * Where `firstArgIndex` starts does not change what the scan reads: the
   * same usage error, the same settings apart from `firstArgIndex`, and,
   * when the command is taken from the list, the very same result.
   */
  lemma {:induction false} ScanFromIgnoresIndex(args: seq<CString>, i: nat, st: Settings, f: Option<nat>)
    ensures var r := ScanFrom(args, i, st);
      var r' := ScanFrom(args, i, st.(firstArgIndex := f));
      (r.Usage? <==> r'.Usage?)
      && (r.Scanned? ==> r'.settings == r.settings.(firstArgIndex := r'.settings.firstArgIndex))
      && (r.Scanned? && st.cmd.None? && r.settings.cmd.Some? ==> r' == r)
    decreases |args| - i
  {
    var st' := st.(firstArgIndex := f);
    if i >= |args| {
    } else if args[i] == SERVER_OPTION {
      if i < |args| - 1 {
        ScanFromIgnoresIndex(args, i + 2, st.(server := args[i + 1], nulled := st.nulled + {i, i + 1}), f);
        assert st'.(server := args[i + 1], nulled := st.nulled + {i, i + 1})
          == st.(server := args[i + 1], nulled := st.nulled + {i, i + 1}).(firstArgIndex := f);
      }
    } else if args[i] == PORT_OPTION {
      if i < |args| - 1 {
        ScanFromIgnoresIndex(args, i + 2, st.(port := args[i + 1], nulled := st.nulled + {i, i + 1}), f);
        assert st'.(port := args[i + 1], nulled := st.nulled + {i, i + 1})
          == st.(port := args[i + 1], nulled := st.nulled + {i, i + 1}).(firstArgIndex := f);
      }
    } else if st.cmd.None? {
      assert st'.(cmd := Some(args[i]), firstArgIndex := Some(i + 1))
          == st.(cmd := Some(args[i]), firstArgIndex := Some(i + 1));
    } else {
      ScanFromIgnoresIndex(args, i + 1, st, f);
    }
  }

  /**
   * Started as "ng" with the command among the arguments, the scan as
   * written and the scan starting `firstArgIndex` at 1 give the same
   * result; they never disagree on a usage error.
   */
  lemma ScanAsWrittenAgreesWhenLaunchedAsNg(args: seq<CString>, server: CString, port: CString)
    requires |args| >= 1 && LaunchCommand(args[0]).None?
    ensures ScanArgsAsWritten(args, server, port).Usage? <==> ScanArgs(args, server, port).Usage?
    ensures ScanArgs(args, server, port).Scanned? && ScanArgs(args, server, port).settings.cmd.Some? ==>
      ScanArgsAsWritten(args, server, port) == ScanArgs(args, server, port)
  {
    ScanFromIgnoresIndex(args, 1, Settings(server, port, LaunchCommand(args[0]), Some(1), {}), None);
  }

  /** `argv[i] = argv[i + 1] = NULL` (ng.c:323 and ng.c:328). */
  method NullOption(argv: array<Option<CString>>, ghost args: seq<CString>, ghost nulled: set<nat>, i: nat)
    requires i + 1 < argv.Length && argv[..] == View(args, nulled)
    modifies argv
    ensures argv[..] == View(args, nulled + {i, i + 1})
  {
    argv[i], argv[i + 1] := None, None;
  }

  /**
   * One turn of the loop of ng.c:320-334, at slot `i`: an option takes the
   * next slot as its value and both are nulled, a trailing option is a
   * usage error, and the first other word becomes the command.
   */
  method ScanSlot(argv: array<Option<CString>>, ghost args: seq<CString>, i: nat, st: Settings)
    returns (usage: bool, next: nat, st': Settings)
    requires 1 <= i < argv.Length && argv[..] == View(args, st.nulled)
    requires forall j :: j in st.nulled ==> j < i
    modifies argv
    ensures usage ==> ScanFrom(args, i, st) == Usage
    ensures !usage ==> i < next <= argv.Length && ScanFrom(args, i, st) == ScanFrom(args, next, st')
    ensures !usage ==> argv[..] == View(args, st'.nulled) && forall j :: j in st'.nulled ==> j < next
    ensures !usage && st.firstArgIndex.Some? ==> st'.firstArgIndex.Some?
  {
    assert argv[i] == Some(args[i]);
    var arg := argv[i].value;
    usage, next, st' := false, i + 1, st;
    if arg == SERVER_OPTION || arg == PORT_OPTION {
      if i == argv.Length - 1 {
        return true, i, st;
      }
      assert argv[i + 1] == Some(args[i + 1]);
      var value := argv[i + 1].value;
      NullOption(argv, args, st.nulled, i);
      st' := if arg == SERVER_OPTION then st.(server := value, nulled := st.nulled + {i, i + 1})
             else st.(port := value, nulled := st.nulled + {i, i + 1});
      next := i + 2;
    } else if st.cmd.None? {
      st' := st.(cmd := Some(arg), firstArgIndex := Some(i + 1));
    }
  }

  /**
   * The scan of ng.c:320-335, nulling the option slots of `argv` in
   * place; `firstArgIndex` starts at 1.
   */
  method ScanArgv(argv: array<Option<CString>>, ghost args: seq<CString>, server0: CString, port0: CString)
    returns (r: ScanResult)
    requires argv.Length >= 1 && argv[..] == View(args, {})
    modifies argv
    ensures r == ScanArgs(args, server0, port0)
    ensures r.Scanned? ==> argv[..] == View(args, r.settings.nulled)
  {
    var st := Settings(server0, port0, LaunchCommand(argv[0].value), Some(1), {});
    var i := 1;
    while i < argv.Length
      invariant 1 <= i <= argv.Length
      invariant argv[..] == View(args, st.nulled)
      invariant forall j :: j in st.nulled ==> j < i
      invariant st.firstArgIndex.Some?
      invariant ScanArgs(args, server0, port0) == ScanFrom(args, i, st)
      decreases argv.Length - i
    {
      var usage;
      usage, i, st := ScanSlot(argv, args, i, st);
      if usage {
        return Usage;
      }
    }
    r := Scanned(st);
  }
}
