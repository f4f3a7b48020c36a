/** The server's protocol constants (NGConstants.java). */
module NGConstants {
  const DEFAULT_PORT: int := 2113

  /** Exit code sent when the server caught an exception. */
  const EXIT_EXCEPTION: int := 899

  /** Exit code for an unknown command; no code of the session writes it. */
  const EXIT_NOSUCHCOMMAND: int := 898

  const CHUNKTYPE_ARGUMENT: char := 'A'
  const CHUNKTYPE_ENVIRONMENT: char := 'E'
  const CHUNKTYPE_COMMAND: char := 'C'
  const CHUNKTYPE_WORKINGDIRECTORY: char := 'D'
  const CHUNKTYPE_STDIN: char := '0'
  const CHUNKTYPE_STDIN_EOF: char := '.'
  const CHUNKTYPE_STDOUT: char := '1'
  const CHUNKTYPE_STDERR: char := '2'
  const CHUNKTYPE_EXIT: char := 'X'
}

/** The client's protocol constants (the #defines at the top of ng.c). */
module NgDefines {
  import opened Bytes

  const NAILGUN_CLIENT_NAME: seq<byte> := [0x6E, 0x67]         // "ng"
  const NAILGUN_PORT_DEFAULT: seq<byte> := [0x32, 0x31, 0x31, 0x33] // "2113"
  const CHUNK_HEADER_LEN: nat := 5
  const BUFSIZE: nat := 2048

  const NAILGUN_SOCKET_FAILED: int := 999
  const NAILGUN_CONNECT_FAILED: int := 998
  const NAILGUN_UNEXPECTED_CHUNKTYPE: int := 997
  const NAILGUN_EXCEPTION_ON_SERVER: int := 996
  const NAILGUN_CONNECTION_BROKEN: int := 995

  const CHUNKTYPE_STDIN: byte := 0x30      // '0'
  const CHUNKTYPE_STDOUT: byte := 0x31     // '1'
  const CHUNKTYPE_STDERR: byte := 0x32     // '2'
  const CHUNKTYPE_STDIN_EOF: byte := 0x2E  // '.'
  const CHUNKTYPE_ARG: byte := 0x41        // 'A'
  const CHUNKTYPE_ENV: byte := 0x45        // 'E'
  const CHUNKTYPE_DIR: byte := 0x44        // 'D'
  const CHUNKTYPE_CMD: byte := 0x43        // 'C'
  const CHUNKTYPE_EXIT: byte := 0x58       // 'X'
}

/**
 * The nine chunk roles, and the tag each side of the protocol gives them.
 */
module ChunkTypes {
  import opened Wrappers
  import opened Bytes
  import NGConstants
  import NgDefines
  import Text

  datatype ChunkType =
    | Argument | Environment | Command | WorkingDirectory
    | Stdin | StdinEof | Stdout | Stderr | Exit

  /** The server's tag for a role. */
  function ServerTag(t: ChunkType): char
  {
    match t
    case Argument => NGConstants.CHUNKTYPE_ARGUMENT
    case Environment => NGConstants.CHUNKTYPE_ENVIRONMENT
    case Command => NGConstants.CHUNKTYPE_COMMAND
    case WorkingDirectory => NGConstants.CHUNKTYPE_WORKINGDIRECTORY
    case Stdin => NGConstants.CHUNKTYPE_STDIN
    case StdinEof => NGConstants.CHUNKTYPE_STDIN_EOF
    case Stdout => NGConstants.CHUNKTYPE_STDOUT
    case Stderr => NGConstants.CHUNKTYPE_STDERR
    case Exit => NGConstants.CHUNKTYPE_EXIT
  }

  /** The client's tag for a role. */
  function ClientTag(t: ChunkType): byte
  {
    match t
    case Argument => NgDefines.CHUNKTYPE_ARG
    case Environment => NgDefines.CHUNKTYPE_ENV
    case Command => NgDefines.CHUNKTYPE_CMD
    case WorkingDirectory => NgDefines.CHUNKTYPE_DIR
    case Stdin => NgDefines.CHUNKTYPE_STDIN
    case StdinEof => NgDefines.CHUNKTYPE_STDIN_EOF
    case Stdout => NgDefines.CHUNKTYPE_STDOUT
    case Stderr => NgDefines.CHUNKTYPE_STDERR
    case Exit => NgDefines.CHUNKTYPE_EXIT
  }

  /** The role a wire byte stands for, if any. */
  function RoleOf(b: byte): (r: Option<ChunkType>)
    ensures r.Some? ==> ClientTag(r.value) == b
    ensures r.None? ==> forall t: ChunkType :: ClientTag(t) != b
  {
    if b == NgDefines.CHUNKTYPE_ARG then Some(Argument)
    else if b == NgDefines.CHUNKTYPE_ENV then Some(Environment)
    else if b == NgDefines.CHUNKTYPE_CMD then Some(Command)
    else if b == NgDefines.CHUNKTYPE_DIR then Some(WorkingDirectory)
    else if b == NgDefines.CHUNKTYPE_STDIN then Some(Stdin)
    else if b == NgDefines.CHUNKTYPE_STDIN_EOF then Some(StdinEof)
    else if b == NgDefines.CHUNKTYPE_STDOUT then Some(Stdout)
    else if b == NgDefines.CHUNKTYPE_STDERR then Some(Stderr)
    else if b == NgDefines.CHUNKTYPE_EXIT then Some(Exit)
    else None
  }

  /** The nine server tags are pairwise distinct. */
  lemma ServerTagsDistinct(a: ChunkType, b: ChunkType)
    ensures ServerTag(a) == ServerTag(b) ==> a == b
  { }

  /** Both sides give every role the same tag. */
  lemma TagsAgree(t: ChunkType)
    ensures ClientTag(t) == ServerTag(t) as int
    ensures RoleOf(ClientTag(t)) == Some(t)
  { }

  /**
   * The server's sentinel exit codes differ from each other and from every
   * code the client produces itself.
   */
  lemma SentinelsDistinct()
    ensures NGConstants.EXIT_EXCEPTION != NGConstants.EXIT_NOSUCHCOMMAND
    ensures NGConstants.EXIT_EXCEPTION !in ClientCodes()
    ensures NGConstants.EXIT_NOSUCHCOMMAND !in ClientCodes()
  { }

  function ClientCodes(): set<int>
  {
    {NgDefines.NAILGUN_SOCKET_FAILED, NgDefines.NAILGUN_CONNECT_FAILED,
     NgDefines.NAILGUN_UNEXPECTED_CHUNKTYPE, NgDefines.NAILGUN_EXCEPTION_ON_SERVER,
     NgDefines.NAILGUN_CONNECTION_BROKEN}
  }

  /** The client's default port text, read with `atoi` (ng.c:344), is the server's default port. */
  lemma DefaultPortsAgree()
    ensures Text.Atoi(NgDefines.NAILGUN_PORT_DEFAULT) == NGConstants.DEFAULT_PORT
  {
    var p := NgDefines.NAILGUN_PORT_DEFAULT;
    assert Text.SkipSpace(p) == p;
    Text.DigitRunStopsAt(p, []);
    assert p + [] == p;
    assert p[..4] == p;
    assert p[..3] == [0x32, 0x31, 0x31];
    assert p[..3][..2] == [0x32, 0x31];
    assert p[..3][..2][..1] == [0x32];
    assert p[..3][..2][..1][..0] == [];
    assert Text.DigitsValue([0x32]) == 2;
    assert Text.DigitsValue([0x32, 0x31]) == 21;
    assert Text.DigitsValue([0x32, 0x31, 0x31]) == 211;
    assert Text.DigitsValue(p) == 2113;
  }
}
