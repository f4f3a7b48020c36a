# Nailgun core, modelled in Dafny

Nailgun runs Java programs ("nails") inside a long-lived server JVM. A small
C client, `ng`, forwards each command line to the server over one socket
connection. Both directions use one framing: a chunk is a 4-byte big-endian
length, a 1-byte type tag, then the payload.

The client opens with `A` (argument), `E` (environment), `D` (working
directory) and `C` (command) chunks, and later sends `0` (stdin) and `.`
(end of stdin) chunks. The server answers with `1` (stdout), `2` (stderr)
and `X` (exit code) chunks.

This project models both ends of that conversation and the pieces of the
server that decide what a session does:

- **The C client** (`ng.c`), as the class `Client.NailgunClient`.
  - Its global `header` and `buf` buffers are arrays.
  - The socket is two byte sequences: bytes `sent`, and bytes still `incoming`.
  - The terminal's stdout and stderr are byte sequences.
  - `exit(code)` is an `Outcome`.
  - The `sendall`/`recvToFD` loops are `while` loops with invariants.
  - Its command-line handling is in `ClientArgs`. The argv scan nulls slots of an `array` in place, in `ScanArgv`. It is proved against a pure scan and against an independent reading of the usage line (`Parse`).
- **The chunk codec**, client and server side (`Codec`, `Bytes`).
  - The client's unsigned header decode.
  - The C code as written, with a signed `char` (see Findings).
  - The server's `readFully` of a chunk.
- **`NGOutputStream`** (`Streams`): each `write` appends exactly one chunk to the socket.
- **The session header phase** (`SessionHeader`), as a fold over the incoming chunks. `ReadHeaderPhase` is the `while (command == null)` loop, proved equal to the fold.
- **`NGSession.run`** (`Session`).
  - Dispatch: alias, class by name, or the default nail class; then `nailMain` preferred to `main`.
  - The nail's writes.
  - The exit code sent on the exit stream.
  - The `nailStarted`/`nailFinished` hooks.
  - Closing the socket and resetting the per-thread stdio.
  - The worker loop over `getSocket`.
- **`NGSessionRunner`** (`Runner`): a FIFO queue with a `done` flag, with a pure state machine beside the class.
- **`NGSecurityManager`** (`Security`): the exit trap over a per-thread sink slot, and the delegating permission checks.
- **`NGConstants` and the client's `#define`s** (`NGConstants`, `NgDefines`, `ChunkTypes`).

`Protocol` connects the two ends:

- The server's header phase reads back exactly the request the client sends.
- With the header bytes read as unsigned values, the client's receive loop turns everything one session writes into the nail's stdout and stderr, followed by `exit` with the session's exit code.

Reflection is abstracted:

- A nail class is a name.
- Two flags say whether `nailMain(NGContext)` and `main(String[])` exist.
- A behaviour function gives the writes the chosen entry point makes and how it ends: it returns, throws, or calls `System.exit`.

## Model

| member | source | states |
|---|---|---|
| `Bytes.BigEndianRoundTrip` | nailgun/src/c/ng.c:106-112 | The four bytes `sendHeader` writes for a size decode back to that size. |
| `Bytes.BigEndianOfValue` | nailgun/src/c/ng.c:195-198 | Any four header bytes are the big-endian encoding of the value they decode to. |
| `Bytes.ToInt32` | nailgun/src/java/prod/com/martiansoftware/nailgun/NGSession.java:93-96 | The `(int)` cast of a 32-bit length: negative exactly when the length is 2^31 or more, and equal to it modulo 2^32. |
| `Bytes.Int32Bits` | nailgun/src/java/prod/com/martiansoftware/nailgun/NGOutputStream.java:71 | The 32 bits `writeInt(len)` sends read back, as a signed int, to `len`. |
| `Codec.ClientReadsHeader` | nailgun/src/c/ng.c:195-200 | With unsigned header bytes, the client decodes any header `sendHeader`/`writeInt` produced to its size and its tag, whatever follows it. |
| `Codec.ClientChunkLengthSignedChar` | nailgun/src/c/ng.c:195-198 | The decode as written, with signed `char` promoted to int and summed into an `unsigned long`: always below 2^64. |
| `Codec.SignedCharMisreadsLength` | nailgun/src/c/ng.c:195-198 | A 128-byte stdout chunk's header decodes as 2^64 - 128 under signed `char`, and as 128 under the unsigned reading. |
| `Codec.SignedCharAgreesBelow0x80` | nailgun/src/c/ng.c:195-198 | Both readings agree whenever every length byte is below 0x80. |
| `Codec.ClientChunkLength` | nailgun/src/c/ng.c:195-198 | Read as unsigned bytes, the length is the size whose big-endian encoding is exactly the four header bytes. |
| `Codec.ChunkLayout` | nailgun/src/c/ng.c:106-113 | A chunk is its length in four big-endian bytes, its tag, then the payload with no terminator. |
| `Codec.ServerReadChunk` | nailgun/src/java/prod/com/martiansoftware/nailgun/NGSession.java:92-97 | A successful read consumes the 5-byte header and its payload, so at least 5 bytes. |
| `Codec.ServerReadsChunk` | nailgun/src/java/prod/com/martiansoftware/nailgun/NGSession.java:92-97 | The server's `readFully` of header then payload returns exactly the tag and payload of any chunk whose length fits an `int`, and leaves the rest unread. |
| `Codec.ServerRejectsHugeLength` | nailgun/src/java/prod/com/martiansoftware/nailgun/NGSession.java:93-96 | A length of 2^31 or more makes `new byte[(int) n]` throw `NegativeArraySizeException`. |
| `Codec.ServerReadOfTruncatedChunk` | nailgun/src/java/prod/com/martiansoftware/nailgun/NGSession.java:92-97 | Any proper prefix of a chunk ends the read with end of stream. |
| `Codec.EncodeAllAppend` | nailgun/src/java/prod/com/martiansoftware/nailgun/NGOutputStream.java:69-76 | The bytes of two runs of chunks, one after the other, are the concatenation of their bytes. |
| `Codec.TagFrames` | nailgun/src/c/ng.c:368-375 | One chunk per payload, in order, all with the same tag. |
| `ChunkTypes.RoleOf` | nailgun/src/c/ng.c:56-64 | A byte has a chunk role exactly when some role's client tag is that byte, and the role found has that tag. |
| `ChunkTypes.ServerTagsDistinct` | nailgun/src/java/prod/com/martiansoftware/nailgun/NGConstants.java:46-86 | The nine server chunk tags are pairwise distinct. |
| `ChunkTypes.TagsAgree` | nailgun/src/java/prod/com/martiansoftware/nailgun/NGConstants.java:46-86 | For every role, the server's tag equals the client's tag at ng.c:56-64, and the client's tag maps back to that role. |
| `ChunkTypes.SentinelsDistinct` | nailgun/src/java/prod/com/martiansoftware/nailgun/NGConstants.java:36-41 | EXIT_EXCEPTION and EXIT_NOSUCHCOMMAND differ from each other and from the client's codes 995-999 (ng.c:50-54). |
| `ChunkTypes.DefaultPortsAgree` | nailgun/src/java/prod/com/martiansoftware/nailgun/NGConstants.java:31 | The client's default port text "2113" (ng.c:44), read by `atoi`, is the server's DEFAULT_PORT. |
| `Text.Ascii` | nailgun/src/java/prod/com/martiansoftware/nailgun/NGSession.java:98 | US-ASCII decoding keeps the length and maps each byte below 0x80 to the same character. |
| `Text.DecimalText` | nailgun/src/java/prod/com/martiansoftware/nailgun/NGSession.java:185 | The text `println(int)` prints is non-empty, starts with '-' exactly for a negative number, and is all digits otherwise. |
| `Text.AtoiReadsDecimalText` | nailgun/src/c/ng.c:177 | `atoi` of the decimal text of any integer, followed by a non-digit (the NUL or the line separator), gives that integer back. |
| `Text.DecimalTextShort` | nailgun/src/c/ng.c:171 | The text of any 32-bit exit code has at most 11 bytes, so it fits in the BUFSIZE-1 bytes `processExit` reads. |
| `Text.SkipSpace` | nailgun/src/c/ng.c:177 | `atoi`'s leading white-space skip leaves a suffix of the input that does not start with white space. |
| `Text.DigitRun` | nailgun/src/c/ng.c:177 | `atoi`'s digit run: a prefix of digits that ends at the first non-digit. |
| `Text.Atoi` | nailgun/src/c/ng.c:177 | `atoi` gives 0 when, after white space, the text does not start with a digit or a sign, and is negative only when it starts with '-'. |
| `Runner.Enqueue` | nailgun/src/java/prod/com/martiansoftware/nailgun/NGSessionRunner.java:72-77 | The queue grows by one at the tail, earlier entries are unchanged, and `done` is unchanged. |
| `Runner.Stop` | nailgun/src/java/prod/com/martiansoftware/nailgun/NGSessionRunner.java:61-66 | `done` becomes true and the queue is kept. |
| `Runner.Take` | nailgun/src/java/prod/com/martiansoftware/nailgun/NGSessionRunner.java:85-103 | Once `done` holds, null and nothing removed. Otherwise the head is removed and returned. On an empty queue, null if the wait is interrupted, else the caller blocks; the queue is unchanged either way. |
| `Runner.DrainIsFifo` | nailgun/src/java/prod/com/martiansoftware/nailgun/NGSessionRunner.java:97 | Repeated `getSocket` calls on a running pool hand out the queued sockets in queue order. |
| `Runner.DrainIsPrefix` | nailgun/src/java/prod/com/martiansoftware/nailgun/NGSessionRunner.java:85-103 | A worker calling `getSocket` until null is handed a prefix of the queue, in order, and nothing once the runner is done. |
| `Runner.EnqueuedServedLast` | nailgun/src/java/prod/com/martiansoftware/nailgun/NGSessionRunner.java:72-77 | A socket submitted with `startSessionFor` is served after every socket already queued. |
| `Runner.NothingAfterShutdown` | nailgun/src/java/prod/com/martiansoftware/nailgun/NGSessionRunner.java:88-102 | After shutdown no queued socket is handed out, even if the queue is non-empty. |
| `Runner.ShutdownIdempotent` | nailgun/src/java/prod/com/martiansoftware/nailgun/NGSessionRunner.java:61-62 | Shutting down twice is the same as shutting down once. |
| `Runner.NGSessionRunner.constructor` | nailgun/src/java/prod/com/martiansoftware/nailgun/NGSessionRunner.java:46-55 | The queue starts empty and not done, and exactly `poolSize` sessions are created, with indices 1..`poolSize`. |
| `Runner.NGSessionRunner.Shutdown` | nailgun/src/java/prod/com/martiansoftware/nailgun/NGSessionRunner.java:61-66 | The new state is `Stop` of the old one. |
| `Runner.NGSessionRunner.StartSessionFor` | nailgun/src/java/prod/com/martiansoftware/nailgun/NGSessionRunner.java:72-77 | The new state is `Enqueue` of the old one. |
| `Runner.NGSessionRunner.GetSocket` | nailgun/src/java/prod/com/martiansoftware/nailgun/NGSessionRunner.java:85-103 | The new state and the result are `Take` of the old state. |
| `Security.ExitThrown` | nailgun/src/java/prod/com/martiansoftware/nailgun/NGSecurityManager.java:27-39 | `checkExit` always throws. It throws SecurityException exactly when a base manager refuses the status; otherwise it throws NGExitException carrying the status. |
| `Security.NGSecurityManager.constructor` | nailgun/src/java/prod/com/martiansoftware/nailgun/NGSecurityManager.java:23-25 | Keeps the base manager; no thread has an exit sink. |
| `Security.NGSecurityManager.CheckExit` | nailgun/src/java/prod/com/martiansoftware/nailgun/NGSecurityManager.java:27-39 | The base is asked first. If it refuses, nothing is written. Otherwise the status is printed once on the calling thread's sink, if set, before NGExitException; with no sink, nothing changes. |
| `Security.NGSecurityManager.CheckPermission` | nailgun/src/java/prod/com/martiansoftware/nailgun/NGSecurityManager.java:41-45 | With no base, permitted. With a base, refused exactly when the base refuses. |
| `Security.NGSecurityManager.CheckPermissionIn` | nailgun/src/java/prod/com/martiansoftware/nailgun/NGSecurityManager.java:47-51 | The same for the overload with a context. |
| `Security.NGSecurityManager.SetExit` | nailgun/src/java/prod/com/martiansoftware/nailgun/NGSecurityManager.java:53-55 | Replaces the calling thread's sink, or clears it when given null; other threads' sinks are unchanged. |
| `Streams.Connection.Close` | nailgun/src/java/prod/com/martiansoftware/nailgun/NGSession.java:193 | The socket is closed. |
| `Streams.NGOutputStream.constructor` | nailgun/src/java/prod/com/martiansoftware/nailgun/NGOutputStream.java:45-48 | The stream keeps the socket and the stream code it is given; every later frame uses that code. |
| `Streams.NGOutputStream.WriteRange` | nailgun/src/java/prod/com/martiansoftware/nailgun/NGOutputStream.java:69-76 | Valid bounds: exactly one whole chunk (`len`, the stream code, then `b[off..off+len)`) is appended, and earlier bytes are unchanged. Invalid bounds: only the header reaches the socket before the exception, and the call reports failure. |
| `Streams.NGOutputStream.Write` | nailgun/src/java/prod/com/martiansoftware/nailgun/NGOutputStream.java:54-56 | `write(b)` appends the one chunk of all of `b`, as `write(b, 0, b.length)` does; an empty `b` gives a bare 5-byte header. |
| `Streams.NGOutputStream.WriteByte` | nailgun/src/java/prod/com/martiansoftware/nailgun/NGOutputStream.java:61-64 | `write(int)` appends a length-1 chunk holding the low byte of the int. |
| `Streams.NGOutputStream.Println` | nailgun/src/java/prod/com/martiansoftware/nailgun/NGSession.java:185-190 | `println(n)` on a PrintStream over the stream appends the chunk of n's decimal text, then the chunk of the line separator. |
| `Streams.PrintlnChunksLayout` | nailgun/src/java/prod/com/martiansoftware/nailgun/NGSession.java:185-190 | `println(n)` sends two chunks on the stream's code: the first holds the 1 to 11 characters of n in decimal, the second the line separator. |
| `SessionHeader.IndexOf` | nailgun/src/java/prod/com/martiansoftware/nailgun/NGSession.java:103 | `indexOf('=')`: the first index holding the character, or -1 exactly when it is absent. |
| `SessionHeader.AcceptChunk` | nailgun/src/java/prod/com/martiansoftware/nailgun/NGSession.java:100-117 | One turn of the `switch`: it finishes exactly on a `C` chunk, with its text as the command; it throws exactly on an `E` chunk without '='; otherwise it appends an `A` text to the arguments, never removes an environment key, and sets the directory exactly on a `D` chunk. |
| `SessionHeader.ApplyEnv` | nailgun/src/java/prod/com/martiansoftware/nailgun/NGSession.java:103-108 | Applying `E` entries never removes a key from the environment. |
| `SessionHeader.ReadHeaderGrows` | nailgun/src/java/prod/com/martiansoftware/nailgun/NGSession.java:91-118 | A header phase that ends with a command consumes at least one 5-byte header, keeps the arguments it started with as a prefix, never loses an environment key and never unsets the directory. |
| `SessionHeader.ReadHeaderPhase` | nailgun/src/java/prod/com/martiansoftware/nailgun/NGSession.java:91-118 | The header loop's result is the fold `ReadHeader` over the unread bytes. After a command, exactly the bytes after the `C` chunk remain unread. |
| `SessionHeader.AsciiEquals` | nailgun/src/java/prod/com/martiansoftware/nailgun/NGSession.java:98-104 | The decoded text holds '=' exactly when the payload holds byte 0x3D. |
| `SessionHeader.ReadHeaderStep` | nailgun/src/java/prod/com/martiansoftware/nailgun/NGSession.java:91-117 | Reading a chunk then the rest is one turn of the `switch` applied to that chunk, then the rest. |
| `SessionHeader.CommandEndsHeader` | nailgun/src/java/prod/com/martiansoftware/nailgun/NGSession.java:112 | A `C` chunk ends the header phase; its text is the command, and the bytes after it are left unread. |
| `SessionHeader.UnknownChunkIgnored` | nailgun/src/java/prod/com/martiansoftware/nailgun/NGSession.java:116 | A chunk with any tag other than A, E, C, D changes nothing. |
| `SessionHeader.DirectoryReplaced` | nailgun/src/java/prod/com/martiansoftware/nailgun/NGSession.java:114 | A `D` chunk replaces the working directory, so the last one wins. |
| `SessionHeader.EnvWithoutEqualsAborts` | nailgun/src/java/prod/com/martiansoftware/nailgun/NGSession.java:103-109 | An `E` payload with no '=' throws at `substring(0, -1)`: the session aborts before dispatch. |
| `SessionHeader.EnvLeadingEqualsIgnored` | nailgun/src/java/prod/com/martiansoftware/nailgun/NGSession.java:103-109 | An `E` payload starting with '=' adds nothing and the phase continues. |
| `SessionHeader.ArgChunk` | nailgun/src/java/prod/com/martiansoftware/nailgun/NGSession.java:101 | An `A` chunk appends its text to the arguments. |
| `SessionHeader.EnvChunk` | nailgun/src/java/prod/com/martiansoftware/nailgun/NGSession.java:103-108 | An `E` chunk holding '=' is applied to the environment as a `setProperty`. |
| `SessionHeader.ArgsAppendedInOrder` | nailgun/src/java/prod/com/martiansoftware/nailgun/NGSession.java:101 | A run of `A` chunks appends their texts in arrival order, duplicates kept. |
| `SessionHeader.EnvApplied` | nailgun/src/java/prod/com/martiansoftware/nailgun/NGSession.java:103-108 | A run of `E` chunks, each holding '=', applies their entries to the environment in arrival order. |
| `SessionHeader.ApplyEnvAppend` | nailgun/src/java/prod/com/martiansoftware/nailgun/NGSession.java:103-108 | Applying two runs of entries one after the other is applying their concatenation. |
| `SessionHeader.EnvLastWins` | nailgun/src/java/prod/com/martiansoftware/nailgun/NGSession.java:105-107 | A key's value is the text after the first '=' of the last entry that sets that key. |
| `SessionHeader.EnvUntouched` | nailgun/src/java/prod/com/martiansoftware/nailgun/NGSession.java:103-108 | A key no entry sets keeps its old presence and value. |
| `Session.WriteFrames` | nailgun/src/java/prod/com/martiansoftware/nailgun/NGSession.java:124-125 | One chunk per nail write, in order, each one's length fitting an `int`. |
| `Session.ResolveClass` | nailgun/src/java/prod/com/martiansoftware/nailgun/NGSession.java:136-144 | An alias wins. Without one, with class-by-name, a class is found exactly when the command names a loadable class; without class-by-name, the default nail class. Any class other than the default comes from the alias table or the class table for this command. |
| `Session.ChooseShape` | nailgun/src/java/prod/com/martiansoftware/nailgun/NGSession.java:150-172 | An entry point is found exactly when the class has `nailMain` or `main`; `nailMain` is taken whenever present, `main` only when `nailMain` is absent. |
| `Session.ExitCode` | nailgun/src/java/prod/com/martiansoftware/nailgun/NGSession.java:185-190 | The exit code is 0 or 899, never 898. It is 0 exactly when an entry point was invoked and returned normally. |
| `Session.SessionOutputEndsWithExit` | nailgun/src/java/prod/com/martiansoftware/nailgun/NGSession.java:185-190 | A session's bytes always end with the exit code's chunks, and are only those when no nail was invoked. |
| `Session.SessionEvents` | nailgun/src/java/prod/com/martiansoftware/nailgun/NGSession.java:174-186 | Hooks are called exactly when an entry point is invoked: `nailStarted` then `nailFinished`, for the same class, never one without the other. |
| `Session.NailMainPreferred` | nailgun/src/java/prod/com/martiansoftware/nailgun/NGSession.java:150-172 | A resolved class with `nailMain` is invoked through `nailMain`, whether or not it has `main`. |
| `Session.AliasShadows` | nailgun/src/java/prod/com/martiansoftware/nailgun/NGSession.java:136-144 | An aliased command dispatches the same whatever the class-by-name setting, loadable classes and default nail are. |
| `Session.DefaultNailForUnaliased` | nailgun/src/java/prod/com/martiansoftware/nailgun/NGSession.java:140-144 | Without class-by-name and without an alias, the default nail class runs. With no default, the session sends only exit code 899. |
| `Session.UnknownClassFails` | nailgun/src/java/prod/com/martiansoftware/nailgun/NGSession.java:140-141 | With class-by-name, an unknown class triggers no hook and sends only exit code 899. |
| `Session.ExitInsideNailReported` | nailgun/src/java/prod/com/martiansoftware/nailgun/NGSession.java:176-190 | A nail that calls `System.exit` ends with exit code 899 on the session's exit stream. |
| `Session.NGServer.NailStarted` | nailgun/src/java/prod/com/martiansoftware/nailgun/NGSession.java:175 | Records the start of the nail class on the server. |
| `Session.NGServer.NailFinished` | nailgun/src/java/prod/com/martiansoftware/nailgun/NGSession.java:183 | Records the end of the nail class on the server. |
| `Session.NGSession.constructor` | nailgun/src/java/prod/com/martiansoftware/nailgun/NGSession.java:64-69 | Keeps its runner, server and index; no stdio is redirected. |
| `Session.NGSession.RunWrites` | nailgun/src/java/prod/com/martiansoftware/nailgun/NGSession.java:124-125 | The nail's writes through its stdout and stderr streams append their chunks to the socket, in order. |
| `Session.NGSession.Dispatch` | nailgun/src/java/prod/com/martiansoftware/nailgun/NGSession.java:135-191 | Only the invoked nail's chunks reach the socket; the hooks follow `SessionEvents`; the code returned is `ExitCode` of the dispatch. |
| `Session.NGSession.Respond` | nailgun/src/java/prod/com/martiansoftware/nailgun/NGSession.java:120-193 | After a complete header, the socket receives `SessionOutput` (the nail's chunks, then the exit code's chunks), and is closed. The unread input is untouched, and the hooks are logged. |
| `Session.NGSession.Serve` | nailgun/src/java/prod/com/martiansoftware/nailgun/NGSession.java:79-201 | One session. After a header ending in a command, it responds as above. After an aborted header, nothing is sent and the socket is left open (the exception skips `close`). The per-thread stdio is reset either way. |
| `Session.NGSession.Run` | nailgun/src/java/prod/com/martiansoftware/nailgun/NGSession.java:74-206 | The worker serves exactly the sockets `getSocket` hands out, in queue order, until it returns null. The queue then is empty unless the pool was shut down, and the stdio is reset. |
| `ClientArgs.LastIndexOf` | nailgun/src/c/ng.c:255 | `strrchr`: the last index holding the byte, with none after it, or -1 exactly when the byte is absent. |
| `ClientArgs.ShortClientName` | nailgun/src/c/ng.c:254-257 | The short name holds no '/' and is a suffix of argv[0]: the whole string when there is no '/', else what follows a '/'. |
| `ClientArgs.LaunchCommandCases` | nailgun/src/c/ng.c:310-313 | argv[0] names no command exactly when it is "ng" or ends in "/ng"; otherwise the command is its last path component. |
| `ClientArgs.ScanFromShape` | nailgun/src/c/ng.c:320-335 | From any slot, the scan fails only on a trailing option, nulls only slots from there on, keeps a command already chosen with its `firstArgIndex`, and a command it takes from the list forwards the slots after its own. |
| `ClientArgs.ScanArgsShape` | nailgun/src/c/ng.c:292-335 | The whole scan fails only on a trailing option, always forwards from a slot of argv, and a command named by argv[0] forwards everything after argv[0]. |
| `ClientArgs.ScanAsWrittenShape` | nailgun/src/c/ng.c:292-335 | The scan as written fails only on a trailing option, and leaves `firstArgIndex` unassigned exactly when argv[0] names the command or no command is found. |
| `ClientArgs.ScanFromIgnoresIndex` | nailgun/src/c/ng.c:320-335 | Where `firstArgIndex` starts does not change the usage error or any other setting, and when the command comes from the list the results are identical. |
| `ClientArgs.ScanAsWrittenAgreesWhenLaunchedAsNg` | nailgun/src/c/ng.c:292-335 | Started as "ng", the scan as written and the corrected scan agree on the usage error, and give the same result whenever a command is found. |
| `ClientArgs.Parse` | nailgun/src/c/ng.c:277 | The usage-line reading fails only on a trailing option, forwards only words of the line, keeps a command named by argv[0], and otherwise takes the command from the line. |
| `ClientArgs.View` | nailgun/src/c/ng.c:324-329 | The argv array after the scan: the nulled slots are null, every other slot holds its original string. |
| `ClientArgs.ScanFromMatchesParse` | nailgun/src/c/ng.c:320-335 | From any point of the scan, the scan agrees with the usage-line reading of the remaining words: same usage error, server, port and command, and the arguments it forwards. |
| `ClientArgs.ScanMatchesParse` | nailgun/src/c/ng.c:320-335 | The whole scan ends in `usage()` exactly when an option has no value. Otherwise its server, port and command, and the non-null slots from `firstArgIndex`, are those of the usage-line reading. |
| `ClientArgs.ParseNeverForwardsOptions` | nailgun/src/c/ng.c:320-330 | Neither option name is ever among the forwarded arguments. |
| `ClientArgs.SymlinkModeLeavesFirstArgIndexUnset` | nailgun/src/c/ng.c:310-333 | Started as `foo x` through a link named `foo`, the scan as written leaves `firstArgIndex` unassigned, though "x" should be forwarded. |
| `ClientArgs.SymlinkModeForwardsArgument` | nailgun/src/c/ng.c:368-370 | With `firstArgIndex` starting at 1, the same command line forwards exactly "x". |
| `ClientArgs.ScanArgv` | nailgun/src/c/ng.c:320-335 | The in-place scan returns the pure scan's result. On success, `argv` holds the view with the option slots nulled. |
| `ClientArgs.ScanSlot` | nailgun/src/c/ng.c:321-334 | One turn of the loop: a usage error exactly when the pure scan from this slot fails; otherwise the pure scan from the next slot, with the new settings, gives the same result, and argv holds their view. |
| `ClientArgs.NullOption` | nailgun/src/c/ng.c:323-329 | `argv[i] = argv[i + 1] = NULL`: argv becomes the view with both slots nulled. |
| `Client.StreamStep` | nailgun/src/c/ng.c:185-212 | Continuing always consumes input. A short header exits with 995. '1'/'2' copy the payload to stdout/stderr, hanging if it is cut short. 'X' exits with `atoi` of at most BUFSIZE-1 payload bytes. Any other tag prints the unexpected-chunk diagnostic to stderr and exits with 997. |
| `Client.ChunkStep` | nailgun/src/c/ng.c:195-211 | Once a whole header is in, every chunk consumes input, whatever length was read. |
| `Client.UnexpectedChunkMessage` | nailgun/src/c/ng.c:209 | The diagnostic for an unknown tag holds the tag byte and ends with a newline. |
| `Client.StreamStepSignedChar` | nailgun/src/c/ng.c:195-198 | The step with the length read under signed `char` never consumes more than its input. |
| `Client.SignedCharStepAgrees` | nailgun/src/c/ng.c:195-198 | The signed-`char` client handles a chunk exactly as the unsigned one when every length byte is below 0x80. |
| `Client.SignedCharClientHangs` | nailgun/src/c/ng.c:195-198 | On a 128-byte stdout chunk the unsigned client copies the payload and continues; the signed-`char` client hangs. |
| `Client.StdinChunk` | nailgun/src/c/ng.c:237-245 | A failed read sends nothing; a read of n bytes sends one chunk whose header gives length n, tag '0' (or '.' when n is 0), and whose payload is the bytes read. |
| `Client.RequestSplit` | nailgun/src/c/ng.c:368-384 | The request bytes are the `A` chunks, then the `E` chunks, then the `D` chunk, then the `C` chunk. |
| `Client.Receive` | nailgun/src/c/ng.c:387-409 | The receive loop, run over a finite input, ends in an exit or a hang, never in the middle. |
| `Client.NailgunClient.SendAll` | nailgun/src/c/ng.c:85-98 | Sends the first `len` bytes and returns `len`. On a failed `send`, sends nothing further and returns 0. |
| `Client.NailgunClient.SendHeader` | nailgun/src/c/ng.c:106-113 | Fills `header` with the 5-byte chunk header (size in 4 big-endian bytes, then the type) and sends exactly those bytes. |
| `Client.NailgunClient.SendText` | nailgun/src/c/ng.c:121-125 | Sends one chunk of length `strlen(text)` holding the text, without a terminator. |
| `Client.NailgunClient.Recv` | nailgun/src/c/ng.c:149 | A `MSG_WAITALL` receive: fills `buf` with the next min(count, available) incoming bytes and consumes them. |
| `Client.NailgunClient.CopyOut` | nailgun/src/c/ng.c:155-158 | The inner write loop copies exactly the bytes received to the chosen descriptor, even when `write` is partial. |
| `Client.NailgunClient.RecvToFD` | nailgun/src/c/ng.c:142-160 | Copies the next `len` bytes to stdout or stderr, never reading past `len`. It hangs exactly when fewer than `len` bytes remain. |
| `Client.NailgunClient.ProcessExit` | nailgun/src/c/ng.c:169-180 | Reads at most BUFSIZE-1 bytes of the exit payload, NUL-terminates them and parses them with `atoi`. |
| `Client.NailgunClient.ProcessNailgunStream` | nailgun/src/c/ng.c:185-212 | One handled chunk: outcome, consumed input and output as `StreamStep` says. |
| `Client.NailgunClient.SendStdin` | nailgun/src/c/ng.c:219-222 | Sends one '0' chunk of exactly the first `len` bytes of `buf`. |
| `Client.NailgunClient.ProcessEof` | nailgun/src/c/ng.c:227-229 | Sends a zero-length '.' chunk. |
| `Client.NailgunClient.ProcessStdin` | nailgun/src/c/ng.c:237-245 | Bytes read: one '0' chunk of exactly those bytes. End of file: a '.' chunk. A failed read: nothing. Returns the `read` result. |
| `Client.NailgunClient.Poll` | nailgun/src/c/ng.c:387-409 | A readable socket is served first, as `StreamStep`. Otherwise stdin is read and forwarded, and `eof` becomes true exactly on a zero-byte read, after which stdin is not polled. |
| `Client.NailgunClient.SendRequest` | nailgun/src/c/ng.c:368-384 | Sends every non-null argument, every environment entry, the directory, then the command, in that order. Without a command it sends all but the `C` chunk and then crashes. |
| `Client.NailgunClient.SendArgs` | nailgun/src/c/ng.c:368-370 | One `A` chunk per non-null slot from `firstArgIndex`, in order. |
| `Client.NailgunClient.SendEnv` | nailgun/src/c/ng.c:373-375 | One `E` chunk per environment entry, in order. |
| `Protocol.ReadsRequestFrames` | nailgun/src/java/prod/com/martiansoftware/nailgun/NGSession.java:91-118 | The header phase over the client's A, E and D chunks builds the client's arguments in order, its environment and its directory. |
| `Protocol.RequestRoundTrip` | nailgun/src/c/ng.c:368-384 | Round trip of a whole request: the server's header loop reads back the client's arguments, environment and directory, and its command. The bytes sent after the request are left unread. |
| `Protocol.MissingCommandAbortsHeader` | nailgun/src/java/prod/com/martiansoftware/nailgun/NGSession.java:91-97 | If the client stops before a `C` chunk, the server's header phase ends with end of stream. |
| `Protocol.ClientReadsWrite` | nailgun/src/java/prod/com/martiansoftware/nailgun/NGOutputStream.java:69-76 | The client copies the payload of one stdout or stderr chunk the server wrote to its own stdout or stderr, and continues. |
| `Protocol.ClientReadsExit` | nailgun/src/c/ng.c:169-180 | The two chunks of `exit.println(code)` make the client exit with exactly `code`. |
| `Protocol.ClientReadsWrites` | nailgun/src/c/ng.c:185-206 | The client passes a nail's whole run of writes to its stdout and stderr in order, and then carries on with what follows. |
| `Protocol.ClientSeesSession` | nailgun/src/java/prod/com/martiansoftware/nailgun/NGSession.java:175-190 | With unsigned header bytes, whatever one session sends makes the client print the nail's stdout and stderr and exit with the session's exit code. |
| `Protocol.SessionOutputParts` | nailgun/src/java/prod/com/martiansoftware/nailgun/NGSession.java:174-190 | A session's bytes are the chunks of the nail's writes followed by the exit code's chunks. |

## Left out

- Sockets, `select`, DNS lookup and process exit in the client (ng.c:338-361, 387-409). These become parameters:
  - the socket is two byte sequences;
  - `select`'s answer is `socketReadable`;
  - a `read` of stdin is a `StdinRead`;
  - `exit` is an `Outcome`.
  - `send` and `write` accept up to a fixed number of bytes per call. A `broken` flag makes every `send` fail.
  - `recv` errors, `select` errors and `usage()`'s message are not modelled.
- `main`'s `getenv` defaults for NAILGUN_SERVER and NAILGUN_PORT, and `atoi` of the port, are not modelled beyond `DefaultPortsAgree`. `Parse` and the scan take the starting server and port as parameters.
- The Windows build: case-insensitive `ng` and the `\` separator. The model uses the non-Windows `strcmp` and `/`.
- `getcwd` returning NULL: the directory is a parameter.
- Threads, `wait`/`notify` and `synchronized` in NGSessionRunner and NGOutputStream. The runner and the stream are modelled sequentially. A wait on an empty queue is either interrupted (null) or blocks forever (`Blocked`).
- Reflection (`Class.forName`, `getMethod`, `invoke`), `NGContext` and the nail itself. A nail class is two flags plus a behaviour function.
- The nail's use of its stdin, and NGInputStream. The client's stdin chunks are modelled on the client side only.
- `printStackTrace`, and `updateThreadName` (debugging only).
- The `InheritableThreadLocal` passing exit sinks to child threads.
- AliasManager and NGServer internals. NGServer is reduced to its configuration and a log of `nailStarted`/`nailFinished` calls.
- The sample nail `Exit.java`.
- `ThreadLocalInputStream`/`ThreadLocalPrintStream`: the per-thread redirections are the three stdio fields of `NGSession`.
- `Text.Atoi`: `atoi` overflow on more than 10 digits is not modelled. Mathematical integers are used, which agree with C's `int` for every text the server sends.
- The client's exit status is not truncated to 8 bits by the operating system.
- `Client.NailgunClient.RecvToFD`: a connection closed early makes `recv` return 0 forever and the C loop spin. The model reports `Hangs` instead of looping.
- `Client.NailgunClient.SendRequest`: `sendText(CHUNKTYPE_CMD, NULL)` is undefined behaviour. The model reports `crashed` after the directory chunk instead of inventing what `strlen(NULL)` does.
- `Client.Receive`: its own contract only says the loop ends in an exit or a hang; what the client prints and its exit code are stated by the `Protocol` lemmas about it.
- `Session.NGSession.Serve`, `Session.NGSession.Run`, `Session.NGSession.Respond` and `Session.NGSession.Dispatch` require that the worker thread has no exit sink set. NGSession never calls `setExit`, so that always holds. A nail's `System.exit` therefore writes nothing through the exit trap, and the session reports 899.
- A write through `PrintStream` that the nail makes in several pieces is modelled as one `write(byte[])` per `NailWrite`.
- `Client.StreamStep`: reads the four length bytes as unsigned values, which ng.c does only where `char` is unsigned. The signed-`char` reading is `Client.StreamStepSignedChar`; `Client.SignedCharStepAgrees` shows the two agree whenever every length byte is below 0x80, and `Client.SignedCharClientHangs` shows a 128-byte chunk where they differ (see Findings).
- `Protocol.ClientSeesSession`: holds for the unsigned reading of the header only; with signed `char`, a session writing a chunk whose length has a byte of 0x80 or more makes the client hang instead.
- `ClientArgs.ScanArgv`: models the corrected scan, with `firstArgIndex` starting at 1, not the scan as written. `ClientArgs.ScanAsWrittenAgreesWhenLaunchedAsNg` shows the two agree when the client is started as "ng" and a command is found; they differ only in symlink mode (see Findings).
- `Session.NGSession.Run`: states which sockets are served and in what order, and that the stdio is reset. What each turn does to its socket is the contract of `Session.NGSession.Serve`; the per-socket outcome is not restated across the loop.
- `Client.NailgunClient.CopyOut`: a `write` returning -1 (ng.c:157) is not modelled; every `write` accepts at least one byte.
- `Client.UnexpectedChunkMessage`: `%d` prints the tag read as unsigned 0..255; on a signed-`char` platform a tag of 0x80 or more prints as a negative number.
- `Streams.PrintlnChunks`: the two-chunk shape is that of a `PrintStream` that flushes the digits and the line separator separately. A runtime that sends both in one chunk gives the client the same output and exit code.
- `ClientArgs.IsNailgunClientName` and `ClientArgs.LaunchCommand` have no contract of their own; what they decide is stated by `ClientArgs.LaunchCommandCases`.
- `ClientArgs.ScanFrom`, `ClientArgs.ScanArgs` and `ClientArgs.ScanArgsAsWritten` have no contract of their own; their properties are the lemmas `ScanFromShape`, `ScanArgsShape`, `ScanAsWrittenShape` and `ScanFromMatchesParse`.
- `Runner.Drain` has no contract of its own; its properties are `Runner.DrainIsPrefix` and `Runner.DrainIsFifo`.
- `Client.RequestBytes` has no contract of its own; its layout is `Client.RequestSplit`, and the server reads it back by `Protocol.RequestRoundTrip`.

## Findings

| source | as written | input that shows it | evidently intended | confidence | as-written member | corrected member |
|---|---|---|---|---|---|---|
| nailgun/src/c/ng.c:195-198 | `len` is summed from the `char` buffer, which is signed on most platforms. A length byte of 0x80 or more is sign-extended, and the sum is converted to `unsigned long`. | A 128-byte stdout chunk (header 00 00 00 80 31): `len` becomes 2^64 - 128, and `recvToFD` waits for bytes that never come. | Read the header bytes as unsigned 0..255, the inverse of `sendHeader`. | not executed | `Codec.SignedCharMisreadsLength` | `Codec.ClientReadsHeader` |
| nailgun/src/c/ng.c:292 | `firstArgIndex` is assigned only when the command comes from the argument list (ng.c:333). When the client runs under a symlinked name, it stays uninitialised, yet ng.c:368 starts the argument loop from it. | `foo x`, run through a link named `foo` | Start `firstArgIndex` at 1, so that every non-option argument after argv[0] is forwarded. | not executed | `ClientArgs.SymlinkModeLeavesFirstArgIndexUnset` | `ClientArgs.SymlinkModeForwardsArgument` |
