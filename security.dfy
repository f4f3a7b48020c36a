/**
 * `NGSecurityManager`: traps `System.exit` so that a nail cannot end the
 * server process. The exit status goes to the current thread's exit sink,
 * if one is set, and `checkExit` then always throws.
 */
module Security {
  import opened Wrappers
  import opened Bytes
  import Streams

  /** Identifies a thread; a worker thread is identified by its session index. */
  type ThreadId = nat

  datatype Permission = Permission(name: string)

  /**
   * The base security manager this one delegates to, described by the
   * requests it refuses by throwing SecurityException.
   */
  datatype BaseManager = BaseManager(
    deniedExits: set<int32>,
    deniedPermissions: set<Permission>,
    deniedInContext: set<(Permission, nat)>)

  /** What `checkExit` throws: it has no normal return. */
  datatype ExitThrow = SecurityException | NGExitException(status: int32)

  /** `checkPermission` either returns or throws SecurityException. */
  datatype Check = Permitted | Refused

  /**
   * The exception `checkExit(status)` ends with under `base`: this is the
   * whole case split of NGSecurityManager.java:27-39; the printing on the
   * thread's sink is `NGSecurityManager.CheckExit`'s effect.
   */
  function ExitThrown(base: Option<BaseManager>, status: int32): (t: ExitThrow)
    ensures t.NGExitException? ==> t.status == status
    ensures t.SecurityException? <==> base.Some? && status in base.value.deniedExits
  {
    if base.Some? && status in base.value.deniedExits then SecurityException
    else NGExitException(status)
  }

  class NGSecurityManager {
    const base: Option<BaseManager>
    /** The `EXIT` thread-local: each thread's exit sink, if set. */
    var exitSinks: map<ThreadId, Streams.NGOutputStream>

    constructor(base: Option<BaseManager>)
      ensures this.base == base && exitSinks == map[]
    {
      this.base := base;
      exitSinks := map[];
    }

    /** The connection the exit sink of `thread` writes to, if any. */
    function SinkFrame(thread: ThreadId): set<object>
      reads this
    {
      if thread in exitSinks then {exitSinks[thread].out} else {}
    }

    /**
     * `checkExit(status)` (NGSecurityManager.java:27-39) called on `thread`:
     * the base manager is asked first; if it lets the call through, the
     * status is printed on the thread's sink (when set) and NGExitException
     * is thrown.
     */
    method CheckExit(thread: ThreadId, status: int32) returns (thrown: ExitThrow)
      modifies SinkFrame(thread)
      ensures thrown == ExitThrown(base, status)
      ensures thread in exitSinks && thrown.NGExitException? ==>
        exitSinks[thread].out.sent
          == old(exitSinks[thread].out.sent) + Streams.PrintlnChunks(exitSinks[thread].streamCode, status)
      ensures thread !in exitSinks || thrown.SecurityException? ==> unchanged(SinkFrame(thread))
    {
      if base.Some? && status in base.value.deniedExits {
        return SecurityException;
      }
      if thread in exitSinks {
        exitSinks[thread].Println(status);
      }
      thrown := NGExitException(status);
    }

    /** `checkPermission(perm)` (NGSecurityManager.java:41-45). */
    method CheckPermission(perm: Permission) returns (r: Check)
      ensures base.None? ==> r == Permitted
      ensures base.Some? ==> (r == Refused <==> perm in base.value.deniedPermissions)
    {
      r := if base.Some? && perm in base.value.deniedPermissions then Refused else Permitted;
    }

    /** `checkPermission(perm, context)` (NGSecurityManager.java:47-51). */
    method CheckPermissionIn(perm: Permission, context: nat) returns (r: Check)
      ensures base.None? ==> r == Permitted
      ensures base.Some? ==> (r == Refused <==> (perm, context) in base.value.deniedInContext)
    {
      r := if base.Some? && (perm, context) in base.value.deniedInContext then Refused else Permitted;
    }

    /** `setExit(exit)` (NGSecurityManager.java:53-55) called on `thread`; `null` clears the slot. */
    method SetExit(thread: ThreadId, exit: Streams.NGOutputStream?)
      modifies this`exitSinks
      ensures exit != null ==> exitSinks == old(exitSinks)[thread := exit]
      ensures exit == null ==> exitSinks == old(exitSinks) - {thread}
    {
      if exit != null {
        exitSinks := exitSinks[thread := exit];
      } else {
        exitSinks := exitSinks - {thread};
      }
    }
  }
}
