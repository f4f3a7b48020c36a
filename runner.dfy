/**
 * `NGSessionRunner`: the FIFO list of accepted sockets waiting for a worker,
 * and the `done` flag set by `shutdown`. Threads and monitors are left out;
 * a `wait` on an empty queue becomes the result `Blocked`.
 */
module Runner {
  import Streams

  /** The runner's state as a value. */
  datatype State<T> = State(queue: seq<T>, done: bool)

  /** What `getSocket` produces. */
  datatype Took<T> = Got(socket: T) | Null | Blocked

  /** `startSessionFor` (NGSessionRunner.java:72-77). */
  function Enqueue<T>(s: State<T>, x: T): (r: State<T>)
    ensures |r.queue| == |s.queue| + 1 && r.queue[..|s.queue|] == s.queue && r.queue[|s.queue|] == x
    ensures r.done == s.done
  {
    s.(queue := s.queue + [x])
  }

  /** `shutdown` (NGSessionRunner.java:61-66). */
  function Stop<T>(s: State<T>): (r: State<T>)
    ensures r.done && r.queue == s.queue
  {
    s.(done := true)
  }

  /**
   * `getSocket` (NGSessionRunner.java:85-103): null once `done` is set;
   * otherwise the head of the queue, or null if the wait on an empty queue
   * is interrupted, or `Blocked` if it is not.
   */
  function Take<T>(s: State<T>, interrupted: bool): (r: (State<T>, Took<T>))
    ensures s.done ==> r == (s, Null)
    ensures !s.done && s.queue != [] ==> r == (State(s.queue[1..], false), Got(s.queue[0]))
    ensures !s.done && s.queue == [] ==> r == (s, if interrupted then Null else Blocked)
  {
    if s.done then (s, Null)
    else if s.queue == [] then (s, if interrupted then Null else Blocked)
    else (s.(queue := s.queue[1..]), Got(s.queue[0]))
  }

  /** The sockets a worker obtains by calling `getSocket` until it gets no socket. */
  function Drain<T>(s: State<T>): seq<T>
    decreases |s.queue|
  {
    match Take(s, false)
    case (s', Got(x)) => [x] + Drain(s')
    case _ => []
  }

  /** A worker is handed a prefix of the queue, and nothing once the runner is done. */
  lemma {:induction false} DrainIsPrefix<T>(s: State<T>)
    ensures |Drain(s)| <= |s.queue| && Drain(s) == s.queue[..|Drain(s)|]
    ensures s.done ==> Drain(s) == []
    decreases |s.queue|
  {
    if !s.done && s.queue != [] {
      DrainIsPrefix(State(s.queue[1..], false));
    }
  }

  /** One step of `Drain`: the head is handed out unless the runner is done or empty. */
  lemma DrainUnfold<T>(s: State<T>)
    ensures !s.done && s.queue != [] ==> Drain(s) == [s.queue[0]] + Drain(State(s.queue[1..], false))
    ensures s.done || s.queue == [] ==> Drain(s) == []
  { }

  /** Before shutdown, the workers are handed every queued socket in submission order. */
  lemma {:induction false} DrainIsFifo<T>(q: seq<T>)
    ensures Drain(State(q, false)) == q
    decreases |q|
  {
    if q != [] {
      DrainIsFifo(q[1..]);
    }
  }

  /** A socket submitted later is served after every socket already waiting. */
  lemma EnqueuedServedLast<T>(q: seq<T>, x: T)
    ensures Drain(Enqueue(State(q, false), x)) == q + [x]
  {
    DrainIsFifo(q + [x]);
  }

  /** After shutdown no queued socket is handed out, however many wait. */
  lemma {:induction false} NothingAfterShutdown<T>(q: seq<T>)
    ensures Drain(State(q, true)) == []
    ensures Drain(Stop(State(q, false))) == []
  { }

  /** Shutting down twice is the same as shutting down once. */
  lemma ShutdownIdempotent<T>(s: State<T>)
    ensures Stop(Stop(s)) == Stop(s)
  { }

  class NGSessionRunner {
    const poolSize: nat
    var queue: seq<Streams.Connection>
    var done: bool
    /** The indices given to the pooled sessions. */
    var workers: seq<nat>

    function Current(): State<Streams.Connection>
      reads this
    {
      State(queue, done)
    }

    /** NGSessionRunner.java:46-55: one session per pool slot, numbered from 1. */
    constructor(poolSize: nat)
      ensures this.poolSize == poolSize
      ensures Current() == State([], false)
      ensures |workers| == poolSize && forall i :: 0 <= i < poolSize ==> workers[i] == i + 1
    {
      this.poolSize := poolSize;
      queue := [];
      done := false;
      workers := [];
      new;
      for i := 0 to poolSize
        invariant |workers| == i && forall j :: 0 <= j < i ==> workers[j] == j + 1
        invariant queue == [] && !done
      {
        workers := workers + [i + 1];
      }
    }

    method Shutdown()
      modifies this`done
      ensures Current() == Stop(old(Current()))
    {
      done := true;
    }

    method StartSessionFor(socket: Streams.Connection)
      modifies this`queue
      ensures Current() == Enqueue(old(Current()), socket)
    {
      queue := queue + [socket];
    }

    /** One call of `getSocket`, with `interrupted` saying whether a wait would be interrupted. */
    method GetSocket(interrupted: bool) returns (result: Took<Streams.Connection>)
      modifies this`queue
      ensures (Current(), result) == Take(old(Current()), interrupted)
    {
      result := Null;
      if !done {
        if |queue| == 0 {
          if interrupted {
            return Null;
          }
          return Blocked;
        } else {
          result := Got(queue[0]);
          queue := queue[1..];
        }
      }
    }
  }
}
