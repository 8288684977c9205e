/**
 The status barrier: a readers-writer mutex and the flag it protects.  Go's RWMutex makes a
 writer announce itself first, which stops new readers, and then waits for the readers inside to
 drain; the two phases are separate steps here, so blocking is modelled as Go implements it.
 */
module StatusBarrier {
  import opened Wrappers

  /** A thread: an API call, the goroutine spawned by a Write call, or the one spawned by Start. */
  datatype Tid = Call(n: nat) | Async(n: nat) | Worker(n: nat)

  datatype Barrier = Barrier(writer: Option<Tid>, readers: set<Tid>, started: bool) {

    /** RLock: a reader gets in when no writer has announced itself. */
    predicate CanEnter() { writer.None? }

    function Entering(t: Tid): Barrier { this.(readers := readers + {t}) }

    function Out(t: Tid): Barrier { this.(readers := readers - {t}) }

    /** A read token taken by `t` and given back by `g`, the goroutine `t` spawned. */
    function HandOver(t: Tid, g: Tid): Barrier { this.(readers := readers - {t} + {g}) }

    /** Lock, first phase: one writer at a time announces itself. */
    predicate CanAnnounce() { writer.None? }

    function Announcing(t: Tid): Barrier { this.(writer := Some(t)) }

    /** Lock, second phase: the announced writer owns the barrier once the readers have left. */
    predicate Drained() { readers == {} }

    function OutOfStatusArea(): Barrier { this.(writer := None) }

    function MarkStarted(): Barrier { this.(started := true) }

    function MarkStopped(): Barrier { this.(started := false) }

    predicate IsStopped() { !started }
  }

  function NewBarrier(): Barrier { Barrier(None, {}, false) }

  /** What a thread is to a barrier, read off its program counter. */
  datatype Role = Outside | Reader | Drainer | Owner

  /** The mutex state agrees with the role of thread `t`, and an owner has no reader beside it. */
  ghost predicate RoleOk(b: Barrier, t: Tid, r: Role) {
    && (t in b.readers <==> r.Reader?)
    && (b.writer == Some(t) <==> (r.Drainer? || r.Owner?))
    && (r.Owner? ==> b.readers == {})
  }
}
