/**
 The broadcaster as a transition system.  A state holds the shared variables, the program counter
 of every thread, and history variables.  The code of every thread is given by `Code`: at
 each program counter it executes one instruction, an atomic operation on a mutex, a channel, the
 listener map, the wait group or a flag, and goes on to another program counter.
 */
module Broadcaster {
  import opened Wrappers
  import opened StatusBarrier

  type Lid = nat // a listener is named after the Subscribe call that made it

  /** A message is named after the Write call that brought it; Zero is what a closed channel yields. */
  datatype Msg<T> = Msg(id: nat, value: T) | Zero

  /** A channel of capacity one. */
  datatype Chan<T> = Chan(buf: seq<Msg<T>>, closed: bool)

  datatype Outcome = Delivered | Expired | Refused

  /** One attempt to write to a listener: which dequeued message, and how it ended. */
  datatype Try = Try(idx: nat, outcome: Outcome)

  datatype Presence = Present | Removed(at: nat, who: Tid)

  datatype Listener<T> = Listener(
    barrier: Barrier, chan: Chan<T>,
    born: nat, presence: Presence,           // history of its key in the listener map
    tries: seq<Try>, taken: seq<Msg<T>>)     // history of writes to it and of what its user received

  datatype Op<T> = Start | Stop | Subscribe | Unsubscribe(l: Lid) | IsSubscribed(l: Lid) | IsStopped
                 | Write(value: T) | WriteSync(value: T)

  datatype Res = Nil | ErrStopped | Got(l: Lid) | Flag(b: bool)

  /** A sync.Map.Range in progress: when it began, and the keys it has visited. */
  datatype Sweep = Sweep(since: nat, seen: set<Lid>)

  datatype Job<T> = Job(idx: nat, msg: Msg<T>, sweep: Sweep)

  datatype Stage = SEnter | SDrain | SCheck | SClose | SMark | SOut

  datatype Pc<T> =
    // read side of the broadcaster's barrier
    | Enter(op: Op<T>) | Check(op: Op<T>) | Body(op: Op<T>) | Unsub(l: Lid, stage: Stage)
    | Leave(op: Op<T>, res: Res)
    | Sender(m: Msg<T>) | SenderOut
    // write side of the broadcaster's barrier
    | Await(op: Op<T>) | Drain(op: Op<T>) | Status(op: Op<T>)
    | StartAdd | StartGo | StartMark
    | StopCancel | StopWait | StopRange | StopNext(sweep: Sweep) | StopOne(sweep: Sweep, l: Lid, stage: Stage)
    | StopDelete(sweep: Sweep, l: Lid) | StopClose | StopMark
    | Unlock(op: Op<T>, res: Res)
    // the worker goroutine
    | Select | Received(idx: nat, m: Msg<T>) | Next(job: Job<T>) | Visit(job: Job<T>, l: Lid)
    | LEntering(job: Job<T>, l: Lid) | LCheck(job: Job<T>, l: Lid) | LSend(job: Job<T>, l: Lid)
    | LOut(job: Job<T>, l: Lid) | Exit
    // a call that has returned, a goroutine that has ended
    | Done(op: Op<T>, res: Res) | Gone

  datatype Round = Running | Cut | Finished(since: nat, till: nat)

  /** History variables: no instruction depends on them, except that Range is told the time. */
  datatype Log<T> = Log(
    clock: nat,                    // counts the operations on the listener map
    worker: Option<nat>,           // the Start call that spawned the last worker
    stopped: bool,                 // a Stop has marked the broadcaster stopped
    admitted: seq<Msg<T>>,         // writes that passed the check of the flag
    accepted: seq<Msg<T>>,         // messages sent on the channel
    deq: seq<Msg<T>>,              // messages the worker received
    lapsed: set<nat>,              // writes whose timer fired
    rounds: map<nat, Round>)       // what became of the Range over the listeners for each received message

  datatype State<T> = State(
    barrier: Barrier, cancelled: bool, wg: nat, chan: Chan<T>,
    listeners: map<Lid, Listener<T>>,        // every listener ever stored in the map
    procs: map<Tid, Pc<T>>,
    panicked: bool, log: Log<T>)

  function New<T>(): State<T> {
    State(NewBarrier(), false, 0, Chan([], false), map[], map[], false,
          Log(0, None, false, [], [], [], {}, map[]))
  }

  function NewListener<T>(now: nat): Listener<T> {
    Listener(NewBarrier().MarkStarted(), Chan([], false), now, Present, [], [])
  }

  // ---------- instructions ----------

  /** Instructions on a listener. */
  datatype LInstr<T> = LNop | LAnnounce | LAcquire | LRelease | LClose | LMark
                     | LEnter | LLeave | LPush(i: nat, m: Msg<T>) | LRecord(i: nat, outcome: Outcome)

  datatype Instr<T> =
    | Nop
    | REnter | RLeave                        // RLock, RUnlock
    | WAnnounce | WAcquire | WRelease        // Lock, in two phases, and Unlock
    | SetStarted | SetStopped
    | Admit(m: Msg<T>)
    | GoSender(m: Msg<T>) | GoWorker         // the two go statements
    | Push(m: Msg<T>) | Lapse(id: nat) | Recv | CloseChan
    | CancelCtx | WgAdd | WgDone | WgWait
    | Store(l: Lid) | Delete(l: Lid)         // on the listener map
    | RangeBegin | RangeEnd(i: nat, since: nat) | RangeCut(i: nat)
    | On(l: Lid, li: LInstr<T>)

  /** Blocking: an instruction is executed only when it is ready. */
  predicate Ready<T>(s: State<T>, i: Instr<T>) {
    match i
    case REnter => s.barrier.CanEnter()
    case WAnnounce => s.barrier.CanAnnounce()
    case WAcquire => s.barrier.Drained()
    case Push(_) => s.chan.buf == []
    case Recv => s.chan.buf != [] || s.chan.closed
    case WgWait => s.wg == 0
    case On(l, li) => l in s.listeners && LReady(s.listeners[l], li)
    case _ => true
  }

  predicate LReady<T>(x: Listener<T>, li: LInstr<T>) {
    match li
    case LAnnounce => x.barrier.CanAnnounce()
    case LAcquire => x.barrier.Drained()
    case LEnter => x.barrier.CanEnter()
    case LPush(_, _) => x.chan.buf == []
    case _ => true
  }

  /** Run-time faults: misuse of a mutex or the wait group, a send on or a close of a closed channel. */
  predicate Faults<T>(s: State<T>, t: Tid, i: Instr<T>) {
    match i
    case RLeave => t !in s.barrier.readers
    case WRelease => s.barrier.writer != Some(t)
    case Push(_) => s.chan.closed
    case CloseChan => s.chan.closed
    case WgDone => s.wg == 0
    case On(l, li) => l in s.listeners && LFaults(s.listeners[l], t, li)
    case _ => false
  }

  predicate LFaults<T>(x: Listener<T>, t: Tid, li: LInstr<T>) {
    match li
    case LLeave => t !in x.barrier.readers
    case LRelease => x.barrier.writer != Some(t)
    case LPush(_, _) => x.chan.closed
    case LClose => x.chan.closed
    case _ => false
  }

  // What an instruction makes of each shared variable.

  function BarrierAfter<T>(b: Barrier, t: Tid, i: Instr<T>): Barrier {
    match i
    case REnter => b.Entering(t)
    case RLeave => b.Out(t)
    case WAnnounce => b.Announcing(t)
    case WRelease => b.OutOfStatusArea()
    case SetStarted => b.MarkStarted()
    case SetStopped => b.MarkStopped()
    case GoSender(_) => b.HandOver(t, Async(t.n))
    case _ => b
  }

  function WgAfter<T>(wg: nat, i: Instr<T>): nat {
    if i.WgAdd? then wg + 1 else if i.WgDone? && wg > 0 then wg - 1 else wg
  }

  function ChanAfter<T>(c: Chan<T>, i: Instr<T>): Chan<T> {
    match i
    case Push(m) => c.(buf := c.buf + [m])
    case Recv => if c.buf == [] then c else c.(buf := c.buf[1..])
    case CloseChan => c.(closed := true)
    case _ => c
  }

  /** A receive from a closed, empty channel yields the zero value. */
  function Front<T>(c: Chan<T>): Msg<T> { if c.buf == [] then Zero else c.buf[0] }

  function LAfter<T>(x: Listener<T>, t: Tid, li: LInstr<T>): Listener<T> {
    match li
    case LNop => x
    case LAnnounce => x.(barrier := x.barrier.Announcing(t))
    case LAcquire => x
    case LRelease => x.(barrier := x.barrier.OutOfStatusArea())
    case LClose => x.(chan := x.chan.(closed := true))
    case LMark => x.(barrier := x.barrier.MarkStopped())
    case LEnter => x.(barrier := x.barrier.Entering(t))
    case LLeave => x.(barrier := x.barrier.Out(t))
    case LPush(i, m) => x.(chan := x.chan.(buf := x.chan.buf + [m]), tries := x.tries + [Try(i, Delivered)])
    case LRecord(i, o) => x.(tries := x.tries + [Try(i, o)])
  }

  function ListenersAfter<T>(ls: map<Lid, Listener<T>>, t: Tid, i: Instr<T>, now: nat): map<Lid, Listener<T>> {
    match i
    case Store(l) => ls[l := NewListener(now)]
    case Delete(l) => if l in ls then ls[l := ls[l].(presence := Removed(now, t))] else ls
    case On(l, li) => if l in ls then ls[l := LAfter(ls[l], t, li)] else ls
    case _ => ls
  }

  function ProcsAfter<T>(ps: map<Tid, Pc<T>>, t: Tid, i: Instr<T>, pc: Pc<T>): map<Tid, Pc<T>> {
    match i
    case GoSender(m) => ps[t := pc][Async(t.n) := Sender(m)]
    case GoWorker => ps[t := pc][Worker(t.n) := Select]
    case _ => ps[t := pc]
  }

  function ClockAfter<T>(now: nat, i: Instr<T>): nat {
    if i.Store? || i.Delete? || i.RangeBegin? || i.RangeEnd? then now + 1 else now
  }

  function RoundsAfter<T>(rs: map<nat, Round>, n: nat, now: nat, i: Instr<T>): map<nat, Round> {
    match i
    case Recv => rs[n := Running]
    case RangeEnd(k, since) => rs[k := Finished(since, now)]
    case RangeCut(k) => rs[k := Cut]
    case _ => rs
  }

  function LogAfter<T>(g: Log<T>, c: Chan<T>, t: Tid, i: Instr<T>): Log<T> {
    Log(ClockAfter(g.clock, i),
        if i.GoWorker? then Some(t.n) else g.worker,
        g.stopped || i.SetStopped?,
        if i.Admit? then g.admitted + [i.m] else g.admitted,
        if i.Push? then g.accepted + [i.m] else g.accepted,
        if i.Recv? then g.deq + [Front(c)] else g.deq,
        if i.Lapse? then g.lapsed + {i.id} else g.lapsed,
        RoundsAfter(g.rounds, |g.deq|, g.clock, i))
  }

  /** Thread `t` executes `i` and goes on to `pc`. */
  function Exec<T>(s: State<T>, t: Tid, i: Instr<T>, pc: Pc<T>): State<T> {
    State(BarrierAfter(s.barrier, t, i),
          s.cancelled || i.CancelCtx?,
          WgAfter(s.wg, i),
          ChanAfter(s.chan, i),
          ListenersAfter(s.listeners, t, i, s.log.clock),
          ProcsAfter(s.procs, t, i, pc),
          s.panicked,
          LogAfter(s.log, s.chan, t, i))
  }

  // ---------- code ----------

  /** How a thread resolves a choice: go on, let its timer fire, visit a key, end a loop. */
  datatype Choice = Go | Timeout | Pick(l: Lid) | Finish

  /** An instruction and the program counter after it. */
  datatype Line<T> = Line(i: Instr<T>, pc: Pc<T>)

  predicate InMap<T>(s: State<T>, l: Lid) { l in s.listeners && s.listeners[l].presence.Present? }

  predicate ListenerStopped<T>(s: State<T>, l: Lid) { l in s.listeners && s.listeners[l].barrier.IsStopped() }

  /** Range may yield a key that was present at some moment since the Range began ... */
  predicate MayVisit<T>(s: State<T>, sw: Sweep, l: Lid) {
    && l in s.listeners && l !in sw.seen
    && (s.listeners[l].presence.Present? || s.listeners[l].presence.at > sw.since)
  }

  /** ... and it must have yielded every key that has been present all along before it ends. */
  predicate MayFinish<T>(s: State<T>, sw: Sweep) {
    forall l :: l in s.listeners ==>
      s.listeners[l].presence.Present? && s.listeners[l].born < sw.since ==> l in sw.seen
  }

  predicate IsWrite<T>(op: Op<T>) { op.Write? || op.WriteSync? }

  /** Listener.stop, one line. */
  function StageInstr<T>(stage: Stage): LInstr<T> {
    match stage
    case SEnter => LAnnounce
    case SDrain => LAcquire
    case SCheck => LNop
    case SClose => LClose
    case SMark => LMark
    case SOut => LRelease
  }

  function StageNext(stage: Stage, stopped: bool): Stage {
    match stage
    case SEnter => SDrain
    case SDrain => SCheck
    case SCheck => if stopped then SOut else SClose
    case SClose => SMark
    case _ => SOut
  }

  /** The calls Subscribe, Unsubscribe, IsSubscribed, IsStopped, Write and WriteSync. */
  function ReadCode<T>(s: State<T>, t: Tid, pc: Pc<T>, c: Choice): Option<Line<T>> {
    match pc
    case Enter(op) => if c.Go? then Some(Line(REnter, Check(op))) else None
    case Check(op) => if c.Go? then Some(CheckCode(s, t, op)) else None
    case Body(op) => BodyCode(s, t, op, c)
    case Unsub(l, stage) =>
      if c.Go? then
        Some(Line(On(l, StageInstr(stage)),
                  if stage.SOut? then Leave(Unsubscribe(l), Nil)
                  else Unsub(l, StageNext(stage, ListenerStopped(s, l)))))
      else None
    case Leave(op, res) => if c.Go? then Some(Line(RLeave, Done(op, res))) else None
    case Sender(m) =>
      if c.Go? then Some(Line(Push(m), SenderOut))
      else if c.Timeout? then Some(Line(Lapse(t.n), SenderOut)) else None
    case SenderOut => if c.Go? then Some(Line(RLeave, Gone)) else None
    case _ => None
  }

  function CheckCode<T>(s: State<T>, t: Tid, op: Op<T>): Line<T> {
    if op.IsStopped? then Line(Nop, Leave(op, Flag(s.barrier.IsStopped())))
    else if s.barrier.IsStopped() then Line(Nop, Leave(op, ErrStopped))
    else Line(if IsWrite(op) then Admit(Msg(t.n, op.value)) else Nop, Body(op))
  }

  function BodyCode<T>(s: State<T>, t: Tid, op: Op<T>, c: Choice): Option<Line<T>> {
    if op.WriteSync? && c.Timeout? then Some(Line(Lapse(t.n), Leave(op, Nil)))
    else if !c.Go? then None
    else
      match op
      case Subscribe => Some(Line(Store(t.n), Leave(op, Got(t.n))))
      case Unsubscribe(l) =>
        Some(if InMap(s, l) then Line(Delete(l), Unsub(l, SEnter)) else Line(Nop, Leave(op, Nil)))
      case IsSubscribed(l) => Some(Line(Nop, Leave(op, Flag(InMap(s, l)))))
      case Write(v) => Some(Line(GoSender(Msg(t.n, v)), Done(op, Nil)))
      case WriteSync(v) => Some(Line(Push(Msg(t.n, v)), Leave(op, Nil)))
      case _ => None
  }

  /** The calls Start and Stop. */
  function StatusCode<T>(s: State<T>, pc: Pc<T>, c: Choice): Option<Line<T>> {
    if pc.StopNext? then
      if c.Pick? && MayVisit(s, pc.sweep, c.l) then
        Some(Line(Nop, StopOne(pc.sweep.(seen := pc.sweep.seen + {c.l}), c.l, SEnter)))
      else if c.Finish? && MayFinish(s, pc.sweep) then Some(Line(Nop, StopClose))
      else None
    else if c.Go? then StatusGo(s, pc)
    else None
  }

  function StatusGo<T>(s: State<T>, pc: Pc<T>): Option<Line<T>> {
    match pc
    case Await(op) => Some(Line(WAnnounce, Drain(op)))
    case Drain(op) => Some(Line(WAcquire, Status(op)))
    case Status(op) =>
      Some(Line(Nop,
                if op.Start? then if s.barrier.IsStopped() then StartAdd else Unlock(op, Nil)
                else if s.barrier.IsStopped() then Unlock(op, ErrStopped) else StopCancel))
    case StartAdd => Some(Line(WgAdd, StartGo))
    case StartGo => Some(Line(GoWorker, StartMark))
    case StartMark => Some(Line(SetStarted, Unlock(Start, Nil)))
    case StopCancel => Some(Line(CancelCtx, StopWait))
    case StopWait => Some(Line(WgWait, StopRange))
    case StopRange => Some(Line(RangeBegin, StopNext(Sweep(s.log.clock, {}))))
    case StopOne(sw, l, stage) =>
      Some(Line(On(l, StageInstr(stage)),
                if stage.SOut? then StopDelete(sw, l)
                else StopOne(sw, l, StageNext(stage, ListenerStopped(s, l)))))
    case StopDelete(sw, l) => Some(Line(if InMap(s, l) then Delete(l) else Nop, StopNext(sw)))
    case StopClose => Some(Line(CloseChan, StopMark))
    case StopMark => Some(Line(SetStopped, Unlock(Stop, Nil)))
    case Unlock(op, res) => Some(Line(WRelease, Done(op, res)))
    case _ => None
  }

  /** The goroutine spawned by Start. */
  function WorkerCode<T>(s: State<T>, pc: Pc<T>, c: Choice): Option<Line<T>> {
    match pc
    case Select =>
      if c.Go? then Some(Line(Recv, Received(|s.log.deq|, Front(s.chan))))
      else if c.Finish? && s.cancelled then Some(Line(Nop, Exit)) else None
    case Next(job) =>
      if c.Pick? && MayVisit(s, job.sweep, c.l) then
        Some(Line(Nop, Visit(job.(sweep := job.sweep.(seen := job.sweep.seen + {c.l})), c.l)))
      else if c.Finish? && MayFinish(s, job.sweep) then Some(Line(RangeEnd(job.idx, job.sweep.since), Select))
      else None
    case LSend(job, l) =>
      if c.Go? then Some(Line(On(l, LPush(job.idx, job.msg)), LOut(job, l)))
      else if c.Timeout? then Some(Line(On(l, LRecord(job.idx, Expired)), LOut(job, l))) else None
    case _ => if c.Go? then WorkerGo(s, pc) else None
  }

  function WorkerGo<T>(s: State<T>, pc: Pc<T>): Option<Line<T>> {
    match pc
    case Received(i, m) => Some(Line(RangeBegin, Next(Job(i, m, Sweep(s.log.clock, {})))))
    case Visit(job, l) => Some(if s.cancelled then Line(RangeCut(job.idx), Select) else Line(Nop, LEntering(job, l)))
    case LEntering(job, l) => Some(Line(On(l, LEnter), LCheck(job, l)))
    case LCheck(job, l) =>
      Some(if ListenerStopped(s, l) then Line(On(l, LRecord(job.idx, Refused)), LOut(job, l))
           else Line(Nop, LSend(job, l)))
    case LOut(job, l) => Some(Line(On(l, LLeave), Next(job)))
    case Exit => Some(Line(WgDone, Gone))
    case _ => None
  }

  predicate IsReadPc<T>(pc: Pc<T>) {
    pc.Enter? || pc.Check? || pc.Body? || pc.Unsub? || pc.Leave? || pc.Sender? || pc.SenderOut?
  }

  predicate IsWorkerPc<T>(pc: Pc<T>) {
    pc.Select? || pc.Received? || pc.Next? || pc.Visit? || pc.LEntering? || pc.LCheck? || pc.LSend? || pc.LOut?
      || pc.Exit?
  }

  function Code<T>(s: State<T>, t: Tid, pc: Pc<T>, c: Choice): Option<Line<T>> {
    if IsReadPc(pc) then ReadCode(s, t, pc, c)
    else if IsWorkerPc(pc) then WorkerCode(s, pc, c)
    else StatusCode(s, pc, c)
  }

  // ---------- actions and runs ----------

  /** A new call, a step of a thread, cancellation by the parent context, a receive by a listener's user. */
  datatype Act<T> = Begin(n: nat, op: Op<T>) | Do(t: Tid, c: Choice) | Cancel | Take(l: Lid)

  function Step<T>(s: State<T>, t: Tid, c: Choice): Option<State<T>>
    requires t in s.procs
  {
    match Code(s, t, s.procs[t], c)
    case None => None
    case Some(Line(i, pc)) =>
      if Faults(s, t, i) then Some(s.(panicked := true))
      else if Ready(s, i) then Some(Exec(s, t, i, pc))
      else None
  }

  function Taken<T>(x: Listener<T>): Listener<T>
    requires x.chan.buf != []
  {
    x.(chan := x.chan.(buf := x.chan.buf[1..]), taken := x.taken + [x.chan.buf[0]])
  }

  /** The state after an action, if the action is possible. */
  function Apply<T>(s: State<T>, a: Act<T>): Option<State<T>> {
    if s.panicked then None
    else
      match a
      case Begin(n, op) =>
        if Call(n) in s.procs then None
        else Some(s.(procs := s.procs[Call(n) := if op.Start? || op.Stop? then Await(op) else Enter(op)]))
      case Do(t, c) => if t in s.procs then Step(s, t, c) else None
      case Cancel => if s.cancelled then None else Some(s.(cancelled := true))
      case Take(l) =>
        if l in s.listeners && s.listeners[l].chan.buf != [] then
          Some(s.(listeners := s.listeners[l := Taken(s.listeners[l])]))
        else None
  }

  /** A Start call about to spawn another worker, after a Stop has succeeded. */
  ghost predicate Restarts<T>(s: State<T>, a: Act<T>) {
    a.Do? && a.t in s.procs && s.procs[a.t] == Status(Start) && s.barrier.IsStopped() && s.log.stopped
  }

  /** The actions lead from s to z, and none of them restarts a stopped broadcaster. */
  ghost predicate Runs<T>(s: State<T>, acts: seq<Act<T>>, z: State<T>)
    decreases |acts|
  {
    if acts == [] then s == z
    else !Restarts(s, acts[0]) && Apply(s, acts[0]).Some? && Runs(Apply(s, acts[0]).value, acts[1..], z)
  }

  function At<T>(s: State<T>, t: Tid): Pc<T> { if t in s.procs then s.procs[t] else Gone }
}
