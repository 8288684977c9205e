/**
 The code of the threads read backwards: which program counters execute an instruction, where a
 program counter is reached from, and what a line does to the roles of its thread.
 */
module BroadcasterCode {
  import opened Wrappers
  import opened StatusBarrier
  import opened Broadcaster

  /** The worker is at a listener. */
  predicate IsListenerPc<T>(pc: Pc<T>) { pc.Visit? || pc.LEntering? || pc.LCheck? || pc.LSend? || pc.LOut? }

  /** Stop goes over the listeners. */
  predicate IsSweepPc<T>(pc: Pc<T>) { pc.StopRange? || pc.StopNext? || pc.StopOne? || pc.StopDelete? }

  /** The role of a thread for the broadcaster's barrier.  A Write call hands its token to Async. */
  function BRole<T>(pc: Pc<T>): Role {
    match pc
    case Check(_) => Reader
    case Body(_) => Reader
    case Unsub(_, _) => Reader
    case Leave(_, _) => Reader
    case Sender(_) => Reader
    case SenderOut => Reader
    case Drain(_) => Drainer
    case Status(_) => Owner
    case StartAdd => Owner
    case StartGo => Owner
    case StartMark => Owner
    case StopCancel => Owner
    case StopWait => Owner
    case StopRange => Owner
    case StopNext(_) => Owner
    case StopOne(_, _, _) => Owner
    case StopDelete(_, _) => Owner
    case StopClose => Owner
    case StopMark => Owner
    case Unlock(_, _) => Owner
    case _ => Outside
  }

  function StageRole(stage: Stage): Role {
    if stage.SEnter? then Outside else if stage.SDrain? then Drainer else Owner
  }

  /** The role of a thread for the barrier of listener `l`. */
  function LRole<T>(pc: Pc<T>, l: Lid): Role {
    match pc
    case Unsub(k, stage) => if k == l then StageRole(stage) else Outside
    case StopOne(_, k, stage) => if k == l then StageRole(stage) else Outside
    case LCheck(_, k) => if k == l then Reader else Outside
    case LSend(_, k) => if k == l then Reader else Outside
    case LOut(_, k) => if k == l then Reader else Outside
    case _ => Outside
  }

  // ---------- which program counters execute an instruction ----------

  ghost predicate Executes<T>(s: State<T>, t: Tid, pc: Pc<T>, i: Instr<T>) {
    !pc.Done? && !pc.Gone? &&
    match i
    case Nop => true
    case REnter => pc.Enter?
    case RLeave => pc.Leave? || pc.SenderOut?
    case WAnnounce => pc.Await?
    case WAcquire => pc.Drain?
    case WRelease => pc.Unlock?
    case SetStarted => pc.StartMark?
    case SetStopped => pc.StopMark?
    case Admit(m) => pc.Check? && IsWrite(pc.op) && m == Msg(t.n, pc.op.value) && s.barrier.started
    case GoSender(m) => m.Msg? && pc == Body(Write(m.value)) && m.id == t.n
    case GoWorker => pc.StartGo?
    case Push(m) => pc == Sender(m) || (m.Msg? && pc == Body(WriteSync(m.value)) && m.id == t.n)
    case Lapse(id) => id == t.n && (pc.Sender? || (pc.Body? && pc.op.WriteSync?))
    case Recv => pc.Select?
    case CloseChan => pc.StopClose?
    case CancelCtx => pc.StopCancel?
    case WgAdd => pc.StartAdd?
    case WgDone => pc.Exit?
    case WgWait => pc.StopWait?
    case Store(l) => pc == Body(Subscribe) && l == t.n
    case Delete(l) => (pc == Body(Unsubscribe(l)) || (pc.StopDelete? && pc.l == l)) && InMap(s, l)
    case RangeBegin => pc.StopRange? || pc.Received?
    case RangeEnd(k, since) => pc.Next? && k == pc.job.idx && since == pc.job.sweep.since && MayFinish(s, pc.job.sweep)
    case RangeCut(k) => pc.Visit? && k == pc.job.idx && s.cancelled
    case On(l, li) => ExecutesOn(s, pc, l, li)
  }

  ghost predicate ExecutesOn<T>(s: State<T>, pc: Pc<T>, l: Lid, li: LInstr<T>) {
    match li
    case LEnter => pc.LEntering? && pc.l == l
    case LLeave => pc.LOut? && pc.l == l
    case LPush(k, m) => pc.LSend? && pc.l == l && k == pc.job.idx && m == pc.job.msg
    case LRecord(k, o) =>
      (pc.LCheck? || pc.LSend?) && pc.l == l && k == pc.job.idx &&
      (if pc.LCheck? then o.Refused? && ListenerStopped(s, l) else o.Expired?)
    case _ => (pc.Unsub? || pc.StopOne?) && pc.l == l && li == StageInstr(pc.stage)
  }

  lemma ReadExecutes<T>(s: State<T>, t: Tid, pc: Pc<T>, c: Choice, i: Instr<T>, q: Pc<T>)
    requires ReadCode(s, t, pc, c) == Some(Line(i, q))
    ensures Executes(s, t, pc, i)
  {
    if pc.Body? {
      hide ReadCode, Executes;
      BodyExecutes(s, t, pc, c, i, q);
    } else {
      hide BodyCode, InMap, ListenerStopped, StageNext;
    }
  }

  lemma BodyExecutes<T>(s: State<T>, t: Tid, pc: Pc<T>, c: Choice, i: Instr<T>, q: Pc<T>)
    requires pc.Body? && ReadCode(s, t, pc, c) == Some(Line(i, q))
    ensures Executes(s, t, pc, i)
  {
    hide InMap;
  }

  lemma StatusExecutes<T>(s: State<T>, t: Tid, pc: Pc<T>, c: Choice, i: Instr<T>, q: Pc<T>)
    requires StatusCode(s, pc, c) == Some(Line(i, q))
    ensures Executes(s, t, pc, i)
  {
    if IsSweepPc(pc) {
      hide StatusCode, Executes;
      SweepExecutes(s, t, pc, c, i, q);
    } else {
      hide MayVisit, MayFinish, ListenerStopped;
    }
  }

  lemma SweepExecutes<T>(s: State<T>, t: Tid, pc: Pc<T>, c: Choice, i: Instr<T>, q: Pc<T>)
    requires IsSweepPc(pc) && StatusCode(s, pc, c) == Some(Line(i, q))
    ensures Executes(s, t, pc, i)
  {
    hide MayVisit, MayFinish, ListenerStopped, StageNext;
  }

  lemma WorkerExecutes<T>(s: State<T>, t: Tid, pc: Pc<T>, c: Choice, i: Instr<T>, q: Pc<T>)
    requires WorkerCode(s, pc, c) == Some(Line(i, q))
    ensures Executes(s, t, pc, i)
  {
    if IsListenerPc(pc) {
      hide WorkerCode, Executes;
      ListenerExecutes(s, t, pc, c, i, q);
    } else {
      hide MayVisit, MayFinish, ListenerStopped;
    }
  }

  lemma ListenerExecutes<T>(s: State<T>, t: Tid, pc: Pc<T>, c: Choice, i: Instr<T>, q: Pc<T>)
    requires IsListenerPc(pc) && WorkerCode(s, pc, c) == Some(Line(i, q))
    ensures Executes(s, t, pc, i)
  {
    hide MayVisit, MayFinish, ListenerStopped;
    if pc.LSend? || pc.LCheck? {
      hide WorkerCode, Executes;
      AttemptExecutes(s, t, pc, c, i, q);
    }
  }

  lemma AttemptExecutes<T>(s: State<T>, t: Tid, pc: Pc<T>, c: Choice, i: Instr<T>, q: Pc<T>)
    requires (pc.LSend? || pc.LCheck?) && WorkerCode(s, pc, c) == Some(Line(i, q))
    ensures Executes(s, t, pc, i)
  {
    hide ListenerStopped;
  }

  // ---------- where a program counter is reached from ----------

  ghost predicate Arrives<T>(s: State<T>, t: Tid, pc: Pc<T>, i: Instr<T>, q: Pc<T>) {
    match q
    case Check(op) => pc == Enter(op)
    case Body(op) => pc == Check(op) && !op.IsStopped? && s.barrier.started
      && i == if IsWrite(op) then Admit(Msg(t.n, op.value)) else Nop
    case Unsub(l, stage) =>
      || (pc == Body(Unsubscribe(l)) && i == Delete(l) && stage.SEnter? && InMap(s, l))
      || (pc.Unsub? && pc.l == l && i == On(l, StageInstr(pc.stage)) && !pc.stage.SOut? &&
          stage == StageNext(pc.stage, ListenerStopped(s, l)))
    case Leave(op, res) =>
      || (pc == Check(op) && i.Nop? && (op.IsStopped? || s.barrier.IsStopped()) &&
          res == if op.IsStopped? then Flag(s.barrier.IsStopped()) else ErrStopped)
      || (pc == Body(op) && op.Subscribe? && i == Store(t.n) && res == Got(t.n))
      || (pc == Body(op) && op.Unsubscribe? && i.Nop? && res.Nil? && !InMap(s, op.l))
      || (pc == Body(op) && op.IsSubscribed? && i.Nop? && res == Flag(InMap(s, op.l)))
      || (pc == Body(op) && op.WriteSync? && (i == Push(Msg(t.n, op.value)) || i == Lapse(t.n)) && res.Nil?)
      || (pc.Unsub? && pc.stage.SOut? && op == Unsubscribe(pc.l) && i == On(pc.l, LRelease) && res.Nil?)
    case SenderOut => pc.Sender? && (i == Push(pc.m) || i == Lapse(t.n))
    case Drain(op) => pc == Await(op)
    case Status(op) => pc == Drain(op)
    case StartAdd => pc == Status(Start) && i.Nop? && s.barrier.IsStopped()
    case StartGo => pc.StartAdd? && i.WgAdd?
    case StartMark => pc.StartGo? && i.GoWorker?
    case StopCancel => pc.Status? && !pc.op.Start? && i.Nop? && s.barrier.started
    case StopWait => pc.StopCancel? && i.CancelCtx?
    case StopRange => pc.StopWait? && i.WgWait?
    case StopNext(sw) =>
      || (pc.StopRange? && i.RangeBegin? && sw == Sweep(s.log.clock, {}))
      || (pc.StopDelete? && pc.sweep == sw && i == if InMap(s, pc.l) then Delete(pc.l) else Nop)
    case StopOne(sw, l, stage) =>
      || (pc.StopNext? && i.Nop? && MayVisit(s, pc.sweep, l) && sw == pc.sweep.(seen := pc.sweep.seen + {l})
        && stage.SEnter?)
      || (pc.StopOne? && pc.l == l && pc.sweep == sw && i == On(l, StageInstr(pc.stage)) && !pc.stage.SOut? &&
          stage == StageNext(pc.stage, ListenerStopped(s, l)))
    case StopDelete(sw, l) => pc == StopOne(sw, l, SOut) && i == On(l, LRelease)
    case StopClose => pc.StopNext? && i.Nop? && MayFinish(s, pc.sweep)
    case StopMark => pc.StopClose? && i.CloseChan?
    case Unlock(op, res) =>
      || (pc == Status(op) && i.Nop? &&
          (if op.Start? then res.Nil? && s.barrier.started else res.ErrStopped? && !s.barrier.started))
      || (pc.StartMark? && i.SetStarted? && op.Start? && res.Nil?)
      || (pc.StopMark? && i.SetStopped? && op.Stop? && res.Nil?)
    case Select =>
      || (pc.Next? && i == RangeEnd(pc.job.idx, pc.job.sweep.since))
      || (pc.Visit? && i == RangeCut(pc.job.idx))
    case Received(k, m) => pc.Select? && i.Recv? && k == |s.log.deq| && m == Front(s.chan)
    case Next(job) =>
      || (pc == Received(job.idx, job.msg) && i.RangeBegin? && job.sweep == Sweep(s.log.clock, {}))
      || (pc.LOut? && pc.job == job && i == On(pc.l, LLeave))
    case Visit(job, l) =>
      pc.Next? && i.Nop? && MayVisit(s, pc.job.sweep, l) &&
      job == pc.job.(sweep := pc.job.sweep.(seen := pc.job.sweep.seen + {l}))
    case LEntering(job, l) => pc == Visit(job, l) && i.Nop? && !s.cancelled
    case LCheck(job, l) => pc == LEntering(job, l) && i == On(l, LEnter)
    case LSend(job, l) => pc == LCheck(job, l) && i.Nop? && !ListenerStopped(s, l)
    case LOut(job, l) =>
      || (pc == LCheck(job, l) && i == On(l, LRecord(job.idx, Refused)))
      || (pc == LSend(job, l) && (i == On(l, LPush(job.idx, job.msg)) || i == On(l, LRecord(job.idx, Expired))))
    case Exit => pc.Select? && i.Nop? && s.cancelled
    case Done(op, res) =>
      || (pc == Leave(op, res) && i.RLeave?) || (pc == Unlock(op, res) && i.WRelease?)
      || (pc == Body(op) && op.Write? && res.Nil? && i == GoSender(Msg(t.n, op.value)))
    case Gone => (pc.SenderOut? && i.RLeave?) || (pc.Exit? && i.WgDone?)
    case _ => false
  }

  lemma ReadArrives<T>(s: State<T>, t: Tid, pc: Pc<T>, c: Choice, i: Instr<T>, q: Pc<T>)
    requires ReadCode(s, t, pc, c) == Some(Line(i, q))
    ensures Arrives(s, t, pc, i, q)
  {
    hide MayVisit, MayFinish, InMap, ListenerStopped, StageNext, StageInstr;
    match pc
    case Unsub(l, stage) => StageEnd<T>(stage);
    case Body(_) =>
      hide ReadCode, Arrives;
      BodyArrives(s, t, pc, c, i, q);
    case Check(_) =>
      hide ReadCode, Arrives;
      CheckArrives(s, t, pc, c, i, q);
    case _ => hide BodyCode, CheckCode;
  }

  lemma CheckArrives<T>(s: State<T>, t: Tid, pc: Pc<T>, c: Choice, i: Instr<T>, q: Pc<T>)
    requires pc.Check? && ReadCode(s, t, pc, c) == Some(Line(i, q))
    ensures Arrives(s, t, pc, i, q)
  {
    hide InMap, StageNext, StageInstr, ListenerStopped;
  }

  lemma BodyArrives<T>(s: State<T>, t: Tid, pc: Pc<T>, c: Choice, i: Instr<T>, q: Pc<T>)
    requires pc.Body? && ReadCode(s, t, pc, c) == Some(Line(i, q))
    ensures Arrives(s, t, pc, i, q)
  {
    hide InMap, StageNext, StageInstr, ListenerStopped;
  }

  lemma StageEnd<T>(stage: Stage)
    ensures StageInstr<T>(SOut) == LRelease
  {
  }

  lemma StatusArrives<T>(s: State<T>, t: Tid, pc: Pc<T>, c: Choice, i: Instr<T>, q: Pc<T>)
    requires StatusCode(s, pc, c) == Some(Line(i, q))
    ensures Arrives(s, t, pc, i, q)
  {
    if IsSweepPc(pc) {
      hide StatusCode, Arrives;
      SweepArrives(s, t, pc, c, i, q);
    } else {
      hide MayVisit, MayFinish, InMap, ListenerStopped;
    }
  }

  lemma SweepArrives<T>(s: State<T>, t: Tid, pc: Pc<T>, c: Choice, i: Instr<T>, q: Pc<T>)
    requires IsSweepPc(pc) && StatusCode(s, pc, c) == Some(Line(i, q))
    ensures Arrives(s, t, pc, i, q)
  {
    hide MayVisit, MayFinish, InMap, ListenerStopped, StageNext;
  }

  lemma WorkerArrives<T>(s: State<T>, t: Tid, pc: Pc<T>, c: Choice, i: Instr<T>, q: Pc<T>)
    requires WorkerCode(s, pc, c) == Some(Line(i, q))
    ensures Arrives(s, t, pc, i, q)
  {
    if IsListenerPc(pc) {
      hide WorkerCode, Arrives;
      ListenerArrives(s, t, pc, c, i, q);
    } else {
      hide MayVisit, MayFinish, InMap, ListenerStopped, Front;
    }
  }

  lemma ListenerArrives<T>(s: State<T>, t: Tid, pc: Pc<T>, c: Choice, i: Instr<T>, q: Pc<T>)
    requires IsListenerPc(pc) && WorkerCode(s, pc, c) == Some(Line(i, q))
    ensures Arrives(s, t, pc, i, q)
  {
    hide MayVisit, MayFinish, InMap, ListenerStopped, Front;
    if pc.LSend? || pc.LCheck? {
      hide WorkerCode, Arrives;
      AttemptArrives(s, t, pc, c, i, q);
    }
  }

  lemma AttemptArrives<T>(s: State<T>, t: Tid, pc: Pc<T>, c: Choice, i: Instr<T>, q: Pc<T>)
    requires (pc.LSend? || pc.LCheck?) && WorkerCode(s, pc, c) == Some(Line(i, q))
    ensures Arrives(s, t, pc, i, q)
  {
    hide ListenerStopped;
  }

  // ---------- what an instruction does to the role of the thread that executes it ----------

  ghost predicate RoleStep<T>(i: Instr<T>, r: Role, r': Role) {
    match i
    case REnter => r.Outside? && r'.Reader?
    case RLeave => r.Reader? && r'.Outside?
    case GoSender(_) => r.Reader? && r'.Outside?
    case WAnnounce => r.Outside? && r'.Drainer?
    case WAcquire => r.Drainer? && r'.Owner?
    case WRelease => r.Owner? && r'.Outside?
    case _ => r' == r
  }

  ghost predicate LRoleStep<T>(i: Instr<T>, l: Lid, r: Role, r': Role) {
    if i.On? && i.l == l then
      match i.li
      case LEnter => r.Outside? && r'.Reader?
      case LLeave => r.Reader? && r'.Outside?
      case LAnnounce => r.Outside? && r'.Drainer?
      case LAcquire => r.Drainer? && r'.Owner?
      case LRelease => r.Owner? && r'.Outside?
      case _ => r' == r
    else r' == r
  }

  ghost predicate Moves<T>(pc: Pc<T>, i: Instr<T>, q: Pc<T>) {
    && RoleStep(i, BRole(pc), BRole(q))
    && (forall l :: LRoleStep(i, l, LRole(pc, l), LRole(q, l)))
  }

  lemma ReadMoves<T>(s: State<T>, t: Tid, pc: Pc<T>, c: Choice, i: Instr<T>, q: Pc<T>)
    requires ReadCode(s, t, pc, c) == Some(Line(i, q))
    ensures Moves(pc, i, q)
  {
    hide InMap, ListenerStopped;
    if pc.Unsub? {
      hide ReadCode, Moves;
      UnsubMoves(s, t, pc, c, i, q);
    }
  }

  lemma UnsubMoves<T>(s: State<T>, t: Tid, pc: Pc<T>, c: Choice, i: Instr<T>, q: Pc<T>)
    requires pc.Unsub? && ReadCode(s, t, pc, c) == Some(Line(i, q))
    ensures Moves(pc, i, q)
  {
    hide InMap, ListenerStopped;
  }

  lemma StatusMoves<T>(s: State<T>, pc: Pc<T>, c: Choice, i: Instr<T>, q: Pc<T>)
    requires StatusCode(s, pc, c) == Some(Line(i, q))
    ensures Moves(pc, i, q)
  {
    if IsSweepPc(pc) {
      hide StatusCode, Moves;
      SweepMoves(s, pc, c, i, q);
    } else {
      hide StatusCode, RoleStep, LRoleStep, BRole, LRole;
      StatusBMoves(s, pc, c, i, q);
      forall l ensures LRoleStep(i, l, LRole(pc, l), LRole(q, l)) { StatusLMoves(s, pc, c, i, q, l); }
    }
  }

  lemma StatusBMoves<T>(s: State<T>, pc: Pc<T>, c: Choice, i: Instr<T>, q: Pc<T>)
    requires !IsSweepPc(pc) && StatusCode(s, pc, c) == Some(Line(i, q))
    ensures RoleStep(i, BRole(pc), BRole(q))
  {
    hide MayVisit, MayFinish, InMap, ListenerStopped, Front;
  }

  lemma StatusLMoves<T>(s: State<T>, pc: Pc<T>, c: Choice, i: Instr<T>, q: Pc<T>, l: Lid)
    requires !IsSweepPc(pc) && StatusCode(s, pc, c) == Some(Line(i, q))
    ensures LRoleStep(i, l, LRole(pc, l), LRole(q, l))
  {
    hide MayVisit, MayFinish, InMap, ListenerStopped, Front;
  }

  lemma SweepMoves<T>(s: State<T>, pc: Pc<T>, c: Choice, i: Instr<T>, q: Pc<T>)
    requires IsSweepPc(pc) && StatusCode(s, pc, c) == Some(Line(i, q))
    ensures Moves(pc, i, q)
  {
    hide MayVisit, MayFinish, InMap, ListenerStopped, StageNext;
    if pc.StopOne? {
      hide StatusCode, Moves;
      StopOneMoves(s, pc, c, i, q);
    }
  }

  lemma StopOneMoves<T>(s: State<T>, pc: Pc<T>, c: Choice, i: Instr<T>, q: Pc<T>)
    requires pc.StopOne? && StatusCode(s, pc, c) == Some(Line(i, q))
    ensures Moves(pc, i, q)
  {
    hide MayVisit, MayFinish, InMap, ListenerStopped;
  }

  lemma WorkerMoves<T>(s: State<T>, pc: Pc<T>, c: Choice, i: Instr<T>, q: Pc<T>)
    requires WorkerCode(s, pc, c) == Some(Line(i, q))
    ensures Moves(pc, i, q)
  {
    if IsListenerPc(pc) {
      hide WorkerCode, Moves;
      ListenerMoves(s, pc, c, i, q);
    } else {
      hide WorkerCode, RoleStep, LRoleStep, BRole, LRole;
      WorkerBMoves(s, pc, c, i, q);
      forall l ensures LRoleStep(i, l, LRole(pc, l), LRole(q, l)) { WorkerLMoves(s, pc, c, i, q, l); }
    }
  }

  lemma WorkerBMoves<T>(s: State<T>, pc: Pc<T>, c: Choice, i: Instr<T>, q: Pc<T>)
    requires !IsListenerPc(pc) && WorkerCode(s, pc, c) == Some(Line(i, q))
    ensures RoleStep(i, BRole(pc), BRole(q))
  {
    hide MayVisit, MayFinish, InMap, ListenerStopped, Front;
  }

  lemma WorkerLMoves<T>(s: State<T>, pc: Pc<T>, c: Choice, i: Instr<T>, q: Pc<T>, l: Lid)
    requires !IsListenerPc(pc) && WorkerCode(s, pc, c) == Some(Line(i, q))
    ensures LRoleStep(i, l, LRole(pc, l), LRole(q, l))
  {
    hide MayVisit, MayFinish, InMap, ListenerStopped, Front;
  }

  lemma ListenerMoves<T>(s: State<T>, pc: Pc<T>, c: Choice, i: Instr<T>, q: Pc<T>)
    requires IsListenerPc(pc) && WorkerCode(s, pc, c) == Some(Line(i, q))
    ensures Moves(pc, i, q)
  {
    hide MayVisit, MayFinish, InMap, ListenerStopped, Front;
    if pc.LSend? || pc.LCheck? {
      hide WorkerCode, Moves;
      AttemptMoves(s, pc, c, i, q);
    }
  }

  lemma AttemptMoves<T>(s: State<T>, pc: Pc<T>, c: Choice, i: Instr<T>, q: Pc<T>)
    requires (pc.LSend? || pc.LCheck?) && WorkerCode(s, pc, c) == Some(Line(i, q))
    ensures Moves(pc, i, q)
  {
    hide ListenerStopped;
  }

  lemma CodeTables<T>(s: State<T>, t: Tid, pc: Pc<T>, c: Choice, i: Instr<T>, q: Pc<T>)
    requires Code(s, t, pc, c) == Some(Line(i, q))
    ensures Executes(s, t, pc, i) && Arrives(s, t, pc, i, q) && Moves(pc, i, q)
  {
    hide ReadCode, WorkerCode, StatusCode, Executes, Arrives, Moves;
    if IsReadPc(pc) {
      ReadExecutes(s, t, pc, c, i, q); ReadArrives(s, t, pc, c, i, q); ReadMoves(s, t, pc, c, i, q);
    } else if IsWorkerPc(pc) {
      WorkerExecutes(s, t, pc, c, i, q); WorkerArrives(s, t, pc, c, i, q); WorkerMoves(s, pc, c, i, q);
    } else {
      StatusExecutes(s, t, pc, c, i, q); StatusArrives(s, t, pc, c, i, q); StatusMoves(s, pc, c, i, q);
    }
  }
}
