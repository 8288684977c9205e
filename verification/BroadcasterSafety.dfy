/** No run that does not restart a stopped broadcaster faults. */
module BroadcasterSafety {
  import opened Wrappers
  import opened StatusBarrier
  import opened Broadcaster
  import opened BroadcasterCode
  import opened BroadcasterLocks

  /** Where the thread is that has announced itself at the broadcaster's barrier. */
  function Holder<T>(s: State<T>): Pc<T> { if s.barrier.writer.Some? then At(s, s.barrier.writer.value) else Gone }

  function LHolder<T>(s: State<T>, l: Lid): Pc<T>
    requires l in s.listeners
  {
    var w := s.listeners[l].barrier.writer;
    if w.Some? then At(s, w.value) else Gone
  }

  predicate WorkerLive<T>(s: State<T>) { s.log.worker.Some? && !At(s, Worker(s.log.worker.value)).Gone? }

  /** What the code of Start and Stop may rely on while it owns the barrier. */
  ghost predicate HolderOk<T>(s: State<T>, pc: Pc<T>) {
    match pc
    case StartAdd => !s.barrier.started && !s.log.stopped && s.log.worker.None?
    case StartGo => !s.barrier.started && !s.log.stopped && s.log.worker.None?
    case StartMark => !s.barrier.started && !s.log.stopped && s.log.worker.Some?
    case StopCancel => s.barrier.started
    case StopWait => s.barrier.started && s.cancelled
    case StopRange => AfterWait(s)
    case StopNext(_) => AfterWait(s)
    case StopOne(_, _, _) => AfterWait(s)
    case StopDelete(_, _) => AfterWait(s)
    case StopClose => AfterWait(s)
    case StopMark => AfterWait(s) && s.chan.closed
    case _ => true
  }

  ghost predicate AfterWait<T>(s: State<T>) { s.barrier.started && s.cancelled && !WorkerLive(s) }

  ghost predicate LifeOk<T>(s: State<T>) {
    && HolderOk(s, Holder(s))
    && (s.log.stopped ==> !s.barrier.started && s.chan.closed && s.cancelled && !WorkerLive(s))
    && (s.chan.closed && !s.log.stopped ==> Holder(s).StopMark?)
    && (s.log.worker.None? ==> !s.barrier.started && !s.log.stopped)
    && (s.log.worker.Some? ==> s.barrier.started || s.log.stopped || Holder(s).StartMark?)
    && s.wg == (if WorkerLive(s) then 1 else 0) + (if Holder(s).StartGo? then 1 else 0)
  }

  ghost predicate WorkersOk<T>(s: State<T>) {
    && (forall n: nat {:trigger Worker(n)} :: Worker(n) in s.procs ==> s.log.worker == Some(n))
    && (s.log.worker.Some? ==> Worker(s.log.worker.value) in s.procs)
  }

  ghost predicate StageOk<T>(x: Listener<T>, stage: Stage) {
    match stage
    case SClose => x.barrier.started && !x.chan.closed
    case SMark => x.barrier.started && x.chan.closed
    case SOut => !x.barrier.started
    case _ => true
  }

  /** A thread past the check of a flag may rely on it. */
  ghost predicate PcOk<T>(s: State<T>, pc: Pc<T>) {
    match pc
    case Body(_) => s.barrier.started
    case Sender(_) => s.barrier.started
    case LSend(_, l) => !ListenerStopped(s, l)
    case StopDelete(_, l) => ListenerStopped(s, l)
    case Unsub(l, stage) => l in s.listeners && StageOk(s.listeners[l], stage)
    case StopOne(_, l, stage) => l in s.listeners && StageOk(s.listeners[l], stage)
    case _ => true
  }

  /** How far a thread is in stopping listener `l`. */
  function StageOf<T>(pc: Pc<T>, l: Lid): Option<Stage> {
    if (pc.Unsub? || pc.StopOne?) && pc.l == l then Some(pc.stage) else None
  }

  ghost predicate AtMark<T>(pc: Pc<T>, l: Lid) { StageOf(pc, l) == Some(SMark) }

  ghost predicate ClosedOk<T>(s: State<T>, l: Lid)
    requires l in s.listeners
  {
    var x := s.listeners[l];
    && (!x.barrier.started ==> x.chan.closed)
    && (x.chan.closed && x.barrier.started ==> AtMark(LHolder(s, l), l))
  }

  ghost predicate SafeInv<T>(s: State<T>) {
    && LocksOk(s) && LifeOk(s) && WorkersOk(s)
    && (forall t {:trigger At(s, t)} :: PcOk(s, At(s, t)))
    && (forall l :: l in s.listeners ==> ClosedOk(s, l))
  }

  // ---------- no fault ----------

  lemma NoFault<T>(s: State<T>, t: Tid, c: Choice, i: Instr<T>, q: Pc<T>)
    requires SafeInv(s) && t in s.procs && Code(s, t, s.procs[t], c) == Some(Line(i, q))
    ensures !Faults(s, t, i)
  {
    hide Code, Arrives, Moves, Executes, LocksOk, LifeOk, WorkersOk, PcOk, ClosedOk, LFaults;
    CodeTables(s, t, s.procs[t], c, i, q);
    if i.On? && i.l in s.listeners { NoListenerFault(s, t, i); } else if !i.On? { NoBroadcasterFault(s, t, i); }
  }

  /** While someone is inside as a reader, the holder of the barrier is still waiting. */
  lemma NoOwner<T>(s: State<T>, t: Tid)
    requires BarrierOk(s) && t in s.barrier.readers
    ensures !BRole(Holder(s)).Owner?
  {
    if s.barrier.writer.Some? {
      var w := s.barrier.writer.value;
      assert RoleOk(s.barrier, w, BRole(At(s, w)));
    }
  }

  lemma NoLOwner<T>(s: State<T>, l: Lid, t: Tid)
    requires l in s.listeners && ListenerBarrierOk(s, l) && t in s.listeners[l].barrier.readers
    ensures !AtMark(LHolder(s, l), l)
  {
    if s.listeners[l].barrier.writer.Some? {
      var w := s.listeners[l].barrier.writer.value;
      assert RoleOk(s.listeners[l].barrier, w, LRole(At(s, w), l));
    }
  }

  lemma NoListenerFault<T>(s: State<T>, t: Tid, i: Instr<T>)
    requires SafeInv(s) && t in s.procs && i.On? && i.l in s.listeners && Executes(s, t, s.procs[t], i)
    ensures !Faults(s, t, i)
  {
    hide LocksOk, LifeOk, WorkersOk;
    var l := i.l;
    assert PcOk(s, At(s, t)) && ClosedOk(s, l) && ListenerBarrierOk(s, l) by { OpenLocks(s, t, l); }
    assert RoleOk(s.listeners[l].barrier, t, LRole(At(s, t), l));
    if t in s.listeners[l].barrier.readers { NoLOwner(s, l, t); }
  }

  lemma OpenLocks<T>(s: State<T>, t: Tid, l: Lid)
    requires LocksOk(s)
    ensures BarrierOk(s) && RoleOk(s.barrier, t, BRole(At(s, t)))
    ensures t in s.procs ==> ThreadOk(s, t)
    ensures l in s.listeners ==> ListenerBarrierOk(s, l) && RoleOk(s.listeners[l].barrier, t, LRole(At(s, t), l))
  {
    hide RoleOk, LRole, BRole, ThreadOk;
  }

  lemma NoBroadcasterFault<T>(s: State<T>, t: Tid, i: Instr<T>)
    requires SafeInv(s) && t in s.procs && !i.On? && Executes(s, t, s.procs[t], i)
    ensures !Faults(s, t, i)
  {
    hide LocksOk, ExecutesOn, ClosedOk;
    assert PcOk(s, At(s, t));
    OpenLocks(s, t, 0);
    if t in s.barrier.readers { NoOwner(s, t); }
  }

  // ---------- every step keeps the invariant ----------

  /** The holder after a step. */
  lemma HolderAfter<T>(s: State<T>, t: Tid, i: Instr<T>, q: Pc<T>)
    requires BarrierOk(s) && Firing(s, t, i, q)
    ensures var z := Exec(s, t, i, q);
            if BRole(At(s, t)).Owner? || BRole(At(s, t)).Drainer? then
              Holder(s) == At(s, t) && Holder(z) == if i.WRelease? then Gone else q
            else if i.WAnnounce? then Holder(s) == Gone && Holder(z) == q
            else Holder(z) == Holder(s)
  {
    hide Arrives, Faults, ListenersAfter, LogAfter, ChanAfter, ProcsAfter, WgAfter, Executes, BRole, LRoleStep;
    Others(s, t, i, q);
    assert RoleOk(s.barrier, t, BRole(At(s, t)));
    if s.barrier.writer.Some? && s.barrier.writer != Some(t) {
      var w := s.barrier.writer.value;
      assert RoleOk(s.barrier, w, BRole(At(s, w)));
      NotSpawned(s, t, i, w);
    }
  }

  lemma NotSpawned<T>(s: State<T>, t: Tid, i: Instr<T>, w: Tid)
    requires SpawnsOk(s, t, i) && (BRole(At(s, w)).Owner? || BRole(At(s, w)).Drainer?)
    ensures !Spawned(w, t, i)
  {
  }

  /** The worker goroutine is live from the go statement of Start to its wg.Done. */
  lemma WorkerAfter<T>(s: State<T>, t: Tid, i: Instr<T>, q: Pc<T>)
    requires WorkersOk(s) && t in s.procs && ThreadOk(s, t) && Firing(s, t, i, q)
    ensures var z := Exec(s, t, i, q);
            WorkerLive(z) == (i.GoWorker? || (!i.WgDone? && WorkerLive(s)))
    ensures i.WgDone? ==> WorkerLive(s)
  {
    hide Moves, Faults, ListenersAfter, ChanAfter, ProcsAfter, WgAfter, BarrierAfter, ExecutesOn, StageNext,
      StageInstr, MayVisit, MayFinish, InMap, ListenerStopped, Ready, RoundsAfter, Front, BRole, SpawnsOk, Executes,
      Arrives;
    Others(s, t, i, q);
    WorkerEnds(s, t, At(s, t), i, q);
  }

  lemma WorkerEnds<T>(s: State<T>, t: Tid, pc: Pc<T>, i: Instr<T>, q: Pc<T>)
    requires Executes(s, t, pc, i) && Arrives(s, t, pc, i, q) && KindOk(t, pc)
    ensures !pc.Gone? && (i.WgDone? ==> t.Worker?) && (i.GoWorker? ==> t.Call?)
    ensures t.Worker? ==> (q.Gone? <==> i.WgDone?) && !i.GoWorker?
  {
    hide ExecutesOn, InMap, MayFinish, MayVisit, OpOk, StageInstr, StageNext, ListenerStopped, Front;
  }

  lemma WorkersStep<T>(s: State<T>, t: Tid, i: Instr<T>, q: Pc<T>)
    requires WorkersOk(s) && LifeOk(s) && BarrierOk(s) && Firing(s, t, i, q)
    ensures WorkersOk(Exec(s, t, i, q))
  {
    hide Moves, Faults, ListenersAfter, ChanAfter, ProcsAfter, WgAfter, BarrierAfter, Executes, Arrives, Ready,
      RoundsAfter, BRole, RoleOk, WorkerLive;
    Others(s, t, i, q);
    HolderAfter(s, t, i, q);
    if i.GoWorker? { GoWorkerAt(s, t, At(s, t), i); }
  }

  lemma GoWorkerAt<T>(s: State<T>, t: Tid, pc: Pc<T>, i: Instr<T>)
    requires Executes(s, t, pc, i) && i.GoWorker?
    ensures pc.StartGo? && BRole(pc).Owner?
  {
  }

  /** A line of the thread that owns the barrier. */
  lemma LifeStepOwner<T>(s: State<T>, t: Tid, i: Instr<T>, q: Pc<T>)
    requires SafeInv(s) && Firing(s, t, i, q) && BRole(At(s, t)).Owner?
    requires At(s, t) == Status(Start) ==> s.barrier.started || !s.log.stopped
    ensures LifeOk(Exec(s, t, i, q))
  {
    hide *;
    if IsStartPc(At(s, t)) {
      LifeStepStart(s, t, i, q);
    } else {
      LifeStepStop(s, t, i, q);
    }
  }

  predicate IsStartPc<T>(pc: Pc<T>) { pc.Status? || pc.StartAdd? || pc.StartGo? || pc.StartMark? || pc.Unlock? }

  lemma LifeStepStart<T>(s: State<T>, t: Tid, i: Instr<T>, q: Pc<T>)
    requires SafeInv(s) && Firing(s, t, i, q) && IsStartPc(At(s, t))
    requires At(s, t) == Status(Start) ==> s.barrier.started || !s.log.stopped
    ensures LifeOk(Exec(s, t, i, q))
  {
    hide Moves, Faults, ListenersAfter, ProcsAfter, LocksOk, WorkersOk, PcOk, ClosedOk, Executes, Arrives, BRole,
      RoundsAfter, SpawnsOk;
    OpenLocks(s, t, 0);
    StartLines(s, t, At(s, t), i, q);
    HolderAfter(s, t, i, q);
    WorkerAfter(s, t, i, q);
  }

  lemma StartLines<T>(s: State<T>, t: Tid, pc: Pc<T>, i: Instr<T>, q: Pc<T>)
    requires Executes(s, t, pc, i) && Arrives(s, t, pc, i, q) && IsStartPc(pc)
    ensures BRole(pc).Owner?
    ensures pc.Status? ==> i.Nop? && if q.StartAdd? then pc == Status(Start) && !s.barrier.started
                                     else q.Unlock? || (q.StopCancel? && s.barrier.started)
    ensures pc.StartAdd? ==> i.WgAdd? && q.StartGo?
    ensures pc.StartGo? ==> i.GoWorker? && q.StartMark?
    ensures pc.StartMark? ==> i.SetStarted? && q.Unlock?
    ensures pc.Unlock? ==> i.WRelease? && q.Done?
  {
    hide ExecutesOn, MayVisit, MayFinish, InMap, StageNext, StageInstr, ListenerStopped, Front;
    if pc.Status? {
      hide Executes, Arrives;
      StatusLine(s, t, pc, i, q);
    }
  }

  lemma StatusLine<T>(s: State<T>, t: Tid, pc: Pc<T>, i: Instr<T>, q: Pc<T>)
    requires Executes(s, t, pc, i) && Arrives(s, t, pc, i, q) && pc.Status?
    ensures i.Nop? && if q.StartAdd? then pc == Status(Start) && !s.barrier.started
                      else q.Unlock? || (q.StopCancel? && s.barrier.started)
  {
    hide ExecutesOn, MayVisit, MayFinish, InMap, StageNext, StageInstr, ListenerStopped, Front;
  }

  lemma LifeStepStop<T>(s: State<T>, t: Tid, i: Instr<T>, q: Pc<T>)
    requires SafeInv(s) && Firing(s, t, i, q) && BRole(At(s, t)).Owner? && !IsStartPc(At(s, t))
    ensures LifeOk(Exec(s, t, i, q))
  {
    hide Moves, Faults, ListenersAfter, ProcsAfter, LocksOk, WorkersOk, PcOk, ClosedOk, Executes, Arrives, BRole,
      RoundsAfter, SpawnsOk;
    OpenLocks(s, t, 0);
    StopLines(s, t, At(s, t), i, q);
    HolderAfter(s, t, i, q);
    WorkerAfter(s, t, i, q);
  }

  lemma StopLines<T>(s: State<T>, t: Tid, pc: Pc<T>, i: Instr<T>, q: Pc<T>)
    requires Executes(s, t, pc, i) && Arrives(s, t, pc, i, q) && BRole(pc).Owner? && !IsStartPc(pc)
    ensures pc.StopCancel? || pc.StopWait? || pc.StopRange? || pc.StopNext? || pc.StopOne? || pc.StopDelete?
            || pc.StopClose?
            || pc.StopMark?
    ensures !i.SetStarted? && !i.GoWorker? && !i.WgAdd? && !i.WgDone? && !i.WRelease? && !i.Push? && !i.Recv?
    ensures pc.StopCancel? ==> i.CancelCtx? && q.StopWait?
    ensures pc.StopWait? ==> i.WgWait? && q.StopRange?
    ensures pc.StopRange? || pc.StopNext? || pc.StopOne? || pc.StopDelete? ==>
              q.StopNext? || q.StopOne? || q.StopDelete? || q.StopClose?
    ensures i.CloseChan? <==> pc.StopClose?
    ensures pc.StopClose? ==> q.StopMark?
    ensures i.SetStopped? <==> pc.StopMark?
    ensures pc.StopMark? ==> q.Unlock?
  {
    hide ExecutesOn, MayVisit, MayFinish, InMap, StageNext, StageInstr, ListenerStopped, Front;
    if pc.StopRange? || pc.StopNext? || pc.StopOne? || pc.StopDelete? {
      hide Executes, Arrives;
      SweepLines(s, t, pc, i, q);
    }
  }

  lemma SweepLines<T>(s: State<T>, t: Tid, pc: Pc<T>, i: Instr<T>, q: Pc<T>)
    requires Executes(s, t, pc, i) && Arrives(s, t, pc, i, q)
    requires pc.StopRange? || pc.StopNext? || pc.StopOne? || pc.StopDelete?
    ensures i.Nop? || i.RangeBegin? || i.On? || i.Delete?
    ensures q.StopNext? || q.StopOne? || q.StopDelete? || q.StopClose?
  {
    hide ExecutesOn, MayVisit, MayFinish, InMap, StageNext, StageInstr, ListenerStopped, Front;
    if pc.StopOne? {
      hide Executes, Arrives;
      StopOneOn(s, t, pc, i, q);
    }
  }

  /** What a thread that does not own the barrier may do. */
  lemma OtherInstr<T>(s: State<T>, t: Tid, i: Instr<T>, q: Pc<T>)
    requires Executes(s, t, At(s, t), i) && Arrives(s, t, At(s, t), i, q) && !BRole(At(s, t)).Owner?
    ensures !i.SetStarted? && !i.SetStopped? && !i.GoWorker? && !i.WgAdd? && !i.CloseChan? && !i.CancelCtx?
            && !i.WRelease?
    ensures i.WAnnounce? || BRole(At(s, t)).Drainer? ==> !q.StopMark? && !q.StartMark? && !q.StartGo?
    ensures i.WAnnounce? || BRole(At(s, t)).Drainer? ==> forall z: State<T> :: HolderOk(z, q)
    ensures BRole(At(s, t)).Drainer? ==> At(s, t).Drain?
  {
    hide Arrives;
    OtherExecutes(s, t, At(s, t), i);
    hide Executes;
    if At(s, t).Await? || At(s, t).Drain? { EntryLine(s, t, At(s, t), i, q); }
  }

  lemma OtherExecutes<T>(s: State<T>, t: Tid, pc: Pc<T>, i: Instr<T>)
    requires Executes(s, t, pc, i) && !BRole(pc).Owner?
    ensures !i.SetStarted? && !i.SetStopped? && !i.GoWorker? && !i.WgAdd? && !i.CloseChan? && !i.CancelCtx?
            && !i.WRelease?
    ensures i.WAnnounce? ==> pc.Await?
  {
    hide ExecutesOn, InMap, MayFinish;
  }

  lemma EntryLine<T>(s: State<T>, t: Tid, pc: Pc<T>, i: Instr<T>, q: Pc<T>)
    requires Executes(s, t, pc, i) && Arrives(s, t, pc, i, q) && (pc.Await? || pc.Drain?)
    ensures q == if pc.Await? then Drain(pc.op) else Status(pc.op)
  {
    hide ExecutesOn, InMap, MayFinish, MayVisit;
  }

  /** A line of any other thread. */
  lemma LifeStepOther<T>(s: State<T>, t: Tid, i: Instr<T>, q: Pc<T>)
    requires SafeInv(s) && Firing(s, t, i, q) && !BRole(At(s, t)).Owner?
    ensures LifeOk(Exec(s, t, i, q))
  {
    hide Moves, Faults, ListenersAfter, ProcsAfter, LocksOk, WorkersOk, PcOk, ClosedOk, Executes, Arrives, WorkerLive,
      Holder, BRole, RoundsAfter;
    OpenLocks(s, t, 0);
    HolderAfter(s, t, i, q);
    WorkerAfter(s, t, i, q);
    OtherInstr(s, t, i, q);
  }

  /** The holder of a listener's barrier after a step. */
  lemma LHolderAfter<T>(s: State<T>, t: Tid, i: Instr<T>, q: Pc<T>, l: Lid)
    requires l in s.listeners && ListenerBarrierOk(s, l) && Firing(s, t, i, q)
    ensures var z := Exec(s, t, i, q);
            l in z.listeners &&
            if LRole(At(s, t), l).Owner? || LRole(At(s, t), l).Drainer? then
              LHolder(s, l) == At(s, t) && LHolder(z, l) == if i == On(l, LRelease) then Gone else q
            else if i == On(l, LAnnounce) then LHolder(s, l) == Gone && LHolder(z, l) == q
            else LHolder(z, l) == LHolder(s, l)
  {
    hide Arrives, Faults, ListenersAfter, LogAfter, ChanAfter, ProcsAfter, WgAfter, BarrierAfter, Executes, LRole,
      RoleStep, Exec, ListenerAfter;
    Others(s, t, i, q);
    ListenersAre(s, t, i, q);
    LWriterAfter(s.listeners[l], l, t, i, s.log.clock);
    assert LRoleStep(i, l, LRole(At(s, t), l), LRole(q, l));
    hide Moves;
    assert RoleOk(s.listeners[l].barrier, t, LRole(At(s, t), l));
    if s.listeners[l].barrier.writer.Some? && s.listeners[l].barrier.writer != Some(t) {
      var w := s.listeners[l].barrier.writer.value;
      assert RoleOk(s.listeners[l].barrier, w, LRole(At(s, w), l));
      assert !Spawned(w, t, i) by { NotSpawnedL(s, t, i, w, l); }
    }
  }

  lemma LWriterAfter<T>(x: Listener<T>, l: Lid, t: Tid, i: Instr<T>, now: nat)
    ensures ListenerAfter(x, l, t, i, now).barrier.writer ==
            if i == On(l, LAnnounce) then Some(t) else if i == On(l, LRelease) then None else x.barrier.writer
  {
  }

  lemma NotSpawnedL<T>(s: State<T>, t: Tid, i: Instr<T>, w: Tid, l: Lid)
    requires SpawnsOk(s, t, i) && (LRole(At(s, w), l).Owner? || LRole(At(s, w), l).Drainer?)
    ensures !Spawned(w, t, i)
  {
  }

  lemma StageMoves<T>(s: State<T>, t: Tid, pc: Pc<T>, i: Instr<T>, q: Pc<T>, l: Lid)
    requires Executes(s, t, pc, i) && Arrives(s, t, pc, i, q)
    ensures StageOf(pc, l).Some? ==>
              var stage := StageOf(pc, l).value;
              && i == On(l, StageInstr(stage))
              && StageOf(q, l) == (if stage.SOut? then None else Some(StageNext(stage, ListenerStopped(s, l))))
    ensures StageOf(pc, l).None? ==>
              && (StageOf(q, l).None? || StageOf(q, l).value.SEnter?)
              && (i.On? && i.l == l ==> i.li.LEnter? || i.li.LLeave? || i.li.LPush? || i.li.LRecord?)
    ensures q.StopDelete? ==> StageOf(pc, q.l) == Some(SOut)
  {
    if StageOf(pc, l).Some? {
      hide Executes, Arrives;
      StageOn(s, t, pc, i, q);
      if q.StopDelete? { StageBegins(s, t, pc, i, q, l); }
    } else {
      StageElse(s, t, pc, i, l);
      hide Executes, Arrives;
      StageBegins(s, t, pc, i, q, l);
    }
  }

  /** A line of Listener.stop. */
  lemma StageOn<T>(s: State<T>, t: Tid, pc: Pc<T>, i: Instr<T>, q: Pc<T>)
    requires Executes(s, t, pc, i) && Arrives(s, t, pc, i, q) && (pc.Unsub? || pc.StopOne?)
    ensures i == On(pc.l, StageInstr(pc.stage))
    ensures StageOf(q, pc.l) == (if pc.stage.SOut? then None else Some(StageNext(pc.stage, ListenerStopped(s, pc.l))))
    ensures !pc.stage.SOut? ==> (q.Unsub? || q.StopOne?) && q.l == pc.l
  {
    hide MayVisit, MayFinish, InMap, ListenerStopped, Front, StageNext, ExecutesOn;
    if pc.Unsub? { UnsubOn(s, t, pc, i, q); } else { StopOneOn(s, t, pc, i, q); }
  }

  lemma UnsubOn<T>(s: State<T>, t: Tid, pc: Pc<T>, i: Instr<T>, q: Pc<T>)
    requires Executes(s, t, pc, i) && Arrives(s, t, pc, i, q) && pc.Unsub?
    ensures i == On(pc.l, StageInstr(pc.stage))
    ensures if pc.stage.SOut? then q.Leave? else q == Unsub(pc.l, StageNext(pc.stage, ListenerStopped(s, pc.l)))
  {
    hide MayVisit, MayFinish, InMap, ListenerStopped, Front, StageNext;
  }

  lemma StopOneOn<T>(s: State<T>, t: Tid, pc: Pc<T>, i: Instr<T>, q: Pc<T>)
    requires Executes(s, t, pc, i) && Arrives(s, t, pc, i, q) && pc.StopOne?
    ensures i == On(pc.l, StageInstr(pc.stage))
    ensures q == if pc.stage.SOut? then StopDelete(pc.sweep, pc.l)
                 else StopOne(pc.sweep, pc.l, StageNext(pc.stage, ListenerStopped(s, pc.l)))
  {
    hide MayVisit, MayFinish, InMap, ListenerStopped, Front, StageNext;
  }

  lemma StageElse<T>(s: State<T>, t: Tid, pc: Pc<T>, i: Instr<T>, l: Lid)
    requires Executes(s, t, pc, i) && StageOf(pc, l).None?
    ensures i.On? && i.l == l ==> i.li.LEnter? || i.li.LLeave? || i.li.LPush? || i.li.LRecord?
  {
    hide MayVisit, MayFinish, InMap, ListenerStopped, StageInstr;
  }

  lemma StageBegins<T>(s: State<T>, t: Tid, pc: Pc<T>, i: Instr<T>, q: Pc<T>, l: Lid)
    requires Arrives(s, t, pc, i, q)
    ensures StageOf(pc, l).None? ==> StageOf(q, l).None? || StageOf(q, l).value.SEnter?
    ensures q.StopDelete? ==> StageOf(pc, q.l) == Some(SOut)
  {
    hide MayVisit, MayFinish, InMap, ListenerStopped, Front, StageNext, StageInstr;
  }

  /** Listener.stop, step by step: the channel is closed exactly when the flag is down, but for one stage. */
  lemma StageKeeps<T>(x: Listener<T>, t: Tid, stage: Stage)
    requires StageOk(x, stage) && (!x.barrier.started ==> x.chan.closed)
    requires x.chan.closed && x.barrier.started ==> stage.SMark?
    ensures var y := LAfter(x, t, StageInstr(stage)); var next := StageNext(stage, x.barrier.IsStopped());
            && (!stage.SOut? ==> StageOk(y, next))
            && (!y.barrier.started ==> y.chan.closed)
            && (y.chan.closed && y.barrier.started ==> next.SMark? && !stage.SOut?)
  {
  }

  /** An instruction that is not part of Listener.stop leaves the flag and the closing alone. */
  lemma OtherKeeps<T>(x: Listener<T>, l: Lid, t: Tid, i: Instr<T>, now: nat)
    requires i.On? && i.l == l ==> i.li.LEnter? || i.li.LLeave? || i.li.LPush? || i.li.LRecord?
    ensures var y := ListenerAfter(x, l, t, i, now);
            y.barrier.started == x.barrier.started && y.chan.closed == x.chan.closed
  {
  }

  /** A thread that stops a listener, or does not, and its role for that listener. */
  lemma StageRoles<T>(pc: Pc<T>, l: Lid)
    ensures LRole(pc, l).Owner? || LRole(pc, l).Drainer? ==> StageOf(pc, l).Some?
    ensures StageOf(pc, l).Some? && !StageOf(pc, l).value.SEnter? ==> LRole(pc, l).Owner? || LRole(pc, l).Drainer?
    ensures StageInstr<T>(SEnter) == LAnnounce
    ensures StageInstr<T>(SOut) == LRelease
    ensures forall stage :: StageInstr<T>(stage).LRelease? ==> stage.SOut?
    ensures forall stage :: StageInstr<T>(stage).LAnnounce? ==> stage.SEnter?
  {
  }

  lemma ClosedStep<T>(s: State<T>, t: Tid, i: Instr<T>, q: Pc<T>, l: Lid)
    requires l in s.listeners && ListenerBarrierOk(s, l) && ClosedOk(s, l) && Firing(s, t, i, q)
    requires StageOf(At(s, t), l).Some? ==> StageOk(s.listeners[l], StageOf(At(s, t), l).value)
    ensures l in Exec(s, t, i, q).listeners && ClosedOk(Exec(s, t, i, q), l)
    ensures StageOf(q, l).Some? ==> StageOk(Exec(s, t, i, q).listeners[l], StageOf(q, l).value)
  {
    hide Faults, Exec, LHolder, BRole, LRole, Moves, Executes, Arrives, LAfter, StageInstr, StageNext, Ready, SpawnsOk;
    var pc := At(s, t);
    LHolderAfter(s, t, i, q, l);
    ListenersAre(s, t, i, q);
    StageMoves(s, t, pc, i, q, l);
    StageRoles(pc, l);
    if StageOf(pc, l).Some? {
      StageKeeps(s.listeners[l], t, StageOf(pc, l).value);
    } else {
      OtherKeeps(s.listeners[l], l, t, i, s.log.clock);
    }
  }

  /** The program counter of the executing thread. */
  lemma PcStepOwn<T>(s: State<T>, t: Tid, i: Instr<T>, q: Pc<T>)
    requires SafeInv(s) && Firing(s, t, i, q)
    ensures PcOk(Exec(s, t, i, q), q)
    ensures i.GoSender? ==> PcOk(Exec(s, t, i, q), Sender(i.m))
  {
    hide SafeInv, Exec, BarrierAfter, Ready, Faults, Moves, Executes, Arrives, SpawnsOk, StageOk;
    assert PcOk(s, At(s, t)) by { OpenSafe(s, t); }
    BarrierIs(s, t, i, q);
    CheckedLine(s, t, At(s, t), i, q);
    if s.barrier.started && !i.SetStopped? { StartedKept(s.barrier, t, i); }
    if q.Unsub? || q.StopOne? {
      PcStepStage(s, t, i, q, q.l);
    } else if q.LSend? || q.StopDelete? {
      PcStepListener(s, t, i, q);
    }
  }

  lemma BarrierIs<T>(s: State<T>, t: Tid, i: Instr<T>, q: Pc<T>)
    ensures Exec(s, t, i, q).barrier == BarrierAfter(s.barrier, t, i)
  {
    hide BarrierAfter;
  }

  lemma StartedKept<T>(b: Barrier, t: Tid, i: Instr<T>)
    requires b.started && !i.SetStopped?
    ensures BarrierAfter(b, t, i).started
  {
  }

  lemma PcStepListener<T>(s: State<T>, t: Tid, i: Instr<T>, q: Pc<T>)
    requires PcOk(s, At(s, t)) && Firing(s, t, i, q) && (q.LSend? || q.StopDelete?)
    ensures PcOk(Exec(s, t, i, q), q)
  {
    hide Exec, Ready, Faults, Moves, Executes, Arrives, SpawnsOk;
    ListenersAre(s, t, i, q);
    StoppedLine(s, t, At(s, t), i, q);
  }

  lemma CheckedLine<T>(s: State<T>, t: Tid, pc: Pc<T>, i: Instr<T>, q: Pc<T>)
    requires Executes(s, t, pc, i) && Arrives(s, t, pc, i, q)
    ensures !q.Sender? && (q.Body? ==> s.barrier.started && !i.SetStopped?)
    ensures i.GoSender? ==> pc.Body?
    ensures i.GoSender? ==> q.Done?
  {
    hide ExecutesOn, MayVisit, MayFinish, InMap, StageInstr, StageNext, ListenerStopped, Front;
  }

  lemma StoppedLine<T>(s: State<T>, t: Tid, pc: Pc<T>, i: Instr<T>, q: Pc<T>)
    requires Executes(s, t, pc, i) && Arrives(s, t, pc, i, q)
    ensures q.LSend? ==> pc.LCheck? && pc.l == q.l && i.Nop? && !ListenerStopped(s, q.l)
    ensures q.StopDelete? ==> pc.StopOne? && pc.l == q.l && pc.stage.SOut? && i == On(q.l, LRelease)
  {
    hide ExecutesOn, MayVisit, MayFinish, InMap, StageNext, ListenerStopped, Front;
  }

  lemma PcStepStage<T>(s: State<T>, t: Tid, i: Instr<T>, q: Pc<T>, l: Lid)
    requires SafeInv(s) && Firing(s, t, i, q) && (q.Unsub? || q.StopOne?) && q.l == l
    ensures l in Exec(s, t, i, q).listeners && StageOk(Exec(s, t, i, q).listeners[l], q.stage)
  {
    hide Executes, Arrives, Moves, LocksOk, LifeOk, WorkersOk, ClosedOk, StageOk, Exec;
    OpenLocks(s, t, l);
    assert PcOk(s, At(s, t)) && ThreadOk(s, t);
    assert l in s.listeners by { StageRef(s, t, i, q); }
    assert ClosedOk(s, l);
    ClosedStep(s, t, i, q, l);
  }

  lemma StageRef<T>(s: State<T>, t: Tid, i: Instr<T>, q: Pc<T>)
    requires Firing(s, t, i, q) && (q.Unsub? || q.StopOne?) && ThreadOk(s, t)
    ensures q.l in s.listeners
  {
    hide Faults, Moves, Executes, SpawnsOk, StageNext, StageInstr;
  }

  /** Nobody closes or marks a listener while another thread reads or owns its barrier. */
  lemma FlagsStay<T>(s: State<T>, t: Tid, i: Instr<T>, q: Pc<T>, l: Lid, u: Tid)
    requires l in s.listeners && ListenerBarrierOk(s, l) && Firing(s, t, i, q) && u != t
    requires LRole(At(s, u), l).Reader? || LRole(At(s, u), l).Owner?
    ensures l in Exec(s, t, i, q).listeners
    ensures var x, y := s.listeners[l], Exec(s, t, i, q).listeners[l];
            y.barrier.started == x.barrier.started && y.chan.closed == x.chan.closed
  {
    hide Exec, Executes, Arrives, Moves, Faults, SpawnsOk, Ready, LRole, ListenerAfter;
    ListenersAre(s, t, i, q);
    OwnerMarks(s, t, i, l);
    FlagsKept(s.listeners[l], l, t, i, s.log.clock);
    assert RoleOk(s.listeners[l].barrier, u, LRole(At(s, u), l))
           && RoleOk(s.listeners[l].barrier, t, LRole(At(s, t), l));
  }

  /** Only a thread that owns the listener's barrier closes or marks it. */
  lemma OwnerMarks<T>(s: State<T>, t: Tid, i: Instr<T>, l: Lid)
    requires Executes(s, t, At(s, t), i)
    ensures i == On(l, LClose) || i == On(l, LMark) ==> LRole(At(s, t), l).Owner?
  {
  }

  lemma FlagsKept<T>(x: Listener<T>, l: Lid, t: Tid, i: Instr<T>, now: nat)
    requires i != On(l, LClose) && i != On(l, LMark)
    ensures var y := ListenerAfter(x, l, t, i, now);
            y.barrier.started == x.barrier.started && y.chan.closed == x.chan.closed
  {
  }

  lemma StoppedStays<T>(s: State<T>, t: Tid, i: Instr<T>, q: Pc<T>, l: Lid)
    requires SpawnsOk(s, t, i)
    ensures ListenerStopped(s, l) ==> ListenerStopped(Exec(s, t, i, q), l)
    ensures l in s.listeners ==> l in Exec(s, t, i, q).listeners
  {
    hide Exec;
    ListenersAre(s, t, i, q);
  }

  /** The flag of the broadcaster stays up while a reader is inside. */
  lemma StartedStays<T>(s: State<T>, t: Tid, i: Instr<T>, q: Pc<T>, u: Tid)
    requires BarrierOk(s) && Firing(s, t, i, q) && u != t && BRole(At(s, u)).Reader?
    ensures s.barrier.started ==> Exec(s, t, i, q).barrier.started
  {
    hide ListenersAfter, ProcsAfter, LogAfter, ChanAfter, Arrives, Moves, Faults, SpawnsOk, Ready, ExecutesOn;
    assert RoleOk(s.barrier, u, BRole(At(s, u))) && RoleOk(s.barrier, t, BRole(At(s, t)));
  }

  /** The program counters of the other threads: nobody changes what a reader or an owner relies on. */
  lemma PcStepOther<T>(s: State<T>, t: Tid, i: Instr<T>, q: Pc<T>, u: Tid)
    requires LocksOk(s) && PcOk(s, At(s, u)) && Firing(s, t, i, q) && u != t
    ensures PcOk(Exec(s, t, i, q), At(s, u))
  {
    hide LocksOk, Exec, Executes, Arrives, Moves, Faults, Ready;
    OpenLocks(s, u, 0);
    match At(s, u)
    case Body(_) => StartedStays(s, t, i, q, u);
    case Sender(_) => StartedStays(s, t, i, q, u);
    case LSend(_, l) => OpenLocks(s, u, l); FlagsStay(s, t, i, q, l, u);
    case StopDelete(_, l) => StoppedStays(s, t, i, q, l);
    case Unsub(l, stage) =>
      OpenLocks(s, u, l); StoppedStays(s, t, i, q, l);
      if StageRole(stage).Owner? { FlagsStay(s, t, i, q, l, u); }
    case StopOne(_, l, stage) =>
      OpenLocks(s, u, l); StoppedStays(s, t, i, q, l);
      if StageRole(stage).Owner? { FlagsStay(s, t, i, q, l, u); }
    case _ =>
  }

  lemma SafeStep<T>(s: State<T>, t: Tid, c: Choice, i: Instr<T>, q: Pc<T>)
    requires SafeInv(s) && Fires(s, t, c, i, q)
    requires !Restarts(s, Do(t, c))
    ensures Firing(s, t, i, q) && SafeInv(Exec(s, t, i, q))
  {
    hide LocksOk, LifeOk, WorkersOk, PcOk, ClosedOk, Firing, Exec;
    var z := Exec(s, t, i, q);
    LocksStep(s, t, c, i, q);
    OpenLocks(s, t, 0);
    WorkersStep(s, t, i, q);
    if BRole(At(s, t)).Owner? { LifeStepOwner(s, t, i, q); } else { LifeStepOther(s, t, i, q); }
    forall u {:trigger At(z, u)} ensures PcOk(z, At(z, u)) { PcStep(s, t, i, q, u); }
    forall l | l in z.listeners ensures ClosedOk(z, l) { ClosedSteps(s, t, i, q, l); }
  }

  lemma PcStep<T>(s: State<T>, t: Tid, i: Instr<T>, q: Pc<T>, u: Tid)
    requires SafeInv(s) && Firing(s, t, i, q)
    ensures PcOk(Exec(s, t, i, q), At(Exec(s, t, i, q), u))
  {
    hide SafeInv, Exec, Executes, Arrives, Moves, Ready, Faults, SpawnsOk;
    Others(s, t, i, q);
    PcStepOwn(s, t, i, q);
    if u != t && !Spawned(u, t, i) {
      assert PcOk(s, At(s, u)) && LocksOk(s) by { OpenSafe(s, u); }
      PcStepOther(s, t, i, q, u);
    }
  }

  lemma OpenSafe<T>(s: State<T>, u: Tid)
    requires SafeInv(s)
    ensures LocksOk(s) && PcOk(s, At(s, u))
  {
    hide LocksOk, PcOk;
  }

  lemma ClosedSteps<T>(s: State<T>, t: Tid, i: Instr<T>, q: Pc<T>, l: Lid)
    requires SafeInv(s) && Firing(s, t, i, q) && l in Exec(s, t, i, q).listeners
    ensures ClosedOk(Exec(s, t, i, q), l)
  {
    hide LocksOk, LifeOk, WorkersOk, Exec, Executes, Arrives, Moves, Ready, Faults;
    ListenersAre(s, t, i, q);
    if l in s.listeners {
      OpenLocks(s, t, l);
      assert PcOk(s, At(s, t)) && ClosedOk(s, l);
      ClosedStep(s, t, i, q, l);
    }
  }

  // ---------- the actions that are not steps of a thread ----------

  /**
   A call may have begun; otherwise nothing changed but the contents of the listeners' channels, what
   was taken from them, and the cancelled flag.
   */
  ghost predicate Still<T>(s: State<T>, z: State<T>) {
    && z.barrier == s.barrier && z.wg == s.wg && z.chan == s.chan && z.log == s.log
    && (s.cancelled ==> z.cancelled)
    && z.panicked == s.panicked && z.listeners.Keys == s.listeners.Keys
    && (forall l :: l in s.listeners ==> StillListener(s.listeners[l], z.listeners[l]))
    && s.procs.Keys <= z.procs.Keys
    && (forall u :: u in z.procs ==> if u in s.procs then z.procs[u] == s.procs[u] else Begins(u, z.procs[u]))
  }

  ghost predicate Begins<T>(u: Tid, pc: Pc<T>) { u.Call? && (pc.Enter? || pc.Await?) && OpOk(pc) }

  ghost predicate StillListener<T>(x: Listener<T>, y: Listener<T>) {
    && y.barrier == x.barrier && y.chan.closed == x.chan.closed && y.born == x.born && y.presence == x.presence
    && y.tries == x.tries && y.taken + y.chan.buf == x.taken + x.chan.buf && |y.chan.buf| <= |x.chan.buf|
  }

  lemma StillApply<T>(s: State<T>, a: Act<T>, z: State<T>)
    requires !a.Do? && Apply(s, a) == Some(z)
    ensures Still(s, z)
  {
    hide Step;
    if a.Take? { TakenStill(s.listeners[a.l]); }
  }

  lemma TakenStill<T>(x: Listener<T>)
    requires x.chan.buf != []
    ensures StillListener(x, Taken(x))
  {
    assert x.chan.buf == [x.chan.buf[0]] + x.chan.buf[1..];
  }

  /** A thread that begins has no role yet. */
  lemma StillAt<T>(s: State<T>, z: State<T>, u: Tid, l: Lid)
    requires Still(s, z)
    ensures BRole(At(z, u)) == BRole(At(s, u)) && LRole(At(z, u), l) == LRole(At(s, u), l)
    ensures PcOk(s, At(s, u)) ==> PcOk(z, At(z, u))
    ensures (|| BRole(At(s, u)).Owner? || BRole(At(s, u)).Drainer? || LRole(At(s, u), l).Owner?
            || LRole(At(s, u), l).Drainer?
             || At(s, u).Done? || SpawnedWorker(At(s, u)) || SubscribedBy(At(s, u), l)) ==> At(z, u) == At(s, u)
    ensures u in z.procs && (u in s.procs ==> ThreadOk(s, u)) ==> ThreadOk(z, u)
  {
  }

  lemma LocksStill<T>(s: State<T>, z: State<T>)
    requires LocksOk(s) && Still(s, z)
    ensures LocksOk(z)
  {
    hide RoleOk, BRole, LRole, PcOk, ThreadOk, SpawnedWorker, SubscribedBy;
    forall u {:trigger At(z, u)} ensures RoleOk(z.barrier, u, BRole(At(z, u))) {
      assert RoleOk(s.barrier, u, BRole(At(s, u)));
      StillAt(s, z, u, 0);
    }
    forall u | u in z.procs ensures ThreadOk(z, u) { StillAt(s, z, u, 0); }
    forall l | l in z.listeners ensures ListenerBarrierOk(z, l) && SubscribedBy(At(z, Call(l)), l) {
      assert ListenerBarrierOk(s, l) && SubscribedBy(At(s, Call(l)), l);
      StillAt(s, z, Call(l), l);
      forall u {:trigger At(z, u)} ensures RoleOk(z.listeners[l].barrier, u, LRole(At(z, u), l)) {
        assert RoleOk(s.listeners[l].barrier, u, LRole(At(s, u), l));
        StillAt(s, z, u, l);
      }
    }
    forall n: nat | Async(n) in z.procs ensures At(z, Call(n)).Done? { StillAt(s, z, Call(n), 0); }
    forall n: nat | Worker(n) in z.procs ensures SpawnedWorker(At(z, Call(n))) { StillAt(s, z, Call(n), 0); }
  }

  lemma SafeStill<T>(s: State<T>, z: State<T>)
    requires SafeInv(s) && Still(s, z)
    ensures SafeInv(z)
  {
    hide LocksOk;
    LocksStill(s, z);
    HolderStill(s, z);
    forall u {:trigger At(z, u)} ensures PcOk(z, At(z, u)) { assert PcOk(s, At(s, u)); StillAt(s, z, u, 0); }
    forall l | l in z.listeners ensures ClosedOk(z, l) { assert ClosedOk(s, l); LHolderStill(s, z, l); }
  }

  lemma HolderStill<T>(s: State<T>, z: State<T>)
    requires LocksOk(s) && Still(s, z)
    ensures Holder(z) == Holder(s)
  {
    hide LocksOk, BRole, LRole, RoleOk;
    if s.barrier.writer.Some? {
      OpenLocks(s, s.barrier.writer.value, 0);
      HolderRole(s);
      StillAt(s, z, s.barrier.writer.value, 0);
    }
  }

  lemma HolderRole<T>(s: State<T>)
    requires BarrierOk(s) && s.barrier.writer.Some?
    ensures BRole(Holder(s)).Owner? || BRole(Holder(s)).Drainer?
  {
    assert RoleOk(s.barrier, s.barrier.writer.value, BRole(Holder(s)));
  }

  lemma LHolderStill<T>(s: State<T>, z: State<T>, l: Lid)
    requires LocksOk(s) && Still(s, z) && l in s.listeners
    ensures LHolder(z, l) == LHolder(s, l)
  {
    hide LocksOk, BRole, LRole, RoleOk;
    if s.listeners[l].barrier.writer.Some? {
      OpenLocks(s, s.listeners[l].barrier.writer.value, l);
      LHolderRole(s, l);
      StillAt(s, z, s.listeners[l].barrier.writer.value, l);
    }
  }

  lemma LHolderRole<T>(s: State<T>, l: Lid)
    requires l in s.listeners && ListenerBarrierOk(s, l) && s.listeners[l].barrier.writer.Some?
    ensures LRole(LHolder(s, l), l).Owner? || LRole(LHolder(s, l), l).Drainer?
  {
    assert RoleOk(s.listeners[l].barrier, s.listeners[l].barrier.writer.value, LRole(LHolder(s, l), l));
  }

  lemma SafeApply<T>(s: State<T>, a: Act<T>, z: State<T>)
    requires SafeInv(s) && Apply(s, a) == Some(z) && !Restarts(s, a)
    ensures SafeInv(z) && !z.panicked
  {
    hide SafeInv;
    match a
    case Do(t, c) =>
      var Line(i, q) := Code(s, t, s.procs[t], c).value;
      NoFault(s, t, c, i, q);
      SafeStep(s, t, c, i, q);
    case _ => StillApply(s, a, z); SafeStill(s, z);
  }
}
