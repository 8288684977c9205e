/** What the answers of the calls rest on. */
module BroadcasterService {
  import opened Wrappers
  import opened StatusBarrier
  import opened Broadcaster
  import opened BroadcasterCode
  import opened BroadcasterLocks
  import opened BroadcasterSafety
  import opened BroadcasterQuiescence

  /** The thread takes listener `l` out of the map, or is a Stop past that point. */
  ghost predicate Removing<T>(pc: Pc<T>, l: Lid) {
    || (pc.Unsub? && pc.l == l)
    || ((pc.Leave? || pc.Done?) && pc.op == Unsubscribe(l))
    || pc.StopNext? || pc.StopOne? || pc.StopDelete? || pc.StopClose? || pc.StopMark?
    || ((pc.Unlock? || pc.Done?) && pc.op.Stop?)
  }

  ghost predicate ByOk<T>(s: State<T>, l: Lid)
    requires l in s.listeners
  {
    s.listeners[l].presence.Removed? ==> Removing(At(s, s.listeners[l].presence.who), l)
  }

  ghost predicate ServeOk<T>(s: State<T>, t: Tid, pc: Pc<T>) {
    && (t in s.procs && t.Worker? && !s.cancelled ==> !pc.Exit? && !pc.Gone?)
    && (t in s.procs && t.Async? ==> At(s, Call(t.n)).Done? && At(s, Call(t.n)).op.Write?)
    && ((pc.Unlock? || pc.Done?) && pc.op.Start? ==> s.barrier.started || s.log.stopped)
    && AnswerOk(t, pc)
  }

  /** The answers a call can give. */
  ghost predicate AnswerOk<T>(t: Tid, pc: Pc<T>) {
    pc.Leave? || pc.Unlock? || pc.Done? ==>
      match pc.op
      case Start => pc.res.Nil?
      case Subscribe => pc.res.ErrStopped? || pc.res == Got(t.n)
      case IsSubscribed(_) => pc.res.ErrStopped? || pc.res.Flag?
      case IsStopped => pc.res.Flag?
      case _ => pc.res.ErrStopped? || pc.res.Nil?
  }

  ghost predicate ServeInv<T>(s: State<T>) {
    && (forall t {:trigger At(s, t)} :: ServeOk(s, t, At(s, t)))
    && (forall l :: l in s.listeners ==> ByOk(s, l))
  }

  // ---------- lines ----------

  lemma WorkerLeaves<T>(s: State<T>, t: Tid, pc: Pc<T>, i: Instr<T>, q: Pc<T>)
    requires Executes(s, t, pc, i) && Arrives(s, t, pc, i, q) && IsWorkerPc(pc)
    ensures q.Exit? ==> s.cancelled
    ensures q.Gone? ==> pc.Exit?
  {
    hide MayVisit, MayFinish, InMap, ListenerStopped, StageNext, StageInstr, Front, ExecutesOn;
  }

  lemma StartReturns<T>(s: State<T>, t: Tid, pc: Pc<T>, i: Instr<T>, q: Pc<T>)
    requires Executes(s, t, pc, i) && Arrives(s, t, pc, i, q) && KindOk(t, pc) && (q.Unlock? || q.Done?) && q.op.Start?
    ensures (pc.Unlock? && pc.op.Start?) || s.barrier.started || i.SetStarted?
    ensures !i.SetStopped?
  {
    hide MayVisit, MayFinish, InMap, ListenerStopped, StageNext, StageInstr, Front, ExecutesOn;
  }

  lemma Answered<T>(s: State<T>, t: Tid, pc: Pc<T>, i: Instr<T>, q: Pc<T>)
    requires Executes(s, t, pc, i) && Arrives(s, t, pc, i, q) && KindOk(t, pc) && AnswerOk(t, pc)
    ensures AnswerOk(t, q)
  {
    hide MayVisit, MayFinish, InMap, ListenerStopped, StageNext, StageInstr, Front, ExecutesOn;
    if q.Leave? {
      hide Executes, Arrives;
      AnsweredInside(s, t, pc, i, q);
    } else if q.Unlock? || q.Done? {
      hide Executes, Arrives;
      AnsweredOutside(s, t, pc, i, q);
    }
  }

  lemma AnsweredInside<T>(s: State<T>, t: Tid, pc: Pc<T>, i: Instr<T>, q: Pc<T>)
    requires Executes(s, t, pc, i) && Arrives(s, t, pc, i, q) && KindOk(t, pc) && AnswerOk(t, pc) && q.Leave?
    ensures AnswerOk(t, q)
  {
    hide MayVisit, MayFinish, InMap, ListenerStopped, StageNext, StageInstr, Front, ExecutesOn;
  }

  lemma AnsweredOutside<T>(s: State<T>, t: Tid, pc: Pc<T>, i: Instr<T>, q: Pc<T>)
    requires Executes(s, t, pc, i) && Arrives(s, t, pc, i, q) && KindOk(t, pc) && AnswerOk(t, pc)
    requires q.Unlock? || q.Done?
    ensures AnswerOk(t, q)
  {
    hide MayVisit, MayFinish, InMap, ListenerStopped, StageNext, StageInstr, Front, ExecutesOn;
  }

  lemma SpawnsSender<T>(s: State<T>, t: Tid, pc: Pc<T>, i: Instr<T>, q: Pc<T>)
    requires Executes(s, t, pc, i) && Arrives(s, t, pc, i, q) && i.GoSender?
    ensures q.Done? && q.op.Write?
  {
    hide MayVisit, MayFinish, InMap, ListenerStopped, StageNext, StageInstr, Front, ExecutesOn;
  }

  lemma DoneStays<T>(s: State<T>, t: Tid, i: Instr<T>)
    requires Executes(s, t, At(s, t), i)
    ensures !At(s, t).Done? && !At(s, t).Gone?
  {
  }

  // ---------- steps ----------

  lemma FlagsAfter<T>(s: State<T>, t: Tid, i: Instr<T>, q: Pc<T>)
    ensures var z := Exec(s, t, i, q);
            && (s.cancelled ==> z.cancelled) && z.log.stopped == (s.log.stopped || i.SetStopped?)
            && z.barrier.started == (i.SetStarted? || (s.barrier.started && !i.SetStopped?))
  {
    hide ListenersAfter, ProcsAfter, ChanAfter, RoundsAfter, WgAfter;
  }

  lemma ServeOwn<T>(s: State<T>, t: Tid, i: Instr<T>, q: Pc<T>)
    requires Firing(s, t, i, q) && ServeOk(s, t, At(s, t)) && ThreadOk(s, t)
    ensures ServeOk(Exec(s, t, i, q), t, q)
  {
    hide Exec, Executes, Arrives, Moves, Ready, Faults, SpawnsOk;
    FlagsAfter(s, t, i, q);
    Others(s, t, i, q);
    DoneStays(s, t, i);
    if t.Worker? { WorkerLeaves(s, t, At(s, t), i, q); }
    if (q.Unlock? || q.Done?) && q.op.Start? { StartReturns(s, t, At(s, t), i, q); }
    Answered(s, t, At(s, t), i, q);
    if t.Async? { assert !Spawned(Call(t.n), t, i); }
  }

  lemma ServeOther<T>(s: State<T>, t: Tid, i: Instr<T>, q: Pc<T>, u: Tid)
    requires Firing(s, t, i, q) && ServeOk(s, u, At(s, u)) && u != t && !Spawned(u, t, i)
    ensures ServeOk(Exec(s, t, i, q), u, At(s, u))
  {
    hide Exec, Executes, Arrives, Moves, Ready, Faults, SpawnsOk;
    FlagsAfter(s, t, i, q);
    Others(s, t, i, q);
    DoneStays(s, t, i);
    if u.Async? { assert !Spawned(Call(u.n), t, i); }
  }

  lemma ServeSpawned<T>(s: State<T>, t: Tid, i: Instr<T>, q: Pc<T>, u: Tid)
    requires Firing(s, t, i, q) && Spawned(u, t, i)
    ensures ServeOk(Exec(s, t, i, q), u, At(Exec(s, t, i, q), u))
  {
    hide Exec, Executes, Arrives, Moves, Ready, Faults;
    Others(s, t, i, q);
    if i.GoSender? { SpawnsSender(s, t, At(s, t), i, q); }
  }

  lemma RemovingMoves<T>(s: State<T>, t: Tid, pc: Pc<T>, i: Instr<T>, q: Pc<T>, l: Lid)
    requires Executes(s, t, pc, i) && Arrives(s, t, pc, i, q) && Removing(pc, l)
    ensures Removing(q, l)
  {
    hide MayVisit, MayFinish, InMap, ListenerStopped, StageNext, StageInstr, Front, ExecutesOn;
    if pc.Unsub? {
      hide Executes, Arrives;
      UnsubMoves(s, t, pc, i, q);
    } else if pc.Leave? || pc.Unlock? {
      hide Executes, Arrives;
      ReturnMoves(s, t, pc, i, q);
    } else {
      hide Executes, Arrives, Removing;
      StopMoves(s, t, pc, i, q, l);
    }
  }

  lemma StopMoves<T>(s: State<T>, t: Tid, pc: Pc<T>, i: Instr<T>, q: Pc<T>, l: Lid)
    requires Executes(s, t, pc, i) && Arrives(s, t, pc, i, q) && Removing(pc, l)
    requires !pc.Unsub? && !pc.Leave? && !pc.Unlock?
    ensures Removing(q, l)
  {
    hide MayVisit, MayFinish, InMap, ListenerStopped, StageNext, StageInstr, Front, ExecutesOn;
  }

  lemma UnsubMoves<T>(s: State<T>, t: Tid, pc: Pc<T>, i: Instr<T>, q: Pc<T>)
    requires Executes(s, t, pc, i) && Arrives(s, t, pc, i, q) && pc.Unsub?
    ensures (q.Unsub? && q.l == pc.l) || (q.Leave? && q.op == Unsubscribe(pc.l))
  {
    hide MayVisit, MayFinish, InMap, ListenerStopped, StageNext, Front;
  }

  lemma ReturnMoves<T>(s: State<T>, t: Tid, pc: Pc<T>, i: Instr<T>, q: Pc<T>)
    requires Executes(s, t, pc, i) && Arrives(s, t, pc, i, q) && (pc.Leave? || pc.Unlock?)
    ensures q == Done(pc.op, pc.res)
  {
    hide MayVisit, MayFinish, InMap, ListenerStopped, StageNext, StageInstr, Front;
  }

  lemma DeletesMoves<T>(s: State<T>, t: Tid, pc: Pc<T>, i: Instr<T>, q: Pc<T>)
    requires Executes(s, t, pc, i) && Arrives(s, t, pc, i, q) && i.Delete?
    ensures Removing(q, i.l)
  {
    hide MayVisit, MayFinish, InMap, ListenerStopped, StageNext, StageInstr, Front, ExecutesOn;
  }

  lemma ByStep<T>(s: State<T>, t: Tid, i: Instr<T>, q: Pc<T>, l: Lid)
    requires Firing(s, t, i, q) && l in s.listeners && ByOk(s, l)
    ensures l in Exec(s, t, i, q).listeners && ByOk(Exec(s, t, i, q), l)
  {
    hide Exec, Executes, Arrives, Moves, Ready, Faults, Removing;
    PresenceAfter(s, t, i, q);
    Others(s, t, i, q);
    if i == Delete(l) {
      DeletesMoves(s, t, At(s, t), i, q);
    } else if s.listeners[l].presence.Removed? {
      var who := s.listeners[l].presence.who;
      if who == t {
        RemovingMoves(s, t, At(s, t), i, q, l);
      } else if Spawned(who, t, i) {
        NotRemoving<T>(l);
      }
    }
  }

  lemma NotRemoving<T>(l: Lid)
    ensures !Removing<T>(Gone, l)
  {
  }

  lemma ServeStep<T>(s: State<T>, t: Tid, i: Instr<T>, q: Pc<T>)
    requires SafeInv(s) && ServeInv(s) && Firing(s, t, i, q)
    ensures ServeInv(Exec(s, t, i, q))
  {
    hide Exec, Firing, LocksOk, LifeOk, WorkersOk, PcOk, ClosedOk, ServeOk, ByOk, ThreadOk;
    var z := Exec(s, t, i, q);
    OpenLocks(s, t, 0);
    FiringThread(s, t, i, q);
    Others(s, t, i, q);
    ListenersAre(s, t, i, q);
    forall u {:trigger At(z, u)} ensures ServeOk(z, u, At(z, u)) {
      assert ServeOk(s, u, At(s, u)) && ServeOk(s, t, At(s, t));
      if u == t {
        ServeOwn(s, t, i, q);
      } else if Spawned(u, t, i) {
        ServeSpawned(s, t, i, q, u);
      } else {
        ServeOther(s, t, i, q, u);
      }
    }
    forall l | l in z.listeners ensures ByOk(z, l) {
      if l in s.listeners {
        ByStep(s, t, i, q, l);
      } else {
        ByNew(z, l, s.log.clock);
      }
    }
  }

  lemma FiringThread<T>(s: State<T>, t: Tid, i: Instr<T>, q: Pc<T>)
    requires Firing(s, t, i, q)
    ensures t in s.procs && SpawnsOk(s, t, i)
  {
    hide Executes, Arrives, Moves, Ready, Faults, SpawnsOk;
  }

  lemma ByNew<T>(z: State<T>, l: Lid, now: nat)
    requires l in z.listeners && z.listeners[l] == NewListener(now)
    ensures ByOk(z, l)
  {
  }

  lemma ServeStill<T>(s: State<T>, z: State<T>)
    requires ServeInv(s) && Still(s, z)
    ensures ServeInv(z)
  {
    hide StillListener, OpOk, Removing;
    forall u {:trigger At(z, u)} ensures ServeOk(z, u, At(z, u)) {
      assert ServeOk(s, u, At(s, u));
      if u.Async? && u in z.procs { assert u in s.procs; }
    }
    forall l | l in z.listeners ensures ByOk(z, l) {
      assert ByOk(s, l);
      ByStill(s, z, l);
    }
  }

  lemma ByStill<T>(s: State<T>, z: State<T>, l: Lid)
    requires Still(s, z) && l in s.listeners && ByOk(s, l)
    ensures l in z.listeners && ByOk(z, l)
  {
    NotRemoving<T>(l);
  }

  lemma ServeApply<T>(s: State<T>, a: Act<T>, z: State<T>)
    requires SafeInv(s) && ServeInv(s) && Apply(s, a) == Some(z) && !Restarts(s, a)
    ensures ServeInv(z)
  {
    hide SafeInv, ServeInv, Code, Ready, Exec;
    if a.Do? {
      var Line(i, q) := Code(s, a.t, s.procs[a.t], a.c).value;
      NoFault(s, a.t, a.c, i, q);
      SafeStep(s, a.t, a.c, i, q);
      ServeStep(s, a.t, i, q);
    } else {
      StillApply(s, a, z);
      ServeStill(s, z);
    }
  }
}
