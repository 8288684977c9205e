/** Mutual exclusion: the state of every mutex agrees with the program counters. */
module BroadcasterLocks {
  import opened Wrappers
  import opened StatusBarrier
  import opened Broadcaster
  import opened BroadcasterCode

  /** The listener a program counter refers to exists. */
  ghost predicate RefOk<T>(s: State<T>, pc: Pc<T>) {
    match pc
    case Unsub(l, _) => l in s.listeners
    case StopOne(_, l, _) => l in s.listeners
    case StopDelete(_, l) => l in s.listeners
    case Visit(_, l) => l in s.listeners
    case LEntering(_, l) => l in s.listeners
    case LCheck(_, l) => l in s.listeners
    case LSend(_, l) => l in s.listeners
    case LOut(_, l) => l in s.listeners
    case _ => true
  }

  /** Calls, the goroutines of Write and the goroutine of Start each run their own code. */
  ghost predicate KindOk<T>(t: Tid, pc: Pc<T>) {
    match t
    case Call(_) => !pc.Sender? && !pc.SenderOut? && !IsWorkerPc(pc) && !pc.Gone? && OpOk(pc)
    case Async(_) => pc.Sender? || pc.SenderOut? || pc.Gone?
    case Worker(_) => IsWorkerPc(pc) || pc.Gone?
  }

  ghost predicate OpOk<T>(pc: Pc<T>) {
    match pc
    case Enter(op) => !op.Start? && !op.Stop?
    case Check(op) => !op.Start? && !op.Stop?
    case Body(op) => !op.Start? && !op.Stop? && !op.IsStopped?
    case Await(op) => op.Start? || op.Stop?
    case Drain(op) => op.Start? || op.Stop?
    case Status(op) => op.Start? || op.Stop?
    case Leave(op, _) => !op.Start? && !op.Stop?
    case Unlock(op, _) => op.Start? || op.Stop?
    case _ => true
  }

  ghost predicate BarrierOk<T>(s: State<T>) {
    forall t {:trigger At(s, t)} :: RoleOk(s.barrier, t, BRole(At(s, t)))
  }

  ghost predicate ListenerBarrierOk<T>(s: State<T>, l: Lid)
    requires l in s.listeners
  {
    forall t {:trigger At(s, t)} :: RoleOk(s.listeners[l].barrier, t, LRole(At(s, t), l))
  }

  ghost predicate ThreadOk<T>(s: State<T>, t: Tid)
    requires t in s.procs
  {
    RefOk(s, s.procs[t]) && KindOk(t, s.procs[t])
  }

  /** The Start call whose goroutine runs has got past its go statement. */
  ghost predicate SpawnedWorker<T>(pc: Pc<T>) {
    pc.StartMark? || pc == Unlock(Start, Nil) || pc == Done(Start, Nil)
  }

  ghost predicate SubscribedBy<T>(pc: Pc<T>, l: Lid) {
    pc == Leave(Subscribe, Got(l)) || pc == Done(Subscribe, Got(l))
  }

  ghost predicate LocksOk<T>(s: State<T>) {
    && BarrierOk(s)
    && (forall l :: l in s.listeners ==> ListenerBarrierOk(s, l))
    && (forall t :: t in s.procs ==> ThreadOk(s, t))
    && AnchorsOk(s)
  }

  /** Goroutines and listeners come from the calls they are named after. */
  ghost predicate AnchorsOk<T>(s: State<T>) {
    && (forall n: nat {:trigger Async(n)} :: Async(n) in s.procs ==> At(s, Call(n)).Done?)
    && (forall n: nat {:trigger Worker(n)} :: Worker(n) in s.procs ==> SpawnedWorker(At(s, Call(n))))
    && (forall l :: l in s.listeners ==> SubscribedBy(At(s, Call(l)), l))
  }

  /** Thread `t`, making choice `c`, executes `i` without a fault and goes on to `q`. */
  ghost predicate Fires<T>(s: State<T>, t: Tid, c: Choice, i: Instr<T>, q: Pc<T>) {
    t in s.procs && Code(s, t, s.procs[t], c) == Some(Line(i, q)) && Ready(s, i) && !Faults(s, t, i)
  }

  /** What the proofs below need to know of a line that fires. */
  ghost predicate Firing<T>(s: State<T>, t: Tid, i: Instr<T>, q: Pc<T>) {
    && t in s.procs && Ready(s, i) && !Faults(s, t, i)
    && Executes(s, t, s.procs[t], i) && Arrives(s, t, s.procs[t], i, q) && Moves(s.procs[t], i, q)
    && SpawnsOk(s, t, i)
  }

  /** The thread a go statement starts is new; so is the listener a Subscribe call stores. */
  ghost predicate SpawnsOk<T>(s: State<T>, t: Tid, i: Instr<T>) {
    && (i.GoSender? ==> t.Call? && Async(t.n) !in s.procs)
    && (i.GoWorker? ==> t.Call? && Worker(t.n) !in s.procs)
    && (i.Store? ==> t.Call? && i.l !in s.listeners)
  }

  lemma FiresFiring<T>(s: State<T>, t: Tid, c: Choice, i: Instr<T>, q: Pc<T>)
    requires LocksOk(s) && Fires(s, t, c, i, q)
    ensures Firing(s, t, i, q)
  {
    hide Code, Arrives, Moves, Executes, Ready, Faults, SpawnsOk, LocksOk;
    CodeTables(s, t, s.procs[t], c, i, q);
    ChildIsNew(s, t, i);
  }

  lemma ChildIsNew<T>(s: State<T>, t: Tid, i: Instr<T>)
    requires LocksOk(s) && t in s.procs && Executes(s, t, s.procs[t], i)
    ensures SpawnsOk(s, t, i)
  {
    assert ThreadOk(s, t);
    assert i.Store? && i.l in s.listeners ==> SubscribedBy(At(s, Call(i.l)), i.l);
  }

  // ---------- the program counters and the listeners after a step ----------

  ghost predicate Spawned<T>(u: Tid, t: Tid, i: Instr<T>) {
    (i.GoSender? && u == Async(t.n)) || (i.GoWorker? && u == Worker(t.n))
  }

  /** Every thread but the executing one and the one it spawns stays where it is. */
  lemma Others<T>(s: State<T>, t: Tid, i: Instr<T>, q: Pc<T>)
    requires SpawnsOk(s, t, i)
    ensures At(Exec(s, t, i, q), t) == q
    ensures forall u :: u != t && !Spawned(u, t, i) ==> At(Exec(s, t, i, q), u) == At(s, u)
    ensures forall u :: Spawned(u, t, i) ==>
              u != t && At(s, u) == Gone && At(Exec(s, t, i, q), u) == if i.GoSender? then Sender(i.m) else Select
    ensures Exec(s, t, i, q).procs.Keys ==
            s.procs.Keys + {t} + (set u | u in {Async(t.n), Worker(t.n)} && Spawned(u, t, i))
  {
    hide BarrierAfter, ListenersAfter, LogAfter, ChanAfter, WgAfter;
  }

  function ListenerAfter<T>(x: Listener<T>, l: Lid, t: Tid, i: Instr<T>, now: nat): Listener<T> {
    if i.On? && i.l == l then LAfter(x, t, i.li)
    else if i.Delete? && i.l == l then x.(presence := Removed(now, t))
    else x
  }

  /** The listeners after a step: the old ones, and the one stored. */
  lemma ListenersAre<T>(s: State<T>, t: Tid, i: Instr<T>, q: Pc<T>)
    requires SpawnsOk(s, t, i)
    ensures var ls := Exec(s, t, i, q).listeners;
            && ls.Keys == s.listeners.Keys + (if i.Store? then {i.l} else {})
            && (forall l :: l in s.listeners ==> ls[l] == ListenerAfter(s.listeners[l], l, t, i, s.log.clock))
            && (i.Store? ==> ls[i.l] == NewListener(s.log.clock))
  {
    hide LAfter, BarrierAfter, ProcsAfter, LogAfter, ChanAfter, WgAfter, NewListener;
    assert Exec(s, t, i, q).listeners == ListenersAfter(s.listeners, t, i, s.log.clock);
    hide Exec;
  }

  // ---------- every step keeps LocksOk ----------

  lemma RoleStepKeeps<T>(s: State<T>, t: Tid, i: Instr<T>, r: Role, r': Role, u: Tid, ru: Role)
    requires RoleStep(i, r, r') && Ready(s, i) && !i.GoSender?
    requires RoleOk(s.barrier, t, r) && RoleOk(s.barrier, u, ru)
    ensures RoleOk(BarrierAfter(s.barrier, t, i), t, r')
    ensures u != t ==> RoleOk(BarrierAfter(s.barrier, t, i), u, ru)
  {
  }

  lemma BarrierStep<T>(s: State<T>, t: Tid, i: Instr<T>, q: Pc<T>)
    requires BarrierOk(s) && Firing(s, t, i, q)
    ensures BarrierOk(Exec(s, t, i, q))
  {
    hide BarrierAfter, Faults, LogAfter, ListenersAfter, ChanAfter, ProcsAfter, RoleStep, Executes, Ready, LRoleStep,
      SpawnsOk, BRole, RoleOk;
    var z := Exec(s, t, i, q);
    Others(s, t, i, q);
    forall u ensures RoleOk(z.barrier, u, BRole(At(z, u))) {
      assert RoleOk(s.barrier, u, BRole(At(s, u))) && RoleOk(s.barrier, t, BRole(At(s, t)));
      if i.GoSender? {
        HandOverKeeps(s, t, i, q, u);
      } else {
        RoleStepKeeps(s, t, i, BRole(At(s, t)), BRole(q), u, BRole(At(s, u)));
        assert Spawned(u, t, i) ==> BRole(At(s, u)) == BRole(At(z, u)) by { SelectRole(s, t, i, u); }
      }
    }
  }

  lemma SelectRole<T>(s: State<T>, t: Tid, i: Instr<T>, u: Tid)
    ensures BRole<T>(Gone) == BRole<T>(Select)
  {
  }

  lemma HandOverKeeps<T>(s: State<T>, t: Tid, i: Instr<T>, q: Pc<T>, u: Tid)
    requires BarrierOk(s) && i.GoSender? && RoleStep(i, BRole(At(s, t)), BRole(q)) && SpawnsOk(s, t, i)
    ensures RoleOk(BarrierAfter(s.barrier, t, i), u, BRole(At(Exec(s, t, i, q), u)))
  {
    hide ListenersAfter, LogAfter, ChanAfter;
    Others(s, t, i, q);
    assert RoleOk(s.barrier, u, BRole(At(s, u))) && RoleOk(s.barrier, t, BRole(At(s, t)));
  }

  lemma LRoleStepKeeps<T>(x: Listener<T>, l: Lid, t: Tid, i: Instr<T>, now: nat, r: Role, r': Role, u: Tid, ru: Role)
    requires LRoleStep(i, l, r, r') && (i.On? && i.l == l ==> LReady(x, i.li))
    requires RoleOk(x.barrier, t, r) && RoleOk(x.barrier, u, ru)
    ensures RoleOk(ListenerAfter(x, l, t, i, now).barrier, t, r')
    ensures u != t ==> RoleOk(ListenerAfter(x, l, t, i, now).barrier, u, ru)
  {
  }

  lemma SpawnedLRole<T>(pc: Pc<T>, q: Pc<T>, l: Lid)
    ensures pc.Gone? && (q.Sender? || q.Select?) ==> LRole(q, l) == LRole(pc, l)
  {
  }

  lemma ListenerBarrierStep<T>(s: State<T>, t: Tid, i: Instr<T>, q: Pc<T>, l: Lid)
    requires l in s.listeners && ListenerBarrierOk(s, l) && Firing(s, t, i, q)
    ensures l in Exec(s, t, i, q).listeners && ListenerBarrierOk(Exec(s, t, i, q), l)
  {
    hide Faults, Exec, ListenerAfter, RoleStep, LRoleStep, BRole, LRole, Executes, Arrives, RoleOk, SpawnsOk;
    var z := Exec(s, t, i, q);
    Others(s, t, i, q);
    ListenersAre(s, t, i, q);
    forall u ensures RoleOk(z.listeners[l].barrier, u, LRole(At(z, u), l)) {
      assert RoleOk(s.listeners[l].barrier, u, LRole(At(s, u), l));
      assert RoleOk(s.listeners[l].barrier, t, LRole(At(s, t), l));
      SpawnedLRole(At(s, u), At(z, u), l);
      LRoleStepKeeps(s.listeners[l], l, t, i, s.log.clock, LRole(At(s, t), l), LRole(q, l), u, LRole(At(s, u), l));
    }
  }

  lemma ThreadStep<T>(s: State<T>, t: Tid, i: Instr<T>, q: Pc<T>)
    requires t in s.procs && ThreadOk(s, t) && Firing(s, t, i, q)
    ensures RefOk(s, q) && KindOk(t, q)
  {
    hide *;
    if IsReadPc(s.procs[t]) {
      ThreadStepRead(s, t, i, q);
    } else if IsWorkerPc(s.procs[t]) {
      ThreadStepWorker(s, t, i, q);
    } else {
      ThreadStepStatus(s, t, i, q);
    }
  }

  lemma ThreadStepRead<T>(s: State<T>, t: Tid, i: Instr<T>, q: Pc<T>)
    requires t in s.procs && ThreadOk(s, t) && Firing(s, t, i, q) && IsReadPc(s.procs[t])
    ensures RefOk(s, q) && KindOk(t, q)
  {
    hide *;
    if s.procs[t].Body? || s.procs[t].Unsub? {
      ThreadStepBody(s, t, i, q);
    } else {
      ThreadStepOther(s, t, i, q);
    }
  }

  lemma ThreadStepBody<T>(s: State<T>, t: Tid, i: Instr<T>, q: Pc<T>)
    requires t in s.procs && ThreadOk(s, t) && Firing(s, t, i, q) && (s.procs[t].Body? || s.procs[t].Unsub?)
    ensures RefOk(s, q) && KindOk(t, q)
  {
    hide Moves, Ready, Faults, SpawnsOk, StageNext, StageInstr, ListenerStopped, Executes;
  }

  lemma ThreadStepOther<T>(s: State<T>, t: Tid, i: Instr<T>, q: Pc<T>)
    requires t in s.procs && ThreadOk(s, t) && Firing(s, t, i, q)
    requires IsReadPc(s.procs[t]) && !s.procs[t].Body? && !s.procs[t].Unsub?
    ensures RefOk(s, q) && KindOk(t, q)
  {
    hide Moves, Ready, Faults, SpawnsOk, StageNext, StageInstr, ListenerStopped, Executes, InMap;
  }

  lemma ThreadStepWorker<T>(s: State<T>, t: Tid, i: Instr<T>, q: Pc<T>)
    requires t in s.procs && ThreadOk(s, t) && Firing(s, t, i, q) && IsWorkerPc(s.procs[t])
    ensures RefOk(s, q) && KindOk(t, q)
  {
    hide Moves, Ready, Faults, SpawnsOk, MayFinish, ListenerStopped, Front, Executes, OpOk;
  }

  lemma ThreadStepStatus<T>(s: State<T>, t: Tid, i: Instr<T>, q: Pc<T>)
    requires t in s.procs && ThreadOk(s, t) && Firing(s, t, i, q) && !IsReadPc(s.procs[t]) && !IsWorkerPc(s.procs[t])
    ensures RefOk(s, q) && KindOk(t, q)
  {
    hide Moves, Ready, Faults, SpawnsOk, StageNext, StageInstr, MayFinish, ListenerStopped, Executes;
  }

  lemma RefGrows<T>(s: State<T>, z: State<T>, pc: Pc<T>)
    requires RefOk(s, pc) && s.listeners.Keys <= z.listeners.Keys
    ensures RefOk(z, pc)
  {
  }

  lemma ThreadsStep<T>(s: State<T>, t: Tid, i: Instr<T>, q: Pc<T>)
    requires (forall u :: u in s.procs ==> ThreadOk(s, u)) && Firing(s, t, i, q)
    ensures forall u :: u in Exec(s, t, i, q).procs ==> ThreadOk(Exec(s, t, i, q), u)
  {
    hide Executes, Arrives, Moves, Ready, Faults, SpawnsOk, RefOk, KindOk, ProcsAfter, BarrierAfter, ListenersAfter,
      ChanAfter, LogAfter;
    var z := Exec(s, t, i, q);
    Others(s, t, i, q);
    ListenersAre(s, t, i, q);
    ThreadStep(s, t, i, q);
    forall u | u in z.procs ensures ThreadOk(z, u) {
      if Spawned(u, t, i) {
        SpawnedOk(z, u, At(z, u));
      } else {
        assert u != t ==> ThreadOk(s, u) && At(z, u) == At(s, u);
        RefGrows(s, z, At(z, u));
      }
    }
  }

  lemma SpawnedOk<T>(z: State<T>, u: Tid, pc: Pc<T>)
    requires (u.Async? && pc.Sender?) || (u.Worker? && pc.Select?)
    ensures RefOk(z, pc) && KindOk(u, pc)
  {
  }

  lemma SettledStep<T>(s: State<T>, t: Tid, i: Instr<T>, q: Pc<T>, l: Lid)
    requires Arrives(s, t, At(s, t), i, q) && Executes(s, t, At(s, t), i)
    ensures !At(s, t).Done?
    ensures SubscribedBy(At(s, t), l) ==> SubscribedBy(q, l)
    ensures SpawnedWorker(At(s, t)) ==> SpawnedWorker(q)
  {
    assert !At(s, t).Done?;
    hide Executes, Arrives;
    if At(s, t).Leave? {
      LeaveLine(s, t, At(s, t), i, q);
    } else if At(s, t).StartMark? || At(s, t).Unlock? {
      if At(s, t).StartMark? { MarkLine(s, t, At(s, t), i, q); }
      UnlockLine(s, t, At(s, t), i, q);
    }
  }

  lemma LeaveLine<T>(s: State<T>, t: Tid, pc: Pc<T>, i: Instr<T>, q: Pc<T>)
    requires Arrives(s, t, pc, i, q) && Executes(s, t, pc, i) && pc.Leave?
    ensures q == Done(pc.op, pc.res)
  {
  }

  lemma UnlockLine<T>(s: State<T>, t: Tid, pc: Pc<T>, i: Instr<T>, q: Pc<T>)
    requires Arrives(s, t, pc, i, q) && (pc.StartMark? || pc.Unlock?)
    ensures pc.StartMark? && i.SetStarted? ==> q == Unlock(Start, Nil)
    ensures pc.Unlock? ==> q == Done(pc.op, pc.res)
  {
    hide MayVisit, MayFinish, InMap, StageNext, StageInstr, ListenerStopped, Front;
  }

  lemma MarkLine<T>(s: State<T>, t: Tid, pc: Pc<T>, i: Instr<T>, q: Pc<T>)
    requires Arrives(s, t, pc, i, q) && pc.StartMark?
    ensures i.SetStarted?
  {
    hide MayVisit, MayFinish, InMap, StageNext, StageInstr, ListenerStopped, Front;
  }

  lemma BornStep<T>(s: State<T>, t: Tid, i: Instr<T>, q: Pc<T>)
    requires Arrives(s, t, At(s, t), i, q) && Executes(s, t, At(s, t), i)
    ensures i.GoSender? ==> q.Done?
    ensures i.GoWorker? ==> SpawnedWorker(q)
    ensures i.Store? ==> SubscribedBy(q, i.l) && i.l == t.n
  {
    hide StageNext, StageInstr, MayFinish, MayVisit, ListenerStopped, Front, InMap, ExecutesOn;
  }

  /** The call `n` before and after a step, and the threads and listeners named after it. */
  lemma AnchorStep<T>(s: State<T>, t: Tid, i: Instr<T>, q: Pc<T>, n: nat)
    requires Firing(s, t, i, q)
    ensures var z := Exec(s, t, i, q);
            && (At(s, Call(n)).Done? ==> At(z, Call(n)) == At(s, Call(n)))
            && (SubscribedBy(At(s, Call(n)), n) ==> SubscribedBy(At(z, Call(n)), n))
            && (SpawnedWorker(At(s, Call(n))) ==> SpawnedWorker(At(z, Call(n))))
            && (Async(n) in z.procs && Async(n) !in s.procs ==> At(z, Call(n)).Done?)
            && (Worker(n) in z.procs && Worker(n) !in s.procs ==> SpawnedWorker(At(z, Call(n))))
            && (n in z.listeners && n !in s.listeners ==> SubscribedBy(At(z, Call(n)), n))
  {
    hide Executes, Arrives, Moves, Ready, Faults, ProcsAfter, Exec, SubscribedBy, SpawnedWorker;
    Others(s, t, i, q);
    ListenersAre(s, t, i, q);
    SettledStep(s, t, i, q, n);
    BornStep(s, t, i, q);
  }

  lemma AnchorsStep<T>(s: State<T>, t: Tid, i: Instr<T>, q: Pc<T>)
    requires AnchorsOk(s) && Firing(s, t, i, q)
    ensures AnchorsOk(Exec(s, t, i, q))
  {
    hide Firing, Exec, SubscribedBy, SpawnedWorker;
    var z := Exec(s, t, i, q);
    forall l | l in z.listeners ensures SubscribedBy(At(z, Call(l)), l) { AnchorStep(s, t, i, q, l); }
    forall n: nat {:trigger Async(n)} | Async(n) in z.procs ensures At(z, Call(n)).Done? { AnchorStep(s, t, i, q, n); }
    forall n: nat {:trigger Worker(n)} | Worker(n) in z.procs ensures SpawnedWorker(At(z, Call(n))) {
      AnchorStep(s, t, i, q, n);
    }
  }

  lemma LocksStep<T>(s: State<T>, t: Tid, c: Choice, i: Instr<T>, q: Pc<T>)
    requires LocksOk(s) && Fires(s, t, c, i, q)
    ensures Firing(s, t, i, q) && LocksOk(Exec(s, t, i, q))
  {
    hide Firing, Fires, ThreadOk, BarrierOk, ListenerBarrierOk, AnchorsOk, Exec;
    var z := Exec(s, t, i, q);
    FiresFiring(s, t, c, i, q);
    BarrierStep(s, t, i, q);
    ThreadsStep(s, t, i, q);
    AnchorsStep(s, t, i, q);
    forall l | l in z.listeners ensures ListenerBarrierOk(z, l) {
      if l in s.listeners { ListenerBarrierStep(s, t, i, q, l); } else { NewListenerStep(s, t, i, q, l); }
    }
  }

  lemma NewListenerStep<T>(s: State<T>, t: Tid, i: Instr<T>, q: Pc<T>, l: Lid)
    requires Firing(s, t, i, q) && l !in s.listeners && l in Exec(s, t, i, q).listeners
    requires forall u :: u in s.procs ==> ThreadOk(s, u)
    ensures ListenerBarrierOk(Exec(s, t, i, q), l)
  {
    hide Executes, Arrives, Moves, Ready, Faults, ProcsAfter, BarrierAfter, ListenersAfter, ChanAfter, LogAfter;
    var z := Exec(s, t, i, q);
    Others(s, t, i, q);
    ListenersAre(s, t, i, q);
    forall u ensures LRole(At(z, u), i.l) == Outside {
      assert u in s.procs ==> ThreadOk(s, u);
      if u == t { NewListenerRole(s, t, i, q); }
    }
  }

  lemma NewListenerRole<T>(s: State<T>, t: Tid, i: Instr<T>, q: Pc<T>)
    requires Firing(s, t, i, q) && i.Store?
    ensures LRole(q, i.l) == Outside
  {
  }
}
