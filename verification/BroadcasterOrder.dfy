/** What becomes of a write: the messages keep their order, and none is lost or made up. */
module BroadcasterOrder {
  import opened Wrappers
  import opened StatusBarrier
  import opened Broadcaster
  import opened BroadcasterCode
  import opened BroadcasterLocks
  import opened BroadcasterSafety

  ghost predicate Distinct<X>(xs: seq<X>) { forall i, j :: 0 <= i < j < |xs| ==> xs[i] != xs[j] }

  ghost predicate AboutToSend<T>(pc: Pc<T>) { (pc.Body? && IsWrite(pc.op)) || pc.Sender? }

  /** Write call `n` has passed the check and has neither been sent nor timed out. */
  ghost predicate Pending<T>(s: State<T>, n: nat) { AboutToSend(At(s, Call(n))) || AboutToSend(At(s, Async(n))) }

  /** A write past the check is in exactly one place. */
  ghost predicate OneFate<T>(s: State<T>, m: Msg<T>)
    requires m.Msg?
  {
    var pending, sent, lapsed := Pending(s, m.id), m in s.log.accepted, m.id in s.log.lapsed;
    (pending && !sent && !lapsed) || (!pending && sent && !lapsed) || (!pending && !sent && lapsed)
  }

  ghost predicate AdmittedPc<T>(pc: Pc<T>, v: T) {
    && (pc.Body? || pc.Leave? || pc.Done?) && (pc.op == Write(v) || pc.op == WriteSync(v))
    && (pc.Body? || pc.res.Nil?)
  }

  ghost predicate AdmittedOk<T>(s: State<T>, m: Msg<T>) {
    m.Msg? && AdmittedPc(At(s, Call(m.id)), m.value) && OneFate(s, m)
  }

  /** What a thread is about to send, or has been told is accepted, has been admitted under its own name. */
  ghost predicate SendOk<T>(s: State<T>, t: Tid, pc: Pc<T>) {
    match pc
    case Body(op) => IsWrite(op) ==> t.Call? && Msg(t.n, op.value) in s.log.admitted
    case Sender(m) => t.Async? && m.Msg? && m.id == t.n && m in s.log.admitted
    case Leave(op, res) => IsWrite(op) && res.Nil? ==> t.Call? && Msg(t.n, op.value) in s.log.admitted
    case Done(op, res) => IsWrite(op) && res.Nil? ==> t.Call? && Msg(t.n, op.value) in s.log.admitted
    case _ => true
  }

  ghost predicate OrderInv<T>(s: State<T>) {
    && |s.chan.buf| <= 1 && s.log.accepted == s.log.deq + s.chan.buf
    && Distinct(s.log.admitted) && Distinct(s.log.accepted)
    && (forall m :: m in s.log.accepted ==> m in s.log.admitted)
    && (forall m :: m in s.log.admitted ==> AdmittedOk(s, m))
    && (forall n :: n in s.log.lapsed ==> Named(s.log.admitted, n))
    && (forall t {:trigger At(s, t)} :: SendOk(s, t, At(s, t)))
  }

  ghost predicate Named<T>(ms: seq<Msg<T>>, n: nat) { exists m :: m in ms && m.Msg? && m.id == n }

  /** The worker never receives from the closed channel. */
  lemma ReceivesReal<T>(s: State<T>, t: Tid)
    requires SafeInv(s) && t in s.procs && At(s, t).Select? && Ready<T>(s, Recv)
    ensures s.chan.buf != []
  {
    hide ListenerBarrierOk, BarrierOk, AnchorsOk;
    assert ThreadOk(s, t);
  }

  lemma AdmittedAfter<T>(s: State<T>, t: Tid, i: Instr<T>, q: Pc<T>)
    ensures Exec(s, t, i, q).log.admitted == if i.Admit? then s.log.admitted + [i.m] else s.log.admitted
  {
    hide BarrierAfter, ListenersAfter, ProcsAfter, ChanAfter, RoundsAfter, WgAfter, ClockAfter, Front;
  }

  lemma SendGrows<T>(s: State<T>, z: State<T>, u: Tid, pc: Pc<T>)
    requires SendOk(s, u, pc) && forall m :: m in s.log.admitted ==> m in z.log.admitted
    ensures SendOk(z, u, pc)
  {
  }

  lemma SendStep<T>(s: State<T>, t: Tid, i: Instr<T>, q: Pc<T>, u: Tid)
    requires SendOk(s, u, At(s, u)) && SendOk(s, t, At(s, t)) && Firing(s, t, i, q) && ThreadOk(s, t)
    ensures SendOk(Exec(s, t, i, q), u, At(Exec(s, t, i, q), u))
  {
    hide Executes, Arrives, Moves, Ready, Faults, Exec, ThreadOk, SendOk;
    Others(s, t, i, q);
    AdmittedAfter(s, t, i, q);
    if u == t {
      SendOwn(s, t, i, q, Exec(s, t, i, q));
    } else if Spawned(u, t, i) {
      SendSpawned(s, t, i, u, At(Exec(s, t, i, q), u), Exec(s, t, i, q));
    } else {
      SendGrows(s, Exec(s, t, i, q), u, At(s, u));
    }
  }

  lemma SendOwn<T>(s: State<T>, t: Tid, i: Instr<T>, q: Pc<T>, z: State<T>)
    requires SendOk(s, t, At(s, t)) && Firing(s, t, i, q) && ThreadOk(s, t)
    requires z.log.admitted == if i.Admit? then s.log.admitted + [i.m] else s.log.admitted
    ensures SendOk(z, t, q)
  {
    hide Executes, Arrives, Moves, Ready, Faults, ThreadOk, SpawnsOk;
    SendArrives(s, t, i, q);
  }

  lemma SendSpawned<T>(s: State<T>, t: Tid, i: Instr<T>, u: Tid, pc: Pc<T>, z: State<T>)
    requires SendOk(s, t, At(s, t)) && t in s.procs && Executes(s, t, s.procs[t], i) && SpawnsOk(s, t, i)
             && Spawned(u, t, i)
    requires pc == if i.GoSender? then Sender(i.m) else Select
    requires forall m :: m in s.log.admitted ==> m in z.log.admitted
    ensures SendOk(z, u, pc)
  {
    hide ExecutesOn, InMap, MayFinish;
  }

  lemma SendArrives<T>(s: State<T>, t: Tid, i: Instr<T>, q: Pc<T>)
    requires Executes(s, t, At(s, t), i) && Arrives(s, t, At(s, t), i, q) && t in s.procs && ThreadOk(s, t)
    ensures !q.Sender?
    ensures q.Body? && IsWrite(q.op) ==> t.Call? && i == Admit(Msg(t.n, q.op.value))
    ensures (q.Leave? || q.Done?) && IsWrite(q.op) && q.res.Nil? ==>
              (At(s, t).Body? && At(s, t).op == q.op) || At(s, t) == Leave(q.op, Nil)
  {
    hide ExecutesOn, MayVisit, MayFinish, InMap, ListenerStopped, StageNext, StageInstr, RefOk, Front;
  }

  lemma AdmittedPcStep<T>(s: State<T>, t: Tid, i: Instr<T>, q: Pc<T>, v: T)
    requires Firing(s, t, i, q) && AdmittedPc(At(s, t), v)
    ensures AdmittedPc(q, v)
  {
    hide Moves, Executes, Ready, Faults, MayVisit, MayFinish, InMap, ListenerStopped, StageNext, StageInstr, SpawnsOk;
  }

  lemma AboutStep<T>(s: State<T>, t: Tid, i: Instr<T>, q: Pc<T>)
    requires Firing(s, t, i, q) && t in s.procs && ThreadOk(s, t) && SendOk(s, t, At(s, t))
    ensures AboutToSend(q) == (i.Admit? || (AboutToSend(At(s, t)) && !i.Push? && !i.Lapse? && !i.GoSender?))
    ensures i.Push? || i.Lapse? || i.GoSender? ==> AboutToSend(At(s, t))
    ensures i.Admit? || i.GoSender? ==> t.Call? && i.m.Msg? && i.m.id == t.n
    ensures i.Admit? ==> At(s, t).Check?
    ensures i.Push? ==> i.m.Msg? && i.m.id == t.n && i.m in s.log.admitted && !t.Worker?
    ensures i.Lapse? ==> i.id == t.n && !t.Worker?
    ensures AboutToSend(At(s, t)) ==> !t.Worker?
  {
    hide Moves, Ready, Faults, SpawnsOk;
    AboutExecutes(s, t, At(s, t), i);
    hide Executes;
    AboutMoves(s, t, At(s, t), i, q);
  }

  lemma AboutExecutes<T>(s: State<T>, t: Tid, pc: Pc<T>, i: Instr<T>)
    requires Executes(s, t, pc, i) && KindOk(t, pc) && SendOk(s, t, pc)
    ensures i.Push? || i.Lapse? || i.GoSender? ==> AboutToSend(pc)
    ensures i.Admit? || i.GoSender? ==> t.Call? && i.m.Msg? && i.m.id == t.n
    ensures i.Admit? ==> pc.Check?
    ensures i.Push? ==> i.m.Msg? && i.m.id == t.n && i.m in s.log.admitted && !t.Worker?
    ensures i.Lapse? ==> i.id == t.n && !t.Worker?
    ensures AboutToSend(pc) ==> !t.Worker?
  {
    hide ExecutesOn, InMap, MayFinish;
  }

  lemma AboutMoves<T>(s: State<T>, t: Tid, pc: Pc<T>, i: Instr<T>, q: Pc<T>)
    requires Executes(s, t, pc, i) && Arrives(s, t, pc, i, q) && KindOk(t, pc)
    ensures AboutToSend(q) == (i.Admit? || (AboutToSend(pc) && !i.Push? && !i.Lapse? && !i.GoSender?))
  {
    hide MayVisit, MayFinish, InMap, ListenerStopped, StageNext, StageInstr, ExecutesOn, Front, OpOk;
    if pc.Body? || pc.Sender? {
      hide Executes, Arrives;
      SendLine(s, t, pc, i, q);
    }
  }

  /** A pending write is sent, given up or handed over. */
  lemma SendLine<T>(s: State<T>, t: Tid, pc: Pc<T>, i: Instr<T>, q: Pc<T>)
    requires Executes(s, t, pc, i) && Arrives(s, t, pc, i, q) && (pc.Body? || pc.Sender?)
    ensures !q.Body? && !q.Sender? && !i.Admit?
    ensures AboutToSend(pc) ==> i.Push? || i.Lapse? || i.GoSender?
  {
    hide MayVisit, MayFinish, InMap, ListenerStopped, StageNext, StageInstr, ExecutesOn, Front;
  }

  /** A Write call and its goroutine are not both about to send. */
  ghost predicate Handed<T>(s: State<T>, n: nat) {
    AboutToSend(At(s, Call(n))) ==> Async(n) !in s.procs
  }

  lemma HandedLocks<T>(s: State<T>, n: nat)
    requires LocksOk(s)
    ensures Handed(s, n)
  {
    hide BarrierOk, ListenerBarrierOk, ThreadOk;
    assert Async(n) in s.procs ==> At(s, Call(n)).Done?;
  }

  /** The pending writes change only where a thread admits, sends or gives up its own message. */
  lemma PendingStep<T>(s: State<T>, t: Tid, i: Instr<T>, q: Pc<T>, n: nat)
    requires Firing(s, t, i, q) && t in s.procs && ThreadOk(s, t) && SendOk(s, t, At(s, t)) && Handed(s, n)
    ensures var z := Exec(s, t, i, q);
            Pending(z, n) ==
              if i.Admit? && i.m.id == n then true
              else if (i.Push? && i.m.id == n) || i == Lapse(n) then false
              else Pending(s, n)
  {
    hide Moves, Executes, Arrives, Ready, Faults, Exec, ThreadOk, SendOk;
    Others(s, t, i, q);
    AboutStep(s, t, i, q);
  }

  lemma SameId<T>(s: State<T>, m: Msg<T>, k: Msg<T>)
    requires AdmittedOk(s, m) && AdmittedOk(s, k) && m.id == k.id
    ensures m == k
  {
  }

  lemma FateStep<T>(s: State<T>, t: Tid, i: Instr<T>, q: Pc<T>, m: Msg<T>)
    requires OrderInv(s) && LocksOk(s) && Firing(s, t, i, q) && m in s.log.admitted
    ensures m.Msg? && OneFate(Exec(s, t, i, q), m)
  {
    hide Moves, Executes, Arrives, Ready, Faults, BarrierAfter, ListenersAfter, ProcsAfter, ChanAfter, RoundsAfter,
      LocksOk, SendOk, AboutToSend;
    OpenLocks(s, t, 0);
    HandedLocks(s, m.id);
    assert SendOk(s, t, At(s, t)) && AdmittedOk(s, m);
    AboutStep(s, t, i, q);
    PendingStep(s, t, i, q, m.id);
    if i.Push? && i.m.id == m.id { SameId(s, m, i.m); }
    if i.Admit? { AdmitNew(s, t, i, m); }
  }

  lemma AdmitNew<T>(s: State<T>, t: Tid, i: Instr<T>, m: Msg<T>)
    requires i.Admit? && t.Call? && i.m.Msg? && i.m.id == t.n && At(s, t).Check? && AdmittedOk(s, m)
    ensures m.id != t.n && m != i.m
  {
  }

  lemma AdmittedStep<T>(s: State<T>, t: Tid, i: Instr<T>, q: Pc<T>, m: Msg<T>)
    requires OrderInv(s) && LocksOk(s) && Firing(s, t, i, q) && m in s.log.admitted
    ensures AdmittedOk(Exec(s, t, i, q), m)
  {
    hide Moves, Executes, Arrives, Ready, Faults, Exec, LocksOk, AdmittedPc, SendOk, OneFate;
    FateStep(s, t, i, q, m);
    Others(s, t, i, q);
    if t == Call(m.id) { AdmittedPcStep(s, t, i, q, m.value); }
  }

  /** A message just admitted is pending. */
  lemma JustAdmitted<T>(s: State<T>, t: Tid, i: Instr<T>, q: Pc<T>)
    requires OrderInv(s) && LocksOk(s) && Firing(s, t, i, q) && i.Admit?
    ensures i.m !in s.log.admitted && AdmittedOk(Exec(s, t, i, q), i.m)
  {
    hide Moves, Ready, Faults, BarrierAfter, ListenersAfter, ProcsAfter, ChanAfter, RoundsAfter, LocksOk, Arrives,
      Executes, SendOk, AdmittedPc, AboutToSend;
    var z := Exec(s, t, i, q);
    Others(s, t, i, q);
    OpenLocks(s, t, 0);
    HandedLocks(s, t.n);
    assert SendOk(s, t, At(s, t));
    AboutStep(s, t, i, q);
    assert AdmittedPc(q, i.m.value) by { AdmitArrives(s, t, i, q); }
    forall m | m in s.log.admitted ensures m.Msg? && m != i.m { AdmitNew(s, t, i, m); }
    if t.n in s.log.lapsed {
      var m :| m in s.log.admitted && m.Msg? && m.id == t.n;
      AdmitNew(s, t, i, m);
    }
  }

  lemma AdmitArrives<T>(s: State<T>, t: Tid, i: Instr<T>, q: Pc<T>)
    requires Executes(s, t, At(s, t), i) && Arrives(s, t, At(s, t), i, q) && i.Admit?
    ensures i.m.Msg? && AdmittedPc(q, i.m.value)
  {
    hide ExecutesOn, MayVisit, MayFinish, InMap, ListenerStopped, StageNext, StageInstr, Front;
  }

  lemma QueueStep<T>(s: State<T>, t: Tid, i: Instr<T>, q: Pc<T>)
    requires OrderInv(s) && SafeInv(s) && Firing(s, t, i, q)
    ensures var z := Exec(s, t, i, q);
            && |z.chan.buf| <= 1 && z.log.accepted == z.log.deq + z.chan.buf
            && Distinct(z.log.admitted) && Distinct(z.log.accepted)
            && (forall m :: m in z.log.accepted ==> m in z.log.admitted)
  {
    hide Moves, Arrives, Faults, BarrierAfter, ListenersAfter, ProcsAfter, RoundsAfter, LocksOk, LifeOk, WorkersOk,
      Executes, SendOk, AboutToSend, AdmittedPc;
    OpenLocks(s, t, 0);
    assert SendOk(s, t, At(s, t));
    AboutStep(s, t, i, q);
    if i.Recv? { assert At(s, t).Select? by { RecvAt(s, t, i); } ReceivesReal(s, t); }
    if i.Push? { assert AdmittedOk(s, i.m); assert Pending(s, i.m.id) by { PendingAt(s, t); } }
    if i.Admit? { JustAdmitted(s, t, i, q); }
  }

  lemma RecvAt<T>(s: State<T>, t: Tid, i: Instr<T>)
    requires Executes(s, t, At(s, t), i) && i.Recv?
    ensures At(s, t).Select?
  {
  }

  lemma PendingAt<T>(s: State<T>, t: Tid)
    requires AboutToSend(At(s, t)) && !t.Worker?
    ensures Pending(s, t.n)
  {
  }

  lemma LogStep<T>(s: State<T>, t: Tid, i: Instr<T>, q: Pc<T>)
    requires OrderInv(s) && LocksOk(s) && Firing(s, t, i, q)
    ensures var z := Exec(s, t, i, q);
            && z.log.admitted == (if i.Admit? then s.log.admitted + [i.m] else s.log.admitted)
            && (forall n :: n in z.log.lapsed ==> Named(z.log.admitted, n))
  {
    hide Moves, Arrives, Faults, Ready, BarrierAfter, ListenersAfter, ProcsAfter, RoundsAfter, LocksOk, Executes,
      AdmittedOk;
    OpenLocks(s, t, 0);
    assert SendOk(s, t, At(s, t));
    AboutStep(s, t, i, q);
    forall n | n in s.log.lapsed ensures Named(Exec(s, t, i, q).log.admitted, n) {
      var m :| m in s.log.admitted && m.Msg? && m.id == n;
      assert m in Exec(s, t, i, q).log.admitted;
    }
    if i.Lapse? {
      var m := if At(s, t).Sender? then At(s, t).m else Msg(t.n, At(s, t).op.value);
      assert m in s.log.admitted;
    }
  }

  lemma OrderStep<T>(s: State<T>, t: Tid, i: Instr<T>, q: Pc<T>)
    requires OrderInv(s) && SafeInv(s) && Firing(s, t, i, q)
    ensures OrderInv(Exec(s, t, i, q))
  {
    hide Exec, Ready, Executes, Arrives, Moves, Faults, SpawnsOk, LocksOk, LifeOk, WorkersOk, SendOk, AdmittedOk,
      Distinct, PcOk, ClosedOk;
    var z := Exec(s, t, i, q);
    QueueStep(s, t, i, q);
    LogStep(s, t, i, q);
    OpenLocks(s, t, 0);
    forall u {:trigger At(z, u)} ensures SendOk(z, u, At(z, u)) {
      assert SendOk(s, u, At(s, u)) && SendOk(s, t, At(s, t));
      SendStep(s, t, i, q, u);
    }
    forall m | m in z.log.admitted ensures AdmittedOk(z, m) {
      if m in s.log.admitted { AdmittedStep(s, t, i, q, m); } else { JustAdmitted(s, t, i, q); }
    }
  }

  lemma OrderStill<T>(s: State<T>, z: State<T>)
    requires OrderInv(s) && Still(s, z)
    ensures OrderInv(z)
  {
    forall m | m in z.log.admitted ensures AdmittedOk(z, m) { assert AdmittedOk(s, m); }
    forall u {:trigger At(z, u)} ensures SendOk(z, u, At(z, u)) { assert SendOk(s, u, At(s, u)); }
  }

  lemma OrderApply<T>(s: State<T>, a: Act<T>, z: State<T>)
    requires SafeInv(s) && OrderInv(s) && Apply(s, a) == Some(z) && !Restarts(s, a)
    ensures OrderInv(z)
  {
    hide SafeInv, OrderInv, Code, Ready, Exec;
    if a.Do? {
      var Line(i, q) := Code(s, a.t, s.procs[a.t], a.c).value;
      NoFault(s, a.t, a.c, i, q);
      SafeStep(s, a.t, a.c, i, q);
      OrderStep(s, a.t, i, q);
    } else {
      StillApply(s, a, z);
      OrderStill(s, z);
    }
  }
}
