/** What holds once a Stop has succeeded. */
module BroadcasterQuiescence {
  import opened Wrappers
  import opened StatusBarrier
  import opened Broadcaster
  import opened BroadcasterCode
  import opened BroadcasterLocks
  import opened BroadcasterSafety

  /** A call past the check, or the goroutine of a Write call. */
  predicate InFlight<T>(pc: Pc<T>) { pc.Body? || pc.Unsub? || pc.Sender? || pc.SenderOut? }

  /** A listener out of the map is stopped, unless the Unsubscribe call that took it out is about to stop it. */
  ghost predicate RemovedOk<T>(s: State<T>, l: Lid)
    requires l in s.listeners
  {
    var x := s.listeners[l];
    x.presence.Removed? && x.barrier.started ==>
      At(s, x.presence.who).Unsub? && At(s, x.presence.who).l == l
  }

  ghost predicate AllRemoved<T>(s: State<T>) {
    forall l :: l in s.listeners ==> s.listeners[l].presence.Removed?
  }

  /** The Range of Stop sees every listener, and has removed those it is done with. */
  ghost predicate Swept<T>(s: State<T>, sw: Sweep, current: set<Lid>) {
    forall l :: l in s.listeners ==>
      s.listeners[l].born < sw.since && (l in sw.seen && l !in current ==> s.listeners[l].presence.Removed?)
  }

  ghost predicate SweepOk<T>(s: State<T>, pc: Pc<T>) {
    match pc
    case StopNext(sw) => Swept(s, sw, {})
    case StopOne(sw, l, _) => Swept(s, sw, {l})
    case StopDelete(sw, l) => Swept(s, sw, {l})
    case StopClose => AllRemoved(s)
    case StopMark => AllRemoved(s)
    case _ => true
  }

  /** What a call may conclude from what it returns. */
  ghost predicate ReturnOk<T>(s: State<T>, pc: Pc<T>) {
    && (pc == Unlock(Stop, Nil) || pc == Done(Stop, Nil) ==> s.log.stopped)
    && ((pc.Leave? || pc.Unlock? || pc.Done?) && pc.res.Got? ==> pc.res.l in s.listeners)
  }

  ghost predicate StopInv<T>(s: State<T>) {
    && (forall l :: l in s.listeners ==> RemovedOk(s, l) && s.listeners[l].born < s.log.clock)
    && SweepOk(s, Holder(s))
    && (s.log.stopped ==> forall l :: l in s.listeners ==>
          s.listeners[l].presence.Removed? && !s.listeners[l].barrier.started)
    && (forall t {:trigger At(s, t)} :: ReturnOk(s, At(s, t)) && (s.log.stopped ==> !InFlight(At(s, t))))
  }

  // ---------- steps ----------

  /** While a thread owns the barrier, no other thread changes the map of listeners. */
  lemma MapStays<T>(s: State<T>, t: Tid, i: Instr<T>)
    requires BarrierOk(s) && t in s.procs && Executes(s, t, At(s, t), i)
    requires BRole(Holder(s)).Owner? && (i.Store? || i.Delete?)
    ensures At(s, t).StopDelete? && Holder(s) == At(s, t) && i == Delete(At(s, t).l)
  {
    hide ExecutesOn;
    assert RoleOk(s.barrier, t, BRole(At(s, t)));
    HolderIs(s);
  }

  lemma HolderIs<T>(s: State<T>)
    requires BarrierOk(s)
    ensures BRole(Holder(s)).Owner? ==> s.barrier.writer.Some? && s.barrier.readers == {}
  {
    if s.barrier.writer.Some? { assert RoleOk(s.barrier, s.barrier.writer.value, BRole(Holder(s))); }
  }

  /** Who is inside as a reader is not inside together with an owner. */
  lemma OwnerAlone<T>(s: State<T>, u: Tid)
    requires BarrierOk(s) && BRole(Holder(s)).Owner?
    ensures !BRole(At(s, u)).Reader?
  {
    HolderIs(s);
    assert RoleOk(s.barrier, u, BRole(At(s, u)));
  }

  lemma StoresInside<T>(s: State<T>, t: Tid, i: Instr<T>, q: Pc<T>)
    requires Executes(s, t, At(s, t), i) && Arrives(s, t, At(s, t), i, q)
    ensures i.Store? ==> BRole(At(s, t)).Reader?
    ensures i.WAnnounce? ==> q.Drain? || q.Check?
  {
    hide ExecutesOn, InMap, MayFinish, MayVisit, ListenerStopped, StageNext, StageInstr, Front;
  }

  /** The keys of the listener map after a step. */
  lemma PresenceAfter<T>(s: State<T>, t: Tid, i: Instr<T>, q: Pc<T>)
    requires SpawnsOk(s, t, i)
    ensures var ls := Exec(s, t, i, q).listeners;
            && ls.Keys == s.listeners.Keys + (if i.Store? then {i.l} else {})
            && (forall l :: l in s.listeners ==> KeyAfter(s.listeners[l], ls[l], l, t, i, s.log.clock))
  {
    hide Exec, ListenerAfter;
    ListenersAre(s, t, i, q);
    forall l | l in s.listeners
      ensures KeyAfter(s.listeners[l], Exec(s, t, i, q).listeners[l], l, t, i, s.log.clock)
    {
      KeyStep(s.listeners[l], l, t, i, s.log.clock);
    }
  }

  ghost predicate KeyAfter<T>(x: Listener<T>, y: Listener<T>, l: Lid, t: Tid, i: Instr<T>, now: nat) {
    && y.born == x.born && (y.barrier.started ==> x.barrier.started)
    && y.presence == if i == Delete(l) then Removed(now, t) else x.presence
  }

  lemma KeyStep<T>(x: Listener<T>, l: Lid, t: Tid, i: Instr<T>, now: nat)
    ensures KeyAfter(x, ListenerAfter(x, l, t, i, now), l, t, i, now)
  {
  }

  /** What a thread that owns the barrier does to its own Range. */
  lemma SweepOwn<T>(s: State<T>, t: Tid, i: Instr<T>, q: Pc<T>)
    requires SweepOk(s, At(s, t)) && Arrives(s, t, At(s, t), i, q) && SpawnsOk(s, t, i)
    requires forall l :: l in s.listeners ==> s.listeners[l].born < s.log.clock
    requires !i.Store?
    ensures SweepOk(Exec(s, t, i, q), q)
  {
    hide *;
    if q.StopNext? {
      SweepOwnNext(s, t, i, q);
    } else if q.StopOne? || q.StopDelete? {
      SweepOwnOne(s, t, i, q);
    } else if q.StopClose? || q.StopMark? {
      SweepOwnEnd(s, t, i, q);
    } else {
      SweepElse(Exec(s, t, i, q), q);
    }
  }

  lemma SweepElse<T>(z: State<T>, pc: Pc<T>)
    requires !pc.StopNext? && !pc.StopOne? && !pc.StopDelete? && !pc.StopClose? && !pc.StopMark?
    ensures SweepOk(z, pc)
  {
  }

  lemma SweepOwnOne<T>(s: State<T>, t: Tid, i: Instr<T>, q: Pc<T>)
    requires SweepOk(s, At(s, t)) && Arrives(s, t, At(s, t), i, q) && SpawnsOk(s, t, i)
    requires q.StopOne? || q.StopDelete?
    ensures SweepOk(Exec(s, t, i, q), q)
  {
    hide Exec, SpawnsOk, ListenerStopped, StageNext, StageInstr, Front;
    PresenceAfter(s, t, i, q);
  }

  lemma SweepOwnEnd<T>(s: State<T>, t: Tid, i: Instr<T>, q: Pc<T>)
    requires SweepOk(s, At(s, t)) && Arrives(s, t, At(s, t), i, q) && SpawnsOk(s, t, i)
    requires q.StopClose? || q.StopMark?
    ensures SweepOk(Exec(s, t, i, q), q)
  {
    hide Exec, SpawnsOk, ListenerStopped, StageNext, StageInstr, Front;
    PresenceAfter(s, t, i, q);
  }

  lemma SweepOwnNext<T>(s: State<T>, t: Tid, i: Instr<T>, q: Pc<T>)
    requires SweepOk(s, At(s, t)) && Arrives(s, t, At(s, t), i, q) && SpawnsOk(s, t, i)
    requires forall l :: l in s.listeners ==> s.listeners[l].born < s.log.clock
    requires q.StopNext?
    ensures SweepOk(Exec(s, t, i, q), q)
  {
    hide Exec, SpawnsOk;
    PresenceAfter(s, t, i, q);
  }

  lemma SweptStays<T>(s: State<T>, z: State<T>, sw: Sweep, current: set<Lid>)
    requires Swept(s, sw, current) && SameKeys(s, z)
    ensures Swept(z, sw, current)
  {
  }

  ghost predicate SameKeys<T>(s: State<T>, z: State<T>) {
    && z.listeners.Keys == s.listeners.Keys
    && forall l :: l in s.listeners ==>
         z.listeners[l].born == s.listeners[l].born && z.listeners[l].presence == s.listeners[l].presence
  }

  lemma KeysStay<T>(s: State<T>, t: Tid, i: Instr<T>, q: Pc<T>)
    requires SpawnsOk(s, t, i) && !i.Store? && !i.Delete?
    ensures SameKeys(s, Exec(s, t, i, q))
  {
    hide Exec, SpawnsOk, KeyAfter;
    PresenceAfter(s, t, i, q);
    forall l | l in s.listeners
      ensures var x, y := s.listeners[l], Exec(s, t, i, q).listeners[l]; y.born == x.born && y.presence == x.presence
    {
      KeyKept(s.listeners[l], Exec(s, t, i, q).listeners[l], l, t, i, s.log.clock);
    }
  }

  lemma KeyKept<T>(x: Listener<T>, y: Listener<T>, l: Lid, t: Tid, i: Instr<T>, now: nat)
    requires KeyAfter(x, y, l, t, i, now) && !i.Delete?
    ensures y.born == x.born && y.presence == x.presence
  {
  }

  lemma AllStay<T>(s: State<T>, z: State<T>)
    requires AllRemoved(s) && SameKeys(s, z)
    ensures AllRemoved(z)
  {
  }

  /** What the Range of Stop relies on are the keys. */
  lemma SweepSame<T>(s: State<T>, z: State<T>, pc: Pc<T>)
    requires SweepOk(s, pc) && SameKeys(s, z)
    ensures SweepOk(z, pc)
  {
    hide Swept, AllRemoved, SameKeys;
    match pc
    case StopNext(sw) => SweptStays(s, z, sw, {});
    case StopOne(sw, l, _) => SweptStays(s, z, sw, {l});
    case StopDelete(sw, l) => SweptStays(s, z, sw, {l});
    case StopClose => AllStay(s, z);
    case StopMark => AllStay(s, z);
    case _ =>
  }

  lemma SweepStep<T>(s: State<T>, t: Tid, i: Instr<T>, q: Pc<T>)
    requires SafeInv(s) && StopInv(s) && Firing(s, t, i, q)
    ensures SweepOk(Exec(s, t, i, q), Holder(Exec(s, t, i, q)))
  {
    hide Executes, Arrives, Moves, Faults, Ready, LocksOk, LifeOk, WorkersOk, PcOk, ClosedOk, SpawnsOk, Exec,
      RemovedOk, SweepOk;
    OpenLocks(s, t, 0);
    HolderAfter(s, t, i, q);
    StoresInside(s, t, i, q);
    if BRole(At(s, t)).Owner? || BRole(At(s, t)).Drainer? {
      SweepOwn(s, t, i, q);
      NoSweep(Exec(s, t, i, q), Gone);
    } else if i.WAnnounce? {
      NoSweep(Exec(s, t, i, q), q);
    } else if BRole(Holder(s)).Owner? {
      if i.Store? || i.Delete? { MapStays(s, t, i); }
      KeysStay(s, t, i, q);
      SweepSame(s, Exec(s, t, i, q), Holder(s));
    } else {
      NoSweep(Exec(s, t, i, q), Holder(s));
    }
  }

  lemma NoSweep<T>(z: State<T>, pc: Pc<T>)
    requires !BRole(pc).Owner?
    ensures SweepOk(z, pc)
  {
  }

  /** The Unsubscribe call that took a listener out of the map does not return before it has stopped it. */
  lemma UnsubStays<T>(s: State<T>, t: Tid, i: Instr<T>, q: Pc<T>, l: Lid)
    requires Arrives(s, t, At(s, t), i, q) && Executes(s, t, At(s, t), i)
    requires At(s, t).Unsub? && At(s, t).l == l
    ensures (q.Unsub? && q.l == l) || At(s, t).stage.SOut?
  {
    hide StageNext, StageInstr, InMap, MayVisit, MayFinish, Front, ListenerStopped;
  }

  lemma DeletesAt<T>(s: State<T>, t: Tid, i: Instr<T>, q: Pc<T>)
    requires Arrives(s, t, At(s, t), i, q) && Executes(s, t, At(s, t), i) && i.Delete?
    ensures q == Unsub(i.l, SEnter) || (At(s, t).StopDelete? && At(s, t).l == i.l)
  {
    hide StageNext, StageInstr, InMap, MayVisit, MayFinish, Front, ListenerStopped, ExecutesOn;
  }

  lemma RemovedStep<T>(s: State<T>, t: Tid, i: Instr<T>, q: Pc<T>, l: Lid)
    requires l in s.listeners && RemovedOk(s, l) && PcOk(s, At(s, t)) && Firing(s, t, i, q)
    ensures l in Exec(s, t, i, q).listeners && RemovedOk(Exec(s, t, i, q), l)
  {
    hide Exec, Moves, Ready, Faults, Executes, Arrives;
    PresenceAfter(s, t, i, q);
    Others(s, t, i, q);
    if i == Delete(l) {
      DeletesAt(s, t, i, q);
    } else if s.listeners[l].presence.Removed? && s.listeners[l].presence.who == t && s.listeners[l].barrier.started {
      UnsubStays(s, t, i, q, l);
    }
  }

  // ---------- after the stop ----------

  lemma StoppedListener<T>(s: State<T>, l: Lid)
    requires BarrierOk(s) && l in s.listeners && RemovedOk(s, l) && Holder(s).StopMark? && AllRemoved(s)
    ensures s.listeners[l].presence.Removed? && !s.listeners[l].barrier.started
  {
    OwnerAlone(s, s.listeners[l].presence.who);
  }

  /** No call gets past the check once the broadcaster is stopped. */
  lemma NoEntry<T>(s: State<T>, t: Tid, i: Instr<T>, q: Pc<T>)
    requires Arrives(s, t, At(s, t), i, q) && !s.barrier.started && !InFlight(At(s, t))
    ensures !InFlight(q)
  {
    hide StageNext, StageInstr, InMap, MayVisit, MayFinish, Front, ListenerStopped;
  }

  lemma ReturnsAt<T>(s: State<T>, t: Tid, i: Instr<T>, q: Pc<T>)
    requires Arrives(s, t, At(s, t), i, q) && Executes(s, t, At(s, t), i) && ReturnOk(s, At(s, t))
    requires t in s.procs && KindOk(t, At(s, t))
    ensures (q == Unlock(Stop, Nil) || q == Done(Stop, Nil)) ==> s.log.stopped || i.SetStopped?
    ensures (q.Leave? || q.Unlock? || q.Done?) && q.res.Got? ==> q.res.l in s.listeners || i == Store(q.res.l)
    ensures i.SetStopped? ==> At(s, t).StopMark? && q == Unlock(Stop, Nil)
    ensures i.Store? || i.GoSender? ==> InFlight(At(s, t))
  {
    hide Arrives;
    ReturnsExecutes(s, t, At(s, t), i);
    hide Executes;
    ReturnsStop(s, t, At(s, t), i, q);
    ReturnsGot(s, t, At(s, t), i, q);
  }

  lemma ReturnsExecutes<T>(s: State<T>, t: Tid, pc: Pc<T>, i: Instr<T>)
    requires Executes(s, t, pc, i)
    ensures i.SetStopped? ==> pc.StopMark?
    ensures i.Store? || i.GoSender? ==> InFlight(pc)
  {
    hide ExecutesOn, InMap, MayFinish;
  }

  lemma ReturnsStop<T>(s: State<T>, t: Tid, pc: Pc<T>, i: Instr<T>, q: Pc<T>)
    requires Arrives(s, t, pc, i, q) && ReturnOk(s, pc) && KindOk(t, pc)
    ensures (q == Unlock(Stop, Nil) || q == Done(Stop, Nil)) ==> s.log.stopped || i.SetStopped?
    ensures i.SetStopped? && pc.StopMark? ==> q == Unlock(Stop, Nil)
  {
    hide StageNext, StageInstr, InMap, MayVisit, MayFinish, Front, ListenerStopped;
    if q.Unlock? || q.Done? {
      ReturnsNil(s, t, pc, i, q);
    }
  }

  lemma ReturnsNil<T>(s: State<T>, t: Tid, pc: Pc<T>, i: Instr<T>, q: Pc<T>)
    requires Arrives(s, t, pc, i, q) && ReturnOk(s, pc) && KindOk(t, pc) && (q.Unlock? || q.Done?)
    ensures q.op.Stop? && q.res.Nil? ==> s.log.stopped || i.SetStopped?
    ensures i.SetStopped? && pc.StopMark? ==> q == Unlock(Stop, Nil)
  {
    hide StageNext, StageInstr, InMap, MayVisit, MayFinish, Front, ListenerStopped;
  }

  lemma ReturnsGot<T>(s: State<T>, t: Tid, pc: Pc<T>, i: Instr<T>, q: Pc<T>)
    requires Arrives(s, t, pc, i, q) && ReturnOk(s, pc)
    ensures (q.Leave? || q.Unlock? || q.Done?) && q.res.Got? ==> q.res.l in s.listeners || i == Store(q.res.l)
  {
    hide StageNext, StageInstr, InMap, MayVisit, MayFinish, Front, ListenerStopped;
  }

  lemma AllStopped<T>(s: State<T>, t: Tid)
    requires BarrierOk(s) && Holder(s).StopMark? && SweepOk(s, Holder(s))
    requires forall l :: l in s.listeners ==> RemovedOk(s, l)
    ensures forall l :: l in s.listeners ==> s.listeners[l].presence.Removed? && !s.listeners[l].barrier.started
  {
    hide RemovedOk, BarrierOk;
    forall l | l in s.listeners ensures s.listeners[l].presence.Removed? && !s.listeners[l].barrier.started {
      StoppedListener(s, l);
    }
  }

  /** The listeners of a stopped broadcaster. */
  lemma StoppedListenersStep<T>(s: State<T>, t: Tid, i: Instr<T>, q: Pc<T>)
    requires SafeInv(s) && StopInv(s) && Firing(s, t, i, q) && (s.log.stopped || i.SetStopped?)
    ensures forall l :: l in Exec(s, t, i, q).listeners ==>
              Exec(s, t, i, q).listeners[l].presence.Removed? && !Exec(s, t, i, q).listeners[l].barrier.started
  {
    hide LocksOk, LifeOk, WorkersOk, PcOk, ClosedOk, Exec, Executes, Arrives, Moves, Faults, Ready, InFlight,
      RemovedOk, RoleStep, BRole, BarrierOk, SweepOk;
    OpenLocks(s, t, 0);
    PresenceAfter(s, t, i, q);
    HolderAfter(s, t, i, q);
    assert ReturnOk(s, At(s, t));
    ReturnsAt(s, t, i, q);
    if i.SetStopped? {
      MarkRole(At(s, t));
      AllStopped(s, t);
    }
  }

  lemma MarkRole<T>(pc: Pc<T>)
    ensures pc.StopMark? ==> BRole(pc).Owner?
  {
  }

  lemma FlightStep<T>(s: State<T>, t: Tid, i: Instr<T>, q: Pc<T>, u: Tid)
    requires SafeInv(s) && StopInv(s) && Firing(s, t, i, q)
    ensures var z := Exec(s, t, i, q); ReturnOk(z, At(z, u)) && (z.log.stopped ==> !InFlight(At(z, u)))
  {
    hide LocksOk, LifeOk, WorkersOk, PcOk, ClosedOk, BarrierAfter, ListenersAfter, ProcsAfter, ChanAfter, WgAfter,
      RoundsAfter, Executes, Arrives, Moves, Faults, Ready, RemovedOk, SweepOk, InFlight;
    OpenLocks(s, t, 0);
    Others(s, t, i, q);
    PresenceAfter(s, t, i, q);
    assert ReturnOk(s, At(s, t)) && ReturnOk(s, At(s, u));
    assert s.log.stopped ==> !InFlight(At(s, t)) && !InFlight(At(s, u));
    ReturnsAt(s, t, i, q);
    if s.log.stopped { StoppedFlag(s); NoEntry(s, t, i, q); }
    if i.SetStopped? { HolderAfter(s, t, i, q); OwnerOut(s, t, u); NotFlying(q, Select); }
    NotFlying(q, Select);
  }

  lemma StoppedFlag<T>(s: State<T>)
    requires SafeInv(s) && s.log.stopped
    ensures !s.barrier.started
  {
    hide LocksOk, WorkersOk, PcOk, ClosedOk;
  }

  lemma NotFlying<T>(q: Pc<T>, w: Pc<T>)
    ensures q.Unlock? ==> !InFlight(q)
    ensures w.Select? ==> !InFlight(w)
  {
  }

  lemma OwnerOut<T>(s: State<T>, t: Tid, u: Tid)
    requires BarrierOk(s) && At(s, t).StopMark?
    ensures !InFlight(At(s, u))
  {
    assert RoleOk(s.barrier, t, BRole(At(s, t))) && RoleOk(s.barrier, u, BRole(At(s, u)));
  }

  lemma StopStep<T>(s: State<T>, t: Tid, i: Instr<T>, q: Pc<T>)
    requires SafeInv(s) && StopInv(s) && Firing(s, t, i, q)
    ensures StopInv(Exec(s, t, i, q))
  {
    hide LocksOk, LifeOk, WorkersOk, PcOk, ClosedOk, BarrierAfter, ListenersAfter, ProcsAfter, ChanAfter, WgAfter,
      RoundsAfter, Executes, Arrives, Moves, Faults, Ready, RemovedOk, SweepOk, ReturnOk, InFlight;
    var z := Exec(s, t, i, q);
    SweepStep(s, t, i, q);
    PresenceAfter(s, t, i, q);
    ListenersAre(s, t, i, q);
    if s.log.stopped || i.SetStopped? { StoppedListenersStep(s, t, i, q); }
    forall u {:trigger At(z, u)} ensures ReturnOk(z, At(z, u)) && (z.log.stopped ==> !InFlight(At(z, u))) {
      FlightStep(s, t, i, q, u);
    }
    forall l | l in z.listeners ensures RemovedOk(z, l) && z.listeners[l].born < z.log.clock {
      assert PcOk(s, At(s, t));
      if l in s.listeners { RemovedStep(s, t, i, q, l); } else { NewPresent(z, l, s.log.clock); }
    }
  }

  lemma NewPresent<T>(z: State<T>, l: Lid, now: nat)
    requires l in z.listeners && z.listeners[l] == NewListener(now)
    ensures RemovedOk(z, l)
  {
  }

  lemma StopStill<T>(s: State<T>, z: State<T>)
    requires SafeInv(s) && StopInv(s) && Still(s, z)
    ensures StopInv(z)
  {
    hide LocksOk, LifeOk, WorkersOk, PcOk, ClosedOk, SweepOk;
    HolderStill(s, z);
    SweepStill(s, z, Holder(s));
    forall u {:trigger At(z, u)} ensures ReturnOk(z, At(z, u)) && (z.log.stopped ==> !InFlight(At(z, u))) {
      assert ReturnOk(s, At(s, u));
    }
    forall l | l in z.listeners ensures RemovedOk(z, l) && z.listeners[l].born < z.log.clock {
      assert RemovedOk(s, l);
    }
  }

  lemma SweepStill<T>(s: State<T>, z: State<T>, pc: Pc<T>)
    requires Still(s, z) && SweepOk(s, pc)
    ensures SweepOk(z, pc)
  {
  }

  lemma StopApply<T>(s: State<T>, a: Act<T>, z: State<T>)
    requires SafeInv(s) && StopInv(s) && Apply(s, a) == Some(z) && !Restarts(s, a)
    ensures StopInv(z)
  {
    hide SafeInv, StopInv, Code, Ready, Exec;
    if a.Do? {
      var Line(i, q) := Code(s, a.t, s.procs[a.t], a.c).value;
      NoFault(s, a.t, a.c, i, q);
      SafeStep(s, a.t, a.c, i, q);
      StopStep(s, a.t, i, q);
    } else {
      StillApply(s, a, z);
      StopStill(s, z);
    }
  }

  // ---------- calls that begin after the stop ----------

  /** What a call returns that begins after the stop. */
  predicate Refusal<T>(op: Op<T>, res: Res) { if op.IsStopped? then res == Flag(true) else res.ErrStopped? }

  ghost predicate LatePc<T>(pc: Pc<T>) {
    match pc
    case Enter(_) => true
    case Check(_) => true
    case Leave(op, res) => Refusal(op, res)
    case Await(_) => true
    case Drain(_) => true
    case Status(_) => true
    case Unlock(op, res) => Refusal(op, res)
    case Done(op, res) => Refusal(op, res)
    case _ => false
  }

  lemma LateArrives<T>(s: State<T>, t: Tid, i: Instr<T>, q: Pc<T>)
    requires Arrives(s, t, At(s, t), i, q) && LatePc(At(s, t)) && !s.barrier.started && KindOk(t, At(s, t)) && t.Call?
    requires At(s, t) != Status(Start)
    ensures LatePc(q)
  {
    hide StageNext, StageInstr, InMap, MayVisit, MayFinish, Front, ListenerStopped;
  }

  lemma LateStep<T>(s: State<T>, t: Tid, i: Instr<T>, q: Pc<T>, n: nat)
    requires SafeInv(s) && s.log.stopped && Firing(s, t, i, q) && At(s, t) != Status(Start)
    requires Call(n) in s.procs ==> LatePc(s.procs[Call(n)])
    ensures var z := Exec(s, t, i, q); z.log.stopped && (Call(n) in z.procs ==> LatePc(z.procs[Call(n)]))
  {
    hide LocksOk, LifeOk, WorkersOk, PcOk, ClosedOk, BarrierAfter, ListenersAfter, ProcsAfter, ChanAfter, WgAfter,
      RoundsAfter, LatePc, Executes, Arrives, Moves, Faults, Ready;
    StoppedFlag(s);
    Others(s, t, i, q);
    OpenLocks(s, t, 0);
    if t == Call(n) { LateArrives(s, t, i, q); }
    assert t != Call(n) ==> At(Exec(s, t, i, q), Call(n)) == At(s, Call(n));
  }

  lemma LateStill<T>(s: State<T>, z: State<T>, n: nat)
    requires Still(s, z) && (Call(n) in s.procs ==> LatePc(s.procs[Call(n)]))
    ensures Call(n) in z.procs ==> LatePc(z.procs[Call(n)])
  {
  }

  lemma LateApply<T>(s: State<T>, a: Act<T>, z: State<T>, n: nat)
    requires SafeInv(s) && s.log.stopped && Apply(s, a) == Some(z) && !Restarts(s, a)
    requires Call(n) in s.procs ==> LatePc(s.procs[Call(n)])
    ensures z.log.stopped && (Call(n) in z.procs ==> LatePc(z.procs[Call(n)]))
  {
    hide SafeInv, LatePc, Code, Ready, Exec;
    if a.Do? {
      var Line(i, q) := Code(s, a.t, s.procs[a.t], a.c).value;
      NoFault(s, a.t, a.c, i, q);
      SafeStep(s, a.t, a.c, i, q);
      StoppedFlag(s);
      LateStep(s, a.t, i, q, n);
    } else {
      StillApply(s, a, z);
      LateStill(s, z, n);
    }
  }
}
