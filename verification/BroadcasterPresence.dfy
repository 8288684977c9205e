/** A listener in the map refuses no write: it is stopped only after it has been taken out, or by Stop. */
module BroadcasterPresence {
  import opened Wrappers
  import opened StatusBarrier
  import opened Broadcaster
  import opened BroadcasterCode
  import opened BroadcasterLocks
  import opened BroadcasterSafety
  import opened BroadcasterQuiescence

  /** Stop is stopping listener `l`, or about to take it out of the map. */
  ghost predicate Stopping<T>(pc: Pc<T>, l: Lid) { (pc.StopOne? || pc.StopDelete?) && pc.l == l }

  ghost predicate PresentOk<T>(s: State<T>, l: Lid)
    requires l in s.listeners
  {
    s.listeners[l].presence.Present? && !s.listeners[l].barrier.started ==> Stopping(Holder(s), l)
  }

  ghost predicate HasRefused(ts: seq<Try>) { exists a :: 0 <= a < |ts| && ts[a].outcome.Refused? }

  ghost predicate RefusedOk<T>(x: Listener<T>) { HasRefused(x.tries) ==> x.presence.Removed? }

  /** Unsubscribe takes a listener out of the map before it stops it. */
  ghost predicate UnsubOk<T>(s: State<T>, pc: Pc<T>) {
    pc.Unsub? ==> pc.l in s.listeners && s.listeners[pc.l].presence.Removed?
  }

  ghost predicate PresenceInv<T>(s: State<T>) {
    && (forall l :: l in s.listeners ==> PresentOk(s, l) && RefusedOk(s.listeners[l]))
    && (forall t {:trigger At(s, t)} :: UnsubOk(s, At(s, t)))
  }

  // ---------- steps ----------

  lemma UnsubArrives<T>(s: State<T>, t: Tid, i: Instr<T>, q: Pc<T>)
    requires Arrives(s, t, At(s, t), i, q) && q.Unsub?
    ensures (At(s, t).Unsub? && At(s, t).l == q.l) || (i == Delete(q.l) && InMap(s, q.l))
  {
    hide StageInstr, StageNext;
  }

  /** A removed listener stays removed, and a deleted one is. */
  lemma RemovedStays<T>(s: State<T>, t: Tid, i: Instr<T>, q: Pc<T>, l: Lid)
    requires SpawnsOk(s, t, i) && l in s.listeners
    ensures l in Exec(s, t, i, q).listeners
    ensures s.listeners[l].presence.Removed? || i == Delete(l) ==> Exec(s, t, i, q).listeners[l].presence.Removed?
  {
    hide Exec;
    PresenceAfter(s, t, i, q);
  }

  lemma UnsubStep<T>(s: State<T>, t: Tid, i: Instr<T>, q: Pc<T>, u: Tid)
    requires Firing(s, t, i, q) && UnsubOk(s, At(s, t)) && UnsubOk(s, At(s, u))
    ensures UnsubOk(Exec(s, t, i, q), At(Exec(s, t, i, q), u))
  {
    hide Exec, Executes, Arrives, Moves, Ready, Faults, SpawnsOk;
    Others(s, t, i, q);
    var pc := At(Exec(s, t, i, q), u);
    if pc.Unsub? {
      if u == t { UnsubArrives(s, t, i, q); }
      RemovedStays(s, t, i, q, pc.l);
    }
  }

  /** Who marks a listener as stopped. */
  lemma MarksAt<T>(s: State<T>, t: Tid, i: Instr<T>, q: Pc<T>, l: Lid)
    requires Executes(s, t, At(s, t), i) && Arrives(s, t, At(s, t), i, q) && i == On(l, LMark)
    ensures (At(s, t).Unsub? && At(s, t).l == l) || (At(s, t).StopOne? && Stopping(q, l))
  {
    hide StageNext, MayVisit, MayFinish, InMap, ListenerStopped, Front;
  }

  /** The flag of a listener goes down only when it is marked. */
  lemma FlagDown<T>(x: Listener<T>, l: Lid, t: Tid, i: Instr<T>, now: nat)
    ensures var y := ListenerAfter(x, l, t, i, now);
            && (x.barrier.started && !y.barrier.started ==> i == On(l, LMark))
            && (y.barrier.started ==> x.barrier.started)
  {
  }

  lemma StoppingMoves<T>(s: State<T>, t: Tid, i: Instr<T>, q: Pc<T>, l: Lid)
    requires Executes(s, t, At(s, t), i) && Arrives(s, t, At(s, t), i, q) && Stopping(At(s, t), l) && InMap(s, l)
    ensures (Stopping(q, l) && !i.WRelease?) || i == Delete(l)
  {
    hide StageNext, StageInstr, MayVisit, MayFinish, InMap, ListenerStopped, Front;
    if At(s, t).StopOne? { StopOneMoves(s, t, i, q); } else { StopDeleteMoves(s, t, i, q); }
  }

  lemma StopOneMoves<T>(s: State<T>, t: Tid, i: Instr<T>, q: Pc<T>)
    requires Executes(s, t, At(s, t), i) && Arrives(s, t, At(s, t), i, q) && At(s, t).StopOne?
    ensures Stopping(q, At(s, t).l) && !i.WRelease?
  {
    hide StageNext, StageInstr, MayVisit, MayFinish, InMap, ListenerStopped, Front;
  }

  lemma StopDeleteMoves<T>(s: State<T>, t: Tid, i: Instr<T>, q: Pc<T>)
    requires Executes(s, t, At(s, t), i) && Arrives(s, t, At(s, t), i, q) && At(s, t).StopDelete?
    ensures i == if InMap(s, At(s, t).l) then Delete(At(s, t).l) else Nop
  {
    hide StageNext, StageInstr, MayVisit, MayFinish, InMap, ListenerStopped, Front;
  }

  lemma StoppingRole<T>(pc: Pc<T>, l: Lid)
    requires Stopping(pc, l)
    ensures BRole(pc).Owner?
  {
  }

  /** A stopped listener still in the map is the one Stop is at. */
  lemma StoppingStays<T>(s: State<T>, t: Tid, i: Instr<T>, q: Pc<T>, l: Lid)
    requires BarrierOk(s) && Firing(s, t, i, q) && Stopping(Holder(s), l) && InMap(s, l)
    ensures Stopping(Holder(Exec(s, t, i, q)), l) || i == Delete(l)
  {
    hide Exec, Executes, Arrives, Moves, Ready, Faults, SpawnsOk, InMap, BarrierOk, BRole, Stopping, Holder;
    HolderAfter(s, t, i, q);
    StoppingRole(Holder(s), l);
    if Holder(s) == At(s, t) { StoppingMoves(s, t, i, q, l); }
    NotStopping<T>(l);
  }

  lemma NotStopping<T>(l: Lid)
    ensures !Stopping<T>(Gone, l)
  {
  }

  lemma MarkedByHolder<T>(s: State<T>, t: Tid, i: Instr<T>, q: Pc<T>, l: Lid)
    requires BarrierOk(s) && Firing(s, t, i, q) && At(s, t).StopOne? && Stopping(q, l) && i == On(l, LMark)
    ensures Stopping(Holder(Exec(s, t, i, q)), l)
  {
    hide Exec, Executes, Arrives, Moves, Ready, Faults, SpawnsOk, BarrierOk, Stopping, Holder;
    HolderAfter(s, t, i, q);
  }

  lemma PresentStep<T>(s: State<T>, t: Tid, i: Instr<T>, q: Pc<T>, l: Lid)
    requires BarrierOk(s) && Firing(s, t, i, q) && l in s.listeners && PresentOk(s, l) && UnsubOk(s, At(s, t))
    ensures l in Exec(s, t, i, q).listeners && PresentOk(Exec(s, t, i, q), l)
  {
    hide Exec, Executes, Arrives, Moves, Ready, Faults, SpawnsOk, BarrierOk, ListenerAfter, KeyAfter, Stopping, Holder;
    var z := Exec(s, t, i, q);
    ListenersAre(s, t, i, q);
    RemovedStays(s, t, i, q, l);
    FlagDown(s.listeners[l], l, t, i, s.log.clock);
    if z.listeners[l].presence.Present? && !z.listeners[l].barrier.started {
      if s.listeners[l].barrier.started {
        MarksAt(s, t, i, q, l);
        MarkedByHolder(s, t, i, q, l);
      } else {
        StoppingStays(s, t, i, q, l);
      }
    }
  }

  lemma NewPresent<T>(now: nat)
    ensures NewListener<T>(now).barrier.started && RefusedOk(NewListener<T>(now))
  {
  }

  // ---------- refusals ----------

  lemma RefusesAt<T>(s: State<T>, t: Tid, i: Instr<T>)
    requires Executes(s, t, At(s, t), i) && i.On? && i.li.LRecord? && i.li.outcome.Refused?
    ensures At(s, t).LCheck? && ListenerStopped(s, i.l)
  {
  }

  /** While the worker lives, Stop has not begun to stop listeners. */
  lemma WorkerFirst<T>(s: State<T>, t: Tid, l: Lid)
    requires SafeInv(s) && t in s.procs && At(s, t).LCheck? && l in s.listeners && PresentOk(s, l)
    requires ListenerStopped(s, l)
    ensures s.listeners[l].presence.Removed?
  {
    hide LocksOk, PcOk, ClosedOk, BarrierOk, ListenerBarrierOk, RefOk;
    OpenLocks(s, t, 0);
    assert t.Worker?;
  }

  lemma TriesAfter<T>(x: Listener<T>, l: Lid, t: Tid, i: Instr<T>, now: nat)
    ensures var y := ListenerAfter(x, l, t, i, now);
            HasRefused(y.tries) ==> HasRefused(x.tries) || (i.On? && i.l == l && i.li.LRecord? && i.li.outcome.Refused?)
  {
    var y := ListenerAfter(x, l, t, i, now);
    if HasRefused(y.tries) {
      var a :| 0 <= a < |y.tries| && y.tries[a].outcome.Refused?;
      if a < |x.tries| { assert x.tries[a] == y.tries[a]; }
    }
  }

  lemma RefusedStep<T>(s: State<T>, t: Tid, i: Instr<T>, q: Pc<T>, l: Lid)
    requires SafeInv(s) && Firing(s, t, i, q) && l in s.listeners && PresentOk(s, l) && RefusedOk(s.listeners[l])
    ensures l in Exec(s, t, i, q).listeners && RefusedOk(Exec(s, t, i, q).listeners[l])
  {
    hide SafeInv, Exec, Executes, Arrives, Moves, Ready, Faults, SpawnsOk, PresentOk, ListenerAfter, HasRefused;
    ListenersAre(s, t, i, q);
    RemovedStays(s, t, i, q, l);
    TriesAfter(s.listeners[l], l, t, i, s.log.clock);
    if i.On? && i.l == l && i.li.LRecord? && i.li.outcome.Refused? {
      RefusesAt(s, t, i);
      WorkerFirst(s, t, l);
    }
  }

  // ---------- every action ----------

  lemma PresenceStep<T>(s: State<T>, t: Tid, i: Instr<T>, q: Pc<T>)
    requires SafeInv(s) && PresenceInv(s) && Firing(s, t, i, q)
    ensures PresenceInv(Exec(s, t, i, q))
  {
    hide Exec, Executes, Arrives, Moves, Ready, Faults, SpawnsOk, LocksOk, LifeOk, WorkersOk, PcOk, ClosedOk,
      PresentOk, RefusedOk, UnsubOk;
    var z := Exec(s, t, i, q);
    OpenLocks(s, t, 0);
    ListenersAre(s, t, i, q);
    assert UnsubOk(s, At(s, t));
    forall u {:trigger At(z, u)} ensures UnsubOk(z, At(z, u)) {
      assert UnsubOk(s, At(s, u));
      UnsubStep(s, t, i, q, u);
    }
    forall l | l in z.listeners ensures PresentOk(z, l) && RefusedOk(z.listeners[l]) {
      if l in s.listeners {
        PresentStep(s, t, i, q, l);
        RefusedStep(s, t, i, q, l);
      } else {
        NewPresent<T>(s.log.clock);
        assert PresentOk(z, l) by { StartedPresent(z, l); }
      }
    }
  }

  lemma StartedPresent<T>(z: State<T>, l: Lid)
    requires l in z.listeners && z.listeners[l].barrier.started
    ensures PresentOk(z, l)
  {
  }

  lemma PresenceStill<T>(s: State<T>, z: State<T>)
    requires SafeInv(s) && PresenceInv(s) && Still(s, z)
    ensures PresenceInv(z)
  {
    hide LocksOk, LifeOk, WorkersOk, PcOk, ClosedOk, HasRefused, Stopping;
    HolderStill(s, z);
    forall u {:trigger At(z, u)} ensures UnsubOk(z, At(z, u)) {
      assert UnsubOk(s, At(s, u));
    }
    forall l | l in z.listeners ensures PresentOk(z, l) && RefusedOk(z.listeners[l]) {
      assert PresentOk(s, l) && RefusedOk(s.listeners[l]);
    }
  }

  lemma PresenceApply<T>(s: State<T>, a: Act<T>, z: State<T>)
    requires SafeInv(s) && PresenceInv(s) && Apply(s, a) == Some(z) && !Restarts(s, a)
    ensures PresenceInv(z)
  {
    hide SafeInv, PresenceInv, Code, Ready, Exec;
    if a.Do? {
      var Line(i, q) := Code(s, a.t, s.procs[a.t], a.c).value;
      NoFault(s, a.t, a.c, i, q);
      SafeStep(s, a.t, a.c, i, q);
      PresenceStep(s, a.t, i, q);
    } else {
      StillApply(s, a, z);
      PresenceStill(s, z);
    }
  }
}
