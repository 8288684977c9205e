/** What each call achieves, and what its answer means. */
module BroadcasterCalls {
  import opened Wrappers
  import opened StatusBarrier
  import opened Broadcaster
  import opened BroadcasterCode
  import opened BroadcasterLocks
  import opened BroadcasterSafety
  import opened BroadcasterOrder
  import opened BroadcasterQuiescence
  import opened BroadcasterPresence
  import opened BroadcasterDelivery
  import opened BroadcasterProgress
  import opened BroadcasterService
  import opened BroadcasterTheorems

  // ---------- one action ----------

  lemma OpenInv<T(!new)>(s: State<T>)
    requires Inv(s)
    ensures SafeInv(s) && ServeInv(s) && PresenceInv(s) && StopInv(s) && DeliveryInv(s) && OrderInv(s) && LocksOk(s)
    ensures WorkersOk(s) && !s.panicked
  {
    hide ServeInv, PresenceInv, StopInv, DeliveryInv, OrderInv, SeenInv, LocksOk, LifeOk, WorkersOk, PcOk, ClosedOk;
  }

  /** A step of a thread executes a line. */
  lemma Line1<T(!new)>(s: State<T>, a: Act<T>, z: State<T>) returns (i: Instr<T>, q: Pc<T>)
    requires Inv(s) && Apply(s, a) == Some(z) && !Restarts(s, a) && a.Do?
    ensures Firing(s, a.t, i, q) && z == Exec(s, a.t, i, q)
    ensures Code(s, a.t, s.procs[a.t], a.c) == Some(Line(i, q))
  {
    hide Inv, SafeInv, Code, Ready, Exec, Firing, Restarts;
    OpenInv(s);
    i, q := Code(s, a.t, s.procs[a.t], a.c).value.i, Code(s, a.t, s.procs[a.t], a.c).value.pc;
    NoFault(s, a.t, a.c, i, q);
    SafeStep(s, a.t, a.c, i, q);
  }

  /** A listener's place in the map after an action: once out it stays out. */
  lemma OutStays<T(!new)>(s: State<T>, a: Act<T>, z: State<T>, l: Lid)
    requires Inv(s) && Apply(s, a) == Some(z) && !Restarts(s, a) && l in s.listeners
    ensures l in z.listeners && z.listeners[l].born == s.listeners[l].born
    ensures !InMap(s, l) ==> z.listeners[l].presence == s.listeners[l].presence
    ensures !s.listeners[l].barrier.started ==> !z.listeners[l].barrier.started
  {
    hide Inv, Apply, Restarts, Exec, KeyAfter, Firing;
    if a.Do? {
      var i, q := Line1(s, a, z);
      FiringThread(s, a.t, i, q);
      PresenceAfter(s, a.t, i, q);
      NotDeletedTwice(s, a.t, i, q);
      KeyMeans(s.listeners[l], z.listeners[l], l, a.t, i, s.log.clock);
    } else {
      StillApply(s, a, z);
    }
  }

  lemma NotDeletedTwice<T>(s: State<T>, t: Tid, i: Instr<T>, q: Pc<T>)
    requires Firing(s, t, i, q)
    ensures i.Delete? ==> InMap(s, i.l)
  {
    hide Arrives, Moves, Ready, Faults, SpawnsOk;
  }

  lemma KeyMeans<T>(x: Listener<T>, y: Listener<T>, l: Lid, t: Tid, i: Instr<T>, now: nat)
    requires KeyAfter(x, y, l, t, i, now)
    ensures y.born == x.born && (y.barrier.started ==> x.barrier.started)
    ensures i != Delete(l) ==> y.presence == x.presence
  {
  }

  /** The other threads do not move a call. */
  lemma CallMoves<T(!new)>(s: State<T>, a: Act<T>, z: State<T>, k: nat)
    requires Inv(s) && Apply(s, a) == Some(z) && !Restarts(s, a)
    ensures At(z, Call(k)) == At(s, Call(k)) || (a.Do? && a.t == Call(k))
            || At(z, Call(k)).Enter? || At(z, Call(k)).Await?
    ensures Call(k) in s.procs ==> Call(k) in z.procs
  {
    hide Inv, Apply, Restarts, Exec, Firing;
    if a.Do? {
      var i, q := Line1(s, a, z);
      FiringThread(s, a.t, i, q);
      Others(s, a.t, i, q);
      assert !Spawned(Call(k), a.t, i);
    } else {
      StillApply(s, a, z);
    }
  }

  // ---------- Unsubscribe ----------

  ghost predicate UnsubscribeOk<T>(s: State<T>, n: nat, l: Lid) {
    && l in s.listeners
    && (At(s, Call(n)).Unsub? && At(s, Call(n)).l == l ==> !InMap(s, l))
    && ((At(s, Call(n)).Leave? || At(s, Call(n)).Done?) && At(s, Call(n)).op == Unsubscribe(l) ==>
          At(s, Call(n)).res.ErrStopped? || (At(s, Call(n)).res.Nil? && !InMap(s, l)))
  }

  lemma UnsubscribeLine<T>(s: State<T>, t: Tid, pc: Pc<T>, i: Instr<T>, q: Pc<T>, l: Lid)
    requires Executes(s, t, pc, i) && Arrives(s, t, pc, i, q) && KindOk(t, pc)
    ensures q.Unsub? && q.l == l ==> (pc.Unsub? && pc.l == l) || i == Delete(l)
    ensures (q.Leave? || q.Done?) && q.op == Unsubscribe(l) ==>
              || ((pc.Leave? || pc.Done?) && pc.op == q.op && pc.res == q.res)
              || q.res.ErrStopped?
              || (q.res.Nil? && ((pc.Unsub? && pc.l == l) || !InMap(s, l)))
  {
    hide MayVisit, MayFinish, InMap, ListenerStopped, StageNext, StageInstr, Front, ExecutesOn;
    if q.Done? && q.op.Unsubscribe? {
      hide Executes, Arrives;
      UnsubscribeDone(s, t, pc, i, q);
    }
  }

  lemma UnsubscribeDone<T>(s: State<T>, t: Tid, pc: Pc<T>, i: Instr<T>, q: Pc<T>)
    requires Executes(s, t, pc, i) && Arrives(s, t, pc, i, q) && KindOk(t, pc) && q.Done? && q.op.Unsubscribe?
    ensures pc == Leave(q.op, q.res)
  {
    hide MayVisit, MayFinish, InMap, ListenerStopped, StageNext, StageInstr, Front, ExecutesOn;
  }

  lemma UnsubscribeApply<T(!new)>(s: State<T>, a: Act<T>, z: State<T>, n: nat, l: Lid)
    requires Inv(s) && Apply(s, a) == Some(z) && !Restarts(s, a) && UnsubscribeOk(s, n, l)
    ensures UnsubscribeOk(z, n, l)
  {
    hide Inv, Apply, Restarts, Exec, Executes, Arrives, Moves, Ready, Faults, SpawnsOk;
    OutStays(s, a, z, l);
    CallMoves(s, a, z, n);
    if a.Do? && a.t == Call(n) {
      var i, q := Line1(s, a, z);
      OpenInv(s);
      OpenLocks(s, a.t, 0);
      UnsubscribeLine(s, a.t, At(s, a.t), i, q, l);
      FiringThread(s, a.t, i, q);
      Others(s, a.t, i, q);
      RemovedStays(s, a.t, i, q, l);
    }
  }

  lemma {:induction false} UnsubscribeRuns<T(!new)>(s: State<T>, acts: seq<Act<T>>, z: State<T>, n: nat, l: Lid)
    requires Inv(s) && Runs(s, acts, z) && UnsubscribeOk(s, n, l)
    ensures Inv(z) && UnsubscribeOk(z, n, l)
    decreases |acts|
  {
    hide Inv, Apply, Restarts, UnsubscribeOk;
    if acts != [] {
      var y := Apply(s, acts[0]).value;
      InvApply(s, acts[0], y);
      UnsubscribeApply(s, acts[0], y, n, l);
      UnsubscribeRuns(y, acts[1..], z, n, l);
    }
  }

  /**
   An Unsubscribe of an existing listener that returns nil has taken it out of the map, or found it out; if
   the call took it out itself, the listener is stopped and its channel closed.  The other answer is
   ErrStopped.
   */
  lemma UnsubscribeWorks<T(!new)>(s: State<T>, n: nat, l: Lid, acts: seq<Act<T>>, z: State<T>, res: Res)
    requires Reachable(s) && l in s.listeners && Call(n) !in s.procs && Runs(s, acts, z)
    requires At(z, Call(n)) == Done(Unsubscribe(l), res)
    ensures l in z.listeners && (res.ErrStopped? || (res.Nil? && !InMap(z, l)))
    ensures !InMap(z, l) && z.listeners[l].presence.who == Call(n) ==>
              !z.listeners[l].barrier.started && z.listeners[l].chan.closed
  {
    hide Inv, Runs;
    ReachableInv(s);
    UnsubscribeRuns(s, acts, z, n, l);
    if !InMap(z, l) && z.listeners[l].presence.who == Call(n) { StoppedBy(z, l); }
  }

  /** Who has taken a listener out stops it before doing anything else. */
  lemma StoppedBy<T(!new)>(z: State<T>, l: Lid)
    requires Inv(z) && l in z.listeners && z.listeners[l].presence.Removed?
    requires !At(z, z.listeners[l].presence.who).Unsub?
    ensures !z.listeners[l].barrier.started && z.listeners[l].chan.closed
  {
    hide Inv, LocksOk, LifeOk, WorkersOk, PcOk, SweepOk, ServeInv, PresenceInv, DeliveryInv, OrderInv;
    OpenInv(z);
    assert RemovedOk(z, l) && ClosedOk(z, l);
  }

  // ---------- out of the map for good ----------

  /** Listener `l` was out before time `c`, has had no attempt on message number `k` or a later one, and is not
      in a Range over such a message. */
  ghost predicate OutSince<T>(x: Listener<T>, pc: Pc<T>, l: Lid, k: nat, c: nat) {
    && x.presence.Removed? && x.presence.at < c
    && Below(x.tries, k)
    && (JobOf(pc).Some? && JobOf(pc).value.idx >= k ==>
          c <= JobOf(pc).value.sweep.since && l !in JobOf(pc).value.sweep.seen)
  }

  lemma OutJob<T>(s: State<T>, pc: Pc<T>, i: Instr<T>, q: Pc<T>, l: Lid, k: nat, c: nat)
    requires l in s.listeners && OutSince(s.listeners[l], pc, l, k, c) && WMove(s, pc, i, q) && JobInv(s, pc)
    requires c <= s.log.clock
    ensures OutSince(s.listeners[l], q, l, k, c)
  {
    hide MayFinish, Below, InRound;
    if SameJob(pc, q) {
      hide WMove, JobInv, MayVisit, Trying;
    }
  }

  lemma OutTries<T>(s: State<T>, t: Tid, i: Instr<T>, q: Pc<T>, l: Lid, k: nat, c: nat)
    requires l in s.listeners && t in s.procs && OutSince(s.listeners[l], s.procs[t], l, k, c)
    requires WMove(s, s.procs[t], i, q) && JobInv(s, s.procs[t])
    ensures var y := ListenerAfter(s.listeners[l], l, t, i, s.log.clock);
            Below(y.tries, k) && y.presence == s.listeners[l].presence
  {
    hide MayFinish, MayVisit, InRound, SameJob;
    var pc := s.procs[t];
    if i.On? && (i.li.LPush? || i.li.LRecord?) && i.l == l { assert Trying(pc, l); }
  }

  lemma OutWorker<T(!new)>(s: State<T>, t: Tid, i: Instr<T>, q: Pc<T>, l: Lid, k: nat, c: nat)
    requires Inv(s) && Firing(s, t, i, q) && t.Worker? && l in s.listeners && c <= s.log.clock
    requires OutSince(s.listeners[l], WorkerPc(s), l, k, c)
    ensures l in Exec(s, t, i, q).listeners
    ensures OutSince(Exec(s, t, i, q).listeners[l], WorkerPc(Exec(s, t, i, q)), l, k, c)
  {
    hide Inv, Exec, Executes, Arrives, Moves, Ready, Faults, SpawnsOk, WMove, JobInv, ListenerAfter, WorkerPc, SafeInv;
    WorkerFacts(s, t, i, q);
    ListenersAre(s, t, i, q);
    OutJob(s, s.procs[t], i, q, l, k, c);
    OutTries(s, t, i, q, l, k, c);
  }

  lemma WorkerFacts<T(!new)>(s: State<T>, t: Tid, i: Instr<T>, q: Pc<T>)
    requires Inv(s) && Firing(s, t, i, q)
    ensures t.Worker? ==>
              WMove(s, s.procs[t], i, q) && WorkerPc(s) == s.procs[t] && WorkerPc(Exec(s, t, i, q)) == q && !i.GoWorker?
    ensures !t.Worker? ==>
              !WorkerOnly(i) && (WorkerPc(Exec(s, t, i, q)) == WorkerPc(s) || WorkerPc(Exec(s, t, i, q)) == Select)
    ensures JobInv(s, WorkerPc(s)) && SpawnsOk(s, t, i)
  {
    hide Inv, Exec, Executes, Arrives, Moves, Ready, Faults, SpawnsOk, WMove, JobInv, WorkerPc, SafeInv, WorkerOnly,
      TriesOk, NowOk, TimeOk, RoundOk, LocksOk;
    OpenInv(s);
    OpenLocks(s, t, 0);
    if t.Worker? {
      WorkerMove(s, t, i, q);
      WorkerIs(s, t);
      NoSpawn(s, s.procs[t], i, q);
    } else {
      CallerMove(s, t, i, q);
      if i.GoWorker? { SpawnsFirst(s, t, i, q); }
    }
    WorkerPcAfter(s, t, i, q);
  }

  lemma OutCaller<T(!new)>(s: State<T>, t: Tid, i: Instr<T>, q: Pc<T>, l: Lid, k: nat, c: nat)
    requires Inv(s) && Firing(s, t, i, q) && !t.Worker? && l in s.listeners && c <= s.log.clock
    requires OutSince(s.listeners[l], WorkerPc(s), l, k, c)
    ensures l in Exec(s, t, i, q).listeners
    ensures OutSince(Exec(s, t, i, q).listeners[l], WorkerPc(Exec(s, t, i, q)), l, k, c)
  {
    hide Inv, Exec, Executes, Arrives, Moves, Ready, Faults, SpawnsOk, WMove, JobInv, ListenerAfter, WorkerPc,
      WorkerOnly, Below;
    WorkerFacts(s, t, i, q);
    ListenersAre(s, t, i, q);
    NotDeletedTwice(s, t, i, q);
    CallerFields(s.listeners[l], l, t, i, s.log.clock);
    CallerKeeps(s.listeners[l], l, t, i, s.log.clock);
  }

  lemma CallerKeeps<T>(x: Listener<T>, l: Lid, t: Tid, i: Instr<T>, now: nat)
    requires i != Delete(l)
    ensures ListenerAfter(x, l, t, i, now).presence == x.presence
  {
  }

  lemma ClockGoes<T(!new)>(s: State<T>, a: Act<T>, z: State<T>)
    requires Inv(s) && Apply(s, a) == Some(z) && !Restarts(s, a)
    ensures s.log.clock <= z.log.clock && s.log.deq <= z.log.deq && (s.cancelled ==> z.cancelled)
  {
    hide Inv, Apply, Restarts, Firing, Exec;
    if a.Do? {
      var i, q := Line1(s, a, z);
      ClockLine(s, a.t, i, q);
    } else {
      StillApply(s, a, z);
    }
  }

  lemma ClockLine<T>(s: State<T>, t: Tid, i: Instr<T>, q: Pc<T>)
    ensures var z := Exec(s, t, i, q);
            s.log.clock <= z.log.clock && s.log.deq <= z.log.deq && (s.cancelled ==> z.cancelled)
  {
    hide ListenersAfter, ProcsAfter, BarrierAfter, ChanAfter, RoundsAfter, WgAfter;
  }

  lemma OutApply<T(!new)>(s: State<T>, a: Act<T>, z: State<T>, l: Lid, k: nat, c: nat)
    requires Inv(s) && Apply(s, a) == Some(z) && !Restarts(s, a) && l in s.listeners && c <= s.log.clock
    requires OutSince(s.listeners[l], WorkerPc(s), l, k, c)
    ensures l in z.listeners && c <= z.log.clock && OutSince(z.listeners[l], WorkerPc(z), l, k, c)
  {
    hide Inv, Apply, Restarts, Firing, Exec, OutSince, WorkerPc;
    ClockGoes(s, a, z);
    if a.Do? {
      var i, q := Line1(s, a, z);
      if a.t.Worker? { OutWorker(s, a.t, i, q, l, k, c); } else { OutCaller(s, a.t, i, q, l, k, c); }
    } else {
      StillApply(s, a, z);
      OpenInv(s);
      WorkerStill(s, z);
      OutStill(s.listeners[l], z.listeners[l], WorkerPc(s), l, k, c);
    }
  }

  lemma OutStill<T>(x: Listener<T>, y: Listener<T>, pc: Pc<T>, l: Lid, k: nat, c: nat)
    requires OutSince(x, pc, l, k, c) && StillListener(x, y)
    ensures OutSince(y, pc, l, k, c)
  {
  }

  lemma {:induction false} OutRuns<T(!new)>(s: State<T>, acts: seq<Act<T>>, z: State<T>, l: Lid, k: nat, c: nat)
    requires Inv(s) && Runs(s, acts, z) && l in s.listeners && c <= s.log.clock
    requires OutSince(s.listeners[l], WorkerPc(s), l, k, c)
    ensures l in z.listeners && OutSince(z.listeners[l], WorkerPc(z), l, k, c)
    ensures !s.listeners[l].barrier.started ==> !z.listeners[l].barrier.started
    decreases |acts|
  {
    hide Inv, Apply, Restarts, OutSince, WorkerPc;
    if acts != [] {
      var y := Apply(s, acts[0]).value;
      InvApply(s, acts[0], y);
      OutApply(s, acts[0], y, l, k, c);
      OutStays(s, acts[0], y, l);
      OutRuns(y, acts[1..], z, l, k, c);
    }
  }

  lemma OutNow<T(!new)>(s: State<T>, l: Lid)
    requires Inv(s) && l in s.listeners && !InMap(s, l)
    ensures OutSince(s.listeners[l], WorkerPc(s), l, |s.log.deq|, s.log.clock)
  {
    hide Inv, SafeInv, ServeInv, PresenceInv, StopInv, OrderInv, InRound, Content, Increasing, NowOk, RoundOk;
    OpenInv(s);
  }

  /**
   A listener out of the map stays out, stays stopped if it is, and gets no attempt on any message the worker
   receives from then on.
   */
  lemma OutForever<T(!new)>(s: State<T>, l: Lid, acts: seq<Act<T>>, z: State<T>, k: nat)
    requires Reachable(s) && l in s.listeners && !InMap(s, l) && Runs(s, acts, z)
    ensures l in z.listeners && !InMap(z, l)
    ensures k >= |s.log.deq| ==> !HasTry(z.listeners[l].tries, k)
    ensures !s.listeners[l].barrier.started ==> !z.listeners[l].barrier.started && z.listeners[l].chan.closed
  {
    hide Inv, Runs, WorkerPc;
    ReachableInv(s);
    OutNow(s, l);
    OutRuns(s, acts, z, l, |s.log.deq|, s.log.clock);
    InvRuns(s, acts, z);
    if !s.listeners[l].barrier.started { StoppedIsClosed(z, l); }
  }

  lemma StoppedIsClosed<T(!new)>(z: State<T>, l: Lid)
    requires Inv(z) && l in z.listeners && !z.listeners[l].barrier.started
    ensures z.listeners[l].chan.closed
  {
    hide Inv, LocksOk, LifeOk, WorkersOk, PcOk, ServeInv, PresenceInv, StopInv, DeliveryInv, OrderInv;
    OpenInv(z);
    assert ClosedOk(z, l);
  }

  // ---------- IsSubscribed ----------

  /** The call answers `b`, or is refused. */
  ghost predicate Answers<T>(pc: Pc<T>, l: Lid, b: bool) {
    (pc.Leave? || pc.Done?) && pc.op == IsSubscribed(l) ==> pc.res.ErrStopped? || pc.res == Flag(b)
  }

  lemma AnswerLine<T>(s: State<T>, t: Tid, pc: Pc<T>, i: Instr<T>, q: Pc<T>, l: Lid)
    requires Executes(s, t, pc, i) && Arrives(s, t, pc, i, q) && KindOk(t, pc) && Answers(pc, l, InMap(s, l))
    ensures Answers(q, l, InMap(s, l))
  {
    hide MayVisit, MayFinish, InMap, ListenerStopped, StageNext, StageInstr, Front, ExecutesOn;
    if q.Done? && q.op.IsSubscribed? {
      hide Executes, Arrives;
      AnswerDone(s, t, pc, i, q);
    }
  }

  lemma AnswerDone<T>(s: State<T>, t: Tid, pc: Pc<T>, i: Instr<T>, q: Pc<T>)
    requires Executes(s, t, pc, i) && Arrives(s, t, pc, i, q) && KindOk(t, pc) && q.Done? && q.op.IsSubscribed?
    ensures pc == Leave(q.op, q.res)
  {
    hide MayVisit, MayFinish, InMap, ListenerStopped, StageNext, StageInstr, Front, ExecutesOn;
  }

  lemma AnswerApply<T(!new)>(s: State<T>, a: Act<T>, z: State<T>, k: nat, l: Lid)
    requires Inv(s) && Apply(s, a) == Some(z) && !Restarts(s, a) && Answers(At(s, Call(k)), l, InMap(s, l))
    ensures Answers(At(z, Call(k)), l, InMap(s, l))
  {
    hide Inv, Apply, Restarts, Exec, Executes, Arrives, Moves, Ready, Faults, SpawnsOk, InMap;
    CallMoves(s, a, z, k);
    if a.Do? && a.t == Call(k) {
      var i, q := Line1(s, a, z);
      OpenInv(s);
      OpenLocks(s, a.t, 0);
      AnswerLine(s, a.t, At(s, a.t), i, q, l);
      FiringThread(s, a.t, i, q);
      Others(s, a.t, i, q);
    }
  }

  /** While the listener stays where it is, the answer can only be where it is. */
  lemma {:induction false} AnswerRuns<T(!new)>(s: State<T>, acts: seq<Act<T>>, z: State<T>, k: nat, l: Lid)
    requires Inv(s) && Runs(s, acts, z) && l in s.listeners && Answers(At(s, Call(k)), l, InMap(s, l))
    ensures l in z.listeners && (InMap(z, l) ==> InMap(s, l))
    ensures InMap(z, l) == InMap(s, l) ==> Answers(At(z, Call(k)), l, InMap(s, l))
    decreases |acts|
  {
    hide Inv, Apply, Restarts, Answers;
    if acts != [] {
      var y := Apply(s, acts[0]).value;
      InvApply(s, acts[0], y);
      OutStays(s, acts[0], y, l);
      AnswerApply(s, acts[0], y, k, l);
      if InMap(y, l) == InMap(s, l) {
        AnswerRuns(y, acts[1..], z, k, l);
      } else {
        OutRunsOn(y, acts[1..], z, l);
      }
    }
  }

  lemma {:induction false} OutRunsOn<T(!new)>(s: State<T>, acts: seq<Act<T>>, z: State<T>, l: Lid)
    requires Inv(s) && Runs(s, acts, z) && l in s.listeners && !InMap(s, l)
    ensures l in z.listeners && !InMap(z, l)
    decreases |acts|
  {
    hide Inv, Apply, Restarts;
    if acts != [] {
      var y := Apply(s, acts[0]).value;
      InvApply(s, acts[0], y);
      OutStays(s, acts[0], y, l);
      OutRunsOn(y, acts[1..], z, l);
    }
  }

  /** An IsSubscribed call on a listener that is in the map all the time answers true, on one that is out of it
      all the time false, unless it is refused. */
  lemma IsSubscribedAnswers<T(!new)>(s: State<T>, k: nat, l: Lid, acts: seq<Act<T>>, z: State<T>, res: Res)
    requires Reachable(s) && l in s.listeners && Call(k) !in s.procs && Runs(s, acts, z)
    requires At(z, Call(k)) == Done(IsSubscribed(l), res)
    ensures InMap(z, l) == InMap(s, l) ==> res.ErrStopped? || res == Flag(InMap(s, l))
  {
    hide Inv, Runs;
    ReachableInv(s);
    AnswerRuns(s, acts, z, k, l);
  }

  // ---------- no call is refused without a Stop ----------

  ghost predicate Unrefused<T>(pc: Pc<T>) {
    pc.Leave? || pc.Unlock? || pc.Done? ==> !pc.res.ErrStopped? && (pc.op.IsStopped? ==> pc.res == Flag(false))
  }

  lemma UnrefusedLine<T>(s: State<T>, t: Tid, pc: Pc<T>, i: Instr<T>, q: Pc<T>)
    requires Executes(s, t, pc, i) && Arrives(s, t, pc, i, q) && KindOk(t, pc) && Unrefused(pc) && s.barrier.started
    ensures Unrefused(q)
  {
    hide MayVisit, MayFinish, InMap, ListenerStopped, StageNext, StageInstr, Front, ExecutesOn;
    if q.Leave? {
      hide Executes, Arrives;
      UnrefusedLeave(s, t, pc, i, q);
    }
  }

  lemma UnrefusedLeave<T>(s: State<T>, t: Tid, pc: Pc<T>, i: Instr<T>, q: Pc<T>)
    requires Executes(s, t, pc, i) && Arrives(s, t, pc, i, q) && KindOk(t, pc) && s.barrier.started && q.Leave?
    ensures !q.res.ErrStopped? && (q.op.IsStopped? ==> q.res == Flag(false))
  {
    hide MayVisit, MayFinish, InMap, ListenerStopped, StageNext, StageInstr, Front, ExecutesOn;
  }

  lemma UnrefusedApply<T(!new)>(s: State<T>, a: Act<T>, z: State<T>, k: nat)
    requires Inv(s) && Apply(s, a) == Some(z) && !Restarts(s, a)
    requires s.barrier.started && Unrefused(At(s, Call(k)))
    ensures s.log.stopped ==> z.log.stopped
    ensures !z.log.stopped ==> z.barrier.started
    ensures Unrefused(At(z, Call(k)))
  {
    hide Inv, Apply, Restarts, Exec, Executes, Arrives, Moves, Ready, Faults, SpawnsOk, Unrefused;
    CallMoves(s, a, z, k);
    assert forall pc: Pc<T> :: pc.Enter? || pc.Await? ==> Unrefused(pc) by {
      forall pc: Pc<T> | pc.Enter? || pc.Await? ensures Unrefused(pc) { UnrefusedStart(pc); }
    }
    if a.Do? {
      var i, q := Line1(s, a, z);
      FiringThread(s, a.t, i, q);
      FlagsAfter(s, a.t, i, q);
      if a.t == Call(k) {
        OpenInv(s);
        OpenLocks(s, a.t, 0);
        UnrefusedLine(s, a.t, At(s, a.t), i, q);
        Others(s, a.t, i, q);
      }
    } else {
      StillApply(s, a, z);
    }
  }

  lemma UnrefusedStart<T>(pc: Pc<T>)
    requires pc.Enter? || pc.Await? || pc.Gone?
    ensures Unrefused(pc)
  {
  }

  lemma {:induction false} UnrefusedRuns<T(!new)>(s: State<T>, acts: seq<Act<T>>, z: State<T>, k: nat)
    requires Inv(s) && Runs(s, acts, z) && s.barrier.started && Unrefused(At(s, Call(k)))
    ensures !z.log.stopped ==> Unrefused(At(z, Call(k)))
    decreases |acts|
  {
    hide Inv, Apply, Restarts, Unrefused;
    if acts != [] {
      var y := Apply(s, acts[0]).value;
      InvApply(s, acts[0], y);
      UnrefusedApply(s, acts[0], y, k);
      if y.log.stopped {
        StoppedRuns(y, acts[1..], z);
      } else {
        UnrefusedRuns(y, acts[1..], z, k);
      }
    }
  }

  /** A call that begins when the broadcaster is started, and returns before a Stop has succeeded, is not
      refused; IsStopped answers false. */
  lemma NotRefused<T(!new)>(s: State<T>, k: nat, acts: seq<Act<T>>, z: State<T>, op: Op<T>, res: Res)
    requires Reachable(s) && s.barrier.started && Call(k) !in s.procs && Runs(s, acts, z) && !z.log.stopped
    requires At(z, Call(k)) == Done(op, res)
    ensures !res.ErrStopped? && (op.IsStopped? ==> res == Flag(false))
  {
    hide Inv, Runs;
    ReachableInv(s);
    UnrefusedStart(At(s, Call(k)));
    UnrefusedRuns(s, acts, z, k);
  }

  // ---------- Start, Subscribe, WriteSync ----------

  /** What a call can return: Start nil, Subscribe its listener, IsSubscribed and IsStopped a flag, the others
      nil; and all of them but Start and IsStopped ErrStopped. */
  lemma AnswerKinds<T(!new)>(s: State<T>, n: nat)
    requires Reachable(s)
    ensures AnswerOk(Call(n), At(s, Call(n)))
  {
    hide Inv, Reachable;
    ReachableInv(s);
    OpenInv(s);
    assert ServeOk(s, Call(n), At(s, Call(n)));
  }

  /** A Start that has returned has started the broadcaster, unless a Stop has stopped it since. */
  lemma StartWorks<T(!new)>(s: State<T>, n: nat, res: Res)
    requires Reachable(s) && At(s, Call(n)) == Done(Start, res)
    ensures s.barrier.started || s.log.stopped
  {
    hide Inv, ServeOk, Reachable;
    ReachableInv(s);
    OpenInv(s);
    assert ServeOk(s, Call(n), At(s, Call(n)));
    StartedOk(s, Call(n), At(s, Call(n)));
  }

  lemma StartedOk<T>(s: State<T>, t: Tid, pc: Pc<T>)
    requires ServeOk(s, t, pc) && pc.Done? && pc.op.Start?
    ensures s.barrier.started || s.log.stopped
  {
  }

  /** A Subscribe that is not refused returns a new listener, named after the call, and it is in the map unless
      an Unsubscribe of it or a Stop has taken it out. */
  lemma SubscribeWorks<T(!new)>(s: State<T>, n: nat, res: Res)
    requires Reachable(s) && At(s, Call(n)) == Done(Subscribe, res)
    ensures res.ErrStopped? || (res == Got(n) && n in s.listeners)
    ensures res == Got(n) ==> InMap(s, n) || Removing(At(s, s.listeners[n].presence.who), n)
  {
    hide Inv, ServeOk, ByOk, ReturnOk, Reachable, SafeInv, Removing;
    ReachableInv(s);
    OpenInv(s);
    assert ServeOk(s, Call(n), At(s, Call(n))) && ReturnOk(s, At(s, Call(n)));
    SubscribedOk(s, Call(n), At(s, Call(n)));
    if n in s.listeners {
      assert ByOk(s, n);
      ByMeans(s, n);
    }
  }

  lemma SubscribedOk<T>(s: State<T>, t: Tid, pc: Pc<T>)
    requires ServeOk(s, t, pc) && ReturnOk(s, pc) && pc.Done? && pc.op.Subscribe?
    ensures pc.res.ErrStopped? || (pc.res == Got(t.n) && t.n in s.listeners)
  {
  }

  lemma ByMeans<T>(s: State<T>, l: Lid)
    requires l in s.listeners && ByOk(s, l)
    ensures InMap(s, l) || Removing(At(s, s.listeners[l].presence.who), l)
  {
  }

  /** A WriteSync returns nil only when its message has been sent or its timer has fired. */
  lemma WriteSyncWaits<T(!new)>(s: State<T>, n: nat, v: T)
    requires Reachable(s) && At(s, Call(n)) == Done(WriteSync(v), Nil)
    ensures Msg(n, v) in s.log.accepted || n in s.log.lapsed
  {
    hide Inv, ServeOk, Reachable, SendOk;
    ReachableInv(s);
    OpenInv(s);
    Integrity(s, Msg(n, v));
    assert ServeOk(s, Async(n), At(s, Async(n)));
    NoSender(s, n);
  }

  lemma NoSender<T>(s: State<T>, n: nat)
    requires ServeOk(s, Async(n), At(s, Async(n))) && At(s, Call(n)).Done? && At(s, Call(n)).op.WriteSync?
    ensures Async(n) !in s.procs && !Pending(s, n)
  {
  }

  // ---------- Stop ----------

  ghost predicate StopsNil<T>(pc: Pc<T>) { pc == Unlock(Stop, Nil) || pc == Done(Stop, Nil) }

  /** Some Stop call returns nil, or has. */
  ghost predicate SomeStop<T>(s: State<T>) { exists n: nat :: StopsNil(At(s, Call(n))) }

  lemma StopMoves<T>(s: State<T>, t: Tid, pc: Pc<T>, i: Instr<T>, q: Pc<T>)
    requires Executes(s, t, pc, i) && Arrives(s, t, pc, i, q) && KindOk(t, pc)
    ensures StopsNil(pc) ==> StopsNil(q)
    ensures i.SetStopped? ==> t.Call? && StopsNil(q)
  {
    hide MayVisit, MayFinish, InMap, ListenerStopped, StageNext, StageInstr, Front, ExecutesOn;
  }

  lemma StopLine<T(!new)>(s: State<T>, t: Tid, i: Instr<T>, q: Pc<T>)
    requires Inv(s) && Firing(s, t, i, q) && (s.log.stopped ==> SomeStop(s))
    ensures Exec(s, t, i, q).log.stopped ==> SomeStop(Exec(s, t, i, q))
  {
    hide Inv, Exec, Executes, Arrives, Moves, Ready, Faults, SpawnsOk, StopsNil;
    FiringThread(s, t, i, q);
    FlagsAfter(s, t, i, q);
    Others(s, t, i, q);
    OpenInv(s);
    OpenLocks(s, t, 0);
    StopMoves(s, t, At(s, t), i, q);
    if i.SetStopped? {
      assert StopsNil(At(Exec(s, t, i, q), Call(t.n)));
    } else if s.log.stopped {
      var n: nat :| StopsNil(At(s, Call(n)));
      assert !Spawned(Call(n), t, i);
      assert StopsNil(At(Exec(s, t, i, q), Call(n)));
    }
  }

  lemma StopStill<T>(s: State<T>, z: State<T>)
    requires Still(s, z) && (s.log.stopped ==> SomeStop(s))
    ensures z.log.stopped ==> SomeStop(z)
  {
    if s.log.stopped {
      var n: nat :| StopsNil(At(s, Call(n)));
      assert StopsNil(At(z, Call(n)));
    }
  }

  lemma {:induction false} StopRuns<T(!new)>(s: State<T>, acts: seq<Act<T>>, z: State<T>)
    requires Inv(s) && Runs(s, acts, z) && (s.log.stopped ==> SomeStop(s))
    ensures z.log.stopped ==> SomeStop(z)
    decreases |acts|
  {
    hide Inv, Apply, Restarts, SomeStop, Firing, Exec, Still;
    if acts != [] {
      var y := Apply(s, acts[0]).value;
      InvApply(s, acts[0], y);
      if acts[0].Do? {
        var i, q := Line1(s, acts[0], y);
        StopLine(s, acts[0].t, i, q);
      } else {
        StillApply(s, acts[0], y);
        StopStill(s, y);
      }
      StopRuns(y, acts[1..], z);
    }
  }

  /** The broadcaster has been stopped exactly when some Stop call returns nil: with NotRefused, a Stop of a started
      broadcaster returns nil unless another one does. */
  lemma StopSucceeds<T(!new)>(s: State<T>)
    requires Reachable(s)
    ensures s.log.stopped <==> SomeStop(s)
  {
    hide Inv, Runs, Reachable;
    ReachableInv(s);
    OpenInv(s);
    ReachedBy(s);
    var acts :| Runs(New<T>(), acts, s);
    InvInit<T>();
    StopRuns(New(), acts, s);
    if SomeStop(s) {
      var n: nat :| StopsNil(At(s, Call(n)));
      assert ReturnOk(s, At(s, Call(n)));
    }
  }

  lemma ReachedBy<T(!new)>(s: State<T>)
    requires Reachable(s)
    ensures exists acts :: Runs(New<T>(), acts, s)
  {
    hide Runs;
  }

  // ---------- what a call waits for ----------

  /**
   A call gets in as soon as no Start or Stop has announced itself, whoever else is inside; a Start or Stop waits
   for its turn, then for those inside to leave; and a Write that is in never waits, neither for room in the
   channel nor for the worker.
   */
  lemma WaitsFor<T(!new)>(s: State<T>, n: nat)
    requires Reachable(s) && Call(n) in s.procs
    ensures At(s, Call(n)).Enter? || At(s, Call(n)).Await? ==>
              (CanStep(s, Call(n), false) <==> s.barrier.writer.None?)
    ensures At(s, Call(n)).Drain? ==> (CanStep(s, Call(n), false) <==> s.barrier.readers == {})
    ensures (At(s, Call(n)).Check? || At(s, Call(n)).Body?) && At(s, Call(n)).op.Write? ==>
              CanStep(s, Call(n), false)
  {
    hide Inv, Reachable, LocksOk, CanStep;
    ReachableInv(s);
    OpenInv(s);
    OpenLocks(s, Call(n), 0);
    var pc := At(s, Call(n));
    if pc.Enter? || pc.Await? || pc.Drain? {
      WaitsOutside(s, Call(n));
    } else if (pc.Check? || pc.Body?) && pc.op.Write? {
      WriteGoesOn(s, Call(n));
    }
  }

  lemma WaitsOutside<T>(s: State<T>, t: Tid)
    requires !s.panicked && t in s.procs && (At(s, t).Enter? || At(s, t).Await? || At(s, t).Drain?)
    ensures CanStep(s, t, false) <==> if At(s, t).Drain? then s.barrier.readers == {} else s.barrier.writer.None?
  {
    hide Exec;
    if (if At(s, t).Drain? then s.barrier.readers == {} else s.barrier.writer.None?) {
      assert Apply(s, Do(t, Go)).Some?;
    }
  }

  lemma WriteGoesOn<T>(s: State<T>, t: Tid)
    requires !s.panicked && t in s.procs && (At(s, t).Check? || At(s, t).Body?) && At(s, t).op.Write?
    ensures CanStep(s, t, false)
  {
    hide Exec, InMap;
    assert Apply(s, Do(t, Go)).Some?;
  }

  // ---------- what a thread may rely on ----------

  /** The thread uses the mutexes, the channels and the wait group as it may. */
  ghost predicate Proper<T>(s: State<T>, t: Tid, pc: Pc<T>) {
    match pc
    case Body(op) => IsWrite(op) ==> !s.chan.closed
    case Sender(_) => !s.chan.closed
    case StopClose => !s.chan.closed
    case LSend(_, l) => l in s.listeners && !s.listeners[l].chan.closed
    case Unsub(l, stage) => StopsProperly(s, t, l, stage)
    case StopOne(_, l, stage) => StopsProperly(s, t, l, stage)
    case Leave(_, _) => t in s.barrier.readers
    case SenderOut => t in s.barrier.readers
    case Unlock(_, _) => s.barrier.writer == Some(t)
    case LOut(_, l) => l in s.listeners && t in s.listeners[l].barrier.readers
    case Exit => s.wg > 0
    case _ => true
  }

  ghost predicate StopsProperly<T>(s: State<T>, t: Tid, l: Lid, stage: Stage) {
    && l in s.listeners
    && (stage.SClose? ==> !s.listeners[l].chan.closed)
    && (stage.SOut? ==> s.listeners[l].barrier.writer == Some(t))
  }

  /** Who is about to send on or close a channel finds it open, who is about to release a mutex holds it, and the
      wait group is not taken below zero. */
  lemma NoMisuse<T(!new)>(s: State<T>, t: Tid)
    requires Reachable(s) && t in s.procs
    ensures Proper(s, t, s.procs[t])
  {
    hide Inv, Reachable, SafeInv, Proper, LocksOk;
    ReachableInv(s);
    OpenInv(s);
    OpenLocks(s, t, 0);
    var pc := s.procs[t];
    if pc.Unsub? || pc.StopOne? || pc.LSend? || pc.LOut? {
      OpenLocks(s, t, pc.l);
      ProperAt(s, t, pc.l);
    } else {
      ProperElse(s, t);
    }
  }

  lemma ProperAt<T>(s: State<T>, t: Tid, l: Lid)
    requires SafeInv(s) && t in s.procs && ThreadOk(s, t)
    requires (s.procs[t].Unsub? || s.procs[t].StopOne? || s.procs[t].LSend? || s.procs[t].LOut?) && s.procs[t].l == l
    requires l in s.listeners ==> RoleOk(s.listeners[l].barrier, t, LRole(At(s, t), l))
    ensures Proper(s, t, s.procs[t])
  {
    hide LocksOk, LifeOk, WorkersOk;
    assert PcOk(s, At(s, t));
    if l in s.listeners {
      assert ClosedOk(s, l);
      OpenLocks(s, t, l);
      if t in s.listeners[l].barrier.readers { NoLOwner(s, l, t); }
    }
  }

  lemma ProperElse<T>(s: State<T>, t: Tid)
    requires SafeInv(s) && t in s.procs && ThreadOk(s, t) && RoleOk(s.barrier, t, BRole(At(s, t)))
    requires !s.procs[t].Unsub? && !s.procs[t].StopOne? && !s.procs[t].LSend? && !s.procs[t].LOut?
    ensures Proper(s, t, s.procs[t])
  {
    hide LocksOk, ClosedOk;
    assert PcOk(s, At(s, t));
    OpenLocks(s, t, 0);
    if t in s.barrier.readers { NoOwner(s, t); }
  }
}
