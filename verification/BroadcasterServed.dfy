/** Delivery where no timer fires, and what cancellation ends. */
module BroadcasterServed {
  import opened Wrappers
  import opened StatusBarrier
  import opened Broadcaster
  import opened BroadcasterCode
  import opened BroadcasterLocks
  import opened BroadcasterSafety
  import opened BroadcasterOrder
  import opened BroadcasterPresence
  import opened BroadcasterDelivery
  import opened BroadcasterQuiescence
  import opened BroadcasterProgress
  import opened BroadcasterService
  import opened BroadcasterTheorems
  import opened BroadcasterCalls

  // ---------- runs in which no timer fires ----------

  ghost predicate NoTimeouts<T(!new)>(acts: seq<Act<T>>) {
    forall k :: 0 <= k < |acts| ==> !(acts[k].Do? && acts[k].c.Timeout?)
  }

  ghost predicate OnTime(ts: seq<Try>) { forall a :: 0 <= a < |ts| ==> !ts[a].outcome.Expired? }

  /** No timer has fired, and nothing was admitted before there was a worker. */
  ghost predicate Timely<T>(s: State<T>) {
    && s.log.lapsed == {} && (s.log.worker.None? ==> s.log.admitted == [])
    && (forall l :: l in s.listeners ==> OnTime(s.listeners[l].tries))
  }

  ghost predicate Fires<T>(i: Instr<T>) { i.Lapse? || (i.On? && i.li.LRecord? && i.li.outcome.Expired?) }

  lemma NoTimer<T>(s: State<T>, t: Tid, pc: Pc<T>, c: Choice, i: Instr<T>, q: Pc<T>)
    requires Code(s, t, pc, c) == Some(Line(i, q)) && !c.Timeout?
    ensures !Fires(i)
  {
    hide MayVisit, MayFinish, InMap, ListenerStopped, StageNext, Front, ReadCode, WorkerCode, StatusCode;
    if IsReadPc(pc) {
      NoReadTimer(s, t, pc, c, i, q);
    } else if IsWorkerPc(pc) {
      NoWorkerTimer(s, pc, c, i, q);
    } else {
      NoStatusTimer(s, pc, c, i, q);
    }
  }

  lemma NoReadTimer<T>(s: State<T>, t: Tid, pc: Pc<T>, c: Choice, i: Instr<T>, q: Pc<T>)
    requires ReadCode(s, t, pc, c) == Some(Line(i, q)) && !c.Timeout?
    ensures !Fires(i)
  {
    hide InMap, ListenerStopped, StageNext;
  }

  lemma NoWorkerTimer<T>(s: State<T>, pc: Pc<T>, c: Choice, i: Instr<T>, q: Pc<T>)
    requires WorkerCode(s, pc, c) == Some(Line(i, q)) && !c.Timeout?
    ensures !Fires(i)
  {
    hide MayVisit, MayFinish, ListenerStopped, Front;
  }

  lemma NoStatusTimer<T>(s: State<T>, pc: Pc<T>, c: Choice, i: Instr<T>, q: Pc<T>)
    requires StatusCode(s, pc, c) == Some(Line(i, q))
    ensures !Fires(i)
  {
    hide MayVisit, MayFinish, ListenerStopped, InMap;
  }

  lemma TimelyListener<T>(x: Listener<T>, l: Lid, t: Tid, i: Instr<T>, now: nat)
    requires OnTime(x.tries) && !Fires(i)
    ensures OnTime(ListenerAfter(x, l, t, i, now).tries)
  {
  }

  lemma TimelyLog<T>(s: State<T>, t: Tid, i: Instr<T>, q: Pc<T>)
    requires SafeInv(s) && Executes(s, t, At(s, t), i) && Timely(s) && !Fires(i)
    ensures Exec(s, t, i, q).log.lapsed == {}
    ensures Exec(s, t, i, q).log.worker.None? ==> Exec(s, t, i, q).log.admitted == []
  {
    hide LocksOk, WorkersOk, PcOk, ClosedOk, HolderOk, OnTime, ExecutesOn, InMap, MayFinish,
      ListenersAfter, ProcsAfter, BarrierAfter, ChanAfter, RoundsAfter, WgAfter;
  }

  lemma TimelyApply<T(!new)>(s: State<T>, a: Act<T>, z: State<T>)
    requires Inv(s) && Apply(s, a) == Some(z) && !Restarts(s, a) && Timely(s) && !(a.Do? && a.c.Timeout?)
    ensures Timely(z)
  {
    hide Inv, Apply, Restarts, Code, Exec, Executes, Arrives, Moves, Ready, Faults, SafeInv, OnTime, Fires,
      ListenerAfter;
    if a.Do? {
      var i, q := Line1(s, a, z);
      NoTimer(s, a.t, s.procs[a.t], a.c, i, q);
      OpenInv(s);
      FiringThread(s, a.t, i, q);
      TimelyLog(s, a.t, i, q);
      ListenersAre(s, a.t, i, q);
      forall l | l in z.listeners ensures OnTime(z.listeners[l].tries) {
        if l in s.listeners {
          TimelyListener(s.listeners[l], l, a.t, i, s.log.clock);
        } else {
          NewOnTime<T>(s.log.clock);
        }
      }
    } else {
      StillApply(s, a, z);
    }
  }

  lemma NewOnTime<T>(now: nat)
    ensures OnTime(NewListener<T>(now).tries)
  {
  }

  lemma {:induction false} TimelyRuns<T(!new)>(s: State<T>, acts: seq<Act<T>>, z: State<T>)
    requires Inv(s) && Timely(s) && Runs(s, acts, z) && NoTimeouts(acts)
    ensures Inv(z) && Timely(z)
    decreases |acts|
  {
    hide Inv, Timely, Apply, Restarts;
    if acts != [] {
      var y := Apply(s, acts[0]).value;
      InvApply(s, acts[0], y);
      TimelyApply(s, acts[0], y);
      TimelyRuns(y, acts[1..], z);
    }
  }

  /** After a run from the start without timers. */
  lemma TimelyReached<T(!new)>(acts: seq<Act<T>>, s: State<T>)
    requires Runs(New<T>(), acts, s) && NoTimeouts(acts)
    ensures Reachable(s) && Inv(s) && Timely(s)
  {
    hide Inv, Runs;
    InvInit<T>();
    TimelyRuns(New(), acts, s);
  }

  // ---------- an attempt on time delivers ----------

  lemma {:induction false} ContentHas<T(!new)>(ts: seq<Try>, deq: seq<Msg<T>>, a: nat)
    requires Below(ts, |deq|) && a < |ts| && ts[a].outcome.Delivered?
    ensures deq[ts[a].idx] in Content(ts, deq)
  {
    if a < |ts| - 1 { ContentHas(ts[..|ts| - 1], deq, a); }
  }

  /**
   In a run in which no timer fires, a listener that is in the map throughout the Range for a received message
   gets this message.
   */
  lemma Delivered<T(!new)>(acts: seq<Act<T>>, s: State<T>, k: nat, l: Lid)
    requires Runs(New<T>(), acts, s) && NoTimeouts(acts) && k < |s.log.deq| && l in s.listeners
    ensures k in s.log.rounds
    ensures match s.log.rounds[k]
            case Finished(since, till) =>
              Throughout(s.listeners[l], since, till) ==> s.log.deq[k] in Gotten(s.listeners[l])
            case Cut => s.cancelled
            case Running => k + 1 == |s.log.deq|
  {
    hide Inv, Runs, NoTimeouts;
    TimelyReached(acts, s);
    Delivery(s, k, l, 0, 0);
    if HasTry(s.listeners[l].tries, k) && !RefusedAt(s.listeners[l].tries, k) { DeliveredTo(s, k, l); }
  }

  lemma DeliveredTo<T(!new)>(s: State<T>, k: nat, l: Lid)
    requires Inv(s) && Timely(s) && l in s.listeners && k < |s.log.deq|
    requires HasTry(s.listeners[l].tries, k) && !RefusedAt(s.listeners[l].tries, k)
    ensures s.log.deq[k] in Gotten(s.listeners[l])
  {
    hide Inv, TriesOk, OnTime, HasTry, RefusedAt, Gotten;
    TriesThere(s, l);
    TriedGotten(s.listeners[l], s.log.deq, k);
  }

  lemma TriesThere<T(!new)>(s: State<T>, l: Lid)
    requires Inv(s) && l in s.listeners
    ensures TriesOk(s.listeners[l], s.log.deq)
  {
    hide Inv, SafeInv, ServeInv, PresenceInv, StopInv, OrderInv, JobInv, NowOk, TimeOk, RoundOk, TriesOk;
    OpenInv(s);
  }

  lemma TriedGotten<T(!new)>(x: Listener<T>, deq: seq<Msg<T>>, k: nat)
    requires TriesOk(x, deq) && OnTime(x.tries) && HasTry(x.tries, k) && !RefusedAt(x.tries, k) && k < |deq|
    ensures deq[k] in Gotten(x)
  {
    hide Content, Increasing;
    var a: nat :| a < |x.tries| && x.tries[a].idx == k;
    assert x.tries[a] == Try(k, x.tries[a].outcome);
    ContentHas(x.tries, deq, a);
  }

  // ---------- and the worker gets to every message ----------

  /**
   Without timers: as long as the users receive what is sent to them, the worker does not stay inside a Range;
   whether cancelled or not, some thread can go on.
   */
  lemma RoundsEnd<T(!new)>(s: State<T>, k: nat)
    requires Reachable(s) && Emptied(s) && !SomeoneSteps(s, false) && k in s.log.rounds
    ensures !s.log.rounds[k].Running?
  {
    hide Inv, Reachable, SomeoneSteps, SafeInv, Emptied, OrderInv, PresenceInv, ServeInv;
    ReachableInv(s);
    OpenInv(s);
    if s.log.rounds[k].Running? {
      InRoundWorker(s, k);
      InnerSteps(s, Worker(s.log.worker.value), false);
      StoppedRests(s);
    }
  }

  lemma InRoundWorker<T(!new)>(s: State<T>, k: nat)
    requires Inv(s) && k in s.log.rounds && s.log.rounds[k].Running?
    ensures s.log.worker.Some? && Worker(s.log.worker.value) in s.procs && !Rests(s, Worker(s.log.worker.value))
    ensures !s.log.stopped
    ensures var pc := s.procs[Worker(s.log.worker.value)];
            !pc.Enter? && !pc.Await? && !pc.Drain? && !pc.StopWait? && !WaitsToSend(s, pc)
  {
    hide LocksOk, PcOk, ClosedOk, OrderInv, PresenceInv, ServeInv, StopInv, SeenInv, JobInv, NowOk, TimeOk, TriesOk;
    assert RoundOk(s, k);
  }

  lemma StoppedRests<T(!new)>(s: State<T>)
    requires RestartWaits(s)
    ensures s.log.stopped
  {
  }

  /** Where no thread can go on, without cancellation and with nothing left for the users to receive, all rest. */
  lemma AllRest<T(!new)>(s: State<T>, t: Tid)
    requires Inv(s) && Emptied(s) && !s.cancelled && !SomeoneSteps(s, false)
    ensures Rests(s, t)
  {
    hide Inv, SomeoneSteps, SafeInv, OrderInv, PresenceInv, StopInv, DeliveryInv, Rests, Emptied;
    OpenInv(s);
    if !Rests(s, t) {
      WorkersStay(s);
      NotStopped(s);
      NoDeadlock(s, t, false);
      StoppedRests(s);
    }
  }

  lemma WorkersStay<T(!new)>(s: State<T>)
    requires ServeInv(s)
    ensures ExitOk(s)
  {
    hide ByOk;
    forall n: nat {:trigger Worker(n)} | Worker(n) in s.procs && !s.cancelled
      ensures !At(s, Worker(n)).Exit? && !At(s, Worker(n)).Gone?
    {
      assert ServeOk(s, Worker(n), At(s, Worker(n)));
    }
  }

  lemma NotStopped<T(!new)>(s: State<T>)
    requires SafeInv(s) && !s.cancelled
    ensures !s.log.stopped
  {
    hide LocksOk, WorkersOk, PcOk, ClosedOk;
  }

  /** An admitted message has been received. */
  lemma AdmittedReceived<T(!new)>(s: State<T>, m: Msg<T>)
    requires Inv(s) && Timely(s) && Emptied(s) && !s.cancelled && !SomeoneSteps(s, false) && m in s.log.admitted
    ensures m in s.log.deq && s.chan.buf == []
  {
    hide Inv, SomeoneSteps, SafeInv, PresenceInv, StopInv, DeliveryInv, Emptied, OnTime, AdmittedPc, SendOk, ByOk,
      LocksOk;
    OpenInv(s);
    var w := Worker(s.log.worker.value);
    assert ServeOk(s, w, At(s, w)) && AdmittedOk(s, m);
    AllRest(s, w);
    AllRest(s, Call(m.id));
    AllRest(s, Async(m.id));
    WorkerKind(s);
  }

  lemma WorkerKind<T(!new)>(s: State<T>)
    requires LocksOk(s) && WorkersOk(s) && s.log.worker.Some?
    ensures Worker(s.log.worker.value) in s.procs && !At(s, Worker(s.log.worker.value)).Done?
  {
    OpenLocks(s, Worker(s.log.worker.value), 0);
  }

  /**
   Every write is served: in a run without timers and without cancellation, once the users have received all
   that was sent to them and no thread can go on, every admitted message has been received by the worker, its
   Range has ended, and every listener in the map throughout this Range has been sent it, and its user has
   received it.
   */
  lemma Served<T(!new)>(acts: seq<Act<T>>, s: State<T>, m: Msg<T>) returns (k: nat)
    requires Runs(New<T>(), acts, s) && NoTimeouts(acts) && !s.cancelled
    requires Emptied(s) && !SomeoneSteps(s, false) && m in s.log.admitted
    ensures k < |s.log.deq| && s.log.deq[k] == m && k in s.log.rounds && s.log.rounds[k].Finished?
    ensures forall l :: l in s.listeners && Throughout(s.listeners[l], s.log.rounds[k].since, s.log.rounds[k].till) ==>
              m in s.listeners[l].taken
  {
    hide Inv, Runs, NoTimeouts, SomeoneSteps, Throughout, Timely;
    TimelyReached(acts, s);
    AdmittedReceived(s, m);
    k :| k < |s.log.deq| && s.log.deq[k] == m;
    RoundThere(s, k);
    RoundsEnd(s, k);
    forall l | l in s.listeners && Throughout(s.listeners[l], s.log.rounds[k].since, s.log.rounds[k].till)
      ensures m in s.listeners[l].taken
    {
      Delivered(acts, s, k, l);
    }
  }

  lemma RoundThere<T(!new)>(s: State<T>, k: nat)
    requires Inv(s) && k < |s.log.deq|
    ensures k in s.log.rounds && (s.log.rounds[k].Cut? ==> s.cancelled)
  {
    hide SafeInv, ServeInv, OrderInv, PresenceInv, StopInv, SeenInv, JobInv, NowOk, TimeOk, TriesOk;
    assert k in s.log.rounds ==> RoundOk(s, k);
  }

  /**
   Such a state is always within reach: from every reachable state, if no further call begins, stepping threads
   without timers and receiving leads, after a bounded number of actions, to one where no thread can go on.
   */
  lemma {:induction false} Settles<T(!new)>(s: State<T>, n: nat) returns (acts: seq<Act<T>>, z: State<T>)
    requires Reachable(s) && Potential(s) <= n
    ensures Runs(s, acts, z) && NoTimeouts(acts) && NoNewCalls(acts) && |acts| <= Rank(s, n)
    ensures Emptied(z) && !SomeoneSteps(z, false)
    decreases Rank(s, n)
  {
    hide Inv, SafeInv, SeenInv, Apply, Restarts, Rank, Potential, Reachable, Emptied, SomeoneSteps;
    ReachableInv(s);
    OpenSeen(s);
    if a: Act<T> :| Onward(s, a) {
      var y := Apply(s, a).value;
      ReachableApply(s, a, y);
      RankApply(s, a, y, n);
      acts, z := Settles(y, n);
      assert ([a] + acts)[1..] == acts;
      acts := [a] + acts;
    } else {
      acts, z := [], s;
      AllTaken(s);
      NoneSteps(s);
    }
  }

  ghost predicate Onward<T(!new)>(s: State<T>, a: Act<T>) {
    Apply(s, a).Some? && !Restarts(s, a) && ((a.Do? && !a.c.Timeout?) || a.Take?)
  }

  lemma AllTaken<T(!new)>(s: State<T>)
    requires !s.panicked && forall l: Lid :: !Onward(s, Take(l))
    ensures Emptied(s)
  {
    forall l | l in s.listeners ensures s.listeners[l].chan.buf == [] { assert !Onward(s, Take(l)); }
  }

  lemma NoneSteps<T(!new)>(s: State<T>)
    requires forall t, c: Choice :: !Onward(s, Do(t, c))
    ensures !SomeoneSteps(s, false)
  {
    hide Apply, Restarts;
    forall t, c: Choice | !c.Timeout? && Apply(s, Do(t, c)).Some? ensures Restarts(s, Do(t, c)) {
      assert !Onward(s, Do(t, c));
    }
  }

  lemma OpenSeen<T(!new)>(s: State<T>)
    requires Inv(s)
    ensures SafeInv(s) && SeenInv(s) && !s.panicked
  {
    hide SafeInv, ServeInv, OrderInv, PresenceInv, StopInv, SeenInv, DeliveryInv;
  }

  // ---------- cancellation ----------

  /** The worker has begun an attempt on the listener and not ended it. */
  ghost predicate Attempting<T>(pc: Pc<T>, l: Lid) { (pc.LEntering? || pc.LCheck? || pc.LSend?) && pc.l == l }

  function TriesOf<T>(s: State<T>, l: Lid): seq<Try> { if l in s.listeners then s.listeners[l].tries else [] }

  ghost function Attempts<T>(s: State<T>, l: Lid): nat {
    |TriesOf(s, l)| + if Attempting(WorkerPc(s), l) then 1 else 0
  }

  ghost predicate Records<T>(i: Instr<T>, l: Lid) { i.On? && i.l == l && (i.li.LPush? || i.li.LRecord?) }

  lemma AttemptLine<T>(s: State<T>, t: Tid, pc: Pc<T>, i: Instr<T>, q: Pc<T>, l: Lid)
    requires Executes(s, t, pc, i) && Arrives(s, t, pc, i, q) && IsWorkerPc(pc) && s.cancelled
    ensures Attempting(q, l) ==> Attempting(pc, l)
    ensures Records(i, l) ==> Attempting(pc, l) && !Attempting(q, l)
  {
    hide MayVisit, MayFinish, InMap, ListenerStopped, StageNext, StageInstr, Front;
  }

  lemma TriesAfter<T>(x: Listener<T>, l: Lid, t: Tid, i: Instr<T>, now: nat)
    ensures var y := ListenerAfter(x, l, t, i, now);
            x.tries <= y.tries && |y.tries| == |x.tries| + if Records(i, l) then 1 else 0
  {
  }

  lemma CancelLine<T(!new)>(s: State<T>, t: Tid, i: Instr<T>, q: Pc<T>, l: Lid)
    requires Inv(s) && s.cancelled && Firing(s, t, i, q)
    ensures TriesOf(s, l) <= TriesOf(Exec(s, t, i, q), l) && Attempts(Exec(s, t, i, q), l) <= Attempts(s, l)
  {
    hide Inv, Exec, Executes, Arrives, Moves, Ready, Faults, SpawnsOk, WMove, JobInv, WorkerPc, Attempting, Records,
      ListenerAfter, LocksOk;
    FiringThread(s, t, i, q);
    WorkerFacts(s, t, i, q);
    OpenInv(s);
    ListenersAre(s, t, i, q);
    if l in s.listeners { TriesAfter(s.listeners[l], l, t, i, s.log.clock); }
    if t.Worker? {
      WorkerIsAt(s, t, i);
      AttemptLine(s, t, s.procs[t], i, q, l);
    } else {
      NoRecord(i, l);
      NotAttempting<T>(l);
    }
  }

  lemma WorkerIsAt<T(!new)>(s: State<T>, t: Tid, i: Instr<T>)
    requires LocksOk(s) && t in s.procs && t.Worker? && Executes(s, t, s.procs[t], i)
    ensures IsWorkerPc(s.procs[t])
  {
    hide Executes;
    OpenLocks(s, t, 0);
    IsWorker(t, s.procs[t], i, s);
  }

  lemma NoRecord<T>(i: Instr<T>, l: Lid)
    requires !WorkerOnly(i)
    ensures !Records(i, l)
  {
  }

  lemma NotAttempting<T>(l: Lid)
    ensures !Attempting<T>(Select, l)
  {
  }

  lemma CancelStill<T>(s: State<T>, z: State<T>, l: Lid)
    requires Still(s, z) && WorkersOk(s)
    ensures TriesOf(z, l) == TriesOf(s, l) && Attempts(z, l) == Attempts(s, l)
  {
    hide Attempting;
    WorkerStill(s, z);
  }

  lemma {:induction false} CancelRuns<T(!new)>(s: State<T>, acts: seq<Act<T>>, z: State<T>, l: Lid)
    requires Inv(s) && s.cancelled && Runs(s, acts, z)
    ensures TriesOf(s, l) <= TriesOf(z, l) && Attempts(z, l) <= Attempts(s, l)
    decreases |acts|
  {
    hide Inv, Apply, Restarts, Attempts, TriesOf, Firing, Exec, Still;
    if acts != [] {
      var y := Apply(s, acts[0]).value;
      InvApply(s, acts[0], y);
      ClockGoes(s, acts[0], y);
      if acts[0].Do? {
        var i, q := Line1(s, acts[0], y);
        CancelLine(s, acts[0].t, i, q, l);
      } else {
        StillApply(s, acts[0], y);
        OpenInv(s);
        CancelStill(s, y, l);
      }
      CancelRuns(y, acts[1..], z, l);
    }
  }

  /**
   After cancellation the worker begins no further attempt: a listener gets at most the one under way, and
   keeps those it had.
   */
  lemma CancelEnds<T(!new)>(s: State<T>, acts: seq<Act<T>>, z: State<T>, l: Lid)
    requires Reachable(s) && s.cancelled && Runs(s, acts, z)
    ensures TriesOf(s, l) <= TriesOf(z, l)
    ensures |TriesOf(z, l)| <= |TriesOf(s, l)| + if Attempting(WorkerPc(s), l) then 1 else 0
  {
    hide Inv, Runs;
    ReachableInv(s);
    CancelRuns(s, acts, z, l);
  }
}
