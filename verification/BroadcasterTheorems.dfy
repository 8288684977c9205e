/** The main results on the broadcaster, for every reachable state and every run. */
module BroadcasterTheorems {
  import opened Wrappers
  import opened StatusBarrier
  import opened Broadcaster
  import opened BroadcasterLocks
  import opened BroadcasterSafety
  import opened BroadcasterOrder
  import opened BroadcasterPresence
  import opened BroadcasterDelivery
  import opened BroadcasterQuiescence
  import opened BroadcasterProgress
  import opened BroadcasterService

  ghost predicate Inv<T(!new)>(s: State<T>) {
    && SafeInv(s) && PresenceInv(s) && ServeInv(s) && OrderInv(s) && DeliveryInv(s) && StopInv(s) && SeenInv(s)
    && !s.panicked
  }

  /** A state some run without a restart leads to. */
  ghost predicate Reachable<T(!new)>(s: State<T>) { exists acts :: Runs(New<T>(), acts, s) }

  lemma InvInit<T(!new)>()
    ensures Inv(New<T>())
  {
  }

  lemma InvApply<T(!new)>(s: State<T>, a: Act<T>, z: State<T>)
    requires Inv(s) && Apply(s, a) == Some(z) && !Restarts(s, a)
    ensures Inv(z)
  {
    hide PresenceInv, ServeInv, SafeInv, OrderInv, DeliveryInv, StopInv, SeenInv, Apply, Restarts;
    SafeApply(s, a, z);
    PresenceApply(s, a, z);
    ServeApply(s, a, z);
    OrderApply(s, a, z);
    DeliveryApply(s, a, z);
    StopApply(s, a, z);
    SeenApply(s, a, z);
  }

  lemma {:induction false} InvRuns<T(!new)>(s: State<T>, acts: seq<Act<T>>, z: State<T>)
    requires Inv(s) && Runs(s, acts, z)
    ensures Inv(z)
    decreases |acts|
  {
    hide Inv, Apply, Restarts;
    if acts != [] {
      InvApply(s, acts[0], Apply(s, acts[0]).value);
      InvRuns(Apply(s, acts[0]).value, acts[1..], z);
    }
  }

  lemma ReachableInv<T(!new)>(s: State<T>)
    requires Reachable(s)
    ensures Inv(s)
  {
    hide Inv, Runs;
    var acts :| Runs(New<T>(), acts, s);
    InvInit<T>();
    InvRuns(New(), acts, s);
  }

  lemma {:induction false} RunsFurther<T(!new)>(s: State<T>, acts: seq<Act<T>>, y: State<T>, a: Act<T>, z: State<T>)
    requires Runs(s, acts, y) && Apply(y, a) == Some(z) && !Restarts(y, a)
    ensures Runs(s, acts + [a], z)
    decreases |acts|
  {
    hide Apply, Restarts;
    if acts == [] {
      assert Runs(z, [], z) && (acts + [a])[1..] == [];
    } else {
      RunsFurther(Apply(s, acts[0]).value, acts[1..], y, a, z);
      assert (acts + [a])[1..] == acts[1..] + [a];
    }
  }

  lemma ReachableApply<T(!new)>(s: State<T>, a: Act<T>, z: State<T>)
    requires Reachable(s) && Apply(s, a) == Some(z) && !Restarts(s, a)
    ensures Reachable(z)
  {
    hide Apply, Restarts, Runs;
    var acts :| Runs(New<T>(), acts, s);
    RunsFurther(New(), acts, s, a, z);
  }

  // ---------- safety ----------

  /**
   In every reachable state no possible action faults: no send on a closed channel and no second close,
   neither of the broadcaster's channel nor of a listener's, and no misuse of a mutex or the wait group.
   */
  lemma NeverPanics<T(!new)>(s: State<T>, a: Act<T>, z: State<T>)
    requires Reachable(s) && Apply(s, a) == Some(z) && !Restarts(s, a)
    ensures !s.panicked && !z.panicked
  {
    hide PresenceInv, ServeInv, SafeInv, OrderInv, DeliveryInv, StopInv, SeenInv, Apply, Restarts;
    ReachableInv(s);
    InvApply(s, a, z);
  }

  /** Some run from `s`, without a restart, faults. */
  ghost predicate CanPanic<T(!new)>(s: State<T>) { exists acts, z :: Runs(s, acts, z) && z.panicked }

  lemma CanPanicBefore<T(!new)>(s: State<T>, a: Act<T>, z: State<T>)
    requires Apply(s, a) == Some(z) && !Restarts(s, a) && CanPanic(z)
    ensures CanPanic(s)
  {
    hide Apply, Restarts;
    var acts, y :| Runs(z, acts, y) && y.panicked;
    assert ([a] + acts)[1..] == acts;
    assert Runs(s, [a] + acts, y);
  }

  lemma PanicsNow<T(!new)>(s: State<T>, a: Act<T>, z: State<T>)
    requires Apply(s, a) == Some(z) && !Restarts(s, a) && z.panicked
    ensures CanPanic(s)
  {
    hide Apply, Restarts;
    assert Runs(z, [], z);
    CanPanicBefore(s, a, z);
  }

  /** A line that fires is an action. */
  lemma LineApplies<T(!new)>(s: State<T>, t: Tid, c: Choice, i: Instr<T>, q: Pc<T>)
    requires !s.panicked && t in s.procs && !s.procs[t].Status? && Code(s, t, s.procs[t], c) == Some(Line(i, q))
    requires CanPanic(Exec(s, t, i, q)) && Ready(s, i) && !Faults(s, t, i)
    ensures CanPanic(s)
  {
    hide Exec, Code, Ready, Faults, CanPanic;
    CanPanicBefore(s, Do(t, c), Exec(s, t, i, q));
  }

  /** A closed channel, with the goroutine of a Write call about to send on it. */
  lemma SenderPanics<T(!new)>(s: State<T>, n: nat)
    requires !s.panicked && s.chan.closed && At(s, Async(n)).Sender?
    ensures CanPanic(s)
  {
    PanicsNow(s, Do(Async(n), Go), s.(panicked := true));
  }

  lemma BodyPanics<T(!new)>(s: State<T>, n: nat, v: T)
    requires !s.panicked && s.chan.closed && At(s, Call(n)) == Body(Write(v))
    ensures CanPanic(s)
  {
    var i, q := GoSender(Msg(n, v)), Done(Write(v), Nil);
    SenderPanics(Exec(s, Call(n), i, q), n);
    LineApplies(s, Call(n), Go, i, q);
  }

  lemma CheckPanics<T(!new)>(s: State<T>, n: nat, v: T)
    requires !s.panicked && s.chan.closed && s.barrier.started && At(s, Call(n)) == Check(Write(v))
    ensures CanPanic(s)
  {
    var i, q := Admit(Msg(n, v)), Body(Write(v));
    BodyPanics(Exec(s, Call(n), i, q), n, v);
    LineApplies(s, Call(n), Go, i, q);
  }

  lemma EnterPanics<T(!new)>(s: State<T>, n: nat, v: T)
    requires !s.panicked && s.chan.closed && s.barrier.started && s.barrier.writer.None?
             && At(s, Call(n)) == Enter(Write(v))
    ensures CanPanic(s)
  {
    var i, q := REnter, Check(Write(v));
    CheckPanics(Exec(s, Call(n), i, q), n, v);
    LineApplies(s, Call(n), Go, i, q);
  }

  lemma BeginPanics<T(!new)>(s: State<T>, n: nat, v: T)
    requires !s.panicked && s.chan.closed && s.barrier.started && s.barrier.writer.None? && Call(n) !in s.procs
    ensures CanPanic(s)
  {
    var z := s.(procs := s.procs[Call(n) := Enter(Write(v))]);
    EnterPanics(z, n, v);
    CanPanicBefore(s, Begin(n, Write(v)), z);
  }

  lemma {:induction false} FreshCall(ps: set<Tid>) returns (n: nat)
    ensures forall k: nat :: n <= k ==> Call(k) !in ps
    decreases |ps|
  {
    n := 0;
    if ps != {} {
      var t :| t in ps;
      n := FreshCall(ps - {t});
      if t.n >= n { n := t.n + 1; }
    }
  }

  lemma UnlockPanics<T(!new)>(s: State<T>, t: Tid, v: T)
    requires !s.panicked && s.chan.closed && s.barrier.started && s.barrier.writer == Some(t)
             && At(s, t) == Unlock(Start, Nil)
    ensures CanPanic(s)
  {
    var i, q := WRelease, Done(Start, Nil);
    var z := Exec(s, t, i, q);
    var n := FreshCall(z.procs.Keys);
    BeginPanics(z, n, v);
    LineApplies(s, t, Go, i, q);
  }

  lemma MarkPanics<T(!new)>(s: State<T>, t: Tid, v: T)
    requires !s.panicked && s.chan.closed && s.barrier.writer == Some(t) && At(s, t) == StartMark
    ensures CanPanic(s)
  {
    UnlockPanics(Exec(s, t, SetStarted, Unlock(Start, Nil)), t, v);
    LineApplies(s, t, Go, SetStarted, Unlock(Start, Nil));
  }

  lemma GoPanics<T(!new)>(s: State<T>, t: Tid, v: T)
    requires !s.panicked && s.chan.closed && s.barrier.writer == Some(t) && At(s, t) == StartGo && t.Call?
    ensures CanPanic(s)
  {
    MarkPanics(Exec(s, t, GoWorker, StartMark), t, v);
    LineApplies(s, t, Go, GoWorker, StartMark);
  }

  lemma AddPanics<T(!new)>(s: State<T>, t: Tid, v: T)
    requires !s.panicked && s.chan.closed && s.barrier.writer == Some(t) && At(s, t) == StartAdd && t.Call?
    ensures CanPanic(s)
  {
    GoPanics(Exec(s, t, WgAdd, StartGo), t, v);
    LineApplies(s, t, Go, WgAdd, StartGo);
  }

  lemma SpawnState<T(!new)>(s: State<T>, t: Tid, z: State<T>)
    requires Inv(s) && At(s, t) == Status(Start) && !s.barrier.started && Apply(s, Do(t, Go)) == Some(z)
    ensures z == s.(procs := s.procs[t := StartAdd]) && s.barrier.writer == Some(t)
    ensures s.log.stopped ==> s.chan.closed
  {
    hide PresenceInv, ServeInv, LocksOk, OrderInv, DeliveryInv, StopInv, SeenInv, WorkersOk, PcOk, ClosedOk;
    OpenLocks(s, t, 0);
  }

  /**
   When the broadcaster may be started: a Start call that finds the flag down goes on to spawn a worker,
   and from there no run faults if and only if no Stop has succeeded before.
   */
  lemma StartSafeIff<T(!new)>(s: State<T>, n: nat, z: State<T>, v: T)
    requires Reachable(s) && At(s, Call(n)) == Status(Start) && !s.barrier.started
    requires Apply(s, Do(Call(n), Go)) == Some(z)
    ensures !CanPanic(z) <==> !s.log.stopped
  {
    hide PresenceInv, ServeInv, Apply, Runs, SafeInv, OrderInv, DeliveryInv, StopInv, SeenInv;
    ReachableInv(s);
    SpawnState(s, Call(n), z);
    if s.log.stopped {
      AddPanics(z, Call(n), v);
    } else {
      InvApply(s, Do(Call(n), Go), z);
      forall acts, y | Runs(z, acts, y) ensures !y.panicked { InvRuns(z, acts, y); }
    }
  }

  // ---------- integrity and order ----------

  /**
   What goes through the channel: the accepted messages are those received followed by the one buffered,
   at most one; each was admitted, under the name of the Write call that brought it and with its value;
   none is accepted twice; every admitted write is in exactly one place; and a write has been admitted
   exactly when its call is past the check and has not been refused.
   */
  lemma Integrity<T(!new)>(s: State<T>, m: Msg<T>)
    requires Reachable(s)
    ensures |s.chan.buf| <= 1 && s.log.accepted == s.log.deq + s.chan.buf
    ensures Distinct(s.log.deq) && Distinct(s.log.accepted) && Distinct(s.log.admitted)
    ensures m in s.log.accepted ==> m in s.log.admitted
    ensures m in s.log.admitted ==> m.Msg? && OneFate(s, m) && AdmittedPc(At(s, Call(m.id)), m.value)
    ensures m.Msg? ==> (m in s.log.admitted <==> AdmittedPc(At(s, Call(m.id)), m.value))
    ensures forall j: nat, k: nat :: Worker(j) in s.procs && Worker(k) in s.procs ==> j == k
  {
    hide PresenceInv, ServeInv, DeliveryInv, StopInv, SeenInv, LocksOk, LifeOk, PcOk, ClosedOk, OneFate, AdmittedPc,
      SendOk;
    ReachableInv(s);
    assert forall j | 0 <= j < |s.log.deq| :: s.log.deq[j] == s.log.accepted[j];
    assert m in s.log.admitted ==> AdmittedOk(s, m);
    if m.Msg? && AdmittedPc(At(s, Call(m.id)), m.value) {
      assert SendOk(s, Call(m.id), At(s, Call(m.id)));
      PastCheck(s, m.id, m.value);
    }
  }

  lemma PastCheck<T(!new)>(s: State<T>, n: nat, v: T)
    requires SendOk(s, Call(n), At(s, Call(n))) && AdmittedPc(At(s, Call(n)), v)
    ensures Msg(n, v) in s.log.admitted
  {
  }

  // ---------- delivery ----------

  /** What a listener has got so far: what its user took, and what waits in its channel. */
  function Gotten<T>(x: Listener<T>): seq<Msg<T>> { x.taken + x.chan.buf }

  /** The messages the delivered attempts were on. */
  function Indices(ts: seq<Try>): seq<nat> {
    if ts == [] then []
    else Indices(ts[..|ts| - 1]) + (if ts[|ts| - 1].outcome.Delivered? then [ts[|ts| - 1].idx] else [])
  }

  ghost predicate Rising(ks: seq<nat>, bound: nat) {
    && (forall a, b :: 0 <= a < b < |ks| ==> ks[a] < ks[b])
    && (forall a :: 0 <= a < |ks| ==> ks[a] < bound)
  }

  lemma {:induction false} ContentIndices<T(!new)>(ts: seq<Try>, deq: seq<Msg<T>>, bound: nat)
    requires Increasing(ts) && Below(ts, bound) && bound <= |deq|
    ensures Rising(Indices(ts), bound) && |Indices(ts)| == |Content(ts, deq)|
    ensures forall a :: 0 <= a < |Indices(ts)| ==> Content(ts, deq)[a] == deq[Indices(ts)[a]]
  {
    if ts != [] { ContentIndices(ts[..|ts| - 1], deq, ts[|ts| - 1].idx); }
  }

  /** A listener gets a duplicate-free subsequence of what the worker received, in the order received. */
  lemma InOrder<T(!new)>(s: State<T>, l: Lid)
    requires Reachable(s) && l in s.listeners
    ensures var x := s.listeners[l]; var ks := Indices(x.tries);
            && |x.chan.buf| <= 1 && Rising(ks, |s.log.deq|) && |ks| == |Gotten(x)|
            && (forall a :: 0 <= a < |ks| ==> Gotten(x)[a] == s.log.deq[ks[a]])
    ensures Distinct(Gotten(s.listeners[l]))
  {
    hide PresenceInv, ServeInv, SafeInv, StopInv, SeenInv, AdmittedOk, SendOk, JobInv, NowOk, TimeOk, RoundOk;
    ReachableInv(s);
    var x := s.listeners[l];
    assert TriesOk(x, s.log.deq);
    ContentIndices(x.tries, s.log.deq, |s.log.deq|);
    Integrity(s, Zero);
  }

  /** Any two listeners agree on the order of the messages both got. */
  lemma SameOrder<T(!new)>(s: State<T>, l: Lid, k: Lid, a: nat, b: nat, c: nat, d: nat)
    requires Reachable(s) && l in s.listeners && k in s.listeners
    requires a < |Gotten(s.listeners[l])| && b < |Gotten(s.listeners[l])|
    requires c < |Gotten(s.listeners[k])| && d < |Gotten(s.listeners[k])|
    requires Gotten(s.listeners[l])[a] == Gotten(s.listeners[k])[c]
             && Gotten(s.listeners[l])[b] == Gotten(s.listeners[k])[d]
    ensures a < b <==> c < d
  {
    hide Gotten, Indices;
    InOrder(s, l);
    InOrder(s, k);
    Integrity(s, Zero);
  }

  /**
   Delivery: a listener whose key was in the map throughout the Range over the listeners for the k-th
   received message gets exactly one attempt, which is delivered or times out, unless that Range was cut
   short, which happens only after cancellation, or is still running; a listener out of the map since before
   the Range, or put in after it, gets none; and no listener ever gets two.
   */
  lemma Delivery<T(!new)>(s: State<T>, k: nat, l: Lid, a: nat, b: nat)
    requires Reachable(s) && k < |s.log.deq| && l in s.listeners
    ensures k in s.log.rounds
    ensures var x := s.listeners[l];
            match s.log.rounds[k]
            case Finished(since, till) =>
              && (Throughout(x, since, till) ==> HasTry(x.tries, k) && !RefusedAt(x.tries, k))
              && (HasTry(x.tries, k) ==> WasIn(x, since) && x.born < till)
            case Cut => s.cancelled
            case Running => k + 1 == |s.log.deq|
    ensures var ts := s.listeners[l].tries; a < b < |ts| ==> ts[a].idx != ts[b].idx
  {
    hide PresenceInv, ServeInv, SafeInv, OrderInv, StopInv, SeenInv, JobInv, NowOk, HasTry, RefusedAt;
    ReachableInv(s);
    assert RoundOk(s, k);
  }

  // ---------- after a successful Stop ----------

  lemma {:induction false} StoppedRuns<T(!new)>(s: State<T>, acts: seq<Act<T>>, z: State<T>)
    requires Inv(s) && s.log.stopped && Runs(s, acts, z)
    ensures z.log.stopped
    decreases |acts|
  {
    hide PresenceInv, ServeInv, SafeInv, OrderInv, DeliveryInv, StopInv, SeenInv, Apply, Restarts;
    if acts != [] {
      InvApply(s, acts[0], Apply(s, acts[0]).value);
      var n := FreshCall(s.procs.Keys);
      LateApply(s, acts[0], Apply(s, acts[0]).value, n);
      StoppedRuns(Apply(s, acts[0]).value, acts[1..], z);
    }
  }

  lemma {:induction false} LateRuns<T(!new)>(s: State<T>, acts: seq<Act<T>>, z: State<T>, n: nat)
    requires Inv(s) && s.log.stopped && Runs(s, acts, z)
    requires Call(n) in s.procs ==> LatePc(s.procs[Call(n)])
    ensures z.log.stopped && (Call(n) in z.procs ==> LatePc(z.procs[Call(n)]))
    decreases |acts|
  {
    hide PresenceInv, ServeInv, SafeInv, OrderInv, DeliveryInv, StopInv, SeenInv, Apply, Restarts, LatePc;
    if acts != [] {
      var s' := Apply(s, acts[0]).value;
      InvApply(s, acts[0], s');
      LateApply(s, acts[0], s', n);
      LateRuns(s', acts[1..], z, n);
    }
  }

  /**
   Once some Stop call has returned nil: in every later state the worker has exited, nothing is in flight,
   the map of listeners is empty, and every listener a Subscribe call has returned has a closed channel.
   */
  lemma StopIsFinal<T(!new)>(s: State<T>, n: nat, acts: seq<Act<T>>, z: State<T>, t: Tid, l: Lid)
    requires Reachable(s) && At(s, Call(n)) == Done(Stop, Nil) && Runs(s, acts, z)
    ensures !z.barrier.started && z.chan.closed && WorkerPc(z).Gone? && !InFlight(At(z, t)) && !InMap(z, l)
    ensures At(z, t) == Done(Subscribe, Got(l)) ==> l in z.listeners && z.listeners[l].chan.closed
  {
    hide PresenceInv, ServeInv, OrderInv, DeliveryInv, SeenInv, LocksOk, WorkersOk, PcOk, RemovedOk, SweepOk, Runs;
    ReachableInv(s);
    assert ReturnOk(s, At(s, Call(n)));
    StoppedRuns(s, acts, z);
    InvRuns(s, acts, z);
    assert ReturnOk(z, At(z, t));
    assert l in z.listeners ==> ClosedOk(z, l);
  }

  /** Every call that begins after that returns ErrStopped, and IsStopped returns true. */
  lemma LateCalls<T(!new)>(s: State<T>, n: nat, acts: seq<Act<T>>, z: State<T>, k: nat, op: Op<T>, res: Res)
    requires Reachable(s) && At(s, Call(n)) == Done(Stop, Nil) && Runs(s, acts, z)
    requires Call(k) !in s.procs && At(z, Call(k)) == Done(op, res)
    ensures Refusal(op, res)
  {
    hide PresenceInv, ServeInv, SafeInv, OrderInv, DeliveryInv, SeenInv, RemovedOk, SweepOk, Runs;
    ReachableInv(s);
    assert ReturnOk(s, At(s, Call(n)));
    LateRuns(s, acts, z, k);
  }

  // ---------- progress ----------

  ghost predicate NoNewCalls<T(!new)>(acts: seq<Act<T>>) { forall k :: 0 <= k < |acts| ==> !acts[k].Begin? }

  lemma {:induction false} RankRuns<T(!new)>(s: State<T>, acts: seq<Act<T>>, z: State<T>, n: nat)
    requires Inv(s) && Runs(s, acts, z) && NoNewCalls(acts) && Potential(s) <= n
    ensures Rank(z, n) + |acts| <= Rank(s, n)
    decreases |acts|
  {
    hide PresenceInv, ServeInv, SafeInv, OrderInv, DeliveryInv, StopInv, SeenInv, Apply, Restarts, Rank, Potential;
    if acts != [] {
      var s' := Apply(s, acts[0]).value;
      InvApply(s, acts[0], s');
      RankApply(s, acts[0], s', n);
      RankRuns(s', acts[1..], z, n);
    }
  }

  /**
   Progress: from any reachable state, a run in which no further call begins has at most Rank steps,
   timers, cancellation and receives included; and as long as some thread is not at rest, some thread can
   go on, unless the only way on is the restart that runs leave out.
   */
  lemma Progress<T(!new)>(s: State<T>, acts: seq<Act<T>>, z: State<T>, t: Tid)
    requires Reachable(s) && Runs(s, acts, z) && NoNewCalls(acts)
    ensures |acts| <= Rank(s, Potential(s))
    ensures Rests(z, t) || SomeoneSteps(z, true) || RestartWaits(z)
  {
    hide PresenceInv, ServeInv, SafeInv, OrderInv, DeliveryInv, StopInv, SeenInv, Runs, Rank, Potential, Rests,
      SomeoneSteps;
    ReachableInv(s);
    InvRuns(s, acts, z);
    RankRuns(s, acts, z, Potential(s));
    if !Rests(z, t) { NoDeadlock(z, t, true); }
  }

  lemma RestsAs<T(!new)>(s: State<T>, t: Tid)
    requires SafeInv(s) && t in s.procs && Rests(s, t)
    ensures t.Call? ==> At(s, t).Done?
    ensures t.Async? ==> At(s, t).Gone?
    ensures t.Worker? && !At(s, t).Gone? ==> s.chan.buf == [] && !s.cancelled
  {
    hide LifeOk, WorkersOk, PcOk, ClosedOk, BarrierOk, ListenerBarrierOk, AnchorsOk;
    assert ThreadOk(s, t);
  }

  /**
   So, however the steps are scheduled, a run without new calls that cannot be continued has finished: every
   call has returned, every goroutine of a Write call has ended, and a worker still there waits for a message,
   none being left; or a Start call is about to restart the stopped broadcaster.
   */
  lemma AllFinish<T(!new)>(s: State<T>, acts: seq<Act<T>>, z: State<T>, t: Tid)
    requires Reachable(s) && Runs(s, acts, z) && NoNewCalls(acts) && !SomeoneSteps(z, true) && t in z.procs
    ensures !RestartWaits(z) ==>
              && (t.Call? ==> At(z, t).Done?)
              && (t.Async? ==> At(z, t).Gone?)
              && (t.Worker? && !At(z, t).Gone? ==> z.chan.buf == [] && !z.cancelled)
  {
    hide PresenceInv, ServeInv, SafeInv, OrderInv, DeliveryInv, StopInv, SeenInv, Runs, Rank, Potential, Rests,
      SomeoneSteps, RestartWaits;
    ReachableInv(s);
    InvRuns(s, acts, z);
    Progress(s, acts, z, t);
    if Rests(z, t) { RestsAs(z, t); }
  }
}
