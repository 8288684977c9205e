/** The cache: a map of definitions whose mutators publish an event through a broadcaster. */
module Cache {
  import opened Wrappers
  import opened StatusBarrier
  import B = Broadcaster
  import C = BroadcasterCode
  import L = BroadcasterLocks
  import S = BroadcasterSafety
  import O = BroadcasterOrder
  import D = BroadcasterDelivery
  import R = BroadcasterPresence
  import V = BroadcasterService
  import Q = BroadcasterQuiescence
  import P = BroadcasterProgress
  import T = BroadcasterTheorems
  import A = BroadcasterCalls

  datatype Kind = Added | Updated | Deleted

  datatype Event = Event(kind: Kind, name: string)

  datatype Mut<K, V> = AddOrUpdate(k: K, v: V) | Update(k: K, v: V) | Delete(k: K)

  /** A mutator is about to change the map, about to publish, waits for Write to return, has returned. */
  datatype Pc<K, V> = AtDefs(m: Mut<K, V>) | AtWrite(m: Mut<K, V>) | Writing(m: Mut<K, V>)
                    | Returned(m: Mut<K, V>, res: B.Res)

  datatype Entry<K, V> = Entry(n: nat, m: Mut<K, V>)

  datatype Cache<K, V> = Cache(
    name: string, defs: map<K, V>, bc: Option<B.State<Event>>, calls: map<nat, Pc<K, V>>,
    log: seq<Entry<K, V>>)   // history: the mutations in the order in which they reached the map

  function KindOf<K, V>(m: Mut<K, V>): Kind {
    match m
    case AddOrUpdate(_, _) => Added
    case Update(_, _) => Updated
    case Delete(_) => Deleted
  }

  function EventOf<K, V>(name: string, m: Mut<K, V>): Event { Event(KindOf(m), name) }

  function Change<K, V>(defs: map<K, V>, m: Mut<K, V>): map<K, V> {
    match m
    case AddOrUpdate(k, v) => defs[k := v]
    case Update(k, v) => defs[k := v]
    case Delete(k) => defs - {k}
  }

  function Get<K, V>(c: Cache<K, V>, k: K): Option<V> { if k in c.defs then Some(c.defs[k]) else None }

  /** New: with publishing, the broadcaster's Start call, number 0, is under way. */
  function New<K, V>(name: string, publish: bool): Cache<K, V> {
    Cache(name, map[], if publish then B.Apply(B.New<Event>(), B.Begin(0, B.Start)) else None, map[], [])
  }

  /** A mutator call, its steps, and everything else the broadcaster can do through the cache. */
  datatype Act<K, V> = Call(n: nat, m: Mut<K, V>) | Defs(n: nat) | Publish(n: nat) | Return(n: nat)
                     | Inner(a: B.Act<Event>)

  /** The cache hands on Subscribe, Unsubscribe and, as Close, Stop; it starts its broadcaster only once. */
  predicate Allowed<K, V>(c: Cache<K, V>, a: B.Act<Event>) {
    a.Begin? ==> !B.IsWrite(a.op) && !a.op.Start? && a.n !in c.calls
  }

  function Apply<K, V>(c: Cache<K, V>, a: Act<K, V>): Option<Cache<K, V>> {
    match a
    case Call(n, m) =>
      if n in c.calls || (c.bc.Some? && StatusBarrier.Call(n) in c.bc.value.procs) then None
      else Some(c.(calls := c.calls[n := AtDefs(m)]))
    case Defs(n) =>
      if n in c.calls && c.calls[n].AtDefs? then
        var m := c.calls[n].m;
        Some(c.(defs := Change(c.defs, m), log := c.log + [Entry(n, m)], calls := c.calls[n := AtWrite(m)]))
      else None
    case Publish(n) =>
      if n in c.calls && c.calls[n].AtWrite? then
        var m := c.calls[n].m;
        if c.bc.None? then Some(c.(calls := c.calls[n := Returned(m, B.Nil)]))
        else
          match B.Apply(c.bc.value, B.Begin(n, B.Write(EventOf(c.name, m))))
          case None => None
          case Some(s) => Some(c.(bc := Some(s), calls := c.calls[n := Writing(m)]))
      else None
    case Return(n) =>
      if n in c.calls && c.calls[n].Writing? && c.bc.Some? && B.At(c.bc.value, StatusBarrier.Call(n)).Done? then
        Some(c.(calls := c.calls[n := Returned(c.calls[n].m, B.At(c.bc.value, StatusBarrier.Call(n)).res)]))
      else None
    case Inner(b) =>
      if c.bc.None? || !Allowed(c, b) then None
      else
        match B.Apply(c.bc.value, b)
        case None => None
        case Some(s) => Some(c.(bc := Some(s)))
  }

  ghost predicate Runs<K, V>(c: Cache<K, V>, acts: seq<Act<K, V>>, z: Cache<K, V>)
    decreases |acts|
  {
    if acts == [] then c == z
    else Apply(c, acts[0]).Some? && Runs(Apply(c, acts[0]).value, acts[1..], z)
  }

  // ---------- the map ----------

  /** A plain map driven by a sequence of mutations. */
  function Replay<K, V>(log: seq<Entry<K, V>>): map<K, V> {
    if log == [] then map[] else Change(Replay(log[..|log| - 1]), log[|log| - 1].m)
  }

  /** A mutation is in the log, once, exactly when its call has got past the map. */
  ghost predicate LogOk<K, V>(c: Cache<K, V>) {
    && c.defs == Replay(c.log)
    && (forall i, j :: 0 <= i < j < |c.log| ==> c.log[i].n != c.log[j].n)
    && (forall e :: e in c.log ==> e.n in c.calls && !c.calls[e.n].AtDefs? && c.calls[e.n].m == e.m)
    && (forall n :: n in c.calls && !c.calls[n].AtDefs? ==> Entry(n, c.calls[n].m) in c.log)
  }

  lemma LogApply<K, V>(c: Cache<K, V>, a: Act<K, V>, z: Cache<K, V>)
    requires LogOk(c) && Apply(c, a) == Some(z)
    ensures LogOk(z) && z.name == c.name
  {
    hide B.Apply;
    if a.Defs? {
      hide Apply, LogOk;
      LogDefs(c, a.n, z);
    } else {
      assert c.log == z.log;
    }
  }

  /** The mutation reaches the map. */
  lemma LogDefs<K, V>(c: Cache<K, V>, n: nat, z: Cache<K, V>)
    requires LogOk(c) && Apply(c, Defs(n)) == Some(z)
    ensures LogOk(z) && z.name == c.name
  {
    hide Change, Replay;
    var m := c.calls[n].m;
    ReplayMore(c.log, Entry(n, m));
    assert z.calls == c.calls[n := AtWrite(m)] && z.log == c.log + [Entry(n, m)];
    hide Apply;
    assert forall e :: e in z.log <==> e in c.log || e == Entry(n, m);
  }

  lemma ReplayMore<K, V>(log: seq<Entry<K, V>>, e: Entry<K, V>)
    ensures Replay(log + [e]) == Change(Replay(log), e.m)
  {
    assert (log + [e])[..|log|] == log;
  }

  // ---------- the broadcaster inside ----------

  /** The operation a call was made with. */
  function OpOf<T>(pc: B.Pc<T>): Option<B.Op<T>> {
    match pc
    case Enter(op) => Some(op)
    case Check(op) => Some(op)
    case Body(op) => Some(op)
    case Leave(op, _) => Some(op)
    case Unsub(l, _) => Some(B.Unsubscribe(l))
    case Await(op) => Some(op)
    case Drain(op) => Some(op)
    case Status(op) => Some(op)
    case StartAdd => Some(B.Start)
    case StartGo => Some(B.Start)
    case StartMark => Some(B.Start)
    case StopCancel => Some(B.Stop)
    case StopWait => Some(B.Stop)
    case StopRange => Some(B.Stop)
    case StopNext(_) => Some(B.Stop)
    case StopOne(_, _, _) => Some(B.Stop)
    case StopDelete(_, _) => Some(B.Stop)
    case StopClose => Some(B.Stop)
    case StopMark => Some(B.Stop)
    case Unlock(op, _) => Some(op)
    case Done(op, _) => Some(op)
    case _ => None
  }

  /** A call keeps its operation. */
  lemma OpStays<T>(s: B.State<T>, t: StatusBarrier.Tid, i: B.Instr<T>, q: B.Pc<T>)
    requires C.Arrives(s, t, B.At(s, t), i, q) && t.Call? && t in s.procs && L.ThreadOk(s, t)
    ensures OpOf(q) == OpOf(B.At(s, t))
  {
    hide B.StageNext, B.StageInstr, B.InMap, B.MayVisit, B.MayFinish, B.Front, B.ListenerStopped, L.RefOk;
    if B.IsReadPc(B.At(s, t)) {
      hide C.Arrives, OpOf;
      ReadOpStays(s, t, i, q);
    }
  }

  lemma ReadOpStays<T>(s: B.State<T>, t: StatusBarrier.Tid, i: B.Instr<T>, q: B.Pc<T>)
    requires C.Arrives(s, t, B.At(s, t), i, q) && t.Call? && t in s.procs && L.ThreadOk(s, t) && B.IsReadPc(B.At(s, t))
    ensures OpOf(q) == OpOf(B.At(s, t))
  {
    hide B.StageNext, B.StageInstr, B.InMap, B.MayVisit, B.MayFinish, B.Front, B.ListenerStopped, L.RefOk, L.OpOk;
  }

  ghost predicate CallOk<K, V>(c: Cache<K, V>, s: B.State<Event>, n: nat) {
    var op := OpOf(B.At(s, StatusBarrier.Call(n)));
    op.Some? ==>
      && (op.value.Start? ==> n == 0) && !op.value.WriteSync?
      && (op.value.Write? ==>
            n in c.calls && (c.calls[n].Writing? || c.calls[n].Returned?)
              && op.value.value == EventOf(c.name, c.calls[n].m))
  }

  /** A mutator's Write is that of its event, and what the mutator returned is what its Write returned. */
  ghost predicate WriteOk<K, V>(c: Cache<K, V>, s: B.State<Event>, n: nat) {
    n in c.calls ==>
      var pc, w := c.calls[n], B.At(s, StatusBarrier.Call(n));
      && (pc.Writing? && StatusBarrier.Call(n) in s.procs ==> OpOf(w) == Some(B.Write(EventOf(c.name, pc.m))))
      && (pc.Returned? ==> w == B.Done(B.Write(EventOf(c.name, pc.m)), pc.res))
  }

  ghost predicate CallsOk<K, V>(c: Cache<K, V>, s: B.State<Event>) {
    forall n: nat :: CallInv(c, s, n)
  }

  ghost predicate CallInv<K, V>(c: Cache<K, V>, s: B.State<Event>, n: nat) { CallOk(c, s, n) && WriteOk(c, s, n) }

  /** Without a broadcaster a mutator has nothing to wait for and returns nil. */
  ghost predicate SilentOk<K, V>(c: Cache<K, V>) {
    forall n :: n in c.calls ==> !c.calls[n].Writing? && (c.calls[n].Returned? ==> c.calls[n].res.Nil?)
  }

  ghost predicate CacheInv<K, V>(c: Cache<K, V>) {
    && LogOk(c) && (c.bc.None? ==> SilentOk(c))
    && (c.bc.Some? ==> T.Reachable(c.bc.value) && T.Inv(c.bc.value) && CallsOk(c, c.bc.value))
  }

  /** A broadcaster that was stopped had been started, by a call now past its go statement. */
  lemma StartedBy<T>(s: B.State<T>)
    requires S.SafeInv(s) && s.log.stopped
    ensures s.log.worker.Some? && L.SpawnedWorker(B.At(s, StatusBarrier.Call(s.log.worker.value)))
  {
    hide L.BarrierOk, L.ListenerBarrierOk, S.PcOk, S.ClosedOk, L.ThreadOk, L.SpawnedWorker, S.HolderOk;
    assert StatusBarrier.Worker(s.log.worker.value) in s.procs;
  }

  lemma StartIsCall<T>(s: B.State<T>, t: StatusBarrier.Tid)
    requires L.LocksOk(s) && t in s.procs && s.procs[t] == B.Status(B.Start)
    ensures t.Call?
  {
    hide L.BarrierOk, L.ListenerBarrierOk, L.AnchorsOk;
    assert L.ThreadOk(s, t);
  }

  lemma OnlyStart<K, V>(c: Cache<K, V>, s: B.State<Event>, n: nat)
    requires CallsOk(c, s) && OpOf(B.At(s, StatusBarrier.Call(n))) == Some(B.Start)
    ensures n == 0
  {
    assert CallInv(c, s, n);
  }

  /** There is only one Start call, and it spawned the worker before any Stop could succeed. */
  lemma NoRestart<K, V>(c: Cache<K, V>, s: B.State<Event>, a: B.Act<Event>)
    requires T.Inv(s) && CallsOk(c, s)
    ensures !B.Restarts(s, a)
  {
    hide O.OrderInv, S.SafeInv, D.DeliveryInv, R.PresenceInv, V.ServeInv, Q.StopInv, P.SeenInv, CallsOk, L.LocksOk;
    if B.Restarts(s, a) {
      OpenSafeInv(s);
      StartIsCall(s, a.t);
      StartedBy(s);
      OnlyStart(c, s, a.t.n);
      OnlyStart(c, s, s.log.worker.value);
    }
  }

  lemma OpenSafeInv<T>(s: B.State<T>)
    requires S.SafeInv(s)
    ensures L.LocksOk(s)
  {
  }

  /** A call that has returned takes no step. */
  lemma StepsOn<T>(s: B.State<T>, t: StatusBarrier.Tid, i: B.Instr<T>)
    requires t in s.procs && C.Executes(s, t, s.procs[t], i)
    ensures !B.At(s, t).Done?
  {
  }

  lemma CallsStep<K, V>(c: Cache<K, V>, s: B.State<Event>, t: StatusBarrier.Tid, i: B.Instr<Event>, q: B.Pc<Event>)
    requires CallsOk(c, s) && L.LocksOk(s) && L.Firing(s, t, i, q)
    ensures CallsOk(c, B.Exec(s, t, i, q))
  {
    hide L.LocksOk, L.Firing, B.Exec, CallInv;
    forall n: nat
      ensures CallInv(c, B.Exec(s, t, i, q), n)
    {
      assert CallInv(c, s, n);
      CallStep(c, s, t, i, q, n);
    }
  }

  lemma CallStep<K, V>(c: Cache<K, V>, s: B.State<Event>, t: StatusBarrier.Tid, i: B.Instr<Event>, q: B.Pc<Event>,
                       n: nat)
    requires CallInv(c, s, n) && L.LocksOk(s) && L.Firing(s, t, i, q)
    ensures CallInv(c, B.Exec(s, t, i, q), n)
  {
    hide L.LocksOk, B.Exec, C.Executes, C.Arrives, C.Moves, B.Ready, B.Faults, L.SpawnsOk, OpOf;
    L.Others(s, t, i, q);
    S.OpenLocks(s, t, 0);
    if t == StatusBarrier.Call(n) {
      OpStays(s, t, i, q);
      StepsOn(s, t, i);
    }
  }

  /** A Write is begun by a mutator for its own event, anything else by no mutator. */
  predicate BeginOk<K, V>(c: Cache<K, V>, n: nat, op: B.Op<Event>) {
    && !op.Start? && !op.WriteSync?
    && if op.Write? then n in c.calls && c.calls[n].Writing?
      && op.value == EventOf(c.name, c.calls[n].m) else n !in c.calls
  }

  /** Nothing but the calls under way changed, and the new ones are in order. */
  lemma CallsStill<K, V>(c: Cache<K, V>, s: B.State<Event>, a: B.Act<Event>, z: B.State<Event>)
    requires CallsOk(c, s) && B.Apply(s, a) == Some(z) && !a.Do?
    requires a.Begin? ==> BeginOk(c, a.n, a.op)
    ensures CallsOk(c, z)
  {
    hide B.Apply, BeginOk, CallInv;
    forall n: nat
      ensures CallInv(c, z, n)
    {
      assert CallInv(c, s, n);
      CallStill(c, s, a, z, n);
    }
  }

  lemma CallStill<K, V>(c: Cache<K, V>, s: B.State<Event>, a: B.Act<Event>, z: B.State<Event>, n: nat)
    requires CallInv(c, s, n) && B.Apply(s, a) == Some(z) && !a.Do?
    requires a.Begin? ==> BeginOk(c, a.n, a.op)
    ensures CallInv(c, z, n)
  {
    hide B.Step;
  }

  lemma InnerStep<K, V>(c: Cache<K, V>, s: B.State<Event>, a: B.Act<Event>, z: B.State<Event>)
    requires T.Inv(s) && T.Reachable(s) && CallsOk(c, s) && B.Apply(s, a) == Some(z)
    requires a.Begin? ==> BeginOk(c, a.n, a.op)
    ensures T.Inv(z) && T.Reachable(z) && CallsOk(c, z)
  {
    hide B.Restarts, CallsOk, S.SafeInv, O.OrderInv, D.DeliveryInv, R.PresenceInv, V.ServeInv, Q.StopInv, P.SeenInv,
      B.Code, B.Ready, B.Exec, T.Reachable;
    NoRestart(c, s, a);
    T.InvApply(s, a, z);
    T.ReachableApply(s, a, z);
    if a.Do? {
      var line := B.Code(s, a.t, s.procs[a.t], a.c).value;
      var i, q := line.i, line.pc;
      S.NoFault(s, a.t, a.c, i, q);
      S.SafeStep(s, a.t, a.c, i, q);
      OpenSafeInv(s);
      CallsStep(c, s, a.t, i, q);
    } else {
      CallsStill(c, s, a, z);
    }
  }

  /** The calls of the cache change, those of the broadcaster do not. */
  lemma CallsKeep<K, V>(c: Cache<K, V>, z: Cache<K, V>, s: B.State<Event>)
    requires CallsOk(c, s) && z.name == c.name
    requires forall n :: n in c.calls && (c.calls[n].Writing? || c.calls[n].Returned?) ==>
               n in z.calls && (z.calls[n].Writing? || z.calls[n].Returned?) && z.calls[n].m == c.calls[n].m
    requires forall n :: n in z.calls && (z.calls[n].Writing? || z.calls[n].Returned?) ==> KeepOk(c, z, s, n)
    ensures CallsOk(z, s)
  {
    hide CallInv, KeepOk;
    forall n: nat
      ensures CallInv(z, s, n)
    {
      assert CallInv(c, s, n);
      CallKeeps(c, z, s, n);
    }
  }

  lemma CallKeeps<K, V>(c: Cache<K, V>, z: Cache<K, V>, s: B.State<Event>, n: nat)
    requires CallInv(c, s, n) && z.name == c.name
    requires n in c.calls && (c.calls[n].Writing? || c.calls[n].Returned?) ==>
               n in z.calls && (z.calls[n].Writing? || z.calls[n].Returned?) && z.calls[n].m == c.calls[n].m
    requires n in z.calls && (z.calls[n].Writing? || z.calls[n].Returned?) ==> KeepOk(c, z, s, n)
    ensures CallInv(z, s, n)
  {
    hide OpOf;
    OpOfDone(B.At(s, StatusBarrier.Call(n)));
  }

  lemma OpOfDone<T>(pc: B.Pc<T>)
    ensures pc.Done? ==> OpOf(pc) == Some(pc.op)
  {
  }

  /** A mutator that waits for its Write, or has returned, did so before, or begins to, or is told the result. */
  ghost predicate KeepOk<K, V>(c: Cache<K, V>, z: Cache<K, V>, s: B.State<Event>, n: nat)
    requires n in z.calls
  {
    || (n in c.calls && c.calls[n] == z.calls[n])
    || (z.calls[n].Writing? && StatusBarrier.Call(n) !in s.procs)
    || (n in c.calls && c.calls[n].Writing? && z.calls[n].Returned? && z.calls[n].m == c.calls[n].m
        && StatusBarrier.Call(n) in s.procs && B.At(s, StatusBarrier.Call(n)).Done?
        && B.At(s, StatusBarrier.Call(n)).res == z.calls[n].res)
  }

  lemma NotBegun(s: B.State<Event>, n: nat, z: B.State<Event>, e: Event)
    requires B.Apply(s, B.Begin(n, B.Write(e))) == Some(z)
    ensures StatusBarrier.Call(n) !in s.procs
  {
  }

  lemma CacheApply<K, V>(c: Cache<K, V>, a: Act<K, V>, z: Cache<K, V>)
    requires CacheInv(c) && Apply(c, a) == Some(z)
    ensures CacheInv(z)
  {
    hide T.Inv, T.Reachable, B.Apply, LogOk, CallsOk;
    LogApply(c, a, z);
    if c.bc.Some? {
      var s := c.bc.value;
      match a
      case Publish(n) =>
        var mid := c.(calls := z.calls);
        NotBegun(s, n, z.bc.value, EventOf(c.name, c.calls[n].m));
        CallsKeep(c, mid, s);
        InnerStep(mid, s, B.Begin(n, B.Write(EventOf(c.name, c.calls[n].m))), z.bc.value);
        CallsKeep(mid, z, z.bc.value);
      case Inner(b) =>
        InnerStep(c, s, b, z.bc.value);
        CallsKeep(c, z, z.bc.value);
      case _ => CallsKeep(c, z, s);
    }
  }

  lemma CacheInit<K, V>(name: string, publish: bool)
    ensures CacheInv(New<K, V>(name, publish))
  {
    hide T.Inv, CallsOk, B.Step;
    var c := New<K, V>(name, publish);
    if publish {
      var s, z := B.New<Event>(), c.bc.value;
      T.InvInit<Event>();
      assert B.Runs(s, [], s) && T.Reachable(s);
      assert !B.Restarts(s, B.Begin(0, B.Start));
      T.InvApply(s, B.Begin(0, B.Start), z);
      T.ReachableApply(s, B.Begin(0, B.Start), z);
      assert CallsOk(c, z) by { FirstCall(c, z); }
    }
  }

  lemma FirstCall<K, V>(c: Cache<K, V>, z: B.State<Event>)
    requires B.Apply(B.New<Event>(), B.Begin(0, B.Start)) == Some(z) && c.calls == map[]
    ensures CallsOk(c, z)
  {
  }

  lemma {:induction false} CacheRuns<K, V>(c: Cache<K, V>, acts: seq<Act<K, V>>, z: Cache<K, V>)
    requires CacheInv(c) && Runs(c, acts, z)
    ensures CacheInv(z)
    decreases |acts|
  {
    hide CacheInv, Apply;
    if acts != [] {
      CacheApply(c, acts[0], Apply(c, acts[0]).value);
      CacheRuns(Apply(c, acts[0]).value, acts[1..], z);
    }
  }

  // ---------- theorems ----------

  /** A state of a cache that some run leads to. */
  ghost predicate Reachable<K(!new), V(!new)>(c: Cache<K, V>) {
    exists name, publish, acts :: Runs(New<K, V>(name, publish), acts, c)
  }

  lemma ReachableInv<K(!new), V(!new)>(c: Cache<K, V>)
    requires Reachable(c)
    ensures CacheInv(c)
  {
    hide CacheInv, Runs;
    var name, publish, acts :| Runs(New<K, V>(name, publish), acts, c);
    CacheInit<K, V>(name, publish);
    CacheRuns(New(name, publish), acts, c);
  }

  /** What a mutation leaves under its key. */
  function Left<K, V>(m: Mut<K, V>): Option<V> { if m.Delete? then None else Some(m.v) }

  /** Entry number `i` is the last mutation of the key. */
  ghost predicate IsLast<K, V>(log: seq<Entry<K, V>>, k: K, i: nat) {
    i < |log| && log[i].m.k == k && forall j :: i < j < |log| ==> log[j].m.k != k
  }

  lemma {:induction false} ReplayLast<K, V>(log: seq<Entry<K, V>>, k: K, i: nat)
    requires IsLast(log, k, i)
    ensures Left(log[i].m) == if k in Replay(log) then Some(Replay(log)[k]) else None
    decreases |log|
  {
    var before := log[..|log| - 1];
    if i < |before| {
      assert log[|log| - 1].m.k != k;
      assert forall j :: 0 <= j < |before| ==> before[j] == log[j];
      ReplayLast(before, k, i);
    }
  }

  lemma {:induction false} ReplayNever<K, V>(log: seq<Entry<K, V>>, k: K)
    requires forall i :: 0 <= i < |log| ==> log[i].m.k != k
    ensures k !in Replay(log)
    decreases |log|
  {
    if log != [] {
      assert log[|log| - 1].m.k != k;
      ReplayNever(log[..|log| - 1], k);
    }
  }

  /**
   Get answers with what the last mutation of the key left, in the order in which the mutations reached the
   map, and with nothing if there was none.  A call past the map is in that order once, whatever its Write
   returned, ErrStopped included.
   */
  lemma GetAgrees<K(!new), V(!new)>(c: Cache<K, V>, k: K, n: nat)
    requires Reachable(c)
    ensures forall i: nat :: i < |c.log| && IsLast(c.log, k, i) ==> Get(c, k) == Left(c.log[i].m)
    ensures (forall i :: 0 <= i < |c.log| ==> c.log[i].m.k != k) ==> Get(c, k) == None
    ensures n in c.calls && c.calls[n].Returned? ==> Entry(n, c.calls[n].m) in c.log
    ensures forall i, j :: 0 <= i < j < |c.log| ==> c.log[i].n != c.log[j].n
  {
    hide IsLast, Left, Runs, Replay;
    ReachableInv(c);
    forall i: nat | i < |c.log| && IsLast(c.log, k, i)
      ensures Get(c, k) == Left(c.log[i].m)
    {
      ReplayLast(c.log, k, i);
    }
    if forall i :: 0 <= i < |c.log| ==> c.log[i].m.k != k { ReplayNever(c.log, k); }
  }

  lemma {:induction false} LogGrows<K(!new), V(!new)>(c: Cache<K, V>, acts: seq<Act<K, V>>, z: Cache<K, V>)
    requires Runs(c, acts, z)
    ensures c.log <= z.log
    decreases |acts|
  {
    hide B.Apply;
    if acts != [] { LogGrows(Apply(c, acts[0]).value, acts[1..], z); }
  }

  /** The order respects time: a mutation that has returned comes before one that begins later. */
  lemma Linearized<K(!new), V(!new)>(c: Cache<K, V>, acts: seq<Act<K, V>>, z: Cache<K, V>, i: nat, j: nat)
    requires Reachable(c) && Runs(c, acts, z) && i < |z.log| && j < |z.log|
    requires z.log[i].n in c.calls && c.calls[z.log[i].n].Returned? && z.log[j].n !in c.calls
    ensures i < j
  {
    hide Runs;
    ReachableInv(c);
    LogGrows(c, acts, z);
    CacheRuns(c, acts, z);
    var n := z.log[i].n;
    var e := Entry(n, c.calls[n].m);
    assert e in c.log;
    var a :| 0 <= a < |c.log| && c.log[a] == e;
    assert z.log[a] == e;
    assert a == i;
    assert forall b :: 0 <= b < |c.log| ==> z.log[b] == c.log[b] && z.log[b] in c.log && z.log[b].n in c.calls;
  }

  function Kinds(ms: seq<B.Msg<Event>>): seq<Kind> {
    seq(|ms|, i requires 0 <= i < |ms| => if ms[i].Msg? then ms[i].value.kind else Added)
  }

  function Without<X>(ys: seq<X>, j: nat): seq<X>
    requires j < |ys|
  {
    ys[..j] + ys[j + 1..]
  }

  lemma StillIn<X>(xs: seq<X>, ys: seq<X>, j: nat, b: nat)
    requires O.Distinct(xs) && 1 <= b < |xs| && xs[b] in ys && j < |ys| && ys[j] == xs[0]
    ensures xs[b] in Without(ys, j)
  {
    var a :| 0 <= a < |ys| && ys[a] == xs[b];
    assert Without(ys, j)[if a < j then a else a - 1] == xs[b];
  }

  lemma KindsWithout(ys: seq<B.Msg<Event>>, j: nat)
    requires j < |ys|
    ensures multiset(Kinds(ys)) == multiset(Kinds(Without(ys, j))) + multiset{Kinds(ys)[j]}
  {
    assert Kinds(ys) == Kinds(ys[..j]) + [Kinds(ys)[j]] + Kinds(ys[j + 1..]);
    assert Kinds(Without(ys, j)) == Kinds(ys[..j]) + Kinds(ys[j + 1..]);
  }

  /** Without repetition, a part has no more of each kind than the whole. */
  lemma {:induction false} KindsFewer(xs: seq<B.Msg<Event>>, ys: seq<B.Msg<Event>>)
    requires O.Distinct(xs) && forall b :: 0 <= b < |xs| ==> xs[b] in ys
    ensures multiset(Kinds(xs)) <= multiset(Kinds(ys))
    decreases |xs|
  {
    hide Kinds;
    if xs == [] {
      NoKinds();
    } else {
      var j :| 0 <= j < |ys| && ys[j] == xs[0];
      forall b | 0 <= b < |xs| - 1 ensures xs[1..][b] in Without(ys, j) { StillIn(xs, ys, j, b + 1); }
      assert Without(xs, 0) == xs[1..];
      KindsFewer(xs[1..], Without(ys, j));
      KindsWithout(xs, 0);
      KindsWithout(ys, j);
      SameKind(xs, ys, j);
    }
  }

  lemma NoKinds()
    ensures Kinds([]) == []
  {
  }

  lemma SameKind(xs: seq<B.Msg<Event>>, ys: seq<B.Msg<Event>>, j: nat)
    requires xs != [] && j < |ys| && ys[j] == xs[0]
    ensures |Kinds(xs)| == |xs| && |Kinds(ys)| == |ys| && Kinds(xs)[0] == Kinds(ys)[j]
  {
  }

  /** The sort of mutator an event stands for. */
  predicate StandsFor<K, V>(kind: Kind, m: Mut<K, V>) {
    match kind
    case Added => m.AddOrUpdate?
    case Updated => m.Update?
    case Deleted => m.Delete?
  }

  lemma EventIs<K, V>(name: string, m: Mut<K, V>, kind: Kind)
    ensures EventOf(name, m).name == name && (EventOf(name, m).kind == kind <==> StandsFor(kind, m))
  {
  }

  /** The mutators of a sort whose event was admitted. */
  ghost function Announced<K, V>(c: Cache<K, V>, kind: Kind): set<nat>
    requires c.bc.Some?
  {
    set n | n in c.calls && StandsFor(kind, c.calls[n].m) && O.Named(c.bc.value.log.admitted, n)
  }

  /** Where in `ms` the events of a kind are. */
  function EventsOf(ms: seq<B.Msg<Event>>, kind: Kind): set<nat> {
    set i: nat | i < |ms| && ms[i].Msg? && ms[i].value.kind == kind
  }

  lemma {:induction false} NoMoreThan(ms: seq<B.Msg<Event>>, places: set<nat>, ns: set<nat>)
    requires forall i :: i in places ==> i < |ms| && ms[i].Msg? && ms[i].id in ns
    requires forall i, j :: i in places && j in places && i != j ==> ms[i].id != ms[j].id
    ensures |places| <= |ns|
    decreases |places|
  {
    if places != {} {
      var i :| i in places;
      NoMoreThan(ms, places - {i}, ns - {ms[i].id});
    }
  }

  /** An admitted event is that of the mutator it is named after, which has changed the map before. */
  ghost predicate IsOfCall<K, V>(c: Cache<K, V>, m: B.Msg<Event>) {
    && m.Msg? && m.id in c.calls && m.value == EventOf(c.name, c.calls[m.id].m)
    && Entry(m.id, c.calls[m.id].m) in c.log
  }

  lemma AdmittedIs<K(!new), V(!new)>(c: Cache<K, V>, m: B.Msg<Event>)
    requires Reachable(c) && c.bc.Some? && m in c.bc.value.log.admitted
    ensures IsOfCall(c, m)
  {
    hide Runs, T.Inv, B.Apply;
    ReachableInv(c);
    T.Integrity(c.bc.value, m);
    assert CallInv(c, c.bc.value, m.id);
  }

  /** What a listener got was admitted. */
  lemma GottenAdmitted<K(!new), V(!new)>(c: Cache<K, V>, l: B.Lid, b: nat)
    requires Reachable(c) && c.bc.Some? && l in c.bc.value.listeners && b < |T.Gotten(c.bc.value.listeners[l])|
    ensures T.Gotten(c.bc.value.listeners[l])[b] in c.bc.value.log.admitted
  {
    hide Runs, LogOk, SilentOk, T.Inv, T.Gotten, B.Apply, CallsOk, T.Reachable;
    ReachableInv(c);
    var s := c.bc.value;
    T.InOrder(s, l);
    T.Integrity(s, T.Gotten(s.listeners[l])[b]);
    assert T.Gotten(s.listeners[l])[b] in s.log.accepted;
  }

  lemma EventsOfCalls<K(!new), V(!new)>(c: Cache<K, V>, l: B.Lid, kind: Kind)
    requires Reachable(c) && c.bc.Some? && l in c.bc.value.listeners
    ensures |EventsOf(T.Gotten(c.bc.value.listeners[l]), kind)| <= |Announced(c, kind)|
  {
    hide Reachable, EventOf, StandsFor, T.Gotten, B.Apply;
    var s := c.bc.value;
    var ms := T.Gotten(s.listeners[l]);
    forall b: nat | b < |ms| ensures IsOfCall(c, ms[b]) && O.Named(s.log.admitted, ms[b].id) {
      GottenAdmitted(c, l, b);
      AdmittedIs(c, ms[b]);
    }
    forall i, j | i in EventsOf(ms, kind) && j in EventsOf(ms, kind) && i != j ensures ms[i].id != ms[j].id {
      ReachableInv(c);
      hide *;
      T.InOrder(s, l);
    }
    forall i | i in EventsOf(ms, kind) ensures ms[i].id in Announced(c, kind) {
      EventIs(c.name, c.calls[ms[i].id].m, kind);
    }
    NoMoreThan(ms, EventsOf(ms, kind), Announced(c, kind));
  }

  /**
   Every admitted event bears the name of the cache and stands for the mutator that brought it, which has
   changed the map before, one event each.  A listener gets at most as many events of a kind as there are
   mutators of that sort whose event was admitted; its kinds are among those admitted, each no more often.
   */
  lemma EventsReceived<K(!new), V(!new)>(c: Cache<K, V>, l: B.Lid, m: B.Msg<Event>)
    requires Reachable(c) && c.bc.Some? && l in c.bc.value.listeners
    ensures var s := c.bc.value;
            && (m in s.log.admitted ==>
                  && m.Msg? && m.id in c.calls && Entry(m.id, c.calls[m.id].m) in c.log
                  && m.value.name == c.name
                  && (m.value.kind.Added? <==> c.calls[m.id].m.AddOrUpdate?)
                  && (m.value.kind.Updated? <==> c.calls[m.id].m.Update?)
                  && (m.value.kind.Deleted? <==> c.calls[m.id].m.Delete?))
            && (forall kind :: |EventsOf(T.Gotten(s.listeners[l]), kind)| <= |Announced(c, kind)|)
            && O.Distinct(s.log.admitted)
            && multiset(Kinds(T.Gotten(s.listeners[l]))) <= multiset(Kinds(s.log.admitted))
  {
    hide Runs, LogOk, SilentOk, T.Inv, T.Gotten, B.Apply, CallsOk, T.Reachable, Announced, EventsOf, EventOf;
    ReachableInv(c);
    var s := c.bc.value;
    T.InOrder(s, l);
    T.Integrity(s, m);
    if m in s.log.admitted {
      AdmittedIs(c, m);
      EventIs(c.name, c.calls[m.id].m, Added);
      EventIs(c.name, c.calls[m.id].m, Updated);
      EventIs(c.name, c.calls[m.id].m, Deleted);
    }
    forall kind ensures |EventsOf(T.Gotten(s.listeners[l]), kind)| <= |Announced(c, kind)| {
      EventsOfCalls(c, l, kind);
    }
    forall b | 0 <= b < |T.Gotten(s.listeners[l])| ensures T.Gotten(s.listeners[l])[b] in s.log.admitted {
      GottenAdmitted(c, l, b);
    }
    KindsFewer(T.Gotten(s.listeners[l]), s.log.admitted);
  }

  /**
   With publishing, a mutator has returned nil exactly when its event is admitted, and the other answer is
   ErrStopped; without publishing it returns nil.
   */
  lemma Published<K(!new), V(!new)>(c: Cache<K, V>, n: nat)
    requires Reachable(c) && n in c.calls && c.calls[n].Returned?
    ensures c.bc.Some? ==> (c.calls[n].res.Nil? <==> O.Named(c.bc.value.log.admitted, n))
    ensures c.bc.Some? && c.calls[n].res.Nil? ==>
              exists m :: m in c.bc.value.log.admitted && m.Msg? && m.id == n && m.value.name == c.name
                          && StandsFor(m.value.kind, c.calls[n].m)
    ensures c.calls[n].res.Nil? || c.calls[n].res.ErrStopped?
    ensures c.bc.None? ==> c.calls[n].res.Nil?
  {
    hide Runs, LogOk, T.Inv, T.Reachable, EventOf, StandsFor, B.Apply;
    ReachableInv(c);
    if c.bc.Some? {
      var s, m := c.bc.value, B.Msg(n, EventOf(c.name, c.calls[n].m));
      assert CallInv(c, s, n);
      T.Integrity(s, m);
      A.AnswerKinds(s, n);
      EventIs(c.name, c.calls[n].m, m.value.kind);
      if O.Named(s.log.admitted, n) {
        var m' :| m' in s.log.admitted && m'.Msg? && m'.id == n;
        AdmittedIs(c, m');
      }
    }
  }

  /** The broadcaster of a cache never faults. */
  lemma NeverPanics<K(!new), V(!new)>(c: Cache<K, V>)
    requires Reachable(c)
    ensures c.bc.Some? ==> !c.bc.value.panicked
  {
    ReachableInv(c);
  }
}
