/** Without new calls every run is finite, and it does not get stuck before the calls have returned. */
module BroadcasterProgress {
  import opened Wrappers
  import opened StatusBarrier
  import opened Broadcaster
  import opened BroadcasterCode
  import opened BroadcasterLocks
  import opened BroadcasterSafety
  import opened Sums

  // ---------- the measure ----------

  function StageRank(stage: Stage): nat {
    match stage
    case SEnter => 7
    case SDrain => 6
    case SCheck => 5
    case SClose => 4
    case SMark => 3
    case SOut => 2
  }

  /** What is left of a Range over at most `n` listeners, at `unit` steps each. */
  function Left(n: nat, sw: Sweep, unit: nat): nat { if |sw.seen| <= n then unit * (n - |sw.seen|) else 0 }

  /** The weight of a message in the channel: the work of handing it to `n` listeners. */
  function Load(n: nat): nat { 7 * n + 3 }

  /** An upper bound on the steps a thread has before it, when there are never more than `n` listeners. */
  function PcRank<T>(pc: Pc<T>, n: nat): nat {
    match pc
    case Enter(_) => Load(n) + 14
    case Check(_) => Load(n) + 13
    case Body(_) => Load(n) + 12
    case Unsub(_, stage) => StageRank(stage)
    case Leave(_, _) => 1
    case Sender(_) => Load(n) + 2
    case SenderOut => 1
    case Await(_) => 10 * n + 12
    case Drain(_) => 10 * n + 11
    case Status(_) => 10 * n + 10
    case StartAdd => 6
    case StartGo => 5
    case StartMark => 2
    case StopCancel => 10 * n + 7
    case StopWait => 10 * n + 6
    case StopRange => 10 * n + 5
    case StopNext(sw) => Left(n, sw, 10) + 4
    case StopOne(sw, _, stage) => Left(n, sw, 10) + 5 + StageRank(stage)
    case StopDelete(sw, _) => Left(n, sw, 10) + 5
    case StopClose => 3
    case StopMark => 2
    case Unlock(_, _) => 1
    case Select => 2
    case Received(_, _) => 7 * n + 4
    case Next(job) => Left(n, job.sweep, 7) + 3
    case Visit(job, _) => Left(n, job.sweep, 7) + 9
    case LEntering(job, _) => Left(n, job.sweep, 7) + 8
    case LCheck(job, _) => Left(n, job.sweep, 7) + 7
    case LSend(job, _) => Left(n, job.sweep, 7) + 6
    case LOut(job, _) => Left(n, job.sweep, 7) + 4
    case Exit => 1
    case Done(_, _) => 0
    case Gone => 0
  }

  function Weight<T>(n: nat): Pc<T> -> nat { (pc: Pc<T>) => PcRank(pc, n) }

  function Waiting<T>(): Listener<T> -> nat { (x: Listener<T>) => |x.chan.buf| }

  ghost function Rank<T>(s: State<T>, n: nat): nat {
    SumMap(s.procs, Weight(n)) + Load(n) * |s.chan.buf| + SumMap(s.listeners, Waiting()) + if s.cancelled then 0 else 1
  }

  predicate Subscribing<T>(pc: Pc<T>) { (pc.Enter? || pc.Check? || pc.Body?) && pc.op.Subscribe? }

  function Subscriber<T>(): Pc<T> -> nat { (pc: Pc<T>) => if Subscribing(pc) then 1 else 0 }

  /** The listeners there are, and those the calls under way may still add. */
  ghost function Potential<T>(s: State<T>): nat { |s.listeners| + SumMap(s.procs, Subscriber()) }

  // ---------- a Range visits a key once ----------

  ghost predicate SeenOk<T>(s: State<T>, pc: Pc<T>) {
    match pc
    case StopNext(sw) => sw.seen <= s.listeners.Keys
    case StopOne(sw, _, _) => sw.seen <= s.listeners.Keys
    case StopDelete(sw, _) => sw.seen <= s.listeners.Keys
    case Next(job) => job.sweep.seen <= s.listeners.Keys
    case Visit(job, _) => job.sweep.seen <= s.listeners.Keys
    case LEntering(job, _) => job.sweep.seen <= s.listeners.Keys
    case LCheck(job, _) => job.sweep.seen <= s.listeners.Keys
    case LSend(job, _) => job.sweep.seen <= s.listeners.Keys
    case LOut(job, _) => job.sweep.seen <= s.listeners.Keys
    case _ => true
  }

  ghost predicate SeenInv<T>(s: State<T>) { forall t {:trigger At(s, t)} :: SeenOk(s, At(s, t)) }

  lemma SeenArrives<T>(s: State<T>, t: Tid, i: Instr<T>, q: Pc<T>)
    requires SeenOk(s, At(s, t)) && Arrives(s, t, At(s, t), i, q)
    ensures SeenOk(s, q)
  {
    hide StageNext, StageInstr, InMap, MayFinish, Front, ListenerStopped;
  }

  lemma SeenGrows<T>(s: State<T>, z: State<T>, pc: Pc<T>)
    requires SeenOk(s, pc) && s.listeners.Keys <= z.listeners.Keys
    ensures SeenOk(z, pc)
  {
  }

  lemma SeenStep<T>(s: State<T>, t: Tid, i: Instr<T>, q: Pc<T>)
    requires SeenInv(s) && Firing(s, t, i, q)
    ensures SeenInv(Exec(s, t, i, q))
  {
    hide Executes, Arrives, Moves, Ready, Faults, SpawnsOk, Exec, SeenOk;
    var z := Exec(s, t, i, q);
    Others(s, t, i, q);
    ListenersAre(s, t, i, q);
    forall u {:trigger At(z, u)} ensures SeenOk(z, At(z, u)) {
      assert SeenOk(s, At(s, t)) && SeenOk(s, At(s, u));
      SeenArrives(s, t, i, q);
      SeenNew(z, At(z, u));
      if u == t { SeenGrows(s, z, q); } else if !Spawned(u, t, i) { SeenGrows(s, z, At(s, u)); }
    }
  }

  lemma SeenNew<T>(z: State<T>, pc: Pc<T>)
    ensures pc.Sender? || pc.Select? ==> SeenOk(z, pc)
  {
  }

  // ---------- every step goes down ----------

  /** The rank of what an instruction starts and sends ... */
  function Bonus<T>(i: Instr<T>, n: nat): nat {
    if i.GoSender? then Load(n) + 2
    else if i.GoWorker? then 2
    else if i.Push? then Load(n)
    else if i.On? && i.li.LPush? then 1
    else 0
  }

  /** ... and of what it takes. */
  function Gain<T>(i: Instr<T>, n: nat): nat { if i.Recv? then Load(n) else 0 }

  lemma LeftDown(n: nat, sw: Sweep, l: Lid, unit: nat)
    requires l !in sw.seen && |sw.seen| < n
    ensures Left(n, sw, unit) == Left(n, sw.(seen := sw.seen + {l}), unit) + unit
  {
    assert |sw.seen + {l}| == |sw.seen| + 1;
    assert unit * (n - |sw.seen|) == unit * (n - |sw.seen| - 1) + unit;
  }

  lemma SeenFewer<T>(s: State<T>, seen: set<Lid>, l: Lid)
    requires seen <= s.listeners.Keys && l in s.listeners && l !in seen
    ensures |seen| < |s.listeners|
  {
    Subset(seen + {l}, s.listeners.Keys);
    assert |seen + {l}| == |seen| + 1;
  }

  lemma Subset(a: set<Lid>, b: set<Lid>)
    requires a <= b
    ensures |a| <= |b|
  {
    assert b == a + (b - a);
  }

  lemma LeftStart(n: nat, now: nat)
    ensures Left(n, Sweep(now, {}), 7) == 7 * n && Left(n, Sweep(now, {}), 10) == 10 * n
  {
  }

  lemma DescendsRead<T>(s: State<T>, t: Tid, i: Instr<T>, q: Pc<T>, n: nat)
    requires Executes(s, t, At(s, t), i) && Arrives(s, t, At(s, t), i, q) && IsReadPc(At(s, t))
    ensures PcRank(q, n) + Bonus(i, n) < PcRank(At(s, t), n) && !i.Recv?
  {
    hide Executes, Arrives, PcRank, Bonus, Gain, Load, SeenOk;
    if At(s, t).Body? {
      DescendsBody(s, t, i, q, n);
    } else if At(s, t).Unsub? {
      DescendsUnsub(s, t, i, q, n);
    } else {
      DescendsCall(s, t, i, q, n);
    }
  }

  lemma DescendsBody<T>(s: State<T>, t: Tid, i: Instr<T>, q: Pc<T>, n: nat)
    requires Executes(s, t, At(s, t), i) && Arrives(s, t, At(s, t), i, q) && At(s, t).Body?
    ensures PcRank(q, n) + Bonus(i, n) < PcRank(At(s, t), n) && !i.Recv?
  {
    hide InMap, MayFinish, MayVisit, Front, ListenerStopped, Left;
  }

  lemma DescendsUnsub<T>(s: State<T>, t: Tid, i: Instr<T>, q: Pc<T>, n: nat)
    requires Executes(s, t, At(s, t), i) && Arrives(s, t, At(s, t), i, q) && At(s, t).Unsub?
    ensures PcRank(q, n) + Bonus(i, n) < PcRank(At(s, t), n) && !i.Recv?
  {
    hide InMap, MayFinish, MayVisit, Front, ListenerStopped, Left, Load;
  }

  lemma DescendsCall<T>(s: State<T>, t: Tid, i: Instr<T>, q: Pc<T>, n: nat)
    requires Executes(s, t, At(s, t), i) && Arrives(s, t, At(s, t), i, q)
    requires IsReadPc(At(s, t)) && !At(s, t).Body? && !At(s, t).Unsub?
    ensures PcRank(q, n) + Bonus(i, n) < PcRank(At(s, t), n) && !i.Recv?
  {
    hide Executes, Arrives, PcRank, Bonus, Load;
    if At(s, t).Enter? || At(s, t).Check? {
      DescendsEntry(s, t, i, q, n);
    } else {
      DescendsExit(s, t, i, q, n);
    }
  }

  lemma DescendsEntry<T>(s: State<T>, t: Tid, i: Instr<T>, q: Pc<T>, n: nat)
    requires Executes(s, t, At(s, t), i) && Arrives(s, t, At(s, t), i, q) && (At(s, t).Enter? || At(s, t).Check?)
    ensures PcRank(q, n) + Bonus(i, n) < PcRank(At(s, t), n) && !i.Recv?
  {
    hide InMap, MayFinish, MayVisit, Front, ListenerStopped, Left, Load, StageInstr, StageNext;
  }

  lemma DescendsExit<T>(s: State<T>, t: Tid, i: Instr<T>, q: Pc<T>, n: nat)
    requires Executes(s, t, At(s, t), i) && Arrives(s, t, At(s, t), i, q)
    requires At(s, t).Leave? || At(s, t).Sender? || At(s, t).SenderOut?
    ensures PcRank(q, n) + Bonus(i, n) < PcRank(At(s, t), n) && !i.Recv?
  {
    hide InMap, MayFinish, MayVisit, Front, ListenerStopped, Left, Load, StageInstr, StageNext;
  }

  lemma DescendsWorker<T>(s: State<T>, t: Tid, i: Instr<T>, q: Pc<T>, n: nat)
    requires Executes(s, t, At(s, t), i) && Arrives(s, t, At(s, t), i, q) && IsWorkerPc(At(s, t))
    requires SeenOk(s, At(s, t)) && |s.listeners| <= n
    ensures PcRank(q, n) + Bonus(i, n) < PcRank(At(s, t), n) + Gain(i, n)
  {
    hide Executes, Arrives, PcRank, Bonus, Gain, Load, SeenOk;
    if At(s, t).Next? {
      DescendsNext(s, t, i, q, n);
    } else if IsListenerPc(At(s, t)) {
      DescendsListener(s, t, i, q, n);
    } else {
      DescendsMain(s, t, i, q, n);
    }
  }

  lemma DescendsMain<T>(s: State<T>, t: Tid, i: Instr<T>, q: Pc<T>, n: nat)
    requires Executes(s, t, At(s, t), i) && Arrives(s, t, At(s, t), i, q)
    requires At(s, t).Select? || At(s, t).Received? || At(s, t).Exit?
    ensures PcRank(q, n) + Bonus(i, n) < PcRank(At(s, t), n) + Gain(i, n)
  {
    hide InMap, MayFinish, MayVisit, Front, ListenerStopped, Left, ExecutesOn;
    LeftStart(n, s.log.clock);
  }

  lemma DescendsListener<T>(s: State<T>, t: Tid, i: Instr<T>, q: Pc<T>, n: nat)
    requires Executes(s, t, At(s, t), i) && Arrives(s, t, At(s, t), i, q) && IsListenerPc(At(s, t))
    ensures PcRank(q, n) + Bonus(i, n) < PcRank(At(s, t), n) + Gain(i, n)
  {
    hide Executes, Arrives, PcRank, Bonus, Gain, Load, SeenOk;
    if At(s, t).LSend? || At(s, t).LCheck? {
      DescendsAttempt(s, t, i, q, n);
    } else {
      DescendsAround(s, t, i, q, n);
    }
  }

  lemma DescendsAttempt<T>(s: State<T>, t: Tid, i: Instr<T>, q: Pc<T>, n: nat)
    requires Executes(s, t, At(s, t), i) && Arrives(s, t, At(s, t), i, q) && (At(s, t).LSend? || At(s, t).LCheck?)
    ensures PcRank(q, n) + Bonus(i, n) < PcRank(At(s, t), n) + Gain(i, n)
  {
    hide InMap, MayFinish, MayVisit, Front, ListenerStopped, Left, Load;
  }

  lemma DescendsAround<T>(s: State<T>, t: Tid, i: Instr<T>, q: Pc<T>, n: nat)
    requires Executes(s, t, At(s, t), i) && Arrives(s, t, At(s, t), i, q)
    requires At(s, t).Visit? || At(s, t).LEntering? || At(s, t).LOut?
    ensures PcRank(q, n) + Bonus(i, n) < PcRank(At(s, t), n) + Gain(i, n)
  {
    hide InMap, MayFinish, MayVisit, Front, ListenerStopped, Left, Load;
  }

  /** Range yields a key not seen yet, or ends. */
  lemma NextLine<T>(s: State<T>, t: Tid, pc: Pc<T>, i: Instr<T>, q: Pc<T>)
    requires Arrives(s, t, pc, i, q) && pc.Next?
    ensures if q.Visit? then i.Nop? && MayVisit(s, pc.job.sweep, q.l) && q.job == Visited(pc.job, q.l)
            else q.Select? && i.RangeEnd?
  {
    hide InMap, MayFinish, MayVisit, Front, ListenerStopped, StageInstr, StageNext;
  }

  function Visited<T>(job: Job<T>, l: Lid): Job<T> { job.(sweep := job.sweep.(seen := job.sweep.seen + {l})) }

  lemma StopNextLine<T>(s: State<T>, t: Tid, pc: Pc<T>, i: Instr<T>, q: Pc<T>)
    requires Arrives(s, t, pc, i, q) && pc.StopNext?
    ensures i.Nop?
    ensures if q.StopOne? then MayVisit(s, pc.sweep, q.l) && q.stage.SEnter?
                               && q.sweep == pc.sweep.(seen := pc.sweep.seen + {q.l})
            else q.StopClose?
  {
    hide InMap, MayFinish, MayVisit, Front, ListenerStopped, StageInstr, StageNext;
  }

  lemma DescendsNext<T>(s: State<T>, t: Tid, i: Instr<T>, q: Pc<T>, n: nat)
    requires Executes(s, t, At(s, t), i) && Arrives(s, t, At(s, t), i, q) && At(s, t).Next?
    requires SeenOk(s, At(s, t)) && |s.listeners| <= n
    ensures PcRank(q, n) + Bonus(i, n) < PcRank(At(s, t), n) + Gain(i, n)
  {
    hide Executes, Arrives, Left, Load;
    NextLine(s, t, At(s, t), i, q);
    if q.Visit? {
      SeenFewer(s, At(s, t).job.sweep.seen, q.l);
      LeftDown(n, At(s, t).job.sweep, q.l, 7);
    }
  }

  lemma DescendsStatus<T>(s: State<T>, t: Tid, i: Instr<T>, q: Pc<T>, n: nat)
    requires Executes(s, t, At(s, t), i) && Arrives(s, t, At(s, t), i, q) && !IsReadPc(At(s, t))
             && !IsWorkerPc(At(s, t))
    requires SeenOk(s, At(s, t)) && |s.listeners| <= n
    ensures PcRank(q, n) + Bonus(i, n) < PcRank(At(s, t), n) && !i.Recv?
  {
    hide Executes, Arrives, PcRank, Bonus, Gain, Load, SeenOk;
    if At(s, t).StopNext? {
      DescendsSweep(s, t, i, q, n);
    } else if At(s, t).StopOne? {
      DescendsStop(s, t, i, q, n);
    } else {
      DescendsOther(s, t, i, q, n);
    }
  }

  lemma DescendsSweep<T>(s: State<T>, t: Tid, i: Instr<T>, q: Pc<T>, n: nat)
    requires Executes(s, t, At(s, t), i) && Arrives(s, t, At(s, t), i, q) && At(s, t).StopNext?
    requires SeenOk(s, At(s, t)) && |s.listeners| <= n
    ensures PcRank(q, n) + Bonus(i, n) < PcRank(At(s, t), n) && !i.Recv?
  {
    hide Executes, Arrives, Left, Load;
    StopNextLine(s, t, At(s, t), i, q);
    if q.StopOne? {
      SeenFewer(s, At(s, t).sweep.seen, q.l);
      LeftDown(n, At(s, t).sweep, q.l, 10);
    }
  }

  lemma DescendsStop<T>(s: State<T>, t: Tid, i: Instr<T>, q: Pc<T>, n: nat)
    requires Executes(s, t, At(s, t), i) && Arrives(s, t, At(s, t), i, q) && At(s, t).StopOne?
    ensures PcRank(q, n) + Bonus(i, n) < PcRank(At(s, t), n) && !i.Recv?
  {
    hide InMap, MayFinish, MayVisit, Front, ListenerStopped, Left, Load;
  }

  lemma DescendsOther<T>(s: State<T>, t: Tid, i: Instr<T>, q: Pc<T>, n: nat)
    requires Executes(s, t, At(s, t), i) && Arrives(s, t, At(s, t), i, q)
    requires !IsReadPc(At(s, t)) && !IsWorkerPc(At(s, t)) && !At(s, t).StopNext? && !At(s, t).StopOne?
    ensures PcRank(q, n) + Bonus(i, n) < PcRank(At(s, t), n) && !i.Recv?
  {
    hide InMap, MayFinish, MayVisit, Front, ListenerStopped, Left, Load, StageInstr, StageNext;
    LeftStart(n, s.log.clock);
  }

  /** One line spends more rank than it starts, sends and takes. */
  lemma Descends<T>(s: State<T>, t: Tid, i: Instr<T>, q: Pc<T>, n: nat)
    requires Executes(s, t, At(s, t), i) && Arrives(s, t, At(s, t), i, q)
    requires SeenOk(s, At(s, t)) && |s.listeners| <= n
    ensures PcRank(q, n) + Bonus(i, n) < PcRank(At(s, t), n) + Gain(i, n)
  {
    hide Executes, Arrives, PcRank, Bonus, Load;
    if IsReadPc(At(s, t)) { DescendsRead(s, t, i, q, n); }
    else if IsWorkerPc(At(s, t)) { DescendsWorker(s, t, i, q, n); }
    else { DescendsStatus(s, t, i, q, n); }
  }

  lemma ProcsSum<T>(s: State<T>, t: Tid, i: Instr<T>, q: Pc<T>, f: Pc<T> -> nat)
    requires t in s.procs && SpawnsOk(s, t, i)
    ensures SumMap(ProcsAfter(s.procs, t, i, q), f) + f(s.procs[t])
            == SumMap(s.procs, f) + f(q)
               + (if i.GoSender? then f(Sender(i.m)) else if i.GoWorker? then f(Select) else 0)
  {
    SumUpdate(s.procs, f, t, q);
    if i.GoSender? { SumUpdate(s.procs[t := q], f, Async(t.n), Sender(i.m)); }
    if i.GoWorker? { SumUpdate(s.procs[t := q], f, Worker(t.n), Select); }
  }

  lemma ListenersSum<T>(s: State<T>, t: Tid, i: Instr<T>)
    requires SpawnsOk(s, t, i)
    ensures SumMap(ListenersAfter(s.listeners, t, i, s.log.clock), Waiting())
            <= SumMap(s.listeners, Waiting()) + if i.On? && i.li.LPush? then 1 else 0
  {
    var f := Waiting<T>();
    hide SumMap;
    match i
    case Store(l) => SumUpdate(s.listeners, f, l, NewListener(s.log.clock));
    case Delete(l) =>
      if l in s.listeners { SumUpdate(s.listeners, f, l, s.listeners[l].(presence := Removed(s.log.clock, t))); }
    case On(l, li) =>
      if l in s.listeners {
        WaitingAfter(s.listeners[l], t, li);
        hide LAfter;
        SumUpdate(s.listeners, f, l, LAfter(s.listeners[l], t, li));
      }
    case _ =>
  }

  lemma WaitingAfter<T>(x: Listener<T>, t: Tid, li: LInstr<T>)
    ensures |LAfter(x, t, li).chan.buf| <= |x.chan.buf| + if li.LPush? then 1 else 0
  {
  }

  lemma ChanSum<T>(c: Chan<T>, i: Instr<T>, n: nat)
    requires i.Recv? ==> c.buf != []
    ensures Load(n) * |ChanAfter(c, i).buf| + Gain(i, n) == Load(n) * |c.buf| + if i.Push? then Load(n) else 0
  {
    var k := Load(n);
    if i.Recv? { assert k * (|c.buf| - 1) + k == k * |c.buf|; }
    if i.Push? { assert k * (|c.buf| + 1) == k * |c.buf| + k; }
  }

  lemma RankStep<T>(s: State<T>, t: Tid, i: Instr<T>, q: Pc<T>, n: nat)
    requires Firing(s, t, i, q) && SeenOk(s, At(s, t)) && |s.listeners| <= n
    requires i.Recv? ==> s.chan.buf != []
    ensures Rank(Exec(s, t, i, q), n) < Rank(s, n)
  {
    hide Executes, Arrives, Moves, Ready, Faults, BarrierAfter, ListenersAfter, ProcsAfter, ChanAfter, LogAfter,
      WgAfter, SumMap, SpawnsOk;
    ProcsSum(s, t, i, q, Weight(n));
    ListenersSum(s, t, i);
    ChanSum(s.chan, i, n);
    Descends(s, t, i, q, n);
  }

  lemma SubscribingArrives<T>(s: State<T>, t: Tid, i: Instr<T>, q: Pc<T>)
    requires Executes(s, t, At(s, t), i) && Arrives(s, t, At(s, t), i, q)
    ensures Subscribing(q) ==> Subscribing(At(s, t)) && !i.Store?
    ensures i.Store? ==> Subscribing(At(s, t))
  {
    hide StageNext, StageInstr, InMap, MayFinish, MayVisit, Front, ListenerStopped, ExecutesOn;
  }

  lemma PotentialStep<T>(s: State<T>, t: Tid, i: Instr<T>, q: Pc<T>)
    requires Firing(s, t, i, q)
    ensures Potential(Exec(s, t, i, q)) <= Potential(s)
  {
    hide Executes, Arrives, Moves, Ready, Faults, SumMap;
    ProcsSum(s, t, i, q, Subscriber());
    SubscribingArrives(s, t, i, q);
    ListenersAre(s, t, i, q);
    assert |Exec(s, t, i, q).listeners.Keys| == |Exec(s, t, i, q).listeners|;
  }

  lemma RankApply<T>(s: State<T>, a: Act<T>, z: State<T>, n: nat)
    requires SafeInv(s) && SeenInv(s) && Apply(s, a) == Some(z) && !Restarts(s, a) && !a.Begin? && Potential(s) <= n
    ensures Rank(z, n) < Rank(s, n) && Potential(z) <= n
  {
    hide SafeInv, SumMap, Code, Ready, Exec, Rank, Load, Weight;
    match a
    case Do(t, c) =>
      var Line(i, q) := Code(s, t, s.procs[t], c).value;
      NoFault(s, t, c, i, q);
      SafeStep(s, t, c, i, q);
      assert SeenOk(s, At(s, t));
      RecvReal(s, t, i, q);
      RankStep(s, t, i, q, n);
      PotentialStep(s, t, i, q);
    case Cancel => RankCancel(s, z, n);
    case Take(l) => RankTake(s, z, l, n);
  }

  lemma RecvReal<T>(s: State<T>, t: Tid, i: Instr<T>, q: Pc<T>)
    requires SafeInv(s) && Firing(s, t, i, q)
    ensures i.Recv? ==> s.chan.buf != []
  {
    hide LocksOk, PcOk, ClosedOk, Arrives, Moves, ExecutesOn;
    OpenLocks(s, t, 0);
  }

  lemma RankCancel<T>(s: State<T>, z: State<T>, n: nat)
    requires !s.cancelled && z == s.(cancelled := true)
    ensures Rank(z, n) < Rank(s, n) && Potential(z) == Potential(s)
  {
  }

  lemma RankTake<T>(s: State<T>, z: State<T>, l: Lid, n: nat)
    requires l in s.listeners && s.listeners[l].chan.buf != []
    requires z == s.(listeners := s.listeners[l := Taken(s.listeners[l])])
    ensures Rank(z, n) < Rank(s, n) && Potential(z) == Potential(s)
  {
    hide SumMap;
    SumUpdate(s.listeners, Waiting(), l, Taken(s.listeners[l]));
    assert z.listeners.Keys == s.listeners.Keys;
    assert |z.listeners| == |z.listeners.Keys| && |s.listeners| == |s.listeners.Keys|;
  }

  lemma SeenApply<T>(s: State<T>, a: Act<T>, z: State<T>)
    requires SafeInv(s) && SeenInv(s) && Apply(s, a) == Some(z) && !Restarts(s, a)
    ensures SeenInv(z)
  {
    hide SafeInv, Code, Ready, Exec;
    if a.Do? {
      var Line(i, q) := Code(s, a.t, s.procs[a.t], a.c).value;
      NoFault(s, a.t, a.c, i, q);
      SafeStep(s, a.t, a.c, i, q);
      SeenStep(s, a.t, i, q);
    } else {
      StillApply(s, a, z);
      forall u {:trigger At(z, u)} ensures SeenOk(z, At(z, u)) { assert SeenOk(s, At(s, u)); }
    }
  }

  // ---------- no deadlock ----------

  /** A call that has returned, a goroutine that has ended, or the worker with nothing to do. */
  ghost predicate Rests<T>(s: State<T>, t: Tid) {
    At(s, t).Done? || At(s, t).Gone? || (At(s, t).Select? && s.chan.buf == [] && !s.chan.closed && !s.cancelled)
  }

  /** The thread can take a step that is not a restart; without `timers` also not the firing of its timer. */
  ghost predicate CanStep<T>(s: State<T>, t: Tid, timers: bool) {
    exists c: Choice :: (timers || !c.Timeout?) && Apply(s, Do(t, c)).Some? && !Restarts(s, Do(t, c))
  }

  ghost predicate SomeoneSteps<T>(s: State<T>, timers: bool) { exists t :: CanStep(s, t, timers) }

  /** Every user has taken what was sent to its listener. */
  ghost predicate Emptied<T>(s: State<T>) { forall l :: l in s.listeners ==> s.listeners[l].chan.buf == [] }

  /** A worker that has left its loop was cancelled. */
  ghost predicate ExitOk<T>(s: State<T>) {
    forall n: nat {:trigger Worker(n)} :: Worker(n) in s.procs && !s.cancelled ==>
      !At(s, Worker(n)).Exit? && !At(s, Worker(n)).Gone?
  }

  /** What has to hold for a step that is not the firing of a timer. */
  ghost predicate Unhindered<T>(s: State<T>) { Emptied(s) && !s.cancelled && ExitOk(s) }

  /** A Start call that owns the barrier would restart the stopped broadcaster. */
  ghost predicate RestartWaits<T>(s: State<T>) {
    s.log.stopped && exists t :: t in s.procs && Restarts(s, Do(t, Go))
  }

  ghost predicate GoesOn<T>(s: State<T>, timers: bool) { SomeoneSteps(s, timers) || RestartWaits(s) }

  /** A thread not waiting for a mutex, the wait group or a message. */
  ghost predicate Free<T>(s: State<T>, pc: Pc<T>, timers: bool) {
    match pc
    case Body(op) => op.WriteSync? ==> timers || s.chan.buf == []
    case Sender(_) => timers || s.chan.buf == []
    case Enter(_) => s.barrier.CanEnter()
    case Await(_) => s.barrier.CanAnnounce()
    case Drain(_) => s.barrier.Drained()
    case StopWait => s.wg == 0
    case Unsub(l, stage) => l in s.listeners && LReady(s.listeners[l], StageInstr<T>(stage))
    case StopOne(_, l, stage) => l in s.listeners && LReady(s.listeners[l], StageInstr<T>(stage))
    case LEntering(_, l) => l in s.listeners && s.listeners[l].barrier.CanEnter()
    case LCheck(_, l) => l in s.listeners
    case LSend(_, l) => l in s.listeners && (timers || s.listeners[l].chan.buf == [])
    case LOut(_, l) => l in s.listeners
    case Select => s.chan.buf != [] || s.chan.closed || s.cancelled
    case Done(_, _) => false
    case Gone => false
    case _ => true
  }

  /** The choice that lets a free thread go on. */
  ghost function ChoiceOf<T>(s: State<T>, pc: Pc<T>, timers: bool): Choice {
    match pc
    case Body(op) => if timers && op.WriteSync? then Timeout else Go
    case Sender(_) => if timers then Timeout else Go
    case LSend(_, _) => if timers then Timeout else Go
    case Select => if s.cancelled then Finish else Go
    case StopNext(sw) => RangeChoice(s, sw)
    case Next(job) => RangeChoice(s, job.sweep)
    case _ => Go
  }

  /** A Range can always yield another key or end. */
  ghost function RangeChoice<T>(s: State<T>, sw: Sweep): (c: Choice)
    ensures (c.Finish? && MayFinish(s, sw)) || (c.Pick? && MayVisit(s, sw, c.l))
  {
    if MayFinish(s, sw) then Finish
    else
      var l :| l in s.listeners && s.listeners[l].presence.Present? && s.listeners[l].born < sw.since && l !in sw.seen;
      Pick(l)
  }

  lemma FreeRead<T>(s: State<T>, t: Tid, pc: Pc<T>, timers: bool)
    requires Free(s, pc, timers) && IsReadPc(pc) && KindOk(t, pc)
    ensures var c := ChoiceOf(s, pc, timers); var line := ReadCode(s, t, pc, c);
            line.Some? && Ready(s, line.value.i) && (timers || !c.Timeout?)
  {
  }

  lemma FreeWorker<T>(s: State<T>, t: Tid, pc: Pc<T>, timers: bool)
    requires Free(s, pc, timers) && IsWorkerPc(pc)
    ensures var c := ChoiceOf(s, pc, timers); var line := WorkerCode(s, pc, c);
            line.Some? && Ready(s, line.value.i) && (timers || !c.Timeout?)
  {
  }

  lemma FreeStatus<T>(s: State<T>, t: Tid, pc: Pc<T>, timers: bool)
    requires Free(s, pc, timers) && !IsReadPc(pc) && !IsWorkerPc(pc)
    ensures var c := ChoiceOf(s, pc, timers); var line := StatusCode(s, pc, c);
            line.Some? && Ready(s, line.value.i) && (timers || !c.Timeout?)
  {
  }

  lemma FreeSteps<T>(s: State<T>, t: Tid, timers: bool)
    requires !s.panicked && t in s.procs && Free(s, s.procs[t], timers) && KindOk(t, s.procs[t])
    ensures CanStep(s, t, timers) || RestartWaits(s)
  {
    hide ReadCode, WorkerCode, StatusCode, Free, ChoiceOf, Ready, Faults, Exec;
    var pc := s.procs[t];
    if IsReadPc(pc) {
      FreeRead(s, t, pc, timers);
    } else if IsWorkerPc(pc) {
      FreeWorker(s, t, pc, timers);
    } else {
      FreeStatus(s, t, pc, timers);
    }
    assert Apply(s, Do(t, ChoiceOf(s, pc, timers))).Some?;
    if Restarts(s, Do(t, ChoiceOf(s, pc, timers))) { assert Restarts(s, Do(t, Go)); }
  }

  lemma FreeHere<T>(s: State<T>, t: Tid, timers: bool)
    requires !s.panicked && LocksOk(s) && t in s.procs && Free(s, s.procs[t], timers)
    ensures GoesOn(s, timers)
  {
    hide Free, Apply;
    OpenLocks(s, t, 0);
    FreeSteps(s, t, timers);
  }

  lemma LHolderAt<T>(s: State<T>, l: Lid)
    requires l in s.listeners && ListenerBarrierOk(s, l) && s.listeners[l].barrier.writer.Some?
    ensures StageOf(LHolder(s, l), l).Some? && !StageOf(LHolder(s, l), l).value.SEnter?
    ensures s.listeners[l].barrier.writer.value in s.procs
  {
    var w := s.listeners[l].barrier.writer.value;
    assert RoleOk(s.listeners[l].barrier, w, LRole(At(s, w), l));
  }

  lemma LReaderAt<T>(s: State<T>, l: Lid, r: Tid, timers: bool)
    requires l in s.listeners && ListenerBarrierOk(s, l) && r in s.listeners[l].barrier.readers
    requires timers || Emptied(s)
    ensures r in s.procs && Free(s, s.procs[r], timers)
  {
    assert RoleOk(s.listeners[l].barrier, r, LRole(At(s, r), l));
  }

  /** The thread stopping a listener can go on, or the worker writing to that listener can. */
  lemma ListenerUnblocks<T>(s: State<T>, l: Lid, timers: bool)
    requires !s.panicked && LocksOk(s) && l in s.listeners && s.listeners[l].barrier.writer.Some?
    requires timers || Emptied(s)
    ensures GoesOn(s, timers)
  {
    hide LocksOk, GoesOn;
    var w := s.listeners[l].barrier.writer.value;
    OpenLocks(s, w, l);
    LHolderAt(s, l);
    if StageOf(LHolder(s, l), l).value.SDrain? && s.listeners[l].barrier.readers != {} {
      var r :| r in s.listeners[l].barrier.readers;
      LReaderAt(s, l, r, timers);
      FreeHere(s, r, timers);
    } else {
      FreeHere(s, w, timers);
    }
  }

  /** The thread waits to send on the broadcaster's channel. */
  ghost predicate WaitsToSend<T>(s: State<T>, pc: Pc<T>) {
    s.chan.buf != [] && (pc.Sender? || (pc.Body? && pc.op.WriteSync?))
  }

  /** A thread inside can go on, or waits for the mutex of a listener. */
  lemma InnerSteps<T>(s: State<T>, t: Tid, timers: bool)
    requires !s.panicked && LocksOk(s) && t in s.procs && !Rests(s, t) && (timers || Emptied(s))
    requires !s.procs[t].Enter? && !s.procs[t].Await? && !s.procs[t].Drain? && !s.procs[t].StopWait?
    requires timers || !WaitsToSend(s, s.procs[t])
    ensures GoesOn(s, timers)
  {
    hide LocksOk, GoesOn, LRole, BRole;
    OpenLocks(s, t, 0);
    if Free(s, s.procs[t], timers) {
      FreeHere(s, t, timers);
    } else {
      var l := s.procs[t].l;
      OpenLocks(s, t, l);
      StageWriter(s, t, l);
      ListenerUnblocks(s, l, timers);
    }
  }

  /** A message in the channel is received: the worker is there, and comes back to receive. */
  lemma WorkerReceives<T>(s: State<T>)
    requires !s.panicked && SafeInv(s) && Unhindered(s) && s.chan.buf != [] && s.barrier.started
    ensures GoesOn(s, false)
  {
    hide LocksOk, GoesOn, PcOk, ClosedOk, Emptied, WorkerLive;
    var w := Worker(s.log.worker.value);
    OpenLocks(s, w, 0);
    WorkerThere(s, w);
    hide SafeInv;
    InnerSteps(s, w, false);
  }

  lemma WorkerThere<T>(s: State<T>, w: Tid)
    requires w.Worker? && w in s.procs && KindOk(w, s.procs[w]) && ExitOk(s) && !s.cancelled && s.chan.buf != []
    ensures !Rests(s, w) && IsWorkerPc(s.procs[w]) && !WaitsToSend(s, s.procs[w])
  {
    var n := w.n;
    assert Worker(n) in s.procs;
  }

  /** The same for any thread: one that waits to send is served by the worker. */
  lemma ThreadSteps<T>(s: State<T>, t: Tid, timers: bool)
    requires !s.panicked && SafeInv(s) && t in s.procs && !Rests(s, t) && (timers || Unhindered(s))
    requires !s.procs[t].Enter? && !s.procs[t].Await? && !s.procs[t].Drain? && !s.procs[t].StopWait?
    ensures GoesOn(s, timers)
  {
    hide LocksOk, LifeOk, WorkersOk, PcOk, ClosedOk, GoesOn, Emptied, ExitOk, Rests;
    if !timers && WaitsToSend(s, s.procs[t]) {
      SendersInside(s, t);
      hide SafeInv;
      WorkerReceives(s);
    } else {
      InnerSteps(s, t, timers);
    }
  }

  lemma SendersInside<T>(s: State<T>, t: Tid)
    requires SafeInv(s) && t in s.procs && WaitsToSend(s, s.procs[t])
    ensures s.barrier.started
  {
    hide LocksOk, LifeOk, WorkersOk, ClosedOk;
    assert PcOk(s, At(s, t));
  }

  lemma StageWriter<T>(s: State<T>, t: Tid, l: Lid)
    requires l in s.listeners && t in s.procs && RoleOk(s.listeners[l].barrier, t, LRole(At(s, t), l))
    ensures StageOf(At(s, t), l) == Some(SDrain) ==> s.listeners[l].barrier.writer == Some(t)
  {
  }

  lemma ReaderAt<T>(s: State<T>, r: Tid)
    requires BarrierOk(s) && r in s.barrier.readers
    ensures r in s.procs && !Rests(s, r)
    ensures !s.procs[r].Enter? && !s.procs[r].Await? && !s.procs[r].Drain? && !s.procs[r].StopWait?
  {
    assert RoleOk(s.barrier, r, BRole(At(s, r)));
  }

  lemma HolderAt<T>(s: State<T>)
    requires BarrierOk(s) && s.barrier.writer.Some?
    ensures s.barrier.writer.value in s.procs && !Rests(s, s.barrier.writer.value)
    ensures !Holder(s).Enter? && !Holder(s).Await?
    ensures Holder(s) == s.procs[s.barrier.writer.value]
  {
    assert RoleOk(s.barrier, s.barrier.writer.value, BRole(Holder(s)));
  }

  /** Stop waits for the worker only while the worker lives, and has cancelled it. */
  lemma WaitedFor<T>(s: State<T>)
    requires SafeInv(s) && Holder(s).StopWait? && s.wg != 0
    ensures s.cancelled && WorkerLive(s)
    ensures Worker(s.log.worker.value) in s.procs
            && KindOk(Worker(s.log.worker.value), s.procs[Worker(s.log.worker.value)])
  {
    hide LocksOk, PcOk, ClosedOk;
    OpenLocks(s, Worker(s.log.worker.value), 0);
  }

  /** The lock order: whoever holds the broadcaster's barrier, or waits for it to drain, is not waited for in vain. */
  lemma WriterSteps<T>(s: State<T>, timers: bool)
    requires !s.panicked && SafeInv(s) && s.barrier.writer.Some? && (timers || Unhindered(s))
    ensures GoesOn(s, timers)
  {
    hide LocksOk, GoesOn, LifeOk, WorkersOk, PcOk, ClosedOk, BarrierOk;
    var w := s.barrier.writer.value;
    OpenLocks(s, w, 0);
    HolderAt(s);
    if Holder(s).Drain? && s.barrier.readers != {} {
      var r :| r in s.barrier.readers;
      ReaderAt(s, r);
      ThreadSteps(s, r, timers);
    } else if Holder(s).Drain? || (Holder(s).StopWait? && s.wg == 0) {
      FreeHere(s, w, timers);
    } else if Holder(s).StopWait? {
      WaitedFor(s);
      ThreadSteps(s, Worker(s.log.worker.value), timers);
    } else {
      ThreadSteps(s, w, timers);
    }
  }

  /** Whenever some thread is not at rest, some thread can go on; without cancellation, and with the users
      receiving, no timer is needed for it. */
  lemma NoDeadlock<T>(s: State<T>, t: Tid, timers: bool)
    requires !s.panicked && SafeInv(s) && !Rests(s, t) && (timers || Unhindered(s))
    ensures GoesOn(s, timers)
  {
    hide LocksOk, GoesOn, LifeOk, WorkersOk, PcOk, ClosedOk, BarrierOk, BRole, Free;
    OpenLocks(s, t, 0);
    if s.barrier.writer.Some? {
      WriterSteps(s, timers);
    } else if At(s, t).Enter? || At(s, t).Await? {
      assert Free(s, s.procs[t], timers) by { FreeEntry(s, s.procs[t], timers); }
      FreeHere(s, t, timers);
    } else {
      NotWaiting(s, t);
      ThreadSteps(s, t, timers);
    }
  }

  lemma FreeEntry<T>(s: State<T>, pc: Pc<T>, timers: bool)
    requires s.barrier.writer.None? && (pc.Enter? || pc.Await?)
    ensures Free(s, pc, timers)
  {
  }

  lemma NotWaiting<T>(s: State<T>, t: Tid)
    requires s.barrier.writer.None? && RoleOk(s.barrier, t, BRole(At(s, t)))
    ensures !At(s, t).Drain? && !At(s, t).StopWait?
  {
  }
}
