/** Which attempts to write to a listener the worker makes, and what the listener gets. */
module BroadcasterDelivery {
  import opened Wrappers
  import opened StatusBarrier
  import opened Broadcaster
  import opened BroadcasterCode
  import opened BroadcasterLocks
  import opened BroadcasterSafety
  import opened BroadcasterPresence

  function WorkerPc<T>(s: State<T>): Pc<T> {
    if s.log.worker.Some? then At(s, Worker(s.log.worker.value)) else Gone
  }

  /** The message the worker is handing out. */
  function JobOf<T>(pc: Pc<T>): Option<Job<T>> {
    match pc
    case Next(job) => Some(job)
    case Visit(job, _) => Some(job)
    case LEntering(job, _) => Some(job)
    case LCheck(job, _) => Some(job)
    case LSend(job, _) => Some(job)
    case LOut(job, _) => Some(job)
    case _ => None
  }

  /** Range has yielded `l` and the write to it has not ended. */
  predicate Trying<T>(pc: Pc<T>, l: Lid) { (pc.Visit? || pc.LEntering? || pc.LCheck? || pc.LSend?) && pc.l == l }

  /** The write of the current message to `l` has ended. */
  predicate Tried<T>(pc: Pc<T>, l: Lid) {
    JobOf(pc).Some? && l in JobOf(pc).value.sweep.seen && !Trying(pc, l)
  }

  // ---------- sequences of attempts ----------

  ghost predicate Below(ts: seq<Try>, n: nat) { forall a :: 0 <= a < |ts| ==> ts[a].idx < n }

  ghost predicate Increasing(ts: seq<Try>) { forall a, b :: 0 <= a < b < |ts| ==> ts[a].idx < ts[b].idx }

  ghost predicate HasTry(ts: seq<Try>, k: nat) { exists a :: 0 <= a < |ts| && ts[a].idx == k }

  /** What the attempts put into the listener's channel. */
  function Content<T>(ts: seq<Try>, deq: seq<Msg<T>>): seq<Msg<T>>
    requires Below(ts, |deq|)
  {
    if ts == [] then []
    else
      var n := |ts| - 1;
      Content(ts[..n], deq) + (if ts[n].outcome.Delivered? then [deq[ts[n].idx]] else [])
  }

  lemma {:induction false} ContentGrows<T>(ts: seq<Try>, deq: seq<Msg<T>>, m: Msg<T>)
    requires Below(ts, |deq|)
    ensures Content(ts, deq + [m]) == Content(ts, deq)
  {
    if ts != [] { ContentGrows(ts[..|ts| - 1], deq, m); }
  }

  lemma ContentPush<T>(ts: seq<Try>, deq: seq<Msg<T>>, y: Try)
    requires Below(ts, |deq|) && y.idx < |deq|
    ensures Content(ts + [y], deq) == Content(ts, deq) + if y.outcome.Delivered? then [deq[y.idx]] else []
  {
    assert (ts + [y])[..|ts|] == ts;
  }

  // ---------- the invariant ----------

  ghost predicate JobInv<T>(s: State<T>, pc: Pc<T>) {
    && (pc.Received? ==> pc.idx + 1 == |s.log.deq| && s.log.deq[pc.idx] == pc.m && InRound(s, pc.idx))
    && (JobOf(pc).Some? ==>
          var job := JobOf(pc).value;
          && job.idx + 1 == |s.log.deq| && s.log.deq[job.idx] == job.msg && InRound(s, job.idx)
          && job.sweep.since < s.log.clock && job.sweep.seen <= s.listeners.Keys)
    && (forall l :: Trying(pc, l) ==> l in JobOf(pc).value.sweep.seen)
  }

  ghost predicate InRound<T>(s: State<T>, k: nat) { k in s.log.rounds && s.log.rounds[k].Running? }

  /** The listener's key was in the map at some moment after `since`. */
  ghost predicate WasIn<T>(x: Listener<T>, since: nat) { x.presence.Present? || x.presence.at > since }

  /** The listener's key was in the map from before `since` until after `till`. */
  ghost predicate Throughout<T>(x: Listener<T>, since: nat, till: nat) {
    x.born < since && (x.presence.Present? || x.presence.at > till)
  }

  ghost predicate TriesOk<T>(x: Listener<T>, deq: seq<Msg<T>>) {
    && |x.chan.buf| <= 1 && Increasing(x.tries) && Below(x.tries, |deq|)
    && x.taken + x.chan.buf == Content(x.tries, deq)
  }

  ghost predicate NowOk<T>(x: Listener<T>, pc: Pc<T>, l: Lid) {
    && (pc.Received? ==> Below(x.tries, pc.idx))
    && (JobOf(pc).Some? ==>
          var job := JobOf(pc).value;
          && (if Tried(pc, l) then x.tries != [] && x.tries[|x.tries| - 1].idx == job.idx
              else Below(x.tries, job.idx))
          && (l in job.sweep.seen ==> WasIn(x, job.sweep.since)))
  }

  ghost predicate TimeOk<T>(x: Listener<T>, now: nat) {
    x.born < now && (x.presence.Removed? ==> x.presence.at < now)
  }

  /** The attempt on the `k`-th message found the listener stopped. */
  ghost predicate RefusedAt(ts: seq<Try>, k: nat) { exists a :: 0 <= a < |ts| && ts[a] == Try(k, Refused) }

  /** A Range that ran to its end made one attempt on every listener it had to, and only on those it might; it
      was refused only by one taken out of the map before it ended. */
  ghost predicate FinishedOk<T>(x: Listener<T>, k: nat, since: nat, till: nat) {
    && (Throughout(x, since, till) ==> HasTry(x.tries, k))
    && (HasTry(x.tries, k) ==> WasIn(x, since) && x.born < till)
    && (RefusedAt(x.tries, k) ==> x.presence.Removed? && x.presence.at < till)
  }

  ghost predicate RoundOk<T>(s: State<T>, k: nat)
    requires k in s.log.rounds
  {
    match s.log.rounds[k]
    case Running => k + 1 == |s.log.deq| && (WorkerPc(s).Received? || JobOf(WorkerPc(s)).Some?)
    case Cut => s.cancelled
    case Finished(since, till) =>
      since < till < s.log.clock && forall l :: l in s.listeners ==> FinishedOk(s.listeners[l], k, since, till)
  }

  ghost predicate DeliveryInv<T>(s: State<T>) {
    && JobInv(s, WorkerPc(s))
    && (forall l :: l in s.listeners ==>
          TriesOk(s.listeners[l], s.log.deq) && NowOk(s.listeners[l], WorkerPc(s), l)
            && TimeOk(s.listeners[l], s.log.clock))
    && (forall k :: k in s.log.rounds <==> 0 <= k < |s.log.deq|)
    && (forall k :: k in s.log.rounds ==> RoundOk(s, k))
  }

  // ---------- the worker ----------

  lemma WorkerPcAfter<T>(s: State<T>, t: Tid, i: Instr<T>, q: Pc<T>)
    requires WorkersOk(s) && Firing(s, t, i, q) && (i.GoWorker? ==> s.log.worker.None?)
    ensures t.Worker? ==> WorkerPc(s) == At(s, t) && WorkerPc(Exec(s, t, i, q)) == q
    ensures !t.Worker? ==> WorkerPc(Exec(s, t, i, q)) == if i.GoWorker? then Select else WorkerPc(s)
    ensures i.GoWorker? ==> WorkerPc(s).Gone?
  {
    hide Executes, Arrives, Moves, Ready, Faults, RoundsAfter, ListenersAfter, ChanAfter, BarrierAfter, ProcsAfter;
    Others(s, t, i, q);
  }

  lemma WorkerIs<T>(s: State<T>, t: Tid)
    requires WorkersOk(s) && t in s.procs && t.Worker?
    ensures WorkerPc(s) == s.procs[t]
  {
  }

  lemma SpawnsFirst<T>(s: State<T>, t: Tid, i: Instr<T>, q: Pc<T>)
    requires SafeInv(s) && Firing(s, t, i, q) && i.GoWorker?
    ensures s.log.worker.None?
  {
    hide LocksOk, WorkersOk, PcOk, ClosedOk, Arrives, Moves, ExecutesOn;
    OpenLocks(s, t, 0);
  }

  /** The lines of the worker, as far as its job is concerned. */
  ghost predicate WMove<T>(s: State<T>, pc: Pc<T>, i: Instr<T>, q: Pc<T>) {
    match i
    case Recv => pc.Select? && q == Received(|s.log.deq|, Front(s.chan))
    case RangeBegin => pc.Received? && q == Next(Job(pc.idx, pc.m, Sweep(s.log.clock, {})))
    case RangeEnd(k, since) =>
      pc.Next? && q.Select? && k == pc.job.idx && since == pc.job.sweep.since && MayFinish(s, pc.job.sweep)
    case RangeCut(k) => pc.Visit? && q.Select? && k == pc.job.idx && s.cancelled
    case Nop =>
      || (pc.Next? && q.Visit? && MayVisit(s, pc.job.sweep, q.l) &&
          q.job == pc.job.(sweep := pc.job.sweep.(seen := pc.job.sweep.seen + {q.l})))
      || SameJob(pc, q)
    case On(l, li) =>
      if li.LPush? then pc.LSend? && l == pc.l && li == LPush(pc.job.idx, pc.job.msg) && q == LOut(pc.job, l)
      else if li.LRecord? then
        (pc.LSend? || pc.LCheck?) && l == pc.l && li.i == pc.job.idx && !li.outcome.Delivered? && q == LOut(pc.job, l)
      else SameJob(pc, q)
    case WgDone => SameJob(pc, q)
    case _ => false
  }

  ghost predicate SameJob<T>(pc: Pc<T>, q: Pc<T>) {
    JobOf(q) == JobOf(pc) && !pc.Received? && !q.Received? && (forall l :: Trying(q, l) == Trying(pc, l))
  }

  lemma WorkerMove<T>(s: State<T>, t: Tid, i: Instr<T>, q: Pc<T>)
    requires t in s.procs && t.Worker? && KindOk(t, s.procs[t])
    requires Executes(s, t, s.procs[t], i) && Arrives(s, t, s.procs[t], i, q)
    ensures WMove(s, s.procs[t], i, q)
  {
    hide Executes, Arrives, WMove, KindOk;
    if s.procs[t].LSend? || s.procs[t].LCheck? {
      AttemptMove(s, t, i, q);
    } else if s.procs[t].Next? || s.procs[t].Visit? {
      RangeMove(s, t, i, q);
    } else {
      IsWorker(t, s.procs[t], i, s);
      OtherMove(s, t, i, q);
    }
  }

  lemma IsWorker<T>(t: Tid, pc: Pc<T>, i: Instr<T>, s: State<T>)
    requires t.Worker? && KindOk(t, pc) && Executes(s, t, pc, i)
    ensures IsWorkerPc(pc)
  {
  }

  lemma RangeMove<T>(s: State<T>, t: Tid, i: Instr<T>, q: Pc<T>)
    requires t in s.procs && (s.procs[t].Next? || s.procs[t].Visit?)
    requires Executes(s, t, s.procs[t], i) && Arrives(s, t, s.procs[t], i, q)
    ensures WMove(s, s.procs[t], i, q)
  {
    hide MayVisit, MayFinish, InMap, ListenerStopped, StageNext, Front;
  }

  lemma OtherMove<T>(s: State<T>, t: Tid, i: Instr<T>, q: Pc<T>)
    requires t in s.procs && IsWorkerPc(s.procs[t])
    requires !s.procs[t].LSend? && !s.procs[t].LCheck? && !s.procs[t].Next? && !s.procs[t].Visit?
    requires Executes(s, t, s.procs[t], i) && Arrives(s, t, s.procs[t], i, q)
    ensures WMove(s, s.procs[t], i, q)
  {
    hide Executes, Arrives, WMove;
    if s.procs[t].LEntering? || s.procs[t].LOut? {
      ListenerMove(s, t, i, q);
    } else {
      MainMove(s, t, i, q);
    }
  }

  lemma AttemptMove<T>(s: State<T>, t: Tid, i: Instr<T>, q: Pc<T>)
    requires t in s.procs && (s.procs[t].LSend? || s.procs[t].LCheck?)
    requires Executes(s, t, s.procs[t], i) && Arrives(s, t, s.procs[t], i, q)
    ensures WMove(s, s.procs[t], i, q)
  {
    hide MayVisit, MayFinish, InMap, ListenerStopped, StageNext, Front;
  }

  lemma ListenerMove<T>(s: State<T>, t: Tid, i: Instr<T>, q: Pc<T>)
    requires t in s.procs && (s.procs[t].LEntering? || s.procs[t].LOut?)
    requires Executes(s, t, s.procs[t], i) && Arrives(s, t, s.procs[t], i, q)
    ensures WMove(s, s.procs[t], i, q)
  {
    hide MayVisit, MayFinish, InMap, ListenerStopped, StageNext, Front;
  }

  lemma MainMove<T>(s: State<T>, t: Tid, i: Instr<T>, q: Pc<T>)
    requires t in s.procs && IsWorkerPc(s.procs[t]) && !IsListenerPc(s.procs[t]) && !s.procs[t].Next?
    requires Executes(s, t, s.procs[t], i) && Arrives(s, t, s.procs[t], i, q)
    ensures WMove(s, s.procs[t], i, q)
  {
    hide MayVisit, MayFinish, InMap, ListenerStopped, StageNext, Front, ExecutesOn;
  }

  /** The instructions only the worker executes. */
  ghost predicate WorkerOnly<T>(i: Instr<T>) {
    i.Recv? || i.RangeEnd? || i.RangeCut? || i.WgDone? || (i.On? && (i.li.LPush? || i.li.LRecord?))
  }

  lemma CallerMove<T>(s: State<T>, t: Tid, i: Instr<T>, q: Pc<T>)
    requires t in s.procs && !t.Worker? && KindOk(t, s.procs[t]) && Executes(s, t, s.procs[t], i)
    ensures !WorkerOnly(i)
  {
  }

  // ---------- one listener ----------

  lemma CallerFields<T>(x: Listener<T>, l: Lid, t: Tid, i: Instr<T>, now: nat)
    requires !WorkerOnly(i)
    ensures var y := ListenerAfter(x, l, t, i, now);
            && y.tries == x.tries && y.taken == x.taken && y.chan.buf == x.chan.buf && y.born == x.born
            && (y.presence == x.presence || (i.Delete? && y.presence.Removed? && y.presence.at == now))
  {
  }

  /** A step of a call, or of the goroutine of a Write call, makes no attempt. */
  lemma ListenerStepCaller<T>(x: Listener<T>, l: Lid, t: Tid, i: Instr<T>, now: nat, now': nat, deq: seq<Msg<T>>,
                              pc: Pc<T>)
    requires TriesOk(x, deq) && NowOk(x, pc, l) && TimeOk(x, now) && !WorkerOnly(i)
    requires now <= now' && (i.Delete? ==> now < now')
    requires JobOf(pc).Some? ==> JobOf(pc).value.sweep.since < now
    ensures var y := ListenerAfter(x, l, t, i, now); TriesOk(y, deq) && NowOk(y, pc, l) && TimeOk(y, now')
  {
    hide ListenerAfter, LAfter, WorkerOnly, Content, Below, Increasing, Tried;
    CallerFields(x, l, t, i, now);
  }

  /** An attempt ends: it is recorded after all the earlier ones. */
  lemma RecordStep<T>(x: Listener<T>, job: Job<T>, t: Tid, li: LInstr<T>, deq: seq<Msg<T>>)
    requires TriesOk(x, deq) && Below(x.tries, job.idx)
    requires job.idx < |deq| && deq[job.idx] == job.msg
    requires (li == LPush(job.idx, job.msg) && x.chan.buf == []) ||
             (li.LRecord? && li.i == job.idx && !li.outcome.Delivered?)
    ensures var y := LAfter(x, t, li);
            && TriesOk(y, deq) && y.tries != [] && y.tries[|y.tries| - 1].idx == job.idx
            && y.born == x.born && y.presence == x.presence
  {
    var y := LAfter(x, t, li);
    ContentPush(x.tries, deq, Try(job.idx, if li.LPush? then Outcome.Delivered else li.outcome));
    if li.LPush? {
      assert x.taken + [li.m] == y.taken + y.chan.buf;
      assert x.taken == x.taken + x.chan.buf;
    } else {
      assert Content(x.tries, deq) + [] == Content(x.tries, deq);
    }
  }

  /** The worker receives: the attempts so far are on earlier messages. */
  lemma RecvStep<T>(x: Listener<T>, l: Lid, now: nat, deq: seq<Msg<T>>, m: Msg<T>)
    requires TriesOk(x, deq) && TimeOk(x, now)
    ensures TriesOk(x, deq + [m]) && NowOk(x, Received(|deq|, m), l)
  {
    ContentGrows(x.tries, deq, m);
  }

  /** What a line without an attempt does to the state of the current Range. */
  lemma NowStep<T>(s: State<T>, x: Listener<T>, pc: Pc<T>, i: Instr<T>, q: Pc<T>, l: Lid)
    requires l in s.listeners && x == s.listeners[l] && WMove(s, pc, i, q) && JobInv(s, pc)
    requires NowOk(x, pc, l) && TimeOk(x, s.log.clock) && !i.Recv? && (i.On? ==> !i.li.LPush? && !i.li.LRecord?)
    ensures NowOk(x, q, l)
  {
    hide MayFinish, InRound;
    if SameJob(pc, q) {
      hide WMove, JobInv, MayVisit;
      NowSameJob(x, pc, q, l);
    }
  }

  lemma NowSameJob<T>(x: Listener<T>, pc: Pc<T>, q: Pc<T>, l: Lid)
    requires NowOk(x, pc, l) && SameJob(pc, q)
    ensures NowOk(x, q, l)
  {
    hide Trying, JobOf, Below, WasIn;
    assert Trying(q, l) == Trying(pc, l);
  }

  lemma ListenerStepWorker<T>(s: State<T>, t: Tid, i: Instr<T>, q: Pc<T>, l: Lid)
    requires l in s.listeners && t in s.procs && WMove(s, s.procs[t], i, q) && Ready(s, i)
    requires TriesOk(s.listeners[l], s.log.deq) && NowOk(s.listeners[l], s.procs[t], l)
             && TimeOk(s.listeners[l], s.log.clock)
    requires JobInv(s, s.procs[t])
    ensures var y := ListenerAfter(s.listeners[l], l, t, i, s.log.clock); var g := LogAfter(s.log, s.chan, t, i);
            TriesOk(y, g.deq) && NowOk(y, q, l) && TimeOk(y, g.clock)
  {
    hide RoundsAfter, InRound, MayFinish, TriesOk, NowOk, Below, LAfter;
    var x, pc := s.listeners[l], s.procs[t];
    if i.Recv? {
      RecvStep(x, l, s.log.clock, s.log.deq, Front(s.chan));
    } else if i.On? && (i.li.LPush? || i.li.LRecord?) {
      if i.l == l {
        Untried(x, pc, l);
        RecordStep(x, pc.job, t, i.li, s.log.deq);
        NowRecorded(x, LAfter(x, t, i.li), pc, l);
      } else {
        NowOther(x, pc, q, l);
      }
    } else {
      QuietStep(x, l, t, i, s.log.clock, s.log.deq);
      NowStep(s, x, pc, i, q, l);
      NowSame(x, ListenerAfter(x, l, t, i, s.log.clock), q, l);
    }
  }

  lemma Untried<T>(x: Listener<T>, pc: Pc<T>, l: Lid)
    requires NowOk(x, pc, l) && (pc.LSend? || pc.LCheck?) && pc.l == l
    ensures Below(x.tries, pc.job.idx)
  {
  }

  lemma NowRecorded<T>(x: Listener<T>, y: Listener<T>, pc: Pc<T>, l: Lid)
    requires NowOk(x, pc, l) && (pc.LSend? || pc.LCheck?) && pc.l == l && l in pc.job.sweep.seen
    requires y.tries != [] && y.tries[|y.tries| - 1].idx == pc.job.idx && y.presence == x.presence
    ensures NowOk(y, LOut(pc.job, l), l)
  {
  }

  lemma NowOther<T>(x: Listener<T>, pc: Pc<T>, q: Pc<T>, l: Lid)
    requires NowOk(x, pc, l) && (pc.LSend? || pc.LCheck?) && pc.l != l && q == LOut(pc.job, pc.l)
    ensures NowOk(x, q, l)
  {
  }

  lemma NowSame<T>(x: Listener<T>, y: Listener<T>, q: Pc<T>, l: Lid)
    requires NowOk(x, q, l) && y.tries == x.tries && y.presence == x.presence
    ensures NowOk(y, q, l)
  {
  }

  lemma QuietStep<T>(x: Listener<T>, l: Lid, t: Tid, i: Instr<T>, now: nat, deq: seq<Msg<T>>)
    requires TriesOk(x, deq) && (i.On? ==> !i.li.LPush? && !i.li.LRecord?) && !i.Delete?
    ensures var y := ListenerAfter(x, l, t, i, now);
            TriesOk(y, deq) && y.tries == x.tries && y.born == x.born && y.presence == x.presence
  {
  }

  // ---------- the current job and the rounds ----------

  lemma JobStepWorker<T>(s: State<T>, t: Tid, i: Instr<T>, q: Pc<T>)
    requires t in s.procs && WMove(s, s.procs[t], i, q) && JobInv(s, s.procs[t]) && SpawnsOk(s, t, i)
    requires i.RangeBegin? ==> s.procs[t].Received?
    ensures JobInv(Exec(s, t, i, q), q)
  {
    hide MayFinish, ChanAfter, BarrierAfter, ListenersAfter, ProcsAfter, WgAfter, ListenerAfter, SpawnsOk;
    ListenersAre(s, t, i, q);
    if i.Nop? || i.On? || i.WgDone? {
      assert Exec(s, t, i, q).log.rounds == s.log.rounds && Exec(s, t, i, q).log.deq == s.log.deq;
      assert Exec(s, t, i, q).log.clock == s.log.clock;
      hide Exec;
      JobGoesOn(s, s.procs[t], i, q, Exec(s, t, i, q));
    }
  }

  /** The log of jobs and the time are the same, the listeners no fewer. */
  ghost predicate SameTime<T>(s: State<T>, z: State<T>) {
    && z.log.rounds == s.log.rounds && z.log.deq == s.log.deq && z.log.clock == s.log.clock
    && s.listeners.Keys <= z.listeners.Keys
  }

  lemma JobGoesOn<T>(s: State<T>, pc: Pc<T>, i: Instr<T>, q: Pc<T>, z: State<T>)
    requires WMove(s, pc, i, q) && JobInv(s, pc) && (i.Nop? || i.On? || i.WgDone?) && SameTime(s, z)
    ensures JobInv(z, q)
  {
    if i.Nop? && !SameJob(pc, q) {
      JobVisit(s, pc, i, q, z);
    } else {
      MoveKeepsJob(s, pc, i, q);
      hide WMove, MayFinish, MayVisit;
      JobSame(s, pc, q, z);
    }
  }

  lemma MoveKeepsJob<T>(s: State<T>, pc: Pc<T>, i: Instr<T>, q: Pc<T>)
    requires WMove(s, pc, i, q) && (i.Nop? || i.On? || i.WgDone?) && (i.Nop? ==> SameJob(pc, q))
    ensures JobOf(q) == JobOf(pc) && !q.Received? && forall l :: Trying(q, l) ==> Trying(pc, l)
  {
    hide MayFinish, MayVisit;
  }

  lemma JobSame<T>(s: State<T>, pc: Pc<T>, q: Pc<T>, z: State<T>)
    requires JobInv(s, pc) && SameTime(s, z)
    requires JobOf(q) == JobOf(pc) && !q.Received? && forall l :: Trying(q, l) ==> Trying(pc, l)
    ensures JobInv(z, q)
  {
    hide JobOf, Trying;
  }

  lemma JobVisit<T>(s: State<T>, pc: Pc<T>, i: Instr<T>, q: Pc<T>, z: State<T>)
    requires WMove(s, pc, i, q) && JobInv(s, pc) && i.Nop? && SameTime(s, z) && !SameJob(pc, q)
    ensures JobInv(z, q)
  {
    hide MayFinish;
  }

  lemma JobStepCaller<T>(s: State<T>, t: Tid, i: Instr<T>, q: Pc<T>, pc: Pc<T>)
    requires JobInv(s, pc) && !WorkerOnly(i) && SpawnsOk(s, t, i)
    ensures JobInv(Exec(s, t, i, q), pc)
  {
    hide ChanAfter, BarrierAfter, ListenersAfter, ProcsAfter, WgAfter;
    ListenersAre(s, t, i, q);
  }

  /** What was established when a Range ended stays true of a listener. */
  lemma FinishedStays<T>(x: Listener<T>, l: Lid, t: Tid, i: Instr<T>, now: nat, k: nat, since: nat, till: nat)
    requires FinishedOk(x, k, since, till) && since < till < now
    requires i.Delete? && i.l == l ==> x.presence.Present?
    requires i.On? && i.l == l && (i.li.LPush? || i.li.LRecord?) ==> i.li.i != k
    ensures FinishedOk(ListenerAfter(x, l, t, i, now), k, since, till)
  {
    var y := ListenerAfter(x, l, t, i, now);
    TryStays(x, l, t, i, now, k);
    hide HasTry, RefusedAt;
    assert y.born == x.born && (y.presence == x.presence || (x.presence.Present? && y.presence == Removed(now, t)));
  }

  lemma TryStays<T>(x: Listener<T>, l: Lid, t: Tid, i: Instr<T>, now: nat, k: nat)
    requires i.On? && i.l == l && (i.li.LPush? || i.li.LRecord?) ==> i.li.i != k
    ensures HasTry(ListenerAfter(x, l, t, i, now).tries, k) <==> HasTry(x.tries, k)
    ensures RefusedAt(ListenerAfter(x, l, t, i, now).tries, k) <==> RefusedAt(x.tries, k)
  {
    var y := ListenerAfter(x, l, t, i, now);
    assert || y.tries == x.tries
           || (|y.tries| == |x.tries| + 1 && y.tries[..|x.tries|] == x.tries && y.tries[|x.tries|].idx != k);
    hide ListenerAfter;
    MoreTries(x.tries, y.tries, k);
  }

  lemma MoreTries(ts: seq<Try>, us: seq<Try>, k: nat)
    requires us == ts || (|us| == |ts| + 1 && us[..|ts|] == ts && us[|ts|].idx != k)
    ensures HasTry(us, k) <==> HasTry(ts, k)
    ensures RefusedAt(us, k) <==> RefusedAt(ts, k)
  {
    assert forall a :: 0 <= a < |ts| ==> us[a] == ts[a];
  }

  /** When a Range ends, it has made the attempts it had to. */
  lemma FinishedNow<T>(s: State<T>, pc: Pc<T>, l: Lid)
    requires l in s.listeners && pc.Next? && MayFinish(s, pc.job.sweep)
    requires NowOk(s.listeners[l], pc, l) && TimeOk(s.listeners[l], s.log.clock) && RefusedOk(s.listeners[l])
    ensures FinishedOk(s.listeners[l], pc.job.idx, pc.job.sweep.since, s.log.clock)
  {
  }

  lemma NewFinished<T>(born: nat, k: nat, since: nat, till: nat)
    requires since < born
    ensures FinishedOk(NewListener<T>(born), k, since, till)
  {
  }

  /** The rounds already over, after a step that does not touch them. */
  lemma OldRound<T>(s: State<T>, t: Tid, i: Instr<T>, q: Pc<T>, k: nat)
    requires k in s.log.rounds && s.log.rounds[k].Finished? && RoundOk(s, k) && SpawnsOk(s, t, i)
    requires i.Delete? ==> InMap(s, i.l)
    requires i.On? && (i.li.LPush? || i.li.LRecord?) ==> i.li.i != k
    ensures var z := Exec(s, t, i, q); var f := s.log.rounds[k];
            f.since < f.till < z.log.clock && forall l :: l in z.listeners ==>
              FinishedOk(z.listeners[l], k, f.since, f.till)
  {
    hide ChanAfter, BarrierAfter, ListenersAfter, ListenerAfter, ProcsAfter, WgAfter, FinishedOk, RoundsAfter;
    var z, f := Exec(s, t, i, q), s.log.rounds[k];
    ListenersAre(s, t, i, q);
    forall l | l in z.listeners ensures FinishedOk(z.listeners[l], k, f.since, f.till) {
      if l in s.listeners {
        FinishedStays(s.listeners[l], l, t, i, s.log.clock, k, f.since, f.till);
      } else {
        NewFinished<T>(s.log.clock, k, f.since, f.till);
      }
    }
  }

  lemma RoundStepCaller<T>(s: State<T>, t: Tid, i: Instr<T>, q: Pc<T>, k: nat)
    requires k in s.log.rounds && RoundOk(s, k) && !WorkerOnly(i) && SpawnsOk(s, t, i)
    requires i.Delete? ==> InMap(s, i.l)
    requires WorkerPc(Exec(s, t, i, q)) == WorkerPc(s) || !(WorkerPc(s).Received? || JobOf(WorkerPc(s)).Some?)
    ensures k in Exec(s, t, i, q).log.rounds && RoundOk(Exec(s, t, i, q), k)
  {
    hide ChanAfter, BarrierAfter, ListenersAfter, ProcsAfter, WgAfter, FinishedOk, WorkerPc;
    if s.log.rounds[k].Finished? { OldRound(s, t, i, q, k); }
  }

  /** The Range that ends with this line, or is cut short by it. */
  lemma RoundEnds<T>(s: State<T>, t: Tid, i: Instr<T>, q: Pc<T>)
    requires t in s.procs && WMove(s, s.procs[t], i, q) && JobInv(s, s.procs[t]) && SpawnsOk(s, t, i)
    requires i.RangeEnd? || i.RangeCut?
    requires forall l :: l in s.listeners ==>
             NowOk(s.listeners[l], s.procs[t], l) && TimeOk(s.listeners[l], s.log.clock)
    requires forall l :: l in s.listeners ==> RefusedOk(s.listeners[l])
    ensures i.i in Exec(s, t, i, q).log.rounds && RoundOk(Exec(s, t, i, q), i.i)
  {
    hide ChanAfter, BarrierAfter, ProcsAfter, WgAfter, FinishedOk, WorkerPc, MayFinish, NowOk, RefusedOk;
    if i.RangeEnd? {
      forall l | l in s.listeners ensures FinishedOk(s.listeners[l], i.i, i.since, s.log.clock) {
        FinishedNow(s, s.procs[t], l);
      }
    }
  }

  /** The current Range goes on. */
  lemma RoundRuns<T>(s: State<T>, t: Tid, i: Instr<T>, q: Pc<T>, k: nat)
    requires t in s.procs && WMove(s, s.procs[t], i, q) && JobInv(s, s.procs[t])
    requires k in s.log.rounds && RoundOk(s, k) && s.log.rounds[k].Running? && WorkerPc(s) == s.procs[t]
    ensures (i.RangeEnd? || i.RangeCut?) ==> i.i == k
    ensures !(i.RangeEnd? || i.RangeCut?) ==> !i.Recv? && (q.Received? || JobOf(q).Some?)
  {
    hide MayFinish, WorkerPc, MayVisit;
    if i.Nop? || i.On? || i.WgDone? {
      hide JobInv;
      MoveKeepsWork(s, s.procs[t], i, q);
    } else {
      hide SameJob;
    }
  }

  lemma MoveKeepsWork<T>(s: State<T>, pc: Pc<T>, i: Instr<T>, q: Pc<T>)
    requires WMove(s, pc, i, q) && (i.Nop? || i.On? || i.WgDone?) && (pc.Received? || JobOf(pc).Some?)
    ensures JobOf(q).Some?
  {
    hide MayFinish, MayVisit;
  }

  lemma RoundStepWorker<T>(s: State<T>, t: Tid, i: Instr<T>, q: Pc<T>, k: nat)
    requires t in s.procs && WMove(s, s.procs[t], i, q) && JobInv(s, s.procs[t]) && SpawnsOk(s, t, i)
    requires WorkerPc(s) == s.procs[t] && WorkerPc(Exec(s, t, i, q)) == q
    requires forall l :: l in s.listeners ==>
             NowOk(s.listeners[l], s.procs[t], l) && TimeOk(s.listeners[l], s.log.clock)
    requires forall l :: l in s.listeners ==> RefusedOk(s.listeners[l])
    requires if k in s.log.rounds then k < |s.log.deq| && RoundOk(s, k) else i.Recv? && k == |s.log.deq|
    ensures k in Exec(s, t, i, q).log.rounds && RoundOk(Exec(s, t, i, q), k)
  {
    hide ChanAfter, BarrierAfter, ListenersAfter, ProcsAfter, WgAfter, FinishedOk, WorkerPc, MayFinish, NowOk, JobInv,
      RefusedOk;
    if (i.RangeEnd? || i.RangeCut?) && i.i == k {
      RoundEnds(s, t, i, q);
    } else if k in s.log.rounds {
      if s.log.rounds[k].Running? { RoundRuns(s, t, i, q, k); }
      if s.log.rounds[k].Finished? { NotTheJob(s, t, i, q, k); OldRound(s, t, i, q, k); }
    }
  }

  /** An attempt being recorded belongs to a Range that runs. */
  lemma NotTheJob<T>(s: State<T>, t: Tid, i: Instr<T>, q: Pc<T>, k: nat)
    requires t in s.procs && WMove(s, s.procs[t], i, q) && JobInv(s, s.procs[t])
    requires k in s.log.rounds && !s.log.rounds[k].Running?
    ensures i.On? && (i.li.LPush? || i.li.LRecord?) ==> i.li.i != k
    ensures !i.Delete?
  {
    hide MayFinish, MayVisit;
  }

  // ---------- every action keeps the invariant ----------

  lemma NewListenerOk<T>(now: nat, deq: seq<Msg<T>>, pc: Pc<T>, l: Lid)
    requires JobOf(pc).Some? ==> l !in JobOf(pc).value.sweep.seen
    ensures TriesOk(NewListener<T>(now), deq) && NowOk(NewListener<T>(now), pc, l)
            && TimeOk(NewListener<T>(now), now + 1)
  {
  }

  lemma NoSpawn<T>(s: State<T>, pc: Pc<T>, i: Instr<T>, q: Pc<T>)
    requires WMove(s, pc, i, q) && JobInv(s, pc)
    ensures !i.GoWorker? && !i.GoSender? && !i.Store? && !i.Delete? && (i.RangeBegin? ==> pc.Received?)
    ensures (i.RangeEnd? || i.RangeCut?) ==> i.i < |s.log.deq|
  {
  }

  lemma RoundKeys<T>(s: State<T>, t: Tid, i: Instr<T>, q: Pc<T>)
    requires forall k :: k in s.log.rounds <==> 0 <= k < |s.log.deq|
    requires (i.RangeEnd? || i.RangeCut?) ==> i.i < |s.log.deq|
    ensures forall k :: k in Exec(s, t, i, q).log.rounds <==> 0 <= k < |Exec(s, t, i, q).log.deq|
  {
    hide ChanAfter, BarrierAfter, ListenersAfter, ProcsAfter, WgAfter;
  }

  lemma DeliveryStepWorker<T>(s: State<T>, t: Tid, i: Instr<T>, q: Pc<T>)
    requires SafeInv(s) && PresenceInv(s) && DeliveryInv(s) && Firing(s, t, i, q) && t.Worker?
    ensures DeliveryInv(Exec(s, t, i, q))
  {
    hide ChanAfter, BarrierAfter, ListenersAfter, ListenerAfter, ProcsAfter, WgAfter, WorkerPc, NowOk, TriesOk, TimeOk,
      JobInv, LocksOk, LifeOk, PcOk, ClosedOk, RoundOk, Executes, Arrives, Moves, Ready, Faults, SpawnsOk, WMove,
      WorkersOk, PresentOk, RefusedOk, UnsubOk;
    var z := Exec(s, t, i, q);
    OpenLocks(s, t, 0);
    WorkerMove(s, t, i, q);
    WorkerIs(s, t);
    NoSpawn(s, s.procs[t], i, q);
    WorkerPcAfter(s, t, i, q);
    JobStepWorker(s, t, i, q);
    ListenersAre(s, t, i, q);
    forall l | l in z.listeners
      ensures TriesOk(z.listeners[l], z.log.deq) && NowOk(z.listeners[l], q, l) && TimeOk(z.listeners[l], z.log.clock)
    {
      ListenerStepWorker(s, t, i, q, l);
    }
    RoundKeys(s, t, i, q);
    forall k | k in z.log.rounds ensures RoundOk(z, k) { RoundStepWorker(s, t, i, q, k); }
  }

  /** What a step of a call leaves of the log. */
  lemma CallerLog<T>(s: State<T>, t: Tid, i: Instr<T>, q: Pc<T>)
    requires !WorkerOnly(i)
    ensures var g := Exec(s, t, i, q).log;
            && g.rounds == s.log.rounds && g.deq == s.log.deq && s.log.clock <= g.clock
            && (i.Delete? ==> s.log.clock < g.clock) && (i.Store? ==> g.clock == s.log.clock + 1)
  {
    hide ChanAfter, BarrierAfter, ListenersAfter, ProcsAfter, WgAfter;
  }

  lemma DeliveryStepCaller<T>(s: State<T>, t: Tid, i: Instr<T>, q: Pc<T>)
    requires SafeInv(s) && DeliveryInv(s) && Firing(s, t, i, q) && !t.Worker?
    ensures DeliveryInv(Exec(s, t, i, q))
  {
    hide Exec, ListenerAfter, WorkerPc, NowOk, TriesOk, TimeOk, NewListener, LocksOk, LifeOk, PcOk, ClosedOk, RoundOk,
      Executes, Arrives, Moves, Ready, Faults, WorkersOk, JobInv, WorkerOnly;
    var z, pc := Exec(s, t, i, q), WorkerPc(Exec(s, t, i, q));
    OpenLocks(s, t, 0);
    CallerMove(s, t, i, q);
    if i.GoWorker? { SpawnsFirst(s, t, i, q); }
    WorkerPcAfter(s, t, i, q);
    NoJob<T>(s);
    JobStepCaller(s, t, i, q, pc);
    JobBegan(s, pc);
    CallerLog(s, t, i, q);
    ListenersAre(s, t, i, q);
    forall l | l in z.listeners
      ensures TriesOk(z.listeners[l], z.log.deq) && NowOk(z.listeners[l], pc, l) && TimeOk(z.listeners[l], z.log.clock)
    {
      if l in s.listeners {
        NowSelect(s.listeners[l], l);
        ListenerStepCaller(s.listeners[l], l, t, i, s.log.clock, z.log.clock, s.log.deq, pc);
      } else {
        NewListenerOk(s.log.clock, s.log.deq, pc, l);
      }
    }
    DeletesPresent(s, t, i);
    forall k | k in z.log.rounds ensures RoundOk(z, k) { RoundStepCaller(s, t, i, q, k); }
  }

  lemma DeletesPresent<T>(s: State<T>, t: Tid, i: Instr<T>)
    requires t in s.procs && Executes(s, t, s.procs[t], i)
    ensures i.Delete? ==> InMap(s, i.l)
  {
  }

  lemma NoJob<T>(s: State<T>)
    ensures JobInv<T>(s, Select)
  {
  }

  lemma JobBegan<T>(s: State<T>, pc: Pc<T>)
    requires JobInv(s, pc)
    ensures JobOf(pc).Some? ==>
              JobOf(pc).value.sweep.since < s.log.clock && JobOf(pc).value.sweep.seen <= s.listeners.Keys
  {
  }

  lemma NowSelect<T>(x: Listener<T>, l: Lid)
    ensures NowOk<T>(x, Select, l)
  {
  }

  lemma DeliveryStill<T>(s: State<T>, z: State<T>)
    requires SafeInv(s) && DeliveryInv(s) && Still(s, z)
    ensures DeliveryInv(z)
  {
    hide LocksOk, LifeOk, PcOk, ClosedOk, JobInv, TriesOk, NowOk, TimeOk, RoundOk;
    assert WorkerPc(z) == WorkerPc(s) by { WorkerStill(s, z); }
    JobStill(s, z, WorkerPc(s));
    hide WorkerPc, WorkersOk;
    forall l | l in z.listeners
      ensures TriesOk(z.listeners[l], z.log.deq) && NowOk(z.listeners[l], WorkerPc(z), l)
              && TimeOk(z.listeners[l], z.log.clock)
    {
      ListenerStill(s.listeners[l], z.listeners[l], WorkerPc(s), l, s.log.deq, s.log.clock);
    }
    forall k | k in z.log.rounds ensures RoundOk(z, k) { RoundStill(s, z, k); }
  }

  lemma WorkerStill<T>(s: State<T>, z: State<T>)
    requires WorkersOk(s) && Still(s, z)
    ensures WorkerPc(z) == WorkerPc(s)
  {
  }

  lemma JobStill<T>(s: State<T>, z: State<T>, pc: Pc<T>)
    requires JobInv(s, pc) && Still(s, z)
    ensures JobInv(z, pc)
  {
    hide StillListener;
  }

  lemma ListenerStill<T>(x: Listener<T>, y: Listener<T>, pc: Pc<T>, l: Lid, deq: seq<Msg<T>>, now: nat)
    requires TriesOk(x, deq) && NowOk(x, pc, l) && TimeOk(x, now) && StillListener(x, y)
    ensures TriesOk(y, deq) && NowOk(y, pc, l) && TimeOk(y, now)
  {
    hide Content, Below, Increasing, Tried;
  }

  lemma RoundStill<T>(s: State<T>, z: State<T>, k: nat)
    requires Still(s, z) && k in s.log.rounds && RoundOk(s, k) && WorkerPc(z) == WorkerPc(s)
    ensures RoundOk(z, k)
  {
    hide WorkerPc, FinishedOk, StillListener;
    if s.log.rounds[k].Finished? {
      var f := s.log.rounds[k];
      forall l | l in z.listeners ensures FinishedOk(z.listeners[l], k, f.since, f.till) {
        FinishedStill(s.listeners[l], z.listeners[l], k, f.since, f.till);
      }
    }
  }

  lemma FinishedStill<T>(x: Listener<T>, y: Listener<T>, k: nat, since: nat, till: nat)
    requires FinishedOk(x, k, since, till) && StillListener(x, y)
    ensures FinishedOk(y, k, since, till)
  {
  }

  lemma DeliveryApply<T>(s: State<T>, a: Act<T>, z: State<T>)
    requires SafeInv(s) && PresenceInv(s) && DeliveryInv(s) && Apply(s, a) == Some(z) && !Restarts(s, a)
    ensures DeliveryInv(z)
  {
    hide SafeInv, PresenceInv, DeliveryInv, Code, Ready, Exec;
    if a.Do? {
      var Line(i, q) := Code(s, a.t, s.procs[a.t], a.c).value;
      NoFault(s, a.t, a.c, i, q);
      SafeStep(s, a.t, a.c, i, q);
      if a.t.Worker? { DeliveryStepWorker(s, a.t, i, q); } else { DeliveryStepCaller(s, a.t, i, q); }
    } else {
      StillApply(s, a, z);
      DeliveryStill(s, z);
    }
  }
}
