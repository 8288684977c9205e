/**
 OnceDisposable: double-checked locking for a function run at most once and its disposal.  The calls of
 any number of threads interleave; every load or store of an atomic register, every lock and unlock, the
 start and the end of the function passed in, is a step of its own.
 */
module Once {
  import opened Wrappers
  import opened Sums

  /** What a call returns: the error kept in a register, nil being None, or the entry check's error. */
  datatype Res<E> = Kept(err: Option<E>) | AlreadyDisposed

  /** The program counters of Do and of Dispose.  `Held` says whether the call holds the mutex. */
  datatype Pc<E> =
    // Do
    | DoEntry | DoCheckDone | DoCheckDisposed | DoLock | DoRecheckDone | DoRecheckDisposed
    | DoStart | DoRunning | DoStore(err: Option<E>) | DoReadOwn | DoMark(err: Option<E>)
    | DoRead(held: bool) | DoUnlock(err: Option<E>)
    // Dispose
    | DisCheck | DisLock | DisRecheck
    | DisStart | DisRunning | DisStore(err: Option<E>) | DisReadOwn | DisMark(err: Option<E>)
    | DisRead(held: bool) | DisUnlock(err: Option<E>)
    // returned
    | Done(res: Res<E>) | Disposed(err: Option<E>)

  datatype Event<E> = DoBegan | DoEnded(err: Option<E>) | DisBegan | DisEnded(err: Option<E>)

  datatype State<E> = State(
    done: bool, disposed: bool, errDone: Option<E>, errDispose: Option<E>, m: Option<nat>,
    calls: map<nat, Pc<E>>,
    events: seq<Event<E>>, doneStores: nat, disposeStores: nat)   // history

  function New<E>(): State<E> { State(false, false, None, None, None, map[], [], 0, 0) }

  datatype Act<E> = CallDo(t: nat) | CallDispose(t: nat) | Step(t: nat, err: Option<E>)

  function Goto<E>(s: State<E>, t: nat, pc: Pc<E>): State<E> { s.(calls := s.calls[t := pc]) }

  /** What call `t` does to the object at `pc`, and where it goes; None while it is blocked or after it has
      returned.  `err` is what the function passed in returns, where it ends. */
  function Exec<E>(s: State<E>, t: nat, pc: Pc<E>, err: Option<E>): Option<(State<E>, Pc<E>)> {
    match pc
    case DoEntry => Some((s, if s.disposed then Done(AlreadyDisposed) else DoCheckDone))
    case DoCheckDone => Some((s, if s.done then DoRead(false) else DoCheckDisposed))
    case DoCheckDisposed => Some((s, if s.disposed then DoRead(false) else DoLock))
    case DoLock => if s.m.Some? then None else Some((s.(m := Some(t)), DoRecheckDone))
    case DoRecheckDone => Some((s, if s.done then DoRead(true) else DoRecheckDisposed))
    case DoRecheckDisposed => Some((s, if s.disposed then DoRead(true) else DoStart))
    case DoStart => Some((s.(events := s.events + [DoBegan]), DoRunning))
    case DoRunning => Some((s.(events := s.events + [DoEnded(err)]), DoStore(err)))
    case DoStore(e) =>
      Some((if e.Some? then s.(errDone := e, doneStores := s.doneStores + 1) else s, DoReadOwn))
    case DoReadOwn => Some((s, DoMark(s.errDone)))
    case DoMark(r) => Some((s.(done := true), DoUnlock(r)))
    case DoRead(held) => Some((s, if held then DoUnlock(s.errDone) else Done(Kept(s.errDone))))
    case DoUnlock(r) => Some((s.(m := None), Done(Kept(r))))
    case DisCheck => Some((s, if s.disposed then DisRead(false) else DisLock))
    case DisLock => if s.m.Some? then None else Some((s.(m := Some(t)), DisRecheck))
    case DisRecheck => Some((s, if s.disposed then DisRead(true) else DisStart))
    case DisStart => Some((s.(events := s.events + [DisBegan]), DisRunning))
    case DisRunning => Some((s.(events := s.events + [DisEnded(err)]), DisStore(err)))
    case DisStore(e) =>
      Some((if e.Some? then s.(errDispose := e, disposeStores := s.disposeStores + 1) else s, DisReadOwn))
    case DisReadOwn => Some((s, DisMark(s.errDispose)))
    case DisMark(r) => Some((s.(disposed := true), DisUnlock(r)))
    case DisRead(held) => Some((s, if held then DisUnlock(s.errDispose) else Disposed(s.errDispose)))
    case DisUnlock(r) => Some((s.(m := None), Disposed(r)))
    case _ => None
  }

  function Next<E>(s: State<E>, t: nat, pc: Pc<E>, err: Option<E>): Option<State<E>> {
    match Exec(s, t, pc, err)
    case Some(r) => Some(Goto(r.0, t, r.1))
    case None => None
  }

  function Apply<E>(s: State<E>, a: Act<E>): Option<State<E>> {
    match a
    case CallDo(t) => if t in s.calls then None else Some(Goto(s, t, DoEntry))
    case CallDispose(t) => if t in s.calls then None else Some(Goto(s, t, DisCheck))
    case Step(t, err) => if t in s.calls then Next(s, t, s.calls[t], err) else None
  }

  ghost predicate Runs<E>(s: State<E>, acts: seq<Act<E>>, z: State<E>)
    decreases |acts|
  {
    if acts == [] then s == z
    else Apply(s, acts[0]).Some? && Runs(Apply(s, acts[0]).value, acts[1..], z)
  }

  // ---------- the phases ----------

  /** How far the object has come; the events are determined by it and the two errors. */
  datatype Phase = Fresh | Doing | Did | DisposingFresh | DisposedFresh | Disposing | DisposedAll

  function EventsOf<E>(p: Phase, e: Option<E>, d: Option<E>): seq<Event<E>> {
    match p
    case Fresh => []
    case Doing => [DoBegan]
    case Did => [DoBegan, DoEnded(e)]
    case DisposingFresh => [DisBegan]
    case DisposedFresh => [DisBegan, DisEnded(d)]
    case Disposing => [DoBegan, DoEnded(e), DisBegan]
    case DisposedAll => [DoBegan, DoEnded(e), DisBegan, DisEnded(d)]
  }

  /** Where the thread is that holds the mutex. */
  function Holder<E>(s: State<E>): Pc<E> {
    if s.m.Some? && s.m.value in s.calls then s.calls[s.m.value] else DoEntry
  }

  predicate Holds<E>(pc: Pc<E>) {
    || pc.DoRecheckDone? || pc.DoRecheckDisposed? || pc.DoStart? || pc.DoRunning? || pc.DoStore? || pc.DoReadOwn?
    || pc.DoMark? || (pc.DoRead? && pc.held) || pc.DoUnlock?
    || pc.DisRecheck? || pc.DisStart? || pc.DisRunning? || pc.DisStore? || pc.DisReadOwn?
    || pc.DisMark? || (pc.DisRead? && pc.held) || pc.DisUnlock?
  }

  /** The do-function has been run, in phase `p`. */
  predicate Ran(p: Phase) { p.Did? || p.Disposing? || p.DisposedAll? }

  predicate Over(p: Phase) { p.DisposedFresh? || p.DisposedAll? }

  /** The registers in phase `p`, with the run's results `e` and `d`, while the holder is at `pc`. */
  ghost predicate PhaseOk<E>(s: State<E>, p: Phase, e: Option<E>, d: Option<E>, pc: Pc<E>) {
    && s.events == EventsOf(p, e, d)
    && (pc.DoRunning? <==> p.Doing?) && (pc.DisRunning? <==> p.DisposingFresh? || p.Disposing?)
    // the result of the do-function, and when it is stored and the flag is up
    && (!Ran(p) ==> !s.done && s.errDone.None? && s.doneStores == 0)
    && (Ran(p) ==> (s.done <==> !(pc.DoStore? || pc.DoReadOwn? || pc.DoMark?)))
    && (Ran(p) ==> if pc.DoStore? then pc.err == e && s.errDone.None? && s.doneStores == 0
                   else s.errDone == e && s.doneStores <= 1)
    && (pc.DoMark? ==> pc.err == e)
    && (pc.DoStore? || pc.DoReadOwn? || pc.DoMark? ==> p.Did?)
    // the same for disposal
    && (!Over(p) ==> !s.disposed && s.errDispose.None? && s.disposeStores == 0)
    && (Over(p) ==> (s.disposed <==> !(pc.DisStore? || pc.DisReadOwn? || pc.DisMark?)))
    && (Over(p) ==> if pc.DisStore? then pc.err == d && s.errDispose.None? && s.disposeStores == 0
                    else s.errDispose == d && s.disposeStores <= 1)
    && (pc.DisMark? ==> pc.err == d)
    && (pc.DisStore? || pc.DisReadOwn? || pc.DisMark? ==> Over(p))
    // what a recheck under the mutex has established
    && (pc.DoRecheckDisposed? ==> !s.done)
    && (pc.DoStart? ==> !s.done && !s.disposed)
    && (pc.DisStart? ==> !s.disposed)
  }

  /** What a call that does not hold the mutex has seen, or is about to return. */
  ghost predicate CallOk<E>(s: State<E>, p: Phase, e: Option<E>, d: Option<E>, pc: Pc<E>) {
    match pc
    case DoRead(_) => s.done || s.disposed
    case DoUnlock(r) => DoResult(s, p, e, r)
    case Done(Kept(r)) => DoResult(s, p, e, r)
    case Done(AlreadyDisposed) => s.disposed
    case DisRead(_) => s.disposed
    case DisUnlock(r) => Over(p) && r == d && s.disposed
    case Disposed(r) => Over(p) && r == d && s.disposed
    case _ => true
  }

  /** The result of the run of the do-function, or nil if it never ran and never will. */
  ghost predicate DoResult<E>(s: State<E>, p: Phase, e: Option<E>, r: Option<E>) {
    (Ran(p) && r == e) || (p.DisposedFresh? && s.disposed && r.None?)
  }

  ghost predicate PhaseInv<E>(s: State<E>, p: Phase, e: Option<E>, d: Option<E>) {
    && (forall t :: t in s.calls ==> (Holds(s.calls[t]) <==> s.m == Some(t)))
    && (s.m.Some? ==> s.m.value in s.calls)
    && PhaseOk(s, p, e, d, Holder(s))
    && forall t :: t in s.calls ==> CallOk(s, p, e, d, s.calls[t])
  }

  // ---------- every step keeps the phases ----------

  /** The phase after the step of a call at `pc`. */
  function PhaseAfter<E>(p: Phase, pc: Pc<E>): Phase {
    if pc.DoStart? then Doing
    else if pc.DoRunning? then Did
    else if pc.DisStart? then (if p.Did? then Disposing else DisposingFresh)
    else if pc.DisRunning? then (if p.Disposing? then DisposedAll else DisposedFresh)
    else p
  }

  /** What one step can change is only ever added to. */
  ghost predicate Grows<E>(s: State<E>, p: Phase, e: Option<E>, d: Option<E>,
                           z: State<E>, q: Phase, f: Option<E>, g: Option<E>) {
    && (s.done ==> z.done) && (s.disposed ==> z.disposed)
    && (Ran(p) ==> Ran(q) && f == e) && (Over(p) ==> Over(q) && g == d)
    && (p.DisposedFresh? ==> q.DisposedFresh?)
  }

  lemma CallGrows<E>(s: State<E>, p: Phase, e: Option<E>, d: Option<E>,
                     z: State<E>, q: Phase, f: Option<E>, g: Option<E>, pc: Pc<E>)
    requires Grows(s, p, e, d, z, q, f, g) && CallOk(s, p, e, d, pc)
    ensures CallOk(z, q, f, g, pc)
  {
  }

  /** A step moves the counter of its own call. */
  lemma StepCalls<E>(s: State<E>, t: nat, err: Option<E>, z: State<E>)
    requires t in s.calls && Next(s, t, s.calls[t], err) == Some(z)
    ensures t in z.calls && z.calls == s.calls[t := z.calls[t]]
  {
    assert Exec(s, t, s.calls[t], err).value.0.calls == s.calls;
    hide Exec;
  }

  /** A holder keeps the mutex or releases it. */
  lemma HolderMutex<E>(s: State<E>, t: nat, err: Option<E>, z: State<E>)
    requires t in s.calls && Next(s, t, s.calls[t], err) == Some(z) && Holds(s.calls[t])
    ensures t in z.calls && z.m == if Holds(z.calls[t]) then s.m else None
  {
  }

  /** Outside the mutex a step may take it, and changes nothing else. */
  lemma OutsideShape<E>(s: State<E>, t: nat, err: Option<E>, z: State<E>)
    requires t in s.calls && Next(s, t, s.calls[t], err) == Some(z) && !Holds(s.calls[t])
    ensures t in z.calls && z == Goto(s.(m := if Holds(z.calls[t]) then Some(t) else s.m), t, z.calls[t])
    ensures Holds(z.calls[t]) ==> s.m == None && (z.calls[t].DoRecheckDone? || z.calls[t].DisRecheck?)
  {
  }

  lemma Others<E>(s: State<E>, t: nat, z: State<E>, p: Phase, e: Option<E>, d: Option<E>,
                  q: Phase, f: Option<E>, g: Option<E>)
    requires forall u :: u in s.calls ==> CallOk(s, p, e, d, s.calls[u])
    requires t in z.calls && z.calls == s.calls[t := z.calls[t]]
    requires Grows(s, p, e, d, z, q, f, g) && CallOk(z, q, f, g, z.calls[t])
    ensures forall u :: u in z.calls ==> CallOk(z, q, f, g, z.calls[u])
  {
    hide CallOk, Grows;
    forall u | u in z.calls
      ensures CallOk(z, q, f, g, z.calls[u])
    {
      if u != t { CallGrows(s, p, e, d, z, q, f, g, s.calls[u]); }
    }
  }

  /** What a call outside the mutex sees for itself. */
  lemma Sees<E>(s: State<E>, t: nat, err: Option<E>, z: State<E>, p: Phase, e: Option<E>, d: Option<E>)
    requires t in s.calls && Next(s, t, s.calls[t], err) == Some(z) && !Holds(s.calls[t])
    requires PhaseOk(s, p, e, d, Holder(s)) && CallOk(s, p, e, d, s.calls[t])
    ensures CallOk(z, p, e, d, z.calls[t])
  {
  }

  lemma PhaseKept<E>(s: State<E>, z: State<E>, t: nat, p: Phase, e: Option<E>, d: Option<E>)
    requires t in z.calls && z == Goto(s.(m := z.m), t, z.calls[t])
    requires if z.m == s.m then Holder(z) == Holder(s)
             else s.m == None && (Holder(z).DoRecheckDone? || Holder(z).DisRecheck?)
    requires PhaseOk(s, p, e, d, Holder(s))
    ensures PhaseOk(z, p, e, d, Holder(z))
  {
  }

  /** A step of a thread that does not hold the mutex: it may take it. */
  lemma OutsideStep<E>(s: State<E>, t: nat, err: Option<E>, z: State<E>, p: Phase, e: Option<E>, d: Option<E>)
    requires PhaseInv(s, p, e, d) && t in s.calls && Next(s, t, s.calls[t], err) == Some(z)
    requires !Holds(s.calls[t])
    ensures PhaseInv(z, p, e, d)
  {
    hide CallOk, PhaseOk, Next, Holds;
    OutsideShape(s, t, err, z);
    Sees(s, t, err, z, p, e, d);
    Others(s, t, z, p, e, d, p, e, d);
    PhaseKept(s, z, t, p, e, d);
  }

  /** The holder's own step: the registers, the events and the phase move together. */
  lemma HolderPhase<E>(s: State<E>, t: nat, err: Option<E>, z: State<E>, p: Phase, e: Option<E>, d: Option<E>)
      returns (q: Phase, f: Option<E>, g: Option<E>)
    requires s.m == Some(t) && t in s.calls && Holds(s.calls[t])
    requires PhaseOk(s, p, e, d, s.calls[t]) && CallOk(s, p, e, d, s.calls[t])
    requires Next(s, t, s.calls[t], err) == Some(z)
    ensures q == PhaseAfter(p, s.calls[t])
    ensures Grows(s, p, e, d, z, q, f, g)
    ensures PhaseOk(z, q, f, g, Holder(z))
    ensures CallOk(z, q, f, g, z.calls[t])
  {
    var pc := s.calls[t];
    q := PhaseAfter(p, pc);
    f := if pc.DoRunning? then err else e;
    g := if pc.DisRunning? then err else d;
    hide Next, PhaseAfter, PhaseOk, CallOk, Grows;
    if IsDo(pc) {
      HolderDo(s, t, err, z, p, e, d, q, f, g);
    } else {
      HolderDispose(s, t, err, z, p, e, d, q, f, g);
    }
  }

  predicate IsDo<E>(pc: Pc<E>) {
    || pc.DoRecheckDone? || pc.DoRecheckDisposed? || pc.DoStart? || pc.DoRunning? || pc.DoStore? || pc.DoReadOwn?
    || pc.DoMark? || pc.DoRead? || pc.DoUnlock?
  }

  lemma HolderDo<E>(s: State<E>, t: nat, err: Option<E>, z: State<E>, p: Phase, e: Option<E>, d: Option<E>,
                    q: Phase, f: Option<E>, g: Option<E>)
    requires s.m == Some(t) && t in s.calls && Holds(s.calls[t]) && IsDo(s.calls[t])
    requires PhaseOk(s, p, e, d, s.calls[t]) && CallOk(s, p, e, d, s.calls[t])
    requires Next(s, t, s.calls[t], err) == Some(z) && q == PhaseAfter(p, s.calls[t])
    requires f == (if s.calls[t].DoRunning? then err else e) && g == d
    ensures Grows(s, p, e, d, z, q, f, g) && PhaseOk(z, q, f, g, Holder(z)) && CallOk(z, q, f, g, z.calls[t])
  {
    if s.calls[t].DoStart? || s.calls[t].DoRunning? {
      hide *;
      HolderRun(s, t, err, z, p, e, d, q, f, g);
    } else if s.calls[t].DoStore? || s.calls[t].DoReadOwn? || s.calls[t].DoMark? {
      hide *;
      HolderKeeps(s, t, err, z, p, e, d, q, f, g);
    }
  }

  /** Its result is stored, read back, and the flag goes up. */
  lemma HolderKeeps<E>(s: State<E>, t: nat, err: Option<E>, z: State<E>, p: Phase, e: Option<E>, d: Option<E>,
                       q: Phase, f: Option<E>, g: Option<E>)
    requires s.m == Some(t) && t in s.calls && (s.calls[t].DoStore? || s.calls[t].DoReadOwn? || s.calls[t].DoMark?)
    requires PhaseOk(s, p, e, d, s.calls[t]) && CallOk(s, p, e, d, s.calls[t])
    requires Next(s, t, s.calls[t], err) == Some(z) && q == PhaseAfter(p, s.calls[t]) && f == e && g == d
    ensures Grows(s, p, e, d, z, q, f, g) && PhaseOk(z, q, f, g, Holder(z)) && CallOk(z, q, f, g, z.calls[t])
  {
  }

  /** The do-function starts and ends. */
  lemma HolderRun<E>(s: State<E>, t: nat, err: Option<E>, z: State<E>, p: Phase, e: Option<E>, d: Option<E>,
                     q: Phase, f: Option<E>, g: Option<E>)
    requires s.m == Some(t) && t in s.calls && (s.calls[t].DoStart? || s.calls[t].DoRunning?)
    requires PhaseOk(s, p, e, d, s.calls[t])
    requires Next(s, t, s.calls[t], err) == Some(z) && q == PhaseAfter(p, s.calls[t])
    requires f == (if s.calls[t].DoRunning? then err else e) && g == d
    ensures Grows(s, p, e, d, z, q, f, g) && PhaseOk(z, q, f, g, Holder(z)) && CallOk(z, q, f, g, z.calls[t])
  {
  }

  lemma HolderDispose<E>(s: State<E>, t: nat, err: Option<E>, z: State<E>, p: Phase, e: Option<E>, d: Option<E>,
                         q: Phase, f: Option<E>, g: Option<E>)
    requires s.m == Some(t) && t in s.calls && Holds(s.calls[t]) && !IsDo(s.calls[t])
    requires PhaseOk(s, p, e, d, s.calls[t]) && CallOk(s, p, e, d, s.calls[t])
    requires Next(s, t, s.calls[t], err) == Some(z) && q == PhaseAfter(p, s.calls[t])
    requires f == e && g == if s.calls[t].DisRunning? then err else d
    ensures Grows(s, p, e, d, z, q, f, g) && PhaseOk(z, q, f, g, Holder(z)) && CallOk(z, q, f, g, z.calls[t])
  {
    if s.calls[t].DisStart? || s.calls[t].DisRunning? {
      hide *;
      HolderDisposes(s, t, err, z, p, e, d, q, f, g);
    }
  }

  /** The dispose-function starts and ends. */
  lemma HolderDisposes<E>(s: State<E>, t: nat, err: Option<E>, z: State<E>, p: Phase, e: Option<E>, d: Option<E>,
                          q: Phase, f: Option<E>, g: Option<E>)
    requires s.m == Some(t) && t in s.calls && (s.calls[t].DisStart? || s.calls[t].DisRunning?)
    requires PhaseOk(s, p, e, d, s.calls[t])
    requires Next(s, t, s.calls[t], err) == Some(z) && q == PhaseAfter(p, s.calls[t])
    requires f == e && g == if s.calls[t].DisRunning? then err else d
    ensures Grows(s, p, e, d, z, q, f, g) && PhaseOk(z, q, f, g, Holder(z)) && CallOk(z, q, f, g, z.calls[t])
  {
  }

  lemma HolderStep<E>(s: State<E>, t: nat, err: Option<E>, z: State<E>, p: Phase, e: Option<E>, d: Option<E>)
      returns (q: Phase, f: Option<E>, g: Option<E>)
    requires PhaseInv(s, p, e, d) && t in s.calls && Next(s, t, s.calls[t], err) == Some(z)
    requires Holds(s.calls[t])
    ensures q == PhaseAfter(p, s.calls[t])
    ensures Grows(s, p, e, d, z, q, f, g) && PhaseInv(z, q, f, g)
  {
    hide CallOk, PhaseOk, Next, Holds, Grows;
    StepCalls(s, t, err, z);
    HolderMutex(s, t, err, z);
    q, f, g := HolderPhase(s, t, err, z, p, e, d);
    Others(s, t, z, p, e, d, q, f, g);
  }

  lemma CallStep<E>(s: State<E>, t: nat, pc: Pc<E>, p: Phase, e: Option<E>, d: Option<E>)
    requires PhaseInv(s, p, e, d) && t !in s.calls && (pc.DoEntry? || pc.DisCheck?)
    ensures PhaseInv(Goto(s, t, pc), p, e, d)
  {
    var z := Goto(s, t, pc);
    assert !Holds(pc) && CallOk(z, p, e, d, pc);
    hide PhaseOk, CallOk, Holds;
    assert Holder(z) == Holder(s);
    Others(s, t, z, p, e, d, p, e, d);
    PhaseKept(s, z, t, p, e, d);
  }

  /** One step of the system. */
  lemma PhaseStep<E>(s: State<E>, a: Act<E>, z: State<E>, p: Phase, e: Option<E>, d: Option<E>)
      returns (q: Phase, f: Option<E>, g: Option<E>)
    requires PhaseInv(s, p, e, d) && Apply(s, a) == Some(z)
    ensures Grows(s, p, e, d, z, q, f, g) && PhaseInv(z, q, f, g)
  {
    hide PhaseInv, CallOk, PhaseOk;
    q, f, g := p, e, d;
    match a
    case CallDo(t) => CallStep(s, t, DoEntry, p, e, d);
    case CallDispose(t) => CallStep(s, t, DisCheck, p, e, d);
    case Step(t, err) =>
      if Holds(s.calls[t]) {
        q, f, g := HolderStep(s, t, err, z, p, e, d);
      } else {
        OutsideStep(s, t, err, z, p, e, d);
      }
  }

  lemma PhaseRuns<E>(s: State<E>, acts: seq<Act<E>>, z: State<E>, p: Phase, e: Option<E>, d: Option<E>)
      returns (q: Phase, f: Option<E>, g: Option<E>)
    requires PhaseInv(s, p, e, d) && Runs(s, acts, z)
    ensures Grows(s, p, e, d, z, q, f, g) && PhaseInv(z, q, f, g)
    decreases |acts|
  {
    hide PhaseInv, Apply;
    if acts == [] {
      q, f, g := p, e, d;
    } else {
      var mid := Apply(s, acts[0]).value;
      q, f, g := PhaseStep(s, acts[0], mid, p, e, d);
      q, f, g := PhaseRuns(mid, acts[1..], z, q, f, g);
    }
  }

  lemma Reached<E>(acts: seq<Act<E>>, s: State<E>) returns (p: Phase, e: Option<E>, d: Option<E>)
    requires Runs(New(), acts, s)
    ensures PhaseInv(s, p, e, d)
  {
    assert PhaseInv(New<E>(), Fresh, None, None);
    p, e, d := PhaseRuns(New(), acts, s, Fresh, None, None);
  }

  // ---------- the theorems ----------

  /** Nothing is started twice, nothing overlaps, and nothing is done after disposal has begun. */
  ghost predicate OnceHistory<E>(events: seq<Event<E>>) {
    && (forall i, j :: 0 <= i < j < |events| ==> !(events[i].DoBegan? && events[j].DoBegan?))
    && (forall i, j :: 0 <= i < j < |events| ==> !(events[i].DisBegan? && events[j].DisBegan?))
    && (forall i, j :: 0 <= i < j < |events| ==> !(events[i].DisBegan? && events[j].DoBegan?))
    && (forall i :: 0 < i < |events| ==>
          && (events[i - 1].DoBegan? <==> events[i].DoEnded?)
          && (events[i - 1].DisBegan? <==> events[i].DisEnded?))
    && (events != [] ==> events[0].DoBegan? || events[0].DisBegan?)
  }

  /** In every interleaving of any number of calls. */
  lemma OnceOnly<E>(acts: seq<Act<E>>, s: State<E>)
    requires Runs(New(), acts, s)
    ensures OnceHistory(s.events)
  {
    var p, e, d := Reached(acts, s);
    assert s.events == EventsOf(p, e, d);
    hide EventsOf, OnceHistory;
    HistoryOf(p, e, d);
  }

  lemma HistoryOf<E>(p: Phase, e: Option<E>, d: Option<E>)
    ensures OnceHistory(EventsOf(p, e, d))
  {
  }

  /** A Dispose returns the error of the completed disposal; a Do that passes its entry check returns the
      error of the completed run, or nil when the object was disposed without ever being done. */
  lemma Returned<E>(acts: seq<Act<E>>, s: State<E>, t: nat)
    requires Runs(New(), acts, s) && t in s.calls
    ensures s.calls[t].Disposed? ==> DisEnded(s.calls[t].err) in s.events && s.disposed
    ensures s.calls[t].Done? && s.calls[t].res.AlreadyDisposed? ==> s.disposed
    ensures s.calls[t].Done? && s.calls[t].res.Kept? ==>
              || DoEnded(s.calls[t].res.err) in s.events
              || (s.calls[t].res.err.None? && s.disposed && DoBegan !in s.events)
  {
    var p, e, d := Reached(acts, s);
    ReturnedIn(s, p, e, d, s.calls[t]);
  }

  lemma ReturnedIn<E>(s: State<E>, p: Phase, e: Option<E>, d: Option<E>, pc: Pc<E>)
    requires PhaseOk(s, p, e, d, Holder(s)) && CallOk(s, p, e, d, pc)
    ensures pc.Disposed? ==> DisEnded(pc.err) in s.events && s.disposed
    ensures pc.Done? && pc.res.AlreadyDisposed? ==> s.disposed
    ensures pc.Done? && pc.res.Kept? ==>
              || DoEnded(pc.res.err) in s.events
              || (pc.res.err.None? && s.disposed && DoBegan !in s.events)
  {
    if Ran(p) { assert s.events[1] == DoEnded(e); }
    if Over(p) { assert s.events[|s.events| - 1] == DisEnded(d); }
  }

  /** Once the object is disposed the do-function is never started again. */
  lemma DisposedForever<E>(acts: seq<Act<E>>, s: State<E>, more: seq<Act<E>>, z: State<E>)
    requires Runs(New(), acts, s) && Runs(s, more, z) && s.disposed
    ensures z.disposed && z.events == s.events
  {
    var p, e, d := Reached(acts, s);
    var q, f, g := PhaseRuns(s, more, z, p, e, d);
    assert Over(p) && Over(q);
  }

  // ---------- calls that come late ----------

  /** A flag once up stays up, and a call moves only by its own steps. */
  lemma FlagsStay<E>(s: State<E>, a: Act<E>, z: State<E>, t: nat)
    requires Apply(s, a) == Some(z) && t in s.calls
    ensures (s.done ==> z.done) && (s.disposed ==> z.disposed) && t in z.calls
    ensures z.calls[t] == s.calls[t]
            || (a.Step? && a.t == t && Exec(s, t, s.calls[t], a.err).Some?
                && z.calls[t] == Exec(s, t, s.calls[t], a.err).value.1)
  {
    if a.Step? {
      StepCalls(s, a.t, a.err, z);
      StepFlags(s, a.t, s.calls[a.t], a.err);
    }
    hide Exec;
  }

  lemma StepFlags<E>(s: State<E>, t: nat, pc: Pc<E>, err: Option<E>)
    requires Exec(s, t, pc, err).Some?
    ensures var z := Exec(s, t, pc, err).value.0; (s.done ==> z.done) && (s.disposed ==> z.disposed)
  {
  }

  /** The call was refused, or will be. */
  predicate Refused<E>(pc: Pc<E>) { pc.DoEntry? || pc == Done(AlreadyDisposed) }

  lemma {:induction false} RefusedRuns<E>(s: State<E>, acts: seq<Act<E>>, z: State<E>, t: nat)
    requires s.disposed && t in s.calls && Refused(s.calls[t]) && Runs(s, acts, z)
    ensures z.disposed && t in z.calls && Refused(z.calls[t])
    decreases |acts|
  {
    hide Apply;
    if acts != [] {
      var y := Apply(s, acts[0]).value;
      FlagsStay(s, acts[0], y, t);
      RefusedRuns(y, acts[1..], z, t);
    }
  }

  /** A call past the entry check, or a Dispose, is not refused any more. */
  lemma {:induction false} AdmittedRuns<E>(s: State<E>, acts: seq<Act<E>>, z: State<E>, t: nat)
    requires t in s.calls && !Refused(s.calls[t]) && Runs(s, acts, z)
    ensures t in z.calls && !Refused(z.calls[t])
    decreases |acts|
  {
    hide Apply;
    if acts != [] {
      var y := Apply(s, acts[0]).value;
      FlagsStay(s, acts[0], y, t);
      AdmittedStep(s, t, s.calls[t], if acts[0].Step? then acts[0].err else None);
      AdmittedRuns(y, acts[1..], z, t);
    }
  }

  lemma AdmittedStep<E>(s: State<E>, t: nat, pc: Pc<E>, err: Option<E>)
    requires !Refused(pc)
    ensures Exec(s, t, pc, err).Some? ==> !Refused(Exec(s, t, pc, err).value.1)
  {
  }

  /** A Do that begins when the object is disposed returns "already disposed", and nothing else. */
  lemma TooLate<E>(acts: seq<Act<E>>, s: State<E>, t: nat, more: seq<Act<E>>, z: State<E>)
    requires Runs(New(), acts, s) && s.disposed && t !in s.calls && Runs(Goto(s, t, DoEntry), more, z)
    ensures t in z.calls && (z.calls[t].Done? ==> z.calls[t].res == AlreadyDisposed) && z.calls[t] != DoLock
  {
    RefusedRuns(Goto(s, t, DoEntry), more, z, t);
  }

  /** In general a Do returns "already disposed" if and only if the object is disposed at its first step. */
  lemma RefusedIff<E>(s: State<E>, t: nat, err: Option<E>, y: State<E>, more: seq<Act<E>>, z: State<E>)
    requires t in s.calls && s.calls[t].DoEntry? && Apply(s, Step(t, err)) == Some(y) && Runs(y, more, z)
    ensures t in z.calls && (z.calls[t].Done? ==> (z.calls[t].res == AlreadyDisposed <==> s.disposed))
  {
    FlagsStay(s, Step(t, err), y, t);
    if s.disposed { RefusedRuns(y, more, z, t); } else { AdmittedRuns(y, more, z, t); }
  }

  /** The call is on the path that takes no lock. */
  predicate Fast<E>(s: State<E>, pc: Pc<E>) {
    || pc.DoEntry? || (pc.DoCheckDone? && s.done) || pc == DoRead(false) || pc.Done?
    || (pc.DisCheck? && s.disposed) || pc == DisRead(false) || pc.Disposed?
  }

  lemma FastStep<E>(s: State<E>, t: nat, pc: Pc<E>, err: Option<E>)
    requires (s.done || s.disposed) && Fast(s, pc)
    ensures Exec(s, t, pc, err).Some? <==> !Returns(pc)
    ensures Exec(s, t, pc, err).Some? ==>
              var (z, q) := Exec(s, t, pc, err).value; z.m == s.m && z.events == s.events && Fast(s, q)
  {
  }

  lemma {:induction false} FastRuns<E>(s: State<E>, acts: seq<Act<E>>, z: State<E>, t: nat)
    requires (s.done || s.disposed) && t in s.calls && Fast(s, s.calls[t]) && Runs(s, acts, z)
    ensures (z.done || z.disposed) && t in z.calls && Fast(z, z.calls[t])
    decreases |acts|
  {
    hide Apply, Exec;
    if acts != [] {
      var y := Apply(s, acts[0]).value;
      FlagsStay(s, acts[0], y, t);
      FastStep(s, t, s.calls[t], if acts[0].Step? then acts[0].err else None);
      FastRuns(y, acts[1..], z, t);
    }
  }

  /**
   A Do that begins when the object is done or disposed, and a Dispose that begins when it is disposed, never
   waits for the mutex: until it returns, whoever holds the mutex, its next step is possible.
   */
  lemma NeverBlocks<E>(s: State<E>, t: nat, pc: Pc<E>, more: seq<Act<E>>, z: State<E>, err: Option<E>)
    requires t !in s.calls && Runs(Goto(s, t, pc), more, z)
    requires (pc.DoEntry? && (s.done || s.disposed)) || (pc.DisCheck? && s.disposed)
    ensures t in z.calls && (Returns(z.calls[t]) || Apply(z, Step(t, err)).Some?)
    ensures t in z.calls && Apply(z, Step(t, err)).Some? ==>
              Apply(z, Step(t, err)).value.m == z.m && Apply(z, Step(t, err)).value.events == z.events
  {
    FastRuns(Goto(s, t, pc), more, z, t);
    hide Exec;
    FastStep(z, t, z.calls[t], err);
  }

  /** Each error register is stored to at most once, so an atomic.Value never sees two dynamic types. */
  lemma StoredOnce<E>(acts: seq<Act<E>>, s: State<E>)
    requires Runs(New(), acts, s)
    ensures s.doneStores <= 1 && s.disposeStores <= 1
    ensures s.errDone.Some? ==> DoEnded(s.errDone) in s.events
    ensures s.errDispose.Some? ==> DisEnded(s.errDispose) in s.events
  {
    var p, e, d := Reached(acts, s);
    if Ran(p) { assert s.events[1] == DoEnded(e); }
    if Over(p) { assert s.events[|s.events| - 1] == DisEnded(d); }
  }

  predicate Returns<E>(pc: Pc<E>) { pc.Done? || pc.Disposed? }

  /** While a call is unfinished some call can take a step. */
  lemma NoDeadlock<E>(acts: seq<Act<E>>, s: State<E>, t: nat, err: Option<E>) returns (u: nat)
    requires Runs(New(), acts, s) && t in s.calls && !Returns(s.calls[t])
    ensures u in s.calls && Apply(s, Step(u, err)).Some?
  {
    var p, e, d := Reached(acts, s);
    u := if s.m.Some? then s.m.value else t;
  }

  // ---------- every call finishes ----------

  /** The most steps a call has before it, the start and the end of its function among them. */
  function PcRank<E>(pc: Pc<E>): nat {
    match pc
    case DoEntry => 12
    case DoCheckDone => 11
    case DoCheckDisposed => 10
    case DoLock => 9
    case DoRecheckDone => 8
    case DoRecheckDisposed => 7
    case DoStart => 6
    case DoRunning => 5
    case DoStore(_) => 4
    case DoReadOwn => 3
    case DoMark(_) => 2
    case DoRead(_) => 2
    case DoUnlock(_) => 1
    case DisCheck => 9
    case DisLock => 8
    case DisRecheck => 7
    case DisStart => 6
    case DisRunning => 5
    case DisStore(_) => 4
    case DisReadOwn => 3
    case DisMark(_) => 2
    case DisRead(_) => 2
    case DisUnlock(_) => 1
    case Done(_) => 0
    case Disposed(_) => 0
  }

  lemma StepDown<E>(s: State<E>, t: nat, pc: Pc<E>, err: Option<E>)
    requires Exec(s, t, pc, err).Some?
    ensures PcRank(Exec(s, t, pc, err).value.1) < PcRank(pc)
  {
  }

  function StepsOf<E>(acts: seq<Act<E>>, t: nat): nat {
    if acts == [] then 0 else (if acts[0].Step? && acts[0].t == t then 1 else 0) + StepsOf(acts[1..], t)
  }

  /** A call takes at most as many steps as its rank, whatever the others do. */
  lemma {:induction false} CallBound<E>(s: State<E>, acts: seq<Act<E>>, z: State<E>, t: nat)
    requires Runs(s, acts, z) && t in s.calls
    ensures t in z.calls && StepsOf(acts, t) + PcRank(z.calls[t]) <= PcRank(s.calls[t])
    decreases |acts|
  {
    hide PcRank;
    if acts != [] {
      var mid := Apply(s, acts[0]).value;
      OneStep(s, acts[0], mid, t);
      hide Apply;
      CallBound(mid, acts[1..], z, t);
    }
  }

  lemma OneStep<E>(s: State<E>, a: Act<E>, z: State<E>, t: nat)
    requires Apply(s, a) == Some(z) && t in s.calls
    ensures t in z.calls
    ensures if a.Step? && a.t == t then PcRank(z.calls[t]) < PcRank(s.calls[t]) else z.calls[t] == s.calls[t]
  {
    hide PcRank, Exec;
    if a.Step? {
      StepDown(s, a.t, s.calls[a.t], a.err);
      StepCalls(s, a.t, a.err, z);
    }
  }

  function PcRankOf<E>(): Pc<E> -> nat { (pc: Pc<E>) => PcRank(pc) }

  /** The most steps all calls together have before them. */
  ghost function Rank<E>(s: State<E>): nat { SumMap(s.calls, PcRankOf()) }

  lemma RankStep<E>(s: State<E>, a: Act<E>, z: State<E>)
    requires Apply(s, a) == Some(z) && a.Step?
    ensures Rank(z) < Rank(s)
  {
    hide PcRank, Exec;
    OneStep(s, a, z, a.t);
    StepCalls(s, a.t, a.err, z);
    SumUpdate(s.calls, PcRankOf(), a.t, z.calls[a.t]);
  }

  lemma {:induction false} RankRuns<E>(s: State<E>, acts: seq<Act<E>>, z: State<E>)
    requires Runs(s, acts, z) && forall k :: 0 <= k < |acts| ==> acts[k].Step?
    ensures |acts| + Rank(z) <= Rank(s)
    decreases |acts|
  {
    hide Rank, Apply;
    if acts != [] {
      RankStep(s, acts[0], Apply(s, acts[0]).value);
      RankRuns(Apply(s, acts[0]).value, acts[1..], z);
    }
  }

  /**
   Once no further call begins, only finitely many steps are left, at most the rank; and when none is
   possible any more every call has returned.  So every Do and every Dispose finishes if the functions do.
   */
  lemma AllReturn<E>(acts: seq<Act<E>>, s: State<E>, more: seq<Act<E>>, z: State<E>, t: nat, err: Option<E>)
    requires Runs(New(), acts, s) && Runs(s, more, z) && forall k :: 0 <= k < |more| ==> more[k].Step?
    ensures |more| <= Rank(s)
    ensures (forall u :: u in z.calls ==> Apply(z, Step(u, err)).None?) && t in z.calls ==> Returns(z.calls[t])
  {
    hide Rank, Apply, Returns;
    RankRuns(s, more, z);
    RunsOn(New(), acts, s, more, z);
    if t in z.calls && !Returns(z.calls[t]) {
      var u := NoDeadlock(acts + more, z, t, err);
    }
  }

  lemma {:induction false} RunsOn<E>(r: State<E>, acts: seq<Act<E>>, s: State<E>, more: seq<Act<E>>, z: State<E>)
    requires Runs(r, acts, s) && Runs(s, more, z)
    ensures Runs(r, acts + more, z)
    decreases |acts|
  {
    hide Apply;
    if acts == [] {
      assert acts + more == more;
    } else {
      RunsOn(Apply(r, acts[0]).value, acts[1..], s, more, z);
      assert (acts + more)[0] == acts[0] && (acts + more)[1..] == acts[1..] + more;
    }
  }
}
