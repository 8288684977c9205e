/** A run that stops the broadcaster and is about to start it again. */
module BroadcasterRestart {
  import opened Wrappers
  import opened StatusBarrier
  import opened Broadcaster
  import opened BroadcasterTheorems

  /** What matters of a state without listeners, readers and messages. */
  datatype View<T> = View(
    writer: Option<Tid>, started: bool, cancelled: bool, wg: nat, closed: bool, stopped: bool, procs: map<Tid, Pc<T>>)

  ghost predicate Shows<T(!new)>(s: State<T>, v: View<T>) {
    && Reachable(s) && !s.panicked && s.listeners == map[]
    && s.barrier == Barrier(v.writer, {}, v.started) && s.cancelled == v.cancelled && s.wg == v.wg
    && s.chan == Chan([], v.closed) && s.log.stopped == v.stopped && s.procs == v.procs
  }

  /** The instructions of this run. */
  predicate Simple<T>(i: Instr<T>) {
    || i.Nop? || i.WAnnounce? || i.WAcquire? || i.WRelease? || i.SetStarted? || i.SetStopped? || i.GoWorker?
    || i.CloseChan? || i.CancelCtx? || i.WgAdd? || i.WgDone? || i.WgWait? || i.RangeBegin?
  }

  function After<T>(v: View<T>, t: Tid, i: Instr<T>, q: Pc<T>): View<T> {
    View(if i.WAnnounce? then Some(t) else if i.WRelease? then None else v.writer,
         (v.started || i.SetStarted?) && !i.SetStopped?,
         v.cancelled || i.CancelCtx?,
         WgAfter(v.wg, i),
         v.closed || i.CloseChan?,
         v.stopped || i.SetStopped?,
         ProcsAfter(v.procs, t, i, q))
  }

  predicate Possible<T>(v: View<T>, t: Tid, i: Instr<T>) {
    match i
    case WAnnounce => v.writer.None?
    case WRelease => v.writer == Some(t)
    case CloseChan => !v.closed
    case WgDone => v.wg > 0
    case WgWait => v.wg == 0
    case _ => true
  }

  lemma ShowsAfter<T(!new)>(s: State<T>, v: View<T>, t: Tid, i: Instr<T>, q: Pc<T>)
    requires Shows(s, v) && Simple(i) && Reachable(Exec(s, t, i, q))
    ensures Shows(Exec(s, t, i, q), After(v, t, i, q))
  {
    hide Reachable, WgAfter, ProcsAfter, RoundsAfter;
  }

  lemma Goes<T(!new)>(s: State<T>, v: View<T>, t: Tid, c: Choice, i: Instr<T>, q: Pc<T>) returns (z: State<T>)
    requires Shows(s, v) && t in v.procs && Simple(i) && Possible(v, t, i)
    requires Code(s, t, v.procs[t], c) == Some(Line(i, q)) && (v.procs[t] == Status(Start) ==> !v.stopped)
    ensures Shows(z, After(v, t, i, q))
  {
    hide Reachable, Exec, Code, After;
    z := Exec(s, t, i, q);
    ReachableApply(s, Do(t, c), z);
    ShowsAfter(s, v, t, i, q);
  }

  lemma Begun<T(!new)>(s: State<T>, v: View<T>, n: nat, op: Op<T>) returns (z: State<T>)
    requires Shows(s, v) && Call(n) !in v.procs && (op.Start? || op.Stop?)
    ensures Shows(z, v.(procs := v.procs[Call(n) := Await(op)]))
  {
    hide Reachable;
    z := s.(procs := s.procs[Call(n) := Await(op)]);
    ReachableApply(s, Begin(n, op), z);
  }

  /** What the next line of a Start or Stop call is, seen from the view. */
  function LineOf<T>(v: View<T>, pc: Pc<T>): Option<(Instr<T>, Pc<T>)> {
    match pc
    case Await(op) => Some((WAnnounce, Drain(op)))
    case Drain(op) => Some((WAcquire, Status(op)))
    case Status(op) => if op.Start? && !v.started then Some((Nop, StartAdd))
                       else if op.Stop? && v.started then Some((Nop, StopCancel)) else None
    case StartAdd => Some((WgAdd, StartGo))
    case StartGo => Some((GoWorker, StartMark))
    case StartMark => Some((SetStarted, Unlock(Start, Nil)))
    case StopCancel => Some((CancelCtx, StopWait))
    case StopWait => Some((WgWait, StopRange))
    case StopClose => Some((CloseChan, StopMark))
    case StopMark => Some((SetStopped, Unlock(Stop, Nil)))
    case Unlock(op, res) => Some((WRelease, Done(op, res)))
    case _ => None
  }

  lemma LineIs<T(!new)>(s: State<T>, v: View<T>, t: Tid, pc: Pc<T>)
    requires Shows(s, v) && LineOf(v, pc).Some?
    ensures Code(s, t, pc, Go) == Some(Line(LineOf(v, pc).value.0, LineOf(v, pc).value.1))
            && Simple(LineOf(v, pc).value.0)
  {
    hide Reachable, ReadCode, WorkerCode;
  }

  function Next<T>(v: View<T>, t: Tid): View<T>
    requires t in v.procs && LineOf(v, v.procs[t]).Some?
  {
    var line := LineOf(v, v.procs[t]).value;
    After(v, t, line.0, line.1)
  }

  /** The next line of a status call, to the view named. */
  lemma Advances<T(!new)>(s: State<T>, v: View<T>, t: Tid, u: View<T>) returns (z: State<T>)
    requires Shows(s, v) && t in v.procs && LineOf(v, v.procs[t]).Some? && Possible(v, t, LineOf(v, v.procs[t]).value.0)
    requires v.procs[t] == Status(Start) ==> !v.stopped
    requires u == Next(v, t)
    ensures Shows(z, u)
  {
    hide Shows, Code, After, LineOf, Possible;
    LineIs(s, v, t, v.procs[t]);
    z := Goes(s, v, t, Go, LineOf(v, v.procs[t]).value.0, LineOf(v, v.procs[t]).value.1);
  }

  /** A status call gets the barrier for itself. */
  lemma Enters<T(!new)>(s: State<T>, v: View<T>, n: nat, op: Op<T>) returns (z: State<T>)
    requires Shows(s, v) && v.writer.None? && Call(n) !in v.procs && (op.Start? || op.Stop?)
    ensures Shows(z, v.(writer := Some(Call(n)), procs := v.procs[Call(n) := Status(op)]))
  {
    hide Shows;
    var t := Call(n);
    z := Begun(s, v, n, op);
    var a: View<T> := v.(procs := v.procs[t := Await(op)]);
    var b: View<T> := v.(writer := Some(t), procs := v.procs[t := Drain(op)]);
    assert a.procs[t := Drain(op)] == b.procs;
    z := Advances(z, a, t, b);
    var c: View<T> := v.(writer := Some(t), procs := v.procs[t := Status(op)]);
    assert b.procs[t := Status(op)] == c.procs;
    z := Advances(z, b, t, c);
  }

  lemma NewReachable<T(!new)>()
    ensures Shows(New<T>(), View(None, false, false, 0, false, false, map[]))
  {
    assert Runs(New<T>(), [], New<T>());
  }

  /** The broadcaster is started, and its worker waits. */
  lemma Started<T(!new)>() returns (s: State<T>)
    ensures Shows(s, View(None, true, false, 1, false, false, map[Call(0) := Done(Start, Nil), Worker(0) := Select]))
  {
    hide Shows;
    var t, k := Call(0), Worker(0);
    s := New<T>();
    NewReachable<T>();
    s := Enters(s, View(None, false, false, 0, false, false, map[]), 0, Start);
    var a := View<T>.View(Some(t), false, false, 0, false, false, map[t := Status(Start)]);
    var b := View<T>.View(Some(t), false, false, 0, false, false, map[t := StartAdd]);
    s := Advances(s, a, t, b);
    var c := View<T>.View(Some(t), false, false, 1, false, false, map[t := StartGo]);
    s := Advances(s, b, t, c);
    var d := View<T>.View(Some(t), false, false, 1, false, false, map[t := StartMark, k := Select]);
    s := Advances(s, c, t, d);
    var e := View<T>.View(Some(t), true, false, 1, false, false, map[t := Unlock(Start, Nil), k := Select]);
    s := Advances(s, d, t, e);
    s := Advances(s, e, t, View<T>.View(None, true, false, 1, false, false, map[t := Done(Start, Nil), k := Select]));
  }

  /** The Range of Stop over no listeners. */
  lemma Sweeps<T(!new)>(s: State<T>, v: View<T>, t: Tid) returns (z: State<T>)
    requires Shows(s, v) && t in v.procs && v.procs[t] == StopRange
    ensures Shows(z, v.(procs := v.procs[t := StopClose]))
  {
    hide Code, Shows;
    var sw := Sweep(s.log.clock, {});
    BeginLine(s, v, t, sw);
    var u: View<T> := v.(procs := v.procs[t := StopNext(sw)]);
    z := Goes(s, v, t, Go, RangeBegin, StopNext(sw));
    FinishLine(z, u, t, sw);
    z := Goes(z, u, t, Finish, Nop, StopClose);
    assert u.procs[t := StopClose] == v.procs[t := StopClose];
  }

  lemma BeginLine<T(!new)>(s: State<T>, v: View<T>, t: Tid, sw: Sweep)
    requires Shows(s, v) && sw == Sweep(s.log.clock, {})
    ensures Code(s, t, StopRange, Go) == Some(Line(RangeBegin, StopNext(sw)))
  {
    hide Reachable;
  }

  lemma FinishLine<T(!new)>(s: State<T>, v: View<T>, t: Tid, sw: Sweep)
    requires Shows(s, v)
    ensures Code(s, t, StopNext(sw), Finish) == Some(Line(Nop, StopClose))
  {
    hide Reachable;
    assert MayFinish(s, sw);
  }

  lemma ExitLines<T(!new)>(s: State<T>, v: View<T>, t: Tid)
    requires Shows(s, v) && v.cancelled
    ensures Code(s, t, Select, Finish) == Some(Line(Nop, Exit)) && Code(s, t, Exit, Go) == Some(Line(WgDone, Gone))
  {
    hide Reachable;
  }

  /** The cancelled worker ends. */
  lemma Exits<T(!new)>(s: State<T>, v: View<T>, k: Tid) returns (z: State<T>)
    requires Shows(s, v) && k in v.procs && v.procs[k] == Select && v.cancelled && v.wg == 1
    ensures Shows(z, v.(wg := 0, procs := v.procs[k := Gone]))
  {
    hide Code, Shows;
    ExitLines(s, v, k);
    z := Goes(s, v, k, Finish, Nop, Exit);
    var u: View<T> := v.(procs := v.procs[k := Exit]);
    ExitLines(z, u, k);
    z := Goes(z, u, k, Go, WgDone, Gone);
    assert u.procs[k := Gone] == v.procs[k := Gone];
  }

  /** The first call has started the broadcaster, the second is at `pc`, and so is the worker at `k`. */
  function Three<T>(k: Pc<T>, pc: Pc<T>): map<Tid, Pc<T>> {
    map[Call(0) := Done(Start, Nil), Worker(0) := k, Call(1) := pc]
  }

  lemma ThreeAfter<T>(k: Pc<T>, pc: Pc<T>, q: Pc<T>)
    ensures Call(1) in Three(k, pc) && Three(k, pc)[Call(1)] == pc && Worker(0) in Three(k, pc)
            && Three(k, pc)[Worker(0)] == k
    ensures Three(k, pc)[Call(1) := q] == Three(k, q) && Three(k, pc)[Worker(0) := q] == Three(q, pc)
  {
  }

  /** The Stop call goes on by a line other than the go statement. */
  lemma StopMoves<T(!new)>(s: State<T>, v: View<T>, k: Pc<T>, pc: Pc<T>, i: Instr<T>, q: Pc<T>, u: View<T>)
      returns (z: State<T>)
    requires Shows(s, v) && v.procs == Three(k, pc) && !pc.Status? && !i.GoWorker? && !i.GoSender?
    requires LineOf(v, pc) == Some((i, q)) && Possible(v, Call(1), i)
    requires u == After(v, Call(1), i, q).(procs := Three(k, q))
    ensures Shows(z, u)
  {
    hide Shows, LineOf, Possible, Three, WgAfter;
    ThreeAfter(k, pc, q);
    z := Advances(s, v, Call(1), u);
  }

  /** A Stop call begins. */
  lemma Stops<T(!new)>() returns (s: State<T>)
    ensures Shows(s, View(Some(Call(1)), true, false, 1, false, false, Three(Select, StopCancel)))
  {
    hide Shows;
    var t := Call(1);
    s := Started();
    var m: map<Tid, Pc<T>> := map[Call(0) := Done(Start, Nil), Worker(0) := Select];
    s := Enters(s, View<T>.View(None, true, false, 1, false, false, m), 1, Stop);
    var a := View<T>.View(Some(t), true, false, 1, false, false, Three(Select, Status(Stop)));
    assert m[t := Status(Stop)] == a.procs;
    var b := View<T>.View(Some(t), true, false, 1, false, false, Three(Select, StopCancel));
    assert a.procs[t := StopCancel] == b.procs;
    s := Advances(s, a, t, b);
  }

  /** It cancels the worker ... */
  lemma Cancels<T(!new)>() returns (s: State<T>)
    ensures Shows(s, View(Some(Call(1)), true, true, 1, false, false, Three(Select, StopWait)))
  {
    hide Shows, Three;
    s := Stops();
    var a := View<T>.View(Some(Call(1)), true, false, 1, false, false, Three(Select, StopCancel));
    var b := View<T>.View(Some(Call(1)), true, true, 1, false, false, Three(Select, StopWait));
    s := StopMoves(s, a, Select, StopCancel, CancelCtx, StopWait, b);
  }

  /** ... and waits for it. */
  lemma Waits<T(!new)>() returns (s: State<T>)
    ensures Shows(s, View(Some(Call(1)), true, true, 0, false, false, Three(Gone, StopRange)))
  {
    hide Shows, Three;
    s := Cancels();
    var a := View<T>.View(Some(Call(1)), true, true, 1, false, false, Three(Select, StopWait));
    ThreeAfter<T>(Select, StopWait, Gone);
    s := Exits(s, a, Worker(0));
    var b := View<T>.View(Some(Call(1)), true, true, 0, false, false, Three(Gone, StopWait));
    var c := View<T>.View(Some(Call(1)), true, true, 0, false, false, Three(Gone, StopRange));
    s := StopMoves(s, b, Gone, StopWait, WgWait, StopRange, c);
  }

  /** It closes the channel ... */
  lemma Closes<T(!new)>() returns (s: State<T>)
    ensures Shows(s, View(Some(Call(1)), true, true, 0, true, false, Three(Gone, StopMark)))
  {
    hide Shows, Three;
    s := Waits();
    var a := View<T>.View(Some(Call(1)), true, true, 0, false, false, Three(Gone, StopRange));
    ThreeAfter<T>(Gone, StopRange, StopClose);
    s := Sweeps(s, a, Call(1));
    var b := View<T>.View(Some(Call(1)), true, true, 0, false, false, Three(Gone, StopClose));
    var c := View<T>.View(Some(Call(1)), true, true, 0, true, false, Three(Gone, StopMark));
    s := StopMoves(s, b, Gone, StopClose, CloseChan, StopMark, c);
  }

  /** ... and returns nil. */
  lemma Stopped<T(!new)>() returns (s: State<T>)
    ensures Shows(s, View(None, false, true, 0, true, true, Three(Gone, Done(Stop, Nil))))
  {
    hide Shows, Three;
    s := Closes();
    var a := View<T>.View(Some(Call(1)), true, true, 0, true, false, Three(Gone, StopMark));
    var b := View<T>.View(Some(Call(1)), false, true, 0, true, true, Three(Gone, Unlock(Stop, Nil)));
    s := StopMoves(s, a, Gone, StopMark, SetStopped, Unlock(Stop, Nil), b);
    var c := View<T>.View(None, false, true, 0, true, true, Three(Gone, Done(Stop, Nil)));
    s := StopMoves(s, b, Gone, Unlock(Stop, Nil), WRelease, Done(Stop, Nil), c);
  }

  /**
   Start, Stop and Start again: the second Start call finds the flag down after a Stop that has succeeded,
   and from there some run faults.
   */
  lemma RestartPanics<T(!new)>(v: T) returns (s: State<T>, z: State<T>)
    ensures Reachable(s) && At(s, Call(1)) == Done(Stop, Nil) && s.log.stopped
    ensures At(s, Call(2)) == Status(Start) && Apply(s, Do(Call(2), Go)) == Some(z) && CanPanic(z)
  {
    hide Reachable, CanPanic, Exec;
    s := Stopped();
    var procs := s.procs;
    s := Enters(s, View(None, false, true, 0, true, true, procs), 2, Start);
    z := Exec(s, Call(2), Nop, StartAdd);
    StartSafeIff(s, 2, z, v);
  }
}
