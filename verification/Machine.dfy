/** The scheduler as a step machine: every OS thread is at a program point, and the stretch of
    code a thread runs while it holds the global lock GMTX is cut into small steps
    (`At` control points). Other threads may only step while nobody is `At`. */
module Machine {
  import opened Prelude
  import opened StateModel

  /** Where a call continues once it no longer waits inside rsched. Line numbers: rsched/src/lib.rs. */
  datatype Point =
    | Ret(r: int)                              // release GMTX and return r to the caller
    | LockLoop(m: Key)                         // 1362: enter the loop of mutex_lock
    | LockCheck(m: Key)                        // 309: after the loop's context switch
    | LockAgain(m: Key)                        // 312: after the loop's own wait
    | TryLock(m: Key)                          // 1396
    | CondRelease(c: Key, m: Key)              // 1488
    | CondCheck(c: Key, m: Key)                // 1508
    | CondAgain(c: Key, m: Key)                // 1511
    | BarrierMake(b: Key, n: nat)              // 1580
    | BarrierJoin(b: Key)                      // 1604
    | BarrierCheck(b: Key, released: bool)     // 1638
    | BarrierAgain(b: Key, released: bool)     // 1641
    | JoinCheck(t: Handle)                     // 1317
    | JoinCall(t: Handle)                      // 1323
    | CreateBody(c: Handle)                    // 1262

  /** What is left to do under GMTX before the point is reached. `cs` tells a full
      context switch (223) from a bare drain_pending_child (193). */
  datatype Phase = Drain(cs: bool) | DrainLoop(child: Handle, cs: bool) | Switch | Go

  datatype Control =
    | Starting                                          // OS thread created, trampoline not yet at 1188
    | User(ret: int)                                    // running user code
    | At(phase: Phase, k: Point)                        // running inside rsched, GMTX held
    | Waiting(k: Point, signalled: bool)                // in cond_wait on its own suspend_cond
    | DrainWaiting(child: Handle, cs: bool, k: Point)   // in cond_wait on the child's ready_cond (196)
    | RealJoining(t: Handle)                            // in the real pthread_join, GMTX released
    | Exited                                            // past do_thread_exit

  datatype RealMutex = RealMutex(holder: Handle, depth: int)

  /** A call of cond_wait: its mutex, and the depth the caller held it at. */
  datatype WaitEntry = WaitEntry(m: Key, depth: int)

  /** Things that must never happen. */
  datatype Fault = LostSignal | RealLockBlocks | RealUnlockFails | UseAfterFree

  /** History of condition variables, by thread. */
  datatype CondLog = CondLog(
    entryDepth: map<Handle, WaitEntry>,  // threads in, or just back from, cond_wait
    slept: map<Handle, nat>,             // times a thread was put on a condition queue
    woken: map<Handle, nat>)             // times a signal or broadcast took it off

  /** History of barriers. */
  datatype BarrierLog = BarrierLog(
    rounds: map<Key, seq<seq<Handle>>>,  // completed rounds of each barrier since its initialisation, in arrival order
    seats: map<Handle, nat>)             // the round of a thread's latest arrival

  /** History of a run, read by no step. */
  datatype Log = Log(
    joins: map<Handle, Handle>,          // join target -> the thread that called join
    picks: seq<Handle>,                  // every hand-over of the turn, in order
    cond: CondLog,
    barriers: BarrierLog,
    strayExit: bool)                     // some thread exited while a child was still pending

  datatype Machine = Machine(
    st: State,
    ctl: map<Handle, Control>,       // every OS thread not yet reaped by a join
    args: map<Handle, bool>,         // allocated StartArg boxes, by child: the `ready` flag
    held: map<Key, RealMutex>,       // the real pthread mutexes that are held
    turn: Option<Handle>,            // history: who was last handed the turn
    faults: set<Fault>,              // history: what went wrong
    log: Log)

  datatype Op =
    | Create(c: Handle) | Join(t: Handle) | Exit
    | MutexInit(m: Key, recursive: bool)                // also stands for destroying `m`, with false
    | Lock(m: Key) | TryLockOp(m: Key) | Unlock(m: Key)
    | Wait(c: Key, m: Key) | Signal(c: Key) | Broadcast(c: Key)
    | BarrierInit(b: Key, n: nat) | BarrierWait(b: Key)
    | Yield                                             // sched_yield and every atomic access

  function Init(main: Handle): Machine {
    Machine(State([main], map[main := NewThread(main).(startupDone := true)], map[], {}, map[], map[], None, 0),
            map[main := User(0)], map[], map[], Some(main), {}, Log(map[], [], CondLog(map[], map[], map[]), BarrierLog(map[], map[]), false))
  }

  // ---------------------------------------------------------------- shorthands

  function Goto(s: Machine, h: Handle, c: Control): Machine {
    s.(ctl := s.ctl[h := c])
  }

  function WithFault(s: Machine, f: Fault): Machine {
    s.(faults := s.faults + {f})
  }

  function Tally(m: map<Handle, nat>, h: Handle): nat {
    if h in m then m[h] else 0
  }

  function Bump(m: map<Handle, nat>, h: Handle): map<Handle, nat> {
    m[h := Tally(m, h) + 1]
  }

  function BumpAll(m: map<Handle, nat>, hs: seq<Handle>): (r: map<Handle, nat>)
    ensures forall h :: h !in hs ==> Tally(r, h) == Tally(m, h)
    ensures Distinct(hs) ==> forall h :: h in hs ==> Tally(r, h) == Tally(m, h) + 1
  {
    if hs == [] then m
    else
      assert hs == hs[..|hs| - 1] + [hs[|hs| - 1]];
      Bump(BumpAll(m, hs[..|hs| - 1]), hs[|hs| - 1])
  }

  /** The depth at which a thread holds the virtual mutex `m`. */
  function DepthOf(st: State, h: Handle, m: Key): int {
    if m in st.mutexes && st.mutexes[m].ownerTid == T(st, h).tid then st.mutexes[m].recursiveCount else 0
  }

  // ---------------------------------------------------------------- the real primitives

  /** pthread_cond_signal on a suspend_cond: it reaches a thread that is waiting there, or nobody. */
  function SignalThread(s: Machine, next: Handle): Machine {
    var s1 := s.(turn := Some(next), log := s.log.(picks := s.log.picks + [next]));
    if next in s.ctl && s.ctl[next].Waiting? && !s.ctl[next].signalled then
      Goto(s1, next, Waiting(s.ctl[next].k, true))
    else WithFault(s1, LostSignal)
  }

  function RealLock(s: Machine, h: Handle, m: Key): Machine {
    if m !in s.held then s.(held := s.held[m := RealMutex(h, 1)])
    else if s.held[m].holder == h && m in s.st.recursiveMutexes then
      s.(held := s.held[m := RealMutex(h, s.held[m].depth + 1)])
    else WithFault(s, RealLockBlocks)
  }

  function RealUnlock(s: Machine, h: Handle, m: Key): Machine {
    if m in s.held && s.held[m].holder == h then
      if s.held[m].depth > 1 then s.(held := s.held[m := RealMutex(h, s.held[m].depth - 1)])
      else s.(held := s.held - {m})
    else WithFault(s, RealUnlockFails)
  }

  // ---------------------------------------------------------------- steps under GMTX

  /** drain_pending_child, entered (194). */
  function StepDrain(s: Machine, h: Handle, cs: bool, k: Point): Machine {
    match s.st.pendingChild
    case None => Goto(s, h, At(if cs then Switch else Go, k))
    case Some(c) => Goto(s.(st := s.st.(pendingChild := None)), h, At(DrainLoop(c, cs), k))
  }

  /** drain_pending_child, at its loop test (195-201). */
  function StepDrainLoop(s: Machine, h: Handle, c: Handle, cs: bool, k: Point): Machine {
    if c !in s.args then WithFault(s, UseAfterFree)
    else if !s.args[c] then Goto(s, h, DrainWaiting(c, cs, k))
    else
      var st1 := if c in s.st.info then SetStarted(s.st, c) else s.st;
      Goto(s.(st := st1, args := s.args - {c}), h, At(if cs then Switch else Go, k))
  }

  /** context_switch after the drain (228-256), with wake (208-220) up to its wait. */
  function StepSwitch(s: Machine, h: Handle, k: Point, tape: Tape): Machine {
    if h !in s.st.threads || |s.st.threads| <= 1 then Goto(s, h, At(Go, k))
    else
      var (st1, next) := Choose(SetStarted(s.st, h), tape);
      var s1 := s.(st := st1);
      if next.None? || next.value == h then Goto(s1, h, At(Go, k))
      else
        var s2 := SignalThread(s1, next.value);
        Goto(s2.(st := SetInWait(s2.st, h, true)), h, Waiting(k, false))
  }

  /** Waiting on the own suspend_cond without having handed the turn to anybody (309-313, 1508-1512, 1638-1642). */
  function WaitAlone(s: Machine, h: Handle, k: Point): Machine {
    Goto(s.(st := SetInWait(s.st, h, true), turn := None), h, Waiting(k, false))
  }

  /** One pass of the mutex_lock loop, and on success the real lock and the return to the caller. */
  function LockPass(s: Machine, h: Handle, m: Key): Machine {
    var (st1, got) := TryAcquire(s.st, m, h);
    var s1 := s.(st := st1);
    if got then Goto(RealLock(s1, h, m), h, User(0))
    else Goto(s1, h, At(Drain(true), LockCheck(m)))
  }

  /** mutex_unlock, then the real unlock when it succeeded. */
  function UnlockPass(s: Machine, h: Handle, m: Key, tape: Tape): (Machine, int) {
    var (st1, r) := MutexUnlock(s.st, m, h, tape);
    var s1 := s.(st := st1);
    (if r == 0 then RealUnlock(s1, h, m) else s1, r)
  }

  function StepCondRelease(s: Machine, h: Handle, c: Key, m: Key, tape: Tape): Machine {
    var (s1, r) := UnlockPass(s, h, m, tape);
    if r != 0 then Goto(s1, h, User(r))
    else
      Goto(s1.(st := CondEnqueue(s1.st, c, h), log := Sleeps(s1, h)), h, At(Drain(true), CondCheck(c, m)))
  }

  function StepBarrierMake(s: Machine, h: Handle, b: Key, n: nat): Machine {
    if n == 0 then Goto(s, h, User(EINVAL))
    else
      Goto(s.(st := s.st.(barriers := s.st.barriers[b := SBarrier(n, [])]),
              log := s.log.(barriers := s.log.barriers.(rounds := s.log.barriers.rounds[b := []]))),
           h, User(0))
  }

  function StepBarrierJoin(s: Machine, h: Handle, b: Key): Machine {
    if b !in s.st.barriers then Goto(s, h, User(EINVAL))
    else
      var (st1, released) := BarrierArrive(s.st, b, h);
      var past := RoundsOf(s, b);
      var now := s.st.barriers[b].waiters + [h];
      Goto(s.(st := st1, log := s.log.(barriers := BarrierLog(s.log.barriers.rounds[b := if released then past + [now] else past],
                                                               s.log.barriers.seats[h := |past|]))),
           h, At(Drain(true), BarrierCheck(b, released)))
  }

  function RoundsOf(s: Machine, b: Key): seq<seq<Handle>> {
    if b in s.log.barriers.rounds then s.log.barriers.rounds[b] else []
  }

  function StepJoinCheck(s: Machine, h: Handle, t: Handle): Machine {
    if t in s.st.threads then
      var st1 := s.st.(info := s.st.info[t := T(s.st, t).(joiner := Some(h))]);
      Goto(s.(st := SetBlocking(st1, h, true)), h, At(Drain(true), JoinCall(t)))
    else Goto(s, h, At(Go, JoinCall(t)))
  }

  function StepJoinCall(s: Machine, h: Handle, t: Handle): Machine {
    Goto(if t in s.st.threads then s.(turn := None) else s, h, RealJoining(t))
  }

  function StepCreate(s: Machine, h: Handle, c: Handle): Machine {
    var s1 := s.(st := Add(s.st, c, 0).(pendingChild := Some(c)), args := s.args[c := false],
                 log := s.log.(cond := CondLog(s.log.cond.entryDepth - {c}, s.log.cond.slept - {c}, s.log.cond.woken - {c})));
    Goto(Goto(s1, c, Starting), h, User(0))
  }

  function StepGo(s: Machine, h: Handle, k: Point, tape: Tape): Machine {
    match k
    case Ret(r) => Goto(s, h, User(r))
    case LockLoop(m) => LockPass(s, h, m)
    case LockCheck(m) => if T(s.st, h).isBlocking then WaitAlone(s, h, LockAgain(m)) else LockPass(s, h, m)
    case LockAgain(m) => LockPass(s, h, m)
    case TryLock(m) =>
      if m in s.st.mutexes && s.st.mutexes[m].ownerTid == T(s.st, h).tid && m !in s.st.recursiveMutexes
      then Goto(s, h, User(EBUSY))
      else if WillBlock(s.st, m, T(s.st, h).tid) then Goto(s, h, User(EBUSY))
      else LockPass(s, h, m)
    case CondRelease(c, m) => StepCondRelease(s, h, c, m, tape)
    case CondCheck(c, m) => if T(s.st, h).isBlocking then WaitAlone(s, h, CondAgain(c, m)) else LockPass(s, h, m)
    case CondAgain(c, m) => LockPass(s, h, m)
    case BarrierMake(b, n) => StepBarrierMake(s, h, b, n)
    case BarrierJoin(b) => StepBarrierJoin(s, h, b)
    case BarrierCheck(b, released) =>
      if T(s.st, h).isBlocking then WaitAlone(s, h, BarrierAgain(b, released))
      else Goto(s, h, User(if released then SERIAL else 0))
    case BarrierAgain(b, released) => Goto(s, h, User(if released then SERIAL else 0))
    case JoinCheck(t) => StepJoinCheck(s, h, t)
    case JoinCall(t) => StepJoinCall(s, h, t)
    case CreateBody(c) => StepCreate(s, h, c)
  }

  /** One step of the thread that holds GMTX. */
  function Step(s: Machine, h: Handle, tape: Tape): Machine
    requires h in s.ctl && s.ctl[h].At?
  {
    var k := s.ctl[h].k;
    match s.ctl[h].phase
    case Drain(cs) => StepDrain(s, h, cs, k)
    case DrainLoop(c, cs) => StepDrainLoop(s, h, c, cs, k)
    case Switch => StepSwitch(s, h, k, tape)
    case Go => StepGo(s, h, k, tape)
  }

  // ---------------------------------------------------------------- entering and leaving rsched

  function CallUnlock(s: Machine, h: Handle, m: Key, tape: Tape): Machine {
    var (s1, r) := UnlockPass(s, h, m, tape);
    Goto(s1, h, At(Drain(true), Ret(r)))
  }

  function CallSignal(s: Machine, h: Handle, c: Key, tape: Tape): Machine {
    var ws := CondWaiters(s.st, c);
    var s1 := s.(st := CondSignal(s.st, c, tape),
                 log := s.log.(cond := s.log.cond.(woken :=
                   if ws == [] then s.log.cond.woken else Bump(s.log.cond.woken, ws[ChooseIndex(s.st, |ws|, tape).1]))));
    Goto(s1, h, At(Drain(true), Ret(0)))
  }

  function CallBroadcast(s: Machine, h: Handle, c: Key): Machine {
    Goto(s.(st := CondBroadcast(s.st, c),
            log := s.log.(cond := s.log.cond.(woken := BumpAll(s.log.cond.woken, CondWaiters(s.st, c))))),
         h, At(Drain(true), Ret(0)))
  }

  /** Initialising or destroying a mutex is no scheduling point (388-412). */
  function CallMutexInit(s: Machine, h: Handle, m: Key, recursive: bool): Machine {
    Goto(s.(st := NoteMutex(s.st, m, recursive)), h, User(0))
  }

  /** do_thread_exit (1149-1168). */
  function CallExit(s: Machine, h: Handle, tape: Tape): Machine {
    var joiner := T(s.st, h).joiner;
    var st1 := if joiner.Some? then SetBlocking(s.st, joiner.value, false) else s.st;
    var (st2, next) := Choose(Remove(st1, h), tape);
    var stray := s.log.strayExit || s.st.pendingChild.Some?;
    var s1 := Goto(s.(st := st2, turn := None, log := s.log.(strayExit := stray)), h, Exited);
    if next.Some? then SignalThread(s1, next.value) else s1
  }

  /** Where a call that changes nothing under GMTX before its first cut continues. */
  function Entry(s: Machine, h: Handle, op: Op): Control {
    match op
    case Create(c) => At(Drain(false), CreateBody(c))
    case Join(t) => At(Drain(true), JoinCheck(t))
    case Lock(m) => At(if WillBlock(s.st, m, T(s.st, h).tid) then Go else Drain(true), LockLoop(m))
    case TryLockOp(m) => At(Drain(true), TryLock(m))
    case Wait(c, m) => At(if WillBlock(s.st, m, T(s.st, h).tid) then Go else Drain(true), CondRelease(c, m))
    case BarrierInit(b, n) => At(Drain(true), BarrierMake(b, n))
    case BarrierWait(b) => At(Drain(false), BarrierJoin(b))
    case _ => At(Drain(true), Ret(0))
  }

  function Forget(s: Machine, h: Handle): Machine {
    s.(log := s.log.(cond := s.log.cond.(entryDepth := s.log.cond.entryDepth - {h})))
  }

  function Sleeps(s: Machine, h: Handle): Log {
    s.log.(cond := s.log.cond.(slept := Bump(s.log.cond.slept, h)))
  }

  /** A call from user code, up to the first cut. */
  function Call(s: Machine, h: Handle, op: Op, tape: Tape): Machine {
    var s0 := Forget(s, h);
    match op
    case Exit => CallExit(s0, h, tape)
    case Unlock(m) => CallUnlock(s0, h, m, tape)
    case Signal(c) => CallSignal(s0, h, c, tape)
    case Broadcast(c) => CallBroadcast(s0, h, c)
    case MutexInit(m, recursive) => CallMutexInit(s0, h, m, recursive)
    case Join(t) => Goto(s0.(log := s0.log.(joins := s.log.joins[t := h])), h, Entry(s, h, op))
    case Wait(c, m) =>
      Goto(s0.(log := s0.log.(cond := s0.log.cond.(entryDepth := s.log.cond.entryDepth[h := WaitEntry(m, DepthOf(s.st, h, m))]))), h, Entry(s, h, op))
    case _ => Goto(s0, h, Entry(s, h, op))
  }

  /** Coming back from a wait inside rsched, GMTX re-acquired. */
  function Resume(s: Machine, h: Handle): Machine
    requires h in s.ctl && (s.ctl[h].Waiting? || s.ctl[h].DrainWaiting?)
  {
    match s.ctl[h]
    case Waiting(k, _) => Goto(s.(st := SetInWait(s.st, h, false)), h, At(Go, k))
    case DrainWaiting(c, cs, k) => Goto(s, h, At(DrainLoop(c, cs), k))
  }

  /** The trampoline up to its initial wait (1188-1210). */
  function Register(s: Machine, h: Handle): Machine {
    var t := T(s.st, h).(tid := h, isInRschedWait := true);
    var s1 := Goto(s.(st := s.st.(info := s.st.info[h := t])), h, Waiting(Ret(0), false));
    if h in s.args then s1.(args := s.args[h := true]) else WithFault(s1, UseAfterFree)
  }

  /** The real pthread_join returns and reaps its target. */
  function JoinReturn(s: Machine, h: Handle): Machine
    requires h in s.ctl && s.ctl[h].RealJoining?
  {
    var t := s.ctl[h].t;
    Goto(s.(ctl := s.ctl - {t}, log := s.log.(joins := s.log.joins - {t})), h, User(0))
  }

  // ---------------------------------------------------------------- runs

  datatype Label = CallL(h: Handle, op: Op) | StepL(h: Handle) | ResumeL(h: Handle) | RegisterL(h: Handle) | JoinReturnL(h: Handle)

  predicate GmtxFree(s: Machine) {
    forall h :: h in s.ctl ==> !s.ctl[h].At?
  }

  predicate Live(s: Machine, h: Handle) {
    h in s.ctl && !s.ctl[h].Exited?
  }

  /** The discipline assumed of programs: fresh handles, one join per thread and none on itself,
      no relock of a non-recursive mutex, no initialising or destroying a mutex in use, no exit
      while holding a mutex. */
  predicate Allowed(s: Machine, h: Handle, op: Op) {
    match op
    case Create(c) => c != 0 && c !in s.ctl
    case Join(t) => t != h && t in s.ctl && t !in s.log.joins
    case Exit => forall m :: m in s.st.mutexes ==> s.st.mutexes[m].ownerTid != T(s.st, h).tid
    case MutexInit(m, _) => m !in s.st.mutexes
    case Lock(m) => m in s.st.mutexes && s.st.mutexes[m].ownerTid == T(s.st, h).tid ==> m in s.st.recursiveMutexes
    case _ => true
  }

  /** Whether a thread is inside barrier_wait on `b`. */
  predicate UsesBarrier(c: Control, b: Key) {
    var k := PointOf(c);
    k.Some? && (k.value.BarrierCheck? || k.value.BarrierAgain?) && k.value.b == b
  }

  function PointOf(c: Control): Option<Point> {
    if c.At? || c.Waiting? || c.DrainWaiting? then Some(c.k)
    else if c.RealJoining? then Some(JoinCall(c.t))
    else None
  }

  predicate Enabled(s: Machine, l: Label) {
    l.h in s.ctl &&
    match l
    case CallL(h, op) => GmtxFree(s) && s.ctl[h].User? && Allowed(s, h, op)
    case StepL(h) =>
      && s.ctl[h].At?
      // a barrier in use is not initialised again
      && (s.ctl[h].phase.Go? && s.ctl[h].k.BarrierMake? ==>
            forall x :: x in s.ctl ==> !UsesBarrier(s.ctl[x], s.ctl[h].k.b))
    case ResumeL(h) =>
      && GmtxFree(s)
      && match s.ctl[h] {
           case Waiting(_, signalled) => signalled
           case DrainWaiting(c, _, _) => c in s.args && s.args[c]
           case _ => false
         }
    case RegisterL(h) => GmtxFree(s) && s.ctl[h].Starting?
    case JoinReturnL(h) => GmtxFree(s) && s.ctl[h].RealJoining? && s.ctl[h].t in s.ctl && s.ctl[s.ctl[h].t].Exited?
  }

  function Next(s: Machine, l: Label, tape: Tape): Machine
    requires Enabled(s, l)
  {
    match l
    case CallL(h, op) => Call(s, h, op, tape)
    case StepL(h) => Step(s, h, tape)
    case ResumeL(h) => Resume(s, h)
    case RegisterL(h) => Register(s, h)
    case JoinReturnL(h) => JoinReturn(s, h)
  }
}
