/** cond_wait over whole runs: the mutex comes back at the depth it was given up at, and every
    wake-up is accounted for by one signal or broadcast. */
module CondWait {
  import opened StateModel
  import opened Machine
  import opened Invariant
  import opened Preservation
  import opened Frames
  import opened Safety

  /** `h` holds mutex `m` at depth `d`; depth 0 means it does not own it. */
  ghost predicate HoldsAt(s: Machine, h: Handle, m: Key, d: int) {
    d >= 0 && if d == 0 then !Owns(s, h, m) else Owns(s, h, m) && s.st.mutexes[m].recursiveCount == d
  }

  /** Where a thread that called cond_wait on `e.m` at depth `e.depth` can be, and how deep it holds the mutex there. */
  ghost predicate EntryAt(s: Machine, h: Handle, e: WaitEntry, c: Control) {
    if c.User? then HoldsAt(s, h, e.m, e.depth) && (c.ret == 0 ==> e.depth >= 1)
    else if c.At? || c.Waiting? || c.DrainWaiting? then
      match c.k
      case CondRelease(_, m) => m == e.m && HoldsAt(s, h, m, e.depth)
      case CondCheck(_, m) => m == e.m && HoldsAt(s, h, m, e.depth - 1)
      case CondAgain(_, m) => m == e.m && HoldsAt(s, h, m, e.depth - 1)
      case LockCheck(m) => m == e.m && e.depth == 1
      case LockAgain(m) => m == e.m && e.depth == 1
      case _ => false
    else false
  }

  ghost predicate EntryOk(s: Machine, h: Handle) {
    h in s.log.cond.entryDepth && Live(s, h) ==> EntryAt(s, h, s.log.cond.entryDepth[h], s.ctl[h])
  }

  ghost predicate TallyOk(s: Machine, h: Handle) {
    Live(s, h) ==> Tally(s.log.cond.slept, h) == Tally(s.log.cond.woken, h) + if OnCondQueue(s, h) then 1 else 0
  }

  ghost predicate WaitLog(s: Machine) {
    && (forall h {:trigger EntryOk(s, h)} :: EntryOk(s, h))
    && (forall h {:trigger TallyOk(s, h)} :: TallyOk(s, h))
  }

  lemma BystanderEntry(s: Machine, s': Machine, x: Handle)
    requires Bystander(s, s', x) && EntryOk(s, x) && TallyOk(s, x) && Live(s', x)
    ensures EntryOk(s', x) && TallyOk(s', x)
  {
    if x in s.log.cond.entryDepth {
      var m := s.log.cond.entryDepth[x].m;
      assert QueueOf(s.ctl[x]) != OnMutex(m) ==> (Owns(s', x, m) <==> Owns(s, x, m));
    }
  }

  /** A step of `h` that moves no mutex and no queue and keeps the point. */
  lemma SamePoint(s: Machine, s': Machine, h: Handle)
    requires EntryOk(s, h) && TallyOk(s, h) && Live(s, h) && Live(s', h)
    requires s'.st.mutexes == s.st.mutexes && s'.st.conds == s.st.conds
    requires s'.log.cond.entryDepth == s.log.cond.entryDepth && s'.log.cond.slept == s.log.cond.slept && s'.log.cond.woken == s.log.cond.woken
    requires PointOf(s.ctl[h]).Some? && PointOf(s'.ctl[h]) == PointOf(s.ctl[h]) && !s'.ctl[h].RealJoining?
    requires !s.ctl[h].RealJoining?
    ensures EntryOk(s', h) && TallyOk(s', h)
  {
  }

  lemma OwnLocked(s: Machine, s': Machine, h: Handle, m: Key, depth: int, waiters: seq<Handle>)
    requires Locking(s, h, m) && LockedBy(s, s', h, m, depth, waiters) && EntryOk(s, h) && TallyOk(s, h)
    requires !s.ctl[h].k.CondRelease? && (h in s.log.cond.entryDepth ==> s.log.cond.entryDepth[h].m == m)
    requires if m in s.st.mutexes then s.st.mutexes[m].ownerTid == h && s.st.mutexes[m].recursiveCount == depth - 1 else depth == 1
    ensures EntryOk(s', h) && TallyOk(s', h)
  {
    Runner(s, h);
    if m in s.st.mutexes { assert MutexOk(s, m); }
  }

  lemma OwnQueuesUp(s: Machine, s': Machine, h: Handle, m: Key)
    requires Locking(s, h, m) && QueuesUp(s, s', h, m) && EntryOk(s, h) && TallyOk(s, h)
    requires !s.ctl[h].k.CondRelease? && (h in s.log.cond.entryDepth ==> s.log.cond.entryDepth[h].m == m)
    ensures EntryOk(s', h) && TallyOk(s', h)
  {
    Runner(s, h);
  }

  lemma OwnLockPass(s: Machine, h: Handle, m: Key)
    requires Locking(s, h, m) && EntryOk(s, h) && TallyOk(s, h)
    requires !s.ctl[h].k.CondRelease? && (h in s.log.cond.entryDepth ==> s.log.cond.entryDepth[h].m == m)
    ensures EntryOk(LockPass(s, h, m), h) && TallyOk(LockPass(s, h, m), h)
  {
    hide EntryOk, TallyOk;
    Runner(s, h);
    if m !in s.st.mutexes {
      OwnLocked(s, LockPass(s, h, m), h, m, 1, []);
    } else {
      var x := s.st.mutexes[m];
      assert MutexOk(s, m);
      if x.ownerTid == h {
        OwnLocked(s, LockPass(s, h, m), h, m, x.recursiveCount + 1, x.waiters);
      } else {
        assert h !in x.waiters;
        OwnQueuesUp(s, LockPass(s, h, m), h, m);
      }
    }
  }

  lemma OwnJoinsCond(s: Machine, s': Machine, h: Handle, c: Key, m: Key)
    requires JoinsCond(s, s', h, c, m) && s'.log == Sleeps(s, h)
    requires TallyOk(s, h)
    requires h in s.log.cond.entryDepth ==> s.log.cond.entryDepth[h].m == m && HoldsAt(s, h, m, s.log.cond.entryDepth[h].depth - 1)
    ensures EntryOk(s', h) && TallyOk(s', h)
  {
    Runner(s, h);
  }

  lemma OwnCondRelease(s: Machine, h: Handle, c: Key, m: Key, tape: Tape)
    requires Inv(s) && h in s.ctl && s.ctl[h] == At(Go, CondRelease(c, m)) && EntryOk(s, h) && TallyOk(s, h)
    ensures EntryOk(StepCondRelease(s, h, c, m, tape), h) && TallyOk(StepCondRelease(s, h, c, m, tape), h)
  {
    Runner(s, h);
    UnlockLeaves(s, h, m, tape);
    KeepUnlock(s, h, m, tape);
    UnlockFrame(s, h, m, tape);
    var (s1, r) := UnlockPass(s, h, m, tape);
    Runner(s1, h);
    if r != 0 {
      assert EntryOk(Goto(s, h, User(r)), h) && TallyOk(Goto(s, h, User(r)), h);
    } else {
      UnlockHasDepth(s, h, m);
    hide UnlockPass;
      assert m in s1.st.mutexes ==> MutexOk(s1, m);
      OwnJoinsCond(s1, StepCondRelease(s, h, c, m, tape), h, c, m);
    }
  }

  /** Any step of `h` itself under GMTX. */
  lemma OwnStep(s: Machine, h: Handle, tape: Tape)
    requires Inv(s) && Enabled(s, StepL(h)) && EntryOk(s, h) && TallyOk(s, h)
    ensures EntryOk(Step(s, h, tape), h) && TallyOk(Step(s, h, tape), h)
  {
    Runner(s, h);
    var k := s.ctl[h].k;
    match s.ctl[h].phase
    case Drain(_) => QuietDrain(s, h, tape); SamePoint(s, Step(s, h, tape), h);
    case DrainLoop(_, _) => QuietDrain(s, h, tape); SamePoint(s, Step(s, h, tape), h);
    case Switch => QuietSwitch(s, h, k, tape); SamePoint(s, StepSwitch(s, h, k, tape), h);
    case Go => OwnGo(s, h, k, tape);
  }

  lemma OwnGo(s: Machine, h: Handle, k: Point, tape: Tape)
    requires Inv(s) && h in s.ctl && s.ctl[h] == At(Go, k) && EntryOk(s, h) && TallyOk(s, h)
    ensures EntryOk(StepGo(s, h, k, tape), h) && TallyOk(StepGo(s, h, k, tape), h)
  {
    Runner(s, h);
    match k
    case LockLoop(m) => OwnLockPass(s, h, m);
    case LockAgain(m) => OwnLockPass(s, h, m);
    case CondAgain(_, m) => OwnLockPass(s, h, m);
    case CondRelease(c, m) => OwnCondRelease(s, h, c, m, tape);
    case LockCheck(m) => OwnCheck(s, h, k, m, tape);
    case CondCheck(_, m) => OwnCheck(s, h, k, m, tape);
    case _ => OwnElsewhere(s, h, k, tape);
  }

  lemma OwnCheck(s: Machine, h: Handle, k: Point, m: Key, tape: Tape)
    requires Inv(s) && h in s.ctl && s.ctl[h] == At(Go, k) && EntryOk(s, h) && TallyOk(s, h)
    requires k == LockCheck(m) || (k.CondCheck? && k.m == m)
    ensures EntryOk(StepGo(s, h, k, tape), h) && TallyOk(StepGo(s, h, k, tape), h)
  {
    Runner(s, h);
    if T(s.st, h).isBlocking {
      var s' := StepGo(s, h, k, tape);
      assert s'.st.mutexes == s.st.mutexes && s'.st.conds == s.st.conds && s'.log == s.log;
    } else {
      OwnLockPass(s, h, m);
    }
  }

  /** Points of other calls: there is no cond_wait to account for. */
  lemma OwnElsewhere(s: Machine, h: Handle, k: Point, tape: Tape)
    requires Inv(s) && h in s.ctl && s.ctl[h] == At(Go, k) && EntryOk(s, h) && TallyOk(s, h)
    requires k.Ret? || k.TryLock? || k.BarrierMake? || k.BarrierJoin? || k.BarrierCheck? || k.BarrierAgain?
             || k.JoinCheck? || k.JoinCall? || k.CreateBody?
    ensures EntryOk(StepGo(s, h, k, tape), h) && TallyOk(StepGo(s, h, k, tape), h)
  {
    Runner(s, h);
    assert h !in s.log.cond.entryDepth && !OnCondQueue(s, h);
    if k.TryLock? {
      OwnTry(s, h, k.m, tape);
    } else {
      if k.BarrierMake? || k.BarrierJoin? || k.BarrierCheck? || k.BarrierAgain? {
        BarrierLog(s, h, k, tape);
      } else {
        ReturnLog(s, h, k, tape);
      }
    }
  }

  lemma OwnTry(s: Machine, h: Handle, m: Key, tape: Tape)
    requires Inv(s) && h in s.ctl && s.ctl[h] == At(Go, TryLock(m)) && EntryOk(s, h) && TallyOk(s, h)
    ensures EntryOk(StepGo(s, h, TryLock(m), tape), h) && TallyOk(StepGo(s, h, TryLock(m), tape), h)
  {
    Runner(s, h);
    var tid := T(s.st, h).tid;
    if (m in s.st.mutexes && s.st.mutexes[m].ownerTid == tid && m !in s.st.recursiveMutexes) || WillBlock(s.st, m, tid) {
      var s' := Goto(s, h, User(EBUSY));
      assert EntryOk(s', h) && TallyOk(s', h);
    } else {
      OwnLockPass(s, h, m);
    }
  }

  /** A step of `h` that leaves its cond_wait history alone. */
  ghost predicate NoCondLog(s: Machine, s': Machine, h: Handle) {
    && (h in s'.log.cond.entryDepth ==> h in s.log.cond.entryDepth) && h in s'.ctl && !QueueOf(s'.ctl[h]).OnCond?
    && Tally(s'.log.cond.slept, h) == Tally(s.log.cond.slept, h) && Tally(s'.log.cond.woken, h) == Tally(s.log.cond.woken, h)
  }

  lemma BarrierLog(s: Machine, h: Handle, k: Point, tape: Tape)
    requires h in s.ctl && (k.BarrierMake? || k.BarrierJoin? || k.BarrierCheck? || k.BarrierAgain?)
    ensures NoCondLog(s, StepGo(s, h, k, tape), h)
  {
    hide BarrierArrive;
    match k
    case BarrierMake(_, n) => if n == 0 {} else {}
    case BarrierJoin(b) => if b in s.st.barriers {} else {}
    case BarrierCheck(_, _) => if T(s.st, h).isBlocking {} else {}
    case BarrierAgain(_, _) =>
  }

  lemma ReturnLog(s: Machine, h: Handle, k: Point, tape: Tape)
    requires h in s.ctl && (k.Ret? || k.JoinCheck? || k.JoinCall? || (k.CreateBody? && k.c != h))
    ensures NoCondLog(s, StepGo(s, h, k, tape), h)
  {
    match k
    case Ret(_) =>
    case JoinCheck(t) => if t in s.st.threads {} else {}
    case JoinCall(t) => if t in s.st.threads {} else {}
    case CreateBody(c) =>
  }

  // ---------------------------------------------------------------- calls and whole runs

  lemma OwnCall(s: Machine, h: Handle, op: Op, tape: Tape)
    requires Inv(s) && h in s.ctl && s.ctl[h].User? && Allowed(s, h, op) && EntryOk(s, h) && TallyOk(s, h)
    ensures EntryOk(Call(s, h, op, tape), h) && TallyOk(Call(s, h, op, tape), h)
  {
    var s0 := Forget(s, h);
    KeepLogged(s, s0, h);
    assert EntryOk(s0, h) && TallyOk(s0, h);
    match op
    case Exit => KeepExit(s0, h, tape); ExitLeaves(s0, h, tape);
    case Unlock(m) => OwnUnlock(s0, h, m, tape);
    case Signal(c) => OwnSignal(s0, h, c, tape);
    case Broadcast(c) => OwnBroadcast(s0, h, c);
    case MutexInit(_, _) =>
    case _ => OwnEnter(s, h, op, tape);
  }

  lemma OwnUnlock(s: Machine, h: Handle, m: Key, tape: Tape)
    requires h in s.ctl && s.ctl[h].User? && h !in s.log.cond.entryDepth && TallyOk(s, h)
    ensures EntryOk(CallUnlock(s, h, m, tape), h) && TallyOk(CallUnlock(s, h, m, tape), h)
  {
    UnlockFrame(s, h, m, tape);
  }

  lemma OwnBroadcast(s: Machine, h: Handle, c: Key)
    requires Inv(s) && h in s.ctl && s.ctl[h].User? && h !in s.log.cond.entryDepth && TallyOk(s, h)
    ensures EntryOk(CallBroadcast(s, h, c), h) && TallyOk(CallBroadcast(s, h, c), h)
  {
    assert c in s.st.conds ==> CondOk(s, c);
  }

  lemma OwnEnter(s: Machine, h: Handle, op: Op, tape: Tape)
    requires Inv(s) && h in s.ctl && s.ctl[h].User? && TallyOk(s, h)
    requires !op.Exit? && !op.Unlock? && !op.Signal? && !op.Broadcast? && !op.MutexInit?
    ensures EntryOk(Call(s, h, op, tape), h) && TallyOk(Call(s, h, op, tape), h)
  {
    Runner(s, h);
    if op.Wait? {
      assert op.m in s.st.mutexes ==> MutexOk(s, op.m);
    } else if op.Join? {
    } else {
    }
  }

  lemma OwnSignal(s: Machine, h: Handle, c: Key, tape: Tape)
    requires Inv(s) && h in s.ctl && s.ctl[h].User? && h !in s.log.cond.entryDepth && TallyOk(s, h)
    ensures EntryOk(CallSignal(s, h, c, tape), h) && TallyOk(CallSignal(s, h, c, tape), h)
  {
    var ws := CondWaiters(s.st, c);
    if ws == [] {
    } else {
      assert CondOk(s, c);
      assert ws[ChooseIndex(s.st, |ws|, tape).1] in ws;
    }
  }

  /** Every step keeps every thread's cond_wait accounts. */
  lemma WaitLogNext(s: Machine, l: Label, tape: Tape)
    requires Inv(s) && Enabled(s, l) && WaitLog(s)
    ensures WaitLog(Next(s, l, tape))
  {
    var s' := Next(s, l, tape);
    var h := l.h;
    KeepNext(s, l, tape);
    assert EntryOk(s, h) && TallyOk(s, h);
    OwnNext(s, l, tape);
    forall x ensures EntryOk(s', x) && TallyOk(s', x) {
      assert EntryOk(s, x) && TallyOk(s, x);
      if x != h {
        if Live(s, x) {
          AsideNext(s, l, tape, x);
          BystanderEntry(s, s', x);
        } else {
          StrangerNext(s, l, tape, x);
        }
      }
    }
  }

  lemma OwnNext(s: Machine, l: Label, tape: Tape)
    requires Inv(s) && Enabled(s, l) && EntryOk(s, l.h) && TallyOk(s, l.h)
    ensures EntryOk(Next(s, l, tape), l.h) && TallyOk(Next(s, l, tape), l.h)
  {
    var h := l.h;
    assert Live(s, h) && ThreadOk(s, h);
    match l
    case CallL(_, op) => OwnCall(s, h, op, tape);
    case StepL(_) => OwnStep(s, h, tape);
    case ResumeL(_) => if s.ctl[h].Waiting? { SamePoint(s, Resume(s, h), h); } else { SamePoint(s, Resume(s, h), h); }
    case RegisterL(_) =>
    case JoinReturnL(_) =>
  }

  /** A new thread starts with empty accounts. */
  lemma StrangerNext(s: Machine, l: Label, tape: Tape, x: Handle)
    requires Inv(s) && Enabled(s, l) && x != l.h && !Live(s, x)
    ensures EntryOk(Next(s, l, tape), x) && TallyOk(Next(s, l, tape), x)
  {
    hide PointOk, MutexOk, CondOk, BarrierOk, JoinOk;
    if Live(Next(s, l, tape), x) {
      NewcomerNext(s, l, tape, x);
      Runner(s, l.h);
      assert Next(s, l, tape) == StepCreate(s, l.h, x);
    }
  }

  lemma {:induction false} RunWaitLog(states: seq<Machine>, labels: seq<Label>, main: Handle, tape: Tape, i: nat)
    requires Run(states, labels, main, tape) && i <= |labels|
    ensures WaitLog(states[i])
  {
    if i > 0 {
      RunWaitLog(states, labels, main, tape, i - 1);
      RunInv(states, labels, main, tape, i - 1);
      assert Enabled(states[i - 1], labels[i - 1]);
      WaitLogNext(states[i - 1], labels[i - 1], tape);
    }
  }

  /** In every run, a thread back from a cond_wait on `e.m` that returned 0 owns the mutex at the
      depth it had on entry, virtually and in reality. */
  lemma ReturnsAtEntryDepth(states: seq<Machine>, labels: seq<Label>, main: Handle, tape: Tape, i: nat, h: Handle)
    requires Run(states, labels, main, tape) && i <= |labels|
    requires h in states[i].ctl && states[i].ctl[h] == User(0) && h in states[i].log.cond.entryDepth
    ensures var e := states[i].log.cond.entryDepth[h];
      && e.depth >= 1 && HoldsAt(states[i], h, e.m, e.depth)
      && e.m in states[i].held && states[i].held[e.m] == RealMutex(h, e.depth)
  {
    RunWaitLog(states, labels, main, tape, i);
    RunInv(states, labels, main, tape, i);
    assert EntryOk(states[i], h);
    RealAgrees(states[i], states[i].log.cond.entryDepth[h].m);
  }

  /** In every run, a thread has been taken off condition queues exactly as often as it was put
      on, except for the queue it still stands in. */
  lemma WakeUpsMatch(states: seq<Machine>, labels: seq<Label>, main: Handle, tape: Tape, i: nat, h: Handle)
    requires Run(states, labels, main, tape) && i <= |labels| && Live(states[i], h)
    ensures Tally(states[i].log.cond.slept, h) == Tally(states[i].log.cond.woken, h) + if OnCondQueue(states[i], h) then 1 else 0
    ensures states[i].ctl[h].User? ==> Tally(states[i].log.cond.slept, h) == Tally(states[i].log.cond.woken, h)
  {
    RunWaitLog(states, labels, main, tape, i);
    assert TallyOk(states[i], h);
  }

  /** Giving up the mutex and queueing on the condition are one step: no other thread can signal in between. */
  lemma ReleaseQueuesAtOnce(s: Machine, h: Handle, c: Key, m: Key, tape: Tape)
    requires Inv(s) && h in s.ctl && s.ctl[h] == At(Go, CondRelease(c, m)) && Owns(s, h, m)
    ensures var s' := Step(s, h, tape);
      && DepthOf(s'.st, h, m) == DepthOf(s.st, h, m) - 1
      && CondWaiters(s'.st, c) == CondWaiters(s.st, c) + [h] && T(s'.st, h).isBlocking
      && s'.ctl[h] == At(Drain(true), CondCheck(c, m))
  {
    Runner(s, h);
    UnlockLeaves(s, h, m, tape);
    UnlockFrame(s, h, m, tape);
    var (s1, r) := UnlockPass(s, h, m, tape);
    KeepUnlock(s, h, m, tape);
    Runner(s1, h);
  }

  /** The thread a signal on `key` takes off its queue. */
  ghost function Woken(s: Machine, key: Key, tape: Tape): Handle
    requires CondWaiters(s.st, key) != []
  {
    CondWaiters(s.st, key)[tape(s.st.draws) % |CondWaiters(s.st, key)|]
  }

  /** A signal takes exactly one thread off a queue that is not empty, and touches no other queue. */
  lemma SignalMeans(s: Machine, h: Handle, key: Key, tape: Tape)
    requires Inv(s) && h in s.ctl
    ensures var s', ws := Call(s, h, Signal(key), tape), CondWaiters(s.st, key);
      && s'.ctl == s.ctl[h := At(Drain(true), Ret(0))]
      && (forall k {:trigger CondWaiters(s'.st, k)} :: k != key ==> CondWaiters(s'.st, k) == CondWaiters(s.st, k))
      && (ws == [] ==> CondWaiters(s'.st, key) == [])
      && (ws != [] ==> Woken(s, key, tape) in ws && forall x :: x in CondWaiters(s'.st, key) <==> x in ws && x != Woken(s, key, tape))
  {
    var ws := CondWaiters(s.st, key);
    assert key in s.st.conds ==> CondOk(s, key);
    if ws == [] {} else {}
  }

  /** A broadcast takes everybody off the queue, unblocks exactly them, and touches no other queue. */
  lemma BroadcastMeans(s: Machine, h: Handle, key: Key, tape: Tape)
    requires Inv(s) && h in s.ctl && s.ctl[h].User?
    ensures var s', ws := Call(s, h, Broadcast(key), tape), CondWaiters(s.st, key);
      && s'.ctl == s.ctl[h := At(Drain(true), Ret(0))]
      && CondWaiters(s'.st, key) == []
      && (forall k {:trigger CondWaiters(s'.st, k)} :: k != key ==> CondWaiters(s'.st, k) == CondWaiters(s.st, k))
      && (forall x {:trigger T(s'.st, x)} :: x in ws ==> T(s.st, x).isBlocking && T(s'.st, x) == T(s.st, x).(isBlocking := false))
      && (forall x {:trigger T(s'.st, x)} :: x !in ws ==> T(s'.st, x) == T(s.st, x))
      && s'.st == s.st.(conds := s'.st.conds, info := s'.st.info) && s'.held == s.held && s'.turn == s.turn
  {
    var ws := CondWaiters(s.st, key);
    forall x | x in ws ensures T(s.st, x).isBlocking { QueuedHere(s, x, OnCond(key)); }
  }

  /** Between states `k` and `k + 1`, `x` leaves the queue of `c`. */
  ghost predicate LeavesQueue(states: seq<Machine>, k: nat, c: Key, x: Handle)
    requires k + 1 < |states|
  {
    x in CondWaiters(states[k].st, c) && x !in CondWaiters(states[k + 1].st, c)
  }

  /** `x` is at the point of cond_wait on `c` where it gives up the mutex and queues. */
  ghost predicate GoesToSleep(s: Machine, l: Label, c: Key, x: Handle) {
    l == StepL(x) && x in s.ctl && s.ctl[x].At? && s.ctl[x].phase.Go? && s.ctl[x].k.CondRelease? && s.ctl[x].k.c == c
  }

  /** A step that takes a thread off a condition queue is another thread's broadcast, or its signal that drew this one. */
  lemma TakesOff(s: Machine, l: Label, tape: Tape, c: Key, x: Handle)
    requires Inv(s) && Enabled(s, l) && x in CondWaiters(s.st, c) && x !in CondWaiters(Next(s, l, tape).st, c)
    ensures l.CallL? && l.h != x && (l.op == Broadcast(c) || (l.op == Signal(c) && Woken(s, c, tape) == x))
  {
    OnlySignalsWake(s, l, tape, c, x);
    QueuedHere(s, x, OnCond(c));
    if l.op.Signal? { SignalMeans(s, l.h, c, tape); }
  }

  /** A step that puts a thread on a condition queue is its own, in cond_wait. */
  lemma PutsOn(s: Machine, l: Label, tape: Tape, c: Key, x: Handle)
    requires Inv(s) && Enabled(s, l)
    ensures x in CondWaiters(Next(s, l, tape).st, c) ==> x in CondWaiters(s.st, c) || GoesToSleep(s, l, c, x)
  {
    var h := l.h;
    match l
    case CallL(_, op) =>
      if op.Exit? { ExitLeavesRoster(s, h, tape); } else { CallRoster(s, h, op, tape); }
      if op.Signal? { SignalMeans(s, h, op.c, tape); }
      if op.Broadcast? { BroadcastMeans(s, h, op.c, tape); }
    case StepL(_) =>
      match s.ctl[h].phase {
        case Drain(_) => if s.st.pendingChild.None? {} else {}
        case DrainLoop(d, _) => Runner(s, h); if !s.args[d] {} else {}
        case Switch => SwitchRoster(s, h, s.ctl[h].k, tape);
        case Go => GoRoster(s, h, s.ctl[h].k, tape);
      }
    case ResumeL(_) => if s.ctl[h].Waiting? {} else {}
    case RegisterL(_) => if h in s.args {} else {}
    case JoinReturnL(_) =>
  }

  /** A thread that leaves a queue leaves it at some step first. */
  lemma {:induction false} FirstOff(states: seq<Machine>, i: nat, j: nat, c: Key, x: Handle) returns (k: nat)
    requires i <= j < |states| && x in CondWaiters(states[i].st, c) && x !in CondWaiters(states[j].st, c)
    ensures i <= k < j && LeavesQueue(states, k, c, x)
    ensures forall m {:trigger states[m]} :: i <= m <= k ==> x in CondWaiters(states[m].st, c)
    decreases j - i
  {
    if x in CondWaiters(states[i + 1].st, c) {
      k := FirstOff(states, i + 1, j, c, x);
    } else {
      k := i;
    }
  }

  /** In a run, a thread off a queue gets back on it only by calling cond_wait again. */
  lemma {:induction false} BackOn(states: seq<Machine>, labels: seq<Label>, main: Handle, tape: Tape, i: nat, j: nat, c: Key, x: Handle) returns (k: nat)
    requires Run(states, labels, main, tape) && i <= j <= |labels|
    requires x !in CondWaiters(states[i].st, c) && x in CondWaiters(states[j].st, c)
    ensures i <= k < j && GoesToSleep(states[k], labels[k], c, x)
    decreases j - i
  {
    if x in CondWaiters(states[j - 1].st, c) {
      k := BackOn(states, labels, main, tape, i, j - 1, c, x);
    } else {
      k := j - 1;
      RunInv(states, labels, main, tape, k);
      assert Enabled(states[k], labels[k]);
      PutsOn(states[k], labels[k], tape, c, x);
    }
  }

  lemma UserNotQueued(s: Machine, c: Key, x: Handle)
    requires Inv(s) && x in s.ctl && s.ctl[x].User?
    ensures x !in CondWaiters(s.st, c)
  {
    QueuedHere(s, x, OnCond(c));
  }

  /** Whoever leaves a queue twice has gone to sleep there in between. */
  lemma SleepsAgain(states: seq<Machine>, labels: seq<Label>, main: Handle, tape: Tape, k: nat, j: nat, c: Key, x: Handle)
    requires Run(states, labels, main, tape) && k < j <= |labels| && LeavesQueue(states, k, c, x)
    ensures forall m {:trigger LeavesQueue(states, m, c, x)} :: k < m < j && LeavesQueue(states, m, c, x) ==>
              exists n :: k < n < m && GoesToSleep(states[n], labels[n], c, x)
  {
    hide GoesToSleep;
    assert |states| == |labels| + 1;
    forall m | k < m < j && LeavesQueue(states, m, c, x) ensures exists n :: k < n < m && GoesToSleep(states[n], labels[n], c, x) {
      var n := BackOn(states, labels, main, tape, k + 1, m, c, x);
    }
  }

  /** Each wake-up is matched to one signal or broadcast: in every run, a thread that stands on a
      condition queue at one point and no longer at a later one was taken off it in between by
      another thread's broadcast on that condition or a signal on it that drew this thread, and by
      no second one unless it has gone to sleep there again. A thread back in user code stands on
      no queue, so no cond_wait returns without a wake-up. */
  lemma OneWakeUp(states: seq<Machine>, labels: seq<Label>, main: Handle, tape: Tape, i: nat, j: nat, c: Key, x: Handle) returns (k: nat)
    requires Run(states, labels, main, tape) && i <= j <= |labels| && x in CondWaiters(states[i].st, c)
    requires x !in CondWaiters(states[j].st, c) || (x in states[j].ctl && states[j].ctl[x].User?)
    ensures i <= k < j && LeavesQueue(states, k, c, x)
    ensures forall m {:trigger states[m]} :: i <= m <= k ==> x in CondWaiters(states[m].st, c)
    ensures forall m {:trigger LeavesQueue(states, m, c, x)} :: k < m < j && LeavesQueue(states, m, c, x) ==>
              exists n :: k < n < m && GoesToSleep(states[n], labels[n], c, x)
    ensures labels[k].CallL? && labels[k].h != x
    ensures labels[k].op == Broadcast(c) || (labels[k].op == Signal(c) && CondWaiters(states[k].st, c) != [] && Woken(states[k], c, tape) == x)
  {
    hide Inv, GoesToSleep;
    if x in CondWaiters(states[j].st, c) {
      RunInv(states, labels, main, tape, j);
      UserNotQueued(states[j], c, x);
    }
    k := FirstOff(states, i, j, c, x);
    RunInv(states, labels, main, tape, k);
    assert Enabled(states[k], labels[k]) && x in CondWaiters(states[k].st, c);
    TakesOff(states[k], labels[k], tape, c, x);
    SleepsAgain(states, labels, main, tape, k, j, c, x);
  }
}
