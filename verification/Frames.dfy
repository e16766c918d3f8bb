/** What one thread's step leaves alone in the others. */
module Frames {
  import opened Prelude
  import opened StateModel
  import opened Machine
  import opened Invariant
  import opened Preservation

  /** The same control point, perhaps with the wake-up signal now on its way. */
  ghost predicate SameSeat(c: Control, c': Control) {
    c' == c || (c.Waiting? && c'.Waiting? && c'.k == c.k)
  }

  ghost predicate Owns(s: Machine, x: Handle, m: Key) {
    m in s.st.mutexes && s.st.mutexes[m].ownerTid == x
  }

  ghost predicate OnCondQueue(s: Machine, x: Handle) {
    x in s.ctl && QueueOf(s.ctl[x]).OnCond? && x in CondWaiters(s.st, QueueOf(s.ctl[x]).c)
  }

  /** A live thread `x` as seen across a step of another thread: it keeps its place, every mutex it
      owns and its depth; it gets a mutex only if it queues for it; it leaves its condition queue
      only with a wake-up on record. */
  ghost predicate Bystander(s: Machine, s': Machine, x: Handle) {
    && Live(s, x) && x in s'.ctl && SameSeat(s.ctl[x], s'.ctl[x])
    && (forall m {:trigger Owns(s, x, m)} {:trigger Owns(s', x, m)} :: QueueOf(s.ctl[x]) != OnMutex(m) ==>
          (Owns(s', x, m) <==> Owns(s, x, m)) && (Owns(s, x, m) ==> s'.st.mutexes[m].recursiveCount == s.st.mutexes[m].recursiveCount))
    && (x in s'.log.cond.entryDepth <==> x in s.log.cond.entryDepth)
    && (x in s.log.cond.entryDepth ==> s'.log.cond.entryDepth[x] == s.log.cond.entryDepth[x])
    && Tally(s'.log.cond.slept, x) == Tally(s.log.cond.slept, x)
    && (OnCondQueue(s', x) ==> OnCondQueue(s, x))
    && Tally(s'.log.cond.woken, x) == Tally(s.log.cond.woken, x) + (if OnCondQueue(s, x) && !OnCondQueue(s', x) then 1 else 0)
  }

  /** Nothing but control points and thread records changes. */
  ghost predicate Quiet(s: Machine, s': Machine) {
    && s'.st.mutexes == s.st.mutexes && s'.st.conds == s.st.conds
    && s'.log.cond.entryDepth == s.log.cond.entryDepth && s'.log.cond.slept == s.log.cond.slept && s'.log.cond.woken == s.log.cond.woken
  }

  lemma QuietBystander(s: Machine, s': Machine, x: Handle)
    requires Quiet(s, s') && Live(s, x) && x in s'.ctl && SameSeat(s.ctl[x], s'.ctl[x])
    ensures Bystander(s, s', x)
  {
  }

  lemma AsideDrain(s: Machine, h: Handle, cs: bool, k: Point, x: Handle)
    requires Live(s, x) && x != h
    ensures Bystander(s, StepDrain(s, h, cs, k), x)
  {
    if s.st.pendingChild.None? {
      QuietBystander(s, StepDrain(s, h, cs, k), x);
    } else {
      QuietBystander(s, StepDrain(s, h, cs, k), x);
    }
  }

  lemma AsideDrainLoop(s: Machine, h: Handle, c: Handle, cs: bool, k: Point, x: Handle)
    requires Live(s, x) && x != h
    ensures Bystander(s, StepDrainLoop(s, h, c, cs, k), x)
  {
    if c !in s.args {
      QuietBystander(s, StepDrainLoop(s, h, c, cs, k), x);
    } else if !s.args[c] {
      QuietBystander(s, StepDrainLoop(s, h, c, cs, k), x);
    } else {
      QuietBystander(s, StepDrainLoop(s, h, c, cs, k), x);
    }
  }

  lemma AsideSwitch(s: Machine, h: Handle, k: Point, tape: Tape, x: Handle)
    requires Inv(s) && h in s.ctl && s.ctl[h] == At(Switch, k) && Live(s, x) && x != h
    ensures Bystander(s, StepSwitch(s, h, k, tape), x)
  {
    Runner(s, h);
    var next := Choose(SetStarted(s.st, h), tape).1;
    if |s.st.threads| <= 1 || next.None? || next.value == h {
      QuietBystander(s, StepSwitch(s, h, k, tape), x);
    } else if next.value in s.ctl && s.ctl[next.value].Waiting? && !s.ctl[next.value].signalled {
      QuietBystander(s, StepSwitch(s, h, k, tape), x);
    } else {
      QuietBystander(s, StepSwitch(s, h, k, tape), x);
    }
  }

  /** A change to one mutex, as the other threads see it. */
  ghost predicate MutexChange(s: Machine, s': Machine, h: Handle, m: Key) {
    && (forall k {:trigger k in s'.st.mutexes} :: k != m ==>
          (k in s'.st.mutexes <==> k in s.st.mutexes) && (k in s.st.mutexes ==> s'.st.mutexes[k] == s.st.mutexes[k]))
    && s'.st.conds == s.st.conds
    && s'.log.cond.entryDepth == s.log.cond.entryDepth && s'.log.cond.slept == s.log.cond.slept && s'.log.cond.woken == s.log.cond.woken
  }

  lemma MutexBystander(s: Machine, s': Machine, h: Handle, m: Key, x: Handle)
    requires MutexChange(s, s', h, m) && Live(s, x) && x != h && x in s'.ctl && SameSeat(s.ctl[x], s'.ctl[x])
    requires QueueOf(s.ctl[x]) != OnMutex(m) ==>
               (Owns(s', x, m) <==> Owns(s, x, m)) && (Owns(s, x, m) ==> s'.st.mutexes[m].recursiveCount == s.st.mutexes[m].recursiveCount)
    ensures Bystander(s, s', x)
  {
    forall k | QueueOf(s.ctl[x]) != OnMutex(k)
      ensures (Owns(s', x, k) <==> Owns(s, x, k)) && (Owns(s, x, k) ==> s'.st.mutexes[k].recursiveCount == s.st.mutexes[k].recursiveCount)
    {
      assert k in s'.st.mutexes || k !in s'.st.mutexes;
    }
  }

  lemma AsideLockPass(s: Machine, h: Handle, m: Key, x: Handle)
    requires Inv(s) && h in s.ctl && s.ctl[h].At? && Live(s, x) && x != h
    ensures Bystander(s, LockPass(s, h, m), x)
  {
    Runner(s, h);
    if m in s.st.mutexes && s.st.mutexes[m].ownerTid != h {
      MutexBystander(s, LockPass(s, h, m), h, m, x);
    } else {
      AsideRealLock(s, h, m, x);
    }
  }

  lemma AsideRealLock(s: Machine, h: Handle, m: Key, x: Handle)
    requires Inv(s) && h in s.ctl && s.ctl[h].At? && Live(s, x) && x != h
    requires m in s.st.mutexes ==> s.st.mutexes[m].ownerTid == h
    ensures Bystander(s, LockPass(s, h, m), x)
  {
    Runner(s, h);
    var s' := LockPass(s, h, m);
    var s1 := s.(st := TryAcquire(s.st, m, h).0);
    if m !in s.held {
    } else if s.held[m].holder == h && m in s.st.recursiveMutexes {
    } else {
    }
    MutexBystander(s, s', h, m, x);
  }

  lemma AsideUnlockPass(s: Machine, h: Handle, m: Key, tape: Tape, x: Handle)
    requires Inv(s) && h in s.ctl && Live(s, x) && x != h
    requires s.ctl[h].User? || (s.ctl[h].At? && s.ctl[h].phase.Go? && s.ctl[h].k.CondRelease? && s.ctl[h].k.m == m)
    ensures Bystander(s, UnlockPass(s, h, m, tape).0, x)
  {
    Runner(s, h);
    UnlockLeaves(s, h, m, tape);
    if m in s.st.mutexes && s.st.mutexes[m].ownerTid == h {
      UnlockerFacts(s, h, m);
      var y := s.st.mutexes[m];
      if y.recursiveCount > 1 {
        MutexBystander(s, UnlockPass(s, h, m, tape).0, h, m, x);
      } else if y.waiters == [] {
        MutexBystander(s, UnlockPass(s, h, m, tape).0, h, m, x);
      } else {
        var w := y.waiters[ChooseIndex(s.st, |y.waiters|, tape).1];
        assert w in y.waiters;
        assert ThreadOk(s, w);
        MutexBystander(s, UnlockPass(s, h, m, tape).0, h, m, x);
      }
    } else {
      QuietBystander(s, s, x);
    }
  }

  lemma BystanderTwice(s: Machine, s1: Machine, s2: Machine, x: Handle)
    requires Bystander(s, s1, x) && Bystander(s1, s2, x)
    ensures Bystander(s, s2, x)
  {
    assert QueueOf(s1.ctl[x]) == QueueOf(s.ctl[x]);
    forall m | QueueOf(s.ctl[x]) != OnMutex(m)
      ensures (Owns(s2, x, m) <==> Owns(s, x, m)) && (Owns(s, x, m) ==> s2.st.mutexes[m].recursiveCount == s.st.mutexes[m].recursiveCount)
    {
      assert Owns(s1, x, m) <==> Owns(s, x, m);
    }
  }

  /** `h` goes to another point and nothing `x` looks at changes. */
  lemma AsideGoto(s: Machine, h: Handle, c: Control, x: Handle)
    requires Live(s, x) && x != h
    ensures Bystander(s, Goto(s, h, c), x)
  {
    QuietBystander(s, Goto(s, h, c), x);
  }

  lemma AsideEnqueue(s: Machine, s': Machine, h: Handle, c: Key, x: Handle)
    requires Live(s, x) && x != h && x in s'.ctl && s'.ctl[x] == s.ctl[x]
    requires s'.st.mutexes == s.st.mutexes && s'.st.conds == s.st.conds[c := CondWaiters(s.st, c) + [h]]
    requires s'.log == Sleeps(s, h)
    ensures Bystander(s, s', x)
  {
  }

  lemma AsideCondRelease(s: Machine, h: Handle, c: Key, m: Key, tape: Tape, x: Handle)
    requires Inv(s) && h in s.ctl && s.ctl[h] == At(Go, CondRelease(c, m)) && Live(s, x) && x != h
    ensures Bystander(s, StepCondRelease(s, h, c, m, tape), x)
  {
    AsideUnlockPass(s, h, m, tape, x);
    UnlockLeaves(s, h, m, tape);
    var (s1, r) := UnlockPass(s, h, m, tape);
    if r != 0 {
      AsideGoto(s1, h, User(r), x);
    } else {
      AsideEnqueue(s1, StepCondRelease(s, h, c, m, tape), h, c, x);
    }
    BystanderTwice(s, s1, StepCondRelease(s, h, c, m, tape), x);
  }

  lemma AsideUnlock(s: Machine, h: Handle, m: Key, tape: Tape, x: Handle)
    requires Inv(s) && h in s.ctl && s.ctl[h].User? && Live(s, x) && x != h
    ensures Bystander(s, CallUnlock(s, h, m, tape), x)
  {
    AsideUnlockPass(s, h, m, tape, x);
    UnlockLeaves(s, h, m, tape);
    var (s1, r) := UnlockPass(s, h, m, tape);
    AsideGoto(s1, h, At(Drain(true), Ret(r)), x);
    BystanderTwice(s, s1, CallUnlock(s, h, m, tape), x);
  }

  lemma AsideSignal(s: Machine, h: Handle, c: Key, tape: Tape, x: Handle)
    requires Inv(s) && h in s.ctl && s.ctl[h].User? && Live(s, x) && x != h
    ensures Bystander(s, CallSignal(s, h, c, tape), x)
  {
    var ws := CondWaiters(s.st, c);
    if ws == [] {
      QuietBystander(s, CallSignal(s, h, c, tape), x);
    } else {
      var s' := CallSignal(s, h, c, tape);
      assert CondOk(s, c);
      var i := ChooseIndex(s.st, |ws|, tape).1;
      assert ws[i] in ws;
      assert CondWaiters(s'.st, c) == RemoveAt(ws, i);
      assert forall k :: k != c ==> CondWaiters(s'.st, k) == CondWaiters(s.st, k);
    }
  }

  lemma AsideBroadcast(s: Machine, h: Handle, c: Key, x: Handle)
    requires Inv(s) && h in s.ctl && s.ctl[h].User? && Live(s, x) && x != h
    ensures Bystander(s, CallBroadcast(s, h, c), x)
  {
    var s' := CallBroadcast(s, h, c);
    assert c in s.st.conds ==> CondOk(s, c);
    assert CondWaiters(s'.st, c) == [];
    assert forall k :: k != c ==> CondWaiters(s'.st, k) == CondWaiters(s.st, k);
  }

  lemma AsideBarrier(s: Machine, h: Handle, k: Point, tape: Tape, x: Handle)
    requires Inv(s) && h in s.ctl && s.ctl[h] == At(Go, k) && (k.BarrierMake? || k.BarrierJoin?) && Live(s, x) && x != h
    ensures Bystander(s, StepGo(s, h, k, tape), x)
  {
    hide Inv;
    var s' := StepGo(s, h, k, tape);
    if k.BarrierMake? {
      if k.n == 0 { QuietBystander(s, s', x); } else { QuietBystander(s, s', x); }
    } else {
      if k.b !in s.st.barriers { QuietBystander(s, s', x); } else { QuietBystander(s, s', x); }
    }
  }

  lemma AsideJoin(s: Machine, h: Handle, k: Point, tape: Tape, x: Handle)
    requires Inv(s) && h in s.ctl && s.ctl[h] == At(Go, k) && (k.JoinCheck? || k.JoinCall? || k.CreateBody?) && Live(s, x) && x != h
    ensures Bystander(s, StepGo(s, h, k, tape), x)
  {
    Runner(s, h);
    if k.CreateBody? {
      assert x != k.c;
      assert Bystander(s, StepCreate(s, h, k.c), x);
    } else if k.t in s.st.threads {
      QuietBystander(s, StepGo(s, h, k, tape), x);
    } else {
      QuietBystander(s, StepGo(s, h, k, tape), x);
    }
  }

  /** The last part of an exit: signalling whoever was chosen. */
  lemma AsideWake(s: Machine, s1: Machine, next: Handle, x: Handle)
    requires Live(s, x) && Quiet(s, s1) && x in s1.ctl && s1.ctl[x] == s.ctl[x]
    ensures Bystander(s, SignalThread(s1, next), x)
  {
    if next in s1.ctl && s1.ctl[next].Waiting? && !s1.ctl[next].signalled {
      QuietBystander(s, SignalThread(s1, next), x);
    } else {
      QuietBystander(s, SignalThread(s1, next), x);
    }
  }

  lemma AsideExit(s: Machine, h: Handle, tape: Tape, x: Handle)
    requires Live(s, x) && x != h
    ensures Bystander(s, CallExit(s, h, tape), x)
  {
    var stray := s.log.strayExit || s.st.pendingChild.Some?;
    var (st2, next) := Choose(Departed(s.st, h), tape);
    var s1 := Goto(s.(st := st2, turn := None, log := s.log.(strayExit := stray)), h, Exited);
    assert s1.st.mutexes == s.st.mutexes && s1.st.conds == s.st.conds by {
      if T(s.st, h).joiner.Some? {} else {}
    }
    if next.Some? {
      AsideWake(s, s1, next.value, x);
    } else {
      QuietBystander(s, s1, x);
    }
  }

  lemma AsideGo(s: Machine, h: Handle, k: Point, tape: Tape, x: Handle)
    requires Inv(s) && h in s.ctl && s.ctl[h] == At(Go, k) && Live(s, x) && x != h
    ensures Bystander(s, StepGo(s, h, k, tape), x)
  {
    match k
    case Ret(r) => AsideGoto(s, h, User(r), x);
    case LockLoop(m) => AsideLockPass(s, h, m, x);
    case LockCheck(m) => AsideCheck(s, h, k, m, tape, x);
    case LockAgain(m) => AsideLockPass(s, h, m, x);
    case TryLock(m) => AsideCheck(s, h, k, m, tape, x);
    case CondRelease(c, m) => AsideCondRelease(s, h, c, m, tape, x);
    case CondCheck(_, m) => AsideCheck(s, h, k, m, tape, x);
    case CondAgain(_, m) => AsideLockPass(s, h, m, x);
    case BarrierMake(_, _) => AsideBarrier(s, h, k, tape, x);
    case BarrierJoin(_) => AsideBarrier(s, h, k, tape, x);
    case BarrierCheck(_, _) => AsideCheck(s, h, k, 0, tape, x);
    case BarrierAgain(_, released) => AsideGoto(s, h, User(if released then SERIAL else 0), x);
    case JoinCheck(_) => AsideJoin(s, h, k, tape, x);
    case JoinCall(_) => AsideJoin(s, h, k, tape, x);
    case CreateBody(_) => AsideJoin(s, h, k, tape, x);
  }

  lemma AsideCheck(s: Machine, h: Handle, k: Point, m: Key, tape: Tape, x: Handle)
    requires Inv(s) && h in s.ctl && s.ctl[h] == At(Go, k) && Live(s, x) && x != h
    requires k == LockCheck(m) || k == TryLock(m) || (k.CondCheck? && k.m == m) || k.BarrierCheck?
    ensures Bystander(s, StepGo(s, h, k, tape), x)
  {
    var s' := StepGo(s, h, k, tape);
    if k.TryLock? && s' == Goto(s, h, User(EBUSY)) {
      AsideGoto(s, h, User(EBUSY), x);
    } else if k.TryLock? || (!k.BarrierCheck? && !T(s.st, h).isBlocking) {
      AsideLockPass(s, h, m, x);
    } else if T(s.st, h).isBlocking {
      QuietBystander(s, s', x);
    } else {
      AsideGoto(s, h, User(if k.released then SERIAL else 0), x);
    }
  }

  lemma AsideCall(s: Machine, h: Handle, op: Op, tape: Tape, x: Handle)
    requires Inv(s) && h in s.ctl && s.ctl[h].User? && Allowed(s, h, op) && Live(s, x) && x != h
    ensures Bystander(s, Call(s, h, op, tape), x)
  {
    var s0 := Forget(s, h);
    assert Bystander(s, s0, x);
    KeepLogged(s, s0, h);
    match op
    case Exit => AsideExit(s0, h, tape, x); BystanderTwice(s, s0, Call(s, h, op, tape), x);
    case Unlock(m) => AsideUnlock(s0, h, m, tape, x); BystanderTwice(s, s0, Call(s, h, op, tape), x);
    case Signal(c) => AsideSignal(s0, h, c, tape, x); BystanderTwice(s, s0, Call(s, h, op, tape), x);
    case Broadcast(c) => AsideBroadcast(s0, h, c, x); BystanderTwice(s, s0, Call(s, h, op, tape), x);
    case MutexInit(_, _) => assert Bystander(s, Call(s, h, op, tape), x);
    case _ => AsideEnter(s, h, op, tape, x);
  }

  lemma AsideEnter(s: Machine, h: Handle, op: Op, tape: Tape, x: Handle)
    requires Live(s, x) && x != h && h in s.ctl && !op.Exit? && !op.Unlock? && !op.Signal? && !op.Broadcast? && !op.MutexInit?
    ensures Bystander(s, Call(s, h, op, tape), x)
  {
    if op.Join? {
      assert Bystander(s, Call(s, h, op, tape), x);
    } else if op.Wait? {
      assert Bystander(s, Call(s, h, op, tape), x);
    } else {
      assert Bystander(s, Call(s, h, op, tape), x);
    }
  }

  /** Every step of one thread is a bystander's step for every other live thread. */
  lemma AsideNext(s: Machine, l: Label, tape: Tape, x: Handle)
    requires Inv(s) && Enabled(s, l) && Live(s, x) && x != l.h
    ensures Bystander(s, Next(s, l, tape), x)
  {
    match l
    case CallL(h, op) => AsideCall(s, h, op, tape, x);
    case StepL(h) =>
      var k := s.ctl[h].k;
      match s.ctl[h].phase {
        case Drain(cs) => AsideDrain(s, h, cs, k, x);
        case DrainLoop(c, cs) => AsideDrainLoop(s, h, c, cs, k, x);
        case Switch => AsideSwitch(s, h, k, tape, x);
        case Go => AsideGo(s, h, k, tape, x);
      }
    case ResumeL(h) => if s.ctl[h].Waiting? { QuietBystander(s, Resume(s, h), x); } else { QuietBystander(s, Resume(s, h), x); }
    case RegisterL(h) => assert ThreadOk(s, h); QuietBystander(s, Register(s, h), x);
    case JoinReturnL(h) => QuietBystander(s, JoinReturn(s, h), x);
  }

  /** Before its point is reached, a call changes no mutex and no queue. */
  lemma QuietSwitch(s: Machine, h: Handle, k: Point, tape: Tape)
    requires Inv(s) && h in s.ctl && s.ctl[h] == At(Switch, k)
    ensures var s' := StepSwitch(s, h, k, tape);
      Quiet(s, s') && h in s'.ctl && (s'.ctl[h] == At(Go, k) || s'.ctl[h] == Waiting(k, false))
      && s'.st.barriers == s.st.barriers && s'.log.barriers.rounds == s.log.barriers.rounds && s'.log.barriers.seats == s.log.barriers.seats
  {
    Runner(s, h);
    var next := Choose(SetStarted(s.st, h), tape).1;
    if |s.st.threads| <= 1 || next.None? || next.value == h {
    } else {
      assert Live(s, next.value);
      Others(s, h, next.value);
    }
  }

  lemma QuietDrain(s: Machine, h: Handle, tape: Tape)
    requires Inv(s) && h in s.ctl && s.ctl[h].At? && (s.ctl[h].phase.Drain? || s.ctl[h].phase.DrainLoop?)
    ensures var s' := Step(s, h, tape);
      Quiet(s, s') && h in s'.ctl && (s'.ctl[h].At? || s'.ctl[h].DrainWaiting?) && s'.ctl[h].k == s.ctl[h].k
      && s'.st.barriers == s.st.barriers && s'.log.barriers.rounds == s.log.barriers.rounds && s'.log.barriers.seats == s.log.barriers.seats
  {
    Runner(s, h);
    match s.ctl[h].phase
    case Drain(_) => if s.st.pendingChild.None? {} else {}
    case DrainLoop(c, _) => if !s.args[c] {} else {}
  }

  // ---------------------------------------------------------------- what locking and unlocking leave alone

  /** A pass of the mutex_lock loop moves the caller and touches nothing else but thread records and mutexes. */
  lemma LockFrame(s: Machine, h: Handle, m: Key)
    ensures var s' := LockPass(s, h, m);
      && s' == s.(st := s'.st, ctl := s'.ctl, held := s'.held, faults := s'.faults)
      && s'.st == s.st.(info := s'.st.info, mutexes := s'.st.mutexes)
      && (s'.ctl == s.ctl[h := User(0)] || s'.ctl == s.ctl[h := At(Drain(true), LockCheck(m))])
  {
    var (st1, got) := TryAcquire(s.st, m, h);
    if got { if m !in s.held {} else if s.held[m].holder == h && m in st1.recursiveMutexes {} else {} } else {}
  }

  /** A call that only enters rsched moves the caller and notes the call. */
  lemma EnterFrame(s: Machine, h: Handle, op: Op, tape: Tape)
    requires !op.Exit? && !op.Unlock? && !op.Signal? && !op.Broadcast? && !op.MutexInit?
    ensures var s' := Call(s, h, op, tape);
      && s' == s.(ctl := s.ctl[h := Entry(s, h, op)], log := s'.log)
      && s'.log == s.log.(joins := if op.Join? then s.log.joins[op.t := h] else s.log.joins, cond := s'.log.cond)
  {
    if op.Join? {} else if op.Wait? {} else {}
  }

  /** Every call but exit moves the caller alone: out of rsched, to the point that returns, or to where the call enters. */
  lemma CallMoves(s: Machine, h: Handle, op: Op, tape: Tape)
    requires !op.Exit?
    ensures var s' := Call(s, h, op, tape);
      h in s'.ctl && s'.ctl == s.ctl[h := s'.ctl[h]]
      && (s'.ctl[h] == Entry(s, h, op) || s'.ctl[h] == User(0) || (s'.ctl[h].At? && s'.ctl[h].phase == Drain(true) && s'.ctl[h].k.Ret?))
  {
    hide UnlockPass, CondSignal, CondBroadcast, BumpAll, Entry;
    match op
    case Unlock(m) => UnlockFrame(Forget(s, h), h, m, tape);
    case Signal(_) =>
    case Broadcast(_) =>
    case MutexInit(_, _) =>
    case _ => EnterFrame(s, h, op, tape);
  }

  /** Unlocking moves nobody and touches nothing but thread records, mutexes and the generator. */
  lemma UnlockFrame(s: Machine, h: Handle, m: Key, tape: Tape)
    ensures var s' := UnlockPass(s, h, m, tape).0;
      && s' == s.(st := s'.st, held := s'.held, faults := s'.faults)
      && s'.st == s.st.(info := s'.st.info, mutexes := s'.st.mutexes, draws := s'.st.draws)
  {
    hide MutexUnlock;
    UnlockRecord(s.st, h, m, tape);
    var (st1, r) := MutexUnlock(s.st, m, h, tape);
    if r == 0 { if m in s.held && s.held[m].holder == h { if s.held[m].depth > 1 {} else {} } else {} } else {}
  }

  lemma UnlockRecord(st: State, h: Handle, m: Key, tape: Tape)
    ensures var st' := MutexUnlock(st, m, h, tape).0;
      st' == st.(info := st'.info, mutexes := st'.mutexes, draws := st'.draws)
  {
    hide RemoveAt, T;
    if m in st.mutexes && st.mutexes[m].recursiveCount <= 1 { if st.mutexes[m].waiters == [] {} else {} } else {}
  }

  // ---------------------------------------------------------------- who is registered, who queues

  /** Under GMTX only create registers anybody, and only the release in cond_wait changes a condition
      queue, by adding the caller. */
  lemma GoRoster(s: Machine, h: Handle, k: Point, tape: Tape)
    ensures !k.CreateBody? ==> StepGo(s, h, k, tape).st.threads == s.st.threads
    ensures !k.CondRelease? ==> StepGo(s, h, k, tape).st.conds == s.st.conds
    ensures k.CondRelease? ==> forall q ::
              (CondWaiters(StepGo(s, h, k, tape).st, q) == CondWaiters(s.st, q)
              || (q == k.c && CondWaiters(StepGo(s, h, k, tape).st, q) == CondWaiters(s.st, q) + [h]))
  {
    hide LockPass, UnlockPass, BarrierArrive;
    match k
    case CondRelease(c, m) => UnlockFrame(s, h, m, tape); if UnlockPass(s, h, m, tape).1 != 0 {} else {}
    case BarrierJoin(b) => ArriveRoster(s, h, b);
    case BarrierMake(_, n) => if n == 0 {} else {}
    case BarrierCheck(_, _) => if T(s.st, h).isBlocking {} else {}
    case JoinCheck(t) => if t in s.st.threads {} else {}
    case JoinCall(_) =>
    case BarrierAgain(_, _) =>
    case CreateBody(_) =>
    case Ret(_) =>
    case _ => LockRoster(s, h, k, tape);
  }

  lemma ArriveRoster(s: Machine, h: Handle, b: Key)
    ensures StepBarrierJoin(s, h, b).st.conds == s.st.conds && StepBarrierJoin(s, h, b).st.threads == s.st.threads
  {
    if b in s.st.barriers {} else {}
  }

  lemma LockRoster(s: Machine, h: Handle, k: Point, tape: Tape)
    requires k.LockLoop? || k.LockCheck? || k.LockAgain? || k.TryLock? || k.CondCheck? || k.CondAgain?
    ensures StepGo(s, h, k, tape).st.conds == s.st.conds && StepGo(s, h, k, tape).st.threads == s.st.threads
  {
    hide LockPass;
    LockFrame(s, h, k.m);
    if k.LockCheck? || k.CondCheck? { if T(s.st, h).isBlocking {} else {} }
  }

  lemma CallRoster(s: Machine, h: Handle, op: Op, tape: Tape)
    requires !op.Exit?
    ensures Call(s, h, op, tape).st.threads == s.st.threads
    ensures !op.Signal? && !op.Broadcast? ==> Call(s, h, op, tape).st.conds == s.st.conds
    ensures op.Signal? || op.Broadcast? ==> forall k :: k != op.c ==> CondWaiters(Call(s, h, op, tape).st, k) == CondWaiters(s.st, k)
  {
    var s0 := Forget(s, h);
    match op
    case Unlock(m) => UnlockFrame(s0, h, m, tape);
    case Signal(c) => if CondWaiters(s.st, c) == [] {} else {}
    case Broadcast(c) =>
    case MutexInit(_, _) =>
    case Join(_) =>
    case Wait(_, _) =>
    case _ =>
  }

  /** The registry changes only by a thread's exit and by create. */
  lemma ThreadsNext(s: Machine, l: Label, tape: Tape)
    requires Inv(s) && Enabled(s, l)
    requires !(l.CallL? && l.op.Exit?) && !(l.StepL? && s.ctl[l.h].phase.Go? && s.ctl[l.h].k.CreateBody?)
    ensures Next(s, l, tape).st.threads == s.st.threads
  {
    var h := l.h;
    match l
    case CallL(_, op) => CallRoster(s, h, op, tape);
    case StepL(_) =>
      match s.ctl[h].phase {
        case Drain(_) => if s.st.pendingChild.None? {} else {}
        case DrainLoop(c, _) => Runner(s, h); if !s.args[c] {} else {}
        case Switch => SwitchRoster(s, h, s.ctl[h].k, tape);
        case Go => GoRoster(s, h, s.ctl[h].k, tape);
      }
    case ResumeL(_) => if s.ctl[h].Waiting? {} else {}
    case RegisterL(_) => if h in s.args {} else {}
    case JoinReturnL(_) =>
  }

  /** Nobody but a newly created child joins the living. */
  lemma NewcomerNext(s: Machine, l: Label, tape: Tape, x: Handle)
    requires Inv(s) && Enabled(s, l) && Live(Next(s, l, tape), x)
    ensures Live(s, x) || (l.StepL? && s.ctl[l.h] == At(Go, CreateBody(x)))
  {
    KeepNext(s, l, tape);
    assert x in Next(s, l, tape).st.threads;
    if l.CallL? && l.op.Exit? {
      ExitLeavesRoster(s, l.h, tape);
    } else if !(l.StepL? && s.ctl[l.h].phase.Go? && s.ctl[l.h].k.CreateBody?) {
      ThreadsNext(s, l, tape);
    }
    assert x in s.st.threads ==> Live(s, x);
  }

  lemma SwitchRoster(s: Machine, h: Handle, k: Point, tape: Tape)
    requires Inv(s) && h in s.ctl && s.ctl[h] == At(Switch, k)
    ensures StepSwitch(s, h, k, tape).st.threads == s.st.threads && StepSwitch(s, h, k, tape).st.conds == s.st.conds
  {
    QuietSwitch(s, h, k, tape);
    Runner(s, h);
    var next := Choose(SetStarted(s.st, h), tape).1;
    if |s.st.threads| <= 1 || next.None? || next.value == h {
    } else {
      Others(s, h, next.value);
    }
  }

  lemma ExitLeavesRoster(s: Machine, h: Handle, tape: Tape)
    ensures forall x {:trigger x in Call(s, h, Exit, tape).st.threads} :: x in Call(s, h, Exit, tape).st.threads ==> x in s.st.threads
    ensures Call(s, h, Exit, tape).st.conds == s.st.conds
  {
    if T(s.st, h).joiner.Some? {} else {}
  }

  /** A sleeper is taken off its condition queue by a signal or broadcast on that condition, and by nothing else. */
  lemma OnlySignalsWake(s: Machine, l: Label, tape: Tape, c: Key, x: Handle)
    requires Inv(s) && Enabled(s, l)
    ensures x in CondWaiters(s.st, c) && x !in CondWaiters(Next(s, l, tape).st, c) ==>
              l.CallL? && (l.op == Signal(c) || l.op == Broadcast(c))
  {
    var h := l.h;
    match l
    case CallL(_, op) => if op.Exit? { ExitLeavesRoster(s, h, tape); } else { CallRoster(s, h, op, tape); }
    case StepL(_) =>
      match s.ctl[h].phase {
        case Drain(_) => if s.st.pendingChild.None? {} else {}
        case DrainLoop(c, _) => Runner(s, h); if !s.args[c] {} else {}
        case Switch => SwitchRoster(s, h, s.ctl[h].k, tape);
        case Go => GoRoster(s, h, s.ctl[h].k, tape);
      }
    case ResumeL(_) => if s.ctl[h].Waiting? {} else {}
    case RegisterL(_) => if h in s.args {} else {}
    case JoinReturnL(_) =>
  }
}
