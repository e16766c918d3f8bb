/** The record a thread leaves behind when it exits is never read again: what a step does depends
    only on the records of living threads. */
module Departures {
  import opened Prelude
  import opened StateModel
  import opened Machine
  import opened Invariant
  import opened Frames

  // ---------------------------------------------------------------- the record's operations

  /** The same record, but for what it says of threads outside `d`. */
  ghost predicate SameOn(d: set<Handle>, st: State, rt: State) {
    && rt == st.(info := rt.info)
    && (forall h {:trigger h in st.info} {:trigger h in rt.info} :: h in d ==> (h in rt.info <==> h in st.info))
    && (forall h {:trigger st.info[h]} {:trigger rt.info[h]} :: h in d && h in st.info && h in rt.info ==> rt.info[h] == st.info[h])
  }

  lemma OnT(d: set<Handle>, st: State, rt: State, h: Handle)
    requires SameOn(d, st, rt) && h in d
    ensures T(rt, h) == T(st, h) && (h in rt.info <==> h in st.info)
  {
  }

  lemma OnSet(d: set<Handle>, st: State, rt: State, h: Handle, t: Thread)
    requires SameOn(d, st, rt)
    ensures SameOn(d + {h}, st.(info := st.info[h := t]), rt.(info := rt.info[h := t]))
  {
  }

  lemma OnFlag(d: set<Handle>, st: State, rt: State, h: Handle, b: bool)
    requires SameOn(d, st, rt) && h in d
    ensures SameOn(d, SetBlocking(st, h, b), SetBlocking(rt, h, b))
    ensures SameOn(d, SetInWait(st, h, b), SetInWait(rt, h, b))
    ensures SameOn(d, SetStarted(st, h), SetStarted(rt, h))
  {
    OnT(d, st, rt, h);
  }

  lemma OnFields(d: set<Handle>, st: State, rt: State, st': State, rt': State)
    requires SameOn(d, st, rt) && st' == st'.(info := st.info) && rt' == st'.(info := rt.info)
    ensures SameOn(d, st', rt')
  {
  }

  lemma {:induction false} OnUnblock(d: set<Handle>, st: State, rt: State, ws: seq<Handle>)
    requires SameOn(d, st, rt) && forall w :: w in ws ==> w in d
    ensures SameOn(d, UnblockAll(st, ws), UnblockAll(rt, ws))
  {
    if ws != [] {
      assert ws[|ws| - 1] in ws;
      OnUnblock(d, st, rt, ws[..|ws| - 1]);
      OnFlag(d, UnblockAll(st, ws[..|ws| - 1]), UnblockAll(rt, ws[..|ws| - 1]), ws[|ws| - 1], false);
    }
  }

  lemma OnChoose(d: set<Handle>, st: State, rt: State, tape: Tape)
    requires SameOn(d, st, rt) && forall h :: h in st.threads ==> h in d
    ensures SameOn(d, Choose(st, tape).0, Choose(rt, tape).0) && Choose(rt, tape).1 == Choose(st, tape).1
  {
    forall i | 0 <= i < |st.threads| ensures BlockingFlags(rt)[i] == BlockingFlags(st)[i] {
      assert st.threads[i] in st.threads;
      OnT(d, st, rt, st.threads[i]);
    }
    assert BlockingFlags(rt) == BlockingFlags(st);
    if |st.threads| == 0 {} else {}
  }

  lemma OnAcquire(d: set<Handle>, st: State, rt: State, m: Key, h: Handle)
    requires SameOn(d, st, rt) && h in d
    ensures SameOn(d, TryAcquire(st, m, h).0, TryAcquire(rt, m, h).0) && TryAcquire(rt, m, h).1 == TryAcquire(st, m, h).1
  {
    OnT(d, st, rt, h);
    var tid := T(st, h).tid;
    var x := if m in st.mutexes then st.mutexes[m] else SMutex(tid, 0, []);
    if x.ownerTid == tid {
    } else {
      var y := if h in x.waiters then x else x.(waiters := x.waiters + [h]);
      OnFlag(d, st.(mutexes := st.mutexes[m := y]), rt.(mutexes := rt.mutexes[m := y]), h, true);
    }
  }

  lemma OnUnlock(d: set<Handle>, st: State, rt: State, m: Key, h: Handle, tape: Tape)
    requires SameOn(d, st, rt) && h in d && (m in st.mutexes ==> forall w :: w in st.mutexes[m].waiters ==> w in d)
    ensures SameOn(d, MutexUnlock(st, m, h, tape).0, MutexUnlock(rt, m, h, tape).0)
    ensures MutexUnlock(rt, m, h, tape).1 == MutexUnlock(st, m, h, tape).1
  {
    OnT(d, st, rt, h);
    if m in st.mutexes && st.mutexes[m].ownerTid == T(st, h).tid {
      var x := st.mutexes[m];
      if x.recursiveCount > 1 {
      } else if x.waiters == [] {
      } else {
        var (st1, i) := ChooseIndex(st, |x.waiters|, tape);
        var w := x.waiters[i];
        assert w in x.waiters;
        OnT(d, st, rt, w);
        var y := SMutex(T(st, w).tid, x.recursiveCount - 1, RemoveAt(x.waiters, i));
        OnFlag(d, st1.(mutexes := st.mutexes[m := y]), ChooseIndex(rt, |x.waiters|, tape).0.(mutexes := rt.mutexes[m := y]), w, false);
      }
    } else {
    }
  }

  lemma OnEnqueue(d: set<Handle>, st: State, rt: State, c: Key, h: Handle)
    requires SameOn(d, st, rt) && h in d
    ensures SameOn(d, CondEnqueue(st, c, h), CondEnqueue(rt, c, h))
  {
    var ws := CondWaiters(st, c) + [h];
    OnFlag(d, st.(conds := st.conds[c := ws]), rt.(conds := rt.conds[c := ws]), h, true);
  }

  lemma OnSignal(d: set<Handle>, st: State, rt: State, c: Key, tape: Tape)
    requires SameOn(d, st, rt) && forall w :: w in CondWaiters(st, c) ==> w in d
    ensures SameOn(d, CondSignal(st, c, tape), CondSignal(rt, c, tape))
  {
    var ws := CondWaiters(st, c);
    if ws == [] {
    } else {
      var (st1, i) := ChooseIndex(st, |ws|, tape);
      assert ws[i] in ws;
      OnFlag(d, st1.(conds := st.conds[c := RemoveAt(ws, i)]), ChooseIndex(rt, |ws|, tape).0.(conds := rt.conds[c := RemoveAt(ws, i)]), ws[i], false);
    }
  }

  lemma OnArrive(d: set<Handle>, st: State, rt: State, b: Key, h: Handle)
    requires SameOn(d, st, rt) && h in d && b in st.barriers && forall w :: w in st.barriers[b].waiters ==> w in d
    ensures SameOn(d, BarrierArrive(st, b, h).0, BarrierArrive(rt, b, h).0) && BarrierArrive(rt, b, h).1 == BarrierArrive(st, b, h).1
  {
    var x := st.barriers[b];
    var ws := if h in x.waiters then x.waiters else x.waiters + [h];
    var y := SBarrier(x.count, if |ws| < x.count then ws else []);
    if |ws| < x.count {
      OnFlag(d, st.(barriers := st.barriers[b := y]), rt.(barriers := rt.barriers[b := y]), h, true);
    } else {
      OnUnblock(d, st.(barriers := st.barriers[b := y]), rt.(barriers := rt.barriers[b := y]), ws);
    }
  }

  lemma OnDeparted(d: set<Handle>, st: State, rt: State, h: Handle)
    requires SameOn(d, st, rt) && h in d && (T(st, h).joiner.Some? ==> T(st, h).joiner.value in d)
    ensures SameOn(d, Departed(st, h), Departed(rt, h))
  {
    OnT(d, st, rt, h);
    var joiner := T(st, h).joiner;
    if joiner.Some? {
      OnFlag(d, st, rt, joiner.value, false);
      OnRemove(d, SetBlocking(st, joiner.value, false), SetBlocking(rt, joiner.value, false), h);
    } else {
      OnRemove(d, st, rt, h);
    }
  }

  lemma OnRemove(d: set<Handle>, st: State, rt: State, h: Handle)
    requires SameOn(d, st, rt) && h in d
    ensures SameOn(d, Remove(st, h), Remove(rt, h))
  {
    if h in st.info {} else {}
  }

  // ---------------------------------------------------------------- the machine's steps

  /** The same machine, but for the records of threads outside `d` and what no step reads. */
  ghost predicate Kin(d: set<Handle>, s: Machine, t: Machine) {
    && t == s.(st := t.st, log := t.log)
    && t.log.joins == s.log.joins && t.log.strayExit == s.log.strayExit
    && SameOn(d, s.st, t.st)
  }

  lemma KinDrain(d: set<Handle>, s: Machine, t: Machine, h: Handle, cs: bool, k: Point)
    requires Kin(d, s, t)
    ensures Kin(d, StepDrain(s, h, cs, k), StepDrain(t, h, cs, k))
  {
    if s.st.pendingChild.None? {} else {}
  }

  lemma KinDrainLoop(d: set<Handle>, s: Machine, t: Machine, h: Handle, c: Handle, cs: bool, k: Point)
    requires Kin(d, s, t) && c in d
    ensures Kin(d, StepDrainLoop(s, h, c, cs, k), StepDrainLoop(t, h, c, cs, k))
  {
    OnT(d, s.st, t.st, c);
    OnFlag(d, s.st, t.st, c, true);
    if c !in s.args {} else if !s.args[c] {} else if c in s.st.info {} else {}
  }

  lemma KinWake(d: set<Handle>, s: Machine, t: Machine, next: Handle)
    requires Kin(d, s, t)
    ensures Kin(d, SignalThread(s, next), SignalThread(t, next))
  {
    if next in s.ctl && s.ctl[next].Waiting? && !s.ctl[next].signalled {} else {}
  }

  lemma KinHandOver(d: set<Handle>, s: Machine, t: Machine, h: Handle, next: Handle, k: Point)
    requires Kin(d, s, t) && h in d
    ensures var s2, t2 := SignalThread(s, next), SignalThread(t, next);
      Kin(d, Goto(s2.(st := SetInWait(s2.st, h, true)), h, Waiting(k, false)), Goto(t2.(st := SetInWait(t2.st, h, true)), h, Waiting(k, false)))
  {
    hide SignalThread;
    KinWake(d, s, t, next);
    OnFlag(d, SignalThread(s, next).st, SignalThread(t, next).st, h, true);
  }

  lemma KinSwitch(d: set<Handle>, s: Machine, t: Machine, h: Handle, k: Point, tape: Tape)
    requires Kin(d, s, t) && h in d && forall x :: x in s.st.threads ==> x in d
    ensures Kin(d, StepSwitch(s, h, k, tape), StepSwitch(t, h, k, tape))
  {
    hide Choose, SignalThread;
    if h !in s.st.threads || |s.st.threads| <= 1 {
    } else {
      OnFlag(d, s.st, t.st, h, true);
      OnChoose(d, SetStarted(s.st, h), SetStarted(t.st, h), tape);
      var (st1, next) := Choose(SetStarted(s.st, h), tape);
      if next.None? || next.value == h {
      } else {
        KinHandOver(d, s.(st := st1), t.(st := Choose(SetStarted(t.st, h), tape).0), h, next.value, k);
      }
    }
  }

  lemma KinWaitAlone(d: set<Handle>, s: Machine, t: Machine, h: Handle, k: Point)
    requires Kin(d, s, t) && h in d
    ensures Kin(d, WaitAlone(s, h, k), WaitAlone(t, h, k))
  {
    OnFlag(d, s.st, t.st, h, true);
  }

  lemma KinRealLock(d: set<Handle>, s: Machine, t: Machine, h: Handle, m: Key)
    requires Kin(d, s, t)
    ensures Kin(d, RealLock(s, h, m), RealLock(t, h, m))
  {
    if m !in s.held {} else if s.held[m].holder == h && m in s.st.recursiveMutexes {} else {}
  }

  lemma KinRealUnlock(d: set<Handle>, s: Machine, t: Machine, h: Handle, m: Key)
    requires Kin(d, s, t)
    ensures Kin(d, RealUnlock(s, h, m), RealUnlock(t, h, m))
  {
    if m in s.held && s.held[m].holder == h { if s.held[m].depth > 1 {} else {} } else {}
  }

  lemma KinLockPass(d: set<Handle>, s: Machine, t: Machine, h: Handle, m: Key)
    requires Kin(d, s, t) && h in d
    ensures Kin(d, LockPass(s, h, m), LockPass(t, h, m))
  {
    hide TryAcquire;
    OnAcquire(d, s.st, t.st, m, h);
    var (st1, got) := TryAcquire(s.st, m, h);
    if got {
      KinRealLock(d, s.(st := st1), t.(st := TryAcquire(t.st, m, h).0), h, m);
    } else {
    }
  }

  ghost predicate WaitersIn(d: set<Handle>, st: State) {
    && (forall h {:trigger h in st.threads} :: h in st.threads ==> h in d)
    && (forall m, w {:trigger w in st.mutexes[m].waiters} :: m in st.mutexes && w in st.mutexes[m].waiters ==> w in d)
    && (forall c, w {:trigger w in CondWaiters(st, c)} :: w in CondWaiters(st, c) ==> w in d)
    && (forall b, w {:trigger w in st.barriers[b].waiters} :: b in st.barriers && w in st.barriers[b].waiters ==> w in d)
  }

  lemma KinUnlockPass(d: set<Handle>, s: Machine, t: Machine, h: Handle, m: Key, tape: Tape)
    requires Kin(d, s, t) && h in d && WaitersIn(d, s.st)
    ensures Kin(d, UnlockPass(s, h, m, tape).0, UnlockPass(t, h, m, tape).0) && UnlockPass(t, h, m, tape).1 == UnlockPass(s, h, m, tape).1
  {
    hide MutexUnlock;
    OnUnlock(d, s.st, t.st, m, h, tape);
    var (st1, r) := MutexUnlock(s.st, m, h, tape);
    if r == 0 {
      KinRealUnlock(d, s.(st := st1), t.(st := MutexUnlock(t.st, m, h, tape).0), h, m);
    } else {
    }
  }

  lemma KinCondRelease(d: set<Handle>, s: Machine, t: Machine, h: Handle, c: Key, m: Key, tape: Tape)
    requires Kin(d, s, t) && h in d && WaitersIn(d, s.st)
    ensures Kin(d, StepCondRelease(s, h, c, m, tape), StepCondRelease(t, h, c, m, tape))
  {
    hide UnlockPass;
    KinUnlockPass(d, s, t, h, m, tape);
    var (s1, r) := UnlockPass(s, h, m, tape);
    if r != 0 {
    } else {
      OnEnqueue(d, s1.st, UnlockPass(t, h, m, tape).0.st, c, h);
    }
  }

  lemma KinBarrierJoin(d: set<Handle>, s: Machine, t: Machine, h: Handle, b: Key)
    requires Kin(d, s, t) && h in d && WaitersIn(d, s.st)
    ensures Kin(d, StepBarrierJoin(s, h, b), StepBarrierJoin(t, h, b))
  {
    hide BarrierArrive;
    if b in s.st.barriers {
      OnArrive(d, s.st, t.st, b, h);
    } else {
    }
  }

  lemma KinJoinCheck(d: set<Handle>, s: Machine, t: Machine, h: Handle, x: Handle)
    requires Kin(d, s, t) && h in d && WaitersIn(d, s.st)
    ensures Kin(d, StepJoinCheck(s, h, x), StepJoinCheck(t, h, x))
  {
    if x in s.st.threads {
      OnT(d, s.st, t.st, x);
      var u := T(s.st, x).(joiner := Some(h));
      OnSet(d, s.st, t.st, x, u);
      assert d + {x} == d;
      OnFlag(d, s.st.(info := s.st.info[x := u]), t.st.(info := t.st.info[x := u]), h, true);
    } else {
    }
  }

  lemma KinCreate(d: set<Handle>, s: Machine, t: Machine, h: Handle, c: Handle)
    requires Kin(d, s, t)
    ensures Kin(d + {c}, StepCreate(s, h, c), StepCreate(t, h, c))
  {
    OnSet(d, s.st, t.st, c, NewThread(0));
  }

  lemma KinMutexGo(d: set<Handle>, s: Machine, t: Machine, h: Handle, k: Point, tape: Tape)
    requires Kin(d, s, t) && h in d && WaitersIn(d, s.st)
    requires k.LockLoop? || k.LockCheck? || k.LockAgain? || k.TryLock? || k.CondRelease? || k.CondCheck? || k.CondAgain?
    ensures Kin(d, StepGo(s, h, k, tape), StepGo(t, h, k, tape))
  {
    hide Kin, LockPass, StepCondRelease, WaitAlone;
    KinReads(d, s, t, h);
    match k
    case LockLoop(m) => KinLockPass(d, s, t, h, m);
    case LockCheck(m) => if T(s.st, h).isBlocking { KinWaitAlone(d, s, t, h, LockAgain(m)); } else { KinLockPass(d, s, t, h, m); }
    case LockAgain(m) => KinLockPass(d, s, t, h, m);
    case TryLock(m) => KinTry(d, s, t, h, m, tape);
    case CondRelease(c, m) => KinCondRelease(d, s, t, h, c, m, tape);
    case CondCheck(c, m) => if T(s.st, h).isBlocking { KinWaitAlone(d, s, t, h, CondAgain(c, m)); } else { KinLockPass(d, s, t, h, m); }
    case CondAgain(_, m) => KinLockPass(d, s, t, h, m);
  }

  /** What a step of `h` looks at is the same in both. */
  lemma KinReads(d: set<Handle>, s: Machine, t: Machine, h: Handle)
    requires Kin(d, s, t) && h in d
    ensures T(t.st, h) == T(s.st, h) && t.st == s.st.(info := t.st.info)
    ensures t.ctl == s.ctl && t.args == s.args && t.turn == s.turn && t.log.joins == s.log.joins
  {
    OnT(d, s.st, t.st, h);
  }

  lemma KinTry(d: set<Handle>, s: Machine, t: Machine, h: Handle, m: Key, tape: Tape)
    requires Kin(d, s, t) && h in d
    ensures Kin(d, StepGo(s, h, TryLock(m), tape), StepGo(t, h, TryLock(m), tape))
  {
    hide LockPass;
    OnT(d, s.st, t.st, h);
    KinLockPass(d, s, t, h, m);
    var tid := T(s.st, h).tid;
    if (m in s.st.mutexes && s.st.mutexes[m].ownerTid == tid && m !in s.st.recursiveMutexes) || WillBlock(s.st, m, tid) {
    } else {
    }
  }

  lemma KinGo(d: set<Handle>, s: Machine, t: Machine, h: Handle, k: Point, tape: Tape)
    requires Kin(d, s, t) && h in d && WaitersIn(d, s.st)
    ensures Kin(if k.CreateBody? then d + {k.c} else d, StepGo(s, h, k, tape), StepGo(t, h, k, tape))
  {
    OnT(d, s.st, t.st, h);
    match k
    case Ret(_) =>
    case BarrierMake(_, n) => if n == 0 {} else {}
    case BarrierJoin(b) => KinBarrierJoin(d, s, t, h, b);
    case BarrierCheck(b, released) => if T(s.st, h).isBlocking { KinWaitAlone(d, s, t, h, BarrierAgain(b, released)); } else {}
    case BarrierAgain(_, _) =>
    case JoinCheck(x) => KinJoinCheck(d, s, t, h, x);
    case JoinCall(x) => if x in s.st.threads {} else {}
    case CreateBody(c) => KinCreate(d, s, t, h, c);
    case _ => KinMutexGo(d, s, t, h, k, tape);
  }

  // ---------------------------------------------------------------- calls

  lemma KinExit(d: set<Handle>, s: Machine, t: Machine, h: Handle, tape: Tape)
    requires Kin(d, s, t) && h in d && WaitersIn(d, s.st) && (T(s.st, h).joiner.Some? ==> T(s.st, h).joiner.value in d)
    ensures Kin(d, CallExit(s, h, tape), CallExit(t, h, tape))
  {
    OnDeparted(d, s.st, t.st, h);
    assert forall x :: x in Departed(s.st, h).threads ==> x in d;
    OnChoose(d, Departed(s.st, h), Departed(t.st, h), tape);
    var (st2, next) := Choose(Departed(s.st, h), tape);
    var stray := s.log.strayExit || s.st.pendingChild.Some?;
    var s1 := Goto(s.(st := st2, turn := None, log := s.log.(strayExit := stray)), h, Exited);
    var t1 := Goto(t.(st := Choose(Departed(t.st, h), tape).0, turn := None, log := t.log.(strayExit := stray)), h, Exited);
    assert Kin(d, s1, t1);
    if next.Some? {
      KinWake(d, s1, t1, next.value);
    } else {
    }
  }

  lemma KinSignal(d: set<Handle>, s: Machine, t: Machine, h: Handle, c: Key, tape: Tape)
    requires Kin(d, s, t) && WaitersIn(d, s.st)
    ensures Kin(d, CallSignal(s, h, c, tape), CallSignal(t, h, c, tape))
  {
    hide CondSignal;
    OnSignal(d, s.st, t.st, c, tape);
  }

  lemma KinBroadcast(d: set<Handle>, s: Machine, t: Machine, h: Handle, c: Key)
    requires Kin(d, s, t) && WaitersIn(d, s.st)
    ensures Kin(d, CallBroadcast(s, h, c), CallBroadcast(t, h, c))
  {
    hide UnblockAll;
    OnUnblock(d, s.st.(conds := s.st.conds - {c}), t.st.(conds := t.st.conds - {c}), CondWaiters(s.st, c));
  }

  lemma KinCall(d: set<Handle>, s: Machine, t: Machine, h: Handle, op: Op, tape: Tape)
    requires Kin(d, s, t) && h in d && WaitersIn(d, s.st) && (T(s.st, h).joiner.Some? ==> T(s.st, h).joiner.value in d)
    ensures Kin(d, Call(s, h, op, tape), Call(t, h, op, tape))
  {
    hide CallExit, UnlockPass, CallSignal, CallBroadcast, Entry, DepthOf;
    var s0, t0 := Forget(s, h), Forget(t, h);
    match op
    case Exit => KinExit(d, s0, t0, h, tape);
    case Unlock(m) => KinUnlockPass(d, s0, t0, h, m, tape);
    case Signal(c) => KinSignal(d, s0, t0, h, c, tape);
    case Broadcast(c) => KinBroadcast(d, s0, t0, h, c);
    case MutexInit(_, _) =>
    case _ => KinEnter(d, s, t, h, op, tape);
  }

  lemma KinEnter(d: set<Handle>, s: Machine, t: Machine, h: Handle, op: Op, tape: Tape)
    requires Kin(d, s, t) && h in d && !op.Exit? && !op.Unlock? && !op.Signal? && !op.Broadcast? && !op.MutexInit?
    ensures Kin(d, Call(s, h, op, tape), Call(t, h, op, tape))
  {
    hide Call;
    OnT(d, s.st, t.st, h);
    EnterFrame(s, h, op, tape);
    EnterFrame(t, h, op, tape);
  }

  // ---------------------------------------------------------------- every step

  function Living(s: Machine): set<Handle> {
    set h | h in s.ctl && !s.ctl[h].Exited?
  }

  /** Whoever the scheduler may look up is alive. */
  lemma LookedUp(s: Machine, h: Handle)
    requires Inv(s)
    ensures WaitersIn(Living(s), s.st)
    ensures Live(s, h) && T(s.st, h).joiner.Some? ==> T(s.st, h).joiner.value in Living(s)
    ensures Live(s, h) && DrainChild(s.ctl[h]).Some? ==> DrainChild(s.ctl[h]).value in Living(s)
  {
    forall m, w | m in s.st.mutexes && w in s.st.mutexes[m].waiters ensures w in Living(s) { assert MutexOk(s, m); }
    forall c, w | w in CondWaiters(s.st, c) ensures w in Living(s) { assert CondOk(s, c); }
    forall b, w | b in s.st.barriers && w in s.st.barriers[b].waiters ensures w in Living(s) { assert BarrierOk(s, b); }
    if Live(s, h) {
      assert JoinOk(s, h) && ThreadOk(s, h);
      if DrainChild(s.ctl[h]).Some? { assert Newborn(s, DrainChild(s.ctl[h]).value); }
    }
  }

  /** The handle a step brings to life. */
  function Newborns(s: Machine, l: Label): set<Handle> {
    if l.StepL? && l.h in s.ctl && s.ctl[l.h].At? && s.ctl[l.h].phase.Go? && s.ctl[l.h].k.CreateBody? then {s.ctl[l.h].k.c} else {}
  }

  lemma LivingNext(s: Machine, l: Label, tape: Tape)
    requires Inv(s) && Enabled(s, l)
    ensures Living(Next(s, l, tape)) <= Living(s) + Newborns(s, l)
  {
    var s' := Next(s, l, tape);
    forall x | x in Living(s') ensures x in Living(s) + Newborns(s, l) {
      NewcomerNext(s, l, tape, x);
    }
  }

  lemma KinFewer(d: set<Handle>, e: set<Handle>, s: Machine, t: Machine)
    requires Kin(d, s, t) && e <= d
    ensures Kin(e, s, t)
  {
  }

  lemma KinStep(s: Machine, t: Machine, h: Handle, tape: Tape)
    requires Inv(s) && Kin(Living(s), s, t) && h in s.ctl && s.ctl[h].At?
    ensures Kin(Living(s) + Newborns(s, StepL(h)), Step(s, h, tape), Step(t, h, tape))
  {
    hide Inv, StepDrain, StepDrainLoop, StepSwitch, StepGo, Kin;
    var d := Living(s);
    LookedUp(s, h);
    assert d + {} == d && h in d;
    KinReads(d, s, t, h);
    var k := s.ctl[h].k;
    match s.ctl[h].phase
    case Drain(cs) => KinDrain(d, s, t, h, cs, k);
    case DrainLoop(c, cs) => KinDrainLoop(d, s, t, h, c, cs, k);
    case Switch => KinSwitch(d, s, t, h, k, tape);
    case Go => KinGo(d, s, t, h, k, tape);
  }

  lemma KinEnabled(s: Machine, t: Machine, l: Label)
    requires Kin(Living(s), s, t)
    ensures Enabled(t, l) <==> Enabled(s, l)
  {
    if Live(s, l.h) { OnT(Living(s), s.st, t.st, l.h); }
  }

  /** No step reads the record of a thread that is gone. */
  lemma KinNext(s: Machine, t: Machine, l: Label, tape: Tape)
    requires Inv(s) && Kin(Living(s), s, t) && Enabled(s, l)
    ensures Enabled(t, l) && Kin(Living(Next(s, l, tape)), Next(s, l, tape), Next(t, l, tape))
  {
    hide Inv, Next, Living, Kin;
    var d := Living(s);
    KinEnabled(s, t, l);
    KinEffect(s, t, l, tape);
    LivingNext(s, l, tape);
    KinFewer(d + Newborns(s, l), Living(Next(s, l, tape)), Next(s, l, tape), Next(t, l, tape));
  }

  lemma MoverLives(s: Machine, l: Label)
    requires Enabled(s, l)
    ensures l.h in Living(s) && Live(s, l.h)
  {
  }

  lemma KinResume(d: set<Handle>, s: Machine, t: Machine, h: Handle)
    requires Kin(d, s, t) && h in d && h in s.ctl && (s.ctl[h].Waiting? || s.ctl[h].DrainWaiting?)
    ensures Kin(d, Resume(s, h), Resume(t, h))
  {
    if s.ctl[h].Waiting? { OnFlag(d, s.st, t.st, h, false); } else {}
  }

  lemma KinRegister(d: set<Handle>, s: Machine, t: Machine, h: Handle)
    requires Kin(d, s, t) && h in d
    ensures Kin(d, Register(s, h), Register(t, h))
  {
    OnT(d, s.st, t.st, h);
    if h in s.args {} else {}
  }

  lemma KinEffect(s: Machine, t: Machine, l: Label, tape: Tape)
    requires Inv(s) && Kin(Living(s), s, t) && Enabled(s, l) && Enabled(t, l)
    ensures Kin(Living(s) + Newborns(s, l), Next(s, l, tape), Next(t, l, tape))
  {
    hide Inv, Living, Call, Step, Resume, Register, WaitersIn;
    var d := Living(s);
    MoverLives(s, l);
    LookedUp(s, l.h);
    assert d + {} == d;
    match l
    case CallL(h, op) => KinCall(d, s, t, h, op, tape);
    case StepL(h) => KinStep(s, t, h, tape);
    case ResumeL(h) => KinResume(d, s, t, h);
    case RegisterL(h) => KinRegister(d, s, t, h);
    case JoinReturnL(h) =>
  }
}
