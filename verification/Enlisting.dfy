/** The moment at which a new OS thread registers itself does not matter to anybody else: what the
    other threads do commutes with it. */
module Enlisting {
  import opened Prelude
  import opened StateModel
  import opened Machine
  import opened Invariant
  import opened Preservation

  function EnlistRecord(st: State, c: Handle): State {
    st.(info := st.info[c := T(st, c).(tid := c, isInRschedWait := true)])
  }

  /** The state with child `c` registered and in its initial wait. */
  function Enlist(s: Machine, c: Handle): Machine {
    s.(st := EnlistRecord(s.st, c), ctl := s.ctl[c := Waiting(Ret(0), false)], args := s.args[c := true])
  }

  // ---------------------------------------------------------------- the record's operations

  lemma EnlistFlag(st: State, c: Handle, h: Handle, b: bool)
    requires h != c
    ensures SetBlocking(EnlistRecord(st, c), h, b) == EnlistRecord(SetBlocking(st, h, b), c)
    ensures SetInWait(EnlistRecord(st, c), h, b) == EnlistRecord(SetInWait(st, h, b), c)
  {
    assert SetBlocking(EnlistRecord(st, c), h, b).info == EnlistRecord(SetBlocking(st, h, b), c).info;
    assert SetInWait(EnlistRecord(st, c), h, b).info == EnlistRecord(SetInWait(st, h, b), c).info;
  }

  lemma {:induction false} EnlistUnblock(st: State, c: Handle, ws: seq<Handle>)
    requires c !in ws
    ensures UnblockAll(EnlistRecord(st, c), ws) == EnlistRecord(UnblockAll(st, ws), c)
  {
    if ws != [] {
      EnlistUnblock(st, c, ws[..|ws| - 1]);
      EnlistFlag(UnblockAll(st, ws[..|ws| - 1]), c, ws[|ws| - 1], false);
    }
  }

  /** A child that has not started is passed over whether it is registered or not. */
  lemma EnlistChoose(st: State, c: Handle, tape: Tape)
    requires !T(st, c).startupDone
    ensures Choose(EnlistRecord(st, c), tape) == (EnlistRecord(Choose(st, tape).0, c), Choose(st, tape).1)
  {
    assert BlockingFlags(EnlistRecord(st, c)) == BlockingFlags(st);
    if |st.threads| == 0 {} else {}
  }

  lemma EnlistDeparted(st: State, c: Handle, h: Handle)
    requires h != c && T(st, h).joiner != Some(c)
    ensures Departed(EnlistRecord(st, c), h) == EnlistRecord(Departed(st, h), c)
  {
    var joiner := T(st, h).joiner;
    if joiner.Some? {
      EnlistFlag(st, c, joiner.value, false);
      EnlistRemove(SetBlocking(st, joiner.value, false), c, h);
    } else {
      EnlistRemove(st, c, h);
    }
  }

  lemma EnlistRemove(st: State, c: Handle, h: Handle)
    requires h != c
    ensures Remove(EnlistRecord(st, c), h) == EnlistRecord(Remove(st, h), c)
  {
    assert Remove(EnlistRecord(st, c), h).info == EnlistRecord(Remove(st, h), c).info;
  }

  lemma EnlistAcquire(st: State, c: Handle, m: Key, h: Handle)
    requires h != c
    ensures TryAcquire(EnlistRecord(st, c), m, h) == (EnlistRecord(TryAcquire(st, m, h).0, c), TryAcquire(st, m, h).1)
  {
    var tid := T(st, h).tid;
    var x := if m in st.mutexes then st.mutexes[m] else SMutex(tid, 0, []);
    if x.ownerTid == tid {
    } else {
      var y := if h in x.waiters then x else x.(waiters := x.waiters + [h]);
      EnlistFlag(st.(mutexes := st.mutexes[m := y]), c, h, true);
    }
  }

  lemma EnlistUnlock(st: State, c: Handle, m: Key, h: Handle, tape: Tape)
    requires h != c && (m in st.mutexes ==> c !in st.mutexes[m].waiters)
    ensures MutexUnlock(EnlistRecord(st, c), m, h, tape) == (EnlistRecord(MutexUnlock(st, m, h, tape).0, c), MutexUnlock(st, m, h, tape).1)
  {
    hide RemoveAt;
    if m in st.mutexes && st.mutexes[m].ownerTid == T(st, h).tid {
      var x := st.mutexes[m];
      if x.recursiveCount > 1 {
      } else if x.waiters == [] {
      } else {
        var (st1, i) := ChooseIndex(st, |x.waiters|, tape);
        var w := x.waiters[i];
        assert w in x.waiters;
        var y := SMutex(T(st, w).tid, x.recursiveCount - 1, RemoveAt(x.waiters, i));
        EnlistFlag(st1.(mutexes := st.mutexes[m := y]), c, w, false);
      }
    } else {
    }
  }

  lemma EnlistEnqueue(st: State, c: Handle, k: Key, h: Handle)
    requires h != c
    ensures CondEnqueue(EnlistRecord(st, c), k, h) == EnlistRecord(CondEnqueue(st, k, h), c)
  {
    EnlistFlag(st.(conds := st.conds[k := CondWaiters(st, k) + [h]]), c, h, true);
  }

  lemma EnlistSignal(st: State, c: Handle, k: Key, tape: Tape)
    requires c !in CondWaiters(st, k)
    ensures CondSignal(EnlistRecord(st, c), k, tape) == EnlistRecord(CondSignal(st, k, tape), c)
  {
    var ws := CondWaiters(st, k);
    if ws == [] {
    } else {
      var (st1, i) := ChooseIndex(st, |ws|, tape);
      assert ws[i] in ws;
      EnlistFlag(st1.(conds := st.conds[k := RemoveAt(ws, i)]), c, ws[i], false);
    }
  }

  lemma EnlistArrive(st: State, c: Handle, b: Key, h: Handle)
    requires h != c && b in st.barriers && c !in st.barriers[b].waiters
    ensures BarrierArrive(EnlistRecord(st, c), b, h) == (EnlistRecord(BarrierArrive(st, b, h).0, c), BarrierArrive(st, b, h).1)
  {
    var x := st.barriers[b];
    var ws := if h in x.waiters then x.waiters else x.waiters + [h];
    var st1 := st.(barriers := st.barriers[b := SBarrier(x.count, if |ws| < x.count then ws else [])]);
    if |ws| < x.count {
      EnlistFlag(st1, c, h, true);
      assert BarrierArrive(st, b, h) == (SetBlocking(st1, h, true), false);
    } else {
      EnlistUnblock(st1, c, ws);
      assert BarrierArrive(st, b, h) == (UnblockAll(st1, ws), true);
    }
  }

  // ---------------------------------------------------------------- the machine's steps

  lemma EnlistGoto(s: Machine, c: Handle, h: Handle, x: Control)
    requires h != c
    ensures Goto(Enlist(s, c), h, x) == Enlist(Goto(s, h, x), c)
  {
    assert Goto(Enlist(s, c), h, x).ctl == Enlist(Goto(s, h, x), c).ctl;
  }

  lemma EnlistWake(s: Machine, c: Handle, next: Handle)
    requires next != c
    ensures SignalThread(Enlist(s, c), next) == Enlist(SignalThread(s, next), c)
  {
    var s1 := s.(turn := Some(next), log := s.log.(picks := s.log.picks + [next]));
    if next in s.ctl && s.ctl[next].Waiting? && !s.ctl[next].signalled {
      EnlistGoto(s1, c, next, Waiting(s.ctl[next].k, true));
    } else {
    }
  }

  lemma EnlistLockPass(s: Machine, c: Handle, h: Handle, m: Key)
    requires h != c
    ensures LockPass(Enlist(s, c), h, m) == Enlist(LockPass(s, h, m), c)
  {
    EnlistAcquire(s.st, c, m, h);
    var (st1, got) := TryAcquire(s.st, m, h);
    var s1 := s.(st := st1);
    assert Enlist(s, c).(st := EnlistRecord(st1, c)) == Enlist(s1, c);
    if got {
      EnlistRealLock(s1, c, h, m);
      EnlistGoto(RealLock(s1, h, m), c, h, User(0));
    } else {
      EnlistGoto(s1, c, h, At(Drain(true), LockCheck(m)));
    }
  }

  lemma EnlistRealLock(s: Machine, c: Handle, h: Handle, m: Key)
    ensures RealLock(Enlist(s, c), h, m) == Enlist(RealLock(s, h, m), c)
  {
    if m !in s.held {
    } else if s.held[m].holder == h && m in s.st.recursiveMutexes {
    } else {
    }
  }

  lemma EnlistUnlockPass(s: Machine, c: Handle, h: Handle, m: Key, tape: Tape)
    requires h != c && (m in s.st.mutexes ==> c !in s.st.mutexes[m].waiters)
    ensures UnlockPass(Enlist(s, c), h, m, tape) == (Enlist(UnlockPass(s, h, m, tape).0, c), UnlockPass(s, h, m, tape).1)
  {
    EnlistUnlock(s.st, c, m, h, tape);
    var (st1, r) := MutexUnlock(s.st, m, h, tape);
    var s1 := s.(st := st1);
    assert Enlist(s, c).(st := EnlistRecord(st1, c)) == Enlist(s1, c);
    if r == 0 {
      EnlistRealUnlock(s1, c, h, m);
    } else {
    }
  }

  lemma EnlistRealUnlock(s: Machine, c: Handle, h: Handle, m: Key)
    ensures RealUnlock(Enlist(s, c), h, m) == Enlist(RealUnlock(s, h, m), c)
  {
    if m in s.held && s.held[m].holder == h {
      if s.held[m].depth > 1 {} else {}
    } else {
    }
  }

  /** `c` has been created but has not registered. */
  ghost predicate Unregistered(s: Machine, c: Handle) {
    c in s.args && !s.args[c]
  }

  /** It stands nowhere, and nobody else moves it. */
  lemma UnregisteredStands(s: Machine, c: Handle, h: Handle)
    requires Inv(s) && Unregistered(s, c) && Live(s, h) && !s.ctl[h].Starting?
    ensures c != h && c in s.ctl && s.ctl[c].Starting? && !T(s.st, c).startupDone && T(s.st, h).joiner != Some(c)
    ensures forall m {:trigger s.st.mutexes[m]} :: m in s.st.mutexes ==> c !in s.st.mutexes[m].waiters
    ensures forall k {:trigger CondWaiters(s.st, k)} :: c !in CondWaiters(s.st, k)
    ensures forall b {:trigger s.st.barriers[b]} :: b in s.st.barriers ==> c !in s.st.barriers[b].waiters
  {
    assert Newborn(s, c) && ThreadOk(s, c) && JoinOk(s, h);
    forall m | m in s.st.mutexes ensures c !in s.st.mutexes[m].waiters { assert MutexOk(s, m); }
    forall k ensures c !in CondWaiters(s.st, k) { if k in s.st.conds { assert CondOk(s, k); } }
    forall b | b in s.st.barriers ensures c !in s.st.barriers[b].waiters { assert BarrierOk(s, b); }
  }

  lemma EnlistWaitAlone(s: Machine, c: Handle, h: Handle, k: Point)
    requires h != c
    ensures WaitAlone(Enlist(s, c), h, k) == Enlist(WaitAlone(s, h, k), c)
  {
    EnlistFlag(s.st, c, h, true);
    EnlistGoto(s.(st := SetInWait(s.st, h, true), turn := None), c, h, Waiting(k, false));
  }

  lemma EnlistCondRelease(s: Machine, c: Handle, h: Handle, k: Key, m: Key, tape: Tape)
    requires h != c && (m in s.st.mutexes ==> c !in s.st.mutexes[m].waiters)
    ensures StepCondRelease(Enlist(s, c), h, k, m, tape) == Enlist(StepCondRelease(s, h, k, m, tape), c)
  {
    EnlistUnlockPass(s, c, h, m, tape);
    var (s1, r) := UnlockPass(s, h, m, tape);
    if r != 0 {
      EnlistGoto(s1, c, h, User(r));
    } else {
      EnlistEnqueue(s1.st, c, k, h);
      EnlistGoto(s1.(st := CondEnqueue(s1.st, k, h), log := Sleeps(s1, h)), c, h, At(Drain(true), CondCheck(k, m)));
    }
  }

  lemma EnlistBarrierJoin(s: Machine, c: Handle, h: Handle, b: Key)
    requires h != c && (b in s.st.barriers ==> c !in s.st.barriers[b].waiters)
    ensures StepBarrierJoin(Enlist(s, c), h, b) == Enlist(StepBarrierJoin(s, h, b), c)
  {
    if b !in s.st.barriers {
      EnlistGoto(s, c, h, User(EINVAL));
    } else {
      EnlistArrive(s.st, c, b, h);
      var (st1, released) := BarrierArrive(s.st, b, h);
      var past := RoundsOf(s, b);
      var now := s.st.barriers[b].waiters + [h];
      var rounds := s.log.barriers.rounds[b := if released then past + [now] else past];
      var s1 := s.(st := st1, log := s.log.(barriers := BarrierLog(rounds, s.log.barriers.seats[h := |past|])));
      EnlistGoto(s1, c, h, At(Drain(true), BarrierCheck(b, released)));
    }
  }

  function WithJoiner(st: State, t: Handle, h: Handle): State {
    st.(info := st.info[t := T(st, t).(joiner := Some(h))])
  }

  lemma EnlistJoiner(st: State, c: Handle, t: Handle, h: Handle)
    ensures WithJoiner(EnlistRecord(st, c), t, h) == EnlistRecord(WithJoiner(st, t, h), c)
  {
    assert WithJoiner(EnlistRecord(st, c), t, h).info == EnlistRecord(WithJoiner(st, t, h), c).info;
  }

  lemma EnlistJoinCheck(s: Machine, c: Handle, h: Handle, t: Handle)
    requires h != c
    ensures StepJoinCheck(Enlist(s, c), h, t) == Enlist(StepJoinCheck(s, h, t), c)
  {
    if t in s.st.threads {
      EnlistJoiner(s.st, c, t, h);
      EnlistFlag(WithJoiner(s.st, t, h), c, h, true);
      EnlistGoto(s.(st := SetBlocking(WithJoiner(s.st, t, h), h, true)), c, h, At(Drain(true), JoinCall(t)));
    } else {
      EnlistGoto(s, c, h, At(Go, JoinCall(t)));
    }
  }

  lemma EnlistBarrierMake(s: Machine, c: Handle, h: Handle, b: Key, n: nat)
    requires h != c
    ensures StepBarrierMake(Enlist(s, c), h, b, n) == Enlist(StepBarrierMake(s, h, b, n), c)
  {
    if n == 0 {
      EnlistGoto(s, c, h, User(EINVAL));
    } else {
      var s1 := s.(st := s.st.(barriers := s.st.barriers[b := SBarrier(n, [])]),
                   log := s.log.(barriers := s.log.barriers.(rounds := s.log.barriers.rounds[b := []])));
      EnlistGoto(s1, c, h, User(0));
    }
  }

  lemma EnlistTry(s: Machine, c: Handle, h: Handle, m: Key, tape: Tape)
    requires h != c
    ensures StepGo(Enlist(s, c), h, TryLock(m), tape) == Enlist(StepGo(s, h, TryLock(m), tape), c)
  {
    hide RealLock, TryAcquire, Goto;
    var tid := T(s.st, h).tid;
    if (m in s.st.mutexes && s.st.mutexes[m].ownerTid == tid && m !in s.st.recursiveMutexes) || WillBlock(s.st, m, tid) {
      EnlistGoto(s, c, h, User(EBUSY));
    } else {
      EnlistLockPass(s, c, h, m);
    }
  }

  lemma EnlistMutexGo(s: Machine, c: Handle, h: Handle, k: Point, tape: Tape)
    requires Inv(s) && Unregistered(s, c) && h in s.ctl && s.ctl[h] == At(Go, k)
    requires k.LockLoop? || k.LockCheck? || k.LockAgain? || k.TryLock? || k.CondRelease? || k.CondCheck? || k.CondAgain?
    ensures StepGo(Enlist(s, c), h, k, tape) == Enlist(StepGo(s, h, k, tape), c)
  {
    UnregisteredStands(s, c, h);
    match k
    case LockLoop(m) => EnlistLockPass(s, c, h, m);
    case LockCheck(m) => if T(s.st, h).isBlocking { EnlistWaitAlone(s, c, h, LockAgain(m)); } else { EnlistLockPass(s, c, h, m); }
    case LockAgain(m) => EnlistLockPass(s, c, h, m);
    case TryLock(m) => EnlistTry(s, c, h, m, tape);
    case CondRelease(q, m) => EnlistCondRelease(s, c, h, q, m, tape);
    case CondCheck(q, m) => if T(s.st, h).isBlocking { EnlistWaitAlone(s, c, h, CondAgain(q, m)); } else { EnlistLockPass(s, c, h, m); }
    case CondAgain(_, m) => EnlistLockPass(s, c, h, m);
  }

  lemma EnlistGo(s: Machine, c: Handle, h: Handle, k: Point, tape: Tape)
    requires Inv(s) && Unregistered(s, c) && h in s.ctl && s.ctl[h] == At(Go, k) && !k.CreateBody?
    ensures StepGo(Enlist(s, c), h, k, tape) == Enlist(StepGo(s, h, k, tape), c)
  {
    UnregisteredStands(s, c, h);
    match k
    case Ret(r) => EnlistGoto(s, c, h, User(r));
    case BarrierMake(b, n) => EnlistBarrierMake(s, c, h, b, n);
    case BarrierJoin(b) => EnlistBarrierJoin(s, c, h, b);
    case BarrierCheck(b, released) =>
      if T(s.st, h).isBlocking {
        EnlistWaitAlone(s, c, h, BarrierAgain(b, released));
      } else {
        EnlistGoto(s, c, h, User(if released then SERIAL else 0));
      }
    case BarrierAgain(_, released) => EnlistGoto(s, c, h, User(if released then SERIAL else 0));
    case JoinCheck(t) => EnlistJoinCheck(s, c, h, t);
    case JoinCall(t) =>
      if t in s.st.threads { EnlistGoto(s.(turn := None), c, h, RealJoining(t)); } else { EnlistGoto(s, c, h, RealJoining(t)); }
    case _ => EnlistMutexGo(s, c, h, k, tape);
  }

  // ---------------------------------------------------------------- calls

  lemma EnlistExit(s: Machine, c: Handle, h: Handle, tape: Tape)
    requires Inv(s) && Unregistered(s, c) && h in s.ctl && s.ctl[h].User?
    ensures CallExit(Enlist(s, c), h, tape) == Enlist(CallExit(s, h, tape), c)
  {
    UnregisteredStands(s, c, h);
    EnlistDeparted(s.st, c, h);
    DepartedChild(s, h, c);
    EnlistChoose(Departed(s.st, h), c, tape);
    var (st2, next) := Choose(Departed(s.st, h), tape);
    var s1 := s.(st := st2, turn := None, log := s.log.(strayExit := s.log.strayExit || s.st.pendingChild.Some?));
    EnlistGoto(s1, c, h, Exited);
    if next.Some? {
      EnlistWake(Goto(s1, h, Exited), c, next.value);
    } else {
    }
  }

  lemma DepartedChild(s: Machine, h: Handle, c: Handle)
    requires Inv(s) && Unregistered(s, c) && h in s.ctl && s.ctl[h].User?
    ensures !T(Departed(s.st, h), c).startupDone && !Eligible(Departed(s.st, h), c)
  {
    UnregisteredStands(s, c, h);
    DepartedRecord(s, h, c);
  }

  lemma EnlistCall(s: Machine, c: Handle, h: Handle, op: Op, tape: Tape)
    requires Inv(s) && Unregistered(s, c) && h in s.ctl && s.ctl[h].User?
    ensures Call(Enlist(s, c), h, op, tape) == Enlist(Call(s, h, op, tape), c)
  {
    hide CallExit, CallSignal, CallBroadcast, UnlockPass;
    UnregisteredStands(s, c, h);
    var s0 := Forget(s, h);
    match op
    case Exit => KeepLogged(s, s0, h); EnlistExit(s0, c, h, tape);
    case Unlock(m) =>
      EnlistUnlockPass(s0, c, h, m, tape);
      var (s1, r) := UnlockPass(s0, h, m, tape);
      EnlistGoto(s1, c, h, At(Drain(true), Ret(r)));
    case Signal(q) => EnlistCallSignal(s0, c, h, q, tape);
    case Broadcast(q) => EnlistCallBroadcast(s0, c, h, q);
    case MutexInit(m, recursive) => EnlistGoto(s0.(st := NoteMutex(s0.st, m, recursive)), c, h, User(0));
    case _ => EnlistEnter(s, c, h, op, tape);
  }

  lemma EnlistCallSignal(s: Machine, c: Handle, h: Handle, q: Key, tape: Tape)
    requires h != c && c !in CondWaiters(s.st, q)
    ensures CallSignal(Enlist(s, c), h, q, tape) == Enlist(CallSignal(s, h, q, tape), c)
  {
    EnlistSignal(s.st, c, q, tape);
    var ws := CondWaiters(s.st, q);
    var woken := if ws == [] then s.log.cond.woken else Bump(s.log.cond.woken, ws[ChooseIndex(s.st, |ws|, tape).1]);
    var s1 := s.(st := CondSignal(s.st, q, tape), log := s.log.(cond := s.log.cond.(woken := woken)));
    EnlistGoto(s1, c, h, At(Drain(true), Ret(0)));
  }

  lemma EnlistCallBroadcast(s: Machine, c: Handle, h: Handle, q: Key)
    requires h != c && c !in CondWaiters(s.st, q)
    ensures CallBroadcast(Enlist(s, c), h, q) == Enlist(CallBroadcast(s, h, q), c)
  {
    EnlistUnblock(s.st.(conds := s.st.conds - {q}), c, CondWaiters(s.st, q));
    var s1 := s.(st := CondBroadcast(s.st, q), log := s.log.(cond := s.log.cond.(woken := BumpAll(s.log.cond.woken, CondWaiters(s.st, q)))));
    EnlistGoto(s1, c, h, At(Drain(true), Ret(0)));
  }

  lemma EnlistEnter(s: Machine, c: Handle, h: Handle, op: Op, tape: Tape)
    requires h != c && !op.Exit? && !op.Unlock? && !op.Signal? && !op.Broadcast? && !op.MutexInit?
    ensures Call(Enlist(s, c), h, op, tape) == Enlist(Call(s, h, op, tape), c)
  {
    var s0 := Forget(s, h);
    assert Entry(Enlist(s, c), h, op) == Entry(s, h, op);
    if op.Join? {
      EnlistGoto(s0.(log := s0.log.(joins := s.log.joins[op.t := h])), c, h, Entry(s, h, op));
    } else if op.Wait? {
      var entered := s.log.cond.entryDepth[h := WaitEntry(op.m, DepthOf(s.st, h, op.m))];
      EnlistGoto(s0.(log := s0.log.(cond := s0.log.cond.(entryDepth := entered))), c, h, Entry(s, h, op));
    } else {
      EnlistGoto(s0, c, h, Entry(s, h, op));
    }
  }
}
