/** What a step does to the set of OS threads, to the joins under way and to the pending child. */
module Ledger {
  import opened Prelude
  import opened StateModel
  import opened Machine
  import opened Invariant
  import opened Preservation
  import opened Frames

  /** Nothing joins or leaves, and the turn stays where it is while a child is pending. */
  ghost predicate Settled(s: Machine, s': Machine) {
    && s'.ctl.Keys == s.ctl.Keys && s'.log.joins == s.log.joins && s'.log.strayExit == s.log.strayExit
    && (s'.st.pendingChild == None || (s'.st.pendingChild == s.st.pendingChild && s'.turn == s.turn))
  }

  ghost predicate Creates(s: Machine, l: Label)
    requires Enabled(s, l)
  {
    l.StepL? && s.ctl[l.h].phase.Go? && s.ctl[l.h].k.CreateBody?
  }

  lemma SettledSwitch(s: Machine, h: Handle, k: Point, tape: Tape)
    requires Inv(s) && h in s.ctl && s.ctl[h] == At(Switch, k)
    ensures Settled(s, StepSwitch(s, h, k, tape))
  {
    Runner(s, h);
    var next := Choose(SetStarted(s.st, h), tape).1;
    if |s.st.threads| <= 1 || next.None? || next.value == h {
    } else {
      assert Live(s, next.value);
      Others(s, h, next.value);
    }
  }

  lemma SettledMutexGo(s: Machine, h: Handle, k: Point, tape: Tape)
    requires Inv(s) && h in s.ctl && s.ctl[h] == At(Go, k)
    requires k.LockLoop? || k.LockCheck? || k.LockAgain? || k.TryLock? || k.CondRelease? || k.CondCheck? || k.CondAgain?
    ensures Settled(s, StepGo(s, h, k, tape))
  {
    hide LockPass, UnlockPass;
    Runner(s, h);
    match k
    case LockLoop(m) => LockFrame(s, h, m);
    case LockAgain(m) => LockFrame(s, h, m);
    case CondAgain(_, m) => LockFrame(s, h, m);
    case LockCheck(m) => LockFrame(s, h, m); if T(s.st, h).isBlocking {} else {}
    case CondCheck(_, m) => LockFrame(s, h, m); if T(s.st, h).isBlocking {} else {}
    case TryLock(m) => LockFrame(s, h, m);
    case CondRelease(c, m) => UnlockFrame(s, h, m, tape); if UnlockPass(s, h, m, tape).1 != 0 {} else {}
  }

  lemma SettledGo(s: Machine, h: Handle, k: Point, tape: Tape)
    requires Inv(s) && h in s.ctl && s.ctl[h] == At(Go, k) && !k.CreateBody?
    ensures Settled(s, StepGo(s, h, k, tape))
  {
    Runner(s, h);
    match k
    case Ret(_) =>
    case BarrierMake(_, n) => if n == 0 {} else {}
    case BarrierJoin(b) => if b in s.st.barriers {} else {}
    case BarrierCheck(_, _) => if T(s.st, h).isBlocking {} else {}
    case BarrierAgain(_, _) =>
    case JoinCheck(t) => if t in s.st.threads {} else {}
    case JoinCall(t) => if t in s.st.threads { assert T(s.st, h).isBlocking; } else {}
    case _ => SettledMutexGo(s, h, k, tape);
  }

  lemma SettledStep(s: Machine, h: Handle, tape: Tape)
    requires Inv(s) && Enabled(s, StepL(h)) && !Creates(s, StepL(h))
    ensures Settled(s, Step(s, h, tape))
  {
    Runner(s, h);
    match s.ctl[h].phase
    case Drain(_) => if s.st.pendingChild.None? {} else {}
    case DrainLoop(c, _) => if !s.args[c] {} else {}
    case Switch => SettledSwitch(s, h, s.ctl[h].k, tape);
    case Go => SettledGo(s, h, s.ctl[h].k, tape);
  }

  lemma SettledCall(s: Machine, h: Handle, op: Op, tape: Tape)
    requires h in s.ctl && !op.Exit? && !op.Join?
    ensures Settled(s, Call(s, h, op, tape))
  {
    var s0 := Forget(s, h);
    match op
    case Unlock(m) => UnlockFrame(s0, h, m, tape);
    case Signal(c) => if CondWaiters(s.st, c) == [] {} else {}
    case Broadcast(c) =>
    case MutexInit(_, _) =>
    case Wait(_, _) =>
    case _ =>
  }

  /** Nothing changes the ledger but create, exit, a call of join and its return. */
  lemma SettledNext(s: Machine, l: Label, tape: Tape)
    requires Inv(s) && Enabled(s, l) && !Creates(s, l) && !l.JoinReturnL? && !(l.CallL? && (l.op.Exit? || l.op.Join?))
    ensures Settled(s, Next(s, l, tape))
  {
    match l
    case CallL(h, op) => SettledCall(s, h, op, tape);
    case StepL(h) => SettledStep(s, h, tape);
    case ResumeL(h) => if s.ctl[h].Waiting? {} else {}
    case RegisterL(h) => if h in s.args {} else {}
  }

  lemma LedgerExit(s: Machine, h: Handle, tape: Tape)
    requires Inv(s) && h in s.ctl && s.ctl[h].User? && Allowed(s, h, Exit)
    ensures var s' := Call(s, h, Exit, tape);
      && s'.ctl.Keys == s.ctl.Keys && s'.ctl[h] == Exited && s'.log.joins == s.log.joins
      && s'.st.pendingChild == s.st.pendingChild && s'.st.mutexes == s.st.mutexes
      && s'.log.strayExit == (s.log.strayExit || s.st.pendingChild.Some?)
  {
    var s0 := Forget(s, h);
    KeepLogged(s, s0, h);
    ExitLeaves(s0, h, tape);
    if T(s.st, h).joiner.Some? {} else {}
  }

  lemma StaysExited(s: Machine, l: Label, tape: Tape, x: Handle)
    requires Inv(s) && Enabled(s, l) && x in s.ctl && s.ctl[x].Exited? && x in Next(s, l, tape).ctl
    ensures Next(s, l, tape).ctl[x].Exited?
  {
    if Live(Next(s, l, tape), x) {
      NewcomerNext(s, l, tape, x);
      Runner(s, l.h);
    }
  }

  /** Nobody has left a pending child behind: only `main` creates, and it keeps the turn until it has
      waited for its child. */
  ghost predicate Tidy(s: Machine, main: Handle) {
    !s.log.strayExit && (s.st.pendingChild.Some? ==> s.turn == Some(main))
  }

  /** The calls of the other threads keep it so. */
  lemma TidyCall(s: Machine, h: Handle, op: Op, tape: Tape, main: Handle)
    requires Inv(s) && Enabled(s, CallL(h, op)) && !op.Join? && h != main && Tidy(s, main)
    ensures var s' := Call(s, h, op, tape);
      s'.ctl.Keys == s.ctl.Keys && s'.log.joins == s.log.joins && Tidy(s', main)
  {
    Runner(s, h);
    if op.Exit? {
      LedgerExit(s, h, tape);
    } else {
      SettledNext(s, CallL(h, op), tape);
    }
  }
}
