/** Steps under other handles: every step commutes with a renaming of the handles. */
module RenamedRuns {
  import opened Prelude
  import opened StateModel
  import opened Machine
  import opened Renaming

  function RenPoint(f: Names, k: Point): Point {
    match k
    case JoinCheck(t) => JoinCheck(f.to(t))
    case JoinCall(t) => JoinCall(f.to(t))
    case CreateBody(c) => CreateBody(f.to(c))
    case _ => k
  }

  function RenPhase(f: Names, phase: Phase): Phase {
    if phase.DrainLoop? then DrainLoop(f.to(phase.child), phase.cs) else phase
  }

  function RenControl(f: Names): Control -> Control {
    (c: Control) =>
      match c
      case At(phase, k) => At(RenPhase(f, phase), RenPoint(f, k))
      case Waiting(k, signalled) => Waiting(RenPoint(f, k), signalled)
      case DrainWaiting(child, cs, k) => DrainWaiting(f.to(child), cs, RenPoint(f, k))
      case RealJoining(t) => RealJoining(f.to(t))
      case _ => c
  }

  function RenReal(f: Names): RealMutex -> RealMutex {
    (r: RealMutex) => RealMutex(f.to(r.holder), r.depth)
  }

  function RenOp(f: Names, op: Op): Op {
    match op
    case Create(c) => Create(f.to(c))
    case Join(t) => Join(f.to(t))
    case _ => op
  }

  function RenLabel(f: Names, l: Label): Label {
    match l
    case CallL(h, op) => CallL(f.to(h), RenOp(f, op))
    case StepL(h) => StepL(f.to(h))
    case ResumeL(h) => ResumeL(f.to(h))
    case RegisterL(h) => RegisterL(f.to(h))
    case JoinReturnL(h) => JoinReturnL(f.to(h))
  }

  function Flag(): bool -> bool {
    (b: bool) => b
  }

  /** `n` is `s` with its handles renamed; of the history only what a step reads is compared. */
  ghost predicate Same(f: Names, s: Machine, n: Machine) {
    && RenState(f, s.st, n.st)
    && RenMap(f, s.ctl, n.ctl, RenControl(f))
    && RenMap(f, s.args, n.args, Flag())
    && RenVals(s.held, n.held, RenReal(f))
    && n.turn == RenOption(f, s.turn)
    && n.faults == s.faults
    && RenKeys(f, s.log.joins, n.log.joins)
    && n.log.strayExit == s.log.strayExit
  }

  /** Two machines that differ only in the histories left out. */
  ghost predicate SameSeen(s: Machine, t: Machine) {
    t == s.(log := t.log) && t.log == s.log.(picks := t.log.picks, cond := t.log.cond, barriers := t.log.barriers)
  }

  lemma SameFields(f: Names, s: Machine, n: Machine)
    requires Renames(f) && Same(f, s, n)
    ensures RenState(f, s.st, n.st) && n.turn == RenOption(f, s.turn) && n.faults == s.faults && n.log.strayExit == s.log.strayExit
    ensures n.st.pendingChild == RenOption(f, s.st.pendingChild) && |n.st.threads| == |s.st.threads|
    ensures n.st.recursiveMutexes == s.st.recursiveMutexes
  {
  }

  lemma SameSt(f: Names, s: Machine, n: Machine, st: State, rt: State)
    requires Renames(f) && Same(f, s, n) && RenState(f, st, rt)
    ensures Same(f, s.(st := st), n.(st := rt))
  {
  }

  lemma SameTurn(f: Names, s: Machine, n: Machine, turn: Option<Handle>)
    requires Renames(f) && Same(f, s, n)
    ensures Same(f, s.(turn := turn), n.(turn := RenOption(f, turn)))
  {
  }

  lemma SameFault(f: Names, s: Machine, n: Machine, x: Fault)
    requires Renames(f) && Same(f, s, n)
    ensures Same(f, WithFault(s, x), WithFault(n, x))
  {
  }

  lemma SameArgs(f: Names, s: Machine, n: Machine, c: Handle, b: bool)
    requires Renames(f) && Same(f, s, n)
    ensures Same(f, s.(args := s.args[c := b]), n.(args := n.args[f.to(c) := b]))
    ensures Same(f, s.(args := s.args - {c}), n.(args := n.args - {f.to(c)}))
  {
    RenMapSet(f, s.args, n.args, Flag(), c, b);
  }

  lemma SameHeld(f: Names, s: Machine, n: Machine, m: Key, h: Handle, depth: int)
    requires Renames(f) && Same(f, s, n)
    ensures Same(f, s.(held := s.held[m := RealMutex(h, depth)]), n.(held := n.held[m := RealMutex(f.to(h), depth)]))
    ensures Same(f, s.(held := s.held - {m}), n.(held := n.held - {m}))
  {
    RenValsSet(s.held, n.held, RenReal(f), m, RealMutex(h, depth));
  }

  lemma SameHolder(f: Names, s: Machine, n: Machine, m: Key, h: Handle)
    requires Renames(f) && Same(f, s, n)
    ensures m in n.held <==> m in s.held
    ensures m in s.held ==> n.held[m].depth == s.held[m].depth && (n.held[m].holder == f.to(h) <==> s.held[m].holder == h)
  {
    if m in s.held { RenSame(f, s.held[m].holder, h); }
  }

  lemma SameLog(f: Names, s: Machine, n: Machine, s': Machine, n': Machine)
    requires Renames(f) && Same(f, s, n) && SameSeen(s, s') && SameSeen(n, n')
    ensures Same(f, s', n')
  {
  }

  lemma SameAt(f: Names, s: Machine, n: Machine, h: Handle)
    requires Renames(f) && Same(f, s, n)
    ensures f.to(h) in n.ctl <==> h in s.ctl
    ensures h in s.ctl ==> n.ctl[f.to(h)] == RenControl(f)(s.ctl[h])
    ensures f.to(h) in n.args <==> h in s.args
    ensures h in s.args ==> n.args[f.to(h)] == s.args[h]
    ensures f.to(h) in n.log.joins <==> h in s.log.joins
  {
    RenMapAt(f, s.ctl, n.ctl, RenControl(f), h);
    RenMapAt(f, s.args, n.args, Flag(), h);
    RenKeysAt(f, s.log.joins, n.log.joins, h);
  }

  lemma SameGoto(f: Names, s: Machine, n: Machine, h: Handle, c: Control)
    requires Renames(f) && Same(f, s, n)
    ensures Same(f, Goto(s, h, c), Goto(n, f.to(h), RenControl(f)(c)))
  {
    RenMapSet(f, s.ctl, n.ctl, RenControl(f), h, c);
  }

  lemma RenAt(f: Names, phase: Phase, k: Point)
    ensures RenControl(f)(At(phase, k)) == At(RenPhase(f, phase), RenPoint(f, k))
  {
  }

  /** A renamed control point is of the same kind. */
  lemma RenKind(f: Names, c: Control)
    ensures var r := RenControl(f)(c);
      && (r.At? <==> c.At?) && (r.User? <==> c.User?) && (r.Starting? <==> c.Starting?) && (r.Exited? <==> c.Exited?)
      && (c.At? ==> r == At(RenPhase(f, c.phase), RenPoint(f, c.k)))
      && (r.Waiting? <==> c.Waiting?) && (c.Waiting? ==> r == Waiting(RenPoint(f, c.k), c.signalled))
      && (r.DrainWaiting? <==> c.DrainWaiting?) && (c.DrainWaiting? ==> r == DrainWaiting(f.to(c.child), c.cs, RenPoint(f, c.k)))
      && (r.RealJoining? <==> c.RealJoining?) && (c.RealJoining? ==> r == RealJoining(f.to(c.t)))
      && (c.User? ==> r == c)
  {
  }

  lemma RenUse(f: Names, c: Control, b: Key)
    ensures UsesBarrier(RenControl(f)(c), b) <==> UsesBarrier(c, b)
  {
    RenKind(f, c);
  }

  /** Going to a point under GMTX. */
  lemma SameGoes(f: Names, s: Machine, n: Machine, h: Handle, phase: Phase, k: Point)
    requires Renames(f) && Same(f, s, n) && !phase.DrainLoop?
    ensures Same(f, Goto(s, h, At(phase, k)), Goto(n, f.to(h), At(phase, RenPoint(f, k))))
  {
    hide Same, RenMap, RenState, Renames;
    SameGoto(f, s, n, h, At(phase, k));
    RenAt(f, phase, k);
  }

  lemma SameWake(f: Names, s: Machine, n: Machine, next: Handle)
    requires Renames(f) && Same(f, s, n)
    ensures Same(f, SignalThread(s, next), SignalThread(n, f.to(next)))
  {
    hide Same, RenState, RenMap, RenVals, Renames;
    var s1 := s.(turn := Some(next), log := s.log.(picks := s.log.picks + [next]));
    var n1 := n.(turn := Some(f.to(next)), log := n.log.(picks := n.log.picks + [f.to(next)]));
    SameLog(f, s, n, s.(log := s1.log), n.(log := n1.log));
    SameTurn(f, s.(log := s1.log), n.(log := n1.log), Some(next));
    SameAt(f, s, n, next);
    if next in s.ctl && s.ctl[next].Waiting? && !s.ctl[next].signalled {
      SameGoto(f, s1, n1, next, Waiting(s.ctl[next].k, true));
    } else {
      SameFault(f, s1, n1, LostSignal);
    }
  }

  lemma SameRealLock(f: Names, s: Machine, n: Machine, h: Handle, m: Key)
    requires Renames(f) && Same(f, s, n)
    ensures Same(f, RealLock(s, h, m), RealLock(n, f.to(h), m))
  {
    hide Same, RenState, RenMap, RenVals, Renames;
    SameFields(f, s, n);
    SameHolder(f, s, n, m, h);
    if m !in s.held {
      SameHeld(f, s, n, m, h, 1);
    } else if s.held[m].holder == h && m in s.st.recursiveMutexes {
      SameHeld(f, s, n, m, h, s.held[m].depth + 1);
    } else {
      SameFault(f, s, n, RealLockBlocks);
    }
  }

  lemma SameRealUnlock(f: Names, s: Machine, n: Machine, h: Handle, m: Key)
    requires Renames(f) && Same(f, s, n)
    ensures Same(f, RealUnlock(s, h, m), RealUnlock(n, f.to(h), m))
  {
    hide Same, RenState, RenMap, RenVals, Renames;
    SameHolder(f, s, n, m, h);
    if m in s.held && s.held[m].holder == h {
      SameHeld(f, s, n, m, h, s.held[m].depth - 1);
      if s.held[m].depth > 1 {} else {}
    } else {
      SameFault(f, s, n, RealUnlockFails);
    }
  }

  // ---------------------------------------------------------------- steps under GMTX

  lemma SameDrain(f: Names, s: Machine, n: Machine, h: Handle, cs: bool, k: Point)
    requires Renames(f) && Same(f, s, n)
    ensures Same(f, StepDrain(s, h, cs, k), StepDrain(n, f.to(h), cs, RenPoint(f, k)))
  {
    hide Same, RenState, RenMap, RenVals, Renames;
    SameFields(f, s, n);
    if s.st.pendingChild.None? {
      SameGoes(f, s, n, h, if cs then Switch else Go, k);
    } else {
      var c := s.st.pendingChild.value;
      RenAdd(f, s.st, n.st, c);
      SameSt(f, s, n, s.st.(pendingChild := None), n.st.(pendingChild := None));
      SameGoto(f, s.(st := s.st.(pendingChild := None)), n.(st := n.st.(pendingChild := None)), h, At(DrainLoop(c, cs), k));
      RenAt(f, DrainLoop(c, cs), k);
    }
  }

  lemma SameDrainLoop(f: Names, s: Machine, n: Machine, h: Handle, c: Handle, cs: bool, k: Point)
    requires Renames(f) && Same(f, s, n)
    ensures Same(f, StepDrainLoop(s, h, c, cs, k), StepDrainLoop(n, f.to(h), f.to(c), cs, RenPoint(f, k)))
  {
    hide Same, RenState, RenMap, RenVals, Renames;
    SameFields(f, s, n);
    SameAt(f, s, n, c);
    if c !in s.args {
      SameFault(f, s, n, UseAfterFree);
    } else if !s.args[c] {
      SameGoto(f, s, n, h, DrainWaiting(c, cs, k));
    } else {
      RenT(f, s.st, n.st, c);
      RenFlag(f, s.st, n.st, c, true);
      var st1 := if c in s.st.info then SetStarted(s.st, c) else s.st;
      var rt1 := if f.to(c) in n.st.info then SetStarted(n.st, f.to(c)) else n.st;
      SameSt(f, s, n, st1, rt1);
      var s1, n1 := s.(st := st1), n.(st := rt1);
      SameArgs(f, s1, n1, c, true);
      SameGoes(f, s1.(args := s.args - {c}), n1.(args := n.args - {f.to(c)}), h, if cs then Switch else Go, k);
    }
  }

  lemma SameSwitch(f: Names, s: Machine, n: Machine, h: Handle, k: Point, tape: Tape)
    requires Renames(f) && Same(f, s, n)
    ensures Same(f, StepSwitch(s, h, k, tape), StepSwitch(n, f.to(h), RenPoint(f, k), tape))
  {
    hide Same, RenState, RenMap, RenVals, Renames;
    SameFields(f, s, n);
    RenThreads(f, s.st, n.st, h);
    if h !in s.st.threads || |s.st.threads| <= 1 {
      SameGoes(f, s, n, h, Go, k);
    } else {
      var (st1, next) := Choose(SetStarted(s.st, h), tape);
      var (rt1, rnext) := Choose(SetStarted(n.st, f.to(h)), tape);
      RenFlag(f, s.st, n.st, h, true);
      RenChoose(f, SetStarted(s.st, h), SetStarted(n.st, f.to(h)), tape);
      var s1, n1 := s.(st := st1), n.(st := rt1);
      SameSt(f, s, n, st1, rt1);
      if next.None? || next.value == h {
        SameGoes(f, s1, n1, h, Go, k);
      } else {
        RenSame(f, next.value, h);
        SameHandOver(f, s1, n1, h, next.value, k);
      }
    }
  }

  lemma SameHandOver(f: Names, s: Machine, n: Machine, h: Handle, next: Handle, k: Point)
    requires Renames(f) && Same(f, s, n)
    ensures var s2, n2 := SignalThread(s, next), SignalThread(n, f.to(next));
      Same(f, Goto(s2.(st := SetInWait(s2.st, h, true)), h, Waiting(k, false)),
              Goto(n2.(st := SetInWait(n2.st, f.to(h), true)), f.to(h), Waiting(RenPoint(f, k), false)))
  {
    hide Same, RenState, RenMap, RenVals, Renames, SignalThread;
    var s2, n2 := SignalThread(s, next), SignalThread(n, f.to(next));
    SameWake(f, s, n, next);
    SameFields(f, s2, n2);
    RenFlag(f, s2.st, n2.st, h, true);
    SameSt(f, s2, n2, SetInWait(s2.st, h, true), SetInWait(n2.st, f.to(h), true));
    SameGoto(f, s2.(st := SetInWait(s2.st, h, true)), n2.(st := SetInWait(n2.st, f.to(h), true)), h, Waiting(k, false));
  }

  lemma SameWaitAlone(f: Names, s: Machine, n: Machine, h: Handle, k: Point)
    requires Renames(f) && Same(f, s, n)
    ensures Same(f, WaitAlone(s, h, k), WaitAlone(n, f.to(h), RenPoint(f, k)))
  {
    hide Same, RenState, RenMap, RenVals, Renames;
    SameFields(f, s, n);
    RenFlag(f, s.st, n.st, h, true);
    var s1, n1 := s.(st := SetInWait(s.st, h, true)), n.(st := SetInWait(n.st, f.to(h), true));
    SameSt(f, s, n, s1.st, n1.st);
    SameTurn(f, s1, n1, None);
    SameGoto(f, s1.(turn := None), n1.(turn := None), h, Waiting(k, false));
  }

  lemma SameLockPass(f: Names, s: Machine, n: Machine, h: Handle, m: Key)
    requires Renames(f) && Same(f, s, n)
    ensures Same(f, LockPass(s, h, m), LockPass(n, f.to(h), m))
  {
    hide Same, RenState, RenMap, RenVals, Renames;
    SameFields(f, s, n);
    RenAcquire(f, s.st, n.st, m, h);
    var (st1, got) := TryAcquire(s.st, m, h);
    var s1, n1 := s.(st := st1), n.(st := TryAcquire(n.st, m, f.to(h)).0);
    SameSt(f, s, n, s1.st, n1.st);
    if got {
      SameRealLock(f, s1, n1, h, m);
      SameGoto(f, RealLock(s1, h, m), RealLock(n1, f.to(h), m), h, User(0));
    } else {
      SameGoes(f, s1, n1, h, Drain(true), LockCheck(m));
    }
  }

  lemma SameUnlockPass(f: Names, s: Machine, n: Machine, h: Handle, m: Key, tape: Tape)
    requires Renames(f) && Same(f, s, n)
    ensures Same(f, UnlockPass(s, h, m, tape).0, UnlockPass(n, f.to(h), m, tape).0)
    ensures UnlockPass(n, f.to(h), m, tape).1 == UnlockPass(s, h, m, tape).1
  {
    hide Same, RenState, RenMap, RenVals, Renames;
    SameFields(f, s, n);
    RenUnlock(f, s.st, n.st, m, h, tape);
    var (st1, r) := MutexUnlock(s.st, m, h, tape);
    var s1, n1 := s.(st := st1), n.(st := MutexUnlock(n.st, m, f.to(h), tape).0);
    SameSt(f, s, n, s1.st, n1.st);
    if r == 0 {
      SameRealUnlock(f, s1, n1, h, m);
    } else {
    }
  }

  lemma SameCondRelease(f: Names, s: Machine, n: Machine, h: Handle, c: Key, m: Key, tape: Tape)
    requires Renames(f) && Same(f, s, n)
    ensures Same(f, StepCondRelease(s, h, c, m, tape), StepCondRelease(n, f.to(h), c, m, tape))
  {
    hide Same, RenState, RenMap, RenVals, Renames;
    SameUnlockPass(f, s, n, h, m, tape);
    var (s1, r) := UnlockPass(s, h, m, tape);
    var n1 := UnlockPass(n, f.to(h), m, tape).0;
    SameFields(f, s1, n1);
    if r != 0 {
      SameGoto(f, s1, n1, h, User(r));
    } else {
      RenEnqueue(f, s1.st, n1.st, c, h);
      var s2, n2 := s1.(st := CondEnqueue(s1.st, c, h)), n1.(st := CondEnqueue(n1.st, c, f.to(h)));
      SameSt(f, s1, n1, s2.st, n2.st);
      SameLog(f, s2, n2, s2.(log := Sleeps(s1, h)), n2.(log := Sleeps(n1, f.to(h))));
      SameGoes(f, s2.(log := Sleeps(s1, h)), n2.(log := Sleeps(n1, f.to(h))), h, Drain(true), CondCheck(c, m));
    }
  }

  lemma SameBarrierMake(f: Names, s: Machine, n: Machine, h: Handle, b: Key, k: nat)
    requires Renames(f) && Same(f, s, n)
    ensures Same(f, StepBarrierMake(s, h, b, k), StepBarrierMake(n, f.to(h), b, k))
  {
    hide Same, RenState, RenMap, RenVals, Renames;
    if k == 0 {
      SameGoto(f, s, n, h, User(EINVAL));
    } else {
      SameFields(f, s, n);
      RenBarriers(f, s.st, n.st, b, SBarrier(k, []));
      RenAppend(f, [], h);
      var s1 := s.(st := s.st.(barriers := s.st.barriers[b := SBarrier(k, [])]));
      var n1 := n.(st := n.st.(barriers := n.st.barriers[b := SBarrier(k, [])]));
      SameSt(f, s, n, s1.st, n1.st);
      var s2 := s1.(log := s.log.(barriers := s.log.barriers.(rounds := s.log.barriers.rounds[b := []])));
      var n2 := n1.(log := n.log.(barriers := n.log.barriers.(rounds := n.log.barriers.rounds[b := []])));
      SameLog(f, s1, n1, s2, n2);
      SameGoto(f, s2, n2, h, User(0));
    }
  }

  lemma SameBarrierJoin(f: Names, s: Machine, n: Machine, h: Handle, b: Key)
    requires Renames(f) && Same(f, s, n)
    ensures Same(f, StepBarrierJoin(s, h, b), StepBarrierJoin(n, f.to(h), b))
  {
    hide Same, RenState, RenMap, RenVals, Renames;
    SameFields(f, s, n);
    RenBarriers(f, s.st, n.st, b, SBarrier(0, []));
    if b !in s.st.barriers {
      SameGoto(f, s, n, h, User(EINVAL));
    } else {
      RenArrive(f, s.st, n.st, b, h);
      var (st1, released) := BarrierArrive(s.st, b, h);
      var s2, n2 := StepBarrierJoin(s, h, b), StepBarrierJoin(n, f.to(h), b);
      var s1, n1 := s.(st := st1), n.(st := BarrierArrive(n.st, b, f.to(h)).0);
      SameSt(f, s, n, s1.st, n1.st);
      SameLog(f, s1, n1, s1.(log := s2.log), n1.(log := n2.log));
      SameGoes(f, s1.(log := s2.log), n1.(log := n2.log), h, Drain(true), BarrierCheck(b, released));
    }
  }

  lemma SameJoinCheck(f: Names, s: Machine, n: Machine, h: Handle, t: Handle)
    requires Renames(f) && Same(f, s, n)
    ensures Same(f, StepJoinCheck(s, h, t), StepJoinCheck(n, f.to(h), f.to(t)))
  {
    hide Same, RenState, RenMap, RenVals, Renames;
    SameFields(f, s, n);
    RenThreads(f, s.st, n.st, t);
    if t in s.st.threads {
      RenJoiner(f, s.st, n.st, t, h);
      var st1 := s.st.(info := s.st.info[t := T(s.st, t).(joiner := Some(h))]);
      var rt1 := n.st.(info := n.st.info[f.to(t) := T(n.st, f.to(t)).(joiner := Some(f.to(h)))]);
      RenFlag(f, st1, rt1, h, true);
      SameSt(f, s, n, SetBlocking(st1, h, true), SetBlocking(rt1, f.to(h), true));
      SameGoes(f, s.(st := SetBlocking(st1, h, true)), n.(st := SetBlocking(rt1, f.to(h), true)), h, Drain(true), JoinCall(t));
    } else {
      SameGoes(f, s, n, h, Go, JoinCall(t));
    }
  }

  lemma SameJoinCall(f: Names, s: Machine, n: Machine, h: Handle, t: Handle)
    requires Renames(f) && Same(f, s, n)
    ensures Same(f, StepJoinCall(s, h, t), StepJoinCall(n, f.to(h), f.to(t)))
  {
    hide Same, RenState, RenMap, RenVals, Renames;
    SameFields(f, s, n);
    RenThreads(f, s.st, n.st, t);
    if t in s.st.threads {
      SameTurn(f, s, n, None);
      SameGoto(f, s.(turn := None), n.(turn := None), h, RealJoining(t));
    } else {
      SameGoto(f, s, n, h, RealJoining(t));
    }
  }

  lemma SameCreate(f: Names, s: Machine, n: Machine, h: Handle, c: Handle)
    requires Renames(f) && Same(f, s, n)
    ensures Same(f, StepCreate(s, h, c), StepCreate(n, f.to(h), f.to(c)))
  {
    hide Same, RenState, RenMap, RenVals, Renames;
    SameFields(f, s, n);
    RenAdd(f, s.st, n.st, c);
    var s3, n3 := StepCreate(s, h, c), StepCreate(n, f.to(h), f.to(c));
    var s1 := s.(st := Add(s.st, c, 0).(pendingChild := Some(c)));
    var n1 := n.(st := Add(n.st, f.to(c), 0).(pendingChild := Some(f.to(c))));
    SameSt(f, s, n, s1.st, n1.st);
    SameArgs(f, s1, n1, c, false);
    var s2, n2 := s1.(args := s.args[c := false]), n1.(args := n.args[f.to(c) := false]);
    SameLog(f, s2, n2, s2.(log := s3.log), n2.(log := n3.log));
    SameGoto(f, s2.(log := s3.log), n2.(log := n3.log), c, Starting);
    SameGoto(f, Goto(s2.(log := s3.log), c, Starting), Goto(n2.(log := n3.log), f.to(c), Starting), h, User(0));
  }

  lemma SameMutexGo(f: Names, s: Machine, n: Machine, h: Handle, k: Point, tape: Tape)
    requires Renames(f) && Same(f, s, n)
    requires k.LockLoop? || k.LockCheck? || k.LockAgain? || k.TryLock? || k.CondRelease? || k.CondCheck? || k.CondAgain?
    ensures Same(f, StepGo(s, h, k, tape), StepGo(n, f.to(h), RenPoint(f, k), tape))
  {
    hide Same, RenState, RenMap, RenVals, Renames;
    SameFields(f, s, n);
    RenT(f, s.st, n.st, h);
    match k
    case LockLoop(m) => SameLockPass(f, s, n, h, m);
    case LockCheck(m) => if T(s.st, h).isBlocking { SameWaitAlone(f, s, n, h, LockAgain(m)); } else { SameLockPass(f, s, n, h, m); }
    case LockAgain(m) => SameLockPass(f, s, n, h, m);
    case TryLock(m) => SameTry(f, s, n, h, m, tape);
    case CondRelease(c, m) => SameCondRelease(f, s, n, h, c, m, tape);
    case CondCheck(c, m) => if T(s.st, h).isBlocking { SameWaitAlone(f, s, n, h, CondAgain(c, m)); } else { SameLockPass(f, s, n, h, m); }
    case CondAgain(_, m) => SameLockPass(f, s, n, h, m);
  }

  lemma SameTry(f: Names, s: Machine, n: Machine, h: Handle, m: Key, tape: Tape)
    requires Renames(f) && Same(f, s, n)
    ensures Same(f, StepGo(s, h, TryLock(m), tape), StepGo(n, f.to(h), TryLock(m), tape))
  {
    hide Same, RenState, RenMap, RenVals, Renames;
    SameFields(f, s, n);
    RenWillBlock(f, s.st, n.st, m, h);
    var tid := T(s.st, h).tid;
    if (m in s.st.mutexes && s.st.mutexes[m].ownerTid == tid && m !in s.st.recursiveMutexes) || WillBlock(s.st, m, tid) {
      SameGoto(f, s, n, h, User(EBUSY));
    } else {
      SameLockPass(f, s, n, h, m);
    }
  }

  lemma SameGo(f: Names, s: Machine, n: Machine, h: Handle, k: Point, tape: Tape)
    requires Renames(f) && Same(f, s, n)
    ensures Same(f, StepGo(s, h, k, tape), StepGo(n, f.to(h), RenPoint(f, k), tape))
  {
    hide Same, RenState, RenMap, RenVals, Renames;
    SameFields(f, s, n);
    RenT(f, s.st, n.st, h);
    match k
    case Ret(r) => SameGoto(f, s, n, h, User(r));
    case BarrierMake(b, c) => SameBarrierMake(f, s, n, h, b, c);
    case BarrierJoin(b) => SameBarrierJoin(f, s, n, h, b);
    case BarrierCheck(b, released) =>
      if T(s.st, h).isBlocking {
        SameWaitAlone(f, s, n, h, BarrierAgain(b, released));
      } else {
        SameGoto(f, s, n, h, User(if released then SERIAL else 0));
      }
    case BarrierAgain(_, released) => SameGoto(f, s, n, h, User(if released then SERIAL else 0));
    case JoinCheck(t) => SameJoinCheck(f, s, n, h, t);
    case JoinCall(t) => SameJoinCall(f, s, n, h, t);
    case CreateBody(c) => SameCreate(f, s, n, h, c);
    case _ => SameMutexGo(f, s, n, h, k, tape);
  }

  lemma SameStep(f: Names, s: Machine, n: Machine, h: Handle, tape: Tape)
    requires Renames(f) && Same(f, s, n) && h in s.ctl && s.ctl[h].At?
    ensures f.to(h) in n.ctl && n.ctl[f.to(h)].At? && Same(f, Step(s, h, tape), Step(n, f.to(h), tape))
  {
    hide Same, RenState, RenMap, RenVals, Renames;
    SameAt(f, s, n, h);
    var k := s.ctl[h].k;
    assert n.ctl[f.to(h)] == At(RenPhase(f, s.ctl[h].phase), RenPoint(f, k));
    match s.ctl[h].phase
    case Drain(cs) => SameDrain(f, s, n, h, cs, k);
    case DrainLoop(c, cs) => SameDrainLoop(f, s, n, h, c, cs, k);
    case Switch => SameSwitch(f, s, n, h, k, tape);
    case Go => SameGo(f, s, n, h, k, tape);
  }

  // ---------------------------------------------------------------- calls

  lemma SameJoins(f: Names, s: Machine, n: Machine, t: Handle, h: Handle)
    requires Renames(f) && Same(f, s, n)
    ensures Same(f, s.(log := s.log.(joins := s.log.joins[t := h])), n.(log := n.log.(joins := n.log.joins[f.to(t) := f.to(h)])))
    ensures Same(f, s.(log := s.log.(joins := s.log.joins - {t})), n.(log := n.log.(joins := n.log.joins - {f.to(t)})))
  {
    RenKeysSet(f, s.log.joins, n.log.joins, t, h, f.to(h));
  }

  lemma SameStray(f: Names, s: Machine, n: Machine, stray: bool)
    requires Renames(f) && Same(f, s, n)
    ensures Same(f, s.(log := s.log.(strayExit := stray)), n.(log := n.log.(strayExit := stray)))
  {
  }

  /** The turn is given up and the thread is gone. */
  lemma SameGone(f: Names, s: Machine, n: Machine, h: Handle, st: State, rt: State, stray: bool)
    requires Renames(f) && Same(f, s, n) && RenState(f, st, rt)
    ensures Same(f, Goto(s.(st := st, turn := None, log := s.log.(strayExit := stray)), h, Exited),
                    Goto(n.(st := rt, turn := None, log := n.log.(strayExit := stray)), f.to(h), Exited))
  {
    hide Same, RenState, RenMap, RenVals, Renames;
    SameSt(f, s, n, st, rt);
    var s1, n1 := s.(st := st), n.(st := rt);
    SameTurn(f, s1, n1, None);
    SameStray(f, s1.(turn := None), n1.(turn := None), stray);
    SameGoto(f, s1.(turn := None, log := s.log.(strayExit := stray)), n1.(turn := None, log := n.log.(strayExit := stray)), h, Exited);
  }

  lemma SameExit(f: Names, s: Machine, n: Machine, h: Handle, tape: Tape)
    requires Renames(f) && Same(f, s, n)
    ensures Same(f, CallExit(s, h, tape), CallExit(n, f.to(h), tape))
  {
    hide Same, RenState, RenMap, RenVals, Renames, Choose, SignalThread;
    SameFields(f, s, n);
    RenDeparted(f, s.st, n.st, h);
    RenChoose(f, Departed(s.st, h), Departed(n.st, f.to(h)), tape);
    var (st2, next) := Choose(Departed(s.st, h), tape);
    var (rt2, rnext) := Choose(Departed(n.st, f.to(h)), tape);
    var stray := s.log.strayExit || s.st.pendingChild.Some?;
    SameGone(f, s, n, h, st2, rt2, stray);
    var s1 := Goto(s.(st := st2, turn := None, log := s.log.(strayExit := stray)), h, Exited);
    var n1 := Goto(n.(st := rt2, turn := None, log := n.log.(strayExit := stray)), f.to(h), Exited);
    if next.Some? {
      SameWake(f, s1, n1, next.value);
    } else {
    }
  }

  lemma SameUnlock(f: Names, s: Machine, n: Machine, h: Handle, m: Key, tape: Tape)
    requires Renames(f) && Same(f, s, n)
    ensures Same(f, CallUnlock(s, h, m, tape), CallUnlock(n, f.to(h), m, tape))
  {
    hide Same, RenState, RenMap, RenVals, Renames;
    SameUnlockPass(f, s, n, h, m, tape);
    var (s1, r) := UnlockPass(s, h, m, tape);
    SameGoes(f, s1, UnlockPass(n, f.to(h), m, tape).0, h, Drain(true), Ret(r));
  }

  lemma SameCallSignal(f: Names, s: Machine, n: Machine, h: Handle, c: Key, tape: Tape)
    requires Renames(f) && Same(f, s, n)
    ensures Same(f, CallSignal(s, h, c, tape), CallSignal(n, f.to(h), c, tape))
  {
    hide Same, RenState, RenMap, RenVals, Renames;
    SameFields(f, s, n);
    RenSignal(f, s.st, n.st, c, tape);
    var s2, n2 := CallSignal(s, h, c, tape), CallSignal(n, f.to(h), c, tape);
    var s1, n1 := s.(st := CondSignal(s.st, c, tape)), n.(st := CondSignal(n.st, c, tape));
    SameSt(f, s, n, s1.st, n1.st);
    SameLog(f, s1, n1, s1.(log := s2.log), n1.(log := n2.log));
    SameGoes(f, s1.(log := s2.log), n1.(log := n2.log), h, Drain(true), Ret(0));
  }

  lemma SameCallBroadcast(f: Names, s: Machine, n: Machine, h: Handle, c: Key)
    requires Renames(f) && Same(f, s, n)
    ensures Same(f, CallBroadcast(s, h, c), CallBroadcast(n, f.to(h), c))
  {
    hide Same, RenState, RenMap, RenVals, Renames;
    SameFields(f, s, n);
    RenBroadcast(f, s.st, n.st, c);
    var s2, n2 := CallBroadcast(s, h, c), CallBroadcast(n, f.to(h), c);
    var s1, n1 := s.(st := CondBroadcast(s.st, c)), n.(st := CondBroadcast(n.st, c));
    SameSt(f, s, n, s1.st, n1.st);
    SameLog(f, s1, n1, s1.(log := s2.log), n1.(log := n2.log));
    SameGoes(f, s1.(log := s2.log), n1.(log := n2.log), h, Drain(true), Ret(0));
  }

  lemma SameEntry(f: Names, s: Machine, n: Machine, h: Handle, op: Op)
    requires Renames(f) && Same(f, s, n)
    ensures RenControl(f)(Entry(s, h, op)) == Entry(n, f.to(h), RenOp(f, op))
  {
    hide Same, RenState, RenMap, RenVals, Renames;
    SameFields(f, s, n);
    var c := Entry(s, h, op);
    RenAt(f, c.phase, c.k);
    if op.Lock? || op.Wait? { RenWillBlock(f, s.st, n.st, op.m, h); }
  }

  lemma SameEnter(f: Names, s: Machine, n: Machine, h: Handle, op: Op, tape: Tape)
    requires Renames(f) && Same(f, s, n) && !op.Exit? && !op.Unlock? && !op.Signal? && !op.Broadcast? && !op.MutexInit?
    ensures Same(f, Call(s, h, op, tape), Call(n, f.to(h), RenOp(f, op), tape))
  {
    hide Same, RenState, RenMap, RenVals, Renames;
    var s0, n0 := Forget(s, h), Forget(n, f.to(h));
    SameLog(f, s, n, s0, n0);
    SameEntry(f, s, n, h, op);
    if op.Join? {
      SameJoins(f, s0, n0, op.t, h);
      SameGoto(f, s0.(log := s0.log.(joins := s0.log.joins[op.t := h])),
               n0.(log := n0.log.(joins := n0.log.joins[f.to(op.t) := f.to(h)])), h, Entry(s, h, op));
    } else if op.Wait? {
      var s1 := s0.(log := Call(s, h, op, tape).log);
      var n1 := n0.(log := Call(n, f.to(h), op, tape).log);
      SameLog(f, s0, n0, s1, n1);
      SameGoto(f, s1, n1, h, Entry(s, h, op));
    } else {
      SameGoto(f, s0, n0, h, Entry(s, h, op));
    }
  }

  lemma SameCall(f: Names, s: Machine, n: Machine, h: Handle, op: Op, tape: Tape)
    requires Renames(f) && Same(f, s, n)
    ensures Same(f, Call(s, h, op, tape), Call(n, f.to(h), RenOp(f, op), tape))
  {
    hide Same, RenState, RenMap, RenVals, Renames;
    var s0, n0 := Forget(s, h), Forget(n, f.to(h));
    SameLog(f, s, n, s0, n0);
    match op
    case Exit => SameExit(f, s0, n0, h, tape);
    case Unlock(m) => SameUnlock(f, s0, n0, h, m, tape);
    case Signal(c) => SameCallSignal(f, s0, n0, h, c, tape);
    case Broadcast(c) => SameCallBroadcast(f, s0, n0, h, c);
    case MutexInit(m, recursive) =>
      SameFields(f, s0, n0);
      RenNote(f, s0.st, n0.st, m, recursive);
      SameSt(f, s0, n0, NoteMutex(s0.st, m, recursive), NoteMutex(n0.st, m, recursive));
      SameGoto(f, s0.(st := NoteMutex(s0.st, m, recursive)), n0.(st := NoteMutex(n0.st, m, recursive)), h, User(0));
    case _ => SameEnter(f, s, n, h, op, tape);
  }

  lemma SameResume(f: Names, s: Machine, n: Machine, h: Handle)
    requires Renames(f) && Same(f, s, n) && h in s.ctl && (s.ctl[h].Waiting? || s.ctl[h].DrainWaiting?)
    ensures f.to(h) in n.ctl && (n.ctl[f.to(h)].Waiting? || n.ctl[f.to(h)].DrainWaiting?)
    ensures Same(f, Resume(s, h), Resume(n, f.to(h)))
  {
    hide Same, RenState, RenMap, RenVals, Renames;
    SameAt(f, s, n, h);
    RenKind(f, s.ctl[h]);
    SameFields(f, s, n);
    if s.ctl[h].Waiting? {
      RenFlag(f, s.st, n.st, h, false);
      SameSt(f, s, n, SetInWait(s.st, h, false), SetInWait(n.st, f.to(h), false));
      SameGoes(f, s.(st := SetInWait(s.st, h, false)), n.(st := SetInWait(n.st, f.to(h), false)), h, Go, s.ctl[h].k);
    } else {
      var w := s.ctl[h];
      SameGoto(f, s, n, h, At(DrainLoop(w.child, w.cs), w.k));
      RenAt(f, DrainLoop(w.child, w.cs), w.k);
    }
  }

  lemma SameRegister(f: Names, s: Machine, n: Machine, h: Handle)
    requires Renames(f) && Same(f, s, n)
    ensures Same(f, Register(s, h), Register(n, f.to(h)))
  {
    hide Same, RenState, RenMap, RenVals, Renames;
    SameFields(f, s, n);
    SameAt(f, s, n, h);
    RenRegistered(f, s.st, n.st, h);
    var s1 := s.(st := s.st.(info := s.st.info[h := T(s.st, h).(tid := h, isInRschedWait := true)]));
    var n1 := n.(st := n.st.(info := n.st.info[f.to(h) := T(n.st, f.to(h)).(tid := f.to(h), isInRschedWait := true)]));
    SameSt(f, s, n, s1.st, n1.st);
    SameGoto(f, s1, n1, h, Waiting(Ret(0), false));
    RenKind(f, Waiting(Ret(0), false));
    var s2, n2 := Goto(s1, h, Waiting(Ret(0), false)), Goto(n1, f.to(h), Waiting(Ret(0), false));
    if h in s.args {
      SameArgs(f, s2, n2, h, true);
    } else {
      SameFault(f, s2, n2, UseAfterFree);
    }
  }

  lemma SameReap(f: Names, s: Machine, n: Machine, t: Handle)
    requires Renames(f) && Same(f, s, n)
    ensures Same(f, s.(ctl := s.ctl - {t}), n.(ctl := n.ctl - {f.to(t)}))
  {
    RenMapSet(f, s.ctl, n.ctl, RenControl(f), t, Starting);
  }

  lemma SameJoinReturn(f: Names, s: Machine, n: Machine, h: Handle)
    requires Renames(f) && Same(f, s, n) && h in s.ctl && s.ctl[h].RealJoining?
    ensures f.to(h) in n.ctl && n.ctl[f.to(h)].RealJoining? && Same(f, JoinReturn(s, h), JoinReturn(n, f.to(h)))
  {
    hide Same, RenState, RenMap, RenVals, Renames;
    SameAt(f, s, n, h);
    var t := s.ctl[h].t;
    SameReap(f, s, n, t);
    var s1, n1 := s.(ctl := s.ctl - {t}), n.(ctl := n.ctl - {f.to(t)});
    SameJoins(f, s1, n1, t, h);
    SameGoto(f, s1.(log := s.log.(joins := s.log.joins - {t})), n1.(log := n.log.(joins := n.log.joins - {f.to(t)})), h, User(0));
  }

  // ---------------------------------------------------------------- what is enabled

  lemma SameEverywhere(f: Names, s: Machine, n: Machine, y: Handle)
    requires Renames(f) && Same(f, s, n)
    ensures y in n.ctl <==> f.from(y) in s.ctl
    ensures y in n.ctl ==> n.ctl[y] == RenControl(f)(s.ctl[f.from(y)])
  {
    SameAt(f, s, n, f.from(y));
    assert f.to(f.from(y)) == y;
  }

  ghost predicate HoldsGmtx(s: Machine, h: Handle) {
    h in s.ctl && s.ctl[h].At?
  }

  lemma FreeBoth(f: Names, s: Machine, n: Machine)
    requires Renames(f) && forall y {:trigger HoldsGmtx(n, y)} :: HoldsGmtx(n, y) <==> HoldsGmtx(s, f.from(y))
    ensures GmtxFree(s) <==> GmtxFree(n)
  {
    if !GmtxFree(s) {
      var h :| h in s.ctl && s.ctl[h].At?;
      assert HoldsGmtx(n, f.to(h)) <==> HoldsGmtx(s, f.from(f.to(h)));
    }
    if !GmtxFree(n) {
      var y :| y in n.ctl && n.ctl[y].At?;
      assert HoldsGmtx(n, y);
    }
  }

  lemma SameFree(f: Names, s: Machine, n: Machine)
    requires Renames(f) && Same(f, s, n)
    ensures GmtxFree(s) <==> GmtxFree(n)
  {
    forall y ensures HoldsGmtx(n, y) <==> HoldsGmtx(s, f.from(y)) { SameKind(f, s, n, y); }
    FreeBoth(f, s, n);
  }

  lemma SameKind(f: Names, s: Machine, n: Machine, y: Handle)
    requires Renames(f) && Same(f, s, n)
    ensures HoldsGmtx(n, y) <==> HoldsGmtx(s, f.from(y))
  {
    SameEverywhere(f, s, n, y);
    if f.from(y) in s.ctl { RenKind(f, s.ctl[f.from(y)]); }
  }

  lemma SameBarrierUse(f: Names, s: Machine, n: Machine, b: Key)
    requires Renames(f) && Same(f, s, n)
    ensures (forall x :: x in s.ctl ==> !UsesBarrier(s.ctl[x], b)) <==> (forall y :: y in n.ctl ==> !UsesBarrier(n.ctl[y], b))
  {
    hide Same, RenState, RenMap, RenControl, UsesBarrier;
    if forall x :: x in s.ctl ==> !UsesBarrier(s.ctl[x], b) {
      forall y | y in n.ctl ensures !UsesBarrier(n.ctl[y], b) {
        SameEverywhere(f, s, n, y);
        RenUse(f, s.ctl[f.from(y)], b);
      }
    }
    if forall y :: y in n.ctl ==> !UsesBarrier(n.ctl[y], b) {
      forall x | x in s.ctl ensures !UsesBarrier(s.ctl[x], b) {
        SameAt(f, s, n, x);
        RenUse(f, s.ctl[x], b);
      }
    }
  }

  lemma SameAllowed(f: Names, s: Machine, n: Machine, h: Handle, op: Op)
    requires Renames(f) && Same(f, s, n)
    ensures Allowed(s, h, op) <==> Allowed(n, f.to(h), RenOp(f, op))
  {
    hide Same, RenState, RenMap, RenVals, Renames;
    SameFields(f, s, n);
    match op
    case Create(c) => SameAt(f, s, n, c); RenSame(f, c, 0);
    case Join(t) => SameAt(f, s, n, t); RenSame(f, t, h);
    case Exit => RenOwners(f, s.st, n.st, h);
    case MutexInit(m, _) => RenMutexAt(f, s.st, n.st, m);
    case Lock(m) => RenMutexAt(f, s.st, n.st, m); RenWillBlock(f, s.st, n.st, m, h);
    case _ =>
  }

  lemma SameEnabled(f: Names, s: Machine, n: Machine, l: Label)
    requires Renames(f) && Same(f, s, n)
    ensures Enabled(s, l) <==> Enabled(n, RenLabel(f, l))
  {
    hide Same, RenState, RenMap, RenVals, Renames;
    SameAt(f, s, n, l.h);
    SameFree(f, s, n);
    if l.h in s.ctl {
      RenKind(f, s.ctl[l.h]);
      match l
      case CallL(h, op) => SameAllowed(f, s, n, h, op);
      case StepL(h) => if s.ctl[h].At? && s.ctl[h].k.BarrierMake? { SameBarrierUse(f, s, n, s.ctl[h].k.b); }
      case ResumeL(h) => if s.ctl[h].DrainWaiting? { SameAt(f, s, n, s.ctl[h].child); }
      case RegisterL(h) =>
      case JoinReturnL(h) =>
        if s.ctl[h].RealJoining? {
          SameAt(f, s, n, s.ctl[h].t);
          if s.ctl[h].t in s.ctl { RenKind(f, s.ctl[s.ctl[h].t]); }
        }
    }
  }

  /** Every step commutes with the renaming of handles. */
  lemma SameNext(f: Names, s: Machine, n: Machine, l: Label, tape: Tape)
    requires Renames(f) && Same(f, s, n) && Enabled(s, l)
    ensures Enabled(n, RenLabel(f, l)) && Same(f, Next(s, l, tape), Next(n, RenLabel(f, l), tape))
  {
    hide Same, RenState, RenMap, RenVals, Renames;
    SameEnabled(f, s, n, l);
    match l
    case CallL(h, op) => SameCall(f, s, n, h, op, tape);
    case StepL(h) => SameStep(f, s, n, h, tape);
    case ResumeL(h) => SameResume(f, s, n, h);
    case RegisterL(h) => SameRegister(f, s, n, h);
    case JoinReturnL(h) => SameJoinReturn(f, s, n, h);
  }

  // ---------------------------------------------------------------- the start

  lemma SameUser(f: Names, s: Machine, n: Machine, h: Handle)
    requires Renames(f) && Same(f, s, n) && h in s.ctl
    ensures f.to(h) in n.ctl && (n.ctl[f.to(h)].User? <==> s.ctl[h].User?)
    ensures s.ctl[h].User? ==> n.ctl[f.to(h)].ret == s.ctl[h].ret
  {
    SameAt(f, s, n, h);
    RenKind(f, s.ctl[h]);
  }

  lemma RenOne<V, W>(f: Names, h: Handle, x: V, v: V -> W)
    requires Renames(f)
    ensures RenMap(f, map[h := x], map[f.to(h) := v(x)], v) && RenMap<V, W>(f, map[], map[], v)
  {
    RenMapSet(f, map[], map[], v, h, x);
  }

  lemma RenInit(f: Names, main: Handle)
    requires Renames(f)
    ensures RenState(f, Init(main).st, Init(f.to(main)).st)
  {
    RenOne(f, main, NewThread(main).(startupDone := true), RenThread(f));
    assert RenSeq(f, [main]) == [f.to(main)];
  }

  lemma SameInit(f: Names, main: Handle)
    requires Renames(f)
    ensures Same(f, Init(main), Init(f.to(main)))
  {
    hide RenState, RenMap, Renames;
    RenInit(f, main);
    RenOne(f, main, User(0), RenControl(f));
    RenKind(f, User(0));
    RenOne(f, main, true, Flag());
  }
}
