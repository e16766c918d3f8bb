/** The run of a program depends on the seed and the program alone: the one thing the operating
    system decides, when a new thread registers, changes nothing. */
module Determinism {
  import opened Prelude
  import opened StateModel
  import opened Machine
  import opened Invariant
  import opened Preservation
  import opened Frames
  import opened Safety
  import opened Enlisting
  import opened Program

  /** The turn holder's wait for a child, skipped. */
  function Awaited(s: Machine): Machine {
    if s.turn.Some? && s.turn.value in s.ctl && s.ctl[s.turn.value].DrainWaiting? then
      var w := s.ctl[s.turn.value];
      Goto(s, s.turn.value, At(DrainLoop(w.child, w.cs), w.k))
    else s
  }

  /** A state as if every child had registered the moment it was created. */
  ghost function Norm(s: Machine): Machine {
    if exists c :: Unregistered(s, c) then
      var c :| Unregistered(s, c);
      Awaited(Enlist(s, c))
    else Awaited(s)
  }

  /** Steps that depend on when a child registers: its registration, and waiting for it. */
  ghost predicate Stutter(s: Machine, l: Label) {
    || l.RegisterL?
    || (l.ResumeL? && l.h in s.ctl && s.ctl[l.h].DrainWaiting?)
    || (l.StepL? && l.h in s.ctl && s.ctl[l.h].At? && s.ctl[l.h].phase.DrainLoop? && Unregistered(s, s.ctl[l.h].phase.child))
  }

  lemma OneChild(s: Machine, c: Handle, d: Handle)
    requires Inv(s) && c in s.args && d in s.args
    ensures c == d
  {
    StartUp(s, c, c, d, 0);
  }

  lemma NormIs(s: Machine, c: Handle)
    requires Inv(s) && Unregistered(s, c)
    ensures Norm(s) == Awaited(Enlist(s, c))
  {
    forall d | Unregistered(s, d) ensures d == c { OneChild(s, c, d); }
  }

  lemma RegisterKeeps(s: Machine, c: Handle)
    requires Inv(s) && Enabled(s, RegisterL(c))
    ensures Norm(Register(s, c)) == Norm(s)
  {
    assert Live(s, c) && ThreadOk(s, c);
    NormIs(s, c);
    var s' := Register(s, c);
    assert s' == Enlist(s, c);
    forall d ensures !Unregistered(s', d) { if d in s.args { OneChild(s, c, d); } }
  }

  lemma StutterKeeps(s: Machine, l: Label, tape: Tape)
    requires Inv(s) && Enabled(s, l) && Stutter(s, l)
    ensures Norm(Next(s, l, tape)) == Norm(s)
  {
    var h := l.h;
    if l.RegisterL? {
      RegisterKeeps(s, h);
    } else {
      OnlyTurnSteps(s, l);
      assert Live(s, h) && ThreadOk(s, h);
      if l.ResumeL? {
        var c := s.ctl[h].child;
        forall d ensures !Unregistered(s, d) && !Unregistered(Resume(s, h), d) { if d in s.args { OneChild(s, c, d); } }
      } else {
        WaitKeeps(s, h, tape);
      }
    }
  }

  lemma WaitKeeps(s: Machine, h: Handle, tape: Tape)
    requires Inv(s) && Enabled(s, StepL(h)) && Stutter(s, StepL(h))
    ensures Norm(Step(s, h, tape)) == Norm(s)
  {
    Runner(s, h);
    var c := s.ctl[h].phase.child;
    var s' := Step(s, h, tape);
    assert s' == Goto(s, h, DrainWaiting(c, s.ctl[h].phase.cs, s.ctl[h].k));
    UnregisteredStands(s, c, h);
    KeepNext(s, StepL(h), tape);
    NormIs(s, c);
    NormIs(s', c);
    assert Awaited(Enlist(s', c)).ctl == Enlist(s, c).ctl;
  }

  // ---------------------------------------------------------------- all other steps

  lemma WorkEnabled(s: Machine, c: Handle, l: Label)
    requires Inv(s) && Unregistered(s, c) && Enabled(s, l) && !Stutter(s, l)
    ensures Enabled(Enlist(s, c), l)
  {
    OnlyTurnSteps(s, l);
    assert Live(s, l.h) && ThreadOk(s, l.h);
    UnregisteredStands(s, c, l.h);
    var n := Enlist(s, c);
    assert n.ctl[l.h] == s.ctl[l.h] && T(n.st, l.h) == T(s.st, l.h);
    assert GmtxFree(s) ==> GmtxFree(n);
  }

  lemma EnlistStep(s: Machine, c: Handle, h: Handle, tape: Tape)
    requires Inv(s) && Unregistered(s, c) && Enabled(s, StepL(h)) && !Stutter(s, StepL(h))
    ensures Enlist(s, c).ctl[h] == s.ctl[h]
    ensures s.ctl[h].At? && Step(Enlist(s, c), h, tape) == Enlist(Step(s, h, tape), c)
    ensures Step(s, h, tape).args == s.args
  {
    Runner(s, h);
    UnregisteredStands(s, c, h);
    assert Newborn(s, c);
    var k := s.ctl[h].k;
    match s.ctl[h].phase
    case Drain(cs) =>
      if s.st.pendingChild.None? {
        EnlistGoto(s, c, h, At(if cs then Switch else Go, k));
      } else {
        EnlistGoto(s.(st := s.st.(pendingChild := None)), c, h, At(DrainLoop(s.st.pendingChild.value, cs), k));
      }
    case DrainLoop(d, cs) => OneChild(s, c, d);
    case Switch =>
    case Go => EnlistGo(s, c, h, k, tape); GoArgs(s, h, k, tape);
  }

  lemma GoArgs(s: Machine, h: Handle, k: Point, tape: Tape)
    ensures !k.CreateBody? ==> StepGo(s, h, k, tape).args == s.args
    ensures StepGo(s, h, k, tape).log.picks == s.log.picks
  {
    hide LockPass, UnlockPass, BarrierArrive;
    match k
    case LockLoop(m) => LockFrame(s, h, m);
    case LockAgain(m) => LockFrame(s, h, m);
    case CondAgain(_, m) => LockFrame(s, h, m);
    case LockCheck(m) => LockFrame(s, h, m); if T(s.st, h).isBlocking {} else {}
    case CondCheck(_, m) => LockFrame(s, h, m); if T(s.st, h).isBlocking {} else {}
    case TryLock(m) => LockFrame(s, h, m);
    case CondRelease(c, m) => UnlockFrame(s, h, m, tape); if UnlockPass(s, h, m, tape).1 != 0 {} else {}
    case BarrierMake(_, n) => if n == 0 {} else {}
    case BarrierJoin(b) => if b in s.st.barriers {} else {}
    case BarrierCheck(_, _) => if T(s.st, h).isBlocking {} else {}
    case JoinCheck(t) => if t in s.st.threads {} else {}
    case JoinCall(t) => if t in s.st.threads {} else {}
    case _ =>
  }

  lemma CallArgs(s: Machine, h: Handle, op: Op, tape: Tape)
    ensures Call(s, h, op, tape).args == s.args && s.log.picks <= Call(s, h, op, tape).log.picks
  {
    hide CondSignal, CondBroadcast, UnlockPass, Choose;
    match op
    case Exit =>
    case Unlock(m) => UnlockFrame(Forget(s, h), h, m, tape);
    case Signal(_) =>
    case Broadcast(_) =>
    case MutexInit(_, _) =>
    case Join(_) =>
    case Wait(_, _) =>
    case _ =>
  }

  lemma EnlistNext(s: Machine, c: Handle, l: Label, tape: Tape)
    requires Inv(s) && Unregistered(s, c) && Enabled(s, l) && !Stutter(s, l) && Enabled(Enlist(s, c), l)
    ensures Next(Enlist(s, c), l, tape) == Enlist(Next(s, l, tape), c)
    ensures Next(s, l, tape).args == s.args
  {
    OnlyTurnSteps(s, l);
    assert Live(s, l.h) && ThreadOk(s, l.h);
    UnregisteredStands(s, c, l.h);
    hide Inv;
    var h := l.h;
    match l
    case CallL(_, op) => EnlistCall(s, c, h, op, tape); CallArgs(s, h, op, tape);
    case StepL(_) => EnlistStep(s, c, h, tape);
    case ResumeL(_) =>
      EnlistFlag(s.st, c, h, false);
      EnlistGoto(s.(st := SetInWait(s.st, h, false)), c, h, At(Go, s.ctl[h].k));
    case JoinReturnL(_) =>
      var t := s.ctl[h].t;
      assert JoinReturn(Enlist(s, c), h).ctl == Enlist(JoinReturn(s, h), c).ctl;
  }

  /** Every other step is the same step, with the same effect, as if children registered at once. */
  lemma WorkCommutes(s: Machine, l: Label, tape: Tape)
    requires Inv(s) && Enabled(s, l) && !Stutter(s, l)
    ensures Norm(s).turn == Some(l.h) && l.h in Norm(s).ctl && Norm(s).ctl[l.h] == s.ctl[l.h]
    ensures Enabled(Norm(s), l) && Norm(Next(Norm(s), l, tape)) == Norm(Next(s, l, tape))
  {
    OnlyTurnSteps(s, l);
    assert Live(s, l.h) && ThreadOk(s, l.h);
    if c :| Unregistered(s, c) {
      NormIs(s, c);
      UnregisteredStands(s, c, l.h);
      WorkEnabled(s, c, l);
      EnlistNext(s, c, l, tape);
      var s' := Next(s, l, tape);
      KeepNext(s, l, tape);
      NormIs(s', c);
      forall d ensures !Unregistered(Enlist(s', c), d) { if d in s.args { OneChild(s, c, d); } }
    }
  }

  // ---------------------------------------------------------------- runs

  lemma {:induction false} ProgramInv<M>(code: Code<M>, main: Handle, mem: M, tape: Tape, cs: seq<Config<M>>, ls: seq<Label>, i: nat)
    requires main != 0 && RunOf(code, main, mem, tape, cs, ls) && i <= |ls|
    ensures Inv(cs[i].s)
  {
    if i == 0 {
      InitInv(main);
    } else {
      ProgramInv(code, main, mem, tape, cs, ls, i - 1);
      assert CanStep(code, cs[i - 1], ls[i - 1]);
      KeepNext(cs[i - 1].s, ls[i - 1], tape);
    }
  }

  /** The steps of a run that do not depend on when children register: every call, every decision
      and everything done under GMTX, in order. */
  ghost function Work<M>(cs: seq<Config<M>>, ls: seq<Label>): seq<Label>
    requires |cs| == |ls| + 1
  {
    if ls == [] then []
    else
      var n := |ls| - 1;
      Work(cs[..|ls|], ls[..n]) + if Stutter(cs[n].s, ls[n]) then [] else [ls[n]]
  }

  /** From states with one normal form, a program's next work is the same. */
  lemma SameWork<M>(code: Code<M>, a: Config<M>, l: Label, b: Config<M>, m: Label, tape: Tape)
    requires Inv(a.s) && Inv(b.s) && Norm(a.s) == Norm(b.s) && a.mem == b.mem
    requires CanStep(code, a, l) && CanStep(code, b, m) && !Stutter(a.s, l) && !Stutter(b.s, m)
    ensures l == m && Norm(Advance(code, a, l, tape).s) == Norm(Advance(code, b, m, tape).s)
    ensures Advance(code, a, l, tape).mem == Advance(code, b, m, tape).mem
  {
    WorkCommutes(a.s, l, tape);
    WorkCommutes(b.s, m, tape);
  }

  lemma StutterStep<M>(code: Code<M>, a: Config<M>, l: Label, tape: Tape)
    requires Inv(a.s) && CanStep(code, a, l) && Stutter(a.s, l)
    ensures Norm(Advance(code, a, l, tape).s) == Norm(a.s) && Advance(code, a, l, tape).mem == a.mem
  {
    StutterKeeps(a.s, l, tape);
  }

  /** A run, cut before its last step. */
  lemma Shorter<M>(code: Code<M>, main: Handle, mem: M, tape: Tape, cs: seq<Config<M>>, ls: seq<Label>)
    requires main != 0 && RunOf(code, main, mem, tape, cs, ls) && ls != []
    ensures var n := |ls| - 1;
      && RunOf(code, main, mem, tape, cs[..|ls|], ls[..n])
      && CanStep(code, cs[n], ls[n]) && cs[n + 1] == Advance(code, cs[n], ls[n], tape) && Inv(cs[n].s)
  {
    var n := |ls| - 1;
    assert CanStep(code, cs[n], ls[n]);
    ProgramInv(code, main, mem, tape, cs, ls, n);
    forall i | 0 <= i < n ensures CanStep(code, cs[i], ls[..n][i]) && cs[i + 1] == Advance(code, cs[i], ls[..n][i], tape) {
      assert ls[..n][i] == ls[i];
    }
  }

  /** Two runs of one program on one seed that have done equally much work have done the same work, and
      are in the same state up to children still about to register, whenever the operating system
      let children run. */
  lemma {:induction false} ScheduleDecides<M>(code: Code<M>, main: Handle, mem: M, tape: Tape,
                                              cs: seq<Config<M>>, ls: seq<Label>, ds: seq<Config<M>>, ms: seq<Label>)
    requires main != 0 && RunOf(code, main, mem, tape, cs, ls) && RunOf(code, main, mem, tape, ds, ms)
    requires |Work(cs, ls)| == |Work(ds, ms)|
    ensures Work(cs, ls) == Work(ds, ms)
    ensures Norm(cs[|ls|].s) == Norm(ds[|ms|].s) && cs[|ls|].mem == ds[|ms|].mem
    decreases |ls| + |ms|
  {
    hide Norm, Stutter, Inv, Advance, CanStep;
    if ls != [] && Stutter(cs[|ls| - 1].s, ls[|ls| - 1]) {
      Shorter(code, main, mem, tape, cs, ls);
      StutterStep(code, cs[|ls| - 1], ls[|ls| - 1], tape);
      ScheduleDecides(code, main, mem, tape, cs[..|ls|], ls[..|ls| - 1], ds, ms);
    } else if ms != [] && Stutter(ds[|ms| - 1].s, ms[|ms| - 1]) {
      Shorter(code, main, mem, tape, ds, ms);
      StutterStep(code, ds[|ms| - 1], ms[|ms| - 1], tape);
      ScheduleDecides(code, main, mem, tape, cs, ls, ds[..|ms|], ms[..|ms| - 1]);
    } else if ls != [] && ms != [] {
      Shorter(code, main, mem, tape, cs, ls);
      Shorter(code, main, mem, tape, ds, ms);
      ScheduleDecides(code, main, mem, tape, cs[..|ls|], ls[..|ls| - 1], ds[..|ms|], ms[..|ms| - 1]);
      SameWork(code, cs[|ls| - 1], ls[|ls| - 1], ds[|ms| - 1], ms[|ms| - 1], tape);
    }
  }

  // ---------------------------------------------------------------- the trace of decisions

  lemma PicksNext(s: Machine, l: Label, tape: Tape)
    requires Enabled(s, l)
    ensures s.log.picks <= Next(s, l, tape).log.picks
  {
    var h := l.h;
    match l
    case CallL(_, op) => CallArgs(s, h, op, tape);
    case StepL(_) =>
      var k := s.ctl[h].k;
      match s.ctl[h].phase {
        case Drain(_) => if s.st.pendingChild.None? {} else {}
        case DrainLoop(c, _) => if c !in s.args {} else if !s.args[c] {} else {}
        case Switch =>
          var next := Choose(SetStarted(s.st, h), tape).1;
          if h !in s.st.threads || |s.st.threads| <= 1 || next.None? || next.value == h {
          } else if next.value in s.ctl && s.ctl[next.value].Waiting? && !s.ctl[next.value].signalled {
          } else {
          }
        case Go => GoArgs(s, h, k, tape);
      }
    case ResumeL(_) => if s.ctl[h].Waiting? {} else {}
    case RegisterL(_) => if h in s.args {} else {}
    case JoinReturnL(_) =>
  }

  lemma NormLog(s: Machine)
    ensures Norm(s).log == s.log
  {
  }

  /** Two runs of one program on one seed never disagree: the steps of the run that has done less
      work are the first of the other's, and so are its hand-overs. */
  lemma {:induction false} PicksAgree<M>(code: Code<M>, main: Handle, mem: M, tape: Tape,
                                         cs: seq<Config<M>>, ls: seq<Label>, ds: seq<Config<M>>, ms: seq<Label>)
    requires main != 0 && RunOf(code, main, mem, tape, cs, ls) && RunOf(code, main, mem, tape, ds, ms)
    requires |Work(cs, ls)| <= |Work(ds, ms)|
    ensures Work(cs, ls) <= Work(ds, ms) && cs[|ls|].s.log.picks <= ds[|ms|].s.log.picks
    ensures |Work(cs, ls)| == |Work(ds, ms)| ==> cs[|ls|].s.log.picks == ds[|ms|].s.log.picks
    decreases |ms|
  {
    hide Norm, Stutter, Inv;
    if |Work(cs, ls)| == |Work(ds, ms)| {
      ScheduleDecides(code, main, mem, tape, cs, ls, ds, ms);
      NormLog(cs[|ls|].s);
      NormLog(ds[|ms|].s);
    } else {
      Shorter(code, main, mem, tape, ds, ms);
      PicksAgree(code, main, mem, tape, cs, ls, ds[..|ms|], ms[..|ms| - 1]);
      PicksNext(ds[|ms| - 1].s, ms[|ms| - 1], tape);
    }
  }

  // ---------------------------------------------------------------- the result

  /** A state whose normal form can go on can go on itself, if only by letting a child register. */
  lemma StepsToo(s: Machine, l: Label) returns (m: Label)
    requires Inv(s) && Enabled(Norm(s), l) && Norm(s).turn == Some(l.h) && !l.RegisterL?
    ensures Enabled(s, m) && (m.CallL? ==> m == l && s.ctl[l.h] == Norm(s).ctl[l.h])
  {
    assert s.turn == Some(l.h) && l.h in s.ctl by {
      if c :| Unregistered(s, c) { NormIs(s, c); }
    }
    assert Active(s, l.h);
    if s.ctl[l.h].At? {
      AtStepsToo(s, l);
      m := StepL(l.h);
    } else if c :| Unregistered(s, c) {
      NobodyAt(s, l.h);
      assert Newborn(s, c) && ThreadOk(s, c);
      m := RegisterL(c);
    } else if s.ctl[l.h].DrainWaiting? {
      NobodyAt(s, l.h);
      assert ThreadOk(s, l.h) && !Unregistered(s, s.ctl[l.h].child);
      m := ResumeL(l.h);
    } else {
      assert Norm(s) == s;
      m := l;
    }
  }

  lemma AtStepsToo(s: Machine, l: Label)
    requires Inv(s) && Enabled(Norm(s), l) && s.turn == Some(l.h) && l.h in s.ctl && s.ctl[l.h].At?
    ensures Enabled(s, StepL(l.h))
  {
    if c :| Unregistered(s, c) {
      NormIs(s, c);
      UnregisteredStands(s, c, l.h);
      assert Norm(s) == Enlist(s, c) && Norm(s).ctl[l.h] == s.ctl[l.h];
      forall x | x in s.ctl && x != c ensures Norm(s).ctl[x] == s.ctl[x] {}
    } else {
      assert Norm(s) == s;
    }
  }

  lemma GoesOnToo<M>(code: Code<M>, a: Config<M>, b: Config<M>, l: Label, tape: Tape)
    requires Inv(a.s) && Inv(b.s) && Norm(a.s) == Norm(b.s) && a.mem == b.mem
    requires CanStep(code, b, l) && !Stutter(b.s, l)
    ensures exists m :: CanStep(code, a, m)
  {
    WorkCommutes(b.s, l, tape);
    var m := StepsToo(a.s, l);
    assert CanStep(code, a, m);
  }

  /** Nothing more can be done than was done in a run that cannot go on. */
  lemma {:induction false} NoMoreWork<M>(code: Code<M>, main: Handle, mem: M, tape: Tape,
                                         cs: seq<Config<M>>, ls: seq<Label>, ds: seq<Config<M>>, ms: seq<Label>)
    requires main != 0 && RunOf(code, main, mem, tape, cs, ls) && RunOf(code, main, mem, tape, ds, ms)
    requires forall l :: !CanStep(code, cs[|ls|], l)
    ensures |Work(ds, ms)| <= |Work(cs, ls)|
    decreases |ms|
  {
    hide Norm, Stutter, Inv, Advance, CanStep;
    if ms != [] {
      Shorter(code, main, mem, tape, ds, ms);
      NoMoreWork(code, main, mem, tape, cs, ls, ds[..|ms|], ms[..|ms| - 1]);
      if !Stutter(ds[|ms| - 1].s, ms[|ms| - 1]) && |Work(ds[..|ms|], ms[..|ms| - 1])| == |Work(cs, ls)| {
        ScheduleDecides(code, main, mem, tape, cs, ls, ds[..|ms|], ms[..|ms| - 1]);
        ProgramInv(code, main, mem, tape, cs, ls, |ls|);
        GoesOnToo(code, cs[|ls|], ds[|ms| - 1], ms[|ms| - 1], tape);
      }
    }
  }

  /** The same seed always gives the same result: two runs of one program that cannot go on end with
      the same memory, having taken the same steps, whenever the operating system let children run. */
  lemma SameResult<M>(code: Code<M>, main: Handle, mem: M, tape: Tape,
                      cs: seq<Config<M>>, ls: seq<Label>, ds: seq<Config<M>>, ms: seq<Label>)
    requires main != 0 && RunOf(code, main, mem, tape, cs, ls) && RunOf(code, main, mem, tape, ds, ms)
    requires forall l :: !CanStep(code, cs[|ls|], l)
    requires forall l :: !CanStep(code, ds[|ms|], l)
    ensures cs[|ls|].mem == ds[|ms|].mem && Norm(cs[|ls|].s) == Norm(ds[|ms|].s)
    ensures Work(cs, ls) == Work(ds, ms) && cs[|ls|].s.log.picks == ds[|ms|].s.log.picks
  {
    NoMoreWork(code, main, mem, tape, cs, ls, ds, ms);
    NoMoreWork(code, main, mem, tape, ds, ms, cs, ls);
    ScheduleDecides(code, main, mem, tape, cs, ls, ds, ms);
    PicksAgree(code, main, mem, tape, cs, ls, ds, ms);
  }
}
