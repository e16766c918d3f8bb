/** Who gets the turn, over whole runs: when threads are stranded, and when two threads alternate. */
module TurnTaking {
  import opened Prelude
  import opened StateModel
  import opened Machine
  import opened Invariant
  import opened Preservation
  import opened Frames
  import opened Ledger
  import opened Safety

  // ---------------------------------------------------------------- stranded threads

  /** A stranded thread stays stranded: nothing can happen but that a child registers. */
  lemma StrandedStays(s: Machine, l: Label, tape: Tape, x: Handle)
    requires Inv(s) && Stranded(s, x) && Enabled(s, l)
    ensures l.RegisterL? && Stranded(Next(s, l, tape), x)
  {
    if !l.RegisterL? { OnlyTurnSteps(s, l); }
    if l.h in s.args {} else {}
  }

  /** Nothing but an exit strands a thread. */
  lemma OnlyExitStrands(s: Machine, l: Label, tape: Tape, x: Handle)
    requires Inv(s) && Enabled(s, l) && !Stranded(s, x) && Stranded(Next(s, l, tape), x)
    ensures l.CallL? && l.op.Exit?
  {
    var s' := Next(s, l, tape);
    KeepNext(s, l, tape);
    assert Stalled(s', x);
    if l.RegisterL? {
      if l.h in s.args {} else {}
    } else {
      OnlyTurnSteps(s, l);
      if !l.JoinReturnL? && !Creates(s, l) && !(l.CallL? && (l.op.Exit? || l.op.Join?)) {
        SettledNext(s, l, tape);
      }
    }
  }

  /** What an exit strands, it strands as a step of the run. */
  lemma ExitStep(s: Machine, h: Handle, tape: Tape)
    requires Inv(s) && Enabled(s, CallL(h, Exit))
    ensures (exists x :: Stranded(Next(s, CallL(h, Exit), tape), x)) <==> LastOut(s, h)
  {
    var s0 := Forget(s, h);
    KeepLogged(s, s0, h);
    ExitStrands(s0, h, tape);
    assert Next(s, CallL(h, Exit), tape) == CallExit(s0, h, tape);
    assert forall x {:trigger Live(s, x)} {:trigger Live(s0, x)} :: Live(s0, x) == Live(s, x);
  }

  /** A thread leaves when nobody but a pending child could go on. */
  ghost predicate LastLeaves(s: Machine, l: Label) {
    l.CallL? && l.op.Exit? && LastOut(s, l.h)
  }

  lemma {:induction false} RunStays(states: seq<Machine>, labels: seq<Label>, main: Handle, tape: Tape, i: nat, j: nat, x: Handle)
    requires Run(states, labels, main, tape) && i <= j <= |labels| && Stranded(states[i], x)
    ensures Stranded(states[j], x)
  {
    if i < j {
      RunStays(states, labels, main, tape, i, j - 1, x);
      RunInv(states, labels, main, tape, j - 1);
      assert Enabled(states[j - 1], labels[j - 1]);
      StrandedStays(states[j - 1], labels[j - 1], tape, x);
    }
  }

  /** A thread that is stranded somewhere in a run was stranded by an exit of that kind. */
  lemma {:induction false} StrandedBy(states: seq<Machine>, labels: seq<Label>, main: Handle, tape: Tape, i: nat, x: Handle) returns (k: nat)
    requires Run(states, labels, main, tape) && i <= |labels| && Stranded(states[i], x)
    ensures k < i && LastLeaves(states[k], labels[k])
  {
    if i == 0 {
      assert false;
    } else if Stranded(states[i - 1], x) {
      k := StrandedBy(states, labels, main, tape, i - 1, x);
    } else {
      k := i - 1;
      RunInv(states, labels, main, tape, k);
      assert Enabled(states[k], labels[k]);
      OnlyExitStrands(states[k], labels[k], tape, x);
      ExitStep(states[k], labels[k].h, tape);
    }
  }

  /** Such an exit strands a thread for the rest of the run. */
  lemma LeavesStranded(states: seq<Machine>, labels: seq<Label>, main: Handle, tape: Tape, k: nat) returns (x: Handle)
    requires Run(states, labels, main, tape) && k < |labels| && LastLeaves(states[k], labels[k])
    ensures forall j :: k < j <= |labels| ==> Stranded(states[j], x)
  {
    RunInv(states, labels, main, tape, k);
    assert Enabled(states[k], labels[k]);
    ExitStep(states[k], labels[k].h, tape);
    x :| Stranded(states[k + 1], x);
    forall j | k < j <= |labels| ensures Stranded(states[j], x) {
      RunStays(states, labels, main, tape, k + 1, j, x);
    }
  }

  /** No false deadlock, over runs: a run ends with a thread that is not blocking and that nothing
      will ever wake, exactly when somewhere in it a thread left while a child was pending, without
      a joiner, and with everybody else blocking. */
  lemma RunStrands(states: seq<Machine>, labels: seq<Label>, main: Handle, tape: Tape)
    requires Run(states, labels, main, tape)
    ensures (exists x :: Stranded(states[|labels|], x)) <==> exists k :: 0 <= k < |labels| && LastLeaves(states[k], labels[k])
  {
    hide LastLeaves, Stranded;
    if x :| Stranded(states[|labels|], x) {
      var k := StrandedBy(states, labels, main, tape, |labels|, x);
    }
    if k :| 0 <= k < |labels| && LastLeaves(states[k], labels[k]) {
      var x := LeavesStranded(states, labels, main, tape, k);
    }
  }

  // ---------------------------------------------------------------- two threads alternate

  /** `a` and `b` are live, started and not blocking; every other live thread is blocking or has not started. */
  ghost predicate Duo(s: Machine, a: Handle, b: Handle) {
    && a != b && Live(s, a) && Live(s, b)
    && !T(s.st, a).isBlocking && T(s.st, a).startupDone && !T(s.st, b).isBlocking && T(s.st, b).startupDone
    && forall x {:trigger Live(s, x)} :: Live(s, x) && x != a && x != b ==> T(s.st, x).isBlocking || !T(s.st, x).startupDone
  }

  /** A step that leaves the turn and the trace of hand-overs as they are. */
  ghost predicate KeepsTurn(s: Machine, s': Machine) {
    s'.turn == s.turn && s'.log.picks == s.log.picks
  }

  lemma GoKeepsTurn(s: Machine, h: Handle, k: Point, tape: Tape)
    requires Inv(s) && h in s.ctl && s.ctl[h] == At(Go, k) && !T(s.st, h).isBlocking
    ensures KeepsTurn(s, StepGo(s, h, k, tape))
  {
    Runner(s, h);
    match k
    case LockLoop(m) => LockFrame(s, h, m);
    case LockAgain(m) => LockFrame(s, h, m);
    case LockCheck(m) => LockFrame(s, h, m);
    case CondAgain(_, m) => LockFrame(s, h, m);
    case CondCheck(_, m) => LockFrame(s, h, m);
    case TryLock(m) => LockFrame(s, h, m);
    case CondRelease(c, m) => UnlockFrame(s, h, m, tape); if UnlockPass(s, h, m, tape).1 != 0 {} else {}
    case BarrierMake(_, n) => if n == 0 {} else {}
    case BarrierJoin(b) => if b in s.st.barriers {} else {}
    case JoinCheck(t) => if t in s.st.threads {} else {}
    case _ =>
  }

  lemma CallKeepsTurn(s: Machine, h: Handle, op: Op, tape: Tape)
    requires !op.Exit?
    ensures KeepsTurn(s, Call(s, h, op, tape))
  {
    match op
    case Unlock(m) => UnlockFrame(Forget(s, h), h, m, tape);
    case Signal(_) =>
    case Broadcast(_) =>
    case MutexInit(_, _) =>
    case Join(_) =>
    case Wait(_, _) =>
    case _ =>
  }

  lemma SwitchHandsOver(s: Machine, a: Handle, b: Handle, k: Point, tape: Tape)
    requires Inv(s) && Duo(s, a, b) && a in s.ctl && s.ctl[a] == At(Switch, k)
    ensures var s' := StepSwitch(s, a, k, tape);
      s'.turn == Some(b) && s'.log.picks == s.log.picks + [b]
  {
    Runner(s, a);
    TwoAlternate(s, a, b, k, tape);
    var next := Choose(SetStarted(s.st, a), tape).1;
    if |s.st.threads| <= 1 || next.None? || next.value == a {
    } else if next.value in s.ctl && s.ctl[next.value].Waiting? && !s.ctl[next.value].signalled {
    } else {
    }
  }

  /** A step of the turn holder keeps the turn, or hands it to the other thread. */
  lemma DuoStep(s: Machine, l: Label, tape: Tape, a: Handle, b: Handle)
    requires Inv(s) && Enabled(s, l) && Duo(s, a, b) && s.turn == Some(a) && Live(Next(s, l, tape), a)
    ensures var s' := Next(s, l, tape);
      KeepsTurn(s, s') || (s'.turn == Some(b) && s'.log.picks == s.log.picks + [b])
  {
    match l
    case RegisterL(h) => if h in s.args {} else {}
    case CallL(h, op) =>
      OnlyTurnSteps(s, l);
      if op.Exit? { LedgerExit(s, h, tape); } else { CallKeepsTurn(s, h, op, tape); }
    case StepL(h) =>
      OnlyTurnSteps(s, l);
      match s.ctl[h].phase {
        case Drain(_) => if s.st.pendingChild.None? {} else {}
        case DrainLoop(c, _) => if c !in s.args {} else if !s.args[c] {} else {}
        case Switch => SwitchHandsOver(s, a, b, s.ctl[h].k, tape);
        case Go => GoKeepsTurn(s, h, s.ctl[h].k, tape);
      }
    case ResumeL(h) => if s.ctl[h].Waiting? {} else {}
    case JoinReturnL(_) =>
  }

  /** One of the two takes the first, third, fifth ... place. */
  ghost predicate Alternates(hs: seq<Handle>, first: Handle, second: Handle) {
    forall k {:trigger hs[k]} :: 0 <= k < |hs| ==> hs[k] == if k % 2 == 0 then first else second
  }

  /** After the hand-overs `handed`, this one of the two holds the turn. */
  function Holder(handed: seq<Handle>, a: Handle, b: Handle): Handle {
    if |handed| % 2 == 0 then a else b
  }

  lemma AlternatesGrows(base: seq<Handle>, was: seq<Handle>, now: seq<Handle>, a: Handle, b: Handle)
    requires base <= was && Alternates(was[|base|..], b, a)
    requires now == was || now == was + [Holder(was[|base|..], b, a)]
    ensures base <= now && Alternates(now[|base|..], b, a)
    ensures now != was ==> Holder(now[|base|..], a, b) == Holder(was[|base|..], b, a)
  {
    if now != was {
      assert now[|base|..] == was[|base|..] + [Holder(was[|base|..], b, a)];
    }
  }

  lemma EitherStep(s: Machine, l: Label, tape: Tape, a: Handle, b: Handle, h: Handle, other: Handle)
    requires Inv(s) && Enabled(s, l) && Duo(s, a, b) && Duo(Next(s, l, tape), a, b) && s.turn == Some(h)
    requires (h == a && other == b) || (h == b && other == a)
    ensures var s' := Next(s, l, tape);
      KeepsTurn(s, s') || (s'.turn == Some(other) && s'.log.picks == s.log.picks + [other])
  {
    DuoBack(s, a, b);
    DuoStep(s, l, tape, h, other);
  }

  lemma OneMoreStep(s: Machine, l: Label, tape: Tape, a: Handle, b: Handle, base: seq<Handle>)
    requires Inv(s) && Enabled(s, l) && Duo(s, a, b) && Duo(Next(s, l, tape), a, b)
    requires base <= s.log.picks && Alternates(s.log.picks[|base|..], b, a) && s.turn == Some(Holder(s.log.picks[|base|..], a, b))
    ensures var s' := Next(s, l, tape);
      base <= s'.log.picks && Alternates(s'.log.picks[|base|..], b, a) && s'.turn == Some(Holder(s'.log.picks[|base|..], a, b))
  {
    var handed := s.log.picks[|base|..];
    EitherStep(s, l, tape, a, b, Holder(handed, a, b), Holder(handed, b, a));
    AlternatesGrows(base, s.log.picks, Next(s, l, tape).log.picks, a, b);
  }

  /** While exactly two threads are started and not blocking, the hand-overs of the turn strictly
      alternate between them, whatever is drawn, beginning with the one that does not hold the turn. */
  lemma {:induction false} DuoAlternates(states: seq<Machine>, labels: seq<Label>, main: Handle, tape: Tape,
                                         i: nat, j: nat, a: Handle, b: Handle)
    requires Run(states, labels, main, tape) && i <= j <= |labels|
    requires forall k {:trigger states[k]} :: i <= k <= j ==> Duo(states[k], a, b)
    requires states[i].turn == Some(a)
    ensures states[i].log.picks <= states[j].log.picks
    ensures var handed := states[j].log.picks[|states[i].log.picks|..];
      Alternates(handed, b, a) && states[j].turn == Some(Holder(handed, a, b))
  {
    if i < j {
      DuoAlternates(states, labels, main, tape, i, j - 1, a, b);
      RunInv(states, labels, main, tape, j - 1);
      assert Enabled(states[j - 1], labels[j - 1]);
      OneMoreStep(states[j - 1], labels[j - 1], tape, a, b, states[i].log.picks);
    } else {
      assert states[j].log.picks[|states[i].log.picks|..] == [];
    }
  }

  lemma DuoBack(s: Machine, a: Handle, b: Handle)
    requires Duo(s, a, b)
    ensures Duo(s, b, a)
  {
  }
}
