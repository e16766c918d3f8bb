/** The scheduler never spins: between two calls of the program it takes boundedly many steps. */
module Progress {
  import opened Prelude
  import opened StateModel
  import opened Machine
  import opened Invariant
  import opened Preservation
  import opened Frames
  import opened Safety

  /** Steps a call may still take from a point under GMTX, waits included. */
  function PointCost(k: Point): nat {
    match k
    case Ret(_) => 1
    case LockLoop(_) => 10
    case LockCheck(_) => 3
    case LockAgain(_) => 1
    case TryLock(_) => 1
    case CondRelease(_, _) => 19
    case CondCheck(_, _) => 12
    case CondAgain(_, _) => 10
    case BarrierMake(_, _) => 1
    case BarrierJoin(_) => 10
    case BarrierCheck(_, _) => 3
    case BarrierAgain(_, _) => 1
    case JoinCheck(_) => 9
    case JoinCall(_) => 2
    case CreateBody(_) => 5
  }

  function Weight(s: Machine, h: Handle): nat {
    if h !in s.ctl then 0
    else match s.ctl[h]
      case Starting => 3
      case User(_) => 0
      case At(Drain(_), k) => PointCost(k) + 6
      case At(DrainLoop(c, _), k) => if c in s.args && s.args[c] then PointCost(k) + 3 else PointCost(k) + 5
      case At(Switch, k) => PointCost(k) + 2
      case At(Go, k) => PointCost(k)
      case Waiting(k, _) => PointCost(k) + 1
      case DrainWaiting(_, _, k) => PointCost(k) + 4
      case RealJoining(_) => 1
      case Exited => 0
  }

  function Cost(s: Machine, hs: seq<Handle>): nat {
    if hs == [] then 0 else Cost(s, hs[..|hs| - 1]) + Weight(s, hs[|hs| - 1])
  }

  lemma {:induction false} CostSame(s: Machine, s': Machine, hs: seq<Handle>)
    requires forall x :: x in hs ==> Weight(s', x) == Weight(s, x)
    ensures Cost(s', hs) == Cost(s, hs)
  {
    if hs != [] {
      assert hs[|hs| - 1] in hs;
      CostSame(s, s', hs[..|hs| - 1]);
    }
  }

  /** When only `h` changes weight, the cost changes by as much. */
  lemma {:induction false} CostMoves(s: Machine, s': Machine, hs: seq<Handle>, h: Handle)
    requires Distinct(hs) && h in hs
    requires forall x :: x in hs && x != h ==> Weight(s', x) == Weight(s, x)
    ensures Cost(s', hs) + Weight(s, h) == Cost(s, hs) + Weight(s', h)
  {
    var front, last := hs[..|hs| - 1], hs[|hs| - 1];
    if last == h {
      assert h !in front;
      CostSame(s, s', front);
    } else {
      assert h in front;
      CostMoves(s, s', front, h);
    }
  }

  lemma {:induction false} CostWithout(s: Machine, hs: seq<Handle>, h: Handle)
    ensures Cost(s, Without(hs, h)) <= Cost(s, hs)
  {
    if hs != [] {
      CostWithout(s, hs[..|hs| - 1], h);
      var front := Without(hs[..|hs| - 1], h);
      assert (front + [hs[|hs| - 1]])[..|front|] == front;
    }
  }

  // ---------------------------------------------------------------- one step

  /** A bystander weighs what it weighed. */
  lemma AsideWeight(s: Machine, l: Label, tape: Tape, x: Handle)
    requires Inv(s) && Enabled(s, l) && Live(s, x) && x != l.h
    ensures Weight(Next(s, l, tape), x) == Weight(s, x)
  {
    AsideNext(s, l, tape, x);
    assert (Active(s, x) <==> s.turn == Some(x)) && (Active(s, l.h) <==> s.turn == Some(l.h));
  }

  lemma LockWeight(s: Machine, h: Handle, m: Key)
    requires Locking(s, h, m)
    ensures Weight(LockPass(s, h, m), h) <= 9
    ensures m !in s.st.mutexes || s.st.mutexes[m].ownerTid == h || QueueOf(s.ctl[h]) == OnMutex(m) ==> Weight(LockPass(s, h, m), h) == 0
  {
    Runner(s, h);
    if m in s.st.mutexes && s.st.mutexes[m].ownerTid != h {
    } else {
      if m !in s.held {} else if s.held[m].holder == h && m in s.st.recursiveMutexes {} else {}
    }
  }

  lemma TryWeight(s: Machine, h: Handle, m: Key, tape: Tape)
    requires Inv(s) && h in s.ctl && s.ctl[h] == At(Go, TryLock(m))
    ensures Weight(StepGo(s, h, TryLock(m), tape), h) == 0
  {
    Runner(s, h);
    var tid := T(s.st, h).tid;
    if (m in s.st.mutexes && s.st.mutexes[m].ownerTid == tid && m !in s.st.recursiveMutexes) || WillBlock(s.st, m, tid) {
    } else {
      if m in s.st.mutexes { assert MutexOk(s, m) && ThreadOk(s, s.st.mutexes[m].ownerTid); }
      LockWeight(s, h, m);
    }
  }

  lemma MutexPointWeight(s: Machine, h: Handle, k: Point, tape: Tape)
    requires Inv(s) && h in s.ctl && s.ctl[h] == At(Go, k)
    requires k.LockLoop? || k.LockCheck? || k.LockAgain? || k.TryLock? || k.CondRelease? || k.CondCheck? || k.CondAgain?
    ensures Weight(StepGo(s, h, k, tape), h) < PointCost(k)
  {
    Runner(s, h);
    match k
    case LockLoop(m) => LockWeight(s, h, m);
    case LockAgain(m) => LockWeight(s, h, m);
    case CondAgain(_, m) => LockWeight(s, h, m);
    case LockCheck(m) => if T(s.st, h).isBlocking {} else { LockWeight(s, h, m); }
    case CondCheck(_, m) => if T(s.st, h).isBlocking {} else { LockWeight(s, h, m); }
    case TryLock(m) => TryWeight(s, h, m, tape);
    case CondRelease(c, m) => if UnlockPass(s, h, m, tape).1 != 0 {} else {}
  }

  lemma OtherPointWeight(s: Machine, h: Handle, k: Point, tape: Tape)
    requires h in s.ctl && s.ctl[h] == At(Go, k) && !(k.CreateBody? && k.c == h)
    requires k.Ret? || k.BarrierMake? || k.BarrierJoin? || k.BarrierCheck? || k.BarrierAgain? || k.JoinCheck? || k.JoinCall? || k.CreateBody?
    ensures Weight(StepGo(s, h, k, tape), h) + (if k.CreateBody? then 3 else 0) < PointCost(k)
  {
    hide BarrierArrive, LockPass, StepCondRelease;
    match k
    case Ret(_) =>
    case BarrierAgain(_, _) =>
    case BarrierMake(_, n) => if n == 0 {} else {}
    case BarrierJoin(b) => if b in s.st.barriers {} else {}
    case JoinCheck(t) => if t in s.st.threads {} else {}
    case JoinCall(t) => if t in s.st.threads {} else {}
    case BarrierCheck(_, _) => if T(s.st, h).isBlocking {} else {}
    case CreateBody(_) =>
  }

  lemma StepWeight(s: Machine, h: Handle, tape: Tape)
    requires Inv(s) && Enabled(s, StepL(h))
    ensures Weight(Step(s, h, tape), h) + (if s.ctl[h].phase.Go? && s.ctl[h].k.CreateBody? then 3 else 0) < Weight(s, h)
  {
    Runner(s, h);
    var k := s.ctl[h].k;
    match s.ctl[h].phase
    case Drain(_) => if s.st.pendingChild.None? {} else {}
    case DrainLoop(c, _) => if !s.args[c] {} else {}
    case Switch => QuietSwitch(s, h, k, tape);
    case Go =>
      if k.LockLoop? || k.LockCheck? || k.LockAgain? || k.TryLock? || k.CondRelease? || k.CondCheck? || k.CondAgain? {
        MutexPointWeight(s, h, k, tape);
      } else {
        OtherPointWeight(s, h, k, tape);
      }
  }

  lemma CallWeight(s: Machine, h: Handle, op: Op, tape: Tape)
    requires h in s.ctl && s.ctl[h].User? && !op.Exit?
    ensures Weight(Call(s, h, op, tape), h) <= 25
  {
    match op
    case Unlock(m) =>
    case Signal(c) => if CondWaiters(s.st, c) == [] {} else {}
    case Broadcast(c) =>
    case MutexInit(_, _) =>
    case Join(_) =>
    case Wait(_, _) =>
    case _ =>
  }

  function TotalCost(s: Machine): nat {
    Cost(s, s.st.threads)
  }

  lemma OwnWeight(s: Machine, l: Label, tape: Tape)
    requires Inv(s) && Enabled(s, l) && !(l.CallL? && l.op.Exit?)
    ensures l.CallL? ==> Weight(s, l.h) == 0 && Weight(Next(s, l, tape), l.h) <= 25
    ensures !l.CallL? ==>
      Weight(Next(s, l, tape), l.h) + (if l.StepL? && s.ctl[l.h].phase.Go? && s.ctl[l.h].k.CreateBody? then 3 else 0) < Weight(s, l.h)
  {
    var h := l.h;
    match l
    case CallL(_, op) => CallWeight(s, h, op, tape);
    case StepL(_) => StepWeight(s, h, tape);
    case ResumeL(_) => if s.ctl[h].Waiting? {} else {}
    case RegisterL(_) => assert ThreadOk(s, h);
    case JoinReturnL(_) => assert ThreadOk(s, h);
  }

  /** Every step but a call lowers the cost, and a call raises it by at most 25. */
  lemma CostNext(s: Machine, l: Label, tape: Tape)
    requires Inv(s) && Enabled(s, l)
    ensures if l.CallL? then TotalCost(Next(s, l, tape)) <= TotalCost(s) + 25 else TotalCost(Next(s, l, tape)) < TotalCost(s)
  {
    var s' := Next(s, l, tape);
    var h := l.h;
    assert Live(s, h);
    forall x | x in s.st.threads && x != h ensures Weight(s', x) == Weight(s, x) {
      assert Live(s, x);
      AsideWeight(s, l, tape, x);
    }
    if l.CallL? && l.op.Exit? {
      CostSame(s, s', Without(s.st.threads, h));
      CostWithout(s, s.st.threads, h);
      ExitThreads(s, h, tape);
    } else {
      OwnWeight(s, l, tape);
      CostMoves(s, s', s.st.threads, h);
      if l.StepL? && s.ctl[h].phase.Go? && s.ctl[h].k.CreateBody? {
        Runner(s, h);
        assert (s.st.threads + [s.ctl[h].k.c])[..|s.st.threads|] == s.st.threads;
      } else {
        ThreadsNext(s, l, tape);
      }
    }
  }

  lemma ExitThreads(s: Machine, h: Handle, tape: Tape)
    ensures Call(s, h, Exit, tape).st.threads == Without(s.st.threads, h)
  {
    if T(s.st, h).joiner.Some? {} else {}
  }

  function Calls(labels: seq<Label>): nat {
    if labels == [] then 0 else Calls(labels[..|labels| - 1]) + if labels[|labels| - 1].CallL? then 1 else 0
  }

  lemma {:induction false} RunCost(states: seq<Machine>, labels: seq<Label>, main: Handle, tape: Tape)
    requires Run(states, labels, main, tape)
    ensures |labels| + TotalCost(states[|labels|]) <= 26 * Calls(labels)
  {
    if labels == [] {
      assert states[0].st.threads == [main] && [main][..0] == [];
      assert Cost(states[0], [main][..0]) == 0 && Weight(states[0], main) == 0;
    } else {
      var n := |labels| - 1;
      RunCost(states[..|labels|], labels[..n], main, tape);
      RunInv(states, labels, main, tape, n);
      assert Enabled(states[n], labels[n]);
      CostNext(states[n], labels[n], tape);
    }
  }

  /** No livelock inside the scheduler: in every run, with every sequence of choices, the steps
      are at most 26 for each call the program has made. */
  lemma StepsPerCall(states: seq<Machine>, labels: seq<Label>, main: Handle, tape: Tape)
    requires Run(states, labels, main, tape)
    ensures |labels| <= 26 * Calls(labels)
  {
    RunCost(states, labels, main, tape);
  }
}
