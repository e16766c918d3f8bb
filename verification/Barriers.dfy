/** Barriers over whole runs: rounds of exactly n distinct arrivals, one serial thread per round,
    and nobody leaves before its round is complete. */
module Barriers {
  import opened Prelude
  import opened StateModel
  import opened Machine
  import opened Invariant
  import opened Preservation
  import opened Frames
  import opened Safety

  ghost predicate SameBarriers(s: Machine, s': Machine) {
    s'.st.barriers == s.st.barriers && s'.log.barriers == s.log.barriers
  }

  /** A thread inside barrier_wait is seated either in the round still filling up, or in a
      complete one, whose last arrival carries the serial value. */
  ghost predicate SeatAt(s: Machine, h: Handle, b: Key, released: bool) {
    && b in s.st.barriers && h in s.log.barriers.seats
    && var r := s.log.barriers.seats[h];
       if BarrierWaiter(s, b, h) then r == |RoundsOf(s, b)| && !released
       else r < |RoundsOf(s, b)| && h in RoundsOf(s, b)[r]
            && (released <==> |RoundsOf(s, b)[r]| > 0 && RoundsOf(s, b)[r][|RoundsOf(s, b)[r]| - 1] == h)
  }

  ghost predicate SeatOk(s: Machine, h: Handle)
    requires h in s.ctl
  {
    var k := PointOf(s.ctl[h]);
    k.Some? && (k.value.BarrierCheck? || k.value.BarrierAgain?) ==> SeatAt(s, h, k.value.b, k.value.released)
  }

  ghost predicate RoundsOk(s: Machine, b: Key)
    requires b in s.st.barriers
  {
    forall i {:trigger RoundsOf(s, b)[i]} :: 0 <= i < |RoundsOf(s, b)| ==>
      |RoundsOf(s, b)[i]| == s.st.barriers[b].count && Distinct(RoundsOf(s, b)[i])
  }

  ghost predicate Seated(s: Machine) {
    && (forall h {:trigger SeatOk(s, h)} :: h in s.ctl ==> SeatOk(s, h))
    && (forall b {:trigger RoundsOk(s, b)} :: b in s.st.barriers ==> RoundsOk(s, b))
  }

  // ---------------------------------------------------------------- steps that leave barriers alone

  lemma GoBarriers(s: Machine, h: Handle, k: Point, tape: Tape)
    requires !k.BarrierMake? && !k.BarrierJoin?
    ensures SameBarriers(s, StepGo(s, h, k, tape))
  {
    hide LockPass, UnlockPass, BarrierArrive;
    match k
    case LockLoop(m) => LockFrame(s, h, m);
    case LockAgain(m) => LockFrame(s, h, m);
    case CondAgain(_, m) => LockFrame(s, h, m);
    case LockCheck(m) => LockFrame(s, h, m); if T(s.st, h).isBlocking {} else {}
    case CondCheck(_, m) => LockFrame(s, h, m); if T(s.st, h).isBlocking {} else {}
    case TryLock(m) => LockFrame(s, h, m);
    case CondRelease(c, m) => UnlockFrame(s, h, m, tape); if UnlockPass(s, h, m, tape).1 != 0 {} else {}
    case JoinCheck(t) => if t in s.st.threads {} else {}
    case JoinCall(t) => if t in s.st.threads {} else {}
    case BarrierCheck(_, _) => if T(s.st, h).isBlocking {} else {}
    case _ =>
  }

  /** A point of another call does not lead to a barrier. */
  lemma GoElsewhere(s: Machine, h: Handle, k: Point, tape: Tape)
    requires h in s.ctl && !k.BarrierMake? && !k.BarrierJoin? && !k.BarrierCheck? && !(k.CreateBody? && k.c == h)
    ensures h in StepGo(s, h, k, tape).ctl && !QueueOf(StepGo(s, h, k, tape).ctl[h]).OnBarrier?
  {
    hide UnlockPass, TryAcquire, RealLock;
    match k
    case LockCheck(m) => if T(s.st, h).isBlocking {} else {}
    case CondCheck(_, m) => if T(s.st, h).isBlocking {} else {}
    case CondRelease(c, m) => if UnlockPass(s, h, m, tape).1 != 0 {} else {}
    case JoinCheck(t) => if t in s.st.threads {} else {}
    case JoinCall(t) => if t in s.st.threads {} else {}
    case _ =>
  }

  lemma CallBarriers(s: Machine, h: Handle, op: Op, tape: Tape)
    requires h in s.ctl
    ensures SameBarriers(s, Call(s, h, op, tape))
  {
    hide CallExit;
    match op
    case Unlock(m) => UnlockFrame(Forget(s, h), h, m, tape);
    case Signal(c) => if CondWaiters(s.st, c) == [] {} else {}
    case Broadcast(c) =>
    case MutexInit(_, _) =>
    case Join(_) =>
    case Wait(_, _) =>
    case Exit => ExitBarriers(Forget(s, h), h, tape);
    case _ =>
  }

  lemma ExitBarriers(s: Machine, h: Handle, tape: Tape)
    ensures SameBarriers(s, CallExit(s, h, tape))
  {
    if T(s.st, h).joiner.Some? {} else {}
    var (st2, next) := Choose(Departed(s.st, h), tape);
    if next.Some? && next.value in s.ctl[h := Exited] && s.ctl[h := Exited][next.value].Waiting? && !s.ctl[h := Exited][next.value].signalled {
    } else if next.Some? {
    } else {
    }
  }

  // ---------------------------------------------------------------- steps of barrier_wait

  lemma SeatKept(s: Machine, s': Machine, x: Handle)
    requires SameBarriers(s, s') && x in s.ctl && x in s'.ctl && SeatOk(s, x)
    requires PointOf(s'.ctl[x]) == PointOf(s.ctl[x])
    ensures SeatOk(s', x)
  {
  }

  lemma RoundsKept(s: Machine, s': Machine)
    requires SameBarriers(s, s') && Seated(s)
    ensures forall b {:trigger RoundsOk(s', b)} :: b in s'.st.barriers ==> RoundsOk(s', b)
  {
    forall b | b in s'.st.barriers ensures RoundsOk(s', b) {
      assert RoundsOk(s, b) && RoundsOf(s', b) == RoundsOf(s, b);
    }
  }

  /** What an arrival does: it adds to the round filling up, or completes it. */
  ghost predicate Arrival(s: Machine, s': Machine, h: Handle, b: Key, released: bool) {
    && h in s.ctl && b in s.st.barriers && h !in s.st.barriers[b].waiters
    && s'.ctl == s.ctl[h := At(Drain(true), BarrierCheck(b, released))]
    && s'.st.barriers == s.st.barriers[b := SBarrier(s.st.barriers[b].count, if released then [] else s.st.barriers[b].waiters + [h])]
    && s'.log.barriers.seats == s.log.barriers.seats[h := |RoundsOf(s, b)|]
    && RoundsOf(s', b) == RoundsOf(s, b) + (if released then [s.st.barriers[b].waiters + [h]] else [])
    && (forall k {:trigger RoundsOf(s', k)} :: k != b ==> RoundsOf(s', k) == RoundsOf(s, k))
  }

  lemma JoinArrives(s: Machine, h: Handle, b: Key) returns (released: bool)
    requires Inv(s) && h in s.ctl && s.ctl[h] == At(Go, BarrierJoin(b)) && b in s.st.barriers
    ensures Arrival(s, StepBarrierJoin(s, h, b), h, b, released)
  {
    var y := s.st.barriers[b];
    Runner(s, h);
    assert BarrierOk(s, b);
    released := |y.waiters| + 1 >= y.count;
    if released {} else {}
  }

  lemma ArrivalSeats(s: Machine, s': Machine, h: Handle, b: Key, released: bool, x: Handle)
    requires Arrival(s, s', h, b, released) && x in s.ctl && SeatOk(s, x)
    ensures x in s'.ctl && SeatOk(s', x)
  {
  }

  lemma JoinSeats(s: Machine, h: Handle, b: Key, x: Handle)
    requires Inv(s) && h in s.ctl && s.ctl[h] == At(Go, BarrierJoin(b)) && b in s.st.barriers
    requires x in s.ctl && SeatOk(s, x)
    ensures x in StepBarrierJoin(s, h, b).ctl && SeatOk(StepBarrierJoin(s, h, b), x)
  {
    var released := JoinArrives(s, h, b);
    ArrivalSeats(s, StepBarrierJoin(s, h, b), h, b, released, x);
  }

  lemma JoinRounds(s: Machine, h: Handle, b: Key)
    requires Inv(s) && h in s.ctl && s.ctl[h] == At(Go, BarrierJoin(b)) && b in s.st.barriers && Seated(s)
    ensures forall x {:trigger RoundsOk(StepBarrierJoin(s, h, b), x)} ::
              x in StepBarrierJoin(s, h, b).st.barriers ==> RoundsOk(StepBarrierJoin(s, h, b), x)
  {
    var s' := StepBarrierJoin(s, h, b);
    var y := s.st.barriers[b];
    Runner(s, h);
    assert BarrierOk(s, b);
    DistinctAppend(y.waiters, h);
    forall x | x in s'.st.barriers ensures RoundsOk(s', x) {
      assert RoundsOk(s, x);
      if x != b { assert RoundsOf(s', x) == RoundsOf(s, x); }
    }
  }

  lemma MakeSeats(s: Machine, h: Handle, b: Key, n: nat, x: Handle)
    requires Inv(s) && h in s.ctl && s.ctl[h] == At(Go, BarrierMake(b, n)) && n > 0
    requires x in s.ctl && SeatOk(s, x) && !UsesBarrier(s.ctl[x], b)
    ensures x in StepBarrierMake(s, h, b, n).ctl && SeatOk(StepBarrierMake(s, h, b, n), x)
  {
    var s' := StepBarrierMake(s, h, b, n);
    var k := PointOf(s.ctl[x]);
    if k.Some? && (k.value.BarrierCheck? || k.value.BarrierAgain?) {
      assert RoundsOf(s', k.value.b) == RoundsOf(s, k.value.b);
    }
  }

  lemma MakeRounds(s: Machine, h: Handle, b: Key, n: nat)
    requires Seated(s) && n > 0
    ensures forall x {:trigger RoundsOk(StepBarrierMake(s, h, b, n), x)} ::
              x in StepBarrierMake(s, h, b, n).st.barriers ==> RoundsOk(StepBarrierMake(s, h, b, n), x)
  {
    var s' := StepBarrierMake(s, h, b, n);
    forall x | x in s'.st.barriers ensures RoundsOk(s', x) {
      if x != b { assert RoundsOk(s, x) && RoundsOf(s', x) == RoundsOf(s, x); }
    }
  }

  // ---------------------------------------------------------------- every step, every run

  ghost predicate AtBarrierStep(s: Machine, l: Label)
    requires l.h in s.ctl
  {
    l.StepL? && s.ctl[l.h].At? && s.ctl[l.h].phase.Go?
    && ((s.ctl[l.h].k.BarrierMake? && s.ctl[l.h].k.n > 0) || (s.ctl[l.h].k.BarrierJoin? && s.ctl[l.h].k.b in s.st.barriers))
  }

  lemma ElsewhereNext(s: Machine, l: Label, tape: Tape)
    requires Inv(s) && Enabled(s, l) && !AtBarrierStep(s, l)
    ensures SameBarriers(s, Next(s, l, tape))
  {
    var h := l.h;
    match l
    case CallL(_, op) => CallBarriers(s, h, op, tape);
    case StepL(_) =>
      match s.ctl[h].phase {
        case Drain(_) => QuietDrain(s, h, tape);
        case DrainLoop(_, _) => QuietDrain(s, h, tape);
        case Switch => QuietSwitch(s, h, s.ctl[h].k, tape);
        case Go => if !s.ctl[h].k.BarrierMake? && !s.ctl[h].k.BarrierJoin? { GoBarriers(s, h, s.ctl[h].k, tape); }
      }
    case ResumeL(_) => if s.ctl[h].Waiting? {} else {}
    case RegisterL(_) => if h in s.args {} else {}
    case JoinReturnL(_) =>
  }

  lemma NoSeat(s: Machine, h: Handle)
    requires h in s.ctl && !QueueOf(s.ctl[h]).OnBarrier?
    ensures SeatOk(s, h)
  {
  }

  /** A thread's own step either keeps its point, or reaches one where it has no seat to account for. */
  lemma OwnSeat(s: Machine, l: Label, tape: Tape)
    requires Inv(s) && Enabled(s, l) && !AtBarrierStep(s, l) && SeatOk(s, l.h)
    ensures l.h in Next(s, l, tape).ctl && SeatOk(Next(s, l, tape), l.h)
  {
    var h := l.h;
    ElsewhereNext(s, l, tape);
    match l
    case CallL(_, op) => CallElsewhere(s, h, op, tape); NoSeat(Call(s, h, op, tape), h);
    case StepL(_) => StepSeat(s, h, tape);
    case ResumeL(_) =>
      if s.ctl[h].Waiting? { SeatKept(s, Resume(s, h), h); } else { SeatKept(s, Resume(s, h), h); }
    case RegisterL(_) => assert ThreadOk(s, h); NoSeat(Register(s, h), h);
    case JoinReturnL(_) => assert ThreadOk(s, h); NoSeat(JoinReturn(s, h), h);
  }

  lemma StepSeat(s: Machine, h: Handle, tape: Tape)
    requires Inv(s) && Enabled(s, StepL(h)) && !AtBarrierStep(s, StepL(h)) && SeatOk(s, h)
    requires SameBarriers(s, Step(s, h, tape))
    ensures h in Step(s, h, tape).ctl && SeatOk(Step(s, h, tape), h)
  {
    var k := s.ctl[h].k;
    match s.ctl[h].phase
    case Drain(_) => QuietDrain(s, h, tape); SeatKept(s, Step(s, h, tape), h);
    case DrainLoop(_, _) => QuietDrain(s, h, tape); SeatKept(s, Step(s, h, tape), h);
    case Switch => QuietSwitch(s, h, k, tape); SeatKept(s, StepSwitch(s, h, k, tape), h);
    case Go =>
      Runner(s, h);
      if k.BarrierCheck? {
        CheckSeat(s, h, k, tape);
      } else if k.BarrierMake? {
        NoSeat(Goto(s, h, User(EINVAL)), h);
      } else if k.BarrierJoin? {
        NoSeat(Goto(s, h, User(EINVAL)), h);
      } else {
        GoElsewhere(s, h, k, tape);
        NoSeat(StepGo(s, h, k, tape), h);
      }
  }

  lemma CheckSeat(s: Machine, h: Handle, k: Point, tape: Tape)
    requires h in s.ctl && s.ctl[h] == At(Go, k) && k.BarrierCheck? && SeatOk(s, h)
    requires SameBarriers(s, StepGo(s, h, k, tape))
    ensures h in StepGo(s, h, k, tape).ctl && SeatOk(StepGo(s, h, k, tape), h)
  {
    if T(s.st, h).isBlocking {
      assert BarrierWaiter(StepGo(s, h, k, tape), k.b, h) == BarrierWaiter(s, k.b, h);
      assert RoundsOf(StepGo(s, h, k, tape), k.b) == RoundsOf(s, k.b);
    } else {
    }
  }

  lemma CallElsewhere(s: Machine, h: Handle, op: Op, tape: Tape)
    requires Inv(s) && h in s.ctl && s.ctl[h].User? && Allowed(s, h, op)
    ensures h in Call(s, h, op, tape).ctl && !QueueOf(Call(s, h, op, tape).ctl[h]).OnBarrier?
  {
    hide Call, Inv;
    if op.Exit? {
      ExitElsewhere(s, h, tape);
    } else {
      CallMoves(s, h, op, tape);
    }
  }

  lemma ExitElsewhere(s: Machine, h: Handle, tape: Tape)
    requires Inv(s) && h in s.ctl && s.ctl[h].User? && Allowed(s, h, Exit)
    ensures h in Call(s, h, Exit, tape).ctl && Call(s, h, Exit, tape).ctl[h].Exited?
  {
    hide CallExit;
    var s0 := Forget(s, h);
    KeepLogged(s, s0, h);
    ExitLeaves(s0, h, tape);
  }

  lemma SeatedNext(s: Machine, l: Label, tape: Tape)
    requires Inv(s) && Enabled(s, l) && Seated(s)
    ensures Seated(Next(s, l, tape))
  {
    hide Inv, SeatAt;
    var s' := Next(s, l, tape);
    var h := l.h;
    KeepNext(s, l, tape);
    if AtBarrierStep(s, l) {
      BarrierStepSeated(s, h, tape);
    } else {
      assert SeatOk(s, h);
      ElsewhereNext(s, l, tape);
      OwnSeat(s, l, tape);
      RoundsKept(s, s');
      forall x | x in s'.ctl && x != h ensures SeatOk(s', x) {
        if Live(s, x) {
          AsideNext(s, l, tape, x);
          assert SeatOk(s, x);
          SeatKept(s, s', x);
        } else if Live(s', x) {
          NewcomerNext(s, l, tape, x);
          assert s' == StepCreate(s, h, x);
        }
      }
    }
  }

  lemma BarrierStepSeated(s: Machine, h: Handle, tape: Tape)
    requires Inv(s) && Enabled(s, StepL(h)) && AtBarrierStep(s, StepL(h)) && Seated(s)
    ensures Seated(Step(s, h, tape))
  {
    var s' := Step(s, h, tape);
    var k := s.ctl[h].k;
    if k.BarrierMake? {
      MakeRounds(s, h, k.b, k.n);
      forall x | x in s'.ctl ensures SeatOk(s', x) {
        assert SeatOk(s, x) && !UsesBarrier(s.ctl[x], k.b);
        MakeSeats(s, h, k.b, k.n, x);
      }
    } else {
      JoinRounds(s, h, k.b);
      forall x | x in s'.ctl ensures SeatOk(s', x) {
        assert SeatOk(s, x);
        JoinSeats(s, h, k.b, x);
      }
    }
  }

  lemma StartSeated(main: Handle)
    ensures Seated(Init(main))
  {
  }

  lemma {:induction false} RunSeated(states: seq<Machine>, labels: seq<Label>, main: Handle, tape: Tape, i: nat)
    requires Run(states, labels, main, tape) && i <= |labels|
    ensures Seated(states[i])
  {
    hide Seated, Inv, Next, Enabled;
    if i == 0 {
      StartSeated(main);
    } else {
      RunSeated(states, labels, main, tape, i - 1);
      RunInv(states, labels, main, tape, i - 1);
      assert Enabled(states[i - 1], labels[i - 1]);
      SeatedNext(states[i - 1], labels[i - 1], tape);
    }
  }

  /** In every run, a thread that returns from barrier_wait leaves a complete round: exactly n
      distinct threads arrived in it, itself among them, and it returns the serial value exactly
      when it was the last of them to arrive. */
  lemma LeavesFullRound(states: seq<Machine>, labels: seq<Label>, main: Handle, tape: Tape, i: nat, h: Handle, b: Key)
    requires Run(states, labels, main, tape) && i < |labels| && labels[i] == StepL(h)
    requires h in states[i].ctl && states[i].ctl[h].At? && UsesBarrier(states[i].ctl[h], b)
    requires h in states[i + 1].ctl && states[i + 1].ctl[h].User?
    ensures b in states[i].st.barriers && h in states[i].log.barriers.seats
    ensures var r := states[i].log.barriers.seats[h];
      && r < |RoundsOf(states[i], b)|
      && var round := RoundsOf(states[i], b)[r];
      && |round| == states[i].st.barriers[b].count && |round| > 0 && Distinct(round) && h in round
      && states[i + 1].ctl[h].ret == (if round[|round| - 1] == h then -1 else 0)
  {
    var s := states[i];
    RunInv(states, labels, main, tape, i);
    RunSeated(states, labels, main, tape, i);
    assert Enabled(s, labels[i]) && states[i + 1] == Next(s, labels[i], tape);
    Runner(s, h);
    assert SeatOk(s, h) && RoundsOk(s, b) && BarrierOk(s, b);
    var k := s.ctl[h].k;
    match s.ctl[h].phase
    case Drain(_) => QuietDrain(s, h, tape);
    case DrainLoop(_, _) => QuietDrain(s, h, tape);
    case Switch => QuietSwitch(s, h, k, tape);
    case Go =>
      assert BarrierWaiter(s, b, h) <==> T(s.st, h).isBlocking;
  }

  /** A step that initialises barrier `b` anew. */
  ghost predicate Renews(s: Machine, l: Label, b: Key) {
    l.h in s.ctl && AtBarrierStep(s, l) && s.ctl[l.h].k.BarrierMake? && s.ctl[l.h].k.b == b
  }

  lemma RoundsNext(s: Machine, l: Label, tape: Tape, b: Key)
    requires Inv(s) && Enabled(s, l) && !Renews(s, l, b)
    ensures RoundsOf(s, b) <= RoundsOf(Next(s, l, tape), b)
  {
    var h := l.h;
    if AtBarrierStep(s, l) {
      Runner(s, h);
      if s.ctl[h].k.BarrierJoin? {
        var y := s.st.barriers[s.ctl[h].k.b];
        assert BarrierOk(s, s.ctl[h].k.b);
        if |y.waiters| + 1 < y.count {} else {}
      }
    } else {
      ElsewhereNext(s, l, tape);
      assert RoundsOf(Next(s, l, tape), b) == RoundsOf(s, b);
    }
  }

  /** Complete rounds stay as they are: until a barrier is initialised anew, it is reused only by
      opening a new round after the ones that are complete. */
  lemma {:induction false} RoundsOnlyGrow(states: seq<Machine>, labels: seq<Label>, main: Handle, tape: Tape, i: nat, j: nat, b: Key)
    requires Run(states, labels, main, tape) && i <= j <= |labels|
    requires forall k {:trigger labels[k]} :: i <= k < j ==> !Renews(states[k], labels[k], b)
    ensures RoundsOf(states[i], b) <= RoundsOf(states[j], b)
  {
    if i < j {
      RoundsOnlyGrow(states, labels, main, tape, i, j - 1, b);
      RunInv(states, labels, main, tape, j - 1);
      assert Enabled(states[j - 1], labels[j - 1]);
      RoundsNext(states[j - 1], labels[j - 1], tape, b);
    }
  }
}
