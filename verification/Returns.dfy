/** Calls over whole runs: which of them are scheduling points, and what they return. */
module Returns {
  import opened Prelude
  import opened StateModel
  import opened Machine
  import opened Invariant
  import opened Preservation
  import opened Frames
  import opened Safety
  import opened Effects

  /** The call `h` makes at step `i` returns with state `j`: in between `h` is inside rsched. */
  ghost predicate CallReturns(states: seq<Machine>, labels: seq<Label>, i: nat, j: nat, h: Handle, op: Op)
    requires |states| == |labels| + 1
  {
    && i < j <= |labels| && labels[i] == CallL(h, op)
    && h in states[j].ctl && states[j].ctl[h].User?
    && forall k {:trigger states[k]} :: i < k < j ==> h in states[k].ctl && !states[k].ctl[h].User?
  }

  /** `h` takes its scheduling point at step `k`. */
  ghost predicate SwitchesAt(states: seq<Machine>, labels: seq<Label>, k: nat, h: Handle)
    requires |states| == |labels| + 1 && k < |labels|
  {
    labels[k] == StepL(h) && h in states[k].ctl && states[k].ctl[h].At? && states[k].ctl[h].phase.Switch?
  }

  // ---------------------------------------------------------------- up to the scheduling point

  /** On the way to the scheduling point before `k`. */
  ghost predicate Before(c: Control, k: Point) {
    || (c.At? && c.k == k && (c.phase == Drain(true) || (c.phase.DrainLoop? && c.phase.cs) || c.phase.Switch?))
    || (c.DrainWaiting? && c.k == k && c.cs)
  }

  /** Past it. */
  ghost predicate After(c: Control, k: Point) {
    (c.Waiting? && c.k == k) || c == At(Go, k)
  }

  lemma RunStep(states: seq<Machine>, labels: seq<Label>, main: Handle, tape: Tape, i: nat)
    requires Run(states, labels, main, tape) && i < |labels|
    ensures Enabled(states[i], labels[i]) && states[i + 1] == Next(states[i], labels[i], tape)
  {
  }

  lemma StepBefore(s: Machine, l: Label, tape: Tape, h: Handle, k: Point)
    requires Inv(s) && Enabled(s, l) && h in s.ctl && Before(s.ctl[h], k)
    ensures var s' := Next(s, l, tape);
      h in s'.ctl && if l == StepL(h) && s.ctl[h] == At(Switch, k) then After(s'.ctl[h], k) else Before(s'.ctl[h], k)
  {
    if l.h != h {
      AsideNext(s, l, tape, h);
    } else if l.StepL? {
      Runner(s, h);
      match s.ctl[h].phase {
        case Drain(_) => if s.st.pendingChild.None? {} else {}
        case DrainLoop(c, _) => if !s.args[c] {} else {}
        case Switch => QuietSwitch(s, h, k, tape);
      }
    }
  }

  lemma {:induction false} FindSwitch(states: seq<Machine>, labels: seq<Label>, main: Handle, tape: Tape, i: nat, j: nat, h: Handle, point: Point) returns (k: nat)
    requires Run(states, labels, main, tape) && i <= j <= |labels|
    requires h in states[i].ctl && Before(states[i].ctl[h], point) && h in states[j].ctl && !Before(states[j].ctl[h], point)
    ensures i <= k < j && SwitchesAt(states, labels, k, h) && states[k].ctl[h].k == point
    ensures h in states[k + 1].ctl && After(states[k + 1].ctl[h], point)
    ensures forall n :: i <= n < k ==> !SwitchesAt(states, labels, n, h)
    decreases j - i
  {
    hide Inv, Next, Enabled, After;
    RunInv(states, labels, main, tape, i);
    RunStep(states, labels, main, tape, i);
    StepBefore(states[i], labels[i], tape, h, point);
    if SwitchesAt(states, labels, i, h) {
      k := i;
    } else {
      k := FindSwitch(states, labels, main, tape, i + 1, j, h, point);
    }
  }

  /** At a scheduling point no start-up is unfinished: every live thread may be chosen. */
  lemma AllStarted(s: Machine, h: Handle, k: Point)
    requires Inv(s) && h in s.ctl && s.ctl[h] == At(Switch, k)
    ensures s.st.pendingChild == None && s.args.Keys == {}
    ensures forall c {:trigger Live(s, c)} :: Live(s, c) ==> T(s.st, c).startupDone
  {
    Runner(s, h);
    assert forall c :: !Newborn(s, c);
    assert forall c :: c in s.args ==> Newborn(s, c);
    assert forall c :: c !in s.args.Keys;
    forall c | Live(s, c) ensures T(s.st, c).startupDone { assert ThreadOk(s, c); }
  }

  /** Calls that begin with a scheduling point: all but create, exit, initialising a mutex, barrier_wait,
      and a lock or wait on a mutex somebody else holds. */
  ghost predicate SwitchesFirst(s: Machine, h: Handle, op: Op) {
    match op
    case Create(_) => false
    case Exit => false
    case MutexInit(_, _) => false
    case BarrierWait(_) => false
    case Lock(m) => m in s.st.mutexes ==> s.st.mutexes[m].ownerTid == h
    case Wait(_, m) => m in s.st.mutexes ==> s.st.mutexes[m].ownerTid == h
    case _ => true
  }

  /** Where the call goes on after that point. */
  function ThenAt(s: Machine, h: Handle, op: Op): Point {
    match op
    case Unlock(m) => Ret(UnlockAnswer(s, h, m))
    case Lock(m) => LockLoop(m)
    case TryLockOp(m) => TryLock(m)
    case Join(t) => JoinCheck(t)
    case BarrierInit(b, n) => BarrierMake(b, n)
    case Wait(c, m) => CondRelease(c, m)
    case _ => Ret(0)
  }

  lemma CallStarts(s: Machine, h: Handle, op: Op, tape: Tape)
    requires Inv(s) && h in s.ctl && s.ctl[h].User? && SwitchesFirst(s, h, op)
    ensures h in Call(s, h, op, tape).ctl && Call(s, h, op, tape).ctl[h] == At(Drain(true), ThenAt(s, h, op))
  {
    Runner(s, h);
    match op
    case Unlock(m) => UnlockMeans(s, h, m, tape);
    case Lock(m) => assert m in s.st.mutexes ==> MutexOk(s, m);
    case Wait(_, m) => assert m in s.st.mutexes ==> MutexOk(s, m);
    case _ =>
  }

  /** Every such call takes its scheduling point before anything else, with every child started, so
      that every other live thread that is not blocking may be chosen there. */
  lemma CallsSwitch(states: seq<Machine>, labels: seq<Label>, main: Handle, tape: Tape, i: nat, j: nat, h: Handle, op: Op) returns (k: nat)
    requires Run(states, labels, main, tape) && CallReturns(states, labels, i, j, h, op) && SwitchesFirst(states[i], h, op)
    ensures i < k < j && SwitchesAt(states, labels, k, h) && states[k].ctl[h].k == ThenAt(states[i], h, op)
    ensures forall n :: i < n < k ==> !SwitchesAt(states, labels, n, h)
    ensures h in states[k + 1].ctl && After(states[k + 1].ctl[h], ThenAt(states[i], h, op))
    ensures states[k].st.pendingChild == None && states[k].args.Keys == {}
    ensures forall c {:trigger Live(states[k], c)} :: Live(states[k], c) ==> T(states[k].st, c).startupDone
  {
    RunInv(states, labels, main, tape, i);
    assert Enabled(states[i], labels[i]);
    CallStarts(states[i], h, op, tape);
    k := FindSwitch(states, labels, main, tape, i + 1, j, h, ThenAt(states[i], h, op));
    RunInv(states, labels, main, tape, k);
    AllStarted(states[k], h, ThenAt(states[i], h, op));
  }

  // ---------------------------------------------------------------- calls with one scheduling point

  /** Points from which a call returns without waiting again. */
  ghost predicate Last(k: Point) {
    k.Ret? || k.TryLock? || k.BarrierMake?
  }

  lemma StepAfter(s: Machine, l: Label, tape: Tape, h: Handle, k: Point)
    requires Inv(s) && Enabled(s, l) && h in s.ctl && After(s.ctl[h], k) && Last(k)
    ensures var s' := Next(s, l, tape);
      h in s'.ctl && if l == StepL(h) then s.ctl[h] == At(Go, k) && s'.ctl[h].User? else After(s'.ctl[h], k)
  {
    if l.h != h {
      AsideNext(s, l, tape, h);
    } else if l.StepL? {
      Runner(s, h);
      if k.TryLock? { TryLockMeans(s, h, k.m, tape); }
      if k.BarrierMake? { if k.n == 0 {} else {} }
    } else {
      assert ThreadOk(s, h);
    }
  }

  lemma {:induction false} FindReturn(states: seq<Machine>, labels: seq<Label>, main: Handle, tape: Tape, i: nat, j: nat, h: Handle, point: Point)
    requires Run(states, labels, main, tape) && i < j <= |labels| && Last(point)
    requires h in states[i].ctl && After(states[i].ctl[h], point) && h in states[j].ctl && states[j].ctl[h].User?
    requires forall k {:trigger states[k]} :: i <= k < j ==> h in states[k].ctl && !states[k].ctl[h].User?
    ensures labels[j - 1] == StepL(h) && h in states[j - 1].ctl && states[j - 1].ctl[h] == At(Go, point)
    ensures forall n :: i <= n < j ==> !SwitchesAt(states, labels, n, h)
    decreases j - i
  {
    hide Inv, Next, Enabled, Before, After;
    RunInv(states, labels, main, tape, i);
    RunStep(states, labels, main, tape, i);
    StepAfter(states[i], labels[i], tape, h, point);
    if i + 1 < j { FindReturn(states, labels, main, tape, i + 1, j, h, point); }
  }

  lemma ReturnStep(s: Machine, h: Handle, k: Point, tape: Tape)
    requires h in s.ctl && s.ctl[h] == At(Go, k)
    ensures k.Ret? ==> h in Next(s, StepL(h), tape).ctl && Next(s, StepL(h), tape).ctl[h] == User(k.r)
  {
  }

  /** Yield, and with it every atomic access, unlock, signal, broadcast, trylock and barrier_init have
      exactly one scheduling point; after it the call does what remains in its last step. */
  lemma OneSwitch(states: seq<Machine>, labels: seq<Label>, main: Handle, tape: Tape, i: nat, j: nat, h: Handle, op: Op) returns (k: nat)
    requires Run(states, labels, main, tape) && CallReturns(states, labels, i, j, h, op)
    requires op.Yield? || op.Unlock? || op.Signal? || op.Broadcast? || op.TryLockOp? || op.BarrierInit?
    ensures i < k < j - 1 && SwitchesAt(states, labels, k, h)
    ensures forall n :: i < n < j && SwitchesAt(states, labels, n, h) ==> n == k
    ensures states[k].st.pendingChild == None && states[k].args.Keys == {}
    ensures labels[j - 1] == StepL(h) && h in states[j - 1].ctl && states[j - 1].ctl[h] == At(Go, ThenAt(states[i], h, op))
    ensures !op.TryLockOp? && !op.BarrierInit? ==> states[j].ctl[h] == User(if op.Unlock? then UnlockAnswer(states[i], h, op.m) else 0)
  {
    hide Inv, Next, Enabled, After;
    k := CallsSwitch(states, labels, main, tape, i, j, h, op);
    FindReturn(states, labels, main, tape, k + 1, j, h, ThenAt(states[i], h, op));
    RunStep(states, labels, main, tape, i);
    RunStep(states, labels, main, tape, j - 1);
    ReturnStep(states[j - 1], h, ThenAt(states[i], h, op), tape);
  }

  /** trylock's answer is that of its last step: 0 with the mutex held one level deeper, in reality too,
      exactly when the mutex is free then, or the caller's own and recursive; else EBUSY. */
  lemma TryLockReturns(states: seq<Machine>, labels: seq<Label>, main: Handle, tape: Tape, i: nat, j: nat, h: Handle, m: Key)
    requires Run(states, labels, main, tape) && CallReturns(states, labels, i, j, h, TryLockOp(m))
    ensures var s, s' := states[j - 1], states[j];
      if m !in s.st.mutexes || (s.st.mutexes[m].ownerTid == h && m in s.st.recursiveMutexes)
      then s'.ctl[h] == User(0) && Deeper(s, s', h, m)
      else s'.ctl[h] == User(16) && s'.st == s.st && s'.held == s.held
  {
    hide Inv, Next, Enabled, Deeper;
    var k := OneSwitch(states, labels, main, tape, i, j, h, TryLockOp(m));
    RunInv(states, labels, main, tape, j - 1);
    RunStep(states, labels, main, tape, j - 1);
    NextIsStep(states[j - 1], h, tape);
    TryLockMeans(states[j - 1], h, m, tape);
  }

  lemma NextIsStep(s: Machine, h: Handle, tape: Tape)
    requires Enabled(s, StepL(h))
    ensures h in s.ctl && s.ctl[h].At? && Next(s, StepL(h), tape) == Step(s, h, tape)
  {
  }

  /** So do the waits inside a call: whoever has queued for a mutex, a condition, a barrier or a thread
      takes a scheduling point before the call returns. */
  lemma QueuesThenSwitches(states: seq<Machine>, labels: seq<Label>, main: Handle, tape: Tape, a: nat, j: nat, h: Handle, point: Point) returns (k: nat)
    requires Run(states, labels, main, tape) && a <= j <= |labels|
    requires h in states[a].ctl && states[a].ctl[h] == At(Drain(true), point) && h in states[j].ctl && states[j].ctl[h].User?
    ensures a < k < j && SwitchesAt(states, labels, k, h) && states[k].ctl[h].k == point
  {
    k := FindSwitch(states, labels, main, tape, a, j, h, point);
  }

  // ---------------------------------------------------------------- calls that go straight on

  /** On the way to point `k` with no scheduling point before it. */
  ghost predicate Straight(c: Control, k: Point) {
    || (c.At? && c.k == k && (c.phase == Drain(false) || (c.phase.DrainLoop? && !c.phase.cs) || c.phase.Go?))
    || (c.DrainWaiting? && c.k == k && !c.cs)
  }

  lemma StepStraight(s: Machine, l: Label, tape: Tape, h: Handle, k: Point)
    requires Inv(s) && Enabled(s, l) && h in s.ctl && Straight(s.ctl[h], k)
    ensures (l == StepL(h) && s.ctl[h] == At(Go, k)) || (h in Next(s, l, tape).ctl && Straight(Next(s, l, tape).ctl[h], k))
  {
    if l.h != h {
      AsideNext(s, l, tape, h);
    } else if l.StepL? {
      Runner(s, h);
      match s.ctl[h].phase {
        case Drain(_) => if s.st.pendingChild.None? {} else {}
        case DrainLoop(c, _) => if !s.args[c] {} else {}
        case Go =>
      }
    }
  }

  lemma {:induction false} FindPoint(states: seq<Machine>, labels: seq<Label>, main: Handle, tape: Tape, i: nat, j: nat, h: Handle, point: Point) returns (k: nat)
    requires Run(states, labels, main, tape) && i <= j <= |labels|
    requires h in states[i].ctl && Straight(states[i].ctl[h], point) && h in states[j].ctl && !Straight(states[j].ctl[h], point)
    ensures i <= k < j && labels[k] == StepL(h) && h in states[k].ctl && states[k].ctl[h] == At(Go, point)
    ensures forall n :: i <= n <= k ==> !SwitchesAt(states, labels, n, h)
    decreases j - i
  {
    hide Inv, Next, Enabled;
    RunInv(states, labels, main, tape, i);
    RunStep(states, labels, main, tape, i);
    StepStraight(states[i], labels[i], tape, h, point);
    if labels[i] == StepL(h) && states[i].ctl[h] == At(Go, point) {
      k := i;
    } else {
      k := FindPoint(states, labels, main, tape, i + 1, j, h, point);
    }
  }

  lemma StraightCall(s: Machine, h: Handle, op: Op, tape: Tape)
    requires h in s.ctl && s.ctl[h].User? && (op.Create? || op.BarrierWait?)
    ensures h in Call(s, h, op, tape).ctl
    ensures Straight(Call(s, h, op, tape).ctl[h], if op.Create? then CreateBody(op.c) else BarrierJoin(op.b))
  {
  }

  /** create is no scheduling point: it lists the child in its last step and returns 0 with the turn;
      the child it found pending has finished its start-up by then. */
  lemma CreateReturns(states: seq<Machine>, labels: seq<Label>, main: Handle, tape: Tape, i: nat, j: nat, h: Handle, c: Handle)
    requires Run(states, labels, main, tape) && CallReturns(states, labels, i, j, h, Create(c))
    ensures forall n :: i <= n < j ==> !SwitchesAt(states, labels, n, h)
    ensures labels[j - 1] == StepL(h) && h in states[j - 1].ctl && states[j - 1].ctl[h] == At(Go, CreateBody(c))
    ensures states[j - 1].st.pendingChild == None && states[j].st.pendingChild == Some(c)
    ensures states[j].ctl[h] == User(0) && states[j].turn == Some(h) && states[j].st.threads == states[j - 1].st.threads + [c]
  {
    hide Inv, Next, Enabled, Straight;
    CreateEnters(states, labels, main, tape, i, h, c);
    StraightNotUser(states[j].ctl[h], CreateBody(c));
    var k := FindPoint(states, labels, main, tape, i + 1, j, h, CreateBody(c));
    RunInv(states, labels, main, tape, k);
    RunStep(states, labels, main, tape, k);
    NextIsStep(states[k], h, tape);
    CreateMeans(states[k], h, c, tape);
    CreateAlone(states[k], h, c);
  }

  lemma StraightNotUser(c: Control, k: Point)
    ensures c.User? ==> !Straight(c, k)
  {
  }

  lemma CreateEnters(states: seq<Machine>, labels: seq<Label>, main: Handle, tape: Tape, i: nat, h: Handle, c: Handle)
    requires Run(states, labels, main, tape) && i < |labels| && labels[i] == CallL(h, Create(c))
    ensures h in states[i + 1].ctl && Straight(states[i + 1].ctl[h], CreateBody(c))
  {
    RunStep(states, labels, main, tape, i);
    StraightCall(states[i], h, Create(c), tape);
  }

  lemma CreateAlone(s: Machine, h: Handle, c: Handle)
    requires Inv(s) && h in s.ctl && s.ctl[h] == At(Go, CreateBody(c))
    ensures s.st.pendingChild == None && s.turn == Some(h) && c != h
  {
    Runner(s, h);
  }

  /** barrier_wait arrives without a scheduling point. At a barrier that was never initialised it returns
      EINVAL; otherwise its scheduling point comes after the arrival. */
  lemma ArrivesThenSwitches(states: seq<Machine>, labels: seq<Label>, main: Handle, tape: Tape, i: nat, j: nat, h: Handle, b: Key) returns (a: nat, k: nat)
    requires Run(states, labels, main, tape) && CallReturns(states, labels, i, j, h, BarrierWait(b))
    ensures i < a < j && labels[a] == StepL(h) && h in states[a].ctl && states[a].ctl[h] == At(Go, BarrierJoin(b))
    ensures forall n :: i < n <= a ==> !SwitchesAt(states, labels, n, h)
    ensures b !in states[a].st.barriers ==> j == a + 1 && states[j].ctl[h] == User(22)
    ensures b in states[a].st.barriers ==> a < k < j && SwitchesAt(states, labels, k, h)
  {
    hide Inv, Next, Enabled, Straight, Before, After;
    BarrierEnters(states, labels, main, tape, i, h, b);
    StraightNotUser(states[j].ctl[h], BarrierJoin(b));
    a := FindPoint(states, labels, main, tape, i + 1, j, h, BarrierJoin(b));
    RunInv(states, labels, main, tape, a);
    RunStep(states, labels, main, tape, a);
    NextIsStep(states[a], h, tape);
    ArriveMeans(states[a], h, b, tape);
    k := a;
    if b in states[a].st.barriers {
      var next := states[a + 1].ctl[h].k;
      BeforeStarts(states[a + 1].ctl[h], states[j].ctl[h], next);
      k := FindSwitch(states, labels, main, tape, a + 1, j, h, next);
    }
  }

  lemma BeforeStarts(c: Control, u: Control, k: Point)
    ensures c == At(Drain(true), k) ==> Before(c, k)
    ensures u.User? ==> !Before(u, k)
  {
  }

  lemma BarrierEnters(states: seq<Machine>, labels: seq<Label>, main: Handle, tape: Tape, i: nat, h: Handle, b: Key)
    requires Run(states, labels, main, tape) && i < |labels| && labels[i] == CallL(h, BarrierWait(b))
    ensures h in states[i + 1].ctl && Straight(states[i + 1].ctl[h], BarrierJoin(b))
  {
    RunStep(states, labels, main, tape, i);
    StraightCall(states[i], h, BarrierWait(b), tape);
  }

  // ---------------------------------------------------------------- join

  ghost predicate Joining(c: Control, t: Handle) {
    PointOf(c) == Some(JoinCheck(t)) || PointOf(c) == Some(JoinCall(t))
  }

  lemma StepJoining(s: Machine, l: Label, tape: Tape, h: Handle, t: Handle)
    requires Inv(s) && Enabled(s, l) && h in s.ctl && Joining(s.ctl[h], t)
    ensures var s' := Next(s, l, tape);
      h in s'.ctl
      && if l == JoinReturnL(h) then s.ctl[h] == RealJoining(t) && t in s.ctl && s.ctl[t].Exited? && t !in s'.ctl && s'.ctl[h] == User(0)
         else Joining(s'.ctl[h], t)
  {
    if l.h != h {
      AsideNext(s, l, tape, h);
    } else if l.StepL? {
      Runner(s, h);
      match s.ctl[h].phase {
        case Drain(_) => if s.st.pendingChild.None? {} else {}
        case DrainLoop(c, _) => if !s.args[c] {} else {}
        case Switch => QuietSwitch(s, h, s.ctl[h].k, tape);
        case Go => if t in s.st.threads {} else {}
      }
    } else {
      assert ThreadOk(s, h);
    }
  }

  /** join returns 0, and only when its target has exited; the target's handle is free from then on. */
  lemma {:induction false} JoinReturns(states: seq<Machine>, labels: seq<Label>, main: Handle, tape: Tape, i: nat, j: nat, h: Handle, t: Handle)
    requires Run(states, labels, main, tape) && i < j <= |labels|
    requires h in states[i].ctl && (labels[i] == CallL(h, Join(t)) || Joining(states[i].ctl[h], t))
    requires h in states[j].ctl && states[j].ctl[h].User?
    requires forall k {:trigger states[k]} :: i < k < j ==> h in states[k].ctl && !states[k].ctl[h].User?
    ensures states[j].ctl[h] == User(0) && t in states[j - 1].ctl && states[j - 1].ctl[t].Exited? && t !in states[j].ctl
    decreases j - i
  {
    hide Inv, Next, Enabled, Joining;
    RunInv(states, labels, main, tape, i);
    RunStep(states, labels, main, tape, i);
    if labels[i] == CallL(h, Join(t)) {
      JoinEnters(states[i], h, t, tape);
    } else {
      StepJoining(states[i], labels[i], tape, h, t);
    }
    JoiningNotUser(states[i + 1].ctl[h], t);
    if i + 1 < j {
      JoiningNotUser(states[i].ctl[h], t);
      JoinReturns(states, labels, main, tape, i + 1, j, h, t);
    }
  }

  lemma JoiningNotUser(c: Control, t: Handle)
    ensures Joining(c, t) ==> !c.User?
  {
  }

  lemma JoinEnters(s: Machine, h: Handle, t: Handle, tape: Tape)
    requires Enabled(s, CallL(h, Join(t)))
    ensures h in Next(s, CallL(h, Join(t)), tape).ctl && Joining(Next(s, CallL(h, Join(t)), tape).ctl[h], t)
  {
  }

  // ---------------------------------------------------------------- lock

  /** How deep `h` is in `m`. */
  function DepthIn(s: Machine, h: Handle, m: Key): int {
    if m in s.st.mutexes && s.st.mutexes[m].ownerTid == h then s.st.mutexes[m].recursiveCount else 0
  }

  /** Inside a lock of `m` that was called `depth` levels deep. */
  ghost predicate LockPath(s: Machine, h: Handle, m: Key, depth: int) {
    && h in s.ctl && PointOf(s.ctl[h]).Some?
    && var k := PointOf(s.ctl[h]).value;
       if k == LockLoop(m) then DepthIn(s, h, m) == depth else (k == LockCheck(m) || k == LockAgain(m)) && depth == 0
  }

  lemma AsideLock(s: Machine, l: Label, tape: Tape, h: Handle, m: Key, depth: int)
    requires Inv(s) && Enabled(s, l) && LockPath(s, h, m, depth) && l.h != h
    ensures var s' := Next(s, l, tape);
      LockPath(s', h, m, depth) && !s'.ctl[h].User?
  {
    hide Inv, Next, Enabled;
    AsideNext(s, l, tape, h);
    assert Owns(s, h, m) <==> m in s.st.mutexes && s.st.mutexes[m].ownerTid == h;
    assert Owns(Next(s, l, tape), h, m) <==> m in Next(s, l, tape).st.mutexes && Next(s, l, tape).st.mutexes[m].ownerTid == h;
  }

  lemma StepLock(s: Machine, l: Label, tape: Tape, h: Handle, m: Key, depth: int)
    requires Inv(s) && Enabled(s, l) && LockPath(s, h, m, depth)
    ensures var s' := Next(s, l, tape);
      h in s'.ctl && (s'.ctl[h].User? ==> s'.ctl[h] == User(0) && DepthIn(s', h, m) == depth + 1
                                          && m in s'.held && s'.held[m] == RealMutex(h, depth + 1))
      && (!s'.ctl[h].User? ==> LockPath(s', h, m, depth))
  {
    hide Inv;
    if l.h != h {
      AsideLock(s, l, tape, h, m, depth);
    } else if l.StepL? && s.ctl[h].phase.Go? {
      GoLock(s, h, m, depth, tape);
    } else {
      SwitchLock(s, l, tape, h, m, depth);
    }
  }

  lemma SwitchLock(s: Machine, l: Label, tape: Tape, h: Handle, m: Key, depth: int)
    requires Inv(s) && Enabled(s, l) && LockPath(s, h, m, depth) && l.h == h && !(l.StepL? && s.ctl[h].phase.Go?)
    ensures LockPath(Next(s, l, tape), h, m, depth) && !Next(s, l, tape).ctl[h].User?
  {
    if l.StepL? {
      Runner(s, h);
      if s.ctl[h].phase.Switch? {
        QuietSwitch(s, h, s.ctl[h].k, tape);
      } else {
        QuietDrain(s, h, tape);
      }
    } else {
      assert ThreadOk(s, h);
    }
  }

  lemma GoLock(s: Machine, h: Handle, m: Key, depth: int, tape: Tape)
    requires Inv(s) && LockPath(s, h, m, depth) && s.ctl[h].At? && s.ctl[h].phase.Go?
    ensures var s' := Step(s, h, tape);
      h in s'.ctl && (s'.ctl[h].User? ==> s'.ctl[h] == User(0) && DepthIn(s', h, m) == depth + 1
                                          && m in s'.held && s'.held[m] == RealMutex(h, depth + 1))
      && (!s'.ctl[h].User? ==> LockPath(s', h, m, depth))
  {
    if s.ctl[h].k == LockLoop(m) {
      LockMeans(s, h, m, tape);
    } else if s.ctl[h].k == LockCheck(m) && T(s.st, h).isBlocking {
    } else {
      SecondPassTakes(s, h, m, tape);
    }
  }

  lemma LockEnters(s: Machine, h: Handle, m: Key, tape: Tape)
    requires Enabled(s, CallL(h, Lock(m)))
    ensures LockPath(Next(s, CallL(h, Lock(m)), tape), h, m, DepthIn(s, h, m))
  {
  }

  /** lock returns 0, one level deeper than it was called, virtually and in reality. */
  lemma {:induction false} LockReturns(states: seq<Machine>, labels: seq<Label>, main: Handle, tape: Tape, i: nat, j: nat, h: Handle, m: Key, depth: int)
    requires Run(states, labels, main, tape) && i < j <= |labels|
    requires (labels[i] == CallL(h, Lock(m)) && depth == DepthIn(states[i], h, m)) || LockPath(states[i], h, m, depth)
    requires h in states[j].ctl && states[j].ctl[h].User?
    requires forall k {:trigger states[k]} :: i < k < j ==> h in states[k].ctl && !states[k].ctl[h].User?
    ensures states[j].ctl[h] == User(0) && DepthIn(states[j], h, m) == depth + 1
    ensures m in states[j].held && states[j].held[m] == RealMutex(h, depth + 1)
    decreases j - i
  {
    hide Inv, Next, Enabled, LockPath, DepthIn;
    RunInv(states, labels, main, tape, i);
    RunStep(states, labels, main, tape, i);
    if labels[i] == CallL(h, Lock(m)) && depth == DepthIn(states[i], h, m) {
      LockEnters(states[i], h, m, tape);
      LockNotUser(states[i + 1], h, m, depth);
    } else {
      StepLock(states[i], labels[i], tape, h, m, depth);
    }
    if i + 1 < j { LockReturns(states, labels, main, tape, i + 1, j, h, m, depth); }
  }

  lemma LockNotUser(s: Machine, h: Handle, m: Key, depth: int)
    ensures LockPath(s, h, m, depth) ==> h in s.ctl && !s.ctl[h].User?
  {
  }

  // ---------------------------------------------------------------- recursive mutexes

  lemma KindNext(s: Machine, l: Label, tape: Tape, m: Key)
    requires Inv(s) && Enabled(s, l) && !(l.CallL? && l.op.MutexInit? && l.op.m == m)
    ensures m in Next(s, l, tape).st.recursiveMutexes <==> m in s.st.recursiveMutexes
  {
    var h := l.h;
    match l
    case CallL(_, op) => CallKinds(s, h, op, m, tape);
    case StepL(_) =>
      match s.ctl[h].phase {
        case Drain(_) => if s.st.pendingChild.None? {} else {}
        case DrainLoop(c, _) => Runner(s, h); if !s.args[c] {} else {}
        case Switch => var next := SwitchMeans(s, h, s.ctl[h].k, tape);
        case Go => GoKinds(s, h, s.ctl[h].k, tape);
      }
    case ResumeL(_) => if s.ctl[h].Waiting? {} else {}
    case RegisterL(_) => if h in s.args {} else {}
    case JoinReturnL(_) =>
  }

  lemma CallKinds(s: Machine, h: Handle, op: Op, m: Key, tape: Tape)
    requires Inv(s) && h in s.ctl && s.ctl[h].User? && Allowed(s, h, op) && !(op.MutexInit? && op.m == m)
    ensures m in Call(s, h, op, tape).st.recursiveMutexes <==> m in s.st.recursiveMutexes
  {
    hide UnlockPass, CallExit, CondSignal, UnblockAll, BumpAll, Entry;
    match op
    case Exit => var left, next := ExitMeans(s, h, tape);
    case Unlock(k) => UnlockFrame(Forget(s, h), h, k, tape);
    case Signal(c) => SignalTakes(s, h, c, tape);
    case Broadcast(_) =>
    case MutexInit(k, recursive) => MutexInitMeans(s, h, k, recursive, tape);
    case _ => EnterFrame(s, h, op, tape);
  }

  lemma GoKinds(s: Machine, h: Handle, k: Point, tape: Tape)
    ensures StepGo(s, h, k, tape).st.recursiveMutexes == s.st.recursiveMutexes
  {
    hide LockPass, UnlockPass, BarrierArrive;
    match k
    case LockLoop(m) => LockFrame(s, h, m);
    case LockAgain(m) => LockFrame(s, h, m);
    case CondAgain(_, m) => LockFrame(s, h, m);
    case LockCheck(m) => LockFrame(s, h, m); if T(s.st, h).isBlocking {} else {}
    case CondCheck(_, m) => LockFrame(s, h, m); if T(s.st, h).isBlocking {} else {}
    case TryLock(m) => LockFrame(s, h, m);
    case CondRelease(c, m) => UnlockFrame(s, h, m, tape); if UnlockPass(s, h, m, tape).1 != 0 {} else {}
    case BarrierJoin(b) => JoinKinds(s, h, b);
    case BarrierMake(_, n) => if n == 0 {} else {}
    case BarrierCheck(_, _) => if T(s.st, h).isBlocking {} else {}
    case JoinCheck(t) => if t in s.st.threads {} else {}
    case JoinCall(t) => if t in s.st.threads {} else {}
    case _ =>
  }

  lemma JoinKinds(s: Machine, h: Handle, b: Key)
    ensures StepBarrierJoin(s, h, b).st.recursiveMutexes == s.st.recursiveMutexes
  {
    if b in s.st.barriers {} else {}
  }

  /** The kind a mutex was initialised with lasts until it is initialised anew or destroyed. */
  lemma {:induction false} KindLasts(states: seq<Machine>, labels: seq<Label>, main: Handle, tape: Tape, i: nat, j: nat, h: Handle, m: Key, recursive: bool)
    requires Run(states, labels, main, tape) && i < j <= |labels| && labels[i] == CallL(h, MutexInit(m, recursive))
    requires forall k {:trigger labels[k]} :: i < k < j ==> !(labels[k].CallL? && labels[k].op.MutexInit? && labels[k].op.m == m)
    ensures m in states[j].st.recursiveMutexes <==> recursive
  {
    hide Inv, Next;
    RunInv(states, labels, main, tape, j - 1);
    RunStep(states, labels, main, tape, j - 1);
    if j == i + 1 {
      KindSet(states[i], h, m, recursive, tape);
    } else {
      KindLasts(states, labels, main, tape, i, j - 1, h, m, recursive);
      KindNext(states[j - 1], labels[j - 1], tape, m);
    }
  }

  lemma KindSet(s: Machine, h: Handle, m: Key, recursive: bool, tape: Tape)
    requires Enabled(s, CallL(h, MutexInit(m, recursive)))
    ensures m in Next(s, CallL(h, MutexInit(m, recursive)), tape).st.recursiveMutexes <==> recursive
  {
  }

  /** A mutex can be taken again by its owner exactly when it was last initialised as recursive: the
      owner's trylock then goes one level deeper, and otherwise says EBUSY. */
  lemma TakenAgain(states: seq<Machine>, labels: seq<Label>, main: Handle, tape: Tape,
                   n: nat, x: Handle, recursive: bool, i: nat, j: nat, h: Handle, m: Key)
    requires Run(states, labels, main, tape) && CallReturns(states, labels, i, j, h, TryLockOp(m))
    requires n < j - 1 && labels[n] == CallL(x, MutexInit(m, recursive))
    requires forall k {:trigger labels[k]} :: n < k < j ==> !(labels[k].CallL? && labels[k].op.MutexInit? && labels[k].op.m == m)
    requires DepthIn(states[j - 1], h, m) > 0
    ensures states[j].ctl[h] == User(if recursive then 0 else 16)
    ensures DepthIn(states[j], h, m) == DepthIn(states[j - 1], h, m) + if recursive then 1 else 0
  {
    hide Inv, Next, Enabled;
    TryLockReturns(states, labels, main, tape, i, j, h, m);
    KindLasts(states, labels, main, tape, n, j - 1, x, m, recursive);
  }
}
