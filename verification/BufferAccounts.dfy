/** The accounts of the bounded-buffer kernel: what was produced less what was consumed is in the
    buffer, and nobody sleeps unsignalled while there is more to do than there are threads awake to do it. */
module BufferAccounts {
  import opened Prelude
  import opened StateModel
  import opened Machine
  import opened Invariant
  import opened Preservation
  import opened Frames
  import opened CondWait
  import opened Ledger
  import opened Critical
  import opened Program
  import opened Sums
  import opened BoundedBuffer

  /** How many items worker `i` has produced or consumed. */
  function Done(p: Kernel, loc: Loc, i: nat): int
    requires p.Ok()
  {
    match loc
    case Top(e) => e
    case Test(e, _) => e
    case Unl(e) => e + 1
    case Gone => p.Events(i)
  }

  ghost function Moved(p: Kernel, mem: Mem): nat -> int
    requires p.Ok()
  {
    (i: nat) => if i >= |mem.locs| then 0 else if p.Consumes(i) then -Done(p, mem.locs[i], i) else Done(p, mem.locs[i], i)
  }

  ghost predicate Flow(p: Kernel, mem: Mem)
    requires p.Ok()
  {
    0 <= mem.count <= p.size && Sum(Moved(p, mem), p.Workers()) == mem.count
  }

  /** A worker's code keeps the count within bounds and in balance. */
  lemma FlowCall(p: Kernel, s: Machine, mem: Mem, i: nat)
    requires p.Ok() && |mem.locs| == p.Workers() && i < p.Workers() && HandleOf(i) in s.ctl && SeatOk(p, s, mem, i) && Flow(p, mem)
    ensures Flow(p, WorkerCode(p, mem, i).1)
  {
    var mem' := WorkerCode(p, mem, i).1;
    SumBut(Moved(p, mem), Moved(p, mem'), p.Workers(), i);
  }

  // ---------------------------------------------------------------- who is awake

  predicate AtRelease(c: Control) {
    PointOf(c).Some? && PointOf(c).value.CondRelease?
  }

  /** Worker `i` was signalled and has not tested again, or is about to. */
  ghost predicate Awake(s: Machine, mem: Mem, i: nat) {
    && i < |mem.locs| && mem.locs[i].Test? && mem.locs[i].waited
    && HandleOf(i) in s.ctl && !AtRelease(s.ctl[HandleOf(i)]) && !OnCondQueue(s, HandleOf(i))
  }

  ghost function AwakeBits(p: Kernel, s: Machine, mem: Mem, consumers: bool): nat -> int {
    (i: nat) => if p.Consumes(i) == consumers && Awake(s, mem, i) then 1 else 0
  }

  function QueueKey(consumers: bool): Key {
    if consumers then HAS_ELEMENTS else HAS_SPACE
  }

  /** What there is to do for one side: items to consume, or places to fill. */
  function Slack(p: Kernel, mem: Mem, consumers: bool): int {
    if consumers then mem.count else p.size - mem.count
  }

  /** While some thread of one side sleeps, there is no more to do than that side has threads awake. */
  ghost predicate Quota(p: Kernel, s: Machine, mem: Mem, consumers: bool) {
    CondWaiters(s.st, QueueKey(consumers)) != [] ==> Slack(p, mem, consumers) <= Sum(AwakeBits(p, s, mem, consumers), p.Workers())
  }

  ghost predicate Good(p: Kernel, c: Config<Mem>) {
    Inv(c.s) && Crew(p, c.s, c.mem) && Flow(p, c.mem) && Quota(p, c.s, c.mem, true) && Quota(p, c.s, c.mem, false)
  }

  /** The remaining calls of the kernel, weighed so that every call lowers the sum: a signal may
      wake somebody, which costs less than the signaller saved. */
  ghost function Due(p: Kernel, s: Machine, mem: Mem): nat -> int
    requires p.Ok()
  {
    (i: nat) =>
      if i >= |mem.locs| then 0
      else match mem.locs[i]
        case Top(e) => 5 * (p.Events(i) - e) + 1
        case Test(e, waited) => 5 * (p.Events(i) - e) - if waited && !Awake(s, mem, i) then 1 else 0
        case Unl(e) => 5 * (p.Events(i) - e) - 3
        case Gone => 0
  }

  ghost function Potential(p: Kernel, s: Machine, mem: Mem): int
    requires p.Ok()
  {
    2 * p.Workers() - mem.main + Sum(Due(p, s, mem), p.Workers())
  }

  lemma AwakeCount(p: Kernel, s: Machine, mem: Mem, consumers: bool)
    ensures Sum(AwakeBits(p, s, mem, consumers), p.Workers()) >= 0
  {
    SumBounds(AwakeBits(p, s, mem, consumers), p.Workers(), 0, 1);
  }

  /** Another thread's step that takes `i` off no queue leaves it as awake as it was. */
  lemma AwakeAside(p: Kernel, s: Machine, mem: Mem, mem': Mem, l: Label, tape: Tape, i: nat)
    requires Inv(s) && Enabled(s, l) && Crew(p, s, mem) && i < |mem.locs| == |mem'.locs| && mem'.locs[i] == mem.locs[i] && HandleOf(i) != l.h
    requires OnCondQueue(s, HandleOf(i)) ==> HandleOf(i) in CondWaiters(Next(s, l, tape).st, QueueOf(s.ctl[HandleOf(i)]).c)
    ensures Awake(Next(s, l, tape), mem', i) <==> Awake(s, mem, i)
  {
    var h := HandleOf(i);
    assert PlaceOk(p, s, mem, i);
    if mem.locs[i].Test? && h in s.ctl {
      AsideNext(s, l, tape, h);
    }
  }

  /** A worker's own step inside rsched leaves it as awake as it was. */
  lemma AwakeOwnStep(p: Kernel, s: Machine, mem: Mem, i: nat, l: Label, tape: Tape)
    requires Inv(s) && Enabled(s, l) && Crew(p, s, mem) && i < |mem.locs| && l.h == HandleOf(i) && !l.CallL?
    ensures Awake(Next(s, l, tape), mem, i) <==> Awake(s, mem, i)
  {
    var h := HandleOf(i);
    var s' := Next(s, l, tape);
    assert PlaceOk(p, s, mem, i) && ThreadOk(s, h);
    WorkerStep(p, s, mem, i, l, tape);
    match l
    case StepL(_) =>
      if s.ctl[h].phase.Go? {
        AwakeOwnGo(p, s, mem, i, s.ctl[h].k, tape);
      } else {
        BeforeGo(s, h, tape);
      }
    case ResumeL(_) => if s.ctl[h].Waiting? {} else {}
    case RegisterL(_) =>
  }

  lemma AwakeOwnGo(p: Kernel, s: Machine, mem: Mem, i: nat, k: Point, tape: Tape)
    requires Inv(s) && Crew(p, s, mem) && i < |mem.locs| && HandleOf(i) in s.ctl && s.ctl[HandleOf(i)] == At(Go, k)
    ensures Awake(StepGo(s, HandleOf(i), k, tape), mem, i) <==> Awake(s, mem, i)
  {
    assert PlaceOk(p, s, mem, i);
    match k
    case Ret(_) =>
    case CondRelease(_, _) => AwakeRelease(p, s, mem, i, k, tape);
    case CondCheck(_, _) => AwakeCondGo(p, s, mem, i, k, tape);
    case CondAgain(_, _) => AwakeCondGo(p, s, mem, i, k, tape);
    case _ => AwakeLockGo(p, s, mem, i, k, tape);
  }

  lemma AwakeLockGo(p: Kernel, s: Machine, mem: Mem, i: nat, k: Point, tape: Tape)
    requires Inv(s) && p.Ok() && i < |mem.locs| && HandleOf(i) in s.ctl && s.ctl[HandleOf(i)] == At(Go, k) && SeatOk(p, s, mem, i)
    requires k.LockLoop? || k.LockCheck? || k.LockAgain?
    ensures Awake(StepGo(s, HandleOf(i), k, tape), mem, i) <==> Awake(s, mem, i)
  {
    var h := HandleOf(i);
    match k
    case LockLoop(m) => FirstPass(s, h, m);
    case LockCheck(m) => if T(s.st, h).isBlocking {} else { LaterPass(s, h, m, tape); }
    case LockAgain(m) => LaterPass(s, h, m, tape);
  }

  lemma AwakeRelease(p: Kernel, s: Machine, mem: Mem, i: nat, k: Point, tape: Tape)
    requires Inv(s) && p.Ok() && i < |mem.locs| && HandleOf(i) in s.ctl && s.ctl[HandleOf(i)] == At(Go, k) && SeatOk(p, s, mem, i)
    requires k.CondRelease?
    ensures !Awake(StepGo(s, HandleOf(i), k, tape), mem, i) && !Awake(s, mem, i)
  {
    Release(s, HandleOf(i), k.m, tape);
  }

  lemma AwakeCondGo(p: Kernel, s: Machine, mem: Mem, i: nat, k: Point, tape: Tape)
    requires Inv(s) && p.Ok() && i < |mem.locs| && HandleOf(i) in s.ctl && s.ctl[HandleOf(i)] == At(Go, k) && SeatOk(p, s, mem, i)
    requires k.CondCheck? || k.CondAgain?
    ensures Awake(StepGo(s, HandleOf(i), k, tape), mem, i) <==> Awake(s, mem, i)
  {
    var h := HandleOf(i);
    assert ThreadOk(s, h);
    if k.CondCheck? && T(s.st, h).isBlocking {
    } else {
      FirstPass(s, h, k.m);
    }
  }

  // ---------------------------------------------------------------- steps inside rsched

  /** The crew after any step inside rsched, and the one way such a step changes a condition queue. */
  lemma CrewStep(p: Kernel, s: Machine, mem: Mem, l: Label, tape: Tape)
    requires Inv(s) && Enabled(s, l) && Crew(p, s, mem) && !l.CallL?
    ensures var s' := Next(s, l, tape);
      && Crew(p, s', mem)
      && s'.st.conds == if Enqueues(s, l) then s.st.conds[s.ctl[l.h].k.c := CondWaiters(s.st, s.ctl[l.h].k.c) + [l.h]] else s.st.conds
    ensures Enqueues(s, l) ==> exists i: nat :: i < p.Workers() && l.h == HandleOf(i) && s.ctl[l.h].k.c == p.Waits(i) && mem.count == p.Limit(i)
  {
    if l.h != MAIN {
      var i := l.h - 2;
      assert l.h in s.ctl.Keys && PlaceOk(p, s, mem, i) && HandleOf(i) == l.h;
      CrewWorkerStep(p, s, mem, l, tape);
      WorkerStep(p, s, mem, i, l, tape);
    } else if l.JoinReturnL? {
      CrewMainReaps(p, s, mem, tape);
    } else if Creates(s, l) {
      CrewMainCreates(p, s, mem, tape);
    } else {
      CrewMainStep(p, s, mem, l, tape);
      MainStep(p, s, mem, l, tape);
    }
  }

  lemma AwakeStep(p: Kernel, s: Machine, mem: Mem, l: Label, tape: Tape, i: nat)
    requires Inv(s) && Enabled(s, l) && Crew(p, s, mem) && !l.CallL? && i < p.Workers()
    ensures Awake(Next(s, l, tape), mem, i) <==> Awake(s, mem, i)
  {
    if HandleOf(i) == l.h {
      AwakeOwnStep(p, s, mem, i, l, tape);
    } else {
      if OnCondQueue(s, HandleOf(i)) { OnlySignalsWake(s, l, tape, QueueOf(s.ctl[HandleOf(i)]).c, HandleOf(i)); }
      AwakeAside(p, s, mem, mem, l, tape, i);
    }
  }

  /** Steps inside rsched keep the quotas and the potential. */
  lemma StepAccounts(p: Kernel, c: Config<Mem>, l: Label, tape: Tape)
    requires Good(p, c) && Enabled(c.s, l) && !l.CallL?
    ensures Good(p, Config(Next(c.s, l, tape), c.mem))
    ensures Potential(p, Next(c.s, l, tape), c.mem) == Potential(p, c.s, c.mem)
  {
    var s, s', mem := c.s, Next(c.s, l, tape), c.mem;
    KeepNext(s, l, tape);
    CrewStep(p, s, mem, l, tape);
    forall i: nat | i < p.Workers() ensures Awake(s', mem, i) <==> Awake(s, mem, i) { AwakeStep(p, s, mem, l, tape, i); }
    StepPotential(p, s, s', mem);
    StepQuota(p, s, s', mem, l, true);
    StepQuota(p, s, s', mem, l, false);
  }

  lemma StepPotential(p: Kernel, s: Machine, s': Machine, mem: Mem)
    requires p.Ok() && forall i: nat :: i < p.Workers() ==> (Awake(s', mem, i) <==> Awake(s, mem, i))
    ensures Potential(p, s', mem) == Potential(p, s, mem)
  {
    SumSame(Due(p, s, mem), Due(p, s', mem), p.Workers());
  }

  lemma StepQuota(p: Kernel, s: Machine, s': Machine, mem: Mem, l: Label, consumers: bool)
    requires Quota(p, s, mem, consumers)
    requires forall i: nat :: i < p.Workers() ==> (Awake(s', mem, i) <==> Awake(s, mem, i))
    requires s'.st.conds == if Enqueues(s, l) then s.st.conds[s.ctl[l.h].k.c := CondWaiters(s.st, s.ctl[l.h].k.c) + [l.h]] else s.st.conds
    requires Enqueues(s, l) ==> exists i: nat :: i < p.Workers() && l.h == HandleOf(i) && s.ctl[l.h].k.c == p.Waits(i) && mem.count == p.Limit(i)
    ensures Quota(p, s', mem, consumers)
  {
    SumSame(AwakeBits(p, s, mem, consumers), AwakeBits(p, s', mem, consumers), p.Workers());
    AwakeCount(p, s, mem, consumers);
  }

  // ---------------------------------------------------------------- calls

  lemma MainCallAccounts(p: Kernel, c: Config<Mem>, op: Op, tape: Tape)
    requires Good(p, c) && Enabled(c.s, CallL(MAIN, op)) && MainCode(p, c.mem).0 == Some(op)
    ensures var s', mem' := Call(c.s, MAIN, op, tape), MainCode(p, c.mem).1;
      Good(p, Config(s', mem')) && Potential(p, s', mem') == Potential(p, c.s, c.mem) - 1
  {
    hide Call;
    var s, mem := c.s, c.mem;
    var s', mem' := Call(s, MAIN, op, tape), MainCode(p, mem).1;
    KeepNext(s, CallL(MAIN, op), tape);
    CrewMainCall(p, s, mem, op, tape);
    forall i: nat | i < p.Workers() ensures Awake(s', mem', i) <==> Awake(s, mem, i) {
      AwakeAside(p, s, mem, mem', CallL(MAIN, op), tape, i);
    }
    SumSame(Moved(p, mem), Moved(p, mem'), p.Workers());
    SumSame(Due(p, s, mem), Due(p, s', mem'), p.Workers());
    SumSame(AwakeBits(p, s, mem, true), AwakeBits(p, s', mem', true), p.Workers());
    SumSame(AwakeBits(p, s, mem, false), AwakeBits(p, s', mem', false), p.Workers());
  }

  /** A worker's call, with what surrounds it. */
  ghost predicate Calling(p: Kernel, c: Config<Mem>, i: nat, op: Op) {
    Good(p, c) && i < p.Workers() && Enabled(c.s, CallL(HandleOf(i), op)) && WorkerCode(p, c.mem, i).0 == Some(op)
  }

  lemma OwnQuietCall(p: Kernel, c: Config<Mem>, i: nat, op: Op, tape: Tape)
    requires Calling(p, c, i, op) && !op.Signal?
    ensures var s', mem' := Call(c.s, HandleOf(i), op, tape), WorkerCode(p, c.mem, i).1;
      && s'.st.conds == c.s.st.conds && !Awake(s', mem', i)
      && Due(p, s', mem')(i) < Due(p, c.s, c.mem)(i)
      && (op.Wait? ==> c.mem.count == p.Limit(i)) && (!op.Wait? ==> !Awake(c.s, c.mem, i))
  {
    hide Flow, Quota;
    var s, h := c.s, HandleOf(i);
    assert PlaceOk(p, s, c.mem, i);
    match op
    case Exit => ExitLeavesRoster(s, h, tape);
    case Lock(_) => CallRoster(s, h, op, tape);
    case Wait(_, _) => CallRoster(s, h, op, tape);
    case Unlock(m) => CallReleases(s, h, m, tape);
  }

  lemma OtherAtQuietCall(p: Kernel, c: Config<Mem>, i: nat, op: Op, tape: Tape, j: nat)
    requires Calling(p, c, i, op) && Call(c.s, HandleOf(i), op, tape).st.conds == c.s.st.conds && j < p.Workers() && j != i
    ensures Awake(Call(c.s, HandleOf(i), op, tape), WorkerCode(p, c.mem, i).1, j) <==> Awake(c.s, c.mem, j)
  {
    hide Inv, Flow, Quota, Call, SeatOk, MainOk;
    AwakeAside(p, c.s, c.mem, WorkerCode(p, c.mem, i).1, CallL(HandleOf(i), op), tape, j);
  }

  /** The crew and the flow after a worker's call. */
  lemma CallKeeps(p: Kernel, c: Config<Mem>, i: nat, op: Op, tape: Tape)
    requires Calling(p, c, i, op)
    ensures Inv(Call(c.s, HandleOf(i), op, tape))
    ensures Crew(p, Call(c.s, HandleOf(i), op, tape), WorkerCode(p, c.mem, i).1) && Flow(p, WorkerCode(p, c.mem, i).1)
  {
    KeepNext(c.s, CallL(HandleOf(i), op), tape);
    CrewWorkerCall(p, c.s, c.mem, i, op, tape);
    assert PlaceOk(p, c.s, c.mem, i);
    FlowCall(p, c.s, c.mem, i);
  }

  lemma QuietCallAccounts(p: Kernel, c: Config<Mem>, i: nat, op: Op, tape: Tape)
    requires Calling(p, c, i, op) && !op.Signal?
    ensures var s', mem' := Call(c.s, HandleOf(i), op, tape), WorkerCode(p, c.mem, i).1;
      Good(p, Config(s', mem')) && Potential(p, s', mem') < Potential(p, c.s, c.mem)
  {
    hide Inv, Call, Awake, Due;
    var s', mem' := Call(c.s, HandleOf(i), op, tape), WorkerCode(p, c.mem, i).1;
    CallKeeps(p, c, i, op, tape);
    OwnQuietCall(p, c, i, op, tape);
    forall j: nat | j < p.Workers() && j != i ensures Awake(s', mem', j) <==> Awake(c.s, c.mem, j) {
      OtherAtQuietCall(p, c, i, op, tape, j);
    }
    QuietCallSums(p, c.s, s', c.mem, mem', i);
  }

  lemma QuietCallSums(p: Kernel, s: Machine, s': Machine, mem: Mem, mem': Mem, i: nat)
    requires p.Ok() && Quota(p, s, mem, true) && Quota(p, s, mem, false) && i < p.Workers()
    requires s'.st.conds == s.st.conds && mem'.count == mem.count && mem'.main == mem.main
    requires |mem'.locs| == |mem.locs| == p.Workers() && forall j: nat :: j < p.Workers() && j != i ==> mem'.locs[j] == mem.locs[j]
    requires forall j: nat :: j < p.Workers() && j != i ==> (Awake(s', mem', j) <==> Awake(s, mem, j))
    requires !Awake(s', mem', i) && (mem.count == p.Limit(i) || !Awake(s, mem, i))
    requires Due(p, s', mem')(i) < Due(p, s, mem)(i)
    ensures Quota(p, s', mem', true) && Quota(p, s', mem', false)
    ensures Potential(p, s', mem') < Potential(p, s, mem)
  {
    SumBut(Due(p, s, mem), Due(p, s', mem'), p.Workers(), i);
    QuietCallQuota(p, s, s', mem, mem', i, true);
    QuietCallQuota(p, s, s', mem, mem', i, false);
  }

  lemma QuietCallQuota(p: Kernel, s: Machine, s': Machine, mem: Mem, mem': Mem, i: nat, consumers: bool)
    requires Quota(p, s, mem, consumers) && s'.st.conds == s.st.conds && mem'.count == mem.count && i < p.Workers()
    requires forall j: nat :: j < p.Workers() && j != i ==> (Awake(s', mem', j) <==> Awake(s, mem, j))
    requires !Awake(s', mem', i) && (mem.count == p.Limit(i) || !Awake(s, mem, i))
    ensures Quota(p, s', mem', consumers)
  {
    SumBut(AwakeBits(p, s, mem, consumers), AwakeBits(p, s', mem', consumers), p.Workers(), i);
    AwakeCount(p, s', mem', consumers);
  }

  // ---------------------------------------------------------------- signals

  /** A sleeper is a worker of the side its queue belongs to. */
  lemma SleeperIs(p: Kernel, s: Machine, mem: Mem, consumers: bool, x: Handle)
    requires Inv(s) && Crew(p, s, mem) && x in CondWaiters(s.st, QueueKey(consumers))
    ensures 2 <= x < p.Workers() + 2 && p.Consumes(x - 2) == consumers && OnCondQueue(s, x) && QueueOf(s.ctl[x]).c == QueueKey(consumers)
    ensures mem.locs[x - 2].Test? && mem.locs[x - 2].waited && !AtRelease(s.ctl[x])
  {
    assert CondOk(s, QueueKey(consumers));
    assert x in s.ctl.Keys;
    if x != MAIN { assert PlaceOk(p, s, mem, x - 2) && HandleOf(x - 2) == x; }
  }

  lemma OthersAtSignal(p: Kernel, c: Config<Mem>, i: nat, tape: Tape, j: nat)
    requires Calling(p, c, i, Signal(p.Signals(i))) && j < p.Workers() && j != i
    ensures var s', mem' := Call(c.s, HandleOf(i), Signal(p.Signals(i)), tape), WorkerCode(p, c.mem, i).1;
      var woken := CondWaiters(c.s.st, p.Signals(i)) != [] && HandleOf(j) == Woken(c.s, p.Signals(i), tape);
      && (Awake(s', mem', j) <==> Awake(c.s, c.mem, j) || woken)
      && (woken ==> !Awake(c.s, c.mem, j) && p.Consumes(j) != p.Consumes(i))
  {
    hide Call;
    if CondWaiters(c.s.st, p.Signals(i)) != [] && HandleOf(j) == Woken(c.s, p.Signals(i), tape) {
      SleeperIs(p, c.s, c.mem, !p.Consumes(i), HandleOf(j));
      WokenAtSignal(p, c, i, tape, j);
    } else {
      SignalMeans(c.s, HandleOf(i), p.Signals(i), tape);
      AwakeAside(p, c.s, c.mem, WorkerCode(p, c.mem, i).1, CallL(HandleOf(i), Signal(p.Signals(i))), tape, j);
    }
  }

  lemma WokenAtSignal(p: Kernel, c: Config<Mem>, i: nat, tape: Tape, j: nat)
    requires Calling(p, c, i, Signal(p.Signals(i))) && j < p.Workers() && j != i
    requires CondWaiters(c.s.st, p.Signals(i)) != [] && HandleOf(j) == Woken(c.s, p.Signals(i), tape)
    ensures Awake(Call(c.s, HandleOf(i), Signal(p.Signals(i)), tape), WorkerCode(p, c.mem, i).1, j) && !Awake(c.s, c.mem, j)
  {
    hide Call;
    SignalMeans(c.s, HandleOf(i), p.Signals(i), tape);
    SleeperIs(p, c.s, c.mem, !p.Consumes(i), HandleOf(j));
  }

  /** The bits of the signaller's side: its own is cleared. */
  lemma SignalOwnSide(p: Kernel, c: Config<Mem>, i: nat, tape: Tape)
    requires Calling(p, c, i, Signal(p.Signals(i)))
    ensures var s', mem' := Call(c.s, HandleOf(i), Signal(p.Signals(i)), tape), WorkerCode(p, c.mem, i).1;
      Quota(p, s', mem', p.Consumes(i))
  {
    var s, mem, n, side := c.s, c.mem, p.Workers(), p.Consumes(i);
    var s', mem' := Call(s, HandleOf(i), Signal(p.Signals(i)), tape), WorkerCode(p, mem, i).1;
    assert PlaceOk(p, s, mem, i);
    SignalMeans(s, HandleOf(i), p.Signals(i), tape);
    forall j: nat | j < n && j != i ensures AwakeBits(p, s', mem', side)(j) == AwakeBits(p, s, mem, side)(j) {
      OthersAtSignal(p, c, i, tape, j);
    }
    SumBut(AwakeBits(p, s, mem, side), AwakeBits(p, s', mem', side), n, i);
  }

  /** The bits of the other side: that of the thread woken, if any, is set. */
  lemma SignalOtherSide(p: Kernel, c: Config<Mem>, i: nat, tape: Tape)
    requires Calling(p, c, i, Signal(p.Signals(i)))
    ensures var s', mem' := Call(c.s, HandleOf(i), Signal(p.Signals(i)), tape), WorkerCode(p, c.mem, i).1;
      Quota(p, s', mem', !p.Consumes(i))
  {
    var s', mem' := Call(c.s, HandleOf(i), Signal(p.Signals(i)), tape), WorkerCode(p, c.mem, i).1;
    SignalMeans(c.s, HandleOf(i), p.Signals(i), tape);
    if CondWaiters(c.s.st, p.Signals(i)) != [] {
      var w := Woken(c.s, p.Signals(i), tape);
      SleeperIs(p, c.s, c.mem, !p.Consumes(i), w);
      assert HandleOf(w - 2) == w;
      forall j: nat | j < p.Workers() && j != i
        ensures Awake(s', mem', j) <==> Awake(c.s, c.mem, j) || j == w - 2
      {
        OthersAtSignal(p, c, i, tape, j);
      }
      OthersAtSignal(p, c, i, tape, w - 2);
      OneMoreAwake(p, c.s, s', c.mem, mem', i, w - 2);
    }
  }

  lemma OneMoreAwake(p: Kernel, s: Machine, s': Machine, mem: Mem, mem': Mem, i: nat, k: nat)
    requires Quota(p, s, mem, !p.Consumes(i)) && CondWaiters(s.st, QueueKey(!p.Consumes(i))) != []
    requires i < p.Workers() && k < p.Workers() && p.Consumes(k) != p.Consumes(i)
    requires mem'.count == mem.count + p.Change(i)
    requires forall j: nat :: j < p.Workers() && j != i ==> (Awake(s', mem', j) <==> Awake(s, mem, j) || j == k)
    requires !Awake(s, mem, k)
    ensures Quota(p, s', mem', !p.Consumes(i))
  {
    SumBut(AwakeBits(p, s, mem, !p.Consumes(i)), AwakeBits(p, s', mem', !p.Consumes(i)), p.Workers(), k);
  }

  /** A signal lowers the potential by three and raises it by at most one. */
  lemma SignalPotential(p: Kernel, c: Config<Mem>, i: nat, tape: Tape)
    requires Calling(p, c, i, Signal(p.Signals(i)))
    ensures var s', mem' := Call(c.s, HandleOf(i), Signal(p.Signals(i)), tape), WorkerCode(p, c.mem, i).1;
      Potential(p, s', mem') < Potential(p, c.s, c.mem)
  {
    hide Inv, Flow, Quota;
    var s, mem, n := c.s, c.mem, p.Workers();
    var s', mem' := Call(s, HandleOf(i), Signal(p.Signals(i)), tape), WorkerCode(p, mem, i).1;
    assert PlaceOk(p, s, mem, i);
    var was, now := Due(p, s, mem), Due(p, s', mem');
    forall j: nat | j < n && j != i
      ensures now(j) == was(j) || (now(j) == was(j) + 1 && CondWaiters(s.st, p.Signals(i)) != [] && HandleOf(j) == Woken(s, p.Signals(i), tape))
    {
      OthersAtSignal(p, c, i, tape, j);
    }
    assert now(i) <= was(i) - 3;
    var mid: nat -> int := (j: nat) => if j == i then now(i) else was(j);
    SumBut(was, mid, n, i);
    if CondWaiters(s.st, p.Signals(i)) != [] {
      SleeperIs(p, s, mem, !p.Consumes(i), Woken(s, p.Signals(i), tape));
      SumBut(mid, now, n, Woken(s, p.Signals(i), tape) - 2);
    } else {
      SumSame(mid, now, n);
    }
  }

  lemma SignalAccounts(p: Kernel, c: Config<Mem>, i: nat, tape: Tape)
    requires Calling(p, c, i, Signal(p.Signals(i)))
    ensures var s', mem' := Call(c.s, HandleOf(i), Signal(p.Signals(i)), tape), WorkerCode(p, c.mem, i).1;
      Good(p, Config(s', mem')) && Potential(p, s', mem') < Potential(p, c.s, c.mem)
  {
    CallKeeps(p, c, i, Signal(p.Signals(i)), tape);
    SignalOwnSide(p, c, i, tape);
    SignalOtherSide(p, c, i, tape);
    SignalPotential(p, c, i, tape);
  }

  /** Every step the program allows keeps everything, and every call lowers the potential. */
  lemma GoodNext(p: Kernel, c: Config<Mem>, l: Label, tape: Tape)
    requires Good(p, c) && CanStep(BufferCode(p), c, l)
    ensures var c' := Advance(BufferCode(p), c, l, tape);
      Good(p, c') && if l.CallL? then Potential(p, c'.s, c'.mem) < Potential(p, c.s, c.mem)
                     else Potential(p, c'.s, c'.mem) == Potential(p, c.s, c.mem)
  {
    if !l.CallL? {
      StepAccounts(p, c, l, tape);
    } else if l.h == MAIN {
      MainCallAccounts(p, c, l.op, tape);
    } else {
      assert l.h in c.s.ctl.Keys;
      var i := l.h - 2;
      assert HandleOf(i) == l.h && BufferCode(p)(c.mem, l.h, c.s.ctl[l.h].ret) == WorkerCode(p, c.mem, i);
      if l.op.Signal? {
        SignalAccounts(p, c, i, tape);
      } else {
        QuietCallAccounts(p, c, i, l.op, tape);
      }
    }
  }
}