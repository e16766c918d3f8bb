/** The lock kernel over whole runs: for every number of tasks and rounds and every sequence of
    scheduler choices it never gets stuck, it ends, and it returns the number of increments. */
module LockRuns {
  import opened Prelude
  import opened StateModel
  import opened Machine
  import opened Invariant
  import opened Preservation
  import opened Frames
  import opened Safety
  import opened Progress
  import opened Program
  import opened Sums
  import opened LockKernel
  import opened Critical
  import Barriers

  /** Increments task `i` has made. */
  function Done(p: Kernel, loc: Loc): nat {
    match loc
    case Fresh => 0
    case Top(e) => e
    case In(e) => e
    case Gone => p.events
  }

  ghost function Made(p: Kernel, mem: Mem): nat -> int {
    (i: nat) => if i < |mem.locs| then Done(p, mem.locs[i]) else 0
  }

  /** Calls task `i` has still to make. */
  function CallsLeft(p: Kernel, loc: Loc): int {
    match loc
    case Fresh => 2 * p.events + 2
    case Top(e) => 2 * (p.events - e) + 1
    case In(e) => 2 * (p.events - e)
    case Gone => 0
  }

  ghost function Due(p: Kernel, mem: Mem): nat -> int {
    (i: nat) => if i < |mem.locs| then CallsLeft(p, mem.locs[i]) else 0
  }

  ghost function Potential(p: Kernel, mem: Mem): int {
    2 * p.tasks + 2 - mem.main + Sum(Due(p, mem), p.tasks)
  }

  /** The counter is what was added to it, in 32 bits. */
  ghost predicate Counted(p: Kernel, mem: Mem) {
    mem.counter == Sum(Made(p, mem), p.tasks) % U32
  }

  ghost predicate Good(p: Kernel, c: Config<Mem>) {
    Inv(c.s) && Crew(p, c.s, c.mem) && Counted(p, c.mem)
  }

  lemma AddOne(x: int)
    ensures (x % U32 + 1) % U32 == (x + 1) % U32
  {
  }

  /** A task's call adds one when it releases the mutex, and leaves one call less to make. */
  lemma TaskAccounts(p: Kernel, s: Machine, mem: Mem, i: nat)
    requires |mem.locs| == p.tasks && i < p.tasks && HandleOf(i) in s.ctl && SeatOk(p, s, mem, i) && Counted(p, mem)
    requires TaskCode(p, mem, i).0.Some?
    ensures Counted(p, TaskCode(p, mem, i).1) && Potential(p, TaskCode(p, mem, i).1) == Potential(p, mem) - 1
  {
    var mem' := TaskCode(p, mem, i).1;
    SumBut(Made(p, mem), Made(p, mem'), p.tasks, i);
    SumBut(Due(p, mem), Due(p, mem'), p.tasks, i);
    AddOne(Sum(Made(p, mem), p.tasks));
  }

  lemma MainAccounts(p: Kernel, mem: Mem)
    requires Counted(p, mem) && MainCode(p, mem).0.Some?
    ensures Counted(p, MainCode(p, mem).1) && Potential(p, MainCode(p, mem).1) == Potential(p, mem) - 1
  {
    var mem' := MainCode(p, mem).1;
    SumSame(Made(p, mem), Made(p, mem'), p.tasks);
    SumSame(Due(p, mem), Due(p, mem'), p.tasks);
  }

  lemma GoodNext(p: Kernel, c: Config<Mem>, l: Label, tape: Tape)
    requires Good(p, c) && CanStep(LockCode(p), c, l)
    ensures var c' := Advance(LockCode(p), c, l, tape);
      Good(p, c') && Potential(p, c'.mem) == Potential(p, c.mem) - if l.CallL? then 1 else 0
  {
    hide Counted, Potential, Inv;
    KeepNext(c.s, l, tape);
    assert l.h in c.s.ctl.Keys;
    if !l.CallL? {
      CrewStep(p, c.s, c.mem, l, tape);
    } else if l.h == MAIN {
      CrewMainCall(p, c.s, c.mem, l.op, tape);
      MainAccounts(p, c.mem);
    } else {
      var i := l.h - 2;
      assert HandleOf(i) == l.h && PlaceOk(p, c.s, c.mem, i);
      CrewTaskCall(p, c.s, c.mem, i, l.op, tape);
      TaskAccounts(p, c.s, c.mem, i);
    }
  }

  lemma StartGood(p: Kernel)
    ensures Good(p, Start(MAIN, StartMem(p)))
  {
    InitInv(MAIN);
    SumTwo(Made(p, StartMem(p)), p.tasks, p.tasks, 0, 0);
    forall i: nat | i < p.tasks ensures PlaceOk(p, Init(MAIN), StartMem(p), i) {}
  }

  lemma {:induction false} RunGood(p: Kernel, tape: Tape, cs: seq<Config<Mem>>, ls: seq<Label>, i: nat)
    requires RunOf(LockCode(p), MAIN, StartMem(p), tape, cs, ls) && i <= |ls|
    ensures Good(p, cs[i])
  {
    if i == 0 {
      StartGood(p);
    } else {
      RunGood(p, tape, cs, ls, i - 1);
      assert CanStep(LockCode(p), cs[i - 1], ls[i - 1]);
      GoodNext(p, cs[i - 1], ls[i - 1], tape);
    }
  }

  // ---------------------------------------------------------------- what is inside the mutex

  lemma MachineRun(p: Kernel, tape: Tape, cs: seq<Config<Mem>>, ls: seq<Label>)
    requires RunOf(LockCode(p), MAIN, StartMem(p), tape, cs, ls)
    ensures Run(Machines(cs), ls, MAIN, tape)
  {
    hide Enabled, Next;
    forall i | 0 <= i < |ls| ensures Enabled(Machines(cs)[i], ls[i]) && Machines(cs)[i + 1] == Next(Machines(cs)[i], ls[i], tape) {
      assert CanStep(LockCode(p), cs[i], ls[i]);
    }
  }

  lemma MainCounts(p: Kernel, mem: Mem, ret: int)
    ensures LockCode(p)(mem, MAIN, ret).1.counter == mem.counter
  {
    assert LockCode(p)(mem, MAIN, ret) == MainCode(p, mem);
  }

  lemma StepCounts(p: Kernel, c: Config<Mem>, l: Label, tape: Tape)
    requires Good(p, c) && CanStep(LockCode(p), c, l) && Advance(LockCode(p), c, l, tape).mem.counter != c.mem.counter
    ensures l.CallL? && l.op == Unlock(MUTEX) && l.h != MAIN
    ensures Advance(LockCode(p), c, l, tape).mem.counter == (c.mem.counter + 1) % 0x1_0000_0000
    ensures Inside(c.s, l.h, MUTEX) && RoundsOf(c.s, START) != []
  {
    hide Next;
    assert l.h in c.s.ctl.Keys && l.CallL?;
    MainCounts(p, c.mem, c.s.ctl[l.h].ret);
    if l.h != MAIN {
      assert HandleOf(l.h - 2) == l.h && PlaceOk(p, c.s, c.mem, l.h - 2);
    }
  }

  lemma FirstRound(p: Kernel, s: Machine, mem: Mem)
    requires Crew(p, s, mem) && Barriers.Seated(s) && Opened(s)
    ensures |RoundsOf(s, START)[0]| == p.tasks + 1 && Distinct(RoundsOf(s, START)[0])
  {
    assert BarrierState(p, s, mem) && START in s.st.barriers;
    assert Barriers.RoundsOk(s, START);
  }

  /** Only a task that holds the mutex, in reality too, changes the counter, by one and with the unlock
      that follows, and not before main and all tasks have arrived at the start barrier. */
  lemma CountsInside(p: Kernel, tape: Tape, cs: seq<Config<Mem>>, ls: seq<Label>, i: nat)
    requires RunOf(LockCode(p), MAIN, StartMem(p), tape, cs, ls) && i < |ls| && cs[i + 1].mem.counter != cs[i].mem.counter
    ensures ls[i].CallL? && ls[i].op == Unlock(MUTEX) && ls[i].h != MAIN
    ensures cs[i + 1].mem.counter == (cs[i].mem.counter + 1) % 0x1_0000_0000
    ensures MUTEX in cs[i].s.held && cs[i].s.held[MUTEX] == RealMutex(ls[i].h, 1)
    ensures RoundsOf(cs[i].s, START) != [] && |RoundsOf(cs[i].s, START)[0]| == p.tasks + 1
    ensures Distinct(RoundsOf(cs[i].s, START)[0])
  {
    RunGood(p, tape, cs, ls, i);
    assert CanStep(LockCode(p), cs[i], ls[i]);
    StepCounts(p, cs[i], ls[i], tape);
    RealAgrees(cs[i].s, MUTEX);
    MachineRun(p, tape, cs, ls);
    Barriers.RunSeated(Machines(cs), ls, MAIN, tape, i);
    FirstRound(p, cs[i].s, cs[i].mem);
  }

  // ---------------------------------------------------------------- termination

  lemma {:induction false} RunShrinks(p: Kernel, tape: Tape, cs: seq<Config<Mem>>, ls: seq<Label>)
    requires RunOf(LockCode(p), MAIN, StartMem(p), tape, cs, ls)
    ensures var c := cs[|ls|];
      |ls| + 26 * Potential(p, c.mem) + TotalCost(c.s) <= 26 * (2 * p.tasks + 2 + p.tasks * (2 * p.events + 2))
  {
    if ls == [] {
      SumTwo(Due(p, StartMem(p)), p.tasks, p.tasks, 2 * p.events + 2, 0);
      assert Init(MAIN).st.threads == [MAIN] && [MAIN][..0] == [];
      assert Cost(Init(MAIN), [MAIN][..0]) == 0 && Weight(Init(MAIN), MAIN) == 0;
    } else {
      var n := |ls| - 1;
      RunShrinks(p, tape, cs[..|ls|], ls[..n]);
      RunGood(p, tape, cs, ls, n);
      assert CanStep(LockCode(p), cs[n], ls[n]);
      GoodNext(p, cs[n], ls[n], tape);
      CostNext(cs[n].s, ls[n], tape);
    }
  }

  lemma PotentialPositive(p: Kernel, c: Config<Mem>)
    requires Good(p, c)
    ensures Potential(p, c.mem) >= 0
  {
    forall i: nat | i < p.tasks ensures Due(p, c.mem)(i) >= 0 { assert PlaceOk(p, c.s, c.mem, i); }
    SumAtMost(_ => 0, Due(p, c.mem), p.tasks);
    SumTwo(_ => 0, p.tasks, p.tasks, 0, 0);
  }

  /** The kernel ends, whatever is drawn and however the threads are scheduled: no run is longer than this. */
  lemma Terminates(p: Kernel, tape: Tape, cs: seq<Config<Mem>>, ls: seq<Label>)
    requires RunOf(LockCode(p), MAIN, StartMem(p), tape, cs, ls)
    ensures |ls| <= 26 * (2 * p.tasks + 2 + p.tasks * (2 * p.events + 2))
  {
    RunShrinks(p, tape, cs, ls);
    RunGood(p, tape, cs, ls, |ls|);
    PotentialPositive(p, cs[|ls|]);
  }

  // ---------------------------------------------------------------- never stuck

  ghost predicate Finished(p: Kernel, c: Config<Mem>) {
    MAIN in c.s.ctl && c.s.ctl[MAIN].User? && c.mem.main == 2 * p.tasks + 2
  }

  /** When the kernel returns, it returns the number of increments modulo 2^32, and every task is gone. */
  lemma ReturnsCount(p: Kernel, c: Config<Mem>)
    requires Good(p, c) && Finished(p, c)
    ensures c.mem.counter == (p.tasks * p.events) % U32 && c.s.ctl.Keys == {MAIN}
  {
    forall i: nat | i < p.tasks ensures Made(p, c.mem)(i) == p.events && HandleOf(i) !in c.s.ctl { assert PlaceOk(p, c.s, c.mem, i); }
    SumTwo(Made(p, c.mem), p.tasks, p.tasks, p.events, 0);
    forall h | h in c.s.ctl.Keys ensures h == MAIN {
      assert 2 <= h ==> HandleOf(h - 2) == h;
    }
  }

  lemma MainMayCall(p: Kernel, c: Config<Mem>)
    requires Good(p, c) && c.s.ctl[MAIN].User? && !Finished(p, c)
    ensures MainCode(p, c.mem).0.Some? && Allowed(c.s, MAIN, MainCode(p, c.mem).0.value)
  {
    var j, n := c.mem.main, p.tasks;
    if 1 <= j <= n {
      assert PlaceOk(p, c.s, c.mem, j - 1);
    } else if j >= n + 2 {
      assert PlaceOk(p, c.s, c.mem, j - n - 2);
    }
  }

  lemma TaskMayCall(p: Kernel, c: Config<Mem>, i: nat)
    requires Good(p, c) && i < p.tasks && HandleOf(i) in c.s.ctl && c.s.ctl[HandleOf(i)].User?
    ensures TaskCode(p, c.mem, i).0.Some? && Allowed(c.s, HandleOf(i), TaskCode(p, c.mem, i).0.value)
  {
    var h := HandleOf(i);
    assert PlaceOk(p, c.s, c.mem, i) && ThreadOk(c.s, h);
    assert forall m :: m in c.s.st.mutexes && c.s.st.mutexes[m].ownerTid == h ==> Owns(c.s, h, m);
  }

  /** Main makes the barrier while it is alone. */
  lemma MakeEnabled(p: Kernel, c: Config<Mem>)
    requires Good(p, c) && AtMake(c.s, StepL(MAIN))
    ensures Enabled(c.s, StepL(MAIN))
  {
    forall i: nat | i < p.tasks ensures HandleOf(i) !in c.s.ctl { assert PlaceOk(p, c.s, c.mem, i); }
    forall x | x in c.s.ctl ensures x == MAIN {
      assert x in c.s.ctl.Keys;
      assert 2 <= x ==> HandleOf(x - 2) == x;
    }
  }

  lemma TurnGoesOn(p: Kernel, c: Config<Mem>, h: Handle) returns (l: Label)
    requires Good(p, c) && c.s.turn == Some(h) && !Finished(p, c)
    ensures CanStep(LockCode(p), c, l)
  {
    assert h in c.s.ctl.Keys;
    if h != MAIN { assert PlaceOk(p, c.s, c.mem, h - 2) && HandleOf(h - 2) == h; }
    assert Active(c.s, h);
    if !c.s.ctl[h].User? {
      if h == MAIN && AtMake(c.s, StepL(MAIN)) { MakeEnabled(p, c); }
      l := TurnCanStep(c.s, h);
    } else {
      NobodyAt(c.s, h);
      if h == MAIN {
        MainMayCall(p, c);
        l := CallL(h, MainCode(p, c.mem).0.value);
      } else {
        TaskMayCall(p, c, h - 2);
        l := CallL(h, TaskCode(p, c.mem, h - 2).0.value);
      }
    }
  }

  /** Whoever owns the mutex is not queueing for anything. */
  lemma OwnerNotBlocking(p: Kernel, c: Config<Mem>, x: Handle)
    requires Good(p, c) && Owns(c.s, x, MUTEX)
    ensures x in c.s.st.threads && (c.s.turn == None ==> !Stalled(c.s, x))
  {
    assert MutexOk(c.s, MUTEX) && ThreadOk(c.s, x);
    assert x in c.s.ctl.Keys && x != MAIN;
    assert PlaceOk(p, c.s, c.mem, x - 2) && HandleOf(x - 2) == x;
  }

  lemma MutexFree(p: Kernel, c: Config<Mem>)
    requires Good(p, c) && c.s.turn == None
    ensures MUTEX !in c.s.st.mutexes
  {
    if MUTEX in c.s.st.mutexes {
      OwnerNotBlocking(p, c, c.s.st.mutexes[MUTEX].ownerTid);
    }
  }

  /** With no turn to take, a task that is not gone waits at the barrier. */
  lemma TaskSleeps(p: Kernel, c: Config<Mem>, i: nat)
    requires Good(p, c) && c.s.turn == None && i < p.tasks && Live(c.s, HandleOf(i))
    ensures BarrierWaiter(c.s, START, HandleOf(i))
  {
    var h := HandleOf(i);
    assert PlaceOk(p, c.s, c.mem, i) && h in c.s.st.threads && ThreadOk(c.s, h);
    MutexFree(p, c);
    assert Stalled(c.s, h);
  }

  /** So does main, or a task it is joining is not gone. */
  lemma MainSleeps(p: Kernel, c: Config<Mem>)
    requires Good(p, c) && c.s.turn == None
    ensures if Opened(c.s) then c.mem.main >= p.tasks + 3 && Live(c.s, HandleOf(c.mem.main - p.tasks - 3))
            else BarrierWaiter(c.s, START, MAIN) && c.mem.main == p.tasks + 2
  {
    assert Live(c.s, MAIN) && MAIN in c.s.st.threads && ThreadOk(c.s, MAIN);
    assert Stalled(c.s, MAIN);
  }

  /** Never do all of the crew wait at the start barrier at once. */
  lemma Missing(p: Kernel, c: Config<Mem>) returns (x: Handle)
    requires Good(p, c) && START in c.s.st.barriers
    ensures 1 <= x < p.tasks + 2 && !BarrierWaiter(c.s, START, x)
  {
    var ws := c.s.st.barriers[START].waiters;
    assert BarrierOk(c.s, START);
    forall x | x in ws ensures 1 <= x < 1 + (p.tasks + 1) { WaitersAreCrew(p, c.s, c.mem, x); }
    Pigeonhole(ws, 1, p.tasks + 1);
    x :| 1 <= x < 1 + (p.tasks + 1) && x !in ws;
  }

  /** The turn is never lost: were everybody asleep, all of them would wait at a barrier that lets
      through as many as they are. */
  lemma SomebodyGoesOn(p: Kernel, c: Config<Mem>)
    requires Good(p, c)
    ensures c.s.turn.Some?
  {
    if c.s.turn == None {
      MainSleeps(p, c);
      if Opened(c.s) {
        TaskSleeps(p, c, c.mem.main - p.tasks - 3);
        assert false;
      } else {
        var x := Missing(p, c);
        assert PlaceOk(p, c.s, c.mem, x - 2) && HandleOf(x - 2) == x;
        TaskSleeps(p, c, x - 2);
        assert false;
      }
    }
  }

  /** The kernel never gets stuck: in every reachable state some step is possible, unless main has
      finished. The barrier count is the mathematical `tasks + 1`; with 2^32 - 1 tasks the C sum
      wraps to 0 and initialising the barrier fails, which is not modelled. */
  lemma NeverStuck(p: Kernel, tape: Tape, cs: seq<Config<Mem>>, ls: seq<Label>)
    requires RunOf(LockCode(p), MAIN, StartMem(p), tape, cs, ls)
    ensures Finished(p, cs[|ls|]) || exists l :: CanStep(LockCode(p), cs[|ls|], l)
  {
    RunGood(p, tape, cs, ls, |ls|);
    SomebodyGoesOn(p, cs[|ls|]);
    if !Finished(p, cs[|ls|]) {
      var l := TurnGoesOn(p, cs[|ls|], cs[|ls|].s.turn.value);
    }
  }

  /** A run that cannot go on has finished, with every task joined, and returns the number of
      increments, exactly so when that fits 32 bits. */
  lemma EndsWithCount(p: Kernel, tape: Tape, cs: seq<Config<Mem>>, ls: seq<Label>)
    requires RunOf(LockCode(p), MAIN, StartMem(p), tape, cs, ls)
    requires forall l :: !CanStep(LockCode(p), cs[|ls|], l)
    ensures Finished(p, cs[|ls|]) && cs[|ls|].s.ctl.Keys == {MAIN}
    ensures cs[|ls|].mem.counter == p.tasks * p.events <==> p.tasks * p.events < U32
    ensures cs[|ls|].mem.counter == (p.tasks * p.events) % U32
  {
    NeverStuck(p, tape, cs, ls);
    RunGood(p, tape, cs, ls, |ls|);
    ReturnsCount(p, cs[|ls|]);
  }
}
