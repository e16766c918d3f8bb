/** The bounded-buffer kernel over whole runs, for every number of producers and consumers dividing
    the total, every queue size of at least 1 and every sequence of scheduler choices: the buffer
    never over- or underflows, the kernel never gets stuck, it ends after boundedly many steps, and
    it ends with an empty buffer. */
module BufferRuns {
  import opened Prelude
  import opened StateModel
  import opened Machine
  import opened Invariant
  import opened Frames
  import opened Safety
  import opened Progress
  import opened Critical
  import opened Program
  import opened Sums
  import opened BoundedBuffer
  import opened BufferAccounts

  lemma Divides(total: nat, k: nat)
    requires k != 0 && total % k == 0
    ensures k * (total / k) == total
    ensures total > 0 ==> total / k > 0
  {
  }

  /** Sharing `total` rounds out among `k` workers. */
  lemma RoundsShared(total: nat, k: nat)
    requires k != 0 && total % k == 0
    ensures k * (5 * (total / k) + 1) == 5 * total + k
  {
    Divides(total, k);
    Spread(k, total / k);
  }

  lemma Spread(k: int, c: int)
    ensures k * (5 * c + 1) == 5 * (k * c) + k
  {
  }

  lemma StartPotential(p: Kernel)
    requires p.Ok()
    ensures Potential(p, Init(MAIN), StartMem(p)) == 3 * p.Workers() + 10 * p.total
  {
    var due := Due(p, Init(MAIN), StartMem(p));
    SumTwo(due, p.consumers, p.Workers(), 5 * (p.total / p.consumers) + 1, 5 * (p.total / p.producers) + 1);
    RoundsShared(p.total, p.consumers);
    RoundsShared(p.total, p.producers);
  }

  lemma StartGood(p: Kernel)
    requires p.Ok()
    ensures Good(p, Start(MAIN, StartMem(p)))
  {
    var s, mem := Init(MAIN), StartMem(p);
    InitInv(MAIN);
    SumTwo(Moved(p, mem), p.Workers(), p.Workers(), 0, 0);
    forall i: nat | i < p.Workers() ensures PlaceOk(p, s, mem, i) {}
  }

  lemma {:induction false} RunGood(p: Kernel, tape: Tape, cs: seq<Config<Mem>>, ls: seq<Label>, i: nat)
    requires p.Ok() && RunOf(BufferCode(p), MAIN, StartMem(p), tape, cs, ls) && i <= |ls|
    ensures Good(p, cs[i])
  {
    if i == 0 {
      StartGood(p);
    } else {
      RunGood(p, tape, cs, ls, i - 1);
      assert CanStep(BufferCode(p), cs[i - 1], ls[i - 1]);
      GoodNext(p, cs[i - 1], ls[i - 1], tape);
    }
  }

  /** The buffer never holds less than nothing or more than it has room for. */
  lemma InBounds(p: Kernel, tape: Tape, cs: seq<Config<Mem>>, ls: seq<Label>, i: nat)
    requires p.Ok() && RunOf(BufferCode(p), MAIN, StartMem(p), tape, cs, ls) && i <= |ls|
    ensures 0 <= cs[i].mem.count <= p.size
  {
    RunGood(p, tape, cs, ls, i);
  }

  /** Worker `i` is between the return of its lock, or of a wait, and its next unlock or wait. */
  ghost predicate InCritical(c: Config<Mem>, i: nat)
    requires i < |c.mem.locs|
  {
    var h, loc := HandleOf(i), c.mem.locs[i];
    && h in c.s.ctl
    && (|| (c.s.ctl[h].User? && (loc.Test? || loc.Unl?))
        || AtRelease(c.s.ctl[h])
        || (PointOf(c.s.ctl[h]).Some? && PointOf(c.s.ctl[h]).value.Ret? && loc.Unl?))
  }

  lemma CriticalHolds(p: Kernel, c: Config<Mem>, i: nat)
    requires Good(p, c) && i < p.Workers()
    ensures InCritical(c, i) ==> Inside(c.s, HandleOf(i), BUFFER_MUTEX)
    ensures Owns(c.s, HandleOf(i), BUFFER_MUTEX) && c.s.st.mutexes[BUFFER_MUTEX].recursiveCount > 0 ==> InCritical(c, i)
  {
    var h := HandleOf(i);
    assert PlaceOk(p, c.s, c.mem, i);
    if Owns(c.s, h, BUFFER_MUTEX) {
      assert MutexOk(c.s, BUFFER_MUTEX) && ThreadOk(c.s, h);
    }
  }

  /** Mutual exclusion: in every reachable state a worker holds the buffer mutex, virtually and in
      reality, at depth 1, exactly between its lock and its unlock, and so does at most one of them. */
  lemma OneInCritical(p: Kernel, tape: Tape, cs: seq<Config<Mem>>, ls: seq<Label>, n: nat, i: nat, j: nat)
    requires p.Ok() && RunOf(BufferCode(p), MAIN, StartMem(p), tape, cs, ls) && n <= |ls| && i < p.Workers() && j < p.Workers()
    ensures |cs[n].mem.locs| == p.Workers()
    ensures InCritical(cs[n], i) <==>
              BUFFER_MUTEX in cs[n].s.held && cs[n].s.held[BUFFER_MUTEX] == RealMutex(HandleOf(i), 1)
    ensures InCritical(cs[n], i) ==> Inside(cs[n].s, HandleOf(i), BUFFER_MUTEX)
    ensures InCritical(cs[n], i) && InCritical(cs[n], j) ==> i == j
  {
    RunGood(p, tape, cs, ls, n);
    CriticalHolds(p, cs[n], i);
    CriticalHolds(p, cs[n], j);
    RealAgrees(cs[n].s, BUFFER_MUTEX);
    if InCritical(cs[n], i) && InCritical(cs[n], j) {
      OneInside(cs[n].s, HandleOf(i), HandleOf(j), BUFFER_MUTEX);
    }
  }

  lemma MainCounts(p: Kernel, mem: Mem, ret: int)
    requires p.Ok()
    ensures BufferCode(p)(mem, MAIN, ret).1.count == mem.count
    ensures var op := BufferCode(p)(mem, MAIN, ret).0; op.Some? ==> op.value.Create? || op.value.Join?
  {
    assert BufferCode(p)(mem, MAIN, ret) == MainCode(p, mem);
  }

  lemma StepCounts(p: Kernel, c: Config<Mem>, l: Label, tape: Tape)
    requires Good(p, c) && CanStep(BufferCode(p), c, l) && Advance(BufferCode(p), c, l, tape).mem.count != c.mem.count
    ensures l.CallL? && 2 <= l.h < p.consumers + p.producers + 2
    ensures Advance(BufferCode(p), c, l, tape).mem.count == c.mem.count + if l.h < p.consumers + 2 then -1 else 1
    ensures Owns(c.s, l.h, BUFFER_MUTEX)
  {
    hide Next;
    assert l.h in c.s.ctl.Keys && l.CallL?;
    MainCounts(p, c.mem, c.s.ctl[l.h].ret);
    if l.h != MAIN {
      assert HandleOf(l.h - 2) == l.h && PlaceOk(p, c.s, c.mem, l.h - 2);
    }
  }

  /** Only a worker that holds the mutex, in reality too, changes the count: a consumer takes one item
      and a producer adds one. */
  lemma CountsInside(p: Kernel, tape: Tape, cs: seq<Config<Mem>>, ls: seq<Label>, i: nat)
    requires p.Ok() && RunOf(BufferCode(p), MAIN, StartMem(p), tape, cs, ls) && i < |ls| && cs[i + 1].mem.count != cs[i].mem.count
    ensures ls[i].CallL? && 2 <= ls[i].h < p.consumers + p.producers + 2
    ensures cs[i + 1].mem.count == cs[i].mem.count + if ls[i].h < p.consumers + 2 then -1 else 1
    ensures BUFFER_MUTEX in cs[i].s.held && cs[i].s.held[BUFFER_MUTEX] == RealMutex(ls[i].h, 1)
  {
    RunGood(p, tape, cs, ls, i);
    assert CanStep(BufferCode(p), cs[i], ls[i]);
    StepCounts(p, cs[i], ls[i], tape);
    CriticalHolds(p, cs[i], ls[i].h - 2);
    RealAgrees(cs[i].s, BUFFER_MUTEX);
  }

  lemma StepWaits(p: Kernel, c: Config<Mem>, l: Label)
    requires Good(p, c) && CanStep(BufferCode(p), c, l) && l.CallL? && l.op.Wait?
    ensures 2 <= l.h < p.consumers + p.producers + 2 && l.op.m == BUFFER_MUTEX && Inside(c.s, l.h, BUFFER_MUTEX)
    ensures c.mem.count == if l.h < p.consumers + 2 then 0 else p.size
  {
    assert l.h in c.s.ctl.Keys;
    MainCounts(p, c.mem, c.s.ctl[l.h].ret);
    if l.h != MAIN {
      assert HandleOf(l.h - 2) == l.h && PlaceOk(p, c.s, c.mem, l.h - 2);
    }
  }

  /** Only a worker inside the mutex waits, giving up that mutex: a consumer when there is nothing to
      take and a producer when there is no room. */
  lemma WaitsWhen(p: Kernel, tape: Tape, cs: seq<Config<Mem>>, ls: seq<Label>, i: nat)
    requires p.Ok() && RunOf(BufferCode(p), MAIN, StartMem(p), tape, cs, ls) && i < |ls| && ls[i].CallL? && ls[i].op.Wait?
    ensures 2 <= ls[i].h < p.consumers + p.producers + 2 && ls[i].op.m == BUFFER_MUTEX
    ensures BUFFER_MUTEX in cs[i].s.held && cs[i].s.held[BUFFER_MUTEX] == RealMutex(ls[i].h, 1)
    ensures cs[i].mem.count == if ls[i].h < p.consumers + 2 then 0 else p.size
  {
    RunGood(p, tape, cs, ls, i);
    assert CanStep(BufferCode(p), cs[i], ls[i]);
    StepWaits(p, cs[i], ls[i]);
    RealAgrees(cs[i].s, BUFFER_MUTEX);
  }

  // ---------------------------------------------------------------- how much is moved

  /** How often the count went up, and down. */
  ghost function Puts(cs: seq<Config<Mem>>): nat {
    if |cs| <= 1 then 0
    else Puts(cs[..|cs| - 1]) + if cs[|cs| - 1].mem.count == cs[|cs| - 2].mem.count + 1 then 1 else 0
  }

  ghost function Takes(cs: seq<Config<Mem>>): nat {
    if |cs| <= 1 then 0
    else Takes(cs[..|cs| - 1]) + if cs[|cs| - 1].mem.count == cs[|cs| - 2].mem.count - 1 then 1 else 0
  }

  /** What the workers of one side have moved. */
  ghost function MovedBy(p: Kernel, mem: Mem, consumers: bool): nat -> int
    requires p.Ok()
  {
    (i: nat) => if i < |mem.locs| && p.Consumes(i) == consumers then Done(p, mem.locs[i], i) else 0
  }

  lemma WorkerMoves(p: Kernel, s: Machine, mem: Mem, i: nat, consumers: bool)
    requires p.Ok() && |mem.locs| == p.Workers() && i < p.Workers() && HandleOf(i) in s.ctl && SeatOk(p, s, mem, i) && WorkerCode(p, mem, i).0.Some?
    ensures var mem' := WorkerCode(p, mem, i).1;
      Sum(MovedBy(p, mem', consumers), p.Workers())
      == Sum(MovedBy(p, mem, consumers), p.Workers()) + if mem'.count == mem.count + (if consumers then -1 else 1) then 1 else 0
  {
    var mem' := WorkerCode(p, mem, i).1;
    SumBut(MovedBy(p, mem, consumers), MovedBy(p, mem', consumers), p.Workers(), i);
  }

  lemma StepMoves(p: Kernel, c: Config<Mem>, l: Label, tape: Tape, consumers: bool)
    requires Good(p, c) && CanStep(BufferCode(p), c, l)
    ensures var mem' := Advance(BufferCode(p), c, l, tape).mem;
      Sum(MovedBy(p, mem', consumers), p.Workers())
      == Sum(MovedBy(p, c.mem, consumers), p.Workers()) + if mem'.count == c.mem.count + (if consumers then -1 else 1) then 1 else 0
  {
    if l.CallL? {
      assert l.h in c.s.ctl.Keys;
      if l.h == MAIN {
        SumSame(MovedBy(p, c.mem, consumers), MovedBy(p, MainCode(p, c.mem).1, consumers), p.Workers());
      } else {
        assert PlaceOk(p, c.s, c.mem, l.h - 2) && HandleOf(l.h - 2) == l.h;
        WorkerMoves(p, c.s, c.mem, l.h - 2, consumers);
      }
    }
  }

  lemma {:induction false} RunMoves(p: Kernel, tape: Tape, cs: seq<Config<Mem>>, ls: seq<Label>)
    requires p.Ok() && RunOf(BufferCode(p), MAIN, StartMem(p), tape, cs, ls)
    ensures Puts(cs) == Sum(MovedBy(p, cs[|ls|].mem, false), p.Workers())
    ensures Takes(cs) == Sum(MovedBy(p, cs[|ls|].mem, true), p.Workers())
  {
    if ls == [] {
      SumTwo(MovedBy(p, StartMem(p), false), p.Workers(), p.Workers(), 0, 0);
      SumTwo(MovedBy(p, StartMem(p), true), p.Workers(), p.Workers(), 0, 0);
    } else {
      var n := |ls| - 1;
      RunMoves(p, tape, cs[..|ls|], ls[..n]);
      RunGood(p, tape, cs, ls, n);
      assert CanStep(BufferCode(p), cs[n], ls[n]);
      StepMoves(p, cs[n], ls[n], tape, false);
      StepMoves(p, cs[n], ls[n], tape, true);
    }
  }

  lemma AllShares(p: Kernel, mem: Mem)
    requires p.Ok() && |mem.locs| == p.Workers() && forall i :: 0 <= i < |mem.locs| ==> mem.locs[i] == Gone
    ensures Sum(MovedBy(p, mem, false), p.Workers()) == p.total && Sum(MovedBy(p, mem, true), p.Workers()) == p.total
  {
    SumTwo(MovedBy(p, mem, false), p.consumers, p.Workers(), 0, p.total / p.producers);
    SumTwo(MovedBy(p, mem, true), p.consumers, p.Workers(), p.total / p.consumers, 0);
    Divides(p.total, p.producers);
    Divides(p.total, p.consumers);
  }

  /** A finished run has put exactly the total number of items into the buffer, and taken as many out. */
  lemma MovesTotal(p: Kernel, tape: Tape, cs: seq<Config<Mem>>, ls: seq<Label>)
    requires p.Ok() && RunOf(BufferCode(p), MAIN, StartMem(p), tape, cs, ls) && Finished(p, cs[|ls|])
    ensures Puts(cs) == p.total && Takes(cs) == p.total
  {
    RunGood(p, tape, cs, ls, |ls|);
    RunMoves(p, tape, cs, ls);
    forall i | 0 <= i < p.Workers() ensures cs[|ls|].mem.locs[i] == Gone { assert PlaceOk(p, cs[|ls|].s, cs[|ls|].mem, i); }
    AllShares(p, cs[|ls|].mem);
  }

  lemma PotentialPositive(p: Kernel, c: Config<Mem>)
    requires Good(p, c)
    ensures Potential(p, c.s, c.mem) >= 0
  {
    var due := Due(p, c.s, c.mem);
    forall i: nat | i < p.Workers() ensures due(i) >= 0 {
      assert PlaceOk(p, c.s, c.mem, i);
    }
    SumAtMost(_ => 0, due, p.Workers());
    SumTwo(_ => 0, p.Workers(), p.Workers(), 0, 0);
  }

  lemma StartCost()
    ensures TotalCost(Init(MAIN)) == 0
  {
    assert Init(MAIN).st.threads == [MAIN] && [MAIN][..0] == [];
    assert Cost(Init(MAIN), [MAIN][..0]) == 0 && Weight(Init(MAIN), MAIN) == 0;
  }

  lemma {:induction false} RunShrinks(p: Kernel, tape: Tape, cs: seq<Config<Mem>>, ls: seq<Label>)
    requires p.Ok() && RunOf(BufferCode(p), MAIN, StartMem(p), tape, cs, ls)
    ensures var c := cs[|ls|];
      |ls| + 26 * Potential(p, c.s, c.mem) + TotalCost(c.s) <= 26 * (3 * p.Workers() + 10 * p.total)
  {
    hide Potential, TotalCost, Inv, Enabled, Next;
    if ls == [] {
      StartPotential(p);
      StartCost();
    } else {
      var n := |ls| - 1;
      RunShrinks(p, tape, cs[..|ls|], ls[..n]);
      RunGood(p, tape, cs, ls, n);
      assert CanStep(BufferCode(p), cs[n], ls[n]);
      GoodNext(p, cs[n], ls[n], tape);
      CostNext(cs[n].s, ls[n], tape);
    }
  }

  /** The kernel ends, whatever is drawn and however the threads are scheduled, with no assumption of
      fairness: no run is longer than this. */
  lemma Terminates(p: Kernel, tape: Tape, cs: seq<Config<Mem>>, ls: seq<Label>)
    requires p.Ok() && RunOf(BufferCode(p), MAIN, StartMem(p), tape, cs, ls)
    ensures |ls| <= 26 * (3 * p.Workers() + 10 * p.total)
  {
    RunShrinks(p, tape, cs, ls);
    RunGood(p, tape, cs, ls, |ls|);
    PotentialPositive(p, cs[|ls|]);
  }

  // ---------------------------------------------------------------- never stuck

  /** The balance if every worker were done: nothing. */
  ghost function AllMoved(p: Kernel): nat -> int
    requires p.Ok()
  {
    (i: nat) => if p.Consumes(i) then 0 - p.Events(i) else p.Events(i)
  }

  lemma AllMovedBalance(p: Kernel)
    requires p.Ok()
    ensures Sum(AllMoved(p), p.Workers()) == 0
  {
    var c, q := p.total / p.consumers, p.total / p.producers;
    SumTwo(AllMoved(p), p.consumers, p.Workers(), -c, q);
    Divides(p.total, p.consumers);
    Divides(p.total, p.producers);
    assert p.consumers * (-c) == -(p.consumers * c);
  }

  ghost predicate Finished(p: Kernel, c: Config<Mem>) {
    MAIN in c.s.ctl && c.s.ctl[MAIN].User? && c.mem.main == 2 * p.Workers()
  }

  /** When the kernel returns, it returns 0, and every worker is gone. */
  lemma ReturnsZero(p: Kernel, c: Config<Mem>)
    requires Good(p, c) && Finished(p, c)
    ensures c.mem.count == 0 && c.s.ctl.Keys == {MAIN}
  {
    forall i: nat | i < p.Workers() ensures Moved(p, c.mem)(i) == AllMoved(p)(i) && HandleOf(i) !in c.s.ctl {
      assert PlaceOk(p, c.s, c.mem, i);
    }
    SumSame(Moved(p, c.mem), AllMoved(p), p.Workers());
    AllMovedBalance(p);
    forall h | h in c.s.ctl.Keys ensures h == MAIN {
      assert 2 <= h ==> HandleOf(h - 2) == h;
    }
  }

  /** A call the kernel's code wants to make is never refused. */
  lemma MainMayCall(p: Kernel, c: Config<Mem>)
    requires Good(p, c) && c.s.ctl[MAIN].User? && !Finished(p, c)
    ensures MainCode(p, c.mem).0.Some? && Allowed(c.s, MAIN, MainCode(p, c.mem).0.value)
  {
    var j := c.mem.main;
    if j < p.Workers() {
      assert PlaceOk(p, c.s, c.mem, j);
    } else {
      assert PlaceOk(p, c.s, c.mem, j - p.Workers());
    }
  }

  lemma WorkerMayCall(p: Kernel, c: Config<Mem>, i: nat)
    requires Good(p, c) && i < p.Workers() && HandleOf(i) in c.s.ctl && c.s.ctl[HandleOf(i)].User?
    ensures WorkerCode(p, c.mem, i).0.Some? && Allowed(c.s, HandleOf(i), WorkerCode(p, c.mem, i).0.value)
  {
    var h := HandleOf(i);
    assert PlaceOk(p, c.s, c.mem, i) && ThreadOk(c.s, h);
    assert forall m :: m in c.s.st.mutexes && c.s.st.mutexes[m].ownerTid == h ==> Owns(c.s, h, m);
  }

  lemma TurnGoesOn(p: Kernel, c: Config<Mem>, h: Handle) returns (l: Label)
    requires Good(p, c) && c.s.turn == Some(h) && !Finished(p, c)
    ensures CanStep(BufferCode(p), c, l)
  {
    assert h in c.s.ctl.Keys;
    if h != MAIN { assert PlaceOk(p, c.s, c.mem, h - 2) && HandleOf(h - 2) == h; }
    assert Active(c.s, h);
    if !c.s.ctl[h].User? {
      l := TurnCanStep(c.s, h);
    } else {
      NobodyAt(c.s, h);
      if h == MAIN {
        MainMayCall(p, c);
        l := CallL(h, MainCode(p, c.mem).0.value);
      } else {
        WorkerMayCall(p, c, h - 2);
        l := CallL(h, WorkerCode(p, c.mem, h - 2).0.value);
      }
    }
  }

  /** Whoever owns the mutex is not queueing for anything. */
  lemma OwnerNotBlocking(p: Kernel, c: Config<Mem>, x: Handle)
    requires Good(p, c) && Owns(c.s, x, BUFFER_MUTEX)
    ensures x in c.s.st.threads && (c.s.turn == None ==> !Stalled(c.s, x))
  {
    assert MutexOk(c.s, BUFFER_MUTEX) && ThreadOk(c.s, x);
    assert x in c.s.ctl.Keys && x != MAIN;
    assert PlaceOk(p, c.s, c.mem, x - 2) && HandleOf(x - 2) == x;
  }

  /** With no turn to take, nobody waits for the mutex: its owner could go on. */
  lemma MutexFree(p: Kernel, c: Config<Mem>)
    requires Good(p, c) && c.s.turn == None
    ensures BUFFER_MUTEX !in c.s.st.mutexes
  {
    if BUFFER_MUTEX in c.s.st.mutexes {
      var x := c.s.st.mutexes[BUFFER_MUTEX].ownerTid;
      OwnerNotBlocking(p, c, x);
    }
  }

  /** Worker `i` is gone, or sleeps unsignalled in the middle of a round. */
  ghost predicate Asleep(p: Kernel, c: Config<Mem>, i: nat)
    requires p.Ok() && i < |c.mem.locs|
  {
    if Live(c.s, HandleOf(i)) then
      && c.mem.locs[i].Test? && c.mem.locs[i].e < p.Events(i) && !Awake(c.s, c.mem, i)
      && HandleOf(i) in CondWaiters(c.s.st, QueueKey(p.Consumes(i)))
    else c.mem.locs[i] == Gone
  }

  /** With no turn to take, so is every worker. */
  lemma WorkerSleeps(p: Kernel, c: Config<Mem>, i: nat)
    requires Good(p, c) && c.s.turn == None && c.mem.main > p.Workers() && i < p.Workers()
    ensures Asleep(p, c, i)
  {
    var h := HandleOf(i);
    assert PlaceOk(p, c.s, c.mem, i);
    if Live(c.s, h) {
      assert h in c.s.st.threads && Stalled(c.s, h) && ThreadOk(c.s, h);
      MutexFree(p, c);
    }
  }

  lemma NobodyGoesOn(p: Kernel, c: Config<Mem>)
    requires Good(p, c) && c.s.turn == None
    ensures c.mem.main > p.Workers() && Live(c.s, HandleOf(c.mem.main - p.Workers() - 1))
  {
    assert Live(c.s, MAIN) && MAIN in c.s.st.threads;
    assert Stalled(c.s, MAIN) && ThreadOk(c.s, MAIN);
  }

  ghost predicate AllAsleep(p: Kernel, c: Config<Mem>)
    requires p.Ok() && |c.mem.locs| == p.Workers()
  {
    forall i: nat {:trigger Asleep(p, c, i)} :: i < p.Workers() ==> Asleep(p, c, i)
  }

  /** A side with a sleeper has nothing to do. */
  lemma SleepersHaveNothing(p: Kernel, c: Config<Mem>, i: nat)
    requires p.Ok() && |c.mem.locs| == p.Workers() && AllAsleep(p, c) && i < p.Workers() && Live(c.s, HandleOf(i))
    requires Quota(p, c.s, c.mem, p.Consumes(i))
    ensures Slack(p, c.mem, p.Consumes(i)) <= 0 && p.total > 0
  {
    forall j: nat | j < p.Workers() ensures AwakeBits(p, c.s, c.mem, p.Consumes(i))(j) == 0 { assert Asleep(p, c, j); }
    SumTwo(AwakeBits(p, c.s, c.mem, p.Consumes(i)), p.Workers(), p.Workers(), 0, 0);
    assert Asleep(p, c, i);
  }

  /** What an unfinished worker has moved falls short of its share. */
  lemma FallsShort(p: Kernel, c: Config<Mem>, i: nat)
    requires p.Ok() && i < |c.mem.locs| && Asleep(p, c, i)
    ensures var mine, all := Moved(p, c.mem)(i), AllMoved(p)(i);
      if !Live(c.s, HandleOf(i)) then mine == all else if p.Consumes(i) then mine > all else mine < all
  {
  }

  /** Not everybody can be asleep: those asleep on one side would find the other side done, and the
      balance would not come out. */
  lemma SomebodyAwake(p: Kernel, c: Config<Mem>, k: nat)
    requires p.Ok() && p.Roomy() && |c.mem.locs| == p.Workers() && Flow(p, c.mem)
    requires Quota(p, c.s, c.mem, true) && Quota(p, c.s, c.mem, false)
    requires k < p.Workers() && Live(c.s, HandleOf(k))
    ensures !AllAsleep(p, c)
  {
    if AllAsleep(p, c) {
      var mine, all := Moved(p, c.mem), AllMoved(p);
      SleepersHaveNothing(p, c, k);
      AllMovedBalance(p);
      forall i: nat | i < p.Workers()
        ensures mine(i) == all(i) || (p.Consumes(i) == p.Consumes(k) && if p.Consumes(k) then mine(i) > all(i) else mine(i) < all(i))
      {
        FallsShort(p, c, i);
        if Live(c.s, HandleOf(i)) { SleepersHaveNothing(p, c, i); }
      }
      FallsShort(p, c, k);
      if p.Consumes(k) {
        SumLess(all, mine, p.Workers(), k);
      } else {
        SumLess(mine, all, p.Workers(), k);
      }
      assert false;
    }
  }

  /** The turn is never lost. */
  lemma SomebodyGoesOn(p: Kernel, c: Config<Mem>)
    requires Good(p, c) && p.Roomy()
    ensures c.s.turn.Some?
  {
    if c.s.turn == None {
      NobodyGoesOn(p, c);
      SomebodyAwake(p, c, c.mem.main - p.Workers() - 1);
      forall i: nat | i < p.Workers() ensures Asleep(p, c, i) { WorkerSleeps(p, c, i); }
    }
  }

  /** The kernel never gets stuck: in every reachable state some step is possible, unless main has
      finished. */
  lemma NeverStuck(p: Kernel, tape: Tape, cs: seq<Config<Mem>>, ls: seq<Label>)
    requires p.Ok() && p.Roomy() && RunOf(BufferCode(p), MAIN, StartMem(p), tape, cs, ls)
    ensures Finished(p, cs[|ls|]) || exists l :: CanStep(BufferCode(p), cs[|ls|], l)
  {
    RunGood(p, tape, cs, ls, |ls|);
    SomebodyGoesOn(p, cs[|ls|]);
    if !Finished(p, cs[|ls|]) {
      var l := TurnGoesOn(p, cs[|ls|], cs[|ls|].s.turn.value);
    }
  }

  /** A run that cannot go on has finished, with every worker joined, and returns 0. */
  lemma EndsWithZero(p: Kernel, tape: Tape, cs: seq<Config<Mem>>, ls: seq<Label>)
    requires p.Ok() && p.Roomy() && RunOf(BufferCode(p), MAIN, StartMem(p), tape, cs, ls)
    requires forall l :: !CanStep(BufferCode(p), cs[|ls|], l)
    ensures Finished(p, cs[|ls|]) && cs[|ls|].mem.count == 0 && cs[|ls|].s.ctl.Keys == {MAIN}
  {
    NeverStuck(p, tape, cs, ls);
    RunGood(p, tape, cs, ls, |ls|);
    ReturnsZero(p, cs[|ls|]);
  }

  // ---------------------------------------------------------------- a queue of size 0

  /** Nobody has moved an item, or returned. */
  ghost predicate NothingMoved(mem: Mem) {
    forall i :: 0 <= i < |mem.locs| ==> mem.locs[i] == Top(0) || (mem.locs[i].Test? && mem.locs[i].e == 0)
  }

  lemma {:induction false} RunMovesNothing(p: Kernel, tape: Tape, cs: seq<Config<Mem>>, ls: seq<Label>, i: nat)
    requires p.Ok() && !p.Roomy() && RunOf(BufferCode(p), MAIN, StartMem(p), tape, cs, ls) && i <= |ls|
    ensures NothingMoved(cs[i].mem)
  {
    if i > 0 {
      RunMovesNothing(p, tape, cs, ls, i - 1);
      RunGood(p, tape, cs, ls, i - 1);
      assert CanStep(BufferCode(p), cs[i - 1], ls[i - 1]);
      CallMovesNothing(p, cs[i - 1].mem, ls[i - 1].h);
    }
  }

  lemma FinishedMoved(p: Kernel, c: Config<Mem>)
    requires Good(p, c) && Finished(p, c)
    ensures !NothingMoved(c.mem)
  {
    assert PlaceOk(p, c.s, c.mem, 0);
    assert c.mem.locs[0] == Gone;
  }

  lemma RoundsToMake(p: Kernel, i: nat)
    requires p.Ok() && p.total > 0
    ensures p.Events(i) > 0
  {
    Divides(p.total, p.producers);
    Divides(p.total, p.consumers);
  }

  lemma WorkerMovesNothing(p: Kernel, mem: Mem, i: nat)
    requires p.Ok() && !p.Roomy() && NothingMoved(mem) && mem.count == 0 && i < |mem.locs|
    ensures NothingMoved(WorkerCode(p, mem, i).1)
  {
    RoundsToMake(p, i);
    var loc := WorkerCode(p, mem, i).1.locs[i];
    assert loc.Test? && loc.e == 0 && WorkerCode(p, mem, i).1.locs == mem.locs[i := loc];
  }

  lemma CallMovesNothing(p: Kernel, mem: Mem, h: Handle)
    requires p.Ok() && !p.Roomy() && NothingMoved(mem) && mem.count == 0
    ensures NothingMoved(BufferCode(p)(mem, h, 0).1)
  {
    if h != MAIN && 2 <= h < |mem.locs| + 2 {
      WorkerMovesNothing(p, mem, h - 2);
      assert BufferCode(p)(mem, h, 0) == WorkerCode(p, mem, h - 2);
    } else if h == MAIN {
      assert BufferCode(p)(mem, h, 0) == MainCode(p, mem);
      assert MainCode(p, mem).1.locs == mem.locs;
    } else {
      assert BufferCode(p)(mem, h, 0).1 == mem;
    }
  }

  /** With a queue of size 0 and something to put in it, no run finishes or moves an item. */
  lemma EmptyQueueNeverFinishes(p: Kernel, tape: Tape, cs: seq<Config<Mem>>, ls: seq<Label>)
    requires p.Ok() && !p.Roomy() && RunOf(BufferCode(p), MAIN, StartMem(p), tape, cs, ls)
    ensures !Finished(p, cs[|ls|]) && NothingMoved(cs[|ls|].mem)
  {
    RunMovesNothing(p, tape, cs, ls, |ls|);
    RunGood(p, tape, cs, ls, |ls|);
    if Finished(p, cs[|ls|]) { FinishedMoved(p, cs[|ls|]); }
  }

  lemma MainWaits(p: Kernel, c: Config<Mem>)
    requires Good(p, c) && c.s.turn == None
    ensures T(c.s.st, MAIN).isBlocking
  {
    assert Live(c.s, MAIN) && MAIN in c.s.st.threads;
    assert Stalled(c.s, MAIN);
  }

  /** And every such run that cannot go on ends with each worker queueing on its condition, flagged as
      blocking, and main waiting to join: they wait for ever. */
  lemma EmptyQueueWaits(p: Kernel, tape: Tape, cs: seq<Config<Mem>>, ls: seq<Label>, i: nat)
    requires p.Ok() && !p.Roomy() && RunOf(BufferCode(p), MAIN, StartMem(p), tape, cs, ls)
    requires (forall l :: !CanStep(BufferCode(p), cs[|ls|], l)) && i < p.Workers()
    ensures var s := cs[|ls|].s;
      && HandleOf(i) in CondWaiters(s.st, p.Waits(i)) && T(s.st, HandleOf(i)).isBlocking
      && T(s.st, MAIN).isBlocking && s.turn == None
  {
    var c := cs[|ls|];
    EmptyQueueNeverFinishes(p, tape, cs, ls);
    RunGood(p, tape, cs, ls, |ls|);
    if c.s.turn.Some? {
      var l := TurnGoesOn(p, c, c.s.turn.value);
    }
    NobodyGoesOn(p, c);
    MainWaits(p, c);
    WorkerSleeps(p, c, i);
    assert c.mem.locs[i] != Gone;
    QueuedHere(c.s, HandleOf(i), OnCond(p.Waits(i)));
  }

  /** The kernel finishes whatever happens, exactly when its queue can hold something or it has
      nothing to put in it. */
  lemma FinishesWhen(p: Kernel, tape: Tape, cs: seq<Config<Mem>>, ls: seq<Label>)
    requires p.Ok() && RunOf(BufferCode(p), MAIN, StartMem(p), tape, cs, ls)
    requires forall l :: !CanStep(BufferCode(p), cs[|ls|], l)
    ensures Finished(p, cs[|ls|]) <==> p.Roomy()
  {
    if p.Roomy() {
      NeverStuck(p, tape, cs, ls);
    } else {
      EmptyQueueNeverFinishes(p, tape, cs, ls);
    }
  }
}
