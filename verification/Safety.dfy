/** What the invariant says about every reachable state. */
module Safety {
  import opened Prelude
  import opened StateModel
  import opened Machine
  import opened Invariant
  import opened Preservation

  /** A run: each state follows from the one before by an enabled step. */
  ghost predicate Run(states: seq<Machine>, labels: seq<Label>, main: Handle, tape: Tape) {
    && |states| == |labels| + 1
    && main != 0 && states[0] == Init(main)
    && forall i {:trigger labels[i]} :: 0 <= i < |labels| ==> Enabled(states[i], labels[i]) && states[i + 1] == Next(states[i], labels[i], tape)
  }

  lemma {:induction false} RunInv(states: seq<Machine>, labels: seq<Label>, main: Handle, tape: Tape, i: nat)
    requires Run(states, labels, main, tape) && i <= |labels|
    ensures Inv(states[i])
  {
    if i == 0 {
      InitInv(main);
    } else {
      RunInv(states, labels, main, tape, i - 1);
      assert Enabled(states[i - 1], labels[i - 1]);
      KeepNext(states[i - 1], labels[i - 1], tape);
    }
  }

  /** At most one thread ever holds the turn or has its wake-up under way; no signal is lost or
      sent twice; no real lock taken under GMTX blocks and no real unlock fails; no StartArg is
      touched after it was freed. */
  lemma SingleTurn(states: seq<Machine>, labels: seq<Label>, main: Handle, tape: Tape, i: nat, a: Handle, b: Handle)
    requires Run(states, labels, main, tape) && i <= |labels|
    ensures Active(states[i], a) && Active(states[i], b) ==> a == b
    ensures states[i].faults == {}
  {
    RunInv(states, labels, main, tape, i);
  }

  /** A thread is flagged as blocking exactly when it stands in a queue, that queue is unique,
      and nobody but live threads stands in queues. */
  lemma QueueExclusive(s: Machine, h: Handle, q: Queue, r: Queue)
    requires Inv(s)
    ensures InQueue(s, q, h) ==> Live(s, h) && T(s.st, h).isBlocking
    ensures InQueue(s, q, h) && InQueue(s, r, h) ==> q == r
    ensures Live(s, h) && T(s.st, h).isBlocking ==> InQueue(s, QueueOf(s.ctl[h]), h)
  {
    QueuedHere(s, h, q);
    QueuedHere(s, h, r);
    if Live(s, h) { assert ThreadOk(s, h); }
  }

  lemma QueuedHere(s: Machine, h: Handle, q: Queue)
    requires Inv(s)
    ensures InQueue(s, q, h) ==> Live(s, h) && QueueOf(s.ctl[h]) == q && T(s.st, h).isBlocking
  {
    if InQueue(s, q, h) {
      match q {
        case OnMutex(m) => assert MutexOk(s, m);
        case OnCond(c) => assert CondOk(s, c);
        case OnBarrier(b) => assert BarrierOk(s, b);
        case OnJoin(t) => assert JoinOk(s, t);
      }
      assert ThreadOk(s, h);
    }
  }

  /** Each queue lists a thread at most once. */
  lemma QueuesDistinct(s: Machine, k: Key)
    requires Inv(s)
    ensures k in s.st.mutexes ==> Distinct(s.st.mutexes[k].waiters)
    ensures Distinct(CondWaiters(s.st, k))
    ensures k in s.st.barriers ==> Distinct(s.st.barriers[k].waiters)
    ensures Distinct(s.st.threads)
  {
    assert k in s.st.mutexes ==> MutexOk(s, k);
    assert k in s.st.conds ==> CondOk(s, k);
    assert k in s.st.barriers ==> BarrierOk(s, k);
  }

  /** Whoever the scheduler looks up has a record. */
  lemma LookupsSucceed(s: Machine, h: Handle, q: Queue)
    requires Inv(s)
    ensures h in s.st.threads || InQueue(s, q, h) ==> h in s.st.info
    ensures Live(s, h) && T(s.st, h).joiner.Some? ==> T(s.st, h).joiner.value in s.st.info
  {
    QueuedHere(s, h, q);
    if Live(s, h) {
      assert ThreadOk(s, h) && JoinOk(s, h);
      if T(s.st, h).joiner.Some? { assert ThreadOk(s, T(s.st, h).joiner.value); }
    }
  }

  // ---------------------------------------------------------------- deadlock

  /** No false deadlock: when nobody holds the turn, every thread stands in a queue, unless some
      thread exited while a child was still pending; then only that child may be left out. */
  lemma NoFalseDeadlock(s: Machine, h: Handle)
    requires Inv(s) && (forall x :: x in s.ctl ==> !Active(s, x)) && Live(s, h)
    ensures T(s.st, h).isBlocking || (s.log.strayExit && s.st.pendingChild == Some(h))
    ensures T(s.st, h).isBlocking ==> InQueue(s, QueueOf(s.ctl[h]), h)
  {
    assert s.turn.Some? ==> Active(s, s.turn.GetOr(0));
    assert Stalled(s, h) && ThreadOk(s, h);
  }

  /** Conversely, whoever holds the turn can take a step, or some child can step for it:
      nothing but a call of the program itself is ever refused. */
  lemma TurnCanStep(s: Machine, h: Handle) returns (l: Label)
    requires Inv(s) && s.turn == Some(h) && !s.ctl[h].User?
    requires s.ctl[h].At? && s.ctl[h].phase.Go? && s.ctl[h].k.BarrierMake? ==> Enabled(s, StepL(h))
    ensures Enabled(s, l) && !l.CallL?
  {
    assert Active(s, h) && ThreadOk(s, h);
    if !s.ctl[h].At? { NobodyAt(s, h); }
    match s.ctl[h]
    case At(_, _) => l := StepL(h);
    case Waiting(_, _) => l := ResumeL(h);
    case RealJoining(_) => l := JoinReturnL(h);
    case DrainWaiting(c, _, _) =>
      assert Newborn(s, c) && ThreadOk(s, c);
      l := if s.args[c] then ResumeL(h) else RegisterL(c);
  }

  /** Besides a child's registration, only the turn holder can step. */
  lemma OnlyTurnSteps(s: Machine, l: Label)
    requires Inv(s) && Enabled(s, l) && !l.RegisterL?
    ensures s.turn == Some(l.h)
  {
    assert Active(s, l.h) <==> s.turn == Some(l.h);
    assert Live(s, l.h) && ThreadOk(s, l.h);
  }

  lemma NobodyAt(s: Machine, h: Handle)
    requires Inv(s) && s.turn == Some(h) && !s.ctl[h].At?
    ensures GmtxFree(s)
  {
    forall x | x in s.ctl ensures !s.ctl[x].At? { assert Active(s, x) <==> s.turn == Some(x); }
  }

  /** Nobody but a pending child could go on once `h` is gone. */
  ghost predicate LastOut(s: Machine, h: Handle) {
    && s.st.pendingChild.Some?
    && T(s.st, h).joiner == None
    && forall x {:trigger Live(s, x)} :: Live(s, x) && x != h && s.st.pendingChild != Some(x) ==> T(s.st, x).isBlocking
  }

  ghost predicate Stranded(s: Machine, x: Handle) {
    s.turn == None && Live(s, x) && !T(s.st, x).isBlocking
  }

  /** Leaving strands a thread exactly when a child is pending and nobody else could go on. */
  lemma ExitStrands(s: Machine, h: Handle, tape: Tape)
    requires Inv(s) && h in s.ctl && s.ctl[h].User? && Allowed(s, h, Exit)
    ensures (exists x :: Stranded(CallExit(s, h, tape), x)) <==> LastOut(s, h)
  {
    var s' := CallExit(s, h, tape);
    if LastOut(s, h) {
      StrandsPending(s, h, tape);
    }
    if x :| Stranded(s', x) {
      StrandedMeans(s, h, tape, x);
    }
  }

  lemma StrandsPending(s: Machine, h: Handle, tape: Tape)
    requires Inv(s) && h in s.ctl && s.ctl[h].User? && Allowed(s, h, Exit) && LastOut(s, h)
    ensures Stranded(CallExit(s, h, tape), s.st.pendingChild.value)
  {
    ExitLeaves(s, h, tape);
    Runner(s, h);
    var s' := CallExit(s, h, tape);
    var c := s.st.pendingChild.value;
    assert Newborn(s, c) && ThreadOk(s, c);
    DepartedRecord(s, h, c);
    if s'.turn.Some? {
      var n := s'.turn.value;
      assert Live(s, n) && ThreadOk(s, n);
      DepartedRecord(s, h, n);
    }
  }

  lemma StrandedMeans(s: Machine, h: Handle, tape: Tape, x: Handle)
    requires Inv(s) && h in s.ctl && s.ctl[h].User? && Allowed(s, h, Exit) && Stranded(CallExit(s, h, tape), x)
    ensures LastOut(s, h)
  {
    hide PointOk, PhaseOk, MutexOk, CondOk, BarrierOk, JoinOk, Choose;
    ExitLeaves(s, h, tape);
    KeepExit(s, h, tape);
    Runner(s, h);
    var s' := CallExit(s, h, tape);
    assert Stalled(s', x);
    assert Newborn(s, x) && ThreadOk(s, x);
    forall y | Live(s, y) && y != h && y != x ensures T(s.st, y).isBlocking && QueueOf(s.ctl[y]) != OnJoin(h) {
      DepartedRecord(s, h, y);
      Others(s, h, y);
      assert Live(s', y) && Stalled(s', y);
    }
    if T(s.st, h).joiner.Some? {
      JoinerSleeps(s, h, T(s.st, h).joiner.value);
    }
  }

  lemma ExtendRun(states: seq<Machine>, labels: seq<Label>, main: Handle, tape: Tape, l: Label)
    requires Run(states, labels, main, tape) && Enabled(states[|labels|], l)
    ensures Run(states + [Next(states[|labels|], l, tape)], labels + [l], main, tape)
  {
  }

  /** Main calling create, about to create, and back in user code with its child. */
  function CreateCalled(): Machine { Call(Init(1), 1, Create(2), _ => 0) }
  function CreateDrained(): Machine { StepDrain(CreateCalled(), 1, false, CreateBody(2)) }
  function WithChild(): Machine { StepCreate(CreateDrained(), 1, 2) }

  lemma ChildCreated(tape: Tape)
    ensures Run([Init(1), CreateCalled(), CreateDrained(), WithChild()], [CallL(1, Create(2)), StepL(1), StepL(1)], 1, tape)
    ensures WithChild().ctl == map[1 := User(0), 2 := Starting] && WithChild().st.pendingChild == Some(2)
    ensures WithChild().st.mutexes == map[] && T(WithChild().st, 1).joiner == None && WithChild().log.cond.entryDepth == map[]
  {
    assert CreateCalled().ctl == map[1 := At(Drain(false), CreateBody(2))];
    assert CreateDrained().ctl == map[1 := At(Go, CreateBody(2))];
  }

  lemma ChildIsLast(tape: Tape)
    ensures Inv(WithChild()) && Enabled(WithChild(), CallL(1, Exit)) && LastOut(WithChild(), 1)
    ensures Call(WithChild(), 1, Exit, tape) == CallExit(WithChild(), 1, tape) && WithChild().st.pendingChild == Some(2)
  {
    ChildCreated(tape);
    RunInv([Init(1), CreateCalled(), CreateDrained(), WithChild()], [CallL(1, Create(2)), StepL(1), StepL(1)], 1, tape, 3);
    hide CreateCalled, CreateDrained, WithChild;
    var s := WithChild();
    assert s.log.cond.entryDepth - {1} == s.log.cond.entryDepth;
    assert Forget(s, 1) == s;
  }

  /** Threads are stranded: main creates a thread and exits at once; nobody has the turn, and the
      child is not blocking, yet nothing will ever wake it. */
  lemma ChildStranded(tape: Tape) returns (s: Machine)
    ensures Run([Init(1), CreateCalled(), CreateDrained(), WithChild()] + [s], [CallL(1, Create(2)), StepL(1), StepL(1)] + [CallL(1, Exit)], 1, tape)
    ensures Stranded(s, 2)
  {
    ChildCreated(tape);
    ChildIsLast(tape);
    hide CreateCalled, CreateDrained, WithChild, Inv, LastOut, Stranded, Call, CallExit;
    s := Call(WithChild(), 1, Exit, tape);
    StrandsPending(WithChild(), 1, tape);
    ExtendRun([Init(1), CreateCalled(), CreateDrained(), WithChild()], [CallL(1, Create(2)), StepL(1), StepL(1)], 1, tape, CallL(1, Exit));
  }

  // ---------------------------------------------------------------- mutexes

  /** The real mutex is held by the recorded owner at the recorded depth; a mutex handed to a
      waiter that has not resumed has depth 0 and is free in reality; an unlocked one is free. */
  lemma RealAgrees(s: Machine, m: Key)
    requires Inv(s)
    ensures m in s.held <==> m in s.st.mutexes && s.st.mutexes[m].recursiveCount > 0
    ensures m in s.held ==> s.held[m] == RealMutex(s.st.mutexes[m].ownerTid, s.st.mutexes[m].recursiveCount)
    ensures m in s.st.mutexes && s.st.mutexes[m].recursiveCount == 0 ==>
              var w := s.st.mutexes[m].ownerTid; Live(s, w) && QueueOf(s.ctl[w]) == OnMutex(m) && !T(s.st, w).isBlocking
    ensures m in s.st.mutexes ==> s.st.mutexes[m].recursiveCount >= 0
  {
    if m in s.st.mutexes {
      assert MutexOk(s, m);
      assert ThreadOk(s, s.st.mutexes[m].ownerTid);
    }
  }

  /** Whoever unlocks holds the mutex at depth 1 or more, so the count never underflows. */
  lemma UnlockHasDepth(s: Machine, h: Handle, m: Key)
    requires Inv(s) && h in s.ctl && (s.ctl[h].User? || (s.ctl[h].At? && s.ctl[h].k.CondRelease?))
    requires m in s.st.mutexes && s.st.mutexes[m].ownerTid == T(s.st, h).tid
    ensures s.st.mutexes[m].recursiveCount >= 1
  {
    assert MutexOk(s, m) && ThreadOk(s, h);
  }

  /** The mutex_lock loop runs at most twice: whoever comes back to it was given the mutex,
      takes it at depth 1 and leaves. */
  lemma SecondPassTakes(s: Machine, h: Handle, m: Key, tape: Tape)
    requires Inv(s) && h in s.ctl
    requires (s.ctl[h] == At(Go, LockCheck(m)) && !T(s.st, h).isBlocking) || s.ctl[h] == At(Go, LockAgain(m))
    ensures var s' := Step(s, h, tape);
      && s'.ctl[h] == User(0)
      && m in s'.st.mutexes && s'.st.mutexes[m].ownerTid == h && s'.st.mutexes[m].recursiveCount == 1
      && m in s'.held && s'.held[m] == RealMutex(h, 1)
  {
    Runner(s, h);
    assert MutexOk(s, m);
  }

  // ---------------------------------------------------------------- start-up and turns

  /** Only a registered thread runs user code or owns a mutex; at most one live thread has not
      finished its start-up, and its StartArg is the only one allocated. */
  lemma StartUp(s: Machine, h: Handle, c: Handle, d: Handle, m: Key)
    requires Inv(s)
    ensures h in s.ctl && (s.ctl[h].User? || s.ctl[h].At?) ==> T(s.st, h).tid == h && h != 0 && T(s.st, h).startupDone
    ensures m in s.st.mutexes ==> s.st.mutexes[m].ownerTid != 0
    ensures Live(s, c) ==> (!T(s.st, c).startupDone <==> c in s.args)
    ensures c in s.args && d in s.args ==> c == d
    ensures Live(s, h) && s.turn.Some? && s.turn != Some(h) && s.ctl[h] != Starting ==> T(s.st, h).isInRschedWait
  {
    if h in s.ctl && !s.ctl[h].Exited? {
      assert ThreadOk(s, h) && (Active(s, h) <==> s.turn == Some(h));
      if s.turn.Some? && s.turn != Some(h) { Others(s, s.turn.value, h); }
    }
    if m in s.st.mutexes { assert MutexOk(s, m) && ThreadOk(s, s.st.mutexes[m].ownerTid); }
    if Live(s, c) { assert ThreadOk(s, c); }
    if s.turn.Some? && Live(s, s.turn.value) { assert ThreadOk(s, s.turn.value); }
    assert c in s.args ==> Newborn(s, c);
    assert d in s.args ==> Newborn(s, d);
  }

  /** A scheduling point leaves the turn where it is exactly when nobody else is eligible. */
  lemma SwitchKeepsTurn(s: Machine, h: Handle, k: Point, tape: Tape)
    requires Inv(s) && h in s.ctl && s.ctl[h] == At(Switch, k)
    ensures StepSwitch(s, h, k, tape).turn == Some(h) <==> forall x :: x in s.st.threads ==> !Eligible(s.st, x)
    ensures StepSwitch(s, h, k, tape).turn.Some?
  {
    Runner(s, h);
    AlreadyStarted(s, h);
    assert !Eligible(s.st, h);
    var (st1, next) := Choose(s.st, tape);
    if |s.st.threads| <= 1 {
      forall x | x in s.st.threads ensures x == h {}
    } else if next.None? {
    } else {
      Others(s, h, next.value);
    }
  }

  /** While only two started threads are not blocking, each hands the turn to the other, whatever is drawn. */
  lemma TwoAlternate(s: Machine, a: Handle, b: Handle, k: Point, tape: Tape)
    requires Inv(s) && a in s.ctl && s.ctl[a] == At(Switch, k)
    requires Live(s, b) && b != a && !T(s.st, b).isBlocking && T(s.st, b).startupDone
    requires forall x :: Live(s, x) && x != a && x != b ==> T(s.st, x).isBlocking || !T(s.st, x).startupDone
    ensures StepSwitch(s, a, k, tape).turn == Some(b)
  {
    Runner(s, a);
    AlreadyStarted(s, a);
    Others(s, a, b);
    assert Eligible(s.st, b) && a in s.st.threads && b in s.st.threads;
    TwoMembers(s.st.threads, a, b);
    var (st1, next) := Choose(s.st, tape);
    assert Live(s, next.value) && !Eligible(s.st, a);
    assert next.value == b;
  }
}
