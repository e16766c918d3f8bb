module Preservation {
  import opened Prelude
  import opened StateModel
  import opened Machine
  import opened Invariant

  /** Queues, owners and joiners stay, and every thread keeps its place in them. */
  ghost predicate Calm(s: Machine, s': Machine) {
    && s'.st.mutexes == s.st.mutexes
    && s'.st.recursiveMutexes == s.st.recursiveMutexes
    && s'.st.conds == s.st.conds
    && s'.st.barriers == s.st.barriers
    && s'.held == s.held
    && s'.ctl.Keys == s.ctl.Keys
    && forall x {:trigger CalmThread(s, s', x)} :: x in s.ctl ==> CalmThread(s, s', x)
  }

  ghost predicate CalmThread(s: Machine, s': Machine, x: Handle)
    requires x in s.ctl && x in s'.ctl
  {
    && (QueueOf(s'.ctl[x]) == QueueOf(s.ctl[x]) || Loose(s, x))
    && s'.ctl[x].Exited? == s.ctl[x].Exited?
    && (s'.ctl[x].Starting? ==> s.ctl[x].Starting?)
    && T(s'.st, x).joiner == T(s.st, x).joiner
  }

  /** A thread in no queue and with no hand-over to collect. */
  ghost predicate Loose(s: Machine, x: Handle)
    requires x in s.ctl
  {
    !T(s.st, x).isBlocking && !QueueOf(s.ctl[x]).OnMutex?
  }

  lemma CalmQueues(s: Machine, s': Machine)
    requires Calm(s, s') && Queues(s) && Threads(s)
    ensures Queues(s')
  {
    forall m | m in s'.st.mutexes ensures MutexOk(s', m) {
      assert MutexOk(s, m) && CalmThread(s, s', s.st.mutexes[m].ownerTid);
      forall w | w in s.st.mutexes[m].waiters ensures Live(s', w) && QueueOf(s'.ctl[w]) == OnMutex(m) {
        assert CalmThread(s, s', w) && ThreadOk(s, w);
      }
    }
    forall c | c in s'.st.conds ensures CondOk(s', c) {
      assert CondOk(s, c);
      forall w | w in CondWaiters(s.st, c) ensures Live(s', w) && QueueOf(s'.ctl[w]) == OnCond(c) {
        assert CalmThread(s, s', w) && ThreadOk(s, w);
      }
    }
    forall b | b in s'.st.barriers ensures BarrierOk(s', b) {
      assert BarrierOk(s, b);
      forall w | w in s.st.barriers[b].waiters ensures Live(s', w) && QueueOf(s'.ctl[w]) == OnBarrier(b) {
        assert CalmThread(s, s', w) && ThreadOk(s, w);
      }
    }
    forall t | t in s'.ctl ensures JoinOk(s', t) {
      assert JoinOk(s, t) && CalmThread(s, s', t);
      if JoinerOf(s, t, T(s.st, t).joiner.GetOr(0)) {
        assert CalmThread(s, s', T(s.st, t).joiner.value) && ThreadOk(s, T(s.st, t).joiner.value);
      }
    }
  }

  /** While somebody has the turn, everybody else is asleep. */
  lemma Others(s: Machine, h: Handle, x: Handle)
    requires Inv(s) && s.turn == Some(h) && Live(s, x) && x != h
    ensures ThreadOk(s, x) && (s.ctl[x].Starting? || (s.ctl[x].Waiting? && !s.ctl[x].signalled))
  {
    assert ThreadOk(s, x) && (Active(s, x) <==> s.turn == Some(x));
  }

  lemma SameQueue(s: Machine, s': Machine, x: Handle)
    requires Calm(s, s') && x in s.ctl
    ensures InQueue(s', QueueOf(s.ctl[x]), x) == InQueue(s, QueueOf(s.ctl[x]), x)
  {
    var q := QueueOf(s.ctl[x]);
    if q.OnJoin? && q.t in s.ctl { assert CalmThread(s, s', q.t); }
  }

  /** The same place, perhaps with the wake-up signal now on its way, and the same record. */
  ghost predicate Untouched(s: Machine, s': Machine, x: Handle)
    requires x in s.ctl && x in s'.ctl
  {
    && (s'.ctl[x] == s.ctl[x] || (s.ctl[x].Waiting? && s'.ctl[x].Waiting? && s'.ctl[x].k == s.ctl[x].k && x !in s.args && !T(s.st, x).isBlocking))
    && x in s'.st.info && T(s'.st, x) == T(s.st, x)
    && (x in s'.args) == (x in s.args) && (x in s.args ==> s'.args[x] == s.args[x])
  }

  ghost predicate JoinsGrow(s: Machine, s': Machine) {
    forall t {:trigger t in s.log.joins} :: t in s.log.joins ==> t in s'.log.joins && s'.log.joins[t] == s.log.joins[t]
  }

  /** A thread asleep in a calm step keeps what it knows. */
  lemma CalmOther(s: Machine, s': Machine, x: Handle)
    requires Calm(s, s') && JoinsGrow(s, s')
    requires Live(s, x) && ThreadOk(s, x) && (s.ctl[x].Starting? || s.ctl[x].Waiting?)
    requires Untouched(s, s', x)
    ensures ThreadOk(s', x)
  {
    SameQueue(s, s', x);
    if s.ctl[x].Waiting? {
      var k := s.ctl[x].k;
      if k.JoinCall? { assert CalmThread(s, s', k.t); }
    }
  }

  /** A calm step of the thread with the turn: what remains to check is the threads it touches. */
  lemma CalmStep(s: Machine, s': Machine, h: Handle, touched: set<Handle>)
    requires Inv(s) && s.turn == Some(h) && h in touched
    requires Calm(s, s') && JoinsGrow(s, s')
    requires forall x {:trigger Untouched(s, s', x)} :: Live(s, x) && x !in touched ==> Untouched(s, s', x)
    requires forall x {:trigger ThreadOk(s', x)} :: x in touched && Live(s', x) ==> ThreadOk(s', x)
    requires s'.st.threads == s.st.threads && Startups(s') && Turns(s') && s'.faults == {}
    ensures Inv(s')
  {
    CalmQueues(s, s');
    forall x | x in s'.st.threads ensures Live(s', x) {
      assert Live(s, x) && CalmThread(s, s', x);
    }
    forall x | Live(s', x) ensures x in s'.st.threads {
      assert CalmThread(s, s', x) && Live(s, x);
    }
    forall x | Live(s', x) ensures ThreadOk(s', x) {
      if x !in touched {
        assert CalmThread(s, s', x);
        Others(s, h, x);
        CalmOther(s, s', x);
      }
    }
  }

  lemma Runner(s: Machine, h: Handle)
    requires Inv(s) && h in s.ctl && (s.ctl[h].At? || s.ctl[h].User?)
    ensures s.turn == Some(h) && Live(s, h) && ThreadOk(s, h) && h in s.st.threads
  {
    assert Active(s, h) <==> s.turn == Some(h);
    assert ThreadOk(s, h) && Live(s, h);
  }

  /** The turn stays with `h`. */
  lemma TurnStays(s: Machine, s': Machine, h: Handle)
    requires Inv(s) && s.turn == Some(h) && s'.turn == Some(h)
    requires s'.ctl.Keys == s.ctl.Keys && h in s'.ctl
    requires forall x :: x in s.ctl && x != h ==> s'.ctl[x] == s.ctl[x]
    requires s'.ctl[h].At? || s'.ctl[h].User? || s'.ctl[h].DrainWaiting?
    ensures Turns(s')
  {
    forall x | x in s'.ctl ensures Active(s', x) <==> s'.turn == Some(x) {
      assert Active(s, x) <==> s.turn == Some(x);
    }
  }

  /** A calm step in which only `h` changes place; the pending child may be taken up, and a
      sleeping thread may be sent its signal. */
  ghost predicate Shift(s: Machine, s': Machine, h: Handle) {
    && s.turn == Some(h) && Live(s, h)
    && s'.ctl.Keys == s.ctl.Keys && Live(s', h) && !s'.ctl[h].Starting? && !s'.ctl[h].RealJoining?
    && s'.st == s.st.(info := s'.st.info, pendingChild := s'.st.pendingChild, draws := s'.st.draws)
    && s'.args == s.args && s'.held == s.held && s'.faults == s.faults && JoinsGrow(s, s')
    && (forall x {:trigger Untouched(s, s', x)} :: Live(s, x) && x != h ==> Untouched(s, s', x))
    && (forall x {:trigger s'.ctl[x]} :: x in s.ctl && s.ctl[x].Exited? ==> s'.ctl[x].Exited? && T(s'.st, x) == T(s.st, x))
    && h in s'.st.info && T(s'.st, h) == T(s.st, h).(isInRschedWait := s'.ctl[h].Waiting?)
    && (QueueOf(s'.ctl[h]) == QueueOf(s.ctl[h]) || (Loose(s, h) && !InQueue(s, QueueOf(s'.ctl[h]), h)))
    && (PointOf(s'.ctl[h]).Some? ==> PointOk(s', h, PointOf(s'.ctl[h]).value))
    && PhaseOk(s'.ctl[h]) && !(s'.ctl[h].Waiting? && s'.ctl[h].signalled)
    && (s'.st.pendingChild == s.st.pendingChild || s'.st.pendingChild == None)
    && (DrainChild(s'.ctl[h]).Some? ==> DrainChild(s'.ctl[h]).value in s.args && s'.st.pendingChild == None)
    && (s'.ctl[h].At? && (s'.ctl[h].phase.Switch? || (s'.ctl[h].phase.Go? && s'.ctl[h].k.CreateBody?)) ==> s'.st.pendingChild == None)
    && (s'.ctl[h].At? && s'.ctl[h].phase.Go? && T(s.st, h).isBlocking ==> !Again(s'.ctl[h].k) && s'.st.pendingChild == None && Deadlocked(s'))
  }

  lemma KeepShift(s: Machine, s': Machine, h: Handle)
    requires Inv(s) && Shift(s, s', h) && Startups(s') && Turns(s')
    ensures Inv(s')
  {
    assert ThreadOk(s, h) && (Active(s, h) <==> s.turn == Some(h));
    forall x | x in s.ctl ensures CalmThread(s, s', x) {
      if Live(s, x) && x != h { assert Untouched(s, s', x); }
    }
    SameQueue(s, s', h);
    assert InQueue(s', QueueOf(s'.ctl[h]), h) == T(s.st, h).isBlocking by {
      var q := QueueOf(s'.ctl[h]);
      if q.OnJoin? && q.t in s.ctl { assert CalmThread(s, s', q.t); }
    }
    assert ThreadOk(s', h);
    CalmStep(s, s', h, {h});
  }

  /** `h` moves to another point and keeps the turn, taking no notice of the pending child. */
  ghost predicate Move(s: Machine, s': Machine, h: Handle, c: Control) {
    && h in s.ctl && (s.ctl[h].At? || s.ctl[h].User?) && (c.At? || c.User?)
    && s'.ctl == s.ctl[h := c]
    && s'.st == s.st.(draws := s'.st.draws) && s'.args == s.args && s'.held == s.held && s'.turn == s.turn && s'.faults == s.faults
    && JoinsGrow(s, s')
    && DrainChild(c).None? && DrainChild(s.ctl[h]).None?
    && (QueueOf(c) == QueueOf(s.ctl[h]) || (Loose(s, h) && !InQueue(s, QueueOf(c), h)))
    && (PointOf(c).Some? ==> PointOk(s', h, PointOf(c).value))
    && PhaseOk(c)
    && (c.At? && (c.phase.Switch? || (c.phase.Go? && c.k.CreateBody?)) ==> s.st.pendingChild == None)
    && (c.At? && c.phase.Go? && T(s.st, h).isBlocking ==> !Again(c.k) && s.st.pendingChild == None && Deadlocked(s))
  }

  lemma KeepMove(s: Machine, s': Machine, h: Handle, c: Control)
    requires Inv(s) && Move(s, s', h, c)
    ensures Inv(s')
  {
    Runner(s, h);
    SleepersUntouched(s, s', h);
    StartupsKept(s, s', h);
    TurnStays(s, s', h);
    if Deadlocked(s) { StalledKept(s, s'); }
    KeepShift(s, s', h);
  }

  lemma StalledKept(s: Machine, s': Machine)
    requires Deadlocked(s) && s'.st == s.st.(draws := s'.st.draws)
    ensures Deadlocked(s')
  {
    forall x | x in s'.st.threads ensures Stalled(s', x) { assert Stalled(s, x); }
  }

  lemma SleepersUntouched(s: Machine, s': Machine, h: Handle)
    requires Inv(s) && s.turn == Some(h)
    requires s'.st.info == s.st.info && s'.args == s.args && s'.ctl.Keys == s.ctl.Keys
    requires forall x :: x in s.ctl && x != h ==> s'.ctl[x] == s.ctl[x]
    ensures forall x {:trigger Untouched(s, s', x)} :: Live(s, x) && x != h ==> Untouched(s, s', x)
  {
    forall x | Live(s, x) && x != h ensures Untouched(s, s', x) { Others(s, h, x); }
  }

  lemma StartupsKept(s: Machine, s': Machine, h: Handle)
    requires Inv(s) && s.turn == Some(h) && h in s.ctl && h in s'.ctl
    requires s'.args == s.args && s'.ctl.Keys == s.ctl.Keys && Live(s', h)
    requires forall x :: x in s.ctl && x != h ==> s'.ctl[x].Exited? == s.ctl[x].Exited?
    requires s'.st.pendingChild == s.st.pendingChild
    requires DrainChild(s.ctl[h]).Some? ==> s'.turn == Some(h) && DrainChild(s'.ctl[h]) == DrainChild(s.ctl[h])
    ensures Startups(s')
  {
    forall c | c in s'.args ensures Live(s', c) && Newborn(s', c) { assert Newborn(s, c); }
  }

  // ---------------------------------------------------------------- context switches

  /** Everything but the scheduler's own record and the control points is as before. */
  ghost predicate RestSame(s: Machine, s': Machine) {
    s'.args == s.args && s'.held == s.held && s'.faults == s.faults && s'.log.joins == s.log.joins
  }

  lemma KeepTakeChild(s: Machine, s': Machine, h: Handle, c: Handle, cs: bool, k: Point)
    requires Inv(s) && h in s.ctl && s.ctl[h] == At(Drain(cs), k) && s.st.pendingChild == Some(c)
    requires RestSame(s, s') && s'.turn == s.turn
    requires s'.st == s.st.(pendingChild := None)
    requires s'.ctl == s.ctl[h := At(DrainLoop(c, cs), k)]
    ensures Inv(s')
  {
    Runner(s, h);
    SleepersUntouched(s, s', h);
    TurnStays(s, s', h);
    forall x | x in s'.args ensures Live(s', x) && Newborn(s', x) { assert Newborn(s, x); }
    KeepShift(s, s', h);
  }

  lemma KeepDrain(s: Machine, h: Handle, cs: bool, k: Point)
    requires Inv(s) && h in s.ctl && s.ctl[h] == At(Drain(cs), k)
    ensures Inv(StepDrain(s, h, cs, k))
  {
    Runner(s, h);
    if s.st.pendingChild.None? {
      KeepMove(s, StepDrain(s, h, cs, k), h, At(if cs then Switch else Go, k));
    } else {
      KeepTakeChild(s, StepDrain(s, h, cs, k), h, s.st.pendingChild.value, cs, k);
    }
  }

  lemma KeepDrainLoopWait(s: Machine, s': Machine, h: Handle, c: Handle, cs: bool, k: Point)
    requires Inv(s) && h in s.ctl && s.ctl[h] == At(DrainLoop(c, cs), k)
    requires RestSame(s, s') && s'.turn == s.turn && s'.st == s.st
    requires s'.ctl == s.ctl[h := DrainWaiting(c, cs, k)]
    ensures Inv(s')
  {
    Runner(s, h);
    SleepersUntouched(s, s', h);
    StartupsKept(s, s', h);
    TurnStays(s, s', h);
    KeepShift(s, s', h);
  }

  lemma KeepDrainLoopDone(s: Machine, s': Machine, h: Handle, c: Handle, cs: bool, k: Point)
    requires Inv(s) && h in s.ctl && s.ctl[h] == At(DrainLoop(c, cs), k) && c in s.args && s.args[c]
    requires s'.held == s.held && s'.faults == s.faults && s'.log.joins == s.log.joins
    requires s'.turn == s.turn && s'.st == SetStarted(s.st, c) && s'.args == s.args - {c}
    requires s'.ctl == s.ctl[h := At(if cs then Switch else Go, k)]
    ensures Inv(s')
  {
    Runner(s, h);
    assert Newborn(s, c) && ThreadOk(s, c);
    forall x | x in s.ctl ensures CalmThread(s, s', x) {}
    forall x | Live(s, x) && x != h && x != c ensures Untouched(s, s', x) { Others(s, h, x); }
    forall x | x in s'.args ensures Live(s', x) && Newborn(s', x) { assert Newborn(s, x); }
    TurnStays(s, s', h);
    DrainDoneThreads(s, s', h, c, cs, k);
    hide Inv, ThreadOk;
    CalmStep(s, s', h, {h, c});
  }

  lemma DrainDoneThreads(s: Machine, s': Machine, h: Handle, c: Handle, cs: bool, k: Point)
    requires Calm(s, s') && s'.log.joins == s.log.joins && h in s.ctl && s.ctl[h] == At(DrainLoop(c, cs), k)
    requires Live(s, c) && c in s.args && s.args[c] && ThreadOk(s, h) && ThreadOk(s, c)
    requires s'.turn == s.turn && s'.st == SetStarted(s.st, c) && s'.args == s.args - {c}
    requires s'.ctl == s.ctl[h := At(if cs then Switch else Go, k)]
    ensures ThreadOk(s', h) && (c in s'.ctl ==> ThreadOk(s', c))
  {
    SameQueue(s, s', h);
    SameQueue(s, s', c);
  }

  lemma KeepDrainLoop(s: Machine, h: Handle, c: Handle, cs: bool, k: Point)
    requires Inv(s) && h in s.ctl && s.ctl[h] == At(DrainLoop(c, cs), k)
    ensures Inv(StepDrainLoop(s, h, c, cs, k))
  {
    Runner(s, h);
    if !s.args[c] {
      KeepDrainLoopWait(s, StepDrainLoop(s, h, c, cs, k), h, c, cs, k);
    } else {
      assert ThreadOk(s, c) by { assert Newborn(s, c); }
      KeepDrainLoopDone(s, StepDrainLoop(s, h, c, cs, k), h, c, cs, k);
    }
  }

  /** The record fields a decision leaves alone: all but the generator position and `h`'s own wait flag. */
  ghost predicate OnlyWaitFlag(s: Machine, s': Machine, h: Handle) {
    && s'.st == s.st.(info := s'.st.info, draws := s'.st.draws)
    && h in s.st.info && h in s'.ctl && s'.st.info == s.st.info[h := s.st.info[h].(isInRschedWait := s'.ctl[h].Waiting?)]
  }

  /** `wake`: the signal goes to a sleeper, and the caller falls asleep. */
  lemma KeepHandOver(s: Machine, s': Machine, h: Handle, k: Point, next: Handle)
    requires Inv(s) && h in s.ctl && s.ctl[h] == At(Switch, k)
    requires next in s.st.threads && Eligible(s.st, next) && next in s.ctl && s.ctl[next].Waiting?
    requires RestSame(s, s') && s'.turn == Some(next) && next != h
    requires s'.ctl == s.ctl[next := Waiting(s.ctl[next].k, true)][h := Waiting(k, false)]
    requires OnlyWaitFlag(s, s', h)
    ensures Inv(s')
  {
    Runner(s, h);
    Others(s, h, next);
    forall x | Live(s, x) && x != h ensures Untouched(s, s', x) { Others(s, h, x); }
    StartupsKept(s, s', h);
    forall x | x in s'.ctl ensures Active(s', x) <==> s'.turn == Some(x) {
      assert Active(s, x) <==> s.turn == Some(x);
    }
    KeepShift(s, s', h);
  }

  /** Nobody could be woken, so everybody is stalled. */
  lemma NobodyEligible(s: Machine, h: Handle)
    requires Inv(s) && h in s.ctl && s.ctl[h].At? && T(s.st, h).isBlocking && s.st.pendingChild == None
    requires DrainChild(s.ctl[h]) == None
    requires |s.st.threads| <= 1 || forall x :: x in s.st.threads ==> !Eligible(s.st, x)
    ensures Deadlocked(s)
  {
    Runner(s, h);
    forall x | x in s.st.threads ensures Stalled(s, x) {
      if x != h {
        Others(s, h, x);
        assert x in s.args ==> Newborn(s, x);
      }
    }
  }

  lemma AlreadyStarted(s: Machine, h: Handle)
    requires Inv(s) && h in s.ctl && s.ctl[h].At?
    ensures SetStarted(s.st, h) == s.st
  {
    Runner(s, h);
    assert Active(s, h);
    assert s.st.info[h].(startupDone := true) == s.st.info[h];
  }

  lemma KeepSwitch(s: Machine, h: Handle, k: Point, tape: Tape)
    requires Inv(s) && h in s.ctl && s.ctl[h] == At(Switch, k)
    ensures Inv(StepSwitch(s, h, k, tape))
  {
    Runner(s, h);
    AlreadyStarted(s, h);
    var (st1, next) := Choose(s.st, tape);
    if |s.st.threads| <= 1 || next.None? {
      if T(s.st, h).isBlocking { NobodyEligible(s, h); }
      KeepMove(s, StepSwitch(s, h, k, tape), h, At(Go, k));
    } else {
      Others(s, h, next.value);
      KeepHandOver(s, StepSwitch(s, h, k, tape), h, k, next.value);
    }
  }

  lemma KeepWaitAlone(s: Machine, s': Machine, h: Handle, k: Point)
    requires Inv(s) && h in s.ctl && s.ctl[h].At? && s.ctl[h].phase.Go? && T(s.st, h).isBlocking
    requires QueueAt(k) == QueueOf(s.ctl[h]) && PointOk(s', h, k) && Switches(k)
    requires RestSame(s, s') && s'.turn == None && s'.st.draws == s.st.draws
    requires s'.ctl == s.ctl[h := Waiting(k, false)]
    requires OnlyWaitFlag(s, s', h)
    ensures Inv(s')
  {
    Runner(s, h);
    forall x | Live(s, x) && x != h ensures Untouched(s, s', x) { Others(s, h, x); }
    StartupsKept(s, s', h);
    forall x | x in s'.ctl ensures Active(s', x) <==> s'.turn == Some(x) {
      assert Active(s, x) <==> s.turn == Some(x);
    }
    forall x | x in s'.st.threads ensures Stalled(s', x) { assert Stalled(s, x); }
    KeepShift(s, s', h);
  }

  // ---------------------------------------------------------------- returning, resuming, registering

  lemma KeepResume(s: Machine, h: Handle)
    requires Inv(s) && Enabled(s, ResumeL(h))
    ensures Inv(Resume(s, h))
  {
    assert (Active(s, h) <==> s.turn == Some(h)) && ThreadOk(s, h);
    var s' := Resume(s, h);
    if s.ctl[h].Waiting? {
      KeepWakeUp(s, s', h, s.ctl[h].k);
    } else {
      var c := s.ctl[h];
      KeepDrainBack(s, s', h, c.child, c.cs, c.k);
    }
  }

  lemma KeepWakeUp(s: Machine, s': Machine, h: Handle, k: Point)
    requires Inv(s) && h in s.ctl && s.ctl[h] == Waiting(k, true)
    requires RestSame(s, s') && s'.turn == s.turn && s'.st.draws == s.st.draws
    requires s'.ctl == s.ctl[h := At(Go, k)]
    requires OnlyWaitFlag(s, s', h)
    ensures Inv(s')
  {
    assert (Active(s, h) <==> s.turn == Some(h)) && ThreadOk(s, h);
    forall x | Live(s, x) && x != h ensures Untouched(s, s', x) { Others(s, h, x); }
    StartupsKept(s, s', h);
    TurnStays(s, s', h);
    KeepShift(s, s', h);
  }

  lemma KeepDrainBack(s: Machine, s': Machine, h: Handle, c: Handle, cs: bool, k: Point)
    requires Inv(s) && h in s.ctl && s.ctl[h] == DrainWaiting(c, cs, k)
    requires RestSame(s, s') && s'.turn == s.turn && s'.st == s.st
    requires s'.ctl == s.ctl[h := At(DrainLoop(c, cs), k)]
    ensures Inv(s')
  {
    assert (Active(s, h) <==> s.turn == Some(h)) && ThreadOk(s, h);
    SleepersUntouched(s, s', h);
    StartupsKept(s, s', h);
    TurnStays(s, s', h);
    KeepShift(s, s', h);
  }

  lemma KeepRegister(s: Machine, h: Handle)
    requires Inv(s) && Enabled(s, RegisterL(h))
    ensures Inv(Register(s, h))
  {
    assert ThreadOk(s, h) && Live(s, h);
    KeepRegistered(s, Register(s, h), h);
  }

  lemma KeepRegistered(s: Machine, s': Machine, h: Handle)
    requires Inv(s) && h in s.ctl && s.ctl[h].Starting? && h in s.st.info && h in s.args
    requires s'.ctl == s.ctl[h := Waiting(Ret(0), false)] && s'.args == s.args[h := true]
    requires s'.held == s.held && s'.faults == s.faults && s'.log == s.log && s'.turn == s.turn
    requires s'.st == s.st.(info := s.st.info[h := T(s.st, h).(tid := h, isInRschedWait := true)])
    ensures Inv(s')
  {
    assert ThreadOk(s, h) && Live(s, h);
    forall x | x in s.ctl ensures CalmThread(s, s', x) {}
    CalmQueues(s, s');
    forall x | x in s'.ctl ensures Active(s', x) <==> s'.turn == Some(x) {
      assert Active(s, x) <==> s.turn == Some(x);
    }
    if s.turn == None { forall x | x in s'.st.threads ensures Stalled(s', x) { assert Stalled(s, x); } }
    forall c | c in s'.args ensures Live(s', c) && Newborn(s', c) { assert Newborn(s, c); }
    forall x | Live(s', x) ensures ThreadOk(s', x) && x in s'.st.threads {
      assert Live(s, x) && ThreadOk(s, x);
      SameQueue(s, s', x);
      if x != h { RegisterOther(s, s', h, x); }
    }
  }

  lemma RegisterOther(s: Machine, s': Machine, h: Handle, x: Handle)
    requires Calm(s, s') && x != h && Live(s, x) && ThreadOk(s, x)
    requires h in s.ctl && s.ctl[h].Starting? && s'.log == s.log && s'.turn == s.turn
    requires s'.ctl == s.ctl[h := Waiting(Ret(0), false)] && s'.args == s.args[h := true]
    requires s'.st == s.st.(info := s.st.info[h := T(s.st, h).(tid := h, isInRschedWait := true)])
    requires h in s.args
    ensures ThreadOk(s', x)
  {
    SameQueue(s, s', x);
    if Deadlocked(s) { forall y | y in s'.st.threads ensures Stalled(s', y) { assert Stalled(s, y); } }
  }

  // ---------------------------------------------------------------- mutexes

  /** Only mutex `m` changes hands or depth, and only `h` may move. */
  ghost predicate OnlyMutex(s: Machine, s': Machine, h: Handle, m: Key) {
    && s'.st == s.st.(mutexes := s'.st.mutexes, info := s'.st.info, draws := s'.st.draws)
    && (forall k {:trigger k in s'.st.mutexes} :: k != m ==> (k in s'.st.mutexes <==> k in s.st.mutexes))
    && (forall k {:trigger s'.st.mutexes[k]} :: k != m && k in s.st.mutexes ==> s'.st.mutexes[k] == s.st.mutexes[k])
    && (forall k {:trigger k in s'.held} :: k != m ==> (k in s'.held <==> k in s.held))
    && (forall k {:trigger s'.held[k]} :: k != m && k in s.held ==> s'.held[k] == s.held[k])
    && s'.args == s.args && s'.log.joins == s.log.joins && s'.turn == s.turn && s'.faults == s.faults
    && s.turn == Some(h) && Live(s, h)
    && s'.ctl.Keys == s.ctl.Keys && (s'.ctl[h].At? || s'.ctl[h].User?)
    && (forall x {:trigger s'.ctl[x]} :: x in s.ctl && x != h ==> s'.ctl[x] == s.ctl[x])
    && (forall x {:trigger T(s'.st, x)} :: x in s.ctl ==> T(s'.st, x).joiner == T(s.st, x).joiner)
  }

  lemma MutexQueues(s: Machine, s': Machine, h: Handle, m: Key)
    requires Inv(s) && OnlyMutex(s, s', h, m)
    requires s'.ctl[h] == s.ctl[h] || (!T(s.st, h).isBlocking && (QueueOf(s.ctl[h]) == OnMutex(m) || !QueueOf(s.ctl[h]).OnMutex?))
    requires if m in s'.st.mutexes then MutexOk(s', m) else m !in s'.held
    ensures Queues(s')
  {
    assert ThreadOk(s, h);
    forall k | k in s'.st.mutexes ensures MutexOk(s', k) {
      if k != m { assert MutexOk(s, k); }
    }
    forall c | c in s'.st.conds ensures CondOk(s', c) {
      assert CondOk(s, c);
    }
    forall b | b in s'.st.barriers ensures BarrierOk(s', b) {
      assert BarrierOk(s, b);
    }
    forall t | t in s'.ctl ensures JoinOk(s', t) {
      assert JoinOk(s, t);
      if Live(s', t) && T(s'.st, t).joiner == Some(h) { assert JoinerOf(s, t, h); }
    }
  }

  /** What a sleeper needs to see unchanged about mutex `m`. */
  ghost predicate MutexView(s: Machine, s': Machine, m: Key, x: Handle)
    requires x in s.ctl
  {
    && x in s'.st.info && T(s'.st, x).(isBlocking := T(s.st, x).isBlocking) == T(s.st, x)
    && T(s'.st, x).isBlocking == (if QueueOf(s.ctl[x]) == OnMutex(m) then MutexWaiter(s', m, x) else T(s.st, x).isBlocking)
    && (QueueOf(s.ctl[x]) == OnMutex(m) ==> HandedOver(s', m, x))
    && (m in s'.st.mutexes && s'.st.mutexes[m].ownerTid == x ==>
          QueueOf(s.ctl[x]) == OnMutex(m) || (m in s.st.mutexes && s.st.mutexes[m].ownerTid == x))
    && (T(s'.st, x).isBlocking ==> T(s.st, x).isBlocking)
  }

  lemma MutexOther(s: Machine, s': Machine, h: Handle, m: Key, x: Handle)
    requires OnlyMutex(s, s', h, m) && x != h && Live(s, x) && ThreadOk(s, x) && MutexView(s, s', m, x)
    requires s.ctl[x].Starting? || s.ctl[x].Waiting?
    ensures ThreadOk(s', x)
  {
    var q := QueueOf(s.ctl[x]);
    if q.OnJoin? && q.t in s.ctl { assert Live(s', q.t) == Live(s, q.t); }
  }

  lemma KeepMutex(s: Machine, s': Machine, h: Handle, m: Key)
    requires Inv(s) && OnlyMutex(s, s', h, m)
    requires s'.ctl[h] == s.ctl[h] || (!T(s.st, h).isBlocking && (QueueOf(s.ctl[h]) == OnMutex(m) || !QueueOf(s.ctl[h]).OnMutex?))
    requires DrainChild(s.ctl[h]) == DrainChild(s'.ctl[h])
    requires if m in s'.st.mutexes then MutexOk(s', m) else m !in s'.held
    requires ThreadOk(s', h)
    requires forall x {:trigger MutexView(s, s', m, x)} :: Live(s, x) && x != h ==> MutexView(s, s', m, x)
    ensures Inv(s')
  {
    MutexQueues(s, s', h, m);
    TurnStays(s, s', h);
    StartupsKept(s, s', h);
    forall x | Live(s', x) ensures ThreadOk(s', x) && x in s'.st.threads {
      assert Live(s, x);
      if x != h {
        Others(s, h, x);
        MutexOther(s, s', h, m, x);
      }
    }
    forall x | x in s'.st.threads ensures Live(s', x) { assert Live(s, x); }
  }

  /** The owner calls unlock from a place where it queues nowhere. */
  ghost predicate Unlocking(s: Machine, h: Handle, m: Key) {
    && Inv(s) && h in s.ctl
    && (s.ctl[h].User? || (s.ctl[h].At? && s.ctl[h].phase.Go? && s.ctl[h].k.CondRelease? && s.ctl[h].k.m == m))
    && m in s.st.mutexes && s.st.mutexes[m].ownerTid == h
  }

  ghost predicate SameButMutex(s: Machine, s': Machine) {
    && s'.ctl == s.ctl && s'.args == s.args && s'.log == s.log && s'.turn == s.turn && s'.faults == s.faults
    && s'.st == s.st.(mutexes := s'.st.mutexes, info := s'.st.info, draws := s'.st.draws)
  }

  lemma UnlockerFacts(s: Machine, h: Handle, m: Key)
    requires Unlocking(s, h, m)
    ensures s.turn == Some(h) && Live(s, h) && ThreadOk(s, h) && MutexOk(s, m) && s.st.mutexes[m].recursiveCount >= 1
    ensures !T(s.st, h).isBlocking && T(s.st, h).tid == h && m in s.held && QueueOf(s.ctl[h]) == NoQueue
  {
    Runner(s, h);
    assert MutexOk(s, m);
  }

  lemma KeepUnlockDeep(s: Machine, s': Machine, h: Handle, m: Key)
    requires Unlocking(s, h, m) && SameButMutex(s, s') && s'.st.info == s.st.info
    requires var x := s.st.mutexes[m];
      && x.recursiveCount > 1
      && s'.st.mutexes == s.st.mutexes[m := x.(recursiveCount := x.recursiveCount - 1)]
      && s'.held == s.held[m := RealMutex(h, x.recursiveCount - 1)]
    ensures Inv(s')
  {
    UnlockerFacts(s, h, m);
    forall x | Live(s, x) && x != h ensures MutexView(s, s', m, x) { assert ThreadOk(s, x); }
    KeepMutex(s, s', h, m);
  }

  lemma KeepUnlockFree(s: Machine, s': Machine, h: Handle, m: Key)
    requires Unlocking(s, h, m) && SameButMutex(s, s') && s'.st.info == s.st.info
    requires s.st.mutexes[m].recursiveCount == 1 && s.st.mutexes[m].waiters == []
    requires s'.st.mutexes == s.st.mutexes - {m} && s'.held == s.held - {m}
    ensures Inv(s')
  {
    UnlockerFacts(s, h, m);
    forall x | Live(s, x) && x != h ensures MutexView(s, s', m, x) { assert ThreadOk(s, x); }
    KeepMutex(s, s', h, m);
  }

  lemma KeepUnlockHandOver(s: Machine, s': Machine, h: Handle, m: Key, i: nat)
    requires Unlocking(s, h, m) && SameButMutex(s, s')
    requires s.st.mutexes[m].recursiveCount == 1 && i < |s.st.mutexes[m].waiters|
    requires var x := s.st.mutexes[m]; var w := x.waiters[i];
      && s'.st.mutexes == s.st.mutexes[m := SMutex(w, 0, RemoveAt(x.waiters, i))]
      && s'.st.info == s.st.info[w := T(s.st, w).(isBlocking := false)]
    requires s'.held == s.held - {m}
    ensures Inv(s')
  {
    hide CondOk, BarrierOk, JoinOk;
    HandOverBooks(s, s', h, m, i);
    forall x | Live(s, x) && x != h ensures MutexView(s, s', m, x) { assert ThreadOk(s, x); }
    KeepMutex(s, s', h, m);
  }

  /** The mutex handed over and the thread that gave it up are in order. */
  lemma HandOverBooks(s: Machine, s': Machine, h: Handle, m: Key, i: nat)
    requires Unlocking(s, h, m) && SameButMutex(s, s')
    requires s.st.mutexes[m].recursiveCount == 1 && i < |s.st.mutexes[m].waiters|
    requires var x := s.st.mutexes[m]; var w := x.waiters[i];
      && s'.st.mutexes == s.st.mutexes[m := SMutex(w, 0, RemoveAt(x.waiters, i))]
      && s'.st.info == s.st.info[w := T(s.st, w).(isBlocking := false)]
    requires s'.held == s.held - {m}
    ensures m in s'.st.mutexes && MutexOk(s', m) && h in s'.ctl && ThreadOk(s', h) && OnlyMutex(s, s', h, m)
  {
    hide CondOk, BarrierOk, JoinOk;
    UnlockerFacts(s, h, m);
    var w := s.st.mutexes[m].waiters[i];
    assert w in s.st.mutexes[m].waiters;
    assert ThreadOk(s, w);
  }

  lemma KeepUnlock(s: Machine, h: Handle, m: Key, tape: Tape)
    requires Inv(s) && h in s.ctl
    requires s.ctl[h].User? || (s.ctl[h].At? && s.ctl[h].phase.Go? && s.ctl[h].k.CondRelease? && s.ctl[h].k.m == m)
    ensures Inv(UnlockPass(s, h, m, tape).0)
  {
    Runner(s, h);
    var s' := UnlockPass(s, h, m, tape).0;
    if m in s.st.mutexes && s.st.mutexes[m].ownerTid == h {
      UnlockerFacts(s, h, m);
      var x := s.st.mutexes[m];
      if x.recursiveCount > 1 {
        KeepUnlockDeep(s, s', h, m);
      } else if x.waiters == [] {
        KeepUnlockFree(s, s', h, m);
      } else {
        var i := ChooseIndex(s.st, |x.waiters|, tape).1;
        assert x.waiters[i] in x.waiters;
        assert ThreadOk(s, x.waiters[i]);
        KeepUnlockHandOver(s, s', h, m, i);
      }
    }
  }

  /** `h` is about to run the mutex_lock loop on `m`. */
  ghost predicate Locking(s: Machine, h: Handle, m: Key) {
    && Inv(s) && h in s.ctl && s.ctl[h].At? && s.ctl[h].phase.Go?
    && !T(s.st, h).isBlocking
    && (QueueOf(s.ctl[h]) == OnMutex(m) || (!QueueOf(s.ctl[h]).OnMutex? && OwnerRelocks(s, m, h)))
  }

  ghost predicate LockedBy(s: Machine, s': Machine, h: Handle, m: Key, depth: int, waiters: seq<Handle>) {
    && s'.ctl == s.ctl[h := User(0)] && s'.args == s.args && s'.log == s.log && s'.turn == s.turn && s'.faults == s.faults
    && s'.st == s.st.(mutexes := s.st.mutexes[m := SMutex(h, depth, waiters)])
    && s'.held == s.held[m := RealMutex(h, depth)]
  }

  lemma KeepLocked(s: Machine, s': Machine, h: Handle, m: Key, depth: int, waiters: seq<Handle>)
    requires Locking(s, h, m) && LockedBy(s, s', h, m, depth, waiters)
    requires if m in s.st.mutexes
             then s.st.mutexes[m] == SMutex(h, depth - 1, waiters)
             else depth == 1 && waiters == []
    ensures Inv(s')
  {
    hide CondOk, BarrierOk, JoinOk;
    Runner(s, h);
    LockedBooks(s, s', h, m, depth, waiters);
    forall x | Live(s, x) && x != h ensures MutexView(s, s', m, x) { assert ThreadOk(s, x); }
    KeepMutex(s, s', h, m);
  }

  /** The mutex taken and the thread that took it are in order. */
  lemma LockedBooks(s: Machine, s': Machine, h: Handle, m: Key, depth: int, waiters: seq<Handle>)
    requires Locking(s, h, m) && LockedBy(s, s', h, m, depth, waiters)
    requires if m in s.st.mutexes
             then s.st.mutexes[m] == SMutex(h, depth - 1, waiters)
             else depth == 1 && waiters == []
    ensures m in s'.st.mutexes && MutexOk(s', m) && h in s'.ctl && ThreadOk(s', h) && OnlyMutex(s, s', h, m)
  {
    hide CondOk, BarrierOk, JoinOk;
    Runner(s, h);
    if m in s.st.mutexes { assert MutexOk(s, m); }
  }

  ghost predicate QueuesUp(s: Machine, s': Machine, h: Handle, m: Key) {
    && m in s.st.mutexes && s.st.mutexes[m].ownerTid != h && h !in s.st.mutexes[m].waiters
    && s'.ctl == s.ctl[h := At(Drain(true), LockCheck(m))]
    && s'.args == s.args && s'.log == s.log && s'.turn == s.turn && s'.faults == s.faults && s'.held == s.held
    && s'.st == s.st.(mutexes := s.st.mutexes[m := s.st.mutexes[m].(waiters := s.st.mutexes[m].waiters + [h])],
                      info := s.st.info[h := T(s.st, h).(isBlocking := true)])
  }

  lemma QueuesUpMutex(s: Machine, s': Machine, h: Handle, m: Key)
    requires Locking(s, h, m) && QueuesUp(s, s', h, m)
    ensures MutexOk(s', m)
  {
    Runner(s, h);
    assert MutexOk(s, m);
    DistinctAppend(s.st.mutexes[m].waiters, h);
  }

  lemma QueuesUpViews(s: Machine, s': Machine, h: Handle, m: Key)
    requires Locking(s, h, m) && QueuesUp(s, s', h, m)
    ensures ThreadOk(s', h)
    ensures forall x {:trigger MutexView(s, s', m, x)} :: Live(s, x) && x != h ==> MutexView(s, s', m, x)
  {
    Runner(s, h);
    forall x | Live(s, x) && x != h ensures MutexView(s, s', m, x) { assert ThreadOk(s, x); }
  }

  lemma KeepLockBlock(s: Machine, s': Machine, h: Handle, m: Key)
    requires Locking(s, h, m) && QueuesUp(s, s', h, m)
    ensures Inv(s')
  {
    Runner(s, h);
    QueuesUpMutex(s, s', h, m);
    QueuesUpViews(s, s', h, m);
    KeepMutex(s, s', h, m);
  }

  lemma KeepLockPass(s: Machine, h: Handle, m: Key)
    requires Locking(s, h, m)
    ensures Inv(LockPass(s, h, m))
  {
    Runner(s, h);
    var s' := LockPass(s, h, m);
    if m !in s.st.mutexes {
      KeepLocked(s, s', h, m, 1, []);
    } else {
      var x := s.st.mutexes[m];
      assert MutexOk(s, m);
      if x.ownerTid == h {
        KeepLocked(s, s', h, m, x.recursiveCount + 1, x.waiters);
      } else {
        assert h !in x.waiters;
        KeepLockBlock(s, s', h, m);
      }
    }
  }

  // ---------------------------------------------------------------- condition variables and barriers

  /** Only condition and barrier queues change, and only `h` may move. */
  ghost predicate OnlyWaiters(s: Machine, s': Machine, h: Handle) {
    && s'.st == s.st.(conds := s'.st.conds, barriers := s'.st.barriers, info := s'.st.info, draws := s'.st.draws)
    && RestSame(s, s') && s'.turn == s.turn
    && s.turn == Some(h) && Live(s, h)
    && s'.ctl.Keys == s.ctl.Keys && (s'.ctl[h].At? || s'.ctl[h].User?)
    && (forall x {:trigger s'.ctl[x]} :: x in s.ctl && x != h ==> s'.ctl[x] == s.ctl[x])
    && (forall x {:trigger T(s'.st, x)} :: x in s.ctl ==> T(s'.st, x).joiner == T(s.st, x).joiner)
  }

  /** A sleeper's record follows its queue, which it can only leave. */
  ghost predicate WaiterView(s: Machine, s': Machine, x: Handle)
    requires x in s.ctl
  {
    && x in s'.st.info
    && T(s'.st, x) == T(s.st, x).(isBlocking := InQueue(s', QueueOf(s.ctl[x]), x))
    && (T(s'.st, x).isBlocking ==> T(s.st, x).isBlocking)
  }

  lemma WaitersOther(s: Machine, s': Machine, h: Handle, x: Handle)
    requires OnlyWaiters(s, s', h) && x != h && Live(s, x) && ThreadOk(s, x) && WaiterView(s, s', x)
    requires s.ctl[x].Starting? || s.ctl[x].Waiting?
    ensures ThreadOk(s', x)
  {
    var c := s.ctl[x];
    if c.Waiting? && c.k.JoinCall? && c.k.t in s.ctl { assert Live(s', c.k.t) == Live(s, c.k.t); }
  }

  lemma WaitersQueues(s: Machine, s': Machine, h: Handle)
    requires Inv(s) && OnlyWaiters(s, s', h) && !QueueOf(s.ctl[h]).OnMutex? && !T(s.st, h).isBlocking
    requires forall c {:trigger CondOk(s', c)} :: c in s'.st.conds ==> CondOk(s', c)
    requires forall b {:trigger BarrierOk(s', b)} :: b in s'.st.barriers ==> BarrierOk(s', b)
    ensures Queues(s')
  {
    assert ThreadOk(s, h);
    forall m | m in s'.st.mutexes ensures MutexOk(s', m) { assert MutexOk(s, m); }
    forall t | t in s'.ctl ensures JoinOk(s', t) {
      assert JoinOk(s, t);
      if Live(s', t) && T(s'.st, t).joiner == Some(h) { assert JoinerOf(s, t, h); }
    }
  }

  lemma KeepWaiters(s: Machine, s': Machine, h: Handle)
    requires Inv(s) && OnlyWaiters(s, s', h) && !QueueOf(s.ctl[h]).OnMutex? && !T(s.st, h).isBlocking
    requires DrainChild(s.ctl[h]) == DrainChild(s'.ctl[h])
    requires forall c {:trigger CondOk(s', c)} :: c in s'.st.conds ==> CondOk(s', c)
    requires forall b {:trigger BarrierOk(s', b)} :: b in s'.st.barriers ==> BarrierOk(s', b)
    requires forall x {:trigger WaiterView(s, s', x)} :: Live(s, x) && x != h ==> WaiterView(s, s', x)
    requires ThreadOk(s', h)
    ensures Inv(s')
  {
    WaitersQueues(s, s', h);
    TurnStays(s, s', h);
    StartupsKept(s, s', h);
    forall x | Live(s', x) ensures ThreadOk(s', x) && x in s'.st.threads {
      assert Live(s, x);
      if x != h {
        Others(s, h, x);
        WaitersOther(s, s', h, x);
      }
    }
    forall x | x in s'.st.threads ensures Live(s', x) { assert Live(s, x); }
  }

  /** The threads of `ws` leave condition queue `c`. */
  ghost predicate LeaveCond(s: Machine, s': Machine, h: Handle, c: Key, ws: seq<Handle>) {
    && Inv(s) && h in s.ctl && s.ctl[h].User?
    && s'.ctl == s.ctl && RestSame(s, s') && s'.turn == s.turn
    && s'.st == s.st.(conds := s'.st.conds, info := s'.st.info, draws := s'.st.draws)
    && (forall k {:trigger k in s'.st.conds} :: k in s'.st.conds && k != c ==> k in s.st.conds && s'.st.conds[k] == s.st.conds[k])
    && (forall k {:trigger k in s.st.conds} :: k in s.st.conds && k != c ==> k in s'.st.conds)
    && Distinct(CondWaiters(s'.st, c))
    && (forall x {:trigger x in ws} :: x in ws ==> x in CondWaiters(s.st, c))
    && (forall x {:trigger x in CondWaiters(s'.st, c)} :: x in CondWaiters(s'.st, c) <==> x in CondWaiters(s.st, c) && x !in ws)
    && (forall x {:trigger T(s'.st, x)} ::
          && (x !in ws ==> T(s'.st, x) == T(s.st, x) && (x in s.st.info ==> x in s'.st.info))
          && (x in ws ==> x in s'.st.info && T(s'.st, x) == T(s.st, x).(isBlocking := false)))
  }

  lemma LeaveCondView(s: Machine, s': Machine, h: Handle, c: Key, ws: seq<Handle>, x: Handle)
    requires LeaveCond(s, s', h, c, ws) && Live(s, x) && ThreadOk(s, x) && CondOk(s, c)
    ensures WaiterView(s, s', x)
  {
    assert T(s'.st, x).tid == T(s.st, x).tid;
    var q := QueueOf(s.ctl[x]);
    if q.OnCond? && q.c != c { assert CondWaiters(s'.st, q.c) == CondWaiters(s.st, q.c); }
    if q.OnJoin? { assert T(s'.st, q.t).joiner == T(s.st, q.t).joiner; }
    if x in ws { assert x in CondWaiters(s.st, c); }
  }

  lemma KeepLeaveCond(s: Machine, s': Machine, h: Handle, c: Key, ws: seq<Handle>)
    requires LeaveCond(s, s', h, c, ws)
    ensures Inv(s')
  {
    Runner(s, h);
    assert CondOk(s, c);
    forall k | k in s'.st.conds ensures CondOk(s', k) {
      assert CondOk(s, k);
    }
    forall b | b in s'.st.barriers ensures BarrierOk(s', b) {
      assert BarrierOk(s, b);
    }
    forall x | Live(s, x) && x != h ensures WaiterView(s, s', x) {
      assert ThreadOk(s, x);
      LeaveCondView(s, s', h, c, ws, x);
    }
    assert h !in ws;
    assert T(s'.st, h) == T(s.st, h) && h in s'.st.info;
    KeepWaiters(s, s', h);
  }

  lemma KeepCallSignal(s: Machine, h: Handle, c: Key, tape: Tape)
    requires Inv(s) && h in s.ctl && s.ctl[h].User?
    ensures Inv(CallSignal(s, h, c, tape))
  {
    Runner(s, h);
    var s' := CallSignal(s, h, c, tape);
    var ws := CondWaiters(s.st, c);
    var s1 := s'.(ctl := s.ctl);
    if ws == [] {
      assert s1.st == s.st;
      KeepMove(s, s', h, At(Drain(true), Ret(0)));
    } else {
      var i := ChooseIndex(s.st, |ws|, tape).1;
      assert CondOk(s, c) && ws[i] in ws;
      KeepLeaveCond(s, s1, h, c, [ws[i]]);
      KeepMove(s1, s', h, At(Drain(true), Ret(0)));
    }
  }

  lemma KeepCallBroadcast(s: Machine, h: Handle, c: Key)
    requires Inv(s) && h in s.ctl && s.ctl[h].User?
    ensures Inv(CallBroadcast(s, h, c))
  {
    Runner(s, h);
    var s' := CallBroadcast(s, h, c);
    var s1 := s'.(ctl := s.ctl);
    KeepLeaveCond(s, s1, h, c, CondWaiters(s.st, c));
    KeepMove(s1, s', h, At(Drain(true), Ret(0)));
  }

  /** `h` puts itself on condition queue `c`. */
  ghost predicate JoinsCond(s: Machine, s': Machine, h: Handle, c: Key, m: Key) {
    && Inv(s) && h in s.ctl && s.ctl[h] == At(Go, CondRelease(c, m)) && OwnerRelocks(s, m, h)
    && s'.ctl == s.ctl[h := At(Drain(true), CondCheck(c, m))] && RestSame(s, s') && s'.turn == s.turn
    && s'.st == s.st.(conds := s.st.conds[c := CondWaiters(s.st, c) + [h]],
                      info := s.st.info[h := T(s.st, h).(isBlocking := true)])
  }

  lemma JoinsCondQueues(s: Machine, s': Machine, h: Handle, c: Key, m: Key)
    requires JoinsCond(s, s', h, c, m)
    ensures forall k {:trigger CondOk(s', k)} :: k in s'.st.conds ==> CondOk(s', k)
    ensures forall b {:trigger BarrierOk(s', b)} :: b in s'.st.barriers ==> BarrierOk(s', b)
  {
    Runner(s, h);
    assert CondOk(s, c);
    DistinctAppend(CondWaiters(s.st, c), h);
    forall k | k in s'.st.conds ensures CondOk(s', k) {
      assert CondOk(s, k);
    }
    forall b | b in s'.st.barriers ensures BarrierOk(s', b) {
      assert BarrierOk(s, b);
    }
  }

  lemma JoinsCondView(s: Machine, s': Machine, h: Handle, c: Key, m: Key, x: Handle)
    requires JoinsCond(s, s', h, c, m) && Live(s, x) && x != h && ThreadOk(s, x)
    ensures WaiterView(s, s', x)
  {
    var q := QueueOf(s.ctl[x]);
    if q.OnCond? && q.c != c { assert CondWaiters(s'.st, q.c) == CondWaiters(s.st, q.c); }
  }

  lemma KeepJoinsCond(s: Machine, s': Machine, h: Handle, c: Key, m: Key)
    requires JoinsCond(s, s', h, c, m)
    ensures Inv(s')
  {
    Runner(s, h);
    JoinsCondQueues(s, s', h, c, m);
    forall x | Live(s, x) && x != h ensures WaiterView(s, s', x) {
      assert ThreadOk(s, x);
      JoinsCondView(s, s', h, c, m, x);
    }
    KeepWaiters(s, s', h);
  }

  lemma UnlockLeaves(s: Machine, h: Handle, m: Key, tape: Tape)
    requires Inv(s) && h in s.ctl
    requires s.ctl[h].User? || (s.ctl[h].At? && s.ctl[h].phase.Go? && s.ctl[h].k.CondRelease? && s.ctl[h].k.m == m)
    ensures var (s', r) := UnlockPass(s, h, m, tape);
      && s'.ctl == s.ctl && RestSame(s, s'.(held := s.held)) && s'.turn == s.turn
      && (r == 0 <==> m in s.st.mutexes && s.st.mutexes[m].ownerTid == h)
      && (r == 0 ==> OwnerRelocks(s', m, h) && DepthOf(s'.st, h, m) == DepthOf(s.st, h, m) - 1)
      && (r != 0 ==> s' == s)
  {
    Runner(s, h);
    if m in s.st.mutexes && s.st.mutexes[m].ownerTid == h {
      UnlockerFacts(s, h, m);
      var x := s.st.mutexes[m];
      if x.recursiveCount > 1 {
      } else if x.waiters == [] {
      } else {
        var i := ChooseIndex(s.st, |x.waiters|, tape).1;
        assert x.waiters[i] in x.waiters;
        assert ThreadOk(s, x.waiters[i]);
      }
    }
  }

  lemma KeepCondRelease(s: Machine, h: Handle, c: Key, m: Key, tape: Tape)
    requires Inv(s) && h in s.ctl && s.ctl[h] == At(Go, CondRelease(c, m))
    ensures Inv(StepCondRelease(s, h, c, m, tape))
  {
    KeepUnlock(s, h, m, tape);
    UnlockLeaves(s, h, m, tape);
    var (s1, r) := UnlockPass(s, h, m, tape);
    if r != 0 {
      KeepMove(s1, StepCondRelease(s, h, c, m, tape), h, User(r));
    } else {
      KeepJoinsCond(s1, StepCondRelease(s, h, c, m, tape), h, c, m);
    }
  }

  lemma KeepCallUnlock(s: Machine, h: Handle, m: Key, tape: Tape)
    requires Inv(s) && h in s.ctl && s.ctl[h].User?
    ensures Inv(CallUnlock(s, h, m, tape))
  {
    KeepUnlock(s, h, m, tape);
    UnlockLeaves(s, h, m, tape);
    var (s1, r) := UnlockPass(s, h, m, tape);
    Runner(s, h);
    Runner(s1, h);
    KeepMove(s1, CallUnlock(s, h, m, tape), h, At(Drain(true), Ret(r)));
  }

  /** `h` puts itself on barrier queue `b`, which does not fill up. */
  ghost predicate JoinsBarrier(s: Machine, s': Machine, h: Handle, b: Key) {
    && Inv(s) && h in s.ctl && s.ctl[h] == At(Go, BarrierJoin(b))
    && b in s.st.barriers && |s.st.barriers[b].waiters| + 1 < s.st.barriers[b].count
    && s'.ctl == s.ctl[h := At(Drain(true), BarrierCheck(b, false))] && RestSame(s, s') && s'.turn == s.turn
    && s'.st == s.st.(barriers := s.st.barriers[b := SBarrier(s.st.barriers[b].count, s.st.barriers[b].waiters + [h])],
                      info := s.st.info[h := T(s.st, h).(isBlocking := true)])
  }

  lemma KeepJoinsBarrier(s: Machine, s': Machine, h: Handle, b: Key)
    requires JoinsBarrier(s, s', h, b)
    ensures Inv(s')
  {
    Runner(s, h);
    JoinsBarrierQueues(s, s', h, b);
    forall x | Live(s, x) && x != h ensures WaiterView(s, s', x) {
      assert ThreadOk(s, x);
      JoinsBarrierView(s, s', h, b, x);
    }
    KeepWaiters(s, s', h);
  }

  lemma JoinsBarrierView(s: Machine, s': Machine, h: Handle, b: Key, x: Handle)
    requires JoinsBarrier(s, s', h, b) && Live(s, x) && x != h && ThreadOk(s, x)
    ensures WaiterView(s, s', x)
  {
    if QueueOf(s.ctl[x]).OnCond? { assert CondWaiters(s'.st, QueueOf(s.ctl[x]).c) == CondWaiters(s.st, QueueOf(s.ctl[x]).c); }
  }

  lemma JoinsBarrierQueues(s: Machine, s': Machine, h: Handle, b: Key)
    requires JoinsBarrier(s, s', h, b)
    ensures forall k {:trigger CondOk(s', k)} :: k in s'.st.conds ==> CondOk(s', k)
    ensures forall x {:trigger BarrierOk(s', x)} :: x in s'.st.barriers ==> BarrierOk(s', x)
  {
    Runner(s, h);
    assert BarrierOk(s, b);
    DistinctAppend(s.st.barriers[b].waiters, h);
    forall k | k in s'.st.conds ensures CondOk(s', k) {
      assert CondOk(s, k);
    }
    forall x | x in s'.st.barriers ensures BarrierOk(s', x) {
      assert BarrierOk(s, x);
    }
  }

  /** Barrier `b` gets an empty queue of positive size; its waiters, and `h`, are free to go. */
  ghost predicate ResetsBarrier(s: Machine, s': Machine, h: Handle, b: Key, n: nat) {
    && Inv(s) && h in s.ctl && s.ctl[h].At? && QueueOf(s.ctl[h]) == NoQueue && DrainChild(s.ctl[h]) == None
    && h in s'.ctl && s'.ctl == s.ctl[h := s'.ctl[h]] && RestSame(s, s') && s'.turn == s.turn
    && (s'.ctl[h] == User(0) || s'.ctl[h] == At(Drain(true), BarrierCheck(b, true)))
    && n > 0
    && s'.st == s.st.(barriers := s.st.barriers[b := SBarrier(n, [])], info := s'.st.info)
    && (forall x {:trigger T(s'.st, x)} ::
          && (!BarrierWaiter(s, b, x) ==> T(s'.st, x) == T(s.st, x) && (x in s.st.info ==> x in s'.st.info))
          && (BarrierWaiter(s, b, x) ==> x in s'.st.info && T(s'.st, x) == T(s.st, x).(isBlocking := false)))
  }

  lemma ResetsBarrierView(s: Machine, s': Machine, h: Handle, b: Key, n: nat, x: Handle)
    requires ResetsBarrier(s, s', h, b, n) && Live(s, x) && ThreadOk(s, x) && x != h
    requires b in s.st.barriers ==> BarrierOk(s, b)
    ensures WaiterView(s, s', x)
  {
    assert T(s'.st, x).tid == T(s.st, x).tid;
    var q := QueueOf(s.ctl[x]);
    if q.OnCond? { assert CondWaiters(s'.st, q.c) == CondWaiters(s.st, q.c); }
    if q.OnJoin? { assert T(s'.st, q.t).joiner == T(s.st, q.t).joiner; }
  }

  lemma KeepResetsBarrier(s: Machine, s': Machine, h: Handle, b: Key, n: nat)
    requires ResetsBarrier(s, s', h, b, n)
    ensures Inv(s')
  {
    Runner(s, h);
    assert b in s.st.barriers ==> BarrierOk(s, b);
    forall k | k in s'.st.conds ensures CondOk(s', k) {
      assert CondOk(s, k);
    }
    forall x | x in s'.st.barriers ensures BarrierOk(s', x) {
      assert x != b ==> BarrierOk(s, x);
    }
    forall x | Live(s, x) && x != h ensures WaiterView(s, s', x) {
      assert ThreadOk(s, x);
      ResetsBarrierView(s, s', h, b, n, x);
    }
    assert T(s'.st, h) == T(s.st, h) && h in s'.st.info;
    KeepWaiters(s, s', h);
  }

  lemma KeepBarrierMake(s: Machine, h: Handle, b: Key, n: nat)
    requires Inv(s) && h in s.ctl && s.ctl[h] == At(Go, BarrierMake(b, n)) && Enabled(s, StepL(h))
    ensures Inv(StepBarrierMake(s, h, b, n))
  {
    Runner(s, h);
    var s' := StepBarrierMake(s, h, b, n);
    if n == 0 {
      KeepMove(s, s', h, User(EINVAL));
    } else {
      if b in s.st.barriers {
        assert BarrierOk(s, b);
        var ws := s.st.barriers[b].waiters;
        forall x | x in s.ctl ensures QueueOf(s.ctl[x]) != OnBarrier(b) { assert !UsesBarrier(s.ctl[x], b); }
        assert ws == [] || ws[0] in ws;
      }
      forall x ensures T(s'.st, x) == T(s.st, x) && !BarrierWaiter(s, b, x) {}
      KeepResetsBarrier(s, s', h, b, n);
    }
  }

  lemma ReleasesAll(s: Machine, h: Handle, b: Key)
    requires b in s.st.barriers && h in s.st.info && !T(s.st, h).isBlocking && h !in s.st.barriers[b].waiters
    requires |s.st.barriers[b].waiters| + 1 >= s.st.barriers[b].count
    ensures var st' := BarrierArrive(s.st, b, h).0;
      forall x {:trigger T(st', x)} ::
        && (!BarrierWaiter(s, b, x) ==> T(st', x) == T(s.st, x) && (x in s.st.info ==> x in st'.info))
        && (BarrierWaiter(s, b, x) ==> x in st'.info && T(st', x) == T(s.st, x).(isBlocking := false))
  {
    var x0 := s.st.barriers[b];
    var st0 := s.st.(barriers := s.st.barriers[b := SBarrier(x0.count, [])]);
    var st' := BarrierArrive(s.st, b, h).0;
    assert st' == UnblockAll(st0, x0.waiters + [h]);
    forall x
      ensures !BarrierWaiter(s, b, x) ==> T(st', x) == T(s.st, x) && (x in s.st.info ==> x in st'.info)
      ensures BarrierWaiter(s, b, x) ==> x in st'.info && T(st', x) == T(s.st, x).(isBlocking := false)
    {
      assert T(st0, x) == T(s.st, x);
      assert x in x0.waiters + [h] <==> BarrierWaiter(s, b, x) || x == h;
      if x == h { assert T(s.st, h).(isBlocking := false) == T(s.st, h); }
    }
  }

  lemma KeepBarrierJoin(s: Machine, h: Handle, b: Key)
    requires Inv(s) && h in s.ctl && s.ctl[h] == At(Go, BarrierJoin(b))
    ensures Inv(StepBarrierJoin(s, h, b))
  {
    Runner(s, h);
    var s' := StepBarrierJoin(s, h, b);
    if b !in s.st.barriers {
      KeepMove(s, s', h, User(EINVAL));
    } else {
      var x := s.st.barriers[b];
      assert BarrierOk(s, b);
      assert h !in x.waiters;
      if |x.waiters| + 1 < x.count {
        KeepJoinsBarrier(s, s', h, b);
      } else {
        assert T(s.st, h).(isBlocking := false) == T(s.st, h);
        ReleasesAll(s, h, b);
        KeepResetsBarrier(s, s', h, b, x.count);
      }
    }
  }

  // ---------------------------------------------------------------- join

  /** `h` becomes the joiner of the live thread `t`. */
  ghost predicate BecomesJoiner(s: Machine, s': Machine, h: Handle, t: Handle) {
    && Inv(s) && h in s.ctl && s.ctl[h] == At(Go, JoinCheck(t)) && Live(s, t)
    && s'.ctl == s.ctl[h := At(Drain(true), JoinCall(t))] && RestSame(s, s') && s'.turn == s.turn
    && s'.st == s.st.(info := s.st.info[t := T(s.st, t).(joiner := Some(h))][h := T(s.st, h).(isBlocking := true)])
  }

  lemma NoJoinerYet(s: Machine, h: Handle, t: Handle)
    requires Inv(s) && h in s.ctl && s.ctl[h] == At(Go, JoinCheck(t)) && Live(s, t)
    ensures T(s.st, t).joiner == None
    ensures forall x {:trigger s.ctl[x]} :: Live(s, x) && x != h ==> QueueOf(s.ctl[x]) != OnJoin(t)
  {
    Runner(s, h);
    forall x | Live(s, x) && x != h ensures QueueOf(s.ctl[x]) != OnJoin(t) { assert ThreadOk(s, x); }
    assert JoinOk(s, t);
  }

  lemma BecomesJoinerOther(s: Machine, s': Machine, h: Handle, t: Handle, x: Handle)
    requires BecomesJoiner(s, s', h, t) && Live(s, x) && x != h
    ensures ThreadOk(s', x)
  {
    Runner(s, h);
    Others(s, h, x);
    NoJoinerYet(s, h, t);
    var q := QueueOf(s.ctl[x]);
    if q.OnJoin? && q.t in s.ctl { assert Live(s', q.t) == Live(s, q.t); }
  }

  lemma BecomesJoinerQueues(s: Machine, s': Machine, h: Handle, t: Handle)
    requires BecomesJoiner(s, s', h, t)
    ensures Queues(s')
  {
    hide PointOk, PhaseOk, Roster, Startups, Turns, ThreadOk;
    Runner(s, h);
    forall m | m in s'.st.mutexes ensures MutexOk(s', m) { assert MutexOk(s, m); }
    forall c | c in s'.st.conds ensures CondOk(s', c) { assert CondOk(s, c); }
    forall b | b in s'.st.barriers ensures BarrierOk(s', b) { assert BarrierOk(s, b); }
    forall y | y in s'.ctl ensures JoinOk(s', y) { assert JoinOk(s, y); }
  }

  lemma KeepBecomesJoiner(s: Machine, s': Machine, h: Handle, t: Handle)
    requires BecomesJoiner(s, s', h, t)
    ensures Inv(s')
  {
    Runner(s, h);
    BecomesJoinerQueues(s, s', h, t);
    TurnStays(s, s', h);
    StartupsKept(s, s', h);
    forall x | Live(s', x) ensures ThreadOk(s', x) && x in s'.st.threads {
      assert Live(s, x);
      if x != h { BecomesJoinerOther(s, s', h, t, x); }
    }
    forall x | x in s'.st.threads ensures Live(s', x) { assert Live(s, x); }
  }

  lemma KeepJoinCheck(s: Machine, h: Handle, t: Handle)
    requires Inv(s) && h in s.ctl && s.ctl[h] == At(Go, JoinCheck(t))
    ensures Inv(StepJoinCheck(s, h, t))
  {
    Runner(s, h);
    if t in s.st.threads {
      assert Live(s, t);
      KeepBecomesJoiner(s, StepJoinCheck(s, h, t), h, t);
    } else {
      assert !Live(s, t);
      KeepMove(s, StepJoinCheck(s, h, t), h, At(Go, JoinCall(t)));
    }
  }

  /** The thread goes into the real join, perhaps for ever. */
  lemma KeepJoinCall(s: Machine, h: Handle, t: Handle)
    requires Inv(s) && h in s.ctl && s.ctl[h] == At(Go, JoinCall(t))
    ensures Inv(StepJoinCall(s, h, t))
  {
    Runner(s, h);
    var s' := StepJoinCall(s, h, t);
    assert Live(s, t) <==> t in s.st.threads;
    assert Live(s, t) <==> T(s.st, h).isBlocking;
    GoesJoining(s, s', h, t);
  }

  lemma GoesJoining(s: Machine, s': Machine, h: Handle, t: Handle)
    requires Inv(s) && h in s.ctl && s.ctl[h] == At(Go, JoinCall(t))
    requires s'.ctl == s.ctl[h := RealJoining(t)] && RestSame(s, s') && s'.st == s.st && s'.log == s.log
    requires s'.turn == if Live(s, t) then None else s.turn
    requires Live(s, t) <==> T(s.st, h).isBlocking
    ensures Inv(s')
  {
    Runner(s, h);
    SleepersUntouched(s, s', h);
    forall x | x in s.ctl ensures CalmThread(s, s', x) {}
    StartupsKept(s, s', h);
    forall x | x in s'.ctl ensures Active(s', x) <==> s'.turn == Some(x) {
      assert Active(s, x) <==> s.turn == Some(x);
      if x != h && Live(s, x) { Others(s, h, x); }
    }
    if Live(s, t) { forall x | x in s'.st.threads ensures Stalled(s', x) { assert Stalled(s, x); } }
    SameQueue(s, s', h);
    assert ThreadOk(s', h);
    CalmStep(s, s', h, {h});
  }

  /** The joiner is back and its target is gone for good. */
  ghost predicate Reaps(s: Machine, s': Machine, h: Handle, t: Handle) {
    && Inv(s) && h in s.ctl && s.ctl[h] == RealJoining(t) && t in s.ctl && s.ctl[t].Exited?
    && s'.ctl == s.ctl[h := User(0)] - {t} && s'.log.joins == s.log.joins - {t}
    && s'.st == s.st && s'.args == s.args && s'.held == s.held && s'.turn == s.turn && s'.faults == s.faults
  }

  lemma ReapsOther(s: Machine, s': Machine, h: Handle, t: Handle, x: Handle)
    requires Reaps(s, s', h, t) && Live(s, x) && x != h && s.turn == Some(h)
    requires ThreadOk(s, h)
    ensures x in s'.ctl && ThreadOk(s', x)
  {
    Others(s, h, x);
    var c := s.ctl[x];
    var q := QueueOf(c);
    assert forall y :: y != t && y != h ==> Live(s', y) == Live(s, y);
    if c.Waiting? && (c.k.JoinCheck? || c.k.JoinCall?) { assert c.k.t != t; }
  }

  lemma ReapsQueues(s: Machine, s': Machine, h: Handle, t: Handle)
    requires Reaps(s, s', h, t) && ThreadOk(s, h)
    ensures Queues(s')
  {
    hide PointOk, PhaseOk, Roster, Startups, Turns, ThreadOk;
    forall m | m in s'.st.mutexes ensures MutexOk(s', m) { assert MutexOk(s, m); }
    forall c | c in s'.st.conds ensures CondOk(s', c) { assert CondOk(s, c); }
    forall b | b in s'.st.barriers ensures BarrierOk(s', b) { assert BarrierOk(s, b); }
    forall y | y in s'.ctl ensures JoinOk(s', y) { assert JoinOk(s, y); }
  }

  lemma KeepReaps(s: Machine, s': Machine, h: Handle, t: Handle)
    requires Reaps(s, s', h, t)
    ensures Inv(s')
  {
    assert (Active(s, h) <==> s.turn == Some(h)) && ThreadOk(s, h);
    ReapsQueues(s, s', h, t);
    forall x | x in s'.ctl ensures Active(s', x) <==> s'.turn == Some(x) {
      assert Active(s, x) <==> s.turn == Some(x);
      if x != h && Live(s, x) { Others(s, h, x); }
    }
    forall c | c in s'.args ensures Live(s', c) && Newborn(s', c) { assert Newborn(s, c); }
    forall x | Live(s', x) ensures ThreadOk(s', x) && x in s'.st.threads {
      assert Live(s, x);
      if x != h { ReapsOther(s, s', h, t, x); }
    }
    forall x | x in s'.st.threads ensures Live(s', x) { assert Live(s, x); }
  }

  lemma KeepJoinReturn(s: Machine, h: Handle)
    requires Inv(s) && Enabled(s, JoinReturnL(h))
    ensures Inv(JoinReturn(s, h))
  {
    assert ThreadOk(s, h);
    KeepReaps(s, JoinReturn(s, h), h, s.ctl[h].t);
  }

  // ---------------------------------------------------------------- create and exit

  /** The parent adds a child nobody has seen before. */
  ghost predicate Adds(s: Machine, s': Machine, h: Handle, c: Handle) {
    && Inv(s) && h in s.ctl && s.ctl[h] == At(Go, CreateBody(c))
    && s'.ctl == s.ctl[c := Starting][h := User(0)] && s'.args == s.args[c := false]
    && s'.st == s.st.(threads := s.st.threads + [c], info := s.st.info[c := NewThread(0)], pendingChild := Some(c))
    && RestSame(s, s'.(args := s.args)) && s'.turn == s.turn
  }

  lemma AddsOther(s: Machine, s': Machine, h: Handle, c: Handle, x: Handle)
    requires Adds(s, s', h, c) && Live(s, x) && x != h
    ensures x != c && ThreadOk(s', x)
  {
    Runner(s, h);
    Others(s, h, x);
    assert c !in s.ctl;
    var q := QueueOf(s.ctl[x]);
    if q.OnJoin? && q.t in s.ctl { assert Live(s', q.t) == Live(s, q.t); }
  }

  lemma AddsQueues(s: Machine, s': Machine, h: Handle, c: Handle)
    requires Adds(s, s', h, c)
    ensures Queues(s')
  {
    Runner(s, h);
    assert c !in s.ctl;
    forall m | m in s'.st.mutexes ensures MutexOk(s', m) { assert MutexOk(s, m); }
    forall c | c in s'.st.conds ensures CondOk(s', c) { assert CondOk(s, c); }
    forall b | b in s'.st.barriers ensures BarrierOk(s', b) { assert BarrierOk(s, b); }
    forall y | y in s'.ctl ensures JoinOk(s', y) {
      if y != c {
        assert JoinOk(s, y);
      }
    }
  }

  lemma KeepAdds(s: Machine, s': Machine, h: Handle, c: Handle)
    requires Adds(s, s', h, c)
    ensures Inv(s')
  {
    Runner(s, h);
    assert c !in s.ctl && (c in s.st.threads ==> Live(s, c));
    DistinctAppend(s.st.threads, c);
    AddsQueues(s, s', h, c);
    forall x | x in s'.ctl ensures Active(s', x) <==> s'.turn == Some(x) {
      if x != c { assert Active(s, x) <==> s.turn == Some(x); }
      if x != c && x != h && Live(s, x) { Others(s, h, x); }
    }
    forall x | x in s'.args ensures Live(s', x) && Newborn(s', x) {
      assert x in s.args ==> Newborn(s, x);
    }
    forall x | Live(s', x) ensures ThreadOk(s', x) && x in s'.st.threads {
      if x != c {
        assert Live(s, x);
        if x != h { AddsOther(s, s', h, c, x); }
      }
    }
    forall x | x in s'.st.threads ensures Live(s', x) { if x != c { assert x in s.st.threads && Live(s, x); } }
  }

  lemma KeepCreate(s: Machine, h: Handle, c: Handle)
    requires Inv(s) && h in s.ctl && s.ctl[h] == At(Go, CreateBody(c))
    ensures Inv(StepCreate(s, h, c))
  {
    Runner(s, h);
    KeepAdds(s, StepCreate(s, h, c), h, c);
  }

  /** `h` leaves, and the turn goes to `next`, if to anybody. */
  ghost predicate Leaves(s: Machine, s': Machine, h: Handle, next: Option<Handle>) {
    && Inv(s) && h in s.ctl && s.ctl[h].User?
    && (forall m {:trigger m in s.st.mutexes} :: m in s.st.mutexes ==> s.st.mutexes[m].ownerTid != h)
    && s'.st == Departed(s.st, h).(draws := s'.st.draws)
    && RestSame(s, s') && s'.turn == next
    && s'.log.strayExit == (s.log.strayExit || s.st.pendingChild.Some?)
    && (if next.Some?
        then next.value in s.ctl && next.value != h && s.ctl[next.value].Waiting? && Eligible(s'.st, next.value)
             && s'.ctl == s.ctl[h := Exited][next.value := Waiting(s.ctl[next.value].k, true)]
        else s'.ctl == s.ctl[h := Exited] && forall x :: x in s'.st.threads ==> !Eligible(s'.st, x))
  }

  /** The joiner of a thread in user code sleeps in its join. */
  lemma JoinerSleeps(s: Machine, h: Handle, j: Handle)
    requires Inv(s) && h in s.ctl && s.ctl[h].User? && T(s.st, h).joiner == Some(j)
    ensures Live(s, j) && j != h && s.ctl[j].Waiting? && s.ctl[j].k == JoinCall(h) && T(s.st, j).isBlocking
    ensures forall x {:trigger s.ctl[x]} :: Live(s, x) && QueueOf(s.ctl[x]) == OnJoin(h) ==> x == j
  {
    Runner(s, h);
    assert JoinOk(s, h);
    Others(s, h, j);
    forall x | Live(s, x) && QueueOf(s.ctl[x]) == OnJoin(h) ensures x == j { assert ThreadOk(s, x); }
  }

  lemma DepartedOther(st: State, h: Handle, x: Handle)
    requires x != h && x in st.info
    ensures x in Departed(st, h).info
    ensures T(Departed(st, h), x) == if T(st, h).joiner == Some(x) then T(st, x).(isBlocking := false) else T(st, x)
  {
    if T(st, h).joiner.Some? {} else {}
  }

  /** A thread sleeps in its join on `h` exactly when it is on record as the joiner of `h`. */
  lemma JoinerIs(s: Machine, h: Handle, x: Handle)
    requires Inv(s) && h in s.ctl && s.ctl[h].User? && Live(s, x) && x != h
    ensures x in s.st.info && (T(s.st, h).joiner == Some(x) <==> QueueOf(s.ctl[x]) == OnJoin(h))
    ensures T(s.st, h).joiner == Some(x) ==> T(s.st, x).isBlocking
  {
    assert ThreadOk(s, x) && ThreadOk(s, h);
    if T(s.st, h).joiner.Some? {
      JoinerSleeps(s, h, T(s.st, h).joiner.value);
    }
  }

  /** What `h`'s departure does to the record of another thread. */
  lemma DepartedRecord(s: Machine, h: Handle, x: Handle)
    requires Inv(s) && h in s.ctl && s.ctl[h].User? && Live(s, x) && x != h
    ensures x in Departed(s.st, h).info
    ensures T(Departed(s.st, h), x) == T(s.st, x).(isBlocking := T(s.st, x).isBlocking && QueueOf(s.ctl[x]) != OnJoin(h))
  {
    JoinerIs(s, h, x);
    DepartedOther(s.st, h, x);
  }

  lemma LeavesOther(s: Machine, s': Machine, h: Handle, next: Option<Handle>, x: Handle)
    requires Leaves(s, s', h, next) && Live(s, x) && x != h
    ensures Live(s', x) && ThreadOk(s', x)
  {
    Runner(s, h);
    Others(s, h, x);
    DepartedRecord(s, h, x);
    LeavesQueue(s, s', h, next, x);
  }

  /** Whoever stays keeps its queue, unless it waited for `h` to leave. */
  lemma LeavesQueue(s: Machine, s': Machine, h: Handle, next: Option<Handle>, x: Handle)
    requires Leaves(s, s', h, next) && Live(s, x) && x != h
    ensures Live(s', x) && QueueOf(s'.ctl[x]) == QueueOf(s.ctl[x])
    ensures var q := QueueOf(s.ctl[x]);
      InQueue(s', q, x) <==> InQueue(s, q, x) && q != OnJoin(h)
    ensures var q := QueueOf(s.ctl[x]);
      q.OnJoin? ==> (q.t in s'.ctl <==> q.t in s.ctl) && (Live(s', q.t) ==> Live(s, q.t)) && (Live(s', q.t) && JoinerOf(s, q.t, x) ==> JoinerOf(s', q.t, x))
  {
    var q := QueueOf(s.ctl[x]);
    if q.OnJoin? && q.t != h && q.t in s.ctl {
      if Live(s, q.t) { DepartedRecord(s, h, q.t); }
      assert Live(s', q.t) == Live(s, q.t);
    }
  }

  lemma LeavesMutexes(s: Machine, s': Machine, h: Handle, next: Option<Handle>)
    requires Leaves(s, s', h, next)
    ensures forall m {:trigger MutexOk(s', m)} :: m in s'.st.mutexes ==> MutexOk(s', m)
  {
    hide CondOk, BarrierOk, JoinOk, PointOk, PhaseOk, Deadlocked, InQueue;
    Runner(s, h);
    forall m | m in s'.st.mutexes ensures MutexOk(s', m) { assert MutexOk(s, m); }
  }

  lemma LeavesJoins(s: Machine, s': Machine, h: Handle, next: Option<Handle>, y: Handle)
    requires Leaves(s, s', h, next) && y in s.ctl
    ensures y in s'.ctl && JoinOk(s', y)
  {
    Runner(s, h);
    assert JoinOk(s, y);
    if y != h && Live(s, y) { DepartedRecord(s, h, y); }
  }

  lemma LeavesQueues(s: Machine, s': Machine, h: Handle, next: Option<Handle>)
    requires Leaves(s, s', h, next)
    ensures Queues(s')
  {
    hide PointOk, PhaseOk, MutexOk;
    Runner(s, h);
    LeavesMutexes(s, s', h, next);
    forall c | c in s'.st.conds ensures CondOk(s', c) { assert CondOk(s, c); }
    forall b | b in s'.st.barriers ensures BarrierOk(s', b) { assert BarrierOk(s, b); }
    forall y | y in s'.ctl ensures JoinOk(s', y) { LeavesJoins(s, s', h, next, y); }
  }

  lemma LeavesTurns(s: Machine, s': Machine, h: Handle, next: Option<Handle>)
    requires Leaves(s, s', h, next)
    ensures Turns(s')
  {
    Runner(s, h);
    forall x | x in s'.ctl ensures Active(s', x) <==> s'.turn == Some(x) {
      assert Active(s, x) <==> s.turn == Some(x);
      if x != h && Live(s, x) { Others(s, h, x); }
    }
    if next.None? {
      forall x | x in s'.st.threads ensures Stalled(s', x) {
        assert Live(s, x);
        Others(s, h, x);
        DepartedRecord(s, h, x);
        assert x in s.args ==> Newborn(s, x);
      }
    }
  }

  lemma KeepLeaves(s: Machine, s': Machine, h: Handle, next: Option<Handle>)
    requires Leaves(s, s', h, next)
    ensures Inv(s')
  {
    Runner(s, h);
    LeavesQueues(s, s', h, next);
    LeavesTurns(s, s', h, next);
    forall c | c in s'.args ensures Live(s', c) && Newborn(s', c) { assert Newborn(s, c); }
    forall x | Live(s', x) ensures ThreadOk(s', x) && x in s'.st.threads {
      assert Live(s, x);
      LeavesOther(s, s', h, next, x);
    }
    forall x | x in s'.st.threads ensures Live(s', x) { assert Live(s, x); }
  }

  lemma ExitLeaves(s: Machine, h: Handle, tape: Tape)
    requires Inv(s) && h in s.ctl && s.ctl[h].User? && Allowed(s, h, Exit)
    ensures Leaves(s, CallExit(s, h, tape), h, Choose(Departed(s.st, h), tape).1)
  {
    hide CallExit;
    Runner(s, h);
    var next := Choose(Departed(s.st, h), tape).1;
    if next.Some? {
      var n := next.value;
      assert n in s.st.threads && Live(s, n);
      Others(s, h, n);
      DepartedRecord(s, h, n);
    }
    ExitState(s, h, tape);
  }

  /** What an exit changes, whoever calls it. */
  lemma ExitState(s: Machine, h: Handle, tape: Tape)
    ensures var s', next := CallExit(s, h, tape), Choose(Departed(s.st, h), tape).1;
      && s'.st == Departed(s.st, h).(draws := s'.st.draws) && s'.turn == next
      && s'.args == s.args && s'.held == s.held && s'.log.joins == s.log.joins
      && s'.log.strayExit == (s.log.strayExit || s.st.pendingChild.Some?)
      && (next.None? ==> s'.ctl == s.ctl[h := Exited] && s'.faults == s.faults)
      && (next.Some? && next.value != h && next.value in s.ctl && s.ctl[next.value].Waiting? && !s.ctl[next.value].signalled ==>
            s'.ctl == s.ctl[h := Exited][next.value := Waiting(s.ctl[next.value].k, true)] && s'.faults == s.faults)
  {
    hide Choose;
    var stray := s.log.strayExit || s.st.pendingChild.Some?;
    var (st2, next) := Choose(Departed(s.st, h), tape);
    assert st2 == Departed(s.st, h).(draws := st2.draws);
    var s1 := Goto(s.(st := st2, turn := None, log := s.log.(strayExit := stray)), h, Exited);
    assert CallExit(s, h, tape) == if next.Some? then SignalThread(s1, next.value) else s1;
  }

  lemma KeepExit(s: Machine, h: Handle, tape: Tape)
    requires Inv(s) && h in s.ctl && s.ctl[h].User? && Allowed(s, h, Exit)
    ensures Inv(CallExit(s, h, tape))
  {
    ExitLeaves(s, h, tape);
    KeepLeaves(s, CallExit(s, h, tape), h, Choose(Departed(s.st, h), tape).1);
  }

  // ---------------------------------------------------------------- every step

  /** Points at which the mutex_lock loop may run. */
  lemma KeepGoLock(s: Machine, h: Handle, k: Point, m: Key, tape: Tape)
    requires Inv(s) && h in s.ctl && s.ctl[h] == At(Go, k)
    requires k == LockLoop(m) || k == LockCheck(m) || k == LockAgain(m)
             || ((k.CondCheck? || k.CondAgain?) && k.m == m)
    ensures Inv(StepGo(s, h, k, tape))
  {
    Runner(s, h);
    if T(s.st, h).isBlocking {
      if k.LockCheck? {
        KeepWaitAlone(s, StepGo(s, h, k, tape), h, LockAgain(m));
      } else {
        KeepWaitAlone(s, StepGo(s, h, k, tape), h, CondAgain(k.c, m));
      }
    } else {
      KeepLockPass(s, h, m);
      assert StepGo(s, h, k, tape) == LockPass(s, h, m);
    }
  }

  lemma KeepGoTry(s: Machine, h: Handle, m: Key, tape: Tape)
    requires Inv(s) && h in s.ctl && s.ctl[h] == At(Go, TryLock(m))
    ensures Inv(StepGo(s, h, TryLock(m), tape))
  {
    Runner(s, h);
    var tid := T(s.st, h).tid;
    if (m in s.st.mutexes && s.st.mutexes[m].ownerTid == tid && m !in s.st.recursiveMutexes) || WillBlock(s.st, m, tid) {
      KeepMove(s, StepGo(s, h, TryLock(m), tape), h, User(EBUSY));
    } else {
      KeepLockPass(s, h, m);
    }
  }

  lemma KeepGoBarrier(s: Machine, h: Handle, k: Point, tape: Tape)
    requires Inv(s) && h in s.ctl && s.ctl[h] == At(Go, k) && (k.BarrierCheck? || k.BarrierAgain?)
    ensures Inv(StepGo(s, h, k, tape))
  {
    Runner(s, h);
    if T(s.st, h).isBlocking {
      KeepWaitAlone(s, StepGo(s, h, k, tape), h, BarrierAgain(k.b, k.released));
    } else {
      KeepMove(s, StepGo(s, h, k, tape), h, User(if k.released then SERIAL else 0));
    }
  }

  lemma KeepGo(s: Machine, h: Handle, k: Point, tape: Tape)
    requires Inv(s) && h in s.ctl && s.ctl[h] == At(Go, k) && Enabled(s, StepL(h))
    ensures Inv(StepGo(s, h, k, tape))
  {
    match k
    case Ret(r) => Runner(s, h); KeepMove(s, StepGo(s, h, k, tape), h, User(r));
    case LockLoop(m) => KeepGoLock(s, h, k, m, tape);
    case LockCheck(m) => KeepGoLock(s, h, k, m, tape);
    case LockAgain(m) => KeepGoLock(s, h, k, m, tape);
    case TryLock(m) => KeepGoTry(s, h, m, tape);
    case CondRelease(c, m) => KeepCondRelease(s, h, c, m, tape);
    case CondCheck(_, m) => KeepGoLock(s, h, k, m, tape);
    case CondAgain(_, m) => KeepGoLock(s, h, k, m, tape);
    case BarrierMake(b, n) => KeepBarrierMake(s, h, b, n);
    case BarrierJoin(b) => KeepBarrierJoin(s, h, b);
    case BarrierCheck(_, _) => KeepGoBarrier(s, h, k, tape);
    case BarrierAgain(_, _) => KeepGoBarrier(s, h, k, tape);
    case JoinCheck(t) => KeepJoinCheck(s, h, t);
    case JoinCall(t) => KeepJoinCall(s, h, t);
    case CreateBody(c) => KeepCreate(s, h, c);
  }

  lemma KeepStep(s: Machine, h: Handle, tape: Tape)
    requires Inv(s) && Enabled(s, StepL(h))
    ensures Inv(Step(s, h, tape))
  {
    var k := s.ctl[h].k;
    match s.ctl[h].phase
    case Drain(cs) => KeepDrain(s, h, cs, k);
    case DrainLoop(c, cs) => KeepDrainLoop(s, h, c, cs, k);
    case Switch => KeepSwitch(s, h, k, tape);
    case Go => KeepGo(s, h, k, tape);
  }

  /** The history of the last cond_wait is no part of the invariant. */
  lemma KeepLogged(s: Machine, s': Machine, h: Handle)
    requires Inv(s) && h in s.ctl && s.ctl[h].User?
    requires s' == Forget(s, h)
    ensures Inv(s')
  {
    Runner(s, h);
    KeepMove(s, s', h, s.ctl[h]);
  }

  /** The kind of a mutex nobody uses matters to nobody. */
  lemma KeepKinds(s: Machine, s': Machine, m: Key, recursive: bool)
    requires Inv(s) && m !in s.st.mutexes && s' == s.(st := NoteMutex(s.st, m, recursive))
    ensures Inv(s')
  {
    forall x | x in s'.ctl && !s'.ctl[x].Exited? ensures ThreadOk(s', x) {
      assert ThreadOk(s, x) && InQueue(s', QueueOf(s.ctl[x]), x) == InQueue(s, QueueOf(s.ctl[x]), x);
      assert Deadlocked(s) ==> Deadlocked(s') by { assert forall y :: Stalled(s', y) == Stalled(s, y); }
    }
    forall k | k in s'.st.mutexes ensures MutexOk(s', k) { assert MutexOk(s, k); }
    forall k | k in s'.st.conds ensures CondOk(s', k) { assert CondOk(s, k); }
    forall b | b in s'.st.barriers ensures BarrierOk(s', b) { assert BarrierOk(s, b); }
    forall t | t in s'.ctl ensures JoinOk(s', t) { assert JoinOk(s, t); }
    assert Turns(s') by {
      assert forall y :: Stalled(s', y) == Stalled(s, y);
      forall x | x in s'.ctl ensures Active(s', x) <==> s'.turn == Some(x) { assert Active(s, x) <==> s.turn == Some(x); }
    }
    assert forall x {:trigger Live(s', x)} :: Live(s', x) == Live(s, x);
    forall c | c in s'.args ensures Live(s', c) && Newborn(s', c) { assert Newborn(s', c) == Newborn(s, c); }
  }

  lemma KeepMutexInit(s: Machine, h: Handle, m: Key, recursive: bool)
    requires Inv(s) && h in s.ctl && s.ctl[h].User? && m !in s.st.mutexes
    ensures Inv(CallMutexInit(s, h, m, recursive))
  {
    Runner(s, h);
    KeepMove(s, Goto(s, h, User(0)), h, User(0));
    KeepKinds(Goto(s, h, User(0)), CallMutexInit(s, h, m, recursive), m, recursive);
  }

  lemma KeepCall(s: Machine, h: Handle, op: Op, tape: Tape)
    requires Inv(s) && h in s.ctl && s.ctl[h].User? && Allowed(s, h, op)
    ensures Inv(Call(s, h, op, tape))
  {
    Runner(s, h);
    var s0 := Forget(s, h);
    KeepLogged(s, s0, h);
    match op
    case Exit => KeepExit(s0, h, tape);
    case Unlock(m) => KeepCallUnlock(s0, h, m, tape);
    case Signal(c) => KeepCallSignal(s0, h, c, tape);
    case Broadcast(c) => KeepCallBroadcast(s0, h, c);
    case MutexInit(m, recursive) => KeepMutexInit(s0, h, m, recursive);
    case _ => KeepEnter(s, h, op, tape);
  }

  lemma EntryOk(s: Machine, s': Machine, h: Handle, op: Op)
    requires Inv(s) && h in s.ctl && s.ctl[h].User? && Allowed(s, h, op)
    requires s'.st == s.st && s'.ctl.Keys == s.ctl.Keys && JoinsGrow(s, s')
    requires op.Join? ==> op.t in s'.log.joins && s'.log.joins[op.t] == h
    ensures var c := Entry(s, h, op);
      c.At? && PointOk(s', h, c.k) && PhaseOk(c) && DrainChild(c).None? && QueueOf(c) == NoQueue && !c.phase.Switch?
      && (c.phase.Go? ==> !c.k.CreateBody?)
  {
    Runner(s, h);
  }

  /** The calls that change nothing before their first cut. */
  lemma KeepEnter(s: Machine, h: Handle, op: Op, tape: Tape)
    requires Inv(s) && h in s.ctl && s.ctl[h].User? && Allowed(s, h, op)
    requires !op.Exit? && !op.Unlock? && !op.Signal? && !op.Broadcast? && !op.MutexInit?
    ensures Inv(Call(s, h, op, tape))
  {
    Runner(s, h);
    EntryOk(s, Call(s, h, op, tape), h, op);
    if op.Join? {
      KeepMove(s, Call(s, h, op, tape), h, Entry(s, h, op));
    } else if op.Wait? {
      KeepMove(s, Call(s, h, op, tape), h, Entry(s, h, op));
    } else {
      KeepMove(s, Call(s, h, op, tape), h, Entry(s, h, op));
    }
  }

  /** Every step of every thread keeps the invariant. */
  lemma KeepNext(s: Machine, l: Label, tape: Tape)
    requires Inv(s) && Enabled(s, l)
    ensures Inv(Next(s, l, tape))
  {
    match l
    case CallL(h, op) => KeepCall(s, h, op, tape);
    case StepL(h) => KeepStep(s, h, tape);
    case ResumeL(h) => KeepResume(s, h);
    case RegisterL(h) => KeepRegister(s, h);
    case JoinReturnL(h) => KeepJoinReturn(s, h);
  }
}
