/** What each operation does to the record, the real mutexes and the caller, field by field: who
    gets a mutex, who is woken, who is run next, and what a call returns. */
module Effects {
  import opened Prelude
  import opened Choice
  import opened StateModel
  import opened Machine
  import opened Invariant
  import opened Preservation
  import opened Frames

  // ---------------------------------------------------------------- who runs next

  /** Listed for a decision: not blocking, started, and waiting inside rsched. */
  predicate Ready(st: State, h: Handle) {
    h in st.info && !st.info[h].isBlocking && st.info[h].startupDone && st.info[h].isInRschedWait
  }

  /** `next` is the thread a decision on `word` takes: the first ready one of the list going round
      from the place that is the word modulo the length. */
  ghost predicate Taken(st: State, word: nat, next: Option<Handle>)
    requires st.threads != []
  {
    var n := |st.threads|;
    var unready := seq(n, i requires 0 <= i < n => !Ready(st, st.threads[i]));
    exists place: Option<nat> {:trigger Nearest(unready, word % n, place)} ::
      Nearest(unready, word % n, place) && next == if place.Some? then Some(st.threads[place.value]) else None
  }

  lemma ChooseTakes(st: State, tape: Tape)
    requires st.threads != [] && forall h :: h in st.threads ==> h in st.info
    ensures Taken(st, tape(st.draws), Choose(st, tape).1) && Choose(st, tape).0 == st.(draws := st.draws + 1)
  {
    var n := |st.threads|;
    var unready := seq(n, i requires 0 <= i < n => !Ready(st, st.threads[i]));
    assert forall i :: 0 <= i < n ==> st.threads[i] in st.threads;
    assert BlockingFlags(st) == unready;
    var pick := Pick(unready, tape(st.draws) % n);
    PickNearest(unready, tape(st.draws) % n, pick);
  }

  lemma ListedHaveRecords(s: Machine)
    requires Inv(s)
    ensures forall h :: h in s.st.threads ==> h in s.st.info
  {
    forall h | h in s.st.threads ensures h in s.st.info { assert Live(s, h) && ThreadOk(s, h); }
  }

  lemma StartedAlready(s: Machine, h: Handle, k: Point)
    requires Inv(s) && h in s.ctl && s.ctl[h] == At(Switch, k)
    ensures SetStarted(s.st, h) == s.st
  {
    Runner(s, h);
    AlreadyStarted(s, h);
  }

  /** A scheduling point with other threads about consumes one word. The thread that word takes, if
      any, gets the turn and its wake-up, and the caller waits to be taken itself; if nobody is
      ready, or nobody else is about, the caller goes on. */
  lemma SwitchMeans(s: Machine, h: Handle, k: Point, tape: Tape) returns (next: Option<Handle>)
    requires Inv(s) && h in s.ctl && s.ctl[h] == At(Switch, k)
    ensures if |s.st.threads| <= 1 then next == None else Taken(s.st, tape(s.st.draws), next)
    ensures var s' := Step(s, h, tape);
      && s'.st.draws == s.st.draws + (if |s.st.threads| <= 1 then 0 else 1)
      && s'.st == s.st.(draws := s'.st.draws, info := s'.st.info) && s'.held == s.held
      && (next.None? ==> s'.ctl == s.ctl[h := At(Go, k)] && s'.turn == s.turn && s'.st.info == s.st.info)
      && (next.Some? ==>
            && next.value != h && next.value in s.ctl && s.ctl[next.value].Waiting?
            && s'.ctl == s.ctl[next.value := Waiting(s.ctl[next.value].k, true)][h := Waiting(k, false)]
            && s'.turn == next && s'.st.info == s.st.info[h := T(s.st, h).(isInRschedWait := true)])
  {
    Runner(s, h);
    StartedAlready(s, h, k);
    if |s.st.threads| <= 1 {
      next := None;
    } else {
      ListedHaveRecords(s);
      ChooseTakes(s.st, tape);
      next := Choose(s.st, tape).1;
      if next.Some? {
        assert Live(s, next.value) && ThreadOk(s, h);
        Others(s, h, next.value);
      }
    }
  }

  // ---------------------------------------------------------------- taking a mutex

  /** `h` holds `m` one level deeper than before, virtually and in reality, and nothing else changes. */
  ghost predicate Deeper(s: Machine, s': Machine, h: Handle, m: Key) {
    var depth := if m in s.st.mutexes then s.st.mutexes[m].recursiveCount + 1 else 1;
    && s'.st == s.st.(mutexes := s.st.mutexes[m := SMutex(h, depth, if m in s.st.mutexes then s.st.mutexes[m].waiters else [])])
    && s'.held == s.held[m := RealMutex(h, depth)]
  }

  /** `h` goes to the end of the queue of `m` and is blocking. */
  ghost predicate QueuesFor(s: Machine, s': Machine, h: Handle, m: Key) {
    && m in s.st.mutexes
    && s'.st == s.st.(mutexes := s.st.mutexes[m := s.st.mutexes[m].(waiters := s.st.mutexes[m].waiters + [h])],
                      info := s.st.info[h := T(s.st, h).(isBlocking := true)])
    && s'.held == s.held
  }

  /** The loop of mutex_lock, entered: the mutex is taken if it is free or the caller's own; else the
      caller queues behind those who wait already. */
  lemma LockMeans(s: Machine, h: Handle, m: Key, tape: Tape)
    requires Inv(s) && h in s.ctl && s.ctl[h] == At(Go, LockLoop(m))
    ensures var s' := Step(s, h, tape);
      if m in s.st.mutexes && s.st.mutexes[m].ownerTid != h then QueuesFor(s, s', h, m) && s'.ctl == s.ctl[h := At(Drain(true), LockCheck(m))]
      else Deeper(s, s', h, m) && s'.ctl == s.ctl[h := User(0)]
  {
    Runner(s, h);
    if m in s.st.mutexes { assert MutexOk(s, m) && ThreadOk(s, h); }
    if m in s.st.mutexes && s.st.mutexes[m].ownerTid != h {
    } else {
      if m !in s.held {} else if s.held[m].holder == h && m in s.st.recursiveMutexes {} else {}
    }
  }

  /** A lock of a mutex somebody else holds queues at once, before any scheduling point. */
  lemma BlockedLock(s: Machine, h: Handle, m: Key, tape: Tape)
    requires Inv(s) && h in s.ctl && s.ctl[h].User? && m in s.st.mutexes && s.st.mutexes[m].ownerTid != h
    ensures var s1 := Call(s, h, Lock(m), tape);
      h in s1.ctl && s1.ctl[h].At? && s1.st == s.st && QueuesFor(s1, Step(s1, h, tape), h, m)
  {
    var s1 := Call(s, h, Lock(m), tape);
    Runner(s, h);
    assert MutexOk(s, m) && ThreadOk(s, h) && ThreadOk(s, s.st.mutexes[m].ownerTid);
    assert h !in s.st.mutexes[m].waiters;
  }

  /** A wait with a mutex somebody else holds answers EPERM at once, without a scheduling point. */
  lemma BlockedWait(s: Machine, h: Handle, c: Key, m: Key, tape: Tape)
    requires Inv(s) && h in s.ctl && s.ctl[h].User? && m in s.st.mutexes && s.st.mutexes[m].ownerTid != h
    ensures var s1 := Call(s, h, Wait(c, m), tape);
      && h in s1.ctl && s1.ctl[h].At? && Step(s1, h, tape).ctl == s.ctl[h := User(1)]
      && Step(s1, h, tape).st == s.st && Step(s1, h, tape).held == s.held
  {
    Runner(s, h);
    assert MutexOk(s, m) && ThreadOk(s, h) && ThreadOk(s, s.st.mutexes[m].ownerTid);
  }

  /** trylock never waits: it takes a mutex that is free, or its own if that is recursive, and
      otherwise says EBUSY and changes nothing. */
  lemma TryLockMeans(s: Machine, h: Handle, m: Key, tape: Tape)
    requires Inv(s) && h in s.ctl && s.ctl[h] == At(Go, TryLock(m))
    ensures var s' := Step(s, h, tape);
      if m !in s.st.mutexes || (s.st.mutexes[m].ownerTid == h && m in s.st.recursiveMutexes)
      then Deeper(s, s', h, m) && s'.ctl == s.ctl[h := User(0)]
      else s'.ctl == s.ctl[h := User(16)] && s'.st == s.st && s'.held == s.held
  {
    Runner(s, h);
    assert m in s.st.mutexes ==> MutexOk(s, m) && ThreadOk(s, s.st.mutexes[m].ownerTid);
    if m in s.st.mutexes && (s.st.mutexes[m].ownerTid != h || m !in s.st.recursiveMutexes) {
    } else {
      if m !in s.held {} else if s.held[m].holder == h && m in s.st.recursiveMutexes {} else {}
    }
  }

  // ---------------------------------------------------------------- giving up a mutex

  /** The owner gives up one level of `m`: at the last level the real mutex is free, and the waiter the
      next word takes is the new owner, at depth 0 until it has resumed, and no longer blocking. */
  ghost predicate GivesUp(s: Machine, s': Machine, m: Key, word: nat)
    requires m in s.st.mutexes
  {
    var x := s.st.mutexes[m];
    if x.recursiveCount > 1 then
      && s'.st == s.st.(mutexes := s.st.mutexes[m := x.(recursiveCount := x.recursiveCount - 1)])
      && s'.held == s.held[m := RealMutex(x.ownerTid, x.recursiveCount - 1)]
    else if x.waiters == [] then
      s'.st == s.st.(mutexes := s.st.mutexes - {m}) && s'.held == s.held - {m}
    else
      var i := word % |x.waiters|;
      var w := x.waiters[i];
      && m in s'.st.mutexes && Dropped(x.waiters, i, s'.st.mutexes[m].waiters)
      && s'.st == s.st.(mutexes := s.st.mutexes[m := SMutex(w, 0, s'.st.mutexes[m].waiters)],
                        info := s.st.info[w := T(s.st, w).(isBlocking := false)], draws := s.st.draws + 1)
      && s'.held == s.held - {m}
  }

  /** What mutex_unlock answers. */
  function UnlockAnswer(s: Machine, h: Handle, m: Key): int {
    if m !in s.st.mutexes then 22 else if s.st.mutexes[m].ownerTid != h then 1 else 0
  }

  /** The unlocking itself, in unlock and in cond_wait alike. */
  lemma UnlockPassMeans(s: Machine, h: Handle, m: Key, tape: Tape)
    requires Inv(s) && h in s.ctl
    requires s.ctl[h].User? || (s.ctl[h].At? && s.ctl[h].phase.Go? && s.ctl[h].k.CondRelease? && s.ctl[h].k.m == m)
    ensures var (s', r) := UnlockPass(s, h, m, tape);
      && r == UnlockAnswer(s, h, m)
      && (r == 0 ==> m in s.st.mutexes && GivesUp(s, s', m, tape(s.st.draws)) && s' == s.(st := s'.st, held := s'.held))
      && (r != 0 ==> s' == s)
  {
    Runner(s, h);
    UnlockLeaves(s, h, m, tape);
    UnlockFrame(s, h, m, tape);
    if m in s.st.mutexes && s.st.mutexes[m].ownerTid == h {
      UnlockerFacts(s, h, m);
      var x := s.st.mutexes[m];
      if x.recursiveCount > 1 {
      } else if x.waiters == [] {
      } else {
        var i := tape(s.st.draws) % |x.waiters|;
        assert x.waiters[i] in x.waiters && ThreadOk(s, x.waiters[i]);
        RemoveAtDrops(x.waiters, i);
      }
    }
  }

  /** unlock gives up one level and then goes to its scheduling point with the answer it will return;
      an unlock by anybody but the owner changes nothing. */
  lemma UnlockMeans(s: Machine, h: Handle, m: Key, tape: Tape)
    requires Inv(s) && h in s.ctl && s.ctl[h].User?
    ensures var s' := Call(s, h, Unlock(m), tape);
      && s'.ctl == s.ctl[h := At(Drain(true), Ret(UnlockAnswer(s, h, m)))]
      && (UnlockAnswer(s, h, m) == 0 ==> m in s.st.mutexes && GivesUp(s, s', m, tape(s.st.draws)))
      && (UnlockAnswer(s, h, m) != 0 ==> s'.st == s.st && s'.held == s.held)
  {
    var s0 := Forget(s, h);
    KeepLogged(s, s0, h);
    UnlockPassMeans(s0, h, m, tape);
  }

  /** cond_wait: one that does not own the mutex returns at once with unlock's answer; the owner gives
      it up and joins the end of the condition's queue in the same step. */
  lemma ReleaseMeans(s: Machine, h: Handle, c: Key, m: Key, tape: Tape) returns (mid: Machine)
    requires Inv(s) && h in s.ctl && s.ctl[h] == At(Go, CondRelease(c, m))
    ensures var s', r := Step(s, h, tape), UnlockAnswer(s, h, m);
      && (r != 0 ==> s' == s.(ctl := s.ctl[h := User(r)]))
      && (r == 0 ==>
            && m in s.st.mutexes && GivesUp(s, mid, m, tape(s.st.draws))
            && s'.st == mid.st.(conds := s.st.conds[c := CondWaiters(s.st, c) + [h]], info := mid.st.info[h := T(s.st, h).(isBlocking := true)])
            && s'.held == mid.held && s'.ctl == s.ctl[h := At(Drain(true), CondCheck(c, m))])
  {
    Runner(s, h);
    UnlockPassMeans(s, h, m, tape);
    mid := UnlockPass(s, h, m, tape).0;
    if UnlockAnswer(s, h, m) == 0 { GiverKeepsRecord(s, mid, h, m, tape(s.st.draws)); }
  }

  lemma GiverKeepsRecord(s: Machine, s': Machine, h: Handle, m: Key, word: nat)
    requires Inv(s) && h in s.ctl && m in s.st.mutexes && s.st.mutexes[m].ownerTid == h && GivesUp(s, s', m, word)
    ensures T(s'.st, h) == T(s.st, h) && s'.st.conds == s.st.conds
  {
    assert MutexOk(s, m);
    var x := s.st.mutexes[m];
    if x.waiters != [] { assert x.waiters[word % |x.waiters|] in x.waiters; }
  }

  // ---------------------------------------------------------------- conditions

  /** A signal takes the waiter the next word takes off the queue and unblocks it; nobody else is touched. */
  lemma SignalTakes(s: Machine, h: Handle, c: Key, tape: Tape)
    requires Inv(s) && h in s.ctl && s.ctl[h].User?
    ensures var s', ws := Call(s, h, Signal(c), tape), CondWaiters(s.st, c);
      && s'.ctl == s.ctl[h := At(Drain(true), Ret(0))] && s'.held == s.held
      && (ws == [] ==> s'.st == s.st)
      && (ws != [] ==> var i := tape(s.st.draws) % |ws|;
            && Dropped(ws, i, CondWaiters(s'.st, c))
            && s'.st == s.st.(conds := s.st.conds[c := CondWaiters(s'.st, c)],
                              info := s.st.info[ws[i] := T(s.st, ws[i]).(isBlocking := false)], draws := s.st.draws + 1))
  {
    var ws := CondWaiters(s.st, c);
    if ws == [] {} else { RemoveAtDrops(ws, tape(s.st.draws) % |ws|); }
  }

  // ---------------------------------------------------------------- barriers

  /** barrier_init refuses a count of 0; else the barrier is empty. */
  lemma BarrierInitMeans(s: Machine, h: Handle, b: Key, n: nat, tape: Tape)
    requires h in s.ctl && s.ctl[h] == At(Go, BarrierMake(b, n))
    ensures var s' := Step(s, h, tape);
      && s'.held == s.held
      && (n == 0 ==> s'.ctl == s.ctl[h := User(22)] && s'.st == s.st)
      && (n > 0 ==> s'.ctl == s.ctl[h := User(0)] && s'.st == s.st.(barriers := s.st.barriers[b := SBarrier(n, [])]))
  {
    if n == 0 {} else {}
  }

  /** An arrival at a barrier that lacks more than one joins the end of its queue; the one that
      completes it empties it and unblocks the whole round. */
  lemma ArriveMeans(s: Machine, h: Handle, b: Key, tape: Tape)
    requires Inv(s) && h in s.ctl && s.ctl[h] == At(Go, BarrierJoin(b))
    ensures var s' := Step(s, h, tape);
      && s'.held == s.held
      && (b !in s.st.barriers ==> s'.ctl == s.ctl[h := User(22)] && s'.st == s.st)
      && (b in s.st.barriers ==> var x := s.st.barriers[b];
            if |x.waiters| + 1 < x.count then
              && s'.ctl == s.ctl[h := At(Drain(true), BarrierCheck(b, false))]
              && s'.st == s.st.(barriers := s.st.barriers[b := x.(waiters := x.waiters + [h])],
                                info := s.st.info[h := T(s.st, h).(isBlocking := true)])
            else
              && s'.ctl == s.ctl[h := At(Drain(true), BarrierCheck(b, true))]
              && s'.st == s.st.(barriers := s.st.barriers[b := x.(waiters := [])], info := s'.st.info)
              && forall y :: T(s'.st, y) == if y in x.waiters then T(s.st, y).(isBlocking := false) else T(s.st, y))
  {
    if b in s.st.barriers {
      ArriverIsNew(s, h, b);
      var x := s.st.barriers[b];
      if |x.waiters| + 1 < x.count { ArriveWaits(s, h, b); } else { ArriveFills(s, h, b); }
    }
  }

  lemma ArriverIsNew(s: Machine, h: Handle, b: Key)
    requires Inv(s) && h in s.ctl && s.ctl[h] == At(Go, BarrierJoin(b)) && b in s.st.barriers
    ensures h !in s.st.barriers[b].waiters && !T(s.st, h).isBlocking
  {
    Runner(s, h);
    assert BarrierOk(s, b) && ThreadOk(s, h);
  }

  lemma ArriveWaits(s: Machine, h: Handle, b: Key)
    requires b in s.st.barriers && h !in s.st.barriers[b].waiters && |s.st.barriers[b].waiters| + 1 < s.st.barriers[b].count
    ensures var s', x := StepBarrierJoin(s, h, b), s.st.barriers[b];
      && s'.held == s.held && s'.ctl == s.ctl[h := At(Drain(true), BarrierCheck(b, false))]
      && s'.st == s.st.(barriers := s.st.barriers[b := x.(waiters := x.waiters + [h])],
                        info := s.st.info[h := T(s.st, h).(isBlocking := true)])
  {
  }

  lemma ArriveFills(s: Machine, h: Handle, b: Key)
    requires b in s.st.barriers && h !in s.st.barriers[b].waiters && |s.st.barriers[b].waiters| + 1 >= s.st.barriers[b].count
    requires !T(s.st, h).isBlocking
    ensures var s', x := StepBarrierJoin(s, h, b), s.st.barriers[b];
      && s'.held == s.held && s'.ctl == s.ctl[h := At(Drain(true), BarrierCheck(b, true))]
      && s'.st == s.st.(barriers := s.st.barriers[b := x.(waiters := [])], info := s'.st.info)
      && forall y :: T(s'.st, y) == if y in x.waiters then T(s.st, y).(isBlocking := false) else T(s.st, y)
  {
  }

  // ---------------------------------------------------------------- threads

  /** create lists the child last, not started and not yet registered, and returns at once. */
  lemma CreateMeans(s: Machine, h: Handle, c: Handle, tape: Tape)
    requires Inv(s) && h in s.ctl && s.ctl[h] == At(Go, CreateBody(c))
    ensures var s' := Step(s, h, tape);
      && s'.ctl == s.ctl[c := Starting][h := User(0)] && s'.held == s.held && s'.turn == s.turn
      && s'.st == s.st.(threads := s.st.threads + [c], info := s.st.info[c := Thread(0, false, false, false, None, false)],
                        pendingChild := Some(c))
      && s'.args == s.args[c := false]
  {
    Runner(s, h);
  }

  /** A child that runs for the first time notes its id and waits to be chosen. */
  lemma RegisterMeans(s: Machine, c: Handle)
    requires Inv(s) && Enabled(s, RegisterL(c))
    ensures var s' := Register(s, c);
      && s'.ctl == s.ctl[c := Waiting(Ret(0), false)] && s'.held == s.held && s'.turn == s.turn
      && s'.st == s.st.(info := s.st.info[c := T(s.st, c).(tid := c, isInRschedWait := true)])
      && s'.args == s.args[c := true]
  {
    assert ThreadOk(s, c);
  }

  /** An exit unblocks the joiner, drops the caller from the list, order kept, and gives the turn to
      the thread the next word takes among those who are left, if there are any. */
  lemma ExitMeans(s: Machine, h: Handle, tape: Tape) returns (left: State, next: Option<Handle>)
    requires Inv(s) && h in s.ctl && s.ctl[h].User? && Allowed(s, h, Exit)
    ensures exists i :: 0 <= i < |s.st.threads| && s.st.threads[i] == h && Dropped(s.st.threads, i, left.threads)
    ensures left == s.st.(threads := left.threads, info := left.info)
    ensures T(left, h) == T(s.st, h).(isBlocking := true, isExited := true)
    ensures forall x :: x != h ==> T(left, x) == if T(s.st, h).joiner == Some(x) then T(s.st, x).(isBlocking := false) else T(s.st, x)
    ensures if left.threads == [] then next == None else Taken(left, tape(s.st.draws), next)
    ensures var s' := Call(s, h, Exit, tape);
      && s'.st == left.(draws := s.st.draws + if left.threads == [] then 0 else 1) && s'.held == s.held
      && s'.turn == next && h in s'.ctl && s'.ctl[h] == Exited
      && (next.Some? ==> next.value in s'.ctl && s'.ctl[next.value].Waiting? && s'.ctl[next.value].signalled)
      && (forall x :: x in s.ctl && x != h && next != Some(x) ==> x in s'.ctl && s'.ctl[x] == s.ctl[x])
  {
    hide CallExit, Departed, Choose, Inv;
    var s0 := Forget(s, h);
    KeepLogged(s, s0, h);
    ExitLeaves(s0, h, tape);
    ExitDraws(s0, h, tape);
    left := Departed(s.st, h);
    next := Choose(left, tape).1;
    DepartedMeans(s, h);
    if left.threads != [] { ChooseTakes(left, tape); } else { ChooseNobody(left, tape); }
  }

  lemma ExitDraws(s: Machine, h: Handle, tape: Tape)
    ensures CallExit(s, h, tape).st == Choose(Departed(s.st, h), tape).0
  {
    hide Choose;
    if Choose(Departed(s.st, h), tape).1.Some? {} else {}
  }

  lemma ChooseNobody(st: State, tape: Tape)
    requires st.threads == []
    ensures Choose(st, tape) == (st, None)
  {
  }

  lemma DepartedMeans(s: Machine, h: Handle)
    requires Inv(s) && h in s.ctl && s.ctl[h].User?
    ensures var left := Departed(s.st, h);
      && (exists i :: 0 <= i < |s.st.threads| && s.st.threads[i] == h && Dropped(s.st.threads, i, left.threads))
      && left == s.st.(threads := left.threads, info := left.info)
      && T(left, h) == T(s.st, h).(isBlocking := true, isExited := true)
      && (forall x :: x != h ==> T(left, x) == if T(s.st, h).joiner == Some(x) then T(s.st, x).(isBlocking := false) else T(s.st, x))
      && (forall x :: x in left.threads ==> x in left.info)
  {
    Runner(s, h);
    ListedHaveRecords(s);
    var i :| 0 <= i < |s.st.threads| && s.st.threads[i] == h;
    WithoutDrops(s.st.threads, i);
    if T(s.st, h).joiner.Some? {
      JoinerSleeps(s, h, T(s.st, h).joiner.value);
    }
  }

  /** Initialising a mutex notes its kind, and is no scheduling point. */
  lemma MutexInitMeans(s: Machine, h: Handle, m: Key, recursive: bool, tape: Tape)
    requires h in s.ctl && s.ctl[h].User?
    ensures var s' := Call(s, h, MutexInit(m, recursive), tape);
      && s'.ctl == s.ctl[h := User(0)] && s'.held == s.held && s'.turn == s.turn
      && s'.st == s.st.(recursiveMutexes := s'.st.recursiveMutexes)
      && (m in s'.st.recursiveMutexes <==> recursive)
      && (forall k :: k != m ==> (k in s'.st.recursiveMutexes <==> k in s.st.recursiveMutexes))
  {
  }

  /** join of a listed thread records the caller as its joiner and blocks it; of one that is gone it waits for nobody. */
  lemma JoinMeans(s: Machine, h: Handle, t: Handle, tape: Tape)
    requires Inv(s) && h in s.ctl && s.ctl[h] == At(Go, JoinCheck(t))
    ensures var s' := Step(s, h, tape);
      && s'.held == s.held
      && (t !in s.st.threads ==> s'.ctl == s.ctl[h := At(Go, JoinCall(t))] && s'.st == s.st)
      && (t in s.st.threads ==>
            && s'.ctl == s.ctl[h := At(Drain(true), JoinCall(t))]
            && s'.st == s.st.(info := s.st.info[t := T(s.st, t).(joiner := Some(h))][h := T(s.st, h).(isBlocking := true)]))
  {
    Runner(s, h);
    assert ThreadOk(s, h);
    if t in s.st.threads {} else {}
  }
}
