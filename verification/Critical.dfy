/** A thread that takes one plain mutex at a time: what it owns at each point of the calls that
    lock, unlock and wait, whatever the other threads do. */
module Critical {
  import opened StateModel
  import opened Machine
  import opened Invariant
  import opened Preservation
  import opened Frames
  import opened Safety

  /** `h` owns no mutex. */
  ghost predicate Outside(s: Machine, h: Handle) {
    forall k {:trigger Owns(s, h, k)} :: !Owns(s, h, k)
  }

  /** `h` owns no mutex but perhaps `m`. */
  ghost predicate AtMost(s: Machine, h: Handle, m: Key) {
    forall k {:trigger Owns(s, h, k)} :: Owns(s, h, k) ==> k == m
  }

  /** `h` owns `m`, at depth 1, and nothing else. */
  ghost predicate Inside(s: Machine, h: Handle, m: Key) {
    AtMost(s, h, m) && Owns(s, h, m) && s.st.mutexes[m].recursiveCount == 1
  }

  /** No two threads are inside. */
  lemma OneInside(s: Machine, a: Handle, b: Handle, m: Key)
    requires Inside(s, a, m) && Inside(s, b, m)
    ensures a == b
  {
  }

  // ---------------------------------------------------------------- seen by the others

  lemma AsideOutside(s: Machine, s': Machine, x: Handle)
    requires Bystander(s, s', x) && !QueueOf(s.ctl[x]).OnMutex? && Outside(s, x)
    ensures Outside(s', x)
  {
    forall k ensures !Owns(s', x, k) { assert !Owns(s, x, k); }
  }

  lemma AsideInside(s: Machine, s': Machine, x: Handle, m: Key)
    requires Bystander(s, s', x) && !QueueOf(s.ctl[x]).OnMutex? && Inside(s, x, m)
    ensures Inside(s', x, m)
  {
    forall k ensures Owns(s', x, k) ==> k == m { assert Owns(s', x, k) <==> Owns(s, x, k); }
    assert Owns(s, x, m);
  }

  lemma AsideAtMost(s: Machine, s': Machine, x: Handle, m: Key)
    requires Bystander(s, s', x) && QueueOf(s.ctl[x]) == OnMutex(m) && AtMost(s, x, m)
    ensures AtMost(s', x, m)
  {
    forall k ensures Owns(s', x, k) ==> k == m { if k != m { assert Owns(s', x, k) <==> Owns(s, x, k); } }
  }

  // ---------------------------------------------------------------- its own steps

  /** Mutexes stay as they are. */
  lemma SameMutexes(s: Machine, s': Machine, h: Handle, m: Key)
    requires s'.st.mutexes == s.st.mutexes
    ensures Outside(s', h) <==> Outside(s, h)
    ensures AtMost(s', h, m) <==> AtMost(s, h, m)
    ensures Inside(s', h, m) <==> Inside(s, h, m)
  {
    assert forall k :: Owns(s', h, k) <==> Owns(s, h, k);
  }

  /** Before its point is reached, a call touches no mutex and no queue, and the point stays. */
  lemma BeforeGo(s: Machine, h: Handle, tape: Tape)
    requires Inv(s) && h in s.ctl && s.ctl[h].At? && !s.ctl[h].phase.Go?
    ensures var s' := Step(s, h, tape);
      && Quiet(s, s') && h in s'.ctl && PointOf(s'.ctl[h]) == PointOf(s.ctl[h]) && !s'.ctl[h].RealJoining?
  {
    if s.ctl[h].phase.Switch? {
      QuietSwitch(s, h, s.ctl[h].k, tape);
    } else {
      QuietDrain(s, h, tape);
    }
  }

  /** Taking a mutex that is free, or queueing for it. */
  lemma FirstPass(s: Machine, h: Handle, m: Key)
    requires Inv(s) && h in s.ctl && s.ctl[h].At? && Outside(s, h)
    ensures var s' := LockPass(s, h, m);
      && h in s'.ctl && s'.st.conds == s.st.conds
      && (if m in s.st.mutexes then s'.ctl[h] == At(Drain(true), LockCheck(m)) && AtMost(s', h, m)
          else s'.ctl[h] == User(0) && Inside(s', h, m))
  {
    Runner(s, h);
    LockFrame(s, h, m);
    assert !Owns(s, h, m);
    if m in s.st.mutexes {
      var s' := LockPass(s, h, m);
      forall k ensures Owns(s', h, k) ==> k == m { assert k != m ==> (Owns(s', h, k) <==> Owns(s, h, k)); }
    } else {
      FreshLock(s, h, m);
    }
  }

  lemma FreshLock(s: Machine, h: Handle, m: Key)
    requires Inv(s) && h in s.ctl && s.ctl[h].At? && Outside(s, h) && m !in s.st.mutexes
    ensures LockPass(s, h, m).ctl[h] == User(0) && Inside(LockPass(s, h, m), h, m)
  {
    Runner(s, h);
    assert m !in s.held;
    var s' := LockPass(s, h, m);
    forall k ensures Owns(s', h, k) ==> k == m { assert k != m ==> (Owns(s', h, k) <==> Owns(s, h, k)); }
  }

  /** Taking a mutex that was handed over. */
  lemma LaterPass(s: Machine, h: Handle, m: Key, tape: Tape)
    requires Inv(s) && h in s.ctl && AtMost(s, h, m)
    requires (s.ctl[h] == At(Go, LockCheck(m)) && !T(s.st, h).isBlocking) || s.ctl[h] == At(Go, LockAgain(m))
    ensures var s' := Step(s, h, tape);
      h in s'.ctl && s'.ctl[h] == User(0) && s'.st.conds == s.st.conds && Inside(s', h, m)
  {
    SecondPassTakes(s, h, m, tape);
    Runner(s, h);
    LockFrame(s, h, m);
    assert MutexOk(s, m);
    var s' := Step(s, h, tape);
    assert s' == LockPass(s, h, m);
    LockPassElsewhere(s, h, m);
    forall k ensures Owns(s', h, k) ==> k == m { assert k != m ==> (Owns(s', h, k) <==> Owns(s, h, k)); }
  }

  lemma LockPassElsewhere(s: Machine, h: Handle, m: Key)
    ensures forall k {:trigger k in LockPass(s, h, m).st.mutexes} :: k != m ==>
      (k in LockPass(s, h, m).st.mutexes <==> k in s.st.mutexes)
      && (k in s.st.mutexes ==> LockPass(s, h, m).st.mutexes[k] == s.st.mutexes[k])
  {
    var (st1, got) := TryAcquire(s.st, m, h);
    if got { if m !in s.held {} else if s.held[m].holder == h && m in st1.recursiveMutexes {} else {} } else {}
    assert LockPass(s, h, m).st == st1 && st1.mutexes == s.st.mutexes[m := st1.mutexes[m]];
  }

  /** Giving up the mutex one is inside of. */
  lemma Release(s: Machine, h: Handle, m: Key, tape: Tape)
    requires Inv(s) && h in s.ctl && Inside(s, h, m)
    requires s.ctl[h].User? || (s.ctl[h].At? && s.ctl[h].phase.Go? && s.ctl[h].k.CondRelease? && s.ctl[h].k.m == m)
    ensures var (s', r) := UnlockPass(s, h, m, tape);
      r == 0 && Outside(s', h) && s'.st.conds == s.st.conds && s'.ctl == s.ctl
  {
    Runner(s, h);
    UnlockFrame(s, h, m, tape);
    UnlockLeaves(s, h, m, tape);
    UnlockerFacts(s, h, m);
    assert MutexOk(s, m);
    var x := s.st.mutexes[m];
    var s' := UnlockPass(s, h, m, tape).0;
    if x.waiters == [] {
      assert s'.st.mutexes == s.st.mutexes - {m};
    } else {
      var w := x.waiters[ChooseIndex(s.st, |x.waiters|, tape).1];
      assert w in x.waiters && ThreadOk(s, w);
      assert s'.st.mutexes == s.st.mutexes[m := s'.st.mutexes[m]] && s'.st.mutexes[m].ownerTid == w;
    }
    forall k ensures !Owns(s', h, k) { assert k != m ==> (Owns(s', h, k) <==> Owns(s, h, k)); }
  }

  lemma CallReleases(s: Machine, h: Handle, m: Key, tape: Tape)
    requires Inv(s) && h in s.ctl && s.ctl[h].User? && Inside(s, h, m)
    ensures var s' := Call(s, h, Unlock(m), tape);
      h in s'.ctl && Outside(s', h) && s'.ctl[h] == At(Drain(true), Ret(0)) && s'.st.conds == s.st.conds
  {
    var s0 := Forget(s, h);
    KeepLogged(s, s0, h);
    SameMutexes(s, s0, h, m);
    Release(s0, h, m, tape);
    SameMutexes(UnlockPass(s0, h, m, tape).0, Call(s, h, Unlock(m), tape), h, m);
  }

  /** A thread that has not registered owns nothing. */
  lemma NewcomerOutside(s: Machine, h: Handle)
    requires Inv(s) && (h in s.ctl ==> s.ctl[h].Starting?)
    ensures Outside(s, h)
  {
    forall k ensures !Owns(s, h, k) { if k in s.st.mutexes { assert MutexOk(s, k); } }
  }
}
