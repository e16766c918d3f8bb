/** `struct State` itself: the object whose fields every call updates in place under the global
    lock (rsched/src/lib.rs:102-350, and the stretches of the entry points that work on it). Each
    method is proved to do to the fields what its function in `StateModel` says, with the words of
    the scheduler's own seed; what those functions keep is proved in the other modules. */
module Registry {
  import opened Prelude
  import opened StateModel
  import opened Scheduler
  import Choice
  import Xorshift

  class Registry {
    const scheduler: AnyScheduler
    var threads: seq<Handle>
    var info: map<Handle, Thread>
    var mutexes: map<Key, SMutex>
    var recursiveMutexes: set<Key>
    var conds: map<Key, seq<Handle>>
    var barriers: map<Key, SBarrier>
    var pendingChild: Option<Handle>

    ghost function Rng(): Rng {
      scheduler.Rng()
    }

    ghost function Words(): Tape {
      Xorshift.SeedTape(Rng().seed)
    }

    ghost function Model(): State
      reads this, Rng()
    {
      State(threads, info, mutexes, recursiveMutexes, conds, barriers, pendingChild, Rng().draws)
    }

    ghost predicate Known(hs: seq<Handle>)
      reads `info
    {
      forall i :: 0 <= i < |hs| ==> hs[i] in info
    }

    /** Every handle on a list has a record, so looking it up never panics. */
    ghost predicate Valid()
      reads this, Rng()
    {
      && Rng().Valid()
      && Known(threads)
      && (forall m :: m in mutexes ==> Known(mutexes[m].waiters))
      && (forall c :: c in conds ==> Known(conds[c]))
      && (forall b :: b in barriers ==> Known(barriers[b].waiters))
    }

    constructor (seed: bv64, logging: bool)
      ensures Valid() && fresh(Rng()) && Rng().seed == seed
      ensures Model() == State([], map[], map[], {}, map[], map[], None, 0)
    {
      var walk := new RandomWalk(seed);
      var logger := new LoggingScheduler(walk);
      scheduler := if logging then Logged(logger) else Plain(walk);
      threads, info, mutexes, recursiveMutexes := [], map[], map[], {};
      conds, barriers, pendingChild := map[], map[], None;
    }

    method Add(h: Handle, tid: Handle)
      requires Valid()
      modifies this
      ensures Valid() && Model() == StateModel.Add(old(Model()), h, tid)
    {
      threads := threads + [h];
      info := info[h := NewThread(tid)];
    }

    method Remove(h: Handle)
      requires Valid()
      modifies this
      ensures Valid() && Model() == StateModel.Remove(old(Model()), h)
    {
      var kept := [];
      for i := 0 to |threads|
        invariant kept == Without(threads[..i], h) && Known(kept)
      {
        assert threads[..i + 1][..i] == threads[..i];
        if threads[i] != h {
          kept := kept + [threads[i]];
        }
      }
      assert threads[..|threads|] == threads;
      threads := kept;
      if h in info {
        info := info[h := info[h].(isBlocking := true, isExited := true)];
      }
    }

    method SetIsBlocking(h: Handle, blocking: bool)
      requires Valid() && h in info
      modifies `info
      ensures Valid() && Model() == SetBlocking(old(Model()), h, blocking)
    {
      info := info[h := info[h].(isBlocking := blocking)];
    }

    /** The flags a decision is made on (168-184). */
    method Flags() returns (blocking: seq<bool>)
      requires Valid()
      ensures blocking == BlockingFlags(Model())
    {
      blocking := [];
      for i := 0 to |threads|
        invariant |blocking| == i
        invariant forall k :: 0 <= k < i ==> blocking[k] == !Eligible(Model(), threads[k])
      {
        assert Known(threads);
        var t := info[threads[i]];
        blocking := blocking + [t.isBlocking || !t.startupDone || !t.isInRschedWait];
      }
    }

    /** The index of the thread to run next. */
    method Choose() returns (next: Option<nat>)
      requires Valid()
      modifies Rng()
      ensures Valid() && (next.Some? ==> next.value < |threads|)
      ensures (Model(), if next.Some? then Some(threads[next.value]) else None) == StateModel.Choose(old(Model()), Words())
      ensures Walked(old(Rng().state), Rng().state, BlockingFlags(Model()), next)
    {
      var blocking := Flags();
      next := ChooseBy(scheduler, blocking);
    }

    /** context_switch from after its drain up to the choice (228-240). */
    method SwitchTarget(caller: Handle) returns (next: Option<nat>)
      requires Valid()
      modifies `info, Rng()
      ensures Valid() && (next.Some? ==> next.value < |threads|)
      ensures var target := if next.Some? then Some(threads[next.value]) else None;
        if caller !in threads || |threads| <= 1 then Model() == old(Model()) && next == None
        else (Model(), target) == StateModel.Choose(SetStarted(old(Model()), caller), Words())
    {
      if caller !in threads || |threads| <= 1 {
        return None;
      }
      if !info[caller].startupDone {
        info := info[caller := info[caller].(startupDone := true)];
      }
      assert info == SetStarted(old(Model()), caller).info;
      next := Choose();
    }

    /** rsched_note_pthread_mutex_init and _destroy of a mutex not in use (388-412); whether the
        attribute asked for a recursive mutex is an argument. */
    method NoteMutex(key: Key, recursive: bool)
      requires Valid()
      modifies `recursiveMutexes
      ensures Valid() && Model() == StateModel.NoteMutex(old(Model()), key, recursive)
    {
      if recursive {
        recursiveMutexes := recursiveMutexes + {key};
      } else {
        recursiveMutexes := recursiveMutexes - {key};
      }
    }

    method WillBlock(key: Key, tid: Handle) returns (blocks: bool)
      ensures blocks == StateModel.WillBlock(Model(), key, tid)
    {
      blocks := key in mutexes && mutexes[key].ownerTid != 0 && mutexes[key].ownerTid != tid;
    }

    /** The loop body of mutex_lock up to its context switch (288-300). */
    method LockPass(key: Key, caller: Handle) returns (acquired: bool)
      requires Valid() && caller in info
      modifies this
      ensures Valid() && (Model(), acquired) == TryAcquire(old(Model()), key, caller)
    {
      var tid := info[caller].tid;
      if key !in mutexes {
        mutexes := mutexes[key := SMutex(tid, 0, [])];
      }
      var e := mutexes[key];
      if e.ownerTid == tid {
        mutexes := mutexes[key := e.(recursiveCount := e.recursiveCount + 1)];
        assert mutexes == old(mutexes)[key := mutexes[key]];
        return true;
      }
      if caller !in e.waiters {
        mutexes := mutexes[key := e.(waiters := e.waiters + [caller])];
      }
      assert mutexes == old(mutexes)[key := mutexes[key]];
      SetIsBlocking(caller, true);
      return false;
    }

    /** mutex_unlock. A recursion count of zero would wrap around, so callers must not own such a mutex. */
    method MutexUnlock(key: Key, caller: Handle) returns (r: int)
      requires Valid() && caller in info
      requires key in mutexes && mutexes[key].ownerTid == info[caller].tid ==> mutexes[key].recursiveCount >= 1
      modifies this, Rng()
      ensures Valid() && (Model(), r) == StateModel.MutexUnlock(old(Model()), key, caller, Words())
    {
      var tid := info[caller].tid;
      if key !in mutexes {
        return EINVAL;
      }
      if mutexes[key].ownerTid != tid {
        return EPERM;
      }
      mutexes := mutexes[key := mutexes[key].(recursiveCount := mutexes[key].recursiveCount - 1)];
      if mutexes[key].recursiveCount > 0 {
        return 0;
      }
      var waiters := mutexes[key].waiters;
      if |waiters| == 0 {
        mutexes := mutexes - {key};
        assert mutexes == old(mutexes) - {key};
        return 0;
      }
      HandOver(key);
      assert mutexes == old(mutexes)[key := mutexes[key]];
      return 0;
    }

    /** The rest of mutex_unlock: one of the waiters becomes the owner (338-349). */
    method HandOver(key: Key)
      requires Valid() && key in mutexes && mutexes[key].waiters != []
      modifies this, Rng()
      ensures Valid()
      ensures var was, ws := old(Model()), old(mutexes[key].waiters);
        var (drawn, idx) := ChooseIndex(was, |ws|, Words());
        Model() == SetBlocking(drawn.(mutexes := was.mutexes[key := SMutex(T(was, ws[idx]).tid, was.mutexes[key].recursiveCount, RemoveAt(ws, idx))]),
                               ws[idx], false)
      ensures var ws := old(mutexes[key].waiters); var w := ws[(Rng().state as nat) % |ws|];
        && Rng().state == Xorshift.Next(old(Rng().state))
        && key in mutexes && mutexes[key].ownerTid == old(info)[w].tid && w in info && !info[w].isBlocking
    {
      var waiters := mutexes[key].waiters;
      var idx := PickOne(|waiters|);
      var waiter := waiters[idx];
      assert waiter in waiters;
      mutexes := mutexes[key := SMutex(info[waiter].tid, mutexes[key].recursiveCount, RemoveAt(waiters, idx))];
      SetIsBlocking(waiter, false);
    }

    /** Choosing among candidates of which none is blocking. */
    method PickOne(n: nat) returns (idx: nat)
      requires Rng().Valid() && n > 0
      modifies Rng()
      ensures Rng().Valid() && idx < n
      ensures (Model(), idx) == ChooseIndex(old(Model()), n, Words())
      ensures Rng().state == Xorshift.Next(old(Rng().state)) && idx == (Rng().state as nat) % n
    {
      var blocking := seq(n, _ => false);
      var choice := ChooseBy(scheduler, blocking);
      Choice.Wraps(Words()(old(Rng().draws)) % n, 0, n);
      Choice.FirstOfAll(blocking, (Rng().state as nat) % n, choice);
      idx := choice.value;
    }

    /** cond_wait once the mutex is released (1499-1506). */
    method CondEnqueue(key: Key, caller: Handle)
      requires Valid() && caller in info
      modifies this
      ensures Valid() && Model() == StateModel.CondEnqueue(old(Model()), key, caller)
    {
      if key !in conds {
        conds := conds[key := []];
      }
      conds := conds[key := conds[key] + [caller]];
      SetIsBlocking(caller, true);
    }

    /** cond_signal up to its context switch (1534-1543). */
    method CondSignal(key: Key)
      requires Valid()
      modifies this, Rng()
      ensures Valid() && Model() == StateModel.CondSignal(old(Model()), key, Words())
      ensures key in old(conds) && old(conds[key]) != [] ==>
        var ws := old(conds[key]); var i := (Rng().state as nat) % |ws|;
        && Rng().state == Xorshift.Next(old(Rng().state))
        && key in conds && conds[key] == RemoveAt(ws, i) && ws[i] in info && !info[ws[i]].isBlocking
    {
      var n := if key in conds then |conds[key]| else 0;
      if n > 0 {
        var waiters := conds[key];
        var idx := PickOne(n);
        assert waiters[idx] in waiters;
        conds := conds[key := RemoveAt(waiters, idx)];
        SetIsBlocking(waiters[idx], false);
      }
    }

    /** The loops that wake a whole list. */
    method WakeAll(waiters: seq<Handle>)
      requires Valid() && Known(waiters)
      modifies `info
      ensures Valid() && Model() == UnblockAll(old(Model()), waiters)
    {
      for i := 0 to |waiters|
        invariant Valid() && Known(waiters)
        invariant Model() == UnblockAll(old(Model()), waiters[..i])
      {
        assert waiters[..i + 1][..i] == waiters[..i] && waiters[i] in waiters;
        SetIsBlocking(waiters[i], false);
      }
      assert waiters[..|waiters|] == waiters;
    }

    /** cond_broadcast up to its context switch (1557-1561). */
    method CondBroadcast(key: Key)
      requires Valid()
      modifies this
      ensures Valid() && Model() == StateModel.CondBroadcast(old(Model()), key)
    {
      if key in conds {
        var waiters := conds[key];
        conds := conds - {key};
        WakeAll(waiters);
      }
    }

    /** barrier_wait between its drain and its context switch (1604-1632): EINVAL for a barrier that was
        never initialised, else 0 and whether the caller completed the round. */
    method BarrierArrive(key: Key, caller: Handle) returns (r: int, released: bool)
      requires Valid() && caller in info
      modifies this
      ensures Valid()
      ensures key !in old(barriers) ==> r == EINVAL && !released && Model() == old(Model())
      ensures key in old(barriers) ==> r == 0 && (Model(), released) == StateModel.BarrierArrive(old(Model()), key, caller)
    {
      if key !in barriers {
        return EINVAL, false;
      }
      var b := barriers[key];
      if caller !in b.waiters {
        b := b.(waiters := b.waiters + [caller]);
        barriers := barriers[key := b];
      }
      assert barriers == old(barriers)[key := b];
      if |b.waiters| < b.count {
        SetIsBlocking(caller, true);
      }
      r, released := 0, false;
      if |b.waiters| >= b.count {
        barriers := barriers[key := b.(waiters := [])];
        assert barriers == old(barriers)[key := SBarrier(b.count, [])];
        WakeAll(b.waiters);
        released := true;
      }
    }

    /** do_thread_exit up to its signal (1154-1162). */
    method Depart(caller: Handle) returns (next: Option<nat>)
      requires Valid() && caller in info && (info[caller].joiner.Some? ==> info[caller].joiner.value in info)
      modifies this, Rng()
      ensures Valid() && (next.Some? ==> next.value < |threads|)
      ensures (Model(), if next.Some? then Some(threads[next.value]) else None)
              == StateModel.Choose(Departed(old(Model()), caller), Words())
    {
      if info[caller].joiner.Some? {
        SetIsBlocking(info[caller].joiner.value, false);
      }
      Remove(caller);
      next := None;
      if |threads| != 0 {
        next := Choose();
      }
    }
  }
}
