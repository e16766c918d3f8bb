/** Thread handles are opaque: what the scheduler does to a state with its handles renamed is what it
    does to the state, renamed. The operating system picks the handles, so this is what makes runs
    with different handles comparable. */
module Renaming {
  import opened Prelude
  import opened Choice
  import opened StateModel

  /** A one-to-one renaming of handles, with its inverse; 0 stands for no thread. */
  datatype Names = Names(to: Handle -> Handle, from: Handle -> Handle)

  ghost predicate Renames(f: Names) {
    && (forall h {:trigger f.to(h)} :: f.from(f.to(h)) == h)
    && (forall h {:trigger f.from(h)} :: f.to(f.from(h)) == h)
    && f.to(0) == 0
  }

  lemma RenSame(f: Names, a: Handle, b: Handle)
    requires Renames(f)
    ensures f.to(a) == f.to(b) <==> a == b
    ensures f.to(a) == 0 <==> a == 0
  {
    assert f.from(f.to(a)) == a && f.from(f.to(b)) == b && f.from(f.to(0)) == 0;
  }

  // ---------------------------------------------------------------- lists and maps

  function RenSeq(f: Names, hs: seq<Handle>): (r: seq<Handle>)
    ensures |r| == |hs|
    ensures forall i :: 0 <= i < |hs| ==> r[i] == f.to(hs[i])
  {
    seq(|hs|, i requires 0 <= i < |hs| => f.to(hs[i]))
  }

  function RenOption(f: Names, h: Option<Handle>): Option<Handle> {
    if h.Some? then Some(f.to(h.value)) else None
  }

  lemma RenIn(f: Names, hs: seq<Handle>, h: Handle)
    requires Renames(f)
    ensures f.to(h) in RenSeq(f, hs) <==> h in hs
  {
    if h in hs {
      var i :| 0 <= i < |hs| && hs[i] == h;
      assert RenSeq(f, hs)[i] == f.to(h);
    }
    if f.to(h) in RenSeq(f, hs) {
      var i :| 0 <= i < |hs| && RenSeq(f, hs)[i] == f.to(h);
      assert f.from(f.to(hs[i])) == hs[i];
    }
  }

  lemma RenAppend(f: Names, hs: seq<Handle>, h: Handle)
    ensures RenSeq(f, hs + [h]) == RenSeq(f, hs) + [f.to(h)]
    ensures RenSeq(f, []) == []
  {
  }

  lemma RenRemoveAt(f: Names, hs: seq<Handle>, i: nat)
    requires i < |hs|
    ensures RenSeq(f, RemoveAt(hs, i)) == RemoveAt(RenSeq(f, hs), i)
  {
  }

  lemma {:induction false} RenWithout(f: Names, hs: seq<Handle>, h: Handle)
    requires Renames(f)
    ensures RenSeq(f, Without(hs, h)) == Without(RenSeq(f, hs), f.to(h))
  {
    if hs != [] {
      var front, last := hs[..|hs| - 1], hs[|hs| - 1];
      RenWithout(f, front, h);
      assert RenSeq(f, hs)[..|hs| - 1] == RenSeq(f, front);
      RenSame(f, last, h);
      RenAppend(f, Without(front, h), last);
    }
  }

  /** `r` is the map `m` from handles, renamed; `v` renames its values. */
  ghost predicate RenMap<V, W>(f: Names, m: map<Handle, V>, r: map<Handle, W>, v: V -> W) {
    && (forall k {:trigger k in r} {:trigger f.from(k)} :: k in r <==> f.from(k) in m)
    && (forall k {:trigger r[k]} :: k in r ==> f.from(k) in m && r[k] == v(m[f.from(k)]))
  }

  lemma RenMapAt<V, W>(f: Names, m: map<Handle, V>, r: map<Handle, W>, v: V -> W, h: Handle)
    requires Renames(f) && RenMap(f, m, r, v)
    ensures f.to(h) in r <==> h in m
    ensures h in m ==> r[f.to(h)] == v(m[h])
  {
    var k := f.to(h);
    assert f.from(k) == h && (k in r <==> f.from(k) in m);
  }

  lemma RenMapSet<V, W>(f: Names, m: map<Handle, V>, r: map<Handle, W>, v: V -> W, h: Handle, x: V)
    requires Renames(f) && RenMap(f, m, r, v)
    ensures RenMap(f, m[h := x], r[f.to(h) := v(x)], v)
    ensures RenMap(f, m - {h}, r - {f.to(h)}, v)
  {
    forall k {:trigger f.from(k)} ensures k == f.to(h) <==> f.from(k) == h {
      assert f.to(f.from(k)) == k && f.from(f.to(h)) == h;
    }
  }

  /** `r` has the keys of the map `m` from handles, renamed. */
  ghost predicate RenKeys<V, W>(f: Names, m: map<Handle, V>, r: map<Handle, W>) {
    forall k {:trigger k in r} {:trigger f.from(k)} :: k in r <==> f.from(k) in m
  }

  lemma RenKeysAt<V, W>(f: Names, m: map<Handle, V>, r: map<Handle, W>, h: Handle)
    requires Renames(f) && RenKeys(f, m, r)
    ensures f.to(h) in r <==> h in m
  {
    var k := f.to(h);
    assert f.from(k) == h && (k in r <==> f.from(k) in m);
  }

  lemma RenKeysSet<V, W>(f: Names, m: map<Handle, V>, r: map<Handle, W>, h: Handle, x: V, y: W)
    requires Renames(f) && RenKeys(f, m, r)
    ensures RenKeys(f, m[h := x], r[f.to(h) := y])
    ensures RenKeys(f, m - {h}, r - {f.to(h)})
  {
    forall k {:trigger f.from(k)} ensures k == f.to(h) <==> f.from(k) == h {
      assert f.to(f.from(k)) == k && f.from(f.to(h)) == h;
    }
  }

  /** `r` is the map `m` from keys, with its values renamed. */
  ghost predicate RenVals<V, W>(m: map<Key, V>, r: map<Key, W>, v: V -> W) {
    && (forall k {:trigger k in r} {:trigger k in m} :: k in r <==> k in m)
    && (forall k {:trigger r[k]} {:trigger m[k]} :: k in m && k in r ==> r[k] == v(m[k]))
  }

  lemma RenValsSet<V, W>(m: map<Key, V>, r: map<Key, W>, v: V -> W, k: Key, x: V)
    requires RenVals(m, r, v)
    ensures RenVals(m[k := x], r[k := v(x)], v)
    ensures RenVals(m - {k}, r - {k}, v)
  {
  }

  // ---------------------------------------------------------------- the record

  function RenThread(f: Names): Thread -> Thread {
    (t: Thread) => t.(tid := f.to(t.tid), joiner := RenOption(f, t.joiner))
  }

  function RenMutex(f: Names): SMutex -> SMutex {
    (m: SMutex) => SMutex(f.to(m.ownerTid), m.recursiveCount, RenSeq(f, m.waiters))
  }

  function RenQueue(f: Names): seq<Handle> -> seq<Handle> {
    (hs: seq<Handle>) => RenSeq(f, hs)
  }

  function RenBarrier(f: Names): SBarrier -> SBarrier {
    (b: SBarrier) => SBarrier(b.count, RenSeq(f, b.waiters))
  }

  /** `rt` is the record `st` with its handles renamed. */
  ghost predicate RenState(f: Names, st: State, rt: State) {
    && rt.threads == RenSeq(f, st.threads)
    && RenMap(f, st.info, rt.info, RenThread(f))
    && RenVals(st.mutexes, rt.mutexes, RenMutex(f))
    && rt.recursiveMutexes == st.recursiveMutexes
    && RenVals(st.conds, rt.conds, RenQueue(f))
    && RenVals(st.barriers, rt.barriers, RenBarrier(f))
    && rt.pendingChild == RenOption(f, st.pendingChild)
    && rt.draws == st.draws
  }

  lemma RenT(f: Names, st: State, rt: State, h: Handle)
    requires Renames(f) && RenState(f, st, rt)
    ensures T(rt, f.to(h)) == RenThread(f)(T(st, h))
    ensures f.to(h) in rt.info <==> h in st.info
  {
    RenMapAt(f, st.info, rt.info, RenThread(f), h);
  }

  /** Changing one thread's record. */
  lemma RenInfo(f: Names, st: State, rt: State, h: Handle, t: Thread)
    requires Renames(f) && RenState(f, st, rt)
    ensures RenState(f, st.(info := st.info[h := t]), rt.(info := rt.info[f.to(h) := RenThread(f)(t)]))
  {
    RenMapSet(f, st.info, rt.info, RenThread(f), h, t);
  }

  lemma RenFlag(f: Names, st: State, rt: State, h: Handle, b: bool)
    requires Renames(f) && RenState(f, st, rt)
    ensures RenState(f, SetBlocking(st, h, b), SetBlocking(rt, f.to(h), b))
    ensures RenState(f, SetInWait(st, h, b), SetInWait(rt, f.to(h), b))
    ensures RenState(f, SetStarted(st, h), SetStarted(rt, f.to(h)))
  {
    hide RenState, Renames;
    RenT(f, st, rt, h);
    RenInfo(f, st, rt, h, T(st, h).(isBlocking := b));
    RenInfo(f, st, rt, h, T(st, h).(isInRschedWait := b));
    RenInfo(f, st, rt, h, T(st, h).(startupDone := true));
  }

  lemma RenEligible(f: Names, st: State, rt: State)
    requires Renames(f) && RenState(f, st, rt)
    ensures BlockingFlags(rt) == BlockingFlags(st)
  {
    forall i | 0 <= i < |st.threads| ensures BlockingFlags(rt)[i] == BlockingFlags(st)[i] {
      RenT(f, st, rt, st.threads[i]);
    }
  }

  lemma RenChoose(f: Names, st: State, rt: State, tape: Tape)
    requires Renames(f) && RenState(f, st, rt)
    ensures RenState(f, Choose(st, tape).0, Choose(rt, tape).0)
    ensures Choose(rt, tape).1 == RenOption(f, Choose(st, tape).1)
  {
    RenEligible(f, st, rt);
    if |st.threads| == 0 {
    } else if Pick(BlockingFlags(st), tape(st.draws) % |st.threads|).Some? {
    } else {
    }
  }

  lemma RenMutexes(f: Names, st: State, rt: State, m: Key, x: SMutex)
    requires Renames(f) && RenState(f, st, rt)
    ensures RenState(f, st.(mutexes := st.mutexes[m := x]), rt.(mutexes := rt.mutexes[m := RenMutex(f)(x)]))
    ensures RenState(f, st.(mutexes := st.mutexes - {m}), rt.(mutexes := rt.mutexes - {m}))
  {
    RenValsSet(st.mutexes, rt.mutexes, RenMutex(f), m, x);
  }

  lemma RenMutexAt(f: Names, st: State, rt: State, m: Key)
    requires RenState(f, st, rt)
    ensures m in rt.mutexes <==> m in st.mutexes
    ensures m in st.mutexes ==> rt.mutexes[m] == RenMutex(f)(st.mutexes[m])
    ensures rt.recursiveMutexes == st.recursiveMutexes && rt.draws == st.draws
  {
  }

  lemma RenWillBlock(f: Names, st: State, rt: State, m: Key, h: Handle)
    requires Renames(f) && RenState(f, st, rt)
    ensures WillBlock(rt, m, T(rt, f.to(h)).tid) == WillBlock(st, m, T(st, h).tid)
    ensures m in rt.mutexes <==> m in st.mutexes
    ensures m in st.mutexes ==> (rt.mutexes[m].ownerTid == T(rt, f.to(h)).tid <==> st.mutexes[m].ownerTid == T(st, h).tid)
  {
    hide RenState, Renames;
    RenT(f, st, rt, h);
    RenMutexAt(f, st, rt, m);
    if m in st.mutexes { RenSame(f, st.mutexes[m].ownerTid, T(st, h).tid); }
  }

  lemma RenQueueUp(f: Names, x: SMutex, h: Handle)
    requires Renames(f)
    ensures var y := if h in x.waiters then x else x.(waiters := x.waiters + [h]);
      var rx := RenMutex(f)(x);
      RenMutex(f)(y) == if f.to(h) in rx.waiters then rx else rx.(waiters := rx.waiters + [f.to(h)])
  {
    RenIn(f, x.waiters, h);
    RenAppend(f, x.waiters, h);
  }

  lemma RenFresh(f: Names, tid: Handle)
    ensures RenMutex(f)(SMutex(tid, 0, [])) == SMutex(f.to(tid), 0, [])
  {
    RenAppend(f, [], tid);
  }

  lemma RenAcquire(f: Names, st: State, rt: State, m: Key, h: Handle)
    requires Renames(f) && RenState(f, st, rt)
    ensures RenState(f, TryAcquire(st, m, h).0, TryAcquire(rt, m, f.to(h)).0)
    ensures TryAcquire(rt, m, f.to(h)).1 == TryAcquire(st, m, h).1
  {
    hide RenState, Renames;
    var x := if m in st.mutexes then st.mutexes[m] else SMutex(T(st, h).tid, 0, []);
    var rx := if m in rt.mutexes then rt.mutexes[m] else SMutex(T(rt, f.to(h)).tid, 0, []);
    RenT(f, st, rt, h);
    RenMutexAt(f, st, rt, m);
    RenFresh(f, T(st, h).tid);
    assert rx == RenMutex(f)(x);
    RenSame(f, x.ownerTid, T(st, h).tid);
    if x.ownerTid == T(st, h).tid {
      RenMutexes(f, st, rt, m, x.(recursiveCount := x.recursiveCount + 1));
    } else {
      var y := if h in x.waiters then x else x.(waiters := x.waiters + [h]);
      RenQueueUp(f, x, h);
      RenMutexes(f, st, rt, m, y);
      RenFlag(f, st.(mutexes := st.mutexes[m := y]), rt.(mutexes := rt.mutexes[m := RenMutex(f)(y)]), h, true);
    }
  }

  lemma RenUnlock(f: Names, st: State, rt: State, m: Key, h: Handle, tape: Tape)
    requires Renames(f) && RenState(f, st, rt)
    ensures RenState(f, MutexUnlock(st, m, h, tape).0, MutexUnlock(rt, m, f.to(h), tape).0)
    ensures MutexUnlock(rt, m, f.to(h), tape).1 == MutexUnlock(st, m, h, tape).1
  {
    hide RenState, Renames;
    RenMutexAt(f, st, rt, m);
    RenWillBlock(f, st, rt, m, h);
    if m !in st.mutexes {
    } else {
      var x := st.mutexes[m];
      if x.ownerTid != T(st, h).tid {
      } else if x.recursiveCount > 1 {
        RenMutexes(f, st, rt, m, x.(recursiveCount := x.recursiveCount - 1));
      } else if x.waiters == [] {
        RenMutexes(f, st, rt, m, x);
      } else {
        RenHandOver(f, st, rt, m, h, tape);
      }
    }
  }

  lemma RenNewOwner(f: Names, st: State, rt: State, x: SMutex, i: nat)
    requires Renames(f) && RenState(f, st, rt) && i < |x.waiters|
    ensures RenMutex(f)(SMutex(T(st, x.waiters[i]).tid, x.recursiveCount - 1, RemoveAt(x.waiters, i)))
         == SMutex(T(rt, f.to(x.waiters[i])).tid, x.recursiveCount - 1, RemoveAt(RenSeq(f, x.waiters), i))
  {
    RenT(f, st, rt, x.waiters[i]);
    RenRemoveAt(f, x.waiters, i);
  }

  lemma RenDraw(f: Names, st: State, rt: State)
    requires RenState(f, st, rt)
    ensures RenState(f, st.(draws := st.draws + 1), rt.(draws := rt.draws + 1)) && rt.draws == st.draws
  {
  }

  lemma RenHandOver(f: Names, st: State, rt: State, m: Key, h: Handle, tape: Tape)
    requires Renames(f) && RenState(f, st, rt) && m in st.mutexes && st.mutexes[m].waiters != [] && m in rt.mutexes
    requires st.mutexes[m].ownerTid == T(st, h).tid && st.mutexes[m].recursiveCount <= 1
    requires rt.mutexes[m] == RenMutex(f)(st.mutexes[m]) && rt.mutexes[m].ownerTid == T(rt, f.to(h)).tid
    ensures RenState(f, MutexUnlock(st, m, h, tape).0, MutexUnlock(rt, m, f.to(h), tape).0)
    ensures MutexUnlock(st, m, h, tape).1 == MutexUnlock(rt, m, f.to(h), tape).1 == 0
  {
    hide RenState, Renames;
    var x, rx := st.mutexes[m], rt.mutexes[m];
    RenDraw(f, st, rt);
    var i := ChooseIndex(st, |x.waiters|, tape).1;
    var w := x.waiters[i];
    var y := SMutex(T(st, w).tid, x.recursiveCount - 1, RemoveAt(x.waiters, i));
    var st1, rt1 := st.(draws := st.draws + 1), rt.(draws := rt.draws + 1);
    RenNewOwner(f, st, rt, x, i);
    RenMutexes(f, st1, rt1, m, y);
    var st2, rt2 := st1.(mutexes := st.mutexes[m := y]), rt1.(mutexes := rt.mutexes[m := RenMutex(f)(y)]);
    assert MutexUnlock(st, m, h, tape) == (SetBlocking(st2, w, false), 0);
    assert MutexUnlock(rt, m, f.to(h), tape) == (SetBlocking(rt2, f.to(w), false), 0);
    RenFlag(f, st2, rt2, w, false);
  }

  lemma RenConds(f: Names, st: State, rt: State, c: Key, ws: seq<Handle>)
    requires Renames(f) && RenState(f, st, rt)
    ensures RenState(f, st.(conds := st.conds[c := ws]), rt.(conds := rt.conds[c := RenSeq(f, ws)]))
    ensures RenState(f, st.(conds := st.conds - {c}), rt.(conds := rt.conds - {c}))
    ensures CondWaiters(rt, c) == RenSeq(f, CondWaiters(st, c))
  {
    RenValsSet(st.conds, rt.conds, RenQueue(f), c, ws);
    RenAppend(f, [], 0);
  }

  lemma RenEnqueue(f: Names, st: State, rt: State, c: Key, h: Handle)
    requires Renames(f) && RenState(f, st, rt)
    ensures RenState(f, CondEnqueue(st, c, h), CondEnqueue(rt, c, f.to(h)))
  {
    hide RenState, Renames;
    var ws := CondWaiters(st, c) + [h];
    RenConds(f, st, rt, c, ws);
    RenAppend(f, CondWaiters(st, c), h);
    RenFlag(f, st.(conds := st.conds[c := ws]), rt.(conds := rt.conds[c := RenSeq(f, ws)]), h, true);
  }

  lemma RenSignal(f: Names, st: State, rt: State, c: Key, tape: Tape)
    requires Renames(f) && RenState(f, st, rt)
    ensures RenState(f, CondSignal(st, c, tape), CondSignal(rt, c, tape))
  {
    hide RenState, Renames;
    var ws := CondWaiters(st, c);
    RenConds(f, st, rt, c, ws);
    if ws == [] {
    } else {
      RenDraw(f, st, rt);
      var i := ChooseIndex(st, |ws|, tape).1;
      var st1, rt1 := st.(draws := st.draws + 1), rt.(draws := rt.draws + 1);
      RenRemoveAt(f, ws, i);
      RenConds(f, st1, rt1, c, RemoveAt(ws, i));
      RenFlag(f, st1.(conds := st.conds[c := RemoveAt(ws, i)]), rt1.(conds := rt.conds[c := RenSeq(f, RemoveAt(ws, i))]), ws[i], false);
    }
  }

  lemma {:induction false} RenUnblock(f: Names, st: State, rt: State, ws: seq<Handle>)
    requires Renames(f) && RenState(f, st, rt)
    ensures RenState(f, UnblockAll(st, ws), UnblockAll(rt, RenSeq(f, ws)))
  {
    hide RenState, Renames;
    if ws != [] {
      var front := ws[..|ws| - 1];
      RenUnblock(f, st, rt, front);
      assert RenSeq(f, ws)[..|ws| - 1] == RenSeq(f, front);
      RenFlag(f, UnblockAll(st, front), UnblockAll(rt, RenSeq(f, front)), ws[|ws| - 1], false);
    }
  }

  lemma RenBroadcast(f: Names, st: State, rt: State, c: Key)
    requires Renames(f) && RenState(f, st, rt)
    ensures RenState(f, CondBroadcast(st, c), CondBroadcast(rt, c))
  {
    hide RenState, Renames;
    RenConds(f, st, rt, c, []);
    RenUnblock(f, st.(conds := st.conds - {c}), rt.(conds := rt.conds - {c}), CondWaiters(st, c));
  }

  lemma RenBarriers(f: Names, st: State, rt: State, b: Key, x: SBarrier)
    requires Renames(f) && RenState(f, st, rt)
    ensures RenState(f, st.(barriers := st.barriers[b := x]), rt.(barriers := rt.barriers[b := SBarrier(x.count, RenSeq(f, x.waiters))]))
    ensures b in rt.barriers <==> b in st.barriers
    ensures b in st.barriers ==> rt.barriers[b] == SBarrier(st.barriers[b].count, RenSeq(f, st.barriers[b].waiters))
  {
    RenValsSet(st.barriers, rt.barriers, RenBarrier(f), b, x);
  }

  lemma RenArrive(f: Names, st: State, rt: State, b: Key, h: Handle)
    requires Renames(f) && RenState(f, st, rt) && b in st.barriers && b in rt.barriers
    ensures RenState(f, BarrierArrive(st, b, h).0, BarrierArrive(rt, b, f.to(h)).0)
    ensures BarrierArrive(rt, b, f.to(h)).1 == BarrierArrive(st, b, h).1
  {
    hide RenState, Renames;
    var x := st.barriers[b];
    var ws := if h in x.waiters then x.waiters else x.waiters + [h];
    RenIn(f, x.waiters, h);
    RenAppend(f, x.waiters, h);
    var y := SBarrier(x.count, if |ws| < x.count then ws else []);
    RenBarriers(f, st, rt, b, y);
    var st1, rt1 := st.(barriers := st.barriers[b := y]), rt.(barriers := rt.barriers[b := SBarrier(y.count, RenSeq(f, y.waiters))]);
    if |ws| < x.count {
      RenFlag(f, st1, rt1, h, true);
    } else {
      RenUnblock(f, st1, rt1, ws);
    }
  }

  lemma RenThreads(f: Names, st: State, rt: State, h: Handle)
    requires Renames(f) && RenState(f, st, rt)
    ensures f.to(h) in rt.threads <==> h in st.threads
    ensures |rt.threads| == |st.threads| && rt.pendingChild == RenOption(f, st.pendingChild)
  {
    RenIn(f, st.threads, h);
  }

  lemma RenListed(f: Names, st: State, rt: State, h: Handle)
    requires Renames(f) && RenState(f, st, rt)
    ensures RenState(f, st.(threads := Without(st.threads, h)), rt.(threads := Without(rt.threads, f.to(h))))
  {
    RenWithout(f, st.threads, h);
  }

  lemma RenRemove(f: Names, st: State, rt: State, h: Handle)
    requires Renames(f) && RenState(f, st, rt)
    ensures RenState(f, Remove(st, h), Remove(rt, f.to(h)))
  {
    hide RenState, Renames;
    RenListed(f, st, rt, h);
    RenT(f, st, rt, h);
    if h in st.info {
      RenInfo(f, st.(threads := Without(st.threads, h)), rt.(threads := Without(rt.threads, f.to(h))), h,
              st.info[h].(isBlocking := true, isExited := true));
    } else {
    }
  }

  lemma RenDeparted(f: Names, st: State, rt: State, h: Handle)
    requires Renames(f) && RenState(f, st, rt)
    ensures RenState(f, Departed(st, h), Departed(rt, f.to(h)))
  {
    hide RenState, Renames;
    RenT(f, st, rt, h);
    var joiner := T(st, h).joiner;
    if joiner.Some? {
      RenFlag(f, st, rt, joiner.value, false);
      RenRemove(f, SetBlocking(st, joiner.value, false), SetBlocking(rt, f.to(joiner.value), false), h);
    } else {
      RenRemove(f, st, rt, h);
    }
  }

  lemma RenAdd(f: Names, st: State, rt: State, c: Handle)
    requires Renames(f) && RenState(f, st, rt)
    ensures RenState(f, Add(st, c, 0).(pendingChild := Some(c)), Add(rt, f.to(c), 0).(pendingChild := Some(f.to(c))))
    ensures RenState(f, st.(pendingChild := None), rt.(pendingChild := None))
  {
    RenAppend(f, st.threads, c);
    RenMapSet(f, st.info, rt.info, RenThread(f), c, NewThread(0));
  }

  lemma RenJoiner(f: Names, st: State, rt: State, t: Handle, h: Handle)
    requires Renames(f) && RenState(f, st, rt)
    ensures RenState(f, st.(info := st.info[t := T(st, t).(joiner := Some(h))]),
                        rt.(info := rt.info[f.to(t) := T(rt, f.to(t)).(joiner := Some(f.to(h)))]))
  {
    RenT(f, st, rt, t);
    RenInfo(f, st, rt, t, T(st, t).(joiner := Some(h)));
  }

  lemma RenRegistered(f: Names, st: State, rt: State, h: Handle)
    requires Renames(f) && RenState(f, st, rt)
    ensures RenState(f, st.(info := st.info[h := T(st, h).(tid := h, isInRschedWait := true)]),
                        rt.(info := rt.info[f.to(h) := T(rt, f.to(h)).(tid := f.to(h), isInRschedWait := true)]))
  {
    RenT(f, st, rt, h);
    RenInfo(f, st, rt, h, T(st, h).(tid := h, isInRschedWait := true));
  }

  lemma RenNote(f: Names, st: State, rt: State, m: Key, recursive: bool)
    requires RenState(f, st, rt)
    ensures RenState(f, NoteMutex(st, m, recursive), NoteMutex(rt, m, recursive))
  {
  }

  lemma RenOwners(f: Names, st: State, rt: State, h: Handle)
    requires Renames(f) && RenState(f, st, rt)
    ensures (forall m :: m in st.mutexes ==> st.mutexes[m].ownerTid != T(st, h).tid)
       <==> (forall m :: m in rt.mutexes ==> rt.mutexes[m].ownerTid != T(rt, f.to(h)).tid)
  {
    hide RenState, Renames;
    forall m ensures m in rt.mutexes <==> m in st.mutexes
             ensures m in st.mutexes ==> (st.mutexes[m].ownerTid == T(st, h).tid <==> rt.mutexes[m].ownerTid == T(rt, f.to(h)).tid) {
      RenWillBlock(f, st, rt, m, h);
    }
  }
}
