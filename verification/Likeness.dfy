/** Machines that are the same up to the handles of their threads, whatever they remember of threads
    that are gone: they take the same steps, and the names of gone threads may be given to new ones. */
module Likeness {
  import opened StateModel
  import opened Machine
  import opened Invariant
  import opened Preservation
  import opened Ledger
  import opened Renaming
  import opened RenamedRuns
  import opened Departures

  // ---------------------------------------------------------------- machines alike but for handles

  function Only<V>(m: map<Handle, V>, d: set<Handle>): (r: map<Handle, V>)
    ensures forall h :: h in r <==> h in m && h in d
    ensures forall h :: h in r ==> r[h] == m[h]
  {
    m - (m.Keys - d)
  }

  /** The machine without what no step reads. */
  function Bare(s: Machine): Machine {
    s.(st := s.st.(info := Only(s.st.info, Living(s))),
       log := Log(s.log.joins, [], CondLog(map[], map[], map[]), BarrierLog(map[], map[]), s.log.strayExit))
  }

  lemma BareKin(s: Machine)
    ensures Kin(Living(s), s, Bare(s)) && Living(Bare(s)) == Living(s)
  {
  }

  lemma KinBare(s: Machine, t: Machine)
    requires Kin(Living(s), s, t)
    ensures Bare(t) == Bare(s)
  {
    assert Living(t) == Living(s);
    OnlySame(s.st.info, t.st.info, Living(s));
  }

  lemma OnlySame<V>(m: map<Handle, V>, r: map<Handle, V>, d: set<Handle>)
    requires forall h {:trigger h in m} {:trigger h in r} :: h in d ==> (h in m <==> h in r)
    requires forall h {:trigger m[h]} {:trigger r[h]} :: h in d && h in m && h in r ==> m[h] == r[h]
    ensures Only(m, d) == Only(r, d)
  {
    var a, b := Only(m, d), Only(r, d);
    forall h ensures h in a <==> h in b {}
    forall h | h in a ensures a[h] == b[h] { assert h in m && h in r && m[h] == r[h]; }
    assert a.Keys == b.Keys;
  }

  lemma RenMapLess<V, W>(f: Names, m: map<Handle, V>, r: map<Handle, W>, v: V -> W, d: set<Handle>, e: set<Handle>)
    requires Renames(f) && RenMap(f, m, r, v) && forall k {:trigger k in e} {:trigger f.from(k)} :: k in e <==> f.from(k) in d
    ensures RenMap(f, Only(m, d), Only(r, e), v)
  {
  }

  lemma SameBare(f: Names, s: Machine, n: Machine)
    requires Renames(f) && Same(f, s, n)
    ensures Same(f, Bare(s), Bare(n))
  {
    forall k {:trigger f.from(k)} ensures k in Living(n) <==> f.from(k) in Living(s) {
      SameEverywhere(f, s, n, k);
      if f.from(k) in s.ctl { RenKind(f, s.ctl[f.from(k)]); }
    }
    RenMapLess(f, s.st.info, n.st.info, RenThread(f), Living(s), Living(n));
  }

  /** The two are the same up to the handles of their threads; what they say of threads that are gone may differ. */
  ghost predicate Alike(f: Names, s: Machine, n: Machine) {
    Same(f, Bare(s), Bare(n))
  }

  lemma AlikeFields(f: Names, s: Machine, n: Machine)
    requires Renames(f) && Alike(f, s, n)
    ensures n.turn == RenOption(f, s.turn)
    ensures GmtxFree(s) <==> GmtxFree(n)
  {
    SameFields(f, Bare(s), Bare(n));
    SameFree(f, Bare(s), Bare(n));
  }

  lemma AlikeAt(f: Names, s: Machine, n: Machine, h: Handle)
    requires Renames(f) && Alike(f, s, n)
    ensures f.to(h) in n.ctl <==> h in s.ctl
    ensures h in s.ctl ==> n.ctl[f.to(h)] == RenControl(f)(s.ctl[h])
    ensures f.to(h) in n.args <==> h in s.args
    ensures h in s.args ==> n.args[f.to(h)] == s.args[h]
  {
    SameAt(f, Bare(s), Bare(n), h);
  }

  lemma AlikeEnabled(f: Names, s: Machine, n: Machine, l: Label)
    requires Renames(f) && Alike(f, s, n)
    ensures Enabled(s, l) <==> Enabled(n, RenLabel(f, l))
  {
    hide Kin, Bare, Enabled, Same;
    BareKin(s);
    BareKin(n);
    KinEnabled(s, Bare(s), l);
    KinEnabled(n, Bare(n), RenLabel(f, l));
    SameEnabled(f, Bare(s), Bare(n), l);
  }

  /** A step of one is, renamed, a step of the other, and they stay alike. */
  lemma AlikeNext(f: Names, s: Machine, n: Machine, l: Label, tape: Tape)
    requires Renames(f) && Inv(s) && Inv(n) && Alike(f, s, n) && Enabled(s, l)
    ensures Enabled(n, RenLabel(f, l)) && Alike(f, Next(s, l, tape), Next(n, RenLabel(f, l), tape))
  {
    hide Kin, Bare, Enabled, Same, Inv, Next, Renames;
    BareKin(s);
    BareKin(n);
    AlikeEnabled(f, s, n, l);
    var m := RenLabel(f, l);
    KinNext(s, Bare(s), l, tape);
    KinNext(n, Bare(n), m, tape);
    SameNext(f, Bare(s), Bare(n), l, tape);
    SameBare(f, Next(Bare(s), l, tape), Next(Bare(n), m, tape));
    KinBare(Next(s, l, tape), Next(Bare(s), l, tape));
    KinBare(Next(n, m, tape), Next(Bare(n), m, tape));
  }

  // ---------------------------------------------------------------- other names for threads that are gone

  /** `g` gives the handles of every thread not yet reaped the names `f` gives them. */
  ghost predicate Agree(f: Names, g: Names, d: set<Handle>) {
    forall h {:trigger f.to(h)} {:trigger g.to(h)} :: h in d ==> g.to(h) == f.to(h)
  }

  lemma AgreeFrom(f: Names, g: Names, d: set<Handle>, k: Handle)
    requires Renames(f) && Renames(g) && Agree(f, g, d)
    ensures f.from(k) in d ==> g.from(k) == f.from(k)
    ensures g.from(k) in d ==> g.from(k) == f.from(k)
  {
    var x, y := f.from(k), g.from(k);
    assert x in d ==> g.to(x) == f.to(x);
    assert y in d ==> g.to(y) == f.to(y);
  }

  lemma AgreeOne(f: Names, g: Names, d: set<Handle>, h: Handle)
    requires Agree(f, g, d)
    ensures h in d ==> g.to(h) == f.to(h)
  {
  }

  lemma AgreeSeq(f: Names, g: Names, d: set<Handle>, hs: seq<Handle>)
    requires Agree(f, g, d) && forall h :: h in hs ==> h in d
    ensures RenSeq(g, hs) == RenSeq(f, hs)
  {
    forall i | 0 <= i < |hs| ensures g.to(hs[i]) == f.to(hs[i]) {
      var h := hs[i];
      assert h in hs && h in d && g.to(h) == f.to(h);
    }
  }

  lemma AgreeKeys<V, W>(f: Names, g: Names, d: set<Handle>, m: map<Handle, V>, r: map<Handle, W>)
    requires Renames(f) && Renames(g) && Agree(f, g, d) && m.Keys <= d && RenKeys(f, m, r)
    ensures RenKeys(g, m, r)
    ensures forall k {:trigger k in r} :: k in r ==> g.from(k) == f.from(k)
  {
    forall k {:trigger k in r} {:trigger g.from(k)} ensures k in r <==> g.from(k) in m
      ensures k in r ==> g.from(k) == f.from(k)
    {
      AgreeFrom(f, g, d, k);
      assert k in r <==> f.from(k) in m;
    }
  }

  lemma AgreeMap<V, W>(f: Names, g: Names, d: set<Handle>, m: map<Handle, V>, r: map<Handle, W>, v: V -> W, w: V -> W)
    requires Renames(f) && Renames(g) && Agree(f, g, d) && m.Keys <= d && RenMap(f, m, r, v)
    requires forall k :: k in m ==> w(m[k]) == v(m[k])
    ensures RenMap(g, m, r, w)
  {
    forall k ensures k in r <==> f.from(k) in m {}
    assert RenKeys(f, m, r);
    AgreeKeys(f, g, d, m, r);
  }

  /** Every handle a machine holds is that of a thread not yet reaped, or none. */
  lemma HandlesKnown(s: Machine, d: set<Handle>)
    requires Inv(s) && JoinsKnown(s) && d == s.ctl.Keys + {0}
    ensures Living(s) <= d && s.log.joins.Keys <= d && s.args.Keys <= d
    ensures WaitersIn(d, s.st)
    ensures s.turn.Some? ==> s.turn.value in d
    ensures s.st.pendingChild.Some? ==> s.st.pendingChild.value in d
    ensures forall m :: m in s.st.mutexes ==> s.st.mutexes[m].ownerTid in d
    ensures forall m :: m in s.held ==> s.held[m].holder in d
    ensures forall h :: Live(s, h) ==> T(s.st, h).tid in d && (T(s.st, h).joiner.Some? ==> T(s.st, h).joiner.value in d)
  {
    LookedUp(s, 0);
    forall c | c in s.args ensures c in d { assert Newborn(s, c); assert Live(s, c); }
    forall m | m in s.st.mutexes ensures s.st.mutexes[m].ownerTid in d { assert MutexOk(s, m); }
    forall m | m in s.held ensures s.held[m].holder in d { assert MutexOk(s, m); }
    forall h | Live(s, h) ensures T(s.st, h).tid in d && (T(s.st, h).joiner.Some? ==> T(s.st, h).joiner.value in d) {
      LookedUp(s, h);
      assert ThreadOk(s, h);
    }
  }

  /** Every join is of a thread not yet reaped. */
  ghost predicate JoinsKnown(s: Machine) {
    s.log.joins.Keys <= s.ctl.Keys
  }

  lemma JoinsNext(s: Machine, l: Label, tape: Tape)
    requires Inv(s) && JoinsKnown(s) && Enabled(s, l)
    ensures JoinsKnown(Next(s, l, tape))
  {
    if l.CallL? && l.op.Exit? {
      LedgerExit(s, l.h, tape);
    } else if l.CallL? && l.op.Join? {
    } else if l.JoinReturnL? {
    } else if Creates(s, l) {
    } else {
      SettledNext(s, l, tape);
    }
  }

  /** Nobody is in the middle of create. */
  ghost predicate NoCreate(s: Machine) {
    forall h {:trigger PointOf(s.ctl[h])} :: h in s.ctl && PointOf(s.ctl[h]).Some? ==> !PointOf(s.ctl[h]).value.CreateBody?
  }

  lemma UserNoCreate(s: Machine, h: Handle)
    requires Inv(s) && h in s.ctl && s.ctl[h].User?
    ensures NoCreate(s)
  {
    Runner(s, h);
    forall x | x in s.ctl && PointOf(s.ctl[x]).Some? ensures !PointOf(s.ctl[x]).value.CreateBody? {
      if x != h { Others(s, h, x); }
    }
  }

  lemma AgreeControl(f: Names, g: Names, d: set<Handle>, s: Machine, h: Handle)
    requires Inv(s) && NoCreate(s) && d == s.ctl.Keys + {0} && Agree(f, g, d) && h in s.ctl
    ensures RenControl(g)(s.ctl[h]) == RenControl(f)(s.ctl[h])
  {
    var c := s.ctl[h];
    RenKind(f, c);
    RenKind(g, c);
    if !c.Exited? {
      assert ThreadOk(s, h);
      LookedUp(s, h);
      if DrainChild(c).Some? { AgreeOne(f, g, d, DrainChild(c).value); }
      var k := PointOf(c);
      if k.Some? && (k.value.JoinCheck? || k.value.JoinCall?) { AgreeOne(f, g, d, k.value.t); }
    }
  }

  lemma AgreeThread(f: Names, g: Names, d: set<Handle>, t: Thread)
    requires Agree(f, g, d) && t.tid in d && (t.joiner.Some? ==> t.joiner.value in d)
    ensures RenThread(g)(t) == RenThread(f)(t)
  {
    AgreeOne(f, g, d, t.tid);
    if t.joiner.Some? { AgreeOne(f, g, d, t.joiner.value); }
  }

  lemma AgreeMutex(f: Names, g: Names, d: set<Handle>, m: SMutex)
    requires Agree(f, g, d) && m.ownerTid in d && forall w :: w in m.waiters ==> w in d
    ensures RenMutex(g)(m) == RenMutex(f)(m)
  {
    AgreeOne(f, g, d, m.ownerTid);
    AgreeSeq(f, g, d, m.waiters);
  }

  lemma AgreeVals<V, W>(m: map<Key, V>, r: map<Key, W>, v: V -> W, w: V -> W)
    requires RenVals(m, r, v) && forall k :: k in m ==> w(m[k]) == v(m[k])
    ensures RenVals(m, r, w)
  {
  }

  lemma AgreeInfo(f: Names, g: Names, d: set<Handle>, info: map<Handle, Thread>, rinfo: map<Handle, Thread>)
    requires Renames(f) && Renames(g) && Agree(f, g, d) && RenMap(f, info, rinfo, RenThread(f)) && info.Keys <= d
    requires forall h :: h in info ==> info[h].tid in d && (info[h].joiner.Some? ==> info[h].joiner.value in d)
    ensures RenMap(g, info, rinfo, RenThread(g))
  {
    forall h | h in info ensures RenThread(g)(info[h]) == RenThread(f)(info[h]) { AgreeThread(f, g, d, info[h]); }
    AgreeMap(f, g, d, info, rinfo, RenThread(f), RenThread(g));
  }

  /** The queues of a record. */
  lemma AgreeQueues(f: Names, g: Names, d: set<Handle>, st: State, rt: State)
    requires Agree(f, g, d) && RenState(f, st, rt) && WaitersIn(d, st)
    requires forall m :: m in st.mutexes ==> st.mutexes[m].ownerTid in d
    ensures RenVals(st.mutexes, rt.mutexes, RenMutex(g)) && RenVals(st.conds, rt.conds, RenQueue(g))
    ensures RenVals(st.barriers, rt.barriers, RenBarrier(g)) && rt.threads == RenSeq(g, st.threads)
  {
    AgreeSeq(f, g, d, st.threads);
    forall m | m in st.mutexes ensures RenMutex(g)(st.mutexes[m]) == RenMutex(f)(st.mutexes[m]) { AgreeMutex(f, g, d, st.mutexes[m]); }
    AgreeVals(st.mutexes, rt.mutexes, RenMutex(f), RenMutex(g));
    forall c | c in st.conds ensures RenQueue(g)(st.conds[c]) == RenQueue(f)(st.conds[c]) {
      forall w | w in st.conds[c] ensures w in d { assert w in CondWaiters(st, c); }
      AgreeSeq(f, g, d, st.conds[c]);
    }
    AgreeVals(st.conds, rt.conds, RenQueue(f), RenQueue(g));
    forall b | b in st.barriers ensures RenBarrier(g)(st.barriers[b]) == RenBarrier(f)(st.barriers[b]) { AgreeSeq(f, g, d, st.barriers[b].waiters); }
    AgreeVals(st.barriers, rt.barriers, RenBarrier(f), RenBarrier(g));
  }

  lemma AgreeState(f: Names, g: Names, d: set<Handle>, st: State, rt: State)
    requires Renames(f) && Renames(g) && Agree(f, g, d) && RenState(f, st, rt) && WaitersIn(d, st) && st.info.Keys <= d
    requires st.pendingChild.Some? ==> st.pendingChild.value in d
    requires forall m :: m in st.mutexes ==> st.mutexes[m].ownerTid in d
    requires forall h :: h in st.info ==> st.info[h].tid in d && (st.info[h].joiner.Some? ==> st.info[h].joiner.value in d)
    ensures RenState(g, st, rt)
  {
    hide Renames, Agree, WaitersIn, RenMap, RenVals;
    AgreeInfo(f, g, d, st.info, rt.info);
    AgreeQueues(f, g, d, st, rt);
    if st.pendingChild.Some? { AgreeOne(f, g, d, st.pendingChild.value); }
  }

  lemma BareKnown(s: Machine, d: set<Handle>)
    requires Inv(s) && JoinsKnown(s) && d == s.ctl.Keys + {0}
    ensures var st := Bare(s).st;
      && WaitersIn(d, st) && st.info.Keys <= d
      && (st.pendingChild.Some? ==> st.pendingChild.value in d)
      && (forall m :: m in st.mutexes ==> st.mutexes[m].ownerTid in d)
      && (forall h :: h in st.info ==> st.info[h].tid in d && (st.info[h].joiner.Some? ==> st.info[h].joiner.value in d))
  {
    HandlesKnown(s, d);
    forall h | h in Bare(s).st.info ensures Bare(s).st.info[h] == T(s.st, h) && Live(s, h) {}
    forall c, w | w in CondWaiters(Bare(s).st, c) ensures w in d { assert w in CondWaiters(s.st, c); }
  }

  lemma AgreePoints(f: Names, g: Names, d: set<Handle>, s: Machine, n: Machine, h: Handle)
    requires Renames(f) && Renames(g) && Agree(f, g, d) && d == s.ctl.Keys + {0} && RenMap(f, s.ctl, n.ctl, RenControl(f))
    requires Inv(s) && h in s.ctl && s.ctl[h].User?
    ensures RenMap(g, s.ctl, n.ctl, RenControl(g))
  {
    hide RenMap, Renames, RenControl;
    UserNoCreate(s, h);
    forall x | x in s.ctl ensures RenControl(g)(s.ctl[x]) == RenControl(f)(s.ctl[x]) { AgreeControl(f, g, d, s, x); }
    AgreeMap(f, g, d, s.ctl, n.ctl, RenControl(f), RenControl(g));
  }

  lemma AgreeHeld(f: Names, g: Names, d: set<Handle>, held: map<Key, RealMutex>, rheld: map<Key, RealMutex>)
    requires Agree(f, g, d) && RenVals(held, rheld, RenReal(f)) && forall m :: m in held ==> held[m].holder in d
    ensures RenVals(held, rheld, RenReal(g))
  {
    forall m | m in held ensures RenReal(g)(held[m]) == RenReal(f)(held[m]) { AgreeOne(f, g, d, held[m].holder); }
    AgreeVals(held, rheld, RenReal(f), RenReal(g));
  }

  /** Only the names of threads not yet reaped matter. */
  lemma Retarget(f: Names, g: Names, s: Machine, n: Machine, h: Handle)
    requires Renames(f) && Renames(g) && Agree(f, g, s.ctl.Keys) && Alike(f, s, n)
    requires Inv(s) && JoinsKnown(s) && h in s.ctl && s.ctl[h].User?
    ensures Alike(g, s, n)
  {
    hide Inv, WaitersIn, RenKeys, RenMap, RenVals, RenState;
    var d := s.ctl.Keys + {0};
    HandlesKnown(s, d);
    BareKnown(s, d);
    AgreePoints(f, g, d, s, n, h);
    AgreeHeld(f, g, d, s.held, n.held);
    AgreeState(f, g, d, Bare(s).st, Bare(n).st);
    AgreeMap(f, g, d, s.args, n.args, Flag(), Flag());
    AgreeKeys(f, g, d, s.log.joins, n.log.joins);
    if s.turn.Some? { AgreeOne(f, g, d, s.turn.value); }
  }
}
