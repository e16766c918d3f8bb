/** Runs under other handles: for a new thread the operating system may pick any unused handle, also
    one that a joined thread had before. Whatever it picks, the same seed gives the same schedule. */
module FreshHandles {
  import opened Prelude
  import opened StateModel
  import opened Machine
  import opened Invariant
  import opened Preservation
  import opened Frames
  import opened Ledger
  import opened Renaming
  import opened RenamedRuns
  import opened Departures
  import opened Likeness
  import opened Enlisting
  import opened Program
  import opened Determinism

  // ---------------------------------------------------------------- normal forms

  lemma EnlistInv(s: Machine, c: Handle)
    requires Inv(s) && Unregistered(s, c)
    ensures Inv(Enlist(s, c)) && Live(s, c) && s.ctl[c].Starting?
  {
    assert Newborn(s, c) && ThreadOk(s, c);
    KeepRegistered(s, Enlist(s, c), c);
  }

  lemma AwaitedInv(s: Machine)
    requires Inv(s)
    ensures Inv(Awaited(s))
  {
    if s.turn.Some? && s.turn.value in s.ctl && s.ctl[s.turn.value].DrainWaiting? {
      var w := s.ctl[s.turn.value];
      KeepDrainBack(s, Awaited(s), s.turn.value, w.child, w.cs, w.k);
    }
  }

  lemma NormInv(s: Machine)
    requires Inv(s)
    ensures Inv(Norm(s)) && (JoinsKnown(s) ==> JoinsKnown(Norm(s)))
    ensures Norm(s).ctl.Keys == s.ctl.Keys && Norm(s).turn == s.turn
  {
    if c :| Unregistered(s, c) {
      NormIs(s, c);
      EnlistInv(s, c);
      AwaitedInv(Enlist(s, c));
    } else {
      AwaitedInv(s);
    }
  }

  /** Likeness may be seen on machines that differ in what no step reads. */
  lemma AlikeBy(f: Names, s: Machine, n: Machine, t: Machine, m: Machine)
    requires Renames(f) && Kin(Living(s), s, t) && Kin(Living(n), n, m) && Same(f, t, m)
    ensures Alike(f, s, n)
  {
    hide Same, Kin;
    SameBare(f, t, m);
    KinBare(s, t);
    KinBare(n, m);
  }

  lemma SameAwaited(f: Names, s: Machine, n: Machine)
    requires Renames(f) && Same(f, s, n)
    ensures Same(f, Awaited(s), Awaited(n))
  {
    SameFields(f, s, n);
    if s.turn.Some? {
      var h := s.turn.value;
      SameAt(f, s, n, h);
      if h in s.ctl {
        var w := s.ctl[h];
        RenKind(f, w);
        if w.DrainWaiting? {
          SameGoto(f, s, n, h, At(DrainLoop(w.child, w.cs), w.k));
          RenAt(f, DrainLoop(w.child, w.cs), w.k);
        }
      }
    }
  }

  lemma KinAwaited(s: Machine)
    ensures Kin(Living(Awaited(s)), Awaited(s), Awaited(Bare(s)))
  {
    BareKin(s);
    assert Living(Awaited(s)) == Living(s);
  }

  lemma AwaitedAlike(f: Names, s: Machine, n: Machine)
    requires Renames(f) && Alike(f, s, n)
    ensures Alike(f, Awaited(s), Awaited(n))
  {
    hide Awaited, Bare, Same, Kin;
    KinAwaited(s);
    KinAwaited(n);
    SameAwaited(f, Bare(s), Bare(n));
    AlikeBy(f, Awaited(s), Awaited(n), Awaited(Bare(s)), Awaited(Bare(n)));
  }

  lemma KinEnlist(s: Machine, c: Handle)
    requires Inv(s) && Unregistered(s, c)
    ensures Kin(Living(Enlist(s, c)), Enlist(s, c), Enlist(Bare(s), c)) && Register(Bare(s), c) == Enlist(Bare(s), c)
  {
    BareKin(s);
    EnlistInv(s, c);
    OnT(Living(s), s.st, Bare(s).st, c);
    assert Living(Enlist(s, c)) == Living(s);
  }

  lemma EnlistAlike(f: Names, s: Machine, n: Machine, c: Handle)
    requires Renames(f) && Alike(f, s, n) && Inv(s) && Inv(n) && Unregistered(s, c) && Unregistered(n, f.to(c))
    ensures Alike(f, Enlist(s, c), Enlist(n, f.to(c)))
  {
    hide Inv, Bare, Same, Enlist, Register, Kin;
    KinEnlist(s, c);
    KinEnlist(n, f.to(c));
    SameRegister(f, Bare(s), Bare(n), c);
    AlikeBy(f, Enlist(s, c), Enlist(n, f.to(c)), Enlist(Bare(s), c), Enlist(Bare(n), f.to(c)));
  }

  lemma NormAlike(f: Names, s: Machine, n: Machine)
    requires Renames(f) && Alike(f, s, n) && Inv(s) && Inv(n)
    ensures Alike(f, Norm(s), Norm(n))
  {
    hide Inv, Alike, Enlist, Awaited;
    if c :| Unregistered(s, c) {
      AlikeAt(f, s, n, c);
      NormIs(s, c);
      NormIs(n, f.to(c));
      EnlistAlike(f, s, n, c);
      AwaitedAlike(f, Enlist(s, c), Enlist(n, f.to(c)));
    } else {
      forall y ensures !Unregistered(n, y) {
        var x := f.from(y);
        assert f.to(x) == y && !Unregistered(s, x);
        AlikeAt(f, s, n, x);
      }
      AwaitedAlike(f, s, n);
    }
  }

  // ---------------------------------------------------------------- whom a program may speak of

  function Creating(s: Machine, h: Handle): set<Handle> {
    if h in s.ctl && PointOf(s.ctl[h]).Some? && PointOf(s.ctl[h]).value.CreateBody? then {PointOf(s.ctl[h]).value.c} else {}
  }

  /** The threads not yet reaped, and the one about to be created. */
  function Known(s: Machine): set<Handle> {
    s.ctl.Keys + if s.turn.Some? then Creating(s, s.turn.value) else {}
  }

  lemma GoCreates(s: Machine, h: Handle, k: Point, tape: Tape)
    requires h in s.ctl && !(k.CreateBody? && k.c == h)
    ensures Creating(StepGo(s, h, k, tape), h) == {}
  {
    hide LockPass, UnlockPass, BarrierArrive;
    match k
    case Ret(_) =>
    case CondRelease(c, m) => if UnlockPass(s, h, m, tape).1 != 0 {} else {}
    case BarrierMake(_, n) => if n == 0 {} else {}
    case BarrierJoin(b) => if b in s.st.barriers {} else {}
    case BarrierCheck(_, _) => if T(s.st, h).isBlocking {} else {}
    case BarrierAgain(_, _) =>
    case JoinCheck(t) => if t in s.st.threads {} else {}
    case JoinCall(t) => if t in s.st.threads {} else {}
    case CreateBody(_) =>
    case _ => LockCreates(s, h, k, tape);
  }

  lemma LockCreates(s: Machine, h: Handle, k: Point, tape: Tape)
    requires k.LockLoop? || k.LockCheck? || k.LockAgain? || k.TryLock? || k.CondCheck? || k.CondAgain?
    ensures Creating(StepGo(s, h, k, tape), h) == {}
  {
    hide LockPass;
    LockFrame(s, h, k.m);
    if k.LockCheck? || k.CondCheck? { if T(s.st, h).isBlocking {} else {} }
  }

  lemma CallCreates(s: Machine, h: Handle, op: Op, tape: Tape)
    requires Inv(s) && h in s.ctl && s.ctl[h].User? && Allowed(s, h, op)
    ensures Creating(Call(s, h, op, tape), h) == if op.Create? then {op.c} else {}
  {
    hide Call, Inv;
    if op.Exit? {
      LedgerExit(s, h, tape);
    } else {
      CallMoves(s, h, op, tape);
      if op.Unlock? || op.Signal? || op.Broadcast? || op.MutexInit? {} else { EnterFrame(s, h, op, tape); }
    }
  }

  lemma StepCreates(s: Machine, h: Handle, tape: Tape)
    requires Inv(s) && Enabled(s, StepL(h))
    ensures Creating(Step(s, h, tape), h) <= Creating(s, h)
    ensures Creates(s, StepL(h)) ==> Creating(Step(s, h, tape), h) == {}
  {
    Runner(s, h);
    var k := s.ctl[h].k;
    match s.ctl[h].phase
    case Drain(_) => QuietDrain(s, h, tape);
    case DrainLoop(_, _) => QuietDrain(s, h, tape);
    case Switch => QuietSwitch(s, h, k, tape);
    case Go => GoCreates(s, h, k, tape);
  }

  /** A thread's own step: nobody but a caller of create comes to be creating. */
  lemma OwnCreating(s: Machine, l: Label, tape: Tape)
    requires Inv(s) && Enabled(s, l)
    ensures Creating(Next(s, l, tape), l.h) <= Creating(s, l.h) + if l.CallL? && l.op.Create? then {l.op.c} else {}
  {
    match l
    case CallL(h, op) => CallCreates(s, h, op, tape);
    case StepL(h) => StepCreates(s, h, tape);
    case ResumeL(h) => if s.ctl[h].Waiting? {} else {}
    case RegisterL(h) => if h in s.args {} else {}
    case JoinReturnL(h) =>
  }

  lemma CreatorHasTurn(s: Machine, h: Handle)
    requires Inv(s) && Creating(s, h) != {}
    ensures s.turn == Some(h)
  {
    assert ThreadOk(s, h) && (Active(s, h) <==> s.turn == Some(h));
  }

  /** Whoever holds the turn next was creating already, or has just called create. */
  lemma NextCreating(s: Machine, l: Label, tape: Tape, h: Handle)
    requires Inv(s) && Enabled(s, l)
    ensures Creating(Next(s, l, tape), h) <= Known(s) + if l.CallL? && l.op.Create? then {l.op.c} else {}
  {
    var s' := Next(s, l, tape);
    if h == l.h {
      OwnCreating(s, l, tape);
      if Creating(s, h) != {} { CreatorHasTurn(s, h); }
    } else if Live(s, h) {
      AsideNext(s, l, tape, h);
      assert Creating(s', h) == Creating(s, h);
      if Creating(s, h) != {} { CreatorHasTurn(s, h); }
    } else if Live(s', h) {
      NewcomerNext(s, l, tape, h);
    }
  }

  lemma KeysNext(s: Machine, l: Label, tape: Tape)
    requires Inv(s) && Enabled(s, l)
    ensures Next(s, l, tape).ctl.Keys <= Known(s)
    ensures l.CallL? ==> Next(s, l, tape).ctl.Keys == s.ctl.Keys
  {
    if l.CallL? && l.op.Exit? {
      LedgerExit(s, l.h, tape);
    } else if l.CallL? && l.op.Join? {
    } else if l.JoinReturnL? {
    } else if Creates(s, l) {
      Runner(s, l.h);
    } else {
      SettledNext(s, l, tape);
    }
  }

  lemma KnownNext(s: Machine, l: Label, tape: Tape)
    requires Inv(s) && Enabled(s, l)
    ensures Known(Next(s, l, tape)) <= Known(s) + if l.CallL? && l.op.Create? then {l.op.c} else {}
  {
    var s' := Next(s, l, tape);
    KeysNext(s, l, tape);
    if s'.turn.Some? { NextCreating(s, l, tape, s'.turn.value); }
  }

  // ---------------------------------------------------------------- programs

  function RenOps(f: Names, op: Option<Op>): Option<Op> {
    if op.Some? then Some(RenOp(f, op.value)) else None
  }

  /** How the memories of a program under two choices of handles correspond: given the names of the
      threads in a set, by which they speak of those threads. */
  type Matching<!M, !N> = (Names, set<Handle>, M, N) -> bool

  /** What is said of some threads is said of fewer. */
  ghost predicate Forgets<M(!new), N(!new)>(like: Matching<M, N>) {
    forall f: Names, d: set<Handle>, e: set<Handle>, mem: M, mem': N {:trigger like(f, d, mem, mem'), like(f, e, mem, mem')} ::
      like(f, d, mem, mem') && e <= d ==> like(f, e, mem, mem')
  }

  /** The next calls correspond, and the memories afterwards; a new thread may have any handle on
      either side, whatever threads that are gone were called. */
  ghost predicate CallsMatch<M(!new), N(!new)>(like: Matching<M, N>, f: Names, d: set<Handle>, a: (Option<Op>, M), b: (Option<Op>, N)) {
    if a.0.Some? && a.0.value.Create? then
      && b.0.Some? && b.0.value.Create?
      && (forall g: Names {:trigger like(g, d + {a.0.value.c}, a.1, b.1)} ::
            Renames(g) && Agree(f, g, d) && g.to(a.0.value.c) == b.0.value.c ==> like(g, d + {a.0.value.c}, a.1, b.1))
    else b.0 == RenOps(f, a.0) && like(f, d, a.1, b.1)
  }

  /** From corresponding memories the two codes do corresponding things. */
  ghost predicate CodesMatch<M(!new), N(!new)>(like: Matching<M, N>, code: Code<M>, code': Code<N>) {
    forall f: Names, d: set<Handle>, mem: M, mem': N, h: Handle, ret: int {:trigger like(f, d, mem, mem'), code(mem, h, ret)} ::
      Renames(f) && h in d && like(f, d, mem, mem') ==> CallsMatch(like, f, d, code(mem, h, ret), code'(mem', f.to(h), ret))
  }

  /** The operating system offers only handles nobody has. */
  ghost predicate OffersUnused<M>(code: Code<M>, c: Config<M>) {
    forall h, x {:trigger code(c.mem, h, c.s.ctl[h].ret), Create(x)} ::
      h in c.s.ctl && c.s.ctl[h].User? && code(c.mem, h, c.s.ctl[h].ret).0 == Some(Create(x)) ==> x != 0 && x !in c.s.ctl
  }

  // ---------------------------------------------------------------- threads by number

  function Created(ls: seq<Label>): nat {
    if ls == [] then 0
    else Created(ls[..|ls| - 1]) + if ls[|ls| - 1].CallL? && ls[|ls| - 1].op.Create? then 1 else 0
  }

  /** The number of the thread that has the handle `h` now: threads are numbered in the order of
      their create calls, and the main thread is number 0. */
  function NumberOf(ls: seq<Label>, h: Handle): nat {
    if ls == [] then 0
    else if ls[|ls| - 1] == CallL(ls[|ls| - 1].h, Create(h)) then Created(ls)
    else NumberOf(ls[..|ls| - 1], h)
  }

  /** The schedule of a run, free of handles: the numbers of the threads that do its work, step by step. */
  ghost function Schedule<M>(cs: seq<Config<M>>, ls: seq<Label>): seq<nat>
    requires |cs| == |ls| + 1
    ensures |Schedule(cs, ls)| == |Work(cs, ls)|
  {
    if ls == [] then []
    else
      var n := |ls| - 1;
      Schedule(cs[..|ls|], ls[..n]) + if Stutter(cs[n].s, ls[n]) then [] else [NumberOf(ls[..n], ls[n].h)]
  }

  // ---------------------------------------------------------------- two runs, side by side

  ghost predicate Twins<M(!new), N(!new)>(like: Matching<M, N>, f: Names, a: Config<M>, ls: seq<Label>, b: Config<N>, ms: seq<Label>) {
    && Renames(f) && Alike(f, Norm(a.s), Norm(b.s))
    && like(f, Known(a.s), a.mem, b.mem)
    && Created(ls) == Created(ms)
    && forall h {:trigger NumberOf(ls, h)} :: h in Known(a.s) ==> NumberOf(ls, h) == NumberOf(ms, f.to(h))
  }

  lemma NotCreate(ls: seq<Label>, l: Label)
    requires !(l.CallL? && l.op.Create?)
    ensures Created(ls + [l]) == Created(ls)
    ensures forall h :: NumberOf(ls + [l], h) == NumberOf(ls, h)
  {
    assert (ls + [l])[..|ls|] == ls;
  }

  /** The first run steps, and its work is not advanced. */
  lemma LeftStutters<M(!new), N(!new)>(like: Matching<M, N>, f: Names, code: Code<M>,
                                       a: Config<M>, ls: seq<Label>, l: Label, b: Config<N>, ms: seq<Label>, tape: Tape)
    requires Forgets(like) && Twins(like, f, a, ls, b, ms) && Inv(a.s) && CanStep(code, a, l) && Stutter(a.s, l)
    ensures Twins(like, f, Advance(code, a, l, tape), ls + [l], b, ms)
  {
    hide Norm, Inv, Alike, Renames, Known;
    StutterStep(code, a, l, tape);
    KnownNext(a.s, l, tape);
    NotCreate(ls, l);
    var a' := Advance(code, a, l, tape);
    assert Known(a'.s) <= Known(a.s);
    assert like(f, Known(a'.s), a'.mem, b.mem);
  }

  lemma RightStutters<M(!new), N(!new)>(like: Matching<M, N>, f: Names, code': Code<N>,
                                        a: Config<M>, ls: seq<Label>, b: Config<N>, ms: seq<Label>, m: Label, tape: Tape)
    requires Twins(like, f, a, ls, b, ms) && Inv(b.s) && CanStep(code', b, m) && Stutter(b.s, m)
    ensures Twins(like, f, a, ls, Advance(code', b, m, tape), ms + [m])
  {
    StutterStep(code', b, m, tape);
    NotCreate(ms, m);
  }

  /** The turn holders of machines that are alike do the same kind of step. */
  lemma WorkMatches(f: Names, s: Machine, n: Machine, l: Label, m: Label)
    requires Renames(f) && Alike(f, s, n) && Enabled(s, l) && Enabled(n, m)
    requires s.turn == Some(l.h) && n.turn == Some(m.h) && !l.RegisterL? && !m.RegisterL?
    ensures m.h == f.to(l.h)
    ensures !l.CallL? ==> m == RenLabel(f, l)
    ensures l.CallL? ==> m.CallL? && l.h in s.ctl && m.h in n.ctl && s.ctl[l.h].User? && n.ctl[m.h] == s.ctl[l.h]
  {
    AlikeFields(f, s, n);
    AlikeAt(f, s, n, l.h);
    RenKind(f, s.ctl[l.h]);
  }

  /** A step of work keeps two machines alike. */
  lemma WorkAlike(f: Names, s: Machine, n: Machine, l: Label, tape: Tape)
    requires Renames(f) && Inv(s) && Inv(n) && Alike(f, Norm(s), Norm(n))
    requires Enabled(s, l) && !Stutter(s, l) && Enabled(n, RenLabel(f, l)) && !Stutter(n, RenLabel(f, l))
    ensures Alike(f, Norm(Next(s, l, tape)), Norm(Next(n, RenLabel(f, l), tape)))
  {
    hide Inv, Norm, Alike, Stutter, Enabled, Next;
    var m := RenLabel(f, l);
    WorkCommutes(s, l, tape);
    WorkCommutes(n, m, tape);
    NormInv(s);
    NormInv(n);
    AlikeNext(f, Norm(s), Norm(n), l, tape);
    KeepNext(Norm(s), l, tape);
    KeepNext(Norm(n), m, tape);
    NormAlike(f, Next(Norm(s), l, tape), Next(Norm(n), m, tape));
  }

  /** The name `d` for the new handle `c`; the thread that was called `d` before, if any, takes the name `c` had. */
  function Rebind(f: Names, c: Handle, d: Handle): Names {
    Names((h: Handle) => if h == c then d else if h == f.from(d) then f.to(c) else f.to(h),
          (k: Handle) => if k == d then c else if k == f.to(c) then f.from(d) else f.from(k))
  }

  lemma Rebinds(f: Names, c: Handle, d: Handle, s: set<Handle>)
    requires Renames(f) && c != 0 && d != 0 && c !in s && f.from(d) !in s
    ensures Renames(Rebind(f, c, d)) && Agree(f, Rebind(f, c, d), s) && Rebind(f, c, d).to(c) == d
  {
    var g := Rebind(f, c, d);
    assert f.to(f.from(d)) == d && f.from(f.to(c)) == c && f.from(f.to(0)) == 0;
    forall h {:trigger g.to(h)} ensures g.from(g.to(h)) == h { assert f.from(f.to(h)) == h; }
    forall k {:trigger g.from(k)} ensures g.to(g.from(k)) == k { assert f.to(f.from(k)) == k; }
  }

  lemma CallsAt<M(!new), N(!new)>(like: Matching<M, N>, f: Names, d: set<Handle>, code: Code<M>, code': Code<N>, mem: M, mem': N, h: Handle, ret: int)
    requires CodesMatch(like, code, code') && Renames(f) && h in d && like(f, d, mem, mem')
    ensures CallsMatch(like, f, d, code(mem, h, ret), code'(mem', f.to(h), ret))
  {
  }

  ghost predicate Reached<M>(c: Config<M>) {
    Inv(c.s) && JoinsKnown(c.s)
  }

  lemma WorkPlace(s: Machine, l: Label)
    requires Inv(s) && Enabled(s, l) && !Stutter(s, l)
    ensures Norm(s).turn == Some(l.h) && l.h in Norm(s).ctl && l.h in s.ctl && Norm(s).ctl[l.h] == s.ctl[l.h]
    ensures Enabled(Norm(s), l) && !l.RegisterL?
  {
    WorkCommutes(s, l, _ => 0);
  }

  /** The work the two machines do next is of one kind and one thread's. */
  lemma MachineWork(f: Names, s: Machine, n: Machine, l: Label, m: Label)
    requires Renames(f) && Alike(f, Norm(s), Norm(n)) && Inv(s) && Inv(n)
    requires Enabled(s, l) && !Stutter(s, l) && Enabled(n, m) && !Stutter(n, m)
    ensures m.h == f.to(l.h) && l.h in Known(s) && l.h in s.ctl && m.h in n.ctl
    ensures !l.CallL? ==> m == RenLabel(f, l)
    ensures l.CallL? ==> m.CallL? && s.ctl[l.h].User? && n.ctl[m.h] == s.ctl[l.h]
  {
    hide Inv, Norm, Alike, Enabled, Stutter, Renames;
    WorkPlace(s, l);
    WorkPlace(n, m);
    WorkMatches(f, Norm(s), Norm(n), l, m);
  }

  lemma NextWork<M(!new), N(!new)>(like: Matching<M, N>, f: Names, code: Code<M>, code': Code<N>,
                                   a: Config<M>, ls: seq<Label>, l: Label, b: Config<N>, ms: seq<Label>, m: Label)
    requires CodesMatch(like, code, code') && Twins(like, f, a, ls, b, ms) && Inv(a.s) && Inv(b.s)
    requires CanStep(code, a, l) && !Stutter(a.s, l) && CanStep(code', b, m) && !Stutter(b.s, m)
    ensures m.h == f.to(l.h) && l.h in Known(a.s) && l.h in a.s.ctl && m.h in b.s.ctl
    ensures !l.CallL? ==> m == RenLabel(f, l)
    ensures l.CallL? ==> m.CallL? && a.s.ctl[l.h].User? && b.s.ctl[m.h] == a.s.ctl[l.h]
    ensures l.CallL? ==> CallsMatch(like, f, Known(a.s), code(a.mem, l.h, a.s.ctl[l.h].ret), code'(b.mem, m.h, b.s.ctl[m.h].ret))
  {
    hide Inv, Norm, Alike, Stutter, CodesMatch, CallsMatch, Next, Enabled, Renames, Known;
    MachineWork(f, a.s, b.s, l, m);
    if l.CallL? { CallsAt(like, f, Known(a.s), code, code', a.mem, b.mem, l.h, a.s.ctl[l.h].ret); }
  }

  /** Both do a step that creates nothing. */
  lemma PlainWork<M(!new), N(!new)>(like: Matching<M, N>, f: Names, code: Code<M>, code': Code<N>,
                                    a: Config<M>, ls: seq<Label>, l: Label, b: Config<N>, ms: seq<Label>, m: Label, tape: Tape)
    requires Forgets(like) && CodesMatch(like, code, code') && Twins(like, f, a, ls, b, ms) && Inv(a.s) && Inv(b.s)
    requires CanStep(code, a, l) && !Stutter(a.s, l) && CanStep(code', b, m) && !Stutter(b.s, m) && !(l.CallL? && l.op.Create?)
    ensures Twins(like, f, Advance(code, a, l, tape), ls + [l], Advance(code', b, m, tape), ms + [m])
  {
    hide Norm, Inv, Stutter, Alike, Renames, Known, Next, Enabled, CodesMatch;
    NextWork(like, f, code, code', a, ls, l, b, ms, m);
    assert m == RenLabel(f, l);
    WorkAlike(f, a.s, b.s, l, tape);
    KnownNext(a.s, l, tape);
    NotCreate(ls, l);
    NotCreate(ms, m);
    var a', b' := Advance(code, a, l, tape), Advance(code', b, m, tape);
    assert like(f, Known(a.s), a'.mem, b'.mem);
    assert Known(a'.s) <= Known(a.s);
    assert like(f, Known(a'.s), a'.mem, b'.mem);
  }

  lemma CreateNumbers(f: Names, g: Names, d: set<Handle>, ls: seq<Label>, l: Label, ms: seq<Label>, m: Label)
    requires Renames(g) && Agree(f, g, d) && l.CallL? && l.op.Create? && m.CallL? && m.op.Create? && g.to(l.op.c) == m.op.c
    requires Created(ls) == Created(ms) && l.op.c !in d
    requires forall h {:trigger NumberOf(ls, h)} :: h in d ==> NumberOf(ls, h) == NumberOf(ms, f.to(h))
    ensures Created(ls + [l]) == Created(ms + [m])
    ensures forall h {:trigger NumberOf(ls + [l], h)} :: h in d + {l.op.c} ==> NumberOf(ls + [l], h) == NumberOf(ms + [m], g.to(h))
  {
    assert (ls + [l])[..|ls|] == ls && (ms + [m])[..|ms|] == ms;
    forall h | h in d + {l.op.c} ensures NumberOf(ls + [l], h) == NumberOf(ms + [m], g.to(h)) {
      if h != l.op.c {
        AgreeOne(f, g, d, h);
        RenSame(g, h, l.op.c);
        assert NumberOf(ls + [l], h) == NumberOf(ls, h) && NumberOf(ms + [m], g.to(h)) == NumberOf(ms, g.to(h));
      }
    }
  }

  lemma RenBack(f: Names, k: Handle)
    requires Renames(f)
    ensures f.to(f.from(k)) == k
  {
  }

  lemma UserKnown(s: Machine, h: Handle)
    requires Inv(s) && h in s.ctl && s.ctl[h].User?
    ensures Known(s) == s.ctl.Keys
  {
    Runner(s, h);
  }

  lemma NewNames(f: Names, s: Machine, n: Machine, h: Handle, c: Handle, d: Handle)
    requires Renames(f) && Alike(f, Norm(s), Norm(n)) && Inv(s) && JoinsKnown(s) && Inv(n)
    requires h in s.ctl && s.ctl[h].User? && h in Norm(s).ctl && Norm(s).ctl[h] == s.ctl[h]
    requires c != 0 && c !in s.ctl && d != 0 && d !in n.ctl
    ensures var g := Rebind(f, c, d);
      Renames(g) && Agree(f, g, s.ctl.Keys) && g.to(c) == d && Alike(g, Norm(s), Norm(n))
  {
    hide Inv, Norm, Alike, Renames, Agree, Rebind;
    NormInv(s);
    NormInv(n);
    var x := f.from(d);
    AlikeAt(f, Norm(s), Norm(n), x);
    RenBack(f, d);
    Rebinds(f, c, d, s.ctl.Keys);
    Retarget(f, Rebind(f, c, d), Norm(s), Norm(n), h);
  }

  lemma CreateCalled(s: Machine, h: Handle, c: Handle)
    requires Inv(s) && Enabled(s, CallL(h, Create(c)))
    ensures h in s.ctl && s.ctl[h].User? && c != 0 && c !in s.ctl && Known(s) == s.ctl.Keys
    ensures !Stutter(s, CallL(h, Create(c))) && h in Norm(s).ctl && Norm(s).ctl[h] == s.ctl[h]
  {
    UserKnown(s, h);
    WorkPlace(s, CallL(h, Create(c)));
  }

  /** Two machines that both call create stay alike, by the names that say that the two new handles are one thread's. */
  lemma CreateAlike(f: Names, s: Machine, n: Machine, h: Handle, c: Handle, d: Handle, tape: Tape) returns (g: Names)
    requires Renames(f) && Alike(f, Norm(s), Norm(n)) && Inv(s) && JoinsKnown(s) && Inv(n)
    requires Enabled(s, CallL(h, Create(c))) && Enabled(n, CallL(f.to(h), Create(d)))
    ensures Known(s) == s.ctl.Keys && c !in Known(s)
    ensures Renames(g) && Agree(f, g, Known(s)) && g.to(c) == d
    ensures Alike(g, Norm(Next(s, CallL(h, Create(c)), tape)), Norm(Next(n, CallL(f.to(h), Create(d)), tape)))
  {
    hide Norm, Inv, Alike, Renames, Known, Next, Rebind, Agree, Enabled, Stutter;
    var l, m := CallL(h, Create(c)), CallL(f.to(h), Create(d));
    CreateCalled(s, h, c);
    CreateCalled(n, f.to(h), d);
    NewNames(f, s, n, h, c, d);
    g := Rebind(f, c, d);
    AgreeOne(f, g, s.ctl.Keys, h);
    assert m == RenLabel(g, l);
    WorkAlike(g, s, n, l, tape);
  }

  lemma LikeNew<M(!new), N(!new)>(like: Matching<M, N>, f: Names, g: Names, d: set<Handle>, e: set<Handle>,
                                  a: (Option<Op>, M), b: (Option<Op>, N), c: Handle, x: Handle)
    requires Forgets(like) && CallsMatch(like, f, d, a, b) && a.0 == Some(Create(c)) && b.0 == Some(Create(x))
    requires Renames(g) && Agree(f, g, d) && g.to(c) == x && e <= d + {c}
    ensures like(g, e, a.1, b.1)
  {
    assert like(g, d + {c}, a.1, b.1);
  }

  /** Both call create. */
  lemma CreateWork<M(!new), N(!new)>(like: Matching<M, N>, f: Names, code: Code<M>, code': Code<N>,
                                     a: Config<M>, ls: seq<Label>, l: Label, b: Config<N>, ms: seq<Label>, m: Label, tape: Tape) returns (g: Names)
    requires Forgets(like) && CodesMatch(like, code, code') && Twins(like, f, a, ls, b, ms) && Reached(a) && Inv(b.s)
    requires CanStep(code, a, l) && !Stutter(a.s, l) && CanStep(code', b, m) && !Stutter(b.s, m) && l.CallL? && l.op.Create?
    ensures Twins(like, g, Advance(code, a, l, tape), ls + [l], Advance(code', b, m, tape), ms + [m])
  {
    hide Norm, Inv, Stutter, Alike, Renames, Known, Next, Enabled, CodesMatch, CallsMatch, Agree, NumberOf, Created, Forgets, JoinsKnown;
    NextWork(like, f, code, code', a, ls, l, b, ms, m);
    KnownNext(a.s, l, tape);
    MatchIsCreate(like, f, Known(a.s), code(a.mem, l.h, a.s.ctl[l.h].ret), code'(b.mem, m.h, b.s.ctl[m.h].ret));
    var c, x := l.op.c, m.op.c;
    g := CreateAlike(f, a.s, b.s, l.h, c, x, tape);
    CreateNumbers(f, g, Known(a.s), ls, l, ms, m);
    LikeNew(like, f, g, Known(a.s), Known(Next(a.s, l, tape)), code(a.mem, l.h, a.s.ctl[l.h].ret), code'(b.mem, m.h, b.s.ctl[m.h].ret), c, x);
  }

  lemma MatchIsCreate<M(!new), N(!new)>(like: Matching<M, N>, f: Names, d: set<Handle>, a: (Option<Op>, M), b: (Option<Op>, N))
    requires CallsMatch(like, f, d, a, b) && a.0.Some? && a.0.value.Create?
    ensures b.0.Some? && b.0.value.Create?
  {
  }

  // ---------------------------------------------------------------- whole runs

  lemma {:induction false} RunReaches<M>(code: Code<M>, main: Handle, mem: M, tape: Tape, cs: seq<Config<M>>, ls: seq<Label>, i: nat)
    requires main != 0 && RunOf(code, main, mem, tape, cs, ls) && i <= |ls|
    ensures Reached(cs[i])
  {
    hide Inv;
    ProgramInv(code, main, mem, tape, cs, ls, i);
    if i > 0 {
      RunReaches(code, main, mem, tape, cs, ls, i - 1);
      assert CanStep(code, cs[i - 1], ls[i - 1]);
      JoinsNext(cs[i - 1].s, ls[i - 1], tape);
    }
  }

  lemma TwinsStart<M(!new), N(!new)>(like: Matching<M, N>, f: Names, main: Handle, mem: M, mem': N)
    requires Renames(f) && main != 0 && like(f, {main}, mem, mem')
    ensures Twins(like, f, Start(main, mem), [], Start(f.to(main), mem'), [])
  {
    hide Norm, Alike, Known, Init;
    StartAlike(f, main);
    StartKnown(main);
  }

  lemma StartKnown(main: Handle)
    ensures Known(Init(main)) == {main}
  {
  }

  lemma StartAlike(f: Names, main: Handle)
    requires Renames(f) && main != 0
    ensures Alike(f, Norm(Init(main)), Norm(Init(f.to(main))))
  {
    hide Inv, Init, Same, Bare, Norm, Renames;
    RenSame(f, main, 0);
    InitInv(main);
    InitInv(f.to(main));
    SameInit(f, main);
    SameBare(f, Init(main), Init(f.to(main)));
    NormAlike(f, Init(main), Init(f.to(main)));
  }

  lemma LastSplit(ls: seq<Label>)
    requires ls != []
    ensures ls == ls[..|ls| - 1] + [ls[|ls| - 1]]
  {
  }

  /** Two runs on one seed that have done equally much work have done it in the same order of threads,
      and are alike up to handles, whatever handles new threads were given in each. */
  lemma {:induction false} HandlesDecide<M(!new), N(!new)>(like: Matching<M, N>, f: Names, code: Code<M>, code': Code<N>,
                                                           main: Handle, mem: M, mem': N, tape: Tape,
                                                           cs: seq<Config<M>>, ls: seq<Label>, ds: seq<Config<N>>, ms: seq<Label>) returns (g: Names)
    requires Forgets(like) && CodesMatch(like, code, code') && Renames(f) && main != 0 && f.to(main) != 0 && like(f, {main}, mem, mem')
    requires RunOf(code, main, mem, tape, cs, ls) && RunOf(code', f.to(main), mem', tape, ds, ms)
    requires |Work(cs, ls)| == |Work(ds, ms)|
    ensures Twins(like, g, cs[|ls|], ls, ds[|ms|], ms) && Schedule(cs, ls) == Schedule(ds, ms)
    decreases |ls| + |ms|
  {
    hide Forgets, CodesMatch, Renames, Twins, Stutter, Inv, JoinsKnown, Advance, CanStep, RunOf, Start;
    RunsHave(code, main, mem, tape, cs, ls);
    RunsHave(code', f.to(main), mem', tape, ds, ms);
    var a, b := |ls| - 1, |ms| - 1;
    if ls != [] && Stutter(cs[a].s, ls[a]) {
      Shorter(code, main, mem, tape, cs, ls);
      LastSplit(ls);
      g := HandlesDecide(like, f, code, code', main, mem, mem', tape, cs[..|ls|], ls[..a], ds, ms);
      LeftStutters(like, g, code, cs[a], ls[..a], ls[a], ds[|ms|], ms, tape);
    } else if ms != [] && Stutter(ds[b].s, ms[b]) {
      Shorter(code', f.to(main), mem', tape, ds, ms);
      LastSplit(ms);
      g := HandlesDecide(like, f, code, code', main, mem, mem', tape, cs, ls, ds[..|ms|], ms[..b]);
      RightStutters(like, g, code', cs[|ls|], ls, ds[b], ms[..b], ms[b], tape);
    } else if ls != [] && ms != [] {
      Shorter(code, main, mem, tape, cs, ls);
      Shorter(code', f.to(main), mem', tape, ds, ms);
      RunReaches(code, main, mem, tape, cs, ls, a);
      LastSplit(ls);
      LastSplit(ms);
      g := HandlesDecide(like, f, code, code', main, mem, mem', tape, cs[..|ls|], ls[..a], ds[..|ms|], ms[..b]);
      g := BothWork(like, g, code, code', cs[a], ls[..a], ls[a], ds[b], ms[..b], ms[b], tape);
    } else {
      TwinsStart(like, f, main, mem, mem');
      g := f;
    }
  }

  lemma RunsHave<M>(code: Code<M>, main: Handle, mem: M, tape: Tape, cs: seq<Config<M>>, ls: seq<Label>)
    requires RunOf(code, main, mem, tape, cs, ls)
    ensures |cs| == |ls| + 1 && cs[0] == Start(main, mem)
  {
  }

  /** Both do their next step of work, and it is the same thread's. */
  lemma BothWork<M(!new), N(!new)>(like: Matching<M, N>, f: Names, code: Code<M>, code': Code<N>,
                                   a: Config<M>, ls: seq<Label>, l: Label, b: Config<N>, ms: seq<Label>, m: Label, tape: Tape) returns (g: Names)
    requires Forgets(like) && CodesMatch(like, code, code') && Twins(like, f, a, ls, b, ms) && Reached(a) && Inv(b.s)
    requires CanStep(code, a, l) && !Stutter(a.s, l) && CanStep(code', b, m) && !Stutter(b.s, m)
    ensures Twins(like, g, Advance(code, a, l, tape), ls + [l], Advance(code', b, m, tape), ms + [m])
    ensures NumberOf(ls, l.h) == NumberOf(ms, m.h)
  {
    hide Norm, Inv, Stutter, Alike, Renames, Known, Next, Enabled, CodesMatch, CallsMatch, Forgets, JoinsKnown, Advance, CanStep, NumberOf;
    NextWork(like, f, code, code', a, ls, l, b, ms, m);
    if l.CallL? && l.op.Create? {
      g := CreateWork(like, f, code, code', a, ls, l, b, ms, m, tape);
    } else {
      PlainWork(like, f, code, code', a, ls, l, b, ms, m, tape);
      g := f;
    }
  }

  // ---------------------------------------------------------------- runs that cannot go on

  /** A handle nobody has, on either side. */
  lemma BothMayCreate(f: Names, s: Machine, n: Machine, h: Handle, c: Handle, d: Handle)
    requires Renames(f) && Alike(f, s, n) && c != 0 && c !in s.ctl && d != 0 && d !in n.ctl
    ensures Enabled(s, CallL(h, Create(c))) <==> Enabled(n, CallL(f.to(h), Create(d)))
  {
    AlikeFields(f, s, n);
    AlikeAt(f, s, n, h);
    if h in s.ctl { RenKind(f, s.ctl[h]); }
  }

  lemma NormUser(s: Machine, h: Handle)
    requires Inv(s)
    ensures h in Norm(s).ctl && Norm(s).ctl[h].User? ==> h in s.ctl && s.ctl[h] == Norm(s).ctl[h]
  {
    if c :| Unregistered(s, c) { NormIs(s, c); }
  }

  lemma MayStep<M>(code: Code<M>, a: Config<M>, l: Label)
    requires Inv(a.s) && Enabled(Norm(a.s), l) && Norm(a.s).turn == Some(l.h) && !l.RegisterL?
    requires l.CallL? ==> l.h in a.s.ctl && code(a.mem, l.h, a.s.ctl[l.h].ret).0 == Some(l.op)
    ensures exists m :: CanStep(code, a, m)
  {
    hide Inv, Norm, Enabled;
    var m := StepsToo(a.s, l);
    assert CanStep(code, a, m);
  }

  /** Where one machine calls, the other calls too, with the same result of the last call. */
  lemma BothCall(f: Names, s: Machine, n: Machine, h: Handle)
    requires Renames(f) && Alike(f, Norm(s), Norm(n)) && Inv(s) && Inv(n)
    ensures Norm(n).turn == RenOption(f, Norm(s).turn) && Norm(s).ctl.Keys == s.ctl.Keys && Norm(n).ctl.Keys == n.ctl.Keys
    ensures h in s.ctl && s.ctl[h].User? && h in Norm(s).ctl && Norm(s).ctl[h].User? ==> f.to(h) in n.ctl && n.ctl[f.to(h)] == s.ctl[h]
    ensures f.to(h) in n.ctl && f.to(h) in Norm(n).ctl && Norm(n).ctl[f.to(h)].User? ==> h in s.ctl && s.ctl[h].User? && n.ctl[f.to(h)] == s.ctl[h]
  {
    hide Inv, Norm, Alike, Renames;
    NormInv(s);
    NormInv(n);
    NormUser(s, h);
    NormUser(n, f.to(h));
    AlikeFields(f, Norm(s), Norm(n));
    AlikeAt(f, Norm(s), Norm(n), h);
    if h in Norm(s).ctl { RenKind(f, Norm(s).ctl[h]); }
  }

  /** The two calls that match are both possible or neither. */
  lemma BothEnabled<M(!new), N(!new)>(like: Matching<M, N>, f: Names, d: set<Handle>, s: Machine, n: Machine, h: Handle, op: Op, op': Op,
                                      mem: M, mem': N)
    requires Renames(f) && Alike(f, s, n) && CallsMatch(like, f, d, (Some(op), mem), (Some(op'), mem'))
    requires op.Create? && op'.Create? ==> op.c != 0 && op.c !in s.ctl && op'.c != 0 && op'.c !in n.ctl
    ensures Enabled(s, CallL(h, op)) <==> Enabled(n, CallL(f.to(h), op'))
  {
    hide Alike, Enabled, Renames;
    if op.Create? {
      BothMayCreate(f, s, n, h, op.c, op'.c);
    } else {
      AlikeEnabled(f, s, n, CallL(h, op));
    }
  }

  lemma WorkStarts<M>(code: Code<M>, a: Config<M>, l: Label)
    requires Inv(a.s) && CanStep(code, a, l) && !Stutter(a.s, l)
    ensures Enabled(Norm(a.s), l) && Norm(a.s).turn == Some(l.h) && !l.RegisterL? && l.h in a.s.ctl && l.h in Known(a.s)
    ensures l.CallL? ==> a.s.ctl[l.h].User? && l.h in Norm(a.s).ctl && Norm(a.s).ctl[l.h].User?
    ensures l.CallL? ==> code(a.mem, l.h, a.s.ctl[l.h].ret).0 == Some(l.op)
    ensures l.CallL? && l.op.Create? ==> l.op.c != 0 && l.op.c !in a.s.ctl
  {
    WorkPlace(a.s, l);
  }

  /** What one of two twins can do, the other can answer. */
  lemma Answered<M(!new), N(!new)>(like: Matching<M, N>, f: Names, code: Code<M>, code': Code<N>,
                                   a: Config<M>, ls: seq<Label>, l: Label, b: Config<N>, ms: seq<Label>)
    requires CodesMatch(like, code, code') && Twins(like, f, a, ls, b, ms) && Inv(a.s) && Inv(b.s)
    requires CanStep(code, a, l) && !Stutter(a.s, l) && OffersUnused(code', b)
    ensures exists m :: CanStep(code', b, m)
  {
    hide Inv, Norm, Alike, Stutter, CodesMatch, Enabled, Renames, CanStep;
    WorkStarts(code, a, l);
    var h := l.h;
    BothCall(f, a.s, b.s, h);
    if l.CallL? {
      var ret := a.s.ctl[h].ret;
      CallsAt(like, f, Known(a.s), code, code', a.mem, b.mem, h, ret);
      var m := CallL(f.to(h), code'(b.mem, f.to(h), ret).0.value);
      assert m.op.Create? ==> m.op == Create(m.op.c);
      BothEnabled(like, f, Known(a.s), Norm(a.s), Norm(b.s), h, l.op, m.op, code(a.mem, h, ret).1, code'(b.mem, f.to(h), ret).1);
      MayStep(code', b, m);
    } else {
      AlikeEnabled(f, Norm(a.s), Norm(b.s), l);
      MayStep(code', b, RenLabel(f, l));
    }
  }

  /** A step that is no call, under the first handles. */
  function Back(f: Names, m: Label): Label {
    match m
    case CallL(h, op) => CallL(f.from(h), op)
    case StepL(h) => StepL(f.from(h))
    case ResumeL(h) => ResumeL(f.from(h))
    case RegisterL(h) => RegisterL(f.from(h))
    case JoinReturnL(h) => JoinReturnL(f.from(h))
  }

  lemma TurnBack(f: Names, s: Machine, n: Machine, h: Handle)
    requires Renames(f) && Alike(f, Norm(s), Norm(n)) && Norm(n).turn == Some(f.to(h))
    ensures Norm(s).turn == Some(h)
  {
    hide Norm;
    AlikeFields(f, Norm(s), Norm(n));
    if Norm(s).turn.Some? { RenSame(f, Norm(s).turn.value, h); }
  }

  lemma AnsweredBack<M(!new), N(!new)>(like: Matching<M, N>, f: Names, code: Code<M>, code': Code<N>,
                                       a: Config<M>, ls: seq<Label>, b: Config<N>, ms: seq<Label>, m: Label)
    requires CodesMatch(like, code, code') && Twins(like, f, a, ls, b, ms) && Inv(a.s) && Inv(b.s)
    requires CanStep(code', b, m) && !Stutter(b.s, m) && OffersUnused(code, a)
    ensures exists l :: CanStep(code, a, l)
  {
    hide Inv, Norm, Alike, Stutter, CodesMatch, Enabled, Renames, CanStep, Known;
    var h := f.from(m.h);
    RenBack(f, m.h);
    WorkStarts(code', b, m);
    BothCall(f, a.s, b.s, h);
    TurnBack(f, a.s, b.s, h);
    if m.CallL? {
      var ret := a.s.ctl[h].ret;
      HereKnown(a.s, h);
      CallsAt(like, f, Known(a.s), code, code', a.mem, b.mem, h, ret);
      var l := CallL(h, code(a.mem, h, ret).0.value);
      assert l.op.Create? ==> l.op == Create(l.op.c);
      BothEnabled(like, f, Known(a.s), Norm(a.s), Norm(b.s), h, l.op, m.op, code(a.mem, h, ret).1, code'(b.mem, m.h, ret).1);
      MayStep(code, a, l);
    } else {
      AlikeEnabled(f, Norm(a.s), Norm(b.s), Back(f, m));
      MayStep(code, a, Back(f, m));
    }
  }

  lemma HereKnown(s: Machine, h: Handle)
    requires h in s.ctl
    ensures h in Known(s)
  {
  }

  /** A run that cannot go on, though the operating system offers unused handles. */
  ghost predicate Ended<M(!new)>(code: Code<M>, c: Config<M>) {
    (forall l :: !CanStep(code, c, l)) && OffersUnused(code, c)
  }

  /** Nothing more can be done than was done in a run that has ended, on either side. */
  lemma {:induction false} NoMoreElsewhere<M(!new), N(!new)>(like: Matching<M, N>, f: Names, code: Code<M>, code': Code<N>,
                                                             main: Handle, mem: M, mem': N, tape: Tape,
                                                             cs: seq<Config<M>>, ls: seq<Label>, ds: seq<Config<N>>, ms: seq<Label>)
    requires Forgets(like) && CodesMatch(like, code, code') && Renames(f) && main != 0 && f.to(main) != 0 && like(f, {main}, mem, mem')
    requires RunOf(code, main, mem, tape, cs, ls) && RunOf(code', f.to(main), mem', tape, ds, ms)
    ensures Ended(code, cs[|ls|]) ==> |Work(ds, ms)| <= |Work(cs, ls)|
    ensures Ended(code', ds[|ms|]) ==> |Work(cs, ls)| <= |Work(ds, ms)|
    decreases |ls| + |ms|
  {
    hide Forgets, CodesMatch, Renames, Twins, Stutter, Inv, JoinsKnown, Advance, CanStep, RunOf, Start, Ended, OffersUnused;
    RunsHave(code, main, mem, tape, cs, ls);
    RunsHave(code', f.to(main), mem', tape, ds, ms);
    var a, b := |ls| - 1, |ms| - 1;
    if ms != [] && Ended(code, cs[|ls|]) {
      Shorter(code', f.to(main), mem', tape, ds, ms);
      NoMoreElsewhere(like, f, code, code', main, mem, mem', tape, cs, ls, ds[..|ms|], ms[..b]);
      if !Stutter(ds[b].s, ms[b]) && |Work(ds[..|ms|], ms[..b])| == |Work(cs, ls)| {
        var g := HandlesDecide(like, f, code, code', main, mem, mem', tape, cs, ls, ds[..|ms|], ms[..b]);
        ProgramInv(code, main, mem, tape, cs, ls, |ls|);
        NotEndedFirst(like, g, code, code', cs[|ls|], ls, ds[b], ms[..b], ms[b]);
      }
    }
    if ls != [] && Ended(code', ds[|ms|]) {
      Shorter(code, main, mem, tape, cs, ls);
      NoMoreElsewhere(like, f, code, code', main, mem, mem', tape, cs[..|ls|], ls[..a], ds, ms);
      if !Stutter(cs[a].s, ls[a]) && |Work(cs[..|ls|], ls[..a])| == |Work(ds, ms)| {
        var g := HandlesDecide(like, f, code, code', main, mem, mem', tape, cs[..|ls|], ls[..a], ds, ms);
        ProgramInv(code', f.to(main), mem', tape, ds, ms, |ms|);
        NotEndedSecond(like, g, code, code', cs[a], ls[..a], ls[a], ds[|ms|], ms);
      }
    }
  }

  lemma NotEndedFirst<M(!new), N(!new)>(like: Matching<M, N>, f: Names, code: Code<M>, code': Code<N>,
                                        a: Config<M>, ls: seq<Label>, b: Config<N>, ms: seq<Label>, m: Label)
    requires CodesMatch(like, code, code') && Twins(like, f, a, ls, b, ms) && Inv(a.s) && Inv(b.s)
    requires CanStep(code', b, m) && !Stutter(b.s, m)
    ensures !Ended(code, a)
  {
    hide Inv, Twins, CodesMatch, CanStep, Stutter;
    if OffersUnused(code, a) { AnsweredBack(like, f, code, code', a, ls, b, ms, m); }
  }

  lemma NotEndedSecond<M(!new), N(!new)>(like: Matching<M, N>, f: Names, code: Code<M>, code': Code<N>,
                                         a: Config<M>, ls: seq<Label>, l: Label, b: Config<N>, ms: seq<Label>)
    requires CodesMatch(like, code, code') && Twins(like, f, a, ls, b, ms) && Inv(a.s) && Inv(b.s)
    requires CanStep(code, a, l) && !Stutter(a.s, l)
    ensures !Ended(code', b)
  {
    hide Inv, Twins, CodesMatch, CanStep, Stutter;
    if OffersUnused(code', b) { Answered(like, f, code, code', a, ls, l, b, ms); }
  }

  /** The same seed always gives the same schedule and the same result, whatever handles the operating
      system gives to new threads and whenever it lets them run: two runs of a program that have
      ended have let the same threads do the same steps, counting threads in the order of their
      creation, and end in states and memories that differ in the names of threads only. */
  lemma SameResultRenamed<M(!new), N(!new)>(like: Matching<M, N>, f: Names, code: Code<M>, code': Code<N>,
                                            main: Handle, mem: M, mem': N, tape: Tape,
                                            cs: seq<Config<M>>, ls: seq<Label>, ds: seq<Config<N>>, ms: seq<Label>) returns (g: Names)
    requires Forgets(like) && CodesMatch(like, code, code') && Renames(f) && main != 0 && like(f, {main}, mem, mem')
    requires RunOf(code, main, mem, tape, cs, ls) && RunOf(code', f.to(main), mem', tape, ds, ms)
    requires Ended(code, cs[|ls|]) && Ended(code', ds[|ms|])
    ensures Schedule(cs, ls) == Schedule(ds, ms)
    ensures Renames(g) && Alike(g, Norm(cs[|ls|].s), Norm(ds[|ms|].s)) && like(g, Known(cs[|ls|].s), cs[|ls|].mem, ds[|ms|].mem)
  {
    hide Norm, Alike, Renames, Forgets, CodesMatch, Ended, Known, Start;
    RenSame(f, main, 0);
    NoMoreElsewhere(like, f, code, code', main, mem, mem', tape, cs, ls, ds, ms);
    g := HandlesDecide(like, f, code, code', main, mem, mem', tape, cs, ls, ds, ms);
  }

  // ---------------------------------------------------------------- a handle used twice

  /** A program that twice creates a thread and joins it: how far it is, and the child it has to join. */
  datatype Twice = Twice(step: nat, child: Handle)

  const MAIN: Handle := 1

  /** Its code, when the operating system calls the first child `c` and the second one `d`. */
  function TwiceCode(c: Handle, d: Handle): Code<Twice> {
    (mem: Twice, h: Handle, ret: int) =>
      if h != MAIN then (Some(Exit), mem)
      else if mem.step == 0 then (Some(Create(c)), Twice(1, c))
      else if mem.step == 1 then (Some(Join(mem.child)), Twice(2, 0))
      else if mem.step == 2 then (Some(Create(d)), Twice(3, d))
      else if mem.step == 3 then (Some(Join(mem.child)), Twice(4, 0))
      else (None, mem)
  }

  ghost function TwiceLike(): Matching<Twice, Twice> {
    (f: Names, d: set<Handle>, mem: Twice, mem': Twice) =>
      f.to(MAIN) == MAIN && mem'.step == mem.step && mem'.child == f.to(mem.child)
  }

  /** The same seed gives the same schedule of this program whether the second child gets the handle
      of the first, as with `d == c`, or a fresh one: its codes match for any handles. */
  lemma ReuseMatches(c: Handle, d: Handle, c': Handle, d': Handle)
    ensures Forgets(TwiceLike()) && CodesMatch(TwiceLike(), TwiceCode(c, d), TwiceCode(c', d'))
  {
    forall f: Names, known: set<Handle>, mem: Twice, mem': Twice, h: Handle, ret: int
      | Renames(f) && h in known && TwiceLike()(f, known, mem, mem')
      ensures CallsMatch(TwiceLike(), f, known, TwiceCode(c, d)(mem, h, ret), TwiceCode(c', d')(mem', f.to(h), ret))
    {
      RenSame(f, h, MAIN);
      if h == MAIN && (mem.step == 0 || mem.step == 2) {
        forall g: Names | Agree(f, g, known) ensures g.to(MAIN) == MAIN { AgreeOne(f, g, known, MAIN); }
      }
    }
  }
}
