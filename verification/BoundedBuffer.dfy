/** The bounded-buffer kernel (rsched/c-examples/benchmarks.c:108-180) as a program on the scheduler. */
module BoundedBuffer {
  import opened Prelude
  import opened StateModel
  import opened Machine
  import opened Invariant
  import opened Preservation
  import opened Frames
  import opened Ledger
  import opened Critical
  import opened Program

  const MAIN: Handle := 1
  const BUFFER_MUTEX: Key := 1
  const HAS_SPACE: Key := 2
  const HAS_ELEMENTS: Key := 3

  /** The arguments of the kernel. Workers are numbered as main creates them: consumers first. */
  datatype Kernel = Kernel(producers: nat, consumers: nat, total: nat, size: nat) {
    /** What the kernel asserts of its arguments. */
    predicate Ok() {
      producers != 0 && consumers != 0 && total % producers == 0 && total % consumers == 0
    }

    /** The queue can hold something, or nothing is to be put in it. */
    predicate Roomy() {
      size >= 1 || total == 0
    }

    function Workers(): nat { producers + consumers }
    predicate Consumes(i: nat) { i < consumers }

    /** How often worker `i` goes round its loop. */
    function Events(i: nat): nat
      requires Ok()
    {
      if Consumes(i) then total / consumers else total / producers
    }

    /** The count at which worker `i` has to wait, what it waits for, whom it signals, what it does to the count. */
    function Limit(i: nat): int { if Consumes(i) then 0 else size }
    function Waits(i: nat): Key { if Consumes(i) then HAS_ELEMENTS else HAS_SPACE }
    function Signals(i: nat): Key { if Consumes(i) then HAS_SPACE else HAS_ELEMENTS }
    function Change(i: nat): int { if Consumes(i) then -1 else 1 }
  }

  /** Where a worker is in its code when it is not inside a call, or will be when its call returns:
      before round `e`; at the test of round `e`, perhaps after waiting; before the unlock; returned. */
  datatype Loc = Top(e: nat) | Test(e: nat, waited: bool) | Unl(e: nat) | Gone

  /** `main` counts the creates and joins the main thread has called. */
  datatype Mem = Mem(count: int, locs: seq<Loc>, main: nat)

  function HandleOf(i: nat): Handle { i + 2 }

  function WorkerCode(p: Kernel, mem: Mem, i: nat): (Option<Op>, Mem)
    requires p.Ok() && i < |mem.locs|
  {
    match mem.locs[i]
    case Top(e) =>
      if e < p.Events(i) then (Some(Lock(BUFFER_MUTEX)), mem.(locs := mem.locs[i := Test(e, false)]))
      else (Some(Exit), mem.(locs := mem.locs[i := Gone]))
    case Test(e, _) =>
      if mem.count == p.Limit(i) then (Some(Wait(p.Waits(i), BUFFER_MUTEX)), mem.(locs := mem.locs[i := Test(e, true)]))
      else (Some(Signal(p.Signals(i))), mem.(count := mem.count + p.Change(i), locs := mem.locs[i := Unl(e)]))
    case Unl(e) => (Some(Unlock(BUFFER_MUTEX)), mem.(locs := mem.locs[i := Top(e + 1)]))
    case Gone => (None, mem)
  }

  function MainCode(p: Kernel, mem: Mem): (Option<Op>, Mem) {
    var n, j := p.Workers(), mem.main;
    if j < n then (Some(Create(HandleOf(j))), mem.(main := j + 1))
    else if j < 2 * n then (Some(Join(HandleOf(j - n))), mem.(main := j + 1))
    else (None, mem)
  }

  function BufferCode(p: Kernel): Code<Mem>
    requires p.Ok()
  {
    (mem: Mem, h: Handle, ret: int) =>
      if h == MAIN then MainCode(p, mem)
      else if 2 <= h < |mem.locs| + 2 then WorkerCode(p, mem, h - 2)
      else (None, mem)
  }

  function StartMem(p: Kernel): Mem {
    Mem(0, seq(p.Workers(), _ => Top(0)), 0)
  }

  // ---------------------------------------------------------------- where everybody is

  ghost predicate PointSeat(p: Kernel, s: Machine, mem: Mem, i: nat, k: Point)
    requires i < |mem.locs|
  {
    var h, loc := HandleOf(i), mem.locs[i];
    match k
    case Ret(_) => (loc.Top? && Outside(s, h)) || (loc.Unl? && Inside(s, h, BUFFER_MUTEX))
    case LockLoop(m) => m == BUFFER_MUTEX && loc.Test? && !loc.waited && Outside(s, h)
    case LockCheck(m) => m == BUFFER_MUTEX && loc.Test? && AtMost(s, h, m)
    case LockAgain(m) => m == BUFFER_MUTEX && loc.Test? && AtMost(s, h, m)
    case CondRelease(c, m) => m == BUFFER_MUTEX && c == p.Waits(i) && loc.Test? && loc.waited && Inside(s, h, m) && mem.count == p.Limit(i)
    case CondCheck(c, m) => m == BUFFER_MUTEX && c == p.Waits(i) && loc.Test? && loc.waited && Outside(s, h)
    case CondAgain(c, m) => m == BUFFER_MUTEX && c == p.Waits(i) && loc.Test? && loc.waited && Outside(s, h)
    case _ => false
  }

  /** What is known of worker `i`'s control point, place in its code and mutex. */
  ghost predicate SeatOk(p: Kernel, s: Machine, mem: Mem, i: nat)
    requires p.Ok() && i < |mem.locs| && HandleOf(i) in s.ctl
  {
    var h, loc := HandleOf(i), mem.locs[i];
    && (match loc {
          case Top(e) => e <= p.Events(i)
          case Test(e, _) => e < p.Events(i)
          case Unl(e) => e < p.Events(i)
          case Gone => true
        })
    && (match s.ctl[h] {
          case Starting => loc == Top(0)
          case User(_) => if loc.Top? then Outside(s, h) else !loc.Gone? && Inside(s, h, BUFFER_MUTEX)
          case Exited => loc.Gone?
          case RealJoining(_) => false
          case At(_, k) => PointSeat(p, s, mem, i, k)
          case Waiting(k, _) => PointSeat(p, s, mem, i, k)
          case DrainWaiting(_, _, k) => PointSeat(p, s, mem, i, k)
        })
  }

  ghost predicate MainOk(p: Kernel, s: Machine, mem: Mem) {
    && MAIN in s.ctl && !s.ctl[MAIN].Starting? && !s.ctl[MAIN].Exited? && Outside(s, MAIN)
    && mem.main <= 2 * p.Workers()
    && match PointOf(s.ctl[MAIN]) {
         case None => true
         case Some(CreateBody(c)) => 1 <= mem.main <= p.Workers() && c == HandleOf(mem.main - 1)
         case Some(JoinCheck(t)) => mem.main > p.Workers() && t == HandleOf(mem.main - p.Workers() - 1)
         case Some(JoinCall(t)) => mem.main > p.Workers() && t == HandleOf(mem.main - p.Workers() - 1)
         case _ => false
       }
  }

  /** How many workers exist or have existed. */
  ghost function Created(p: Kernel, s: Machine, mem: Mem): int
    requires MAIN in s.ctl
  {
    var k := PointOf(s.ctl[MAIN]);
    if k.Some? && k.value.CreateBody? then mem.main - 1
    else if mem.main <= p.Workers() then mem.main else p.Workers()
  }

  /** How many workers have been joined. */
  ghost function Reaped(p: Kernel, s: Machine, mem: Mem): int
    requires MAIN in s.ctl
  {
    if mem.main <= p.Workers() then 0
    else mem.main - p.Workers() - if PointOf(s.ctl[MAIN]).Some? then 1 else 0
  }

  ghost predicate PlaceOk(p: Kernel, s: Machine, mem: Mem, i: nat)
    requires p.Ok() && i < |mem.locs| && MAIN in s.ctl
  {
    && (HandleOf(i) in s.ctl <==> Reaped(p, s, mem) <= i < Created(p, s, mem))
    && (i >= Created(p, s, mem) ==> mem.locs[i] == Top(0))
    && (i < Reaped(p, s, mem) ==> mem.locs[i] == Gone)
    && (HandleOf(i) in s.ctl ==> SeatOk(p, s, mem, i))
  }

  /** Everybody is accounted for, and nobody ever exits while a child is pending. */
  ghost predicate Crew(p: Kernel, s: Machine, mem: Mem) {
    && p.Ok() && |mem.locs| == p.Workers() && MainOk(p, s, mem)
    && (forall i: nat {:trigger PlaceOk(p, s, mem, i)} :: i < p.Workers() ==> PlaceOk(p, s, mem, i))
    && (forall h {:trigger h in s.ctl.Keys} :: h in s.ctl.Keys ==> h == MAIN || 2 <= h < p.Workers() + 2)
    && (forall t {:trigger t in s.log.joins} :: t in s.log.joins ==>
          PointOf(s.ctl[MAIN]) == Some(JoinCheck(t)) || PointOf(s.ctl[MAIN]) == Some(JoinCall(t)))
    && Tidy(s, MAIN)
  }

  // ---------------------------------------------------------------- a worker's seat across a step

  lemma AsideSeat(p: Kernel, s: Machine, s': Machine, mem: Mem, mem': Mem, i: nat)
    requires p.Ok() && i < |mem.locs| == |mem'.locs| && mem'.locs[i] == mem.locs[i]
    requires HandleOf(i) in s.ctl && Bystander(s, s', HandleOf(i)) && SeatOk(p, s, mem, i)
    requires mem'.count == mem.count || !Inside(s, HandleOf(i), BUFFER_MUTEX)
    ensures SeatOk(p, s', mem', i)
  {
    var h := HandleOf(i);
    if QueueOf(s.ctl[h]).OnMutex? {
      AsideAtMost(s, s', h, BUFFER_MUTEX);
    } else {
      if Outside(s, h) { AsideOutside(s, s', h); }
      if Inside(s, h, BUFFER_MUTEX) { AsideInside(s, s', h, BUFFER_MUTEX); }
    }
  }

  lemma WorkerCondGo(p: Kernel, s: Machine, mem: Mem, i: nat, k: Point, tape: Tape)
    requires Inv(s) && p.Ok() && i < |mem.locs| && HandleOf(i) in s.ctl && s.ctl[HandleOf(i)] == At(Go, k) && SeatOk(p, s, mem, i)
    requires k.CondRelease? || k.CondCheck? || k.CondAgain?
    ensures var s' := StepGo(s, HandleOf(i), k, tape);
      && HandleOf(i) in s'.ctl && SeatOk(p, s', mem, i)
      && s'.st.conds == if k.CondRelease? then s.st.conds[k.c := CondWaiters(s.st, k.c) + [HandleOf(i)]] else s.st.conds
  {
    var h := HandleOf(i);
    var s' := StepGo(s, h, k, tape);
    match k
    case CondRelease(c, m) =>
      Release(s, h, m, tape);
      SameMutexes(UnlockPass(s, h, m, tape).0, s', h, BUFFER_MUTEX);
    case CondCheck(_, m) =>
      if T(s.st, h).isBlocking { SameMutexes(s, s', h, BUFFER_MUTEX); } else { FirstPass(s, h, m); }
    case CondAgain(_, m) => FirstPass(s, h, m);
  }

  lemma WorkerLockGo(p: Kernel, s: Machine, mem: Mem, i: nat, k: Point, tape: Tape)
    requires Inv(s) && p.Ok() && i < |mem.locs| && HandleOf(i) in s.ctl && s.ctl[HandleOf(i)] == At(Go, k) && SeatOk(p, s, mem, i)
    requires k.LockLoop? || k.LockCheck? || k.LockAgain?
    ensures var s' := StepGo(s, HandleOf(i), k, tape);
      HandleOf(i) in s'.ctl && SeatOk(p, s', mem, i) && s'.st.conds == s.st.conds
  {
    var h := HandleOf(i);
    match k
    case LockLoop(m) => FirstPass(s, h, m);
    case LockCheck(m) =>
      if T(s.st, h).isBlocking { SameMutexes(s, StepGo(s, h, k, tape), h, BUFFER_MUTEX); } else { LaterPass(s, h, m, tape); }
    case LockAgain(m) => LaterPass(s, h, m, tape);
  }

  lemma WorkerGo(p: Kernel, s: Machine, mem: Mem, i: nat, k: Point, tape: Tape)
    requires Inv(s) && p.Ok() && i < |mem.locs| && HandleOf(i) in s.ctl && s.ctl[HandleOf(i)] == At(Go, k) && SeatOk(p, s, mem, i)
    ensures var s' := StepGo(s, HandleOf(i), k, tape);
      && HandleOf(i) in s'.ctl && SeatOk(p, s', mem, i)
      && s'.st.conds == if k.CondRelease? then s.st.conds[k.c := CondWaiters(s.st, k.c) + [HandleOf(i)]] else s.st.conds
  {
    hide LockPass, UnlockPass, StepCondRelease;
    var h := HandleOf(i);
    var s' := StepGo(s, h, k, tape);
    match k
    case Ret(_) => SameMutexes(s, s', h, BUFFER_MUTEX);
    case LockLoop(_) => WorkerLockGo(p, s, mem, i, k, tape);
    case LockCheck(_) => WorkerLockGo(p, s, mem, i, k, tape);
    case LockAgain(_) => WorkerLockGo(p, s, mem, i, k, tape);
    case _ => WorkerCondGo(p, s, mem, i, k, tape);
  }

  /** Whether a step puts its thread on a condition queue. */
  predicate Enqueues(s: Machine, l: Label) {
    l.StepL? && l.h in s.ctl && s.ctl[l.h].At? && s.ctl[l.h].phase.Go? && s.ctl[l.h].k.CondRelease?
  }

  /** A worker's step inside rsched keeps its seat, and the queues unless it joins one. */
  lemma WorkerStep(p: Kernel, s: Machine, mem: Mem, i: nat, l: Label, tape: Tape)
    requires Inv(s) && Enabled(s, l) && l.h == HandleOf(i) && !l.CallL?
    requires p.Ok() && i < |mem.locs| && SeatOk(p, s, mem, i)
    ensures var s' := Next(s, l, tape);
      && HandleOf(i) in s'.ctl && SeatOk(p, s', mem, i)
      && s'.st.conds == if Enqueues(s, l) then s.st.conds[s.ctl[l.h].k.c := CondWaiters(s.st, s.ctl[l.h].k.c) + [l.h]] else s.st.conds
  {
    var h := HandleOf(i);
    var s' := Next(s, l, tape);
    match l
    case StepL(_) =>
      if s.ctl[h].phase.Go? {
        WorkerGo(p, s, mem, i, s.ctl[h].k, tape);
      } else {
        BeforeGo(s, h, tape);
        SameMutexes(s, s', h, BUFFER_MUTEX);
      }
    case ResumeL(_) =>
      assert s'.st.mutexes == s.st.mutexes by { if s.ctl[h].Waiting? {} else {} }
      SameMutexes(s, s', h, BUFFER_MUTEX);
      if s.ctl[h].Waiting? {} else {}
    case RegisterL(_) =>
      NewcomerOutside(s, h);
      assert ThreadOk(s, h);
      SameMutexes(s, s', h, BUFFER_MUTEX);
  }

  // ---------------------------------------------------------------- a worker's calls

  /** A call made by worker `i`'s code. */
  ghost predicate WorkerCalls(p: Kernel, s: Machine, mem: Mem, i: nat) {
    && Inv(s) && p.Ok() && i < |mem.locs| && HandleOf(i) in s.ctl && s.ctl[HandleOf(i)].User? && SeatOk(p, s, mem, i)
    && WorkerCode(p, mem, i).0.Some? && Allowed(s, HandleOf(i), WorkerCode(p, mem, i).0.value)
  }

  lemma WorkerCall(p: Kernel, s: Machine, mem: Mem, i: nat, tape: Tape)
    requires WorkerCalls(p, s, mem, i)
    ensures var (op, mem') := WorkerCode(p, mem, i);
      var s' := Call(s, HandleOf(i), op.value, tape);
      HandleOf(i) in s'.ctl && SeatOk(p, s', mem', i)
  {
    var h := HandleOf(i);
    var (op, mem') := WorkerCode(p, mem, i);
    var s' := Call(s, h, op.value, tape);
    match op.value
    case Exit => LedgerExit(s, h, tape);
    case Lock(m) => SameMutexes(s, s', h, m);
    case Wait(c, m) => SameMutexes(s, s', h, m);
    case Signal(c) =>
      assert s'.st.mutexes == s.st.mutexes by { if CondWaiters(s.st, c) == [] {} else {} }
      SameMutexes(s, s', h, BUFFER_MUTEX);
    case Unlock(m) => CallReleases(s, h, m, tape);
  }

  // ---------------------------------------------------------------- the crew across a step

  lemma OtherSeat(p: Kernel, s: Machine, l: Label, tape: Tape, mem: Mem, mem': Mem, i: nat)
    requires Inv(s) && Enabled(s, l) && p.Ok() && i < |mem.locs| == |mem'.locs| && mem'.locs[i] == mem.locs[i]
    requires HandleOf(i) != l.h && HandleOf(i) in s.ctl && HandleOf(i) in Next(s, l, tape).ctl && SeatOk(p, s, mem, i)
    requires mem'.count == mem.count || Inside(s, l.h, BUFFER_MUTEX)
    ensures SeatOk(p, Next(s, l, tape), mem', i)
  {
    var h := HandleOf(i);
    if s.ctl[h].Exited? {
      StaysExited(s, l, tape, h);
    } else {
      AsideNext(s, l, tape, h);
      AsideSeat(p, s, Next(s, l, tape), mem, mem', i);
    }
  }

  /** The places when nobody joins or leaves. */
  lemma PlacesKept(p: Kernel, s: Machine, l: Label, tape: Tape, mem: Mem, mem': Mem)
    requires Inv(s) && Enabled(s, l) && Crew(p, s, mem)
    requires |mem'.locs| == |mem.locs| && forall i: nat :: i < |mem.locs| && HandleOf(i) != l.h ==> mem'.locs[i] == mem.locs[i]
    requires mem'.count == mem.count || Inside(s, l.h, BUFFER_MUTEX)
    requires var s' := Next(s, l, tape);
      && s'.ctl.Keys == s.ctl.Keys && MainOk(p, s', mem')
      && Created(p, s', mem') == Created(p, s, mem) && Reaped(p, s', mem') == Reaped(p, s, mem)
    requires l.h != MAIN ==> 2 <= l.h < |mem.locs| + 2 && SeatOk(p, Next(s, l, tape), mem', l.h - 2)
    ensures forall i: nat {:trigger PlaceOk(p, Next(s, l, tape), mem', i)} :: i < p.Workers() ==> PlaceOk(p, Next(s, l, tape), mem', i)
  {
    var s' := Next(s, l, tape);
    forall i: nat | i < p.Workers() ensures PlaceOk(p, s', mem', i) {
      assert PlaceOk(p, s, mem, i);
      if HandleOf(i) in s.ctl {
        if HandleOf(i) != l.h { OtherSeat(p, s, l, tape, mem, mem', i); }
      }
    }
  }

  /** Whether main's step leaves the list of OS threads and the joins alone. */
  lemma MainStep(p: Kernel, s: Machine, mem: Mem, l: Label, tape: Tape)
    requires Inv(s) && Enabled(s, l) && MainOk(p, s, mem) && l.h == MAIN && !l.CallL? && !l.JoinReturnL? && !Creates(s, l)
    ensures var s' := Next(s, l, tape);
      && MainOk(p, s', mem) && s'.st.conds == s.st.conds
      && (PointOf(s'.ctl[MAIN]) == PointOf(s.ctl[MAIN])
          || (exists t :: PointOf(s.ctl[MAIN]) == Some(JoinCheck(t)) && PointOf(s'.ctl[MAIN]) == Some(JoinCall(t))))
  {
    var s' := Next(s, l, tape);
    match l
    case StepL(_) =>
      var k := s.ctl[MAIN].k;
      if s.ctl[MAIN].phase.Go? {
        if k.JoinCheck? {
          if k.t in s.st.threads {} else {}
        } else {
          if k.t in s.st.threads {} else {}
        }
      } else {
        BeforeGo(s, MAIN, tape);
      }
      SameMutexes(s, s', MAIN, BUFFER_MUTEX);
    case ResumeL(_) =>
      if s.ctl[MAIN].Waiting? {} else {}
      SameMutexes(s, s', MAIN, BUFFER_MUTEX);
  }

  /** Another thread's step does not move main. */
  lemma MainAside(p: Kernel, s: Machine, mem: Mem, mem': Mem, l: Label, tape: Tape)
    requires Inv(s) && Enabled(s, l) && MainOk(p, s, mem) && l.h != MAIN && mem'.main == mem.main
    ensures var s' := Next(s, l, tape);
      MainOk(p, s', mem') && PointOf(s'.ctl[MAIN]) == PointOf(s.ctl[MAIN])
  {
    AsideNext(s, l, tape, MAIN);
    AsideOutside(s, Next(s, l, tape), MAIN);
  }

  lemma CrewMainStep(p: Kernel, s: Machine, mem: Mem, l: Label, tape: Tape)
    requires Inv(s) && Enabled(s, l) && Crew(p, s, mem) && l.h == MAIN && !l.CallL? && !l.JoinReturnL? && !Creates(s, l)
    ensures Crew(p, Next(s, l, tape), mem)
  {
    MainStep(p, s, mem, l, tape);
    SettledNext(s, l, tape);
    PlacesKept(p, s, l, tape, mem, mem);
  }

  lemma CrewWorkerStep(p: Kernel, s: Machine, mem: Mem, l: Label, tape: Tape)
    requires Inv(s) && Enabled(s, l) && Crew(p, s, mem) && l.h != MAIN && !l.CallL?
    ensures Crew(p, Next(s, l, tape), mem)
  {
    var i := l.h - 2;
    assert l.h in s.ctl.Keys && PlaceOk(p, s, mem, i) && HandleOf(i) == l.h;
    WorkerStep(p, s, mem, i, l, tape);
    MainAside(p, s, mem, mem, l, tape);
    SettledNext(s, l, tape);
    PlacesKept(p, s, l, tape, mem, mem);
  }

  lemma CrewMainCreates(p: Kernel, s: Machine, mem: Mem, tape: Tape)
    requires Inv(s) && Enabled(s, StepL(MAIN)) && Crew(p, s, mem) && Creates(s, StepL(MAIN))
    ensures Crew(p, Step(s, MAIN, tape), mem)
    ensures Step(s, MAIN, tape).st.conds == s.st.conds
  {
    hide Inv;
    var c := s.ctl[MAIN].k.c;
    var s' := Step(s, MAIN, tape);
    assert s' == StepCreate(s, MAIN, c);
    Runner(s, MAIN);
    SameMutexes(s, s', MAIN, BUFFER_MUTEX);
    forall i: nat | i < p.Workers() ensures PlaceOk(p, s', mem, i) {
      assert PlaceOk(p, s, mem, i);
      if HandleOf(i) in s.ctl { OtherSeat(p, s, StepL(MAIN), tape, mem, mem, i); }
    }
    assert s'.ctl.Keys == s.ctl.Keys + {c};
  }

  lemma CrewMainReaps(p: Kernel, s: Machine, mem: Mem, tape: Tape)
    requires Inv(s) && Enabled(s, JoinReturnL(MAIN)) && Crew(p, s, mem)
    ensures Crew(p, JoinReturn(s, MAIN), mem)
    ensures JoinReturn(s, MAIN).st.conds == s.st.conds
  {
    hide Inv;
    var t := s.ctl[MAIN].t;
    var s' := JoinReturn(s, MAIN);
    SameMutexes(s, s', MAIN, BUFFER_MUTEX);
    assert PlaceOk(p, s, mem, t - 2) && HandleOf(t - 2) == t;
    forall i: nat | i < p.Workers() ensures PlaceOk(p, s', mem, i) {
      assert PlaceOk(p, s, mem, i);
      if HandleOf(i) in s.ctl && HandleOf(i) != t { OtherSeat(p, s, JoinReturnL(MAIN), tape, mem, mem, i); }
    }
    assert s'.ctl.Keys == s.ctl.Keys - {t};
    assert s'.log.joins.Keys == s.log.joins.Keys - {t};
    assert forall u :: u in s'.log.joins ==> u in s.log.joins;
  }

  lemma CrewMainCall(p: Kernel, s: Machine, mem: Mem, op: Op, tape: Tape)
    requires Inv(s) && Enabled(s, CallL(MAIN, op)) && Crew(p, s, mem) && MainCode(p, mem).0 == Some(op)
    ensures Crew(p, Call(s, MAIN, op, tape), MainCode(p, mem).1)
    ensures Call(s, MAIN, op, tape).st.conds == s.st.conds
  {
    hide Call, Inv;
    var mem' := MainCode(p, mem).1;
    var s' := Call(s, MAIN, op, tape);
    Runner(s, MAIN);
    EnterFrame(s, MAIN, op, tape);
    SameMutexes(s, s', MAIN, BUFFER_MUTEX);
    PlacesKept(p, s, CallL(MAIN, op), tape, mem, mem');
    assert s'.ctl.Keys == s.ctl.Keys;
  }

  lemma CrewWorkerCall(p: Kernel, s: Machine, mem: Mem, i: nat, op: Op, tape: Tape)
    requires Inv(s) && Crew(p, s, mem) && i < p.Workers() && Enabled(s, CallL(HandleOf(i), op)) && WorkerCode(p, mem, i).0 == Some(op)
    ensures Crew(p, Call(s, HandleOf(i), op, tape), WorkerCode(p, mem, i).1)
  {
    hide Call;
    var h := HandleOf(i);
    var l := CallL(h, op);
    var mem' := WorkerCode(p, mem, i).1;
    assert PlaceOk(p, s, mem, i);
    Runner(s, h);
    WorkerCall(p, s, mem, i, tape);
    MainAside(p, s, mem, mem', l, tape);
    TidyCall(s, h, op, tape, MAIN);
    PlacesKept(p, s, l, tape, mem, mem');
  }
}
