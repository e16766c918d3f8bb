/** The lock kernel (rsched/c-examples/benchmarks.c:43-70, 94-106) as a program on the scheduler:
    main opens a barrier for itself and all tasks, creates them, waits at the barrier with them and
    joins them; each task increments a counter under a mutex. */
module LockKernel {
  import opened Prelude
  import opened StateModel
  import opened Machine
  import opened Invariant
  import opened Preservation
  import opened Frames
  import opened Ledger
  import opened Critical
  import opened Program
  import Barriers

  const MAIN: Handle := 1
  const MUTEX: Key := 1
  const START: Key := 1
  const U32: int := 0x1_0000_0000

  datatype Kernel = Kernel(tasks: nat, events: nat)

  /** Where a task is in its code: not yet at the barrier; before round `e`; holding the mutex in
      round `e`; returned. */
  datatype Loc = Fresh | Top(e: nat) | In(e: nat) | Gone

  datatype Mem = Mem(counter: nat, locs: seq<Loc>, main: nat)

  function HandleOf(i: nat): Handle { i + 2 }

  function TaskCode(p: Kernel, mem: Mem, i: nat): (Option<Op>, Mem)
    requires i < |mem.locs|
  {
    match mem.locs[i]
    case Fresh => (Some(BarrierWait(START)), mem.(locs := mem.locs[i := Top(0)]))
    case Top(e) =>
      if e < p.events then (Some(Lock(MUTEX)), mem.(locs := mem.locs[i := In(e)]))
      else (Some(Exit), mem.(locs := mem.locs[i := Gone]))
    case In(e) => (Some(Unlock(MUTEX)), mem.(counter := (mem.counter + 1) % U32, locs := mem.locs[i := Top(e + 1)]))
    case Gone => (None, mem)
  }

  function MainCode(p: Kernel, mem: Mem): (Option<Op>, Mem) {
    var n, j := p.tasks, mem.main;
    var next := mem.(main := j + 1);
    if j == 0 then (Some(BarrierInit(START, n + 1)), next)
    else if j <= n then (Some(Create(HandleOf(j - 1))), next)
    else if j == n + 1 then (Some(BarrierWait(START)), next)
    else if j <= 2 * n + 1 then (Some(Join(HandleOf(j - n - 2))), next)
    else (None, mem)
  }

  function LockCode(p: Kernel): Code<Mem> {
    (mem: Mem, h: Handle, ret: int) =>
      if h == MAIN then MainCode(p, mem)
      else if 2 <= h < |mem.locs| + 2 then TaskCode(p, mem, h - 2)
      else (None, mem)
  }

  function StartMem(p: Kernel): Mem {
    Mem(0, seq(p.tasks, _ => Fresh), 0)
  }

  // ---------------------------------------------------------------- where everybody is

  /** The start barrier has let everybody through. */
  ghost predicate Opened(s: Machine) {
    RoundsOf(s, START) != []
  }

  ghost predicate AtStart(s: Machine, h: Handle) {
    BarrierWaiter(s, START, h) || Opened(s)
  }

  ghost predicate PointSeat(p: Kernel, s: Machine, mem: Mem, i: nat, k: Point)
    requires i < |mem.locs|
  {
    var h, loc := HandleOf(i), mem.locs[i];
    match k
    case Ret(_) => (loc.Fresh? || (loc.Top? && Opened(s))) && Outside(s, h)
    case BarrierJoin(b) => b == START && loc == Top(0) && !Opened(s) && Outside(s, h)
    case BarrierCheck(b, _) => b == START && loc == Top(0) && AtStart(s, h) && Outside(s, h)
    case BarrierAgain(b, _) => b == START && loc == Top(0) && AtStart(s, h) && Outside(s, h)
    case LockLoop(m) => m == MUTEX && loc.In? && Opened(s) && Outside(s, h)
    case LockCheck(m) => m == MUTEX && loc.In? && Opened(s) && AtMost(s, h, m)
    case LockAgain(m) => m == MUTEX && loc.In? && Opened(s) && AtMost(s, h, m)
    case _ => false
  }

  ghost predicate SeatOk(p: Kernel, s: Machine, mem: Mem, i: nat)
    requires i < |mem.locs| && HandleOf(i) in s.ctl
  {
    var h, loc := HandleOf(i), mem.locs[i];
    && (loc.Fresh? ==> !Opened(s)) && (loc.Top? ==> loc.e <= p.events) && (loc.In? ==> loc.e < p.events)
    && (match s.ctl[h] {
          case Starting => loc.Fresh?
          case User(_) =>
            if loc.In? then Opened(s) && Inside(s, h, MUTEX)
            else !loc.Gone? && Outside(s, h) && (loc.Top? ==> Opened(s))
          case Exited => loc.Gone? && Opened(s)
          case RealJoining(_) => false
          case At(_, k) => PointSeat(p, s, mem, i, k)
          case Waiting(k, _) => PointSeat(p, s, mem, i, k)
          case DrainWaiting(_, _, k) => PointSeat(p, s, mem, i, k)
        })
  }

  ghost predicate MainOk(p: Kernel, s: Machine, mem: Mem) {
    var j, n := mem.main, p.tasks;
    && MAIN in s.ctl && !s.ctl[MAIN].Starting? && !s.ctl[MAIN].Exited? && Outside(s, MAIN) && j <= 2 * n + 2
    && match PointOf(s.ctl[MAIN]) {
         case None => Opened(s) <==> j >= n + 2
         case Some(BarrierMake(b, k)) => j == 1 && b == START && k == n + 1 && !Opened(s)
         case Some(CreateBody(c)) => 2 <= j <= n + 1 && c == HandleOf(j - 2) && !Opened(s)
         case Some(BarrierJoin(b)) => j == n + 2 && b == START && !Opened(s)
         case Some(BarrierCheck(b, _)) => j == n + 2 && b == START && AtStart(s, MAIN)
         case Some(BarrierAgain(b, _)) => j == n + 2 && b == START && AtStart(s, MAIN)
         case Some(JoinCheck(t)) => n + 3 <= j && t == HandleOf(j - n - 3) && Opened(s)
         case Some(JoinCall(t)) => n + 3 <= j && t == HandleOf(j - n - 3) && Opened(s)
         case _ => false
       }
  }

  ghost function Created(p: Kernel, s: Machine, mem: Mem): int
    requires MAIN in s.ctl
  {
    var k := PointOf(s.ctl[MAIN]);
    if k.Some? && k.value.CreateBody? then mem.main - 2
    else if mem.main == 0 then 0
    else if mem.main <= p.tasks then mem.main - 1 else p.tasks
  }

  ghost function Reaped(p: Kernel, s: Machine, mem: Mem): int
    requires MAIN in s.ctl
  {
    var k := PointOf(s.ctl[MAIN]);
    if mem.main <= p.tasks + 2 then 0
    else mem.main - p.tasks - 2 - if k.Some? then 1 else 0
  }

  ghost predicate PlaceOk(p: Kernel, s: Machine, mem: Mem, i: nat)
    requires i < |mem.locs| && MAIN in s.ctl
  {
    && (HandleOf(i) in s.ctl <==> Reaped(p, s, mem) <= i < Created(p, s, mem))
    && (i >= Created(p, s, mem) ==> mem.locs[i] == Fresh && !Opened(s))
    && (i < Reaped(p, s, mem) ==> mem.locs[i] == Gone)
    && (HandleOf(i) in s.ctl ==> SeatOk(p, s, mem, i))
  }

  /** The barrier is there once main has made it, and empty once it has opened. */
  ghost predicate BarrierState(p: Kernel, s: Machine, mem: Mem)
    requires MAIN in s.ctl
  {
    if mem.main == 0 || (PointOf(s.ctl[MAIN]).Some? && PointOf(s.ctl[MAIN]).value.BarrierMake?) then
      !Opened(s) && START !in s.st.barriers
    else
      && START in s.st.barriers && s.st.barriers[START].count == p.tasks + 1
      && (Opened(s) ==> s.st.barriers[START].waiters == [])
  }

  ghost predicate Crew(p: Kernel, s: Machine, mem: Mem) {
    && |mem.locs| == p.tasks && MainOk(p, s, mem) && BarrierState(p, s, mem)
    && (forall i: nat {:trigger PlaceOk(p, s, mem, i)} :: i < p.tasks ==> PlaceOk(p, s, mem, i))
    && (forall h {:trigger h in s.ctl.Keys} :: h in s.ctl.Keys ==> h == MAIN || 2 <= h < p.tasks + 2)
    && (forall t {:trigger t in s.log.joins} :: t in s.log.joins ==>
          PointOf(s.ctl[MAIN]) == Some(JoinCheck(t)) || PointOf(s.ctl[MAIN]) == Some(JoinCall(t)))
    && Tidy(s, MAIN)
  }

  // ---------------------------------------------------------------- a task's seat across a step

  lemma AsideSeat(p: Kernel, s: Machine, s': Machine, mem: Mem, mem': Mem, i: nat)
    requires i < |mem.locs| == |mem'.locs| && mem'.locs[i] == mem.locs[i]
    requires HandleOf(i) in s.ctl && Bystander(s, s', HandleOf(i)) && SeatOk(p, s, mem, i) && Barriers.SameBarriers(s, s')
    ensures SeatOk(p, s', mem', i)
  {
    var h := HandleOf(i);
    if QueueOf(s.ctl[h]).OnMutex? {
      AsideAtMost(s, s', h, MUTEX);
    } else {
      if Outside(s, h) { AsideOutside(s, s', h); }
      if Inside(s, h, MUTEX) { AsideInside(s, s', h, MUTEX); }
    }
  }

  lemma TaskGo(p: Kernel, s: Machine, mem: Mem, i: nat, k: Point, tape: Tape)
    requires Inv(s) && i < |mem.locs| && HandleOf(i) in s.ctl && s.ctl[HandleOf(i)] == At(Go, k) && SeatOk(p, s, mem, i)
    requires !k.BarrierJoin? && Barriers.SameBarriers(s, StepGo(s, HandleOf(i), k, tape))
    ensures var s' := StepGo(s, HandleOf(i), k, tape);
      HandleOf(i) in s'.ctl && SeatOk(p, s', mem, i)
  {
    var h := HandleOf(i);
    var s' := StepGo(s, h, k, tape);
    match k
    case Ret(_) => SameMutexes(s, s', h, MUTEX);
    case BarrierCheck(_, _) => TaskBarrierGo(p, s, mem, i, k, tape);
    case BarrierAgain(_, _) => TaskBarrierGo(p, s, mem, i, k, tape);
    case _ => TaskLockGo(p, s, mem, i, k, tape);
  }

  lemma TaskBarrierGo(p: Kernel, s: Machine, mem: Mem, i: nat, k: Point, tape: Tape)
    requires Inv(s) && i < |mem.locs| && HandleOf(i) in s.ctl && s.ctl[HandleOf(i)] == At(Go, k) && SeatOk(p, s, mem, i)
    requires (k.BarrierCheck? || k.BarrierAgain?) && Barriers.SameBarriers(s, StepGo(s, HandleOf(i), k, tape))
    ensures var s' := StepGo(s, HandleOf(i), k, tape);
      HandleOf(i) in s'.ctl && SeatOk(p, s', mem, i)
  {
    var h := HandleOf(i);
    assert ThreadOk(s, h);
    if k.BarrierCheck? && T(s.st, h).isBlocking {} else {}
    SameMutexes(s, StepGo(s, h, k, tape), h, MUTEX);
  }

  lemma TaskLockGo(p: Kernel, s: Machine, mem: Mem, i: nat, k: Point, tape: Tape)
    requires Inv(s) && i < |mem.locs| && HandleOf(i) in s.ctl && s.ctl[HandleOf(i)] == At(Go, k) && SeatOk(p, s, mem, i)
    requires k.LockLoop? || k.LockCheck? || k.LockAgain?
    requires Barriers.SameBarriers(s, StepGo(s, HandleOf(i), k, tape))
    ensures var s' := StepGo(s, HandleOf(i), k, tape);
      HandleOf(i) in s'.ctl && SeatOk(p, s', mem, i)
  {
    var h := HandleOf(i);
    match k
    case LockLoop(m) => FirstPass(s, h, m);
    case LockCheck(m) =>
      if T(s.st, h).isBlocking { SameMutexes(s, StepGo(s, h, k, tape), h, MUTEX); } else { LaterPass(s, h, m, tape); }
    case LockAgain(m) => LaterPass(s, h, m, tape);
  }

  predicate AtJoin(s: Machine, l: Label) {
    l.StepL? && l.h in s.ctl && s.ctl[l.h].At? && s.ctl[l.h].phase.Go? && s.ctl[l.h].k.BarrierJoin?
  }

  lemma TaskStep(p: Kernel, s: Machine, mem: Mem, i: nat, l: Label, tape: Tape)
    requires Inv(s) && Enabled(s, l) && l.h == HandleOf(i) && !l.CallL? && !AtJoin(s, l)
    requires i < |mem.locs| && SeatOk(p, s, mem, i) && Barriers.SameBarriers(s, Next(s, l, tape))
    ensures var s' := Next(s, l, tape);
      HandleOf(i) in s'.ctl && SeatOk(p, s', mem, i)
  {
    var h := HandleOf(i);
    var s' := Next(s, l, tape);
    match l
    case StepL(_) =>
      if s.ctl[h].phase.Go? {
        TaskGo(p, s, mem, i, s.ctl[h].k, tape);
      } else {
        BeforeGo(s, h, tape);
        SameMutexes(s, s', h, MUTEX);
      }
    case ResumeL(_) =>
      assert s'.st.mutexes == s.st.mutexes by { if s.ctl[h].Waiting? {} else {} }
      SameMutexes(s, s', h, MUTEX);
      if s.ctl[h].Waiting? {} else {}
    case RegisterL(_) =>
      NewcomerOutside(s, h);
      assert ThreadOk(s, h);
      SameMutexes(s, s', h, MUTEX);
  }

  ghost predicate TaskCalls(p: Kernel, s: Machine, mem: Mem, i: nat) {
    && Inv(s) && i < |mem.locs| && HandleOf(i) in s.ctl && s.ctl[HandleOf(i)].User? && SeatOk(p, s, mem, i)
    && TaskCode(p, mem, i).0.Some? && Allowed(s, HandleOf(i), TaskCode(p, mem, i).0.value)
  }

  lemma TaskCall(p: Kernel, s: Machine, mem: Mem, i: nat, tape: Tape)
    requires TaskCalls(p, s, mem, i)
    requires Barriers.SameBarriers(s, Call(s, HandleOf(i), TaskCode(p, mem, i).0.value, tape))
    ensures var (op, mem') := TaskCode(p, mem, i);
      var s' := Call(s, HandleOf(i), op.value, tape);
      HandleOf(i) in s'.ctl && SeatOk(p, s', mem', i)
  {
    var h := HandleOf(i);
    var (op, mem') := TaskCode(p, mem, i);
    var s' := Call(s, h, op.value, tape);
    match op.value
    case Exit => LedgerExit(s, h, tape);
    case Lock(m) => SameMutexes(s, s', h, m);
    case BarrierWait(_) => SameMutexes(s, s', h, MUTEX);
    case Unlock(m) => CallReleases(s, h, m, tape);
  }

  // ---------------------------------------------------------------- the crew across a step

  lemma OtherSeat(p: Kernel, s: Machine, l: Label, tape: Tape, mem: Mem, mem': Mem, i: nat)
    requires Inv(s) && Enabled(s, l) && i < |mem.locs| == |mem'.locs| && mem'.locs[i] == mem.locs[i]
    requires HandleOf(i) != l.h && HandleOf(i) in s.ctl && HandleOf(i) in Next(s, l, tape).ctl && SeatOk(p, s, mem, i)
    requires Barriers.SameBarriers(s, Next(s, l, tape))
    ensures SeatOk(p, Next(s, l, tape), mem', i)
  {
    var h := HandleOf(i);
    if s.ctl[h].Exited? {
      StaysExited(s, l, tape, h);
    } else {
      AsideNext(s, l, tape, h);
      AsideSeat(p, s, Next(s, l, tape), mem, mem', i);
    }
  }

  lemma PlacesKept(p: Kernel, s: Machine, l: Label, tape: Tape, mem: Mem, mem': Mem)
    requires Inv(s) && Enabled(s, l) && Crew(p, s, mem) && Barriers.SameBarriers(s, Next(s, l, tape))
    requires |mem'.locs| == |mem.locs| && forall i: nat :: i < |mem.locs| && HandleOf(i) != l.h ==> mem'.locs[i] == mem.locs[i]
    requires var s' := Next(s, l, tape);
      && s'.ctl.Keys == s.ctl.Keys && MAIN in s'.ctl
      && Created(p, s', mem') == Created(p, s, mem) && Reaped(p, s', mem') == Reaped(p, s, mem)
    requires l.h != MAIN ==> 2 <= l.h < |mem.locs| + 2 && SeatOk(p, Next(s, l, tape), mem', l.h - 2)
    ensures forall i: nat {:trigger PlaceOk(p, Next(s, l, tape), mem', i)} :: i < p.tasks ==> PlaceOk(p, Next(s, l, tape), mem', i)
  {
    hide Inv, SeatOk, MainOk, BarrierState;
    var s' := Next(s, l, tape);
    forall i: nat | i < p.tasks ensures PlaceOk(p, s', mem', i) {
      assert PlaceOk(p, s, mem, i);
      if HandleOf(i) in s.ctl {
        if HandleOf(i) != l.h { OtherSeat(p, s, l, tape, mem, mem', i); }
      }
    }
  }

  predicate AtMake(s: Machine, l: Label) {
    l.StepL? && l.h in s.ctl && s.ctl[l.h].At? && s.ctl[l.h].phase.Go? && s.ctl[l.h].k.BarrierMake?
  }

  lemma MainStep(p: Kernel, s: Machine, mem: Mem, l: Label, tape: Tape)
    requires Inv(s) && Enabled(s, l) && Crew(p, s, mem) && l.h == MAIN && !l.CallL? && !l.JoinReturnL?
    requires !Creates(s, l) && !AtMake(s, l) && !AtJoin(s, l) && Barriers.SameBarriers(s, Next(s, l, tape))
    ensures var s' := Next(s, l, tape);
      && MainOk(p, s', mem) && BarrierState(p, s', mem)
      && Created(p, s', mem) == Created(p, s, mem) && Reaped(p, s', mem) == Reaped(p, s, mem)
      && forall t :: PointOf(s.ctl[MAIN]) == Some(JoinCheck(t)) || PointOf(s.ctl[MAIN]) == Some(JoinCall(t)) ==>
                     PointOf(s'.ctl[MAIN]) == Some(JoinCheck(t)) || PointOf(s'.ctl[MAIN]) == Some(JoinCall(t))
  {
    assert ThreadOk(s, MAIN);
    match l
    case StepL(_) =>
      if s.ctl[MAIN].phase.Go? {
        MainGoes(p, s, mem, s.ctl[MAIN].k, tape);
      } else {
        BeforeGo(s, MAIN, tape);
        SameMutexes(s, Step(s, MAIN, tape), MAIN, MUTEX);
      }
    case ResumeL(_) =>
      if s.ctl[MAIN].Waiting? {} else {}
      SameMutexes(s, Resume(s, MAIN), MAIN, MUTEX);
  }

  lemma MainGoes(p: Kernel, s: Machine, mem: Mem, k: Point, tape: Tape)
    requires MainOk(p, s, mem) && BarrierState(p, s, mem) && s.ctl[MAIN] == At(Go, k)
    requires !k.CreateBody? && !k.BarrierMake? && !k.BarrierJoin? && Barriers.SameBarriers(s, StepGo(s, MAIN, k, tape))
    requires (k.BarrierCheck? && !T(s.st, MAIN).isBlocking) || k.BarrierAgain? ==> !BarrierWaiter(s, START, MAIN)
    ensures var s' := StepGo(s, MAIN, k, tape);
      && MainOk(p, s', mem) && BarrierState(p, s', mem)
      && Created(p, s', mem) == Created(p, s, mem) && Reaped(p, s', mem) == Reaped(p, s, mem)
      && forall t :: PointOf(s.ctl[MAIN]) == Some(JoinCheck(t)) || PointOf(s.ctl[MAIN]) == Some(JoinCall(t)) ==>
                     PointOf(s'.ctl[MAIN]) == Some(JoinCheck(t)) || PointOf(s'.ctl[MAIN]) == Some(JoinCall(t))
  {
    if k.JoinCheck? || k.JoinCall? {
      if k.t in s.st.threads {} else {}
    } else {
      if k.BarrierCheck? && T(s.st, MAIN).isBlocking {} else {}
    }
    SameMutexes(s, StepGo(s, MAIN, k, tape), MAIN, MUTEX);
  }

  lemma CrewMainStep(p: Kernel, s: Machine, mem: Mem, l: Label, tape: Tape)
    requires Inv(s) && Enabled(s, l) && Crew(p, s, mem) && l.h == MAIN && !l.CallL? && !l.JoinReturnL?
    requires !Creates(s, l) && !AtMake(s, l) && !AtJoin(s, l)
    ensures Crew(p, Next(s, l, tape), mem)
  {
    Barriers.ElsewhereNext(s, l, tape);
    MainStep(p, s, mem, l, tape);
    SettledNext(s, l, tape);
    PlacesKept(p, s, l, tape, mem, mem);
  }

  /** Another thread's step that leaves the barrier alone does not move main. */
  lemma MainAside(p: Kernel, s: Machine, mem: Mem, mem': Mem, l: Label, tape: Tape)
    requires Inv(s) && Enabled(s, l) && Crew(p, s, mem) && l.h != MAIN && mem'.main == mem.main && Barriers.SameBarriers(s, Next(s, l, tape))
    ensures var s' := Next(s, l, tape);
      MainOk(p, s', mem') && PointOf(s'.ctl[MAIN]) == PointOf(s.ctl[MAIN]) && BarrierState(p, s', mem')
  {
    hide Inv, SeatOk, Next, Enabled;
    AsideNext(s, l, tape, MAIN);
    AsideOutside(s, Next(s, l, tape), MAIN);
  }

  lemma CrewTaskStep(p: Kernel, s: Machine, mem: Mem, l: Label, tape: Tape)
    requires Inv(s) && Enabled(s, l) && Crew(p, s, mem) && l.h != MAIN && !l.CallL? && !AtJoin(s, l)
    ensures Crew(p, Next(s, l, tape), mem)
  {
    var i := l.h - 2;
    assert l.h in s.ctl.Keys && PlaceOk(p, s, mem, i) && HandleOf(i) == l.h;
    Barriers.ElsewhereNext(s, l, tape);
    TaskStep(p, s, mem, i, l, tape);
    MainAside(p, s, mem, mem, l, tape);
    SettledNext(s, l, tape);
    PlacesKept(p, s, l, tape, mem, mem);
  }

  lemma TaskCodeLocal(p: Kernel, mem: Mem, i: nat)
    requires i < |mem.locs|
    ensures var mem' := TaskCode(p, mem, i).1;
      |mem'.locs| == |mem.locs| && mem'.main == mem.main && forall j: nat :: j < |mem.locs| && j != i ==> mem'.locs[j] == mem.locs[j]
    ensures var op := TaskCode(p, mem, i).0; op.Some? ==> !op.value.Join?
  {
  }

  lemma CrewTaskCall(p: Kernel, s: Machine, mem: Mem, i: nat, op: Op, tape: Tape)
    requires Inv(s) && Crew(p, s, mem) && i < p.tasks && Enabled(s, CallL(HandleOf(i), op)) && TaskCode(p, mem, i).0 == Some(op)
    ensures Crew(p, Call(s, HandleOf(i), op, tape), TaskCode(p, mem, i).1)
  {
    hide SeatOk, Inv, Call, TaskCode;
    var h := HandleOf(i);
    var l := CallL(h, op);
    var mem' := TaskCode(p, mem, i).1;
    assert PlaceOk(p, s, mem, i);
    TaskCodeLocal(p, mem, i);
    Barriers.ElsewhereNext(s, l, tape);
    TaskCall(p, s, mem, i, tape);
    MainAside(p, s, mem, mem', l, tape);
    TidyCall(s, h, op, tape, MAIN);
    PlacesKept(p, s, l, tape, mem, mem');
  }

  /** Main goes to where its next call enters. */
  lemma MainEnters(p: Kernel, s: Machine, s': Machine, mem: Mem, op: Op)
    requires MainOk(p, s, mem) && s.ctl[MAIN].User? && MainCode(p, mem).0 == Some(op) && Outside(s', MAIN)
    requires s'.ctl == s.ctl[MAIN := Entry(s, MAIN, op)] && RoundsOf(s', START) == RoundsOf(s, START)
    ensures var mem' := MainCode(p, mem).1;
      && MainOk(p, s', mem') && mem'.locs == mem.locs
      && Created(p, s', mem') == Created(p, s, mem) && Reaped(p, s', mem') == Reaped(p, s, mem)
      && (PointOf(s'.ctl[MAIN]).Some? && PointOf(s'.ctl[MAIN]).value.JoinCheck? <==> op.Join?)
      && (op.Join? ==> PointOf(s'.ctl[MAIN]) == Some(JoinCheck(op.t)))
  {
    hide Outside;
  }

  lemma MainCalls(p: Kernel, s: Machine, mem: Mem, op: Op, tape: Tape)
    requires Inv(s) && Enabled(s, CallL(MAIN, op)) && Crew(p, s, mem) && MainCode(p, mem).0 == Some(op)
    ensures var s', mem' := Call(s, MAIN, op, tape), MainCode(p, mem).1;
      && MainOk(p, s', mem') && BarrierState(p, s', mem') && Tidy(s', MAIN) && mem'.locs == mem.locs
      && Created(p, s', mem') == Created(p, s, mem) && Reaped(p, s', mem') == Reaped(p, s, mem)
      && s'.ctl.Keys == s.ctl.Keys && Barriers.SameBarriers(s, s')
      && forall t :: t in s'.log.joins ==> PointOf(s'.ctl[MAIN]) == Some(JoinCheck(t))
  {
    hide Call, Inv;
    var s' := Call(s, MAIN, op, tape);
    Runner(s, MAIN);
    EnterFrame(s, MAIN, op, tape);
    SameMutexes(s, s', MAIN, MUTEX);
    MainEnters(p, s, s', mem, op);
  }

  lemma CrewMainCall(p: Kernel, s: Machine, mem: Mem, op: Op, tape: Tape)
    requires Inv(s) && Enabled(s, CallL(MAIN, op)) && Crew(p, s, mem) && MainCode(p, mem).0 == Some(op)
    ensures Crew(p, Call(s, MAIN, op, tape), MainCode(p, mem).1)
  {
    hide MainCode;
    MainCalls(p, s, mem, op, tape);
    PlacesKept(p, s, CallL(MAIN, op), tape, mem, MainCode(p, mem).1);
  }

  lemma MainCreates(p: Kernel, s: Machine, mem: Mem, tape: Tape)
    requires Inv(s) && Enabled(s, StepL(MAIN)) && Crew(p, s, mem) && Creates(s, StepL(MAIN))
    ensures var s' := Step(s, MAIN, tape);
      && MainOk(p, s', mem) && BarrierState(p, s', mem) && Tidy(s', MAIN)
      && Created(p, s', mem) == Created(p, s, mem) + 1 && Reaped(p, s', mem) == Reaped(p, s, mem) == 0
      && s'.ctl.Keys == s.ctl.Keys + {HandleOf(mem.main - 2)} && s'.ctl[HandleOf(mem.main - 2)] == Starting
      && Barriers.SameBarriers(s, s') && s'.log.joins == s.log.joins
  {
    hide Inv;
    var s' := Step(s, MAIN, tape);
    assert s' == StepCreate(s, MAIN, s.ctl[MAIN].k.c);
    Runner(s, MAIN);
    SameMutexes(s, s', MAIN, MUTEX);
  }

  lemma CrewMainCreates(p: Kernel, s: Machine, mem: Mem, tape: Tape)
    requires Inv(s) && Enabled(s, StepL(MAIN)) && Crew(p, s, mem) && Creates(s, StepL(MAIN))
    ensures Crew(p, Step(s, MAIN, tape), mem)
  {
    hide StepCreate;
    var s' := Step(s, MAIN, tape);
    MainCreates(p, s, mem, tape);
    forall i: nat | i < p.tasks ensures PlaceOk(p, s', mem, i) {
      assert PlaceOk(p, s, mem, i);
      if HandleOf(i) in s.ctl { OtherSeat(p, s, StepL(MAIN), tape, mem, mem, i); }
    }
  }

  lemma CrewMainReaps(p: Kernel, s: Machine, mem: Mem, tape: Tape)
    requires Inv(s) && Enabled(s, JoinReturnL(MAIN)) && Crew(p, s, mem)
    ensures Crew(p, JoinReturn(s, MAIN), mem)
  {
    hide Inv;
    var t := s.ctl[MAIN].t;
    var s' := JoinReturn(s, MAIN);
    SameMutexes(s, s', MAIN, MUTEX);
    assert PlaceOk(p, s, mem, t - 2) && HandleOf(t - 2) == t;
    forall i: nat | i < p.tasks ensures PlaceOk(p, s', mem, i) {
      assert PlaceOk(p, s, mem, i);
      if HandleOf(i) in s.ctl && HandleOf(i) != t { OtherSeat(p, s, JoinReturnL(MAIN), tape, mem, mem, i); }
    }
    assert s'.ctl.Keys == s.ctl.Keys - {t};
    assert forall u :: u in s'.log.joins ==> u in s.log.joins;
  }

  // ---------------------------------------------------------------- the start barrier

  lemma CrewMainMakes(p: Kernel, s: Machine, mem: Mem, tape: Tape)
    requires Inv(s) && Enabled(s, StepL(MAIN)) && Crew(p, s, mem) && AtMake(s, StepL(MAIN))
    ensures Crew(p, Step(s, MAIN, tape), mem)
  {
    var s' := Step(s, MAIN, tape);
    Runner(s, MAIN);
    SettledNext(s, StepL(MAIN), tape);
    SameMutexes(s, s', MAIN, MUTEX);
    forall i: nat | i < p.tasks ensures PlaceOk(p, s', mem, i) { assert PlaceOk(p, s, mem, i); }
  }

  /** Whoever waits at the barrier is one of the crew, and is at the barrier. */
  lemma WaitersAreCrew(p: Kernel, s: Machine, mem: Mem, x: Handle)
    requires Inv(s) && Crew(p, s, mem) && BarrierWaiter(s, START, x)
    ensures 1 <= x < p.tasks + 2 && x in s.ctl && QueueOf(s.ctl[x]) == OnBarrier(START) && T(s.st, x).isBlocking
  {
    assert BarrierOk(s, START);
    assert x in s.ctl.Keys && ThreadOk(s, x);
  }

  /** Arriving at the barrier: the last to come finds all the others waiting. */
  lemma Arrives(p: Kernel, s: Machine, mem: Mem, h: Handle)
    requires Inv(s) && Crew(p, s, mem) && h in s.ctl && s.ctl[h] == At(Go, BarrierJoin(START)) && START in s.st.barriers
    ensures !Opened(s) && h !in s.st.barriers[START].waiters && 1 <= h < p.tasks + 2
    ensures |s.st.barriers[START].waiters| >= p.tasks ==> forall x :: 1 <= x < p.tasks + 2 && x != h ==> BarrierWaiter(s, START, x)
  {
    Runner(s, h);
    var ws := s.st.barriers[START].waiters;
    assert BarrierOk(s, START) && h in s.ctl.Keys;
    if h in ws { WaitersAreCrew(p, s, mem, h); }
    if h != MAIN { assert PlaceOk(p, s, mem, h - 2) && HandleOf(h - 2) == h; }
    DistinctAppend(ws, h);
    forall x | x in ws + [h] ensures 1 <= x < 1 + (p.tasks + 1) {
      if x != h { WaitersAreCrew(p, s, mem, x); }
    }
    Pigeonhole(ws + [h], 1, p.tasks + 1);
    if |ws| >= p.tasks {
      forall x | 1 <= x < p.tasks + 2 && x != h ensures BarrierWaiter(s, START, x) { assert x in ws + [h]; }
    }
  }

  /** What an arrival does to the barrier. */
  ghost predicate Arrived(p: Kernel, s: Machine, s': Machine, h: Handle) {
    && START in s.st.barriers && START in s'.st.barriers && s'.st.barriers[START].count == s.st.barriers[START].count
    && s'.st.mutexes == s.st.mutexes && h in s.ctl
    && (exists released :: s'.ctl == s.ctl[h := At(Drain(true), BarrierCheck(START, released))])
    && (if |s.st.barriers[START].waiters| < p.tasks then
          !Opened(s') && s'.st.barriers[START].waiters == s.st.barriers[START].waiters + [h]
        else Opened(s') && s'.st.barriers[START].waiters == [])
  }

  lemma ArrivalMeans(p: Kernel, s: Machine, mem: Mem, h: Handle)
    requires Inv(s) && Crew(p, s, mem) && h in s.ctl && s.ctl[h] == At(Go, BarrierJoin(START)) && START in s.st.barriers
    requires s.st.barriers[START].count == p.tasks + 1
    ensures Arrived(p, s, StepBarrierJoin(s, h, START), h)
  {
    Arrives(p, s, mem, h);
    var ws := s.st.barriers[START].waiters + [h];
    if |ws| < p.tasks + 1 {} else {}
  }

  lemma SeatArrived(p: Kernel, s: Machine, s': Machine, mem: Mem, h: Handle, i: nat)
    requires Inv(s) && Crew(p, s, mem) && Arrived(p, s, s', h) && s.ctl[h] == At(Go, BarrierJoin(START)) && i < p.tasks
    ensures PlaceOk(p, s, mem, i) ==> PlaceOk(p, s', mem, i)
  {
    var x := HandleOf(i);
    Arrives(p, s, mem, h);
    assert PlaceOk(p, s, mem, i);
    SameMutexes(s, s', x, MUTEX);
    if Opened(s') && x != h {
      WaitersAreCrew(p, s, mem, x);
    }
  }

  lemma MainArrived(p: Kernel, s: Machine, s': Machine, mem: Mem, h: Handle)
    requires Inv(s) && Crew(p, s, mem) && Arrived(p, s, s', h) && s.ctl[h] == At(Go, BarrierJoin(START))
    requires s.st.barriers[START].count == p.tasks + 1
    ensures MAIN in s'.ctl && MainOk(p, s', mem) && BarrierState(p, s', mem)
    ensures PointOf(s'.ctl[MAIN]) == PointOf(s.ctl[MAIN]) || (h == MAIN && PointOf(s'.ctl[h]).Some? && PointOf(s'.ctl[h]).value.BarrierCheck?)
  {
    hide SeatOk;
    Arrives(p, s, mem, h);
    SameMutexes(s, s', MAIN, MUTEX);
    if Opened(s') && MAIN != h { WaitersAreCrew(p, s, mem, MAIN); }
  }

  lemma CrewArrives(p: Kernel, s: Machine, mem: Mem, h: Handle, tape: Tape)
    requires Inv(s) && Crew(p, s, mem) && Enabled(s, StepL(h)) && AtJoin(s, StepL(h))
    ensures Crew(p, Step(s, h, tape), mem)
  {
    hide StepBarrierJoin, BarrierArrive;
    assert h in s.ctl.Keys;
    if h != MAIN { assert PlaceOk(p, s, mem, h - 2) && HandleOf(h - 2) == h; }
    var s' := StepBarrierJoin(s, h, START);
    assert Step(s, h, tape) == s';
    ArrivalMeans(p, s, mem, h);
    SettledNext(s, StepL(h), tape);
    MainArrived(p, s, s', mem, h);
    forall i: nat | i < p.tasks ensures PlaceOk(p, s', mem, i) {
      assert PlaceOk(p, s, mem, i);
      SeatArrived(p, s, s', mem, h, i);
    }
  }

  /** Every step inside rsched keeps the crew. */
  lemma CrewStep(p: Kernel, s: Machine, mem: Mem, l: Label, tape: Tape)
    requires Inv(s) && Enabled(s, l) && Crew(p, s, mem) && !l.CallL?
    ensures Crew(p, Next(s, l, tape), mem)
  {
    if AtJoin(s, l) {
      CrewArrives(p, s, mem, l.h, tape);
    } else if l.h != MAIN {
      CrewTaskStep(p, s, mem, l, tape);
    } else if l.JoinReturnL? {
      CrewMainReaps(p, s, mem, tape);
    } else if Creates(s, l) {
      CrewMainCreates(p, s, mem, tape);
    } else if AtMake(s, l) {
      CrewMainMakes(p, s, mem, tape);
    } else {
      CrewMainStep(p, s, mem, l, tape);
    }
  }
}
