/** What holds at every step of every run of the machine. */
module Invariant {
  import opened Prelude
  import opened StateModel
  import opened Machine

  /** Holding the turn: running, about to run, or waiting only for something that is already on its way. */
  ghost predicate Active(s: Machine, h: Handle) {
    && h in s.ctl
    && match s.ctl[h] {
         case User(_) => true
         case At(_, _) => true
         case DrainWaiting(_, _, _) => true
         case Waiting(_, signalled) => signalled
         case RealJoining(t) => !Live(s, t)
         case Starting => false
         case Exited => false
       }
  }

  ghost predicate JoinerOf(s: Machine, t: Handle, h: Handle) {
    Live(s, t) && T(s.st, t).joiner == Some(h)
  }

  ghost predicate MutexWaiter(s: Machine, m: Key, h: Handle) {
    m in s.st.mutexes && h in s.st.mutexes[m].waiters
  }

  ghost predicate BarrierWaiter(s: Machine, b: Key, h: Handle) {
    b in s.st.barriers && h in s.st.barriers[b].waiters
  }

  /** The queue a point belongs to. */
  datatype Queue = OnMutex(m: Key) | OnCond(c: Key) | OnBarrier(b: Key) | OnJoin(t: Handle) | NoQueue

  function QueueAt(k: Point): Queue {
    match k
    case LockCheck(m) => OnMutex(m)
    case LockAgain(m) => OnMutex(m)
    case CondCheck(c, _) => OnCond(c)
    case CondAgain(c, _) => OnCond(c)
    case BarrierCheck(b, _) => OnBarrier(b)
    case BarrierAgain(b, _) => OnBarrier(b)
    case JoinCall(t) => OnJoin(t)
    case _ => NoQueue
  }

  function QueueOf(c: Control): Queue {
    var k := PointOf(c);
    if k.Some? then QueueAt(k.value) else NoQueue
  }

  ghost predicate InQueue(s: Machine, q: Queue, h: Handle) {
    match q
    case OnMutex(m) => MutexWaiter(s, m, h)
    case OnCond(c) => h in CondWaiters(s.st, c)
    case OnBarrier(b) => BarrierWaiter(s, b, h)
    case OnJoin(t) => JoinerOf(s, t, h)
    case NoQueue => false
  }

  function DrainChild(c: Control): Option<Handle> {
    match c
    case At(DrainLoop(c, _), _) => Some(c)
    case DrainWaiting(c, _, _) => Some(c)
    case _ => None
  }

  /** Only create and barrier_wait drain without switching. */
  ghost predicate Switches(k: Point) {
    !k.CreateBody? && !k.BarrierJoin?
  }

  /** Points reached only by waiting without a switch. */
  ghost predicate Again(k: Point) {
    k.LockAgain? || k.CondAgain? || k.BarrierAgain?
  }

  ghost predicate PhaseOk(c: Control) {
    match c
    case At(Drain(cs), k) => cs == Switches(k) && !Again(k)
    case At(DrainLoop(_, cs), k) => cs == Switches(k) && !Again(k)
    case At(Switch, k) => Switches(k) && !Again(k)
    case DrainWaiting(_, cs, k) => cs == Switches(k) && !Again(k)
    case Waiting(k, _) => Switches(k)
    case _ => true
  }

  /** What a thread knows at the point where it will continue. */
  ghost predicate PointOk(s: Machine, h: Handle, k: Point) {
    match k
    case LockLoop(m) => OwnerRelocks(s, m, h)
    case CondCheck(_, m) => OwnerRelocks(s, m, h)
    case CondAgain(_, m) => OwnerRelocks(s, m, h)
    case LockCheck(m) => HandedOver(s, m, h)
    case LockAgain(m) => HandedOver(s, m, h)
    case JoinCheck(t) => t in s.ctl && t != h && t in s.log.joins && s.log.joins[t] == h
    case JoinCall(t) => t in s.ctl && t != h && t in s.log.joins && s.log.joins[t] == h && (Live(s, t) ==> JoinerOf(s, t, h))
    case CreateBody(c) => c !in s.ctl && c != 0
    case _ => true
  }

  ghost predicate OwnerRelocks(s: Machine, m: Key, h: Handle) {
    m in s.st.mutexes && s.st.mutexes[m].ownerTid == h ==> m in s.st.recursiveMutexes
  }

  /** A thread past its enqueueing in mutex_lock either still queues or has been given the mutex. */
  ghost predicate HandedOver(s: Machine, m: Key, h: Handle) {
    && m in s.st.mutexes
    && (MutexWaiter(s, m, h) || (s.st.mutexes[m].ownerTid == h && s.st.mutexes[m].recursiveCount == 0))
  }

  ghost predicate ThreadOk(s: Machine, h: Handle)
    requires h in s.ctl
  {
    var t := T(s.st, h);
    var c := s.ctl[h];
    && h in s.st.info && h != 0
    && t.tid == (if c.Starting? then 0 else h)
    && t.startupDone == (h !in s.args)
    && c.Starting? == (h in s.args && !s.args[h])
    && (h in s.args && s.args[h] ==> c == Waiting(Ret(0), false))
    && t.isInRschedWait == c.Waiting?
    && PhaseOk(c)
    && (c.Waiting? && c.signalled ==> !t.isBlocking)
    && t.isBlocking == InQueue(s, QueueOf(c), h)
    && (PointOf(c).Some? ==> PointOk(s, h, PointOf(c).value))
    && (c.RealJoining? && Live(s, c.t) ==> s.turn == None)
    && (DrainChild(c).Some? ==> DrainChild(c).value in s.args && s.st.pendingChild == None)
    && (c.At? && (c.phase.Switch? || (c.phase.Go? && c.k.CreateBody?)) ==> s.st.pendingChild == None)
    && (c.At? && c.phase.Go? && t.isBlocking ==> !Again(c.k) && s.st.pendingChild == None && Deadlocked(s))
  }

  ghost predicate MutexOk(s: Machine, m: Key)
    requires m in s.st.mutexes
  {
    var x := s.st.mutexes[m];
    && Live(s, x.ownerTid) && !s.ctl[x.ownerTid].Starting?
    && x.recursiveCount >= 0
    && (x.recursiveCount > 1 ==> m in s.st.recursiveMutexes)
    && (x.recursiveCount == 0 ==> QueueOf(s.ctl[x.ownerTid]) == OnMutex(m))
    && x.ownerTid !in x.waiters
    && Distinct(x.waiters)
    && (forall w :: w in x.waiters ==> Live(s, w) && QueueOf(s.ctl[w]) == OnMutex(m))
    && (if x.recursiveCount == 0 then m !in s.held
        else m in s.held && s.held[m] == RealMutex(x.ownerTid, x.recursiveCount))
  }

  ghost predicate CondOk(s: Machine, c: Key) {
    var ws := CondWaiters(s.st, c);
    Distinct(ws) && forall w :: w in ws ==> Live(s, w) && QueueOf(s.ctl[w]) == OnCond(c)
  }

  ghost predicate BarrierOk(s: Machine, b: Key)
    requires b in s.st.barriers
  {
    var x := s.st.barriers[b];
    && |x.waiters| < x.count
    && Distinct(x.waiters)
    && forall w :: w in x.waiters ==> Live(s, w) && QueueOf(s.ctl[w]) == OnBarrier(b)
  }

  ghost predicate JoinOk(s: Machine, t: Handle) {
    Live(s, t) && T(s.st, t).joiner.Some? ==>
      var j := T(s.st, t).joiner.value;
      Live(s, j) && QueueOf(s.ctl[j]) == OnJoin(t)
  }

  /** A child whose start-up handshake is not finished. */
  ghost predicate Newborn(s: Machine, c: Handle) {
    || s.st.pendingChild == Some(c)
    || (s.turn.Some? && s.turn.value in s.ctl && DrainChild(s.ctl[s.turn.value]) == Some(c))
  }

  ghost predicate Roster(s: Machine) {
    && Distinct(s.st.threads)
    && (forall h {:trigger h in s.st.threads} :: h in s.st.threads ==> Live(s, h))
    && (forall h {:trigger Live(s, h)} :: Live(s, h) ==> h in s.st.threads)
  }

  ghost predicate Startups(s: Machine) {
    && (forall c {:trigger Newborn(s, c)} :: c in s.args ==> Live(s, c) && Newborn(s, c))
    && (s.st.pendingChild.Some? ==> s.st.pendingChild.value in s.args)
  }

  ghost predicate Stalled(s: Machine, h: Handle) {
    T(s.st, h).isBlocking || s.st.pendingChild == Some(h)
  }

  /** With no turn to take, every thread queues, except a child nobody has drained. */
  ghost predicate Deadlocked(s: Machine) {
    forall h {:trigger Stalled(s, h)} :: h in s.st.threads ==> Stalled(s, h)
  }

  ghost predicate Turns(s: Machine) {
    && (s.turn.Some? ==> s.turn.value in s.ctl)
    && (forall h {:trigger Active(s, h)} :: h in s.ctl ==> (Active(s, h) <==> s.turn == Some(h)))
    && (s.turn == None ==> Deadlocked(s) && (s.st.pendingChild.Some? ==> s.log.strayExit))
  }

  ghost predicate Threads(s: Machine) {
    forall h {:trigger ThreadOk(s, h)} :: h in s.ctl && !s.ctl[h].Exited? ==> ThreadOk(s, h)
  }

  ghost predicate Queues(s: Machine) {
    && (forall m {:trigger MutexOk(s, m)} :: m in s.st.mutexes ==> MutexOk(s, m))
    && (forall m :: m in s.held ==> m in s.st.mutexes)
    && (forall c {:trigger CondOk(s, c)} :: c in s.st.conds ==> CondOk(s, c))
    && (forall b {:trigger BarrierOk(s, b)} :: b in s.st.barriers ==> BarrierOk(s, b))
    && (forall t {:trigger JoinOk(s, t)} :: t in s.ctl ==> JoinOk(s, t))
  }

  ghost predicate Inv(s: Machine) {
    Roster(s) && Startups(s) && Turns(s) && Threads(s) && Queues(s) && s.faults == {}
  }

  lemma InitInv(main: Handle)
    requires main != 0
    ensures Inv(Init(main))
    ensures Init(main).st.threads == [main] && Init(main).st.draws == 0 && Init(main).held == map[]
  {
  }
}
