/** The scheduler's global record as a value, and what each of its operations does to it
    (`struct State` and its methods, rsched/src/lib.rs:39-351). Fields that only feed the
    event log are left out. */
module StateModel {
  import opened Prelude
  import opened Choice

  type Handle = int
  type Key = int

  /** The raw 64-bit words (as numbers) the random walk will draw, in order. */
  type Tape = nat -> nat

  const EPERM := 1
  const EBUSY := 16
  const EINVAL := 22
  const SERIAL := -1 // PTHREAD_BARRIER_SERIAL_THREAD

  datatype Thread = Thread(
    tid: Handle,
    isBlocking: bool,
    startupDone: bool,
    isInRschedWait: bool,
    joiner: Option<Handle>,
    isExited: bool)

  datatype SMutex = SMutex(ownerTid: Handle, recursiveCount: int, waiters: seq<Handle>)
  datatype SBarrier = SBarrier(count: nat, waiters: seq<Handle>)

  datatype State = State(
    threads: seq<Handle>,
    info: map<Handle, Thread>,
    mutexes: map<Key, SMutex>,
    recursiveMutexes: set<Key>,
    conds: map<Key, seq<Handle>>,
    barriers: map<Key, SBarrier>,
    pendingChild: Option<Handle>,
    draws: nat) // how many words the random walk has consumed

  function NewThread(tid: Handle): Thread {
    Thread(tid, false, false, false, None, false)
  }

  /** The record of a thread; the dummy answer stands for the "unknown thread" panic. */
  function T(st: State, h: Handle): Thread {
    if h in st.info then st.info[h] else NewThread(0)
  }

  function SetBlocking(st: State, h: Handle, b: bool): State {
    st.(info := st.info[h := T(st, h).(isBlocking := b)])
  }

  function SetInWait(st: State, h: Handle, b: bool): State {
    st.(info := st.info[h := T(st, h).(isInRschedWait := b)])
  }

  function SetStarted(st: State, h: Handle): State {
    st.(info := st.info[h := T(st, h).(startupDone := true)])
  }

  function Add(st: State, h: Handle, tid: Handle): State {
    st.(threads := st.threads + [h], info := st.info[h := NewThread(tid)])
  }

  function Remove(st: State, h: Handle): State {
    st.(threads := Without(st.threads, h),
        info := if h in st.info then st.info[h := st.info[h].(isBlocking := true, isExited := true)] else st.info)
  }

  /** The record after `h` has unblocked its joiner and left the registry. */
  function Departed(st: State, h: Handle): State {
    var joiner := T(st, h).joiner;
    Remove(if joiner.Some? then SetBlocking(st, joiner.value, false) else st, h)
  }

  // ---------------------------------------------------------------- choosing the next thread

  predicate Eligible(st: State, h: Handle) {
    var t := T(st, h);
    !t.isBlocking && t.startupDone && t.isInRschedWait
  }

  function BlockingFlags(st: State): (flags: seq<bool>)
    ensures |flags| == |st.threads|
    ensures forall i :: 0 <= i < |flags| ==> flags[i] == !Eligible(st, st.threads[i])
  {
    seq(|st.threads|, i requires 0 <= i < |st.threads| => !Eligible(st, st.threads[i]))
  }

  /** The thread a scheduling decision selects, and the generator's progress. */
  function Choose(st: State, tape: Tape): (r: (State, Option<Handle>))
    ensures r.0 == st.(draws := r.0.draws)
    ensures r.1.Some? ==> r.1.value in st.threads && Eligible(st, r.1.value)
    ensures r.1.None? ==> forall h :: h in st.threads ==> !Eligible(st, h)
  {
    if |st.threads| == 0 then (st, None)
    else
      var pick := Pick(BlockingFlags(st), tape(st.draws) % |st.threads|);
      (st.(draws := st.draws + 1),
       if pick.Some? then Some(st.threads[pick.value]) else None)
  }

  /** Which of `n` equal candidates is taken: every flag is clear, so the start index itself. */
  function ChooseIndex(st: State, n: nat, tape: Tape): (r: (State, nat))
    requires n > 0
    ensures r.1 < n && r.0 == st.(draws := st.draws + 1)
  {
    (st.(draws := st.draws + 1), tape(st.draws) % n)
  }

  // ---------------------------------------------------------------- mutexes

  predicate WillBlock(st: State, key: Key, tid: Handle) {
    key in st.mutexes && st.mutexes[key].ownerTid != 0 && st.mutexes[key].ownerTid != tid
  }

  /** One pass through the loop of `mutex_lock`: true when the caller now owns the mutex. */
  function TryAcquire(st: State, key: Key, caller: Handle): (State, bool) {
    var tid := T(st, caller).tid;
    var m := if key in st.mutexes then st.mutexes[key] else SMutex(tid, 0, []);
    if m.ownerTid == tid then
      (st.(mutexes := st.mutexes[key := m.(recursiveCount := m.recursiveCount + 1)]), true)
    else
      var m' := if caller in m.waiters then m else m.(waiters := m.waiters + [caller]);
      (SetBlocking(st.(mutexes := st.mutexes[key := m']), caller, true), false)
  }

  /** A mutex is initialised, recursive or not, or destroyed. */
  function NoteMutex(st: State, key: Key, recursive: bool): State {
    st.(recursiveMutexes := if recursive then st.recursiveMutexes + {key} else st.recursiveMutexes - {key})
  }

  function MutexUnlock(st: State, key: Key, caller: Handle, tape: Tape): (State, int) {
    if key !in st.mutexes then (st, EINVAL)
    else if st.mutexes[key].ownerTid != T(st, caller).tid then (st, EPERM)
    else
      var m := st.mutexes[key];
      var m1 := m.(recursiveCount := m.recursiveCount - 1);
      if m1.recursiveCount > 0 then (st.(mutexes := st.mutexes[key := m1]), 0)
      else if m.waiters == [] then (st.(mutexes := st.mutexes - {key}), 0)
      else
        var (st1, i) := ChooseIndex(st, |m.waiters|, tape);
        var w := m.waiters[i];
        var m2 := SMutex(T(st, w).tid, m1.recursiveCount, RemoveAt(m.waiters, i));
        (SetBlocking(st1.(mutexes := st.mutexes[key := m2]), w, false), 0)
  }

  // ---------------------------------------------------------------- condition variables

  function CondWaiters(st: State, key: Key): seq<Handle> {
    if key in st.conds then st.conds[key] else []
  }

  function CondEnqueue(st: State, key: Key, caller: Handle): State {
    SetBlocking(st.(conds := st.conds[key := CondWaiters(st, key) + [caller]]), caller, true)
  }

  function CondSignal(st: State, key: Key, tape: Tape): State {
    var ws := CondWaiters(st, key);
    if ws == [] then st
    else
      var (st1, i) := ChooseIndex(st, |ws|, tape);
      SetBlocking(st1.(conds := st.conds[key := RemoveAt(ws, i)]), ws[i], false)
  }

  /** Clears the blocking flag of every thread in a list. */
  function UnblockAll(st: State, ws: seq<Handle>): (r: State)
    ensures r == st.(info := r.info)
    ensures forall h :: h !in ws ==> T(r, h) == T(st, h) && (h in r.info <==> h in st.info)
    ensures forall h :: h in ws ==> h in r.info && T(r, h) == T(st, h).(isBlocking := false)
  {
    if ws == [] then st
    else
      var r := SetBlocking(UnblockAll(st, ws[..|ws| - 1]), ws[|ws| - 1], false);
      assert ws == ws[..|ws| - 1] + [ws[|ws| - 1]];
      r
  }

  function CondBroadcast(st: State, key: Key): State {
    UnblockAll(st.(conds := st.conds - {key}), CondWaiters(st, key))
  }

  // ---------------------------------------------------------------- barriers

  /** Arrival at an initialised barrier: true when the caller completes the round. */
  function BarrierArrive(st: State, key: Key, caller: Handle): (State, bool)
    requires key in st.barriers
  {
    var b := st.barriers[key];
    var ws := if caller in b.waiters then b.waiters else b.waiters + [caller];
    if |ws| < b.count then
      (SetBlocking(st.(barriers := st.barriers[key := SBarrier(b.count, ws)]), caller, true), false)
    else
      (UnblockAll(st.(barriers := st.barriers[key := SBarrier(b.count, [])]), ws), true)
  }
}
