# rsched, modelled

`rsched` runs a pthread program one thread at a time: it takes over create, join, mutex,
condition, barrier and yield calls, and at each of them hands the turn to a thread chosen by a
seeded random walk. This project models that scheduler, its chooser and two client programs, and
proves what they promise over all runs.

## How it is modelled

- `StateModel` is `struct State` as a value with what each operation does to it; `Registry` is the
  same record as an object updated in place, each method proved to do what its function says.
  `Scheduler` holds the generator, the random walk and the logging wrapper as objects, proved
  against the specifications in `Xorshift` and `Choice`.
- `Machine` is the scheduler as a step machine. Every OS thread is at a program point. What a thread
  does while it holds the global lock GMTX is cut into small steps, and other threads step only
  while nobody holds GMTX; GMTX is released at the waits (lines 196, 216, 311, 1210, 1510 and 1640 of
  `rsched/src/lib.rs`) and at every return. Real mutexes and condition variables are part of the
  state, so that a lost signal, a blocking real lock, a failing real unlock or a use of a freed
  StartArg would show up as a fault. History fields (`turn`, `faults`, `log`) are read by no step.
- `Effects` says field by field what each stretch of an operation does (who gets a mutex, who is woken,
  who runs next, what is returned), `Returns` what calls do over whole runs: which take a scheduling point,
  and what they return.
- `Invariant` and `Preservation` hold one inductive invariant and its proof; `Safety`, `CondWait`,
  `Barriers` and `Progress` draw the whole-run consequences; `Frames`, `Ledger` and `Critical` say
  what a step leaves alone.
- The words the random walk draws are a parameter (`Tape`), so whatever is stated of a tape holds for
  every sequence of choices; `Xorshift.SeedTape` is the tape of a seed.
- `Program` runs client code on the machine: user code between two calls is a function from memory
  and the last result to the next call. `BoundedBuffer`, `BufferAccounts` and `BufferRuns` are the
  bounded-buffer kernel, `LockKernel` and `LockRuns` the lock kernel.
- `Enlisting` and `Determinism` compare any two runs of one program on one tape. `Renaming`,
  `RenamedRuns`, `Departures`, `Likeness` and `FreshHandles` extend that to runs in which the operating
  system picks other handles for new threads: the two programs correspond under a renaming that grows
  with every create and may give a name freed by a join to another thread.
- `TurnTaking` says over whole runs which threads are stranded and when two threads alternate.
- `Bias` counts starts and words; `Fuzzer` is the derivation of seeds from fuzz inputs; `Prelude` and
  `Sums` are vocabulary.

Assumed: GMTX is a correct mutex; real condition variables have no spurious wake-ups; real calls
succeed; a new thread's handle is not zero and not that of a thread not yet joined, and a thread's id is identified with its handle once it
has registered. Programs do not relock a non-recursive mutex, initialise or destroy a mutex in use,
initialise a barrier in use again, join a thread twice or themselves, or exit holding a mutex.

Where comments and code disagree the model follows the code: `mutex_unlock` does not signal the new
owner (lib.rs:307-308), it only clears its blocking flag; the walk is not "uniformly random"
(scheduler.rs:39): it weights threads by the blocking entries before them, and the start itself is uniform
only when the number of entries divides 2^64 (`Bias`); an exit does not wait for
a pending child, which can strand it (`Safety.ExitStrands`); a join that finds nobody eligible goes
straight to the real join.

## Model

| member | source | states |
|---|---|---|
| `Preservation.KeepNext` | rsched/src/lib.rs:193-350 | Every step of every thread, from any state satisfying the invariant, leads to one satisfying it: the live thread list is duplicate-free, one turn, every queue holds exactly the blocking threads at that queue's point, real and virtual mutexes agree, no fault has occurred |
| `Invariant.InitInv` | rsched/src/lib.rs:991-1005 | The state after initialisation, with the main thread registered and started, satisfies the invariant |
| `Safety.SingleTurn` | rsched/src/lib.rs:208-220 | In every reachable state at most one live thread holds the turn or has a wake-up under way; no signal is lost or sent twice; no real lock taken under the global lock blocks, no real unlock fails, no freed StartArg is touched |
| `Safety.QueueExclusive` | rsched/src/lib.rs:285-350 | A live thread is flagged as blocking exactly when it stands in a mutex, condition, barrier or join queue, and never in two |
| `Safety.QueuesDistinct` | rsched/src/lib.rs:297-299 | No queue and no thread list names a thread twice |
| `Safety.LookupsSucceed` | rsched/src/lib.rs:161-166 | Every handle on the thread list, on a waiter list or in a joiner slot of a live thread has a record, so looking it up never panics |
| `Safety.NoFalseDeadlock` | rsched/src/lib.rs:223-260 | When nobody holds the turn, every live thread stands in a queue, except at most the pending child if some thread exited while a child was pending |
| `Safety.TurnCanStep` | rsched/src/lib.rs:193-260 | Whoever holds the turn inside rsched can go on, or the child it waits for can: the scheduler itself never refuses a step |
| `Safety.ExitStrands` | rsched/src/lib.rs:1149-1168 | One exit call leaves a thread that is not blocking with nobody to wake it exactly when a child is pending, the exiting thread has no joiner, and every other thread is blocking |
| `TurnTaking.StrandedStays` | rsched/src/lib.rs:193-260 | A thread that is not blocking while nobody holds the turn stays so: no step is possible but a child registering |
| `TurnTaking.OnlyExitStrands` | rsched/src/lib.rs:1149-1168 | No step but an exit brings a thread into that state |
| `TurnTaking.RunStrands` | rsched/src/lib.rs:223-260 | A run ends with a thread that is not blocking and that nothing will ever wake exactly when somewhere in it a thread left while a child was pending, without a joiner and with everybody else blocking |
| `Safety.ChildStranded` | rsched/src/lib.rs:1149-1168 | Such a run exists: main creates a thread and exits at once |
| `Safety.RealAgrees` | rsched/src/lib.rs:1344-1376 | A real mutex is held exactly when the recorded recursion count is positive, by the recorded owner and at the recorded depth; a mutex handed to a waiter that has not resumed has count 0 and is free in reality |
| `Safety.UnlockHasDepth` | rsched/src/lib.rs:317-333 | Whoever unlocks a mutex it owns holds it at depth 1 or more, so the count never underflows |
| `Safety.SecondPassTakes` | rsched/src/lib.rs:287-314 | A thread that comes back round the loop of mutex_lock has been given the mutex and takes it at depth 1: the loop body runs at most twice |
| `Safety.StartUp` | rsched/src/lib.rs:1171-1215 | Only registered, started threads run user code; nobody with thread id 0 owns a mutex; at most one live thread has not finished its start-up and the only StartArg is its own; everybody else but the turn holder is suspended in rsched |
| `Safety.SwitchKeepsTurn` | rsched/src/lib.rs:223-256 | A scheduling point leaves the turn with the caller exactly when no other thread is eligible, and never loses it |
| `Safety.TwoAlternate` | rsched/src/lib.rs:223-256 | One scheduling point: when only two started threads are not blocking, that of one hands the turn to the other whatever word is drawn |
| `TurnTaking.DuoAlternates` | rsched/src/lib.rs:223-256 | Over runs: while exactly two threads are started and not blocking, the hand-overs of the turn strictly alternate between them whatever is drawn, beginning with the one that does not hold it |
| `Frames.AsideNext` | rsched/src/lib.rs:285-350 | Another thread's step leaves a live thread at its point, with the mutexes and depths it had, unless it queues for the mutex; it leaves its condition queue only with a wake-up on record |
| `Frames.OnlySignalsWake` | rsched/src/lib.rs:1499-1512 | A sleeper is taken off a condition queue by a signal or broadcast on that condition and by nothing else |
| `Ledger.SettledNext` | rsched/src/lib.rs:193-203 | Only create, exit, join and a join's return change the set of OS threads, the joins under way and the stray-exit history, and while a child stays pending the turn does not move |
| `Prelude.RemoveAtDrops` | rsched/src/lib.rs:347 | Removing an index keeps everything else in the order it had |
| `Prelude.WithoutDrops` | rsched/src/lib.rs:153-159 | Retaining all but one thread of a duplicate-free list keeps the others in the order they had |
| `Effects.ChooseTakes` | rsched/src/lib.rs:168-185 | One word is consumed, and the thread taken is the first listed one that is not blocking, started and waiting inside rsched, going round from the word modulo the number of threads |
| `Effects.SwitchMeans` | rsched/src/lib.rs:223-256 | A scheduling point with other threads about consumes one word; the thread it takes, if any, gets the turn and its wake-up and the caller waits; otherwise the caller goes on |
| `Effects.LockMeans` | rsched/src/lib.rs:285-315 | The loop of mutex_lock, entered: a mutex that is free or the caller's own is taken one level deeper, virtually and in reality; else the caller goes to the end of the queue, is blocking, and has a scheduling point next |
| `Effects.BlockedLock` | rsched/src/lib.rs:1358-1362 | A lock of a mutex somebody else holds queues at once, before any scheduling point |
| `Effects.BlockedWait` | rsched/src/lib.rs:1484-1492 | A cond_wait with a mutex somebody else holds returns EPERM at once and changes nothing |
| `Effects.TryLockMeans` | rsched/src/lib.rs:1396-1433 | trylock takes a mutex exactly when it is free, or its own and recursive, one level deeper virtually and in reality; otherwise it returns EBUSY (16) and changes nothing |
| `Effects.UnlockMeans` | rsched/src/lib.rs:1457-1469 | unlock gives up one level; at the last one the owner becomes the waiter at the next word modulo the number of waiters, no longer blocking, the others keep their order, and the real mutex is free. Without a record it will return EINVAL (22), by another thread EPERM (1), and changes nothing |
| `Effects.UnlockPassMeans` | rsched/src/lib.rs:317-350 | The same for the unlocking inside cond_wait |
| `Effects.ReleaseMeans` | rsched/src/lib.rs:1488-1507 | cond_wait by another than the owner returns unlock's error; the owner gives up one level and goes to the end of the condition's queue in the same step |
| `Effects.SignalTakes` | rsched/src/lib.rs:1534-1546 | A signal takes off the waiter at the next word modulo the number of waiters and unblocks it, keeps the others in order, and changes nothing else; on an empty queue it changes nothing and draws nothing |
| `Effects.BarrierInitMeans` | rsched/src/lib.rs:1579-1591 | barrier_init refuses the count 0 with EINVAL; else the barrier is empty with that count |
| `Effects.ArriveMeans` | rsched/src/lib.rs:1604-1637 | An arrival that leaves the barrier short of its count goes to the end of the queue and is blocking; the one that fills it empties it and unblocks exactly those who waited; at a barrier never initialised it returns EINVAL |
| `Effects.CreateMeans` | rsched/src/lib.rs:1262-1302 | create lists the child last, not started, with no id yet, as the pending child, and returns 0 with the turn |
| `Effects.RegisterMeans` | rsched/src/lib.rs:1184-1209 | A child's first stretch notes its id, sets ready and waits to be chosen |
| `Effects.ExitMeans` | rsched/src/lib.rs:1149-1168 | An exit unblocks its joiner and nobody else, drops the caller from the list, order kept, and gives the turn to the thread the next word takes among those left |
| `Effects.MutexInitMeans` | rsched/src/lib.rs:388-401 | Initialising a mutex notes whether it is recursive, changes nothing else and is no scheduling point |
| `Effects.JoinMeans` | rsched/src/lib.rs:1317-1323 | join of a listed thread records the caller as its joiner, blocks it and switches; otherwise it goes straight to the real join |
| `Returns.CallsSwitch` | rsched/src/lib.rs:1308-1718 | In every run, a call of yield, unlock, lock or cond_wait unless somebody else holds the mutex, trylock, signal, broadcast, join or barrier_init takes a scheduling point before it returns and before anything else it has to do; no child is pending there and every live thread is started |
| `Returns.OneSwitch` | rsched/src/lib.rs:1457-1718 | Yield (every atomic access), unlock, signal, broadcast, trylock and barrier_init take exactly one scheduling point and finish in their last step; yield, signal and broadcast return 0 and unlock 0, EPERM or EINVAL by who owned the mutex at the call |
| `Returns.QueuesThenSwitches` | rsched/src/lib.rs:301-307 | Whoever has queued inside a call and has its context switch due takes that scheduling point before the call returns |
| `Returns.TryLockReturns` | rsched/src/lib.rs:1381-1433 | In every run trylock returns 0 one level deeper exactly when the mutex is free, or its own and recursive, in its last step, else EBUSY with nothing changed |
| `Returns.LockReturns` | rsched/src/lib.rs:1358-1375 | In every run lock returns 0 with the mutex held one level deeper than at the call, virtually and in reality |
| `Returns.CreateReturns` | rsched/src/lib.rs:1257-1302 | In every run create takes no scheduling point, waits for the child before it, and returns 0 with the turn and its child pending and listed last |
| `Returns.ArrivesThenSwitches` | rsched/src/lib.rs:1597-1637 | In every run barrier_wait arrives before any scheduling point and takes one after it; without a barrier it returns EINVAL with none |
| `Returns.JoinReturns` | rsched/src/lib.rs:1308-1325 | In every run join returns 0 only after its target has exited |
| `Returns.KindLasts` | rsched/src/lib.rs:388-412 | The kind a mutex was initialised with lasts until it is initialised again or destroyed |
| `Returns.TakenAgain` | rsched/src/lib.rs:1397-1416 | In every run the owner's trylock goes one level deeper exactly when the mutex was last initialised as recursive, and returns EBUSY otherwise |
| `CondWait.ReleaseQueuesAtOnce` | rsched/src/lib.rs:1488-1506 | Giving up the mutex and queueing on the condition are one step under the global lock |
| `CondWait.ReturnsAtEntryDepth` | rsched/src/lib.rs:1475-1521 | In every run, a thread back from a cond_wait that returned 0 owns the mutex, virtually and in reality, at the recursion depth it had on entry |
| `CondWait.WakeUpsMatch` | rsched/src/lib.rs:1499-1565 | Lifetime tallies: in every run, a thread has been taken off condition queues exactly as often as it was put on, but for the queue it still stands in; in user code the two tallies are equal |
| `CondWait.OneWakeUp` | rsched/src/lib.rs:1499-1565 | In every run, a thread that stands on a condition queue at one point and is off it, or back in user code, at a later one was first taken off by another thread's broadcast on that condition or its signal that drew this thread; it is taken off a second time only after it has itself gone to sleep there again |
| `CondWait.PutsOn` | rsched/src/lib.rs:1488-1506 | The step that puts a thread on a condition queue is its own release in cond_wait and nothing else |
| `CondWait.BroadcastMeans` | rsched/src/lib.rs:1552-1565 | A broadcast empties its queue, unblocks exactly the threads on it, and touches nothing else of the record |
| `CondWait.SignalMeans` | rsched/src/lib.rs:1527-1547 | A signal takes exactly one thread off a queue that is not empty, and touches no other queue |
| `Barriers.LeavesFullRound` | rsched/src/lib.rs:1597-1649 | In every run, a thread returning from barrier_wait leaves a complete round of exactly n distinct arrivals including itself, and gets the serial value exactly when it arrived last |
| `Barriers.RoundsOnlyGrow` | rsched/src/lib.rs:1604-1632 | In every run, the completed rounds of a barrier stay as they are while that barrier is not initialised anew: reuse only adds rounds after them |
| `Barriers.SeatedNext` | rsched/src/lib.rs:1604-1642 | Every step keeps the seating: whoever is inside barrier_wait is listed in the round filling up, or is a member of a completed round |
| `Progress.CostNext` | rsched/src/lib.rs:193-350 | Every step but a call lowers a natural-number cost, and a call raises it by at most 25 |
| `Progress.StepsPerCall` | rsched/src/lib.rs:193-350 | In every run, with every sequence of choices, the steps are at most 26 for each call the program has made |
| `Determinism.StutterKeeps` | rsched/src/lib.rs:1182-1215 | A child's registration, and waiting for it, change nothing but when the child is listed as registered |
| `Determinism.WorkCommutes` | rsched/src/lib.rs:193-203 | Every other step has the same label and the same effect as if children registered the moment they were created |
| `Determinism.ScheduleDecides` | rsched/src/lib.rs:193-203 | Two runs of one program on one sequence of words that did equally much work did the same steps, and are in the same state and memory, up to a child still to register, wherever the operating system placed the registrations |
| `Determinism.PicksAgree` | rsched/src/lib.rs:223-260 | Two such runs never disagree: the steps of the one with less work (every call, every decision, every waiter drawn) are a prefix of the other's, and so are its hand-overs |
| `Determinism.SameResult` | rsched/src/lib.rs:193-203 | The same seed gives the same result: two runs of one program with the same handles that cannot go on did the same steps and end with equal memory, equal hand-overs and equal states up to a child still to register, whenever the operating system let children run |
| `RenamedRuns.SameNext` | rsched/src/lib.rs:126-350 | Handles are opaque: a step is enabled under a one-to-one renaming of handles when it is enabled, and leads to the renamed state |
| `Departures.KinNext` | rsched/src/lib.rs:161-166 | No step reads the record of a thread that has exited: machines that differ in such records only take the same steps |
| `Likeness.AlikeNext` | rsched/src/lib.rs:126-350 | Machines alike up to handles, whatever they keep of threads that are gone, take the same steps, renamed, and stay alike |
| `Likeness.Retarget` | rsched/src/lib.rs:126-165 | Only the names of threads not yet reaped matter: a renaming may give the handle of a thread that is gone to a new one |
| `FreshHandles.HandlesDecide` | rsched/src/lib.rs:1244-1290 | At any two points of equally much work in two runs on one seed, whatever unused handle each new thread was given in each run, fresh or that of a joined thread: the same threads, by creation order, did the same steps in the same order, and states and memories correspond |
| `FreshHandles.SameResultRenamed` | rsched/src/lib.rs:1244-1290 | The same seed gives the same schedule and result whatever unused handles the operating system picks, reused or fresh, and whenever it lets children run: two ended runs have one schedule by thread number and end in states and memories that differ in handles only |
| `FreshHandles.ReuseMatches` | rsched/src/lib.rs:1313-1325 | This covers a program that creates and joins twice, with the first handle reused in one run and a fresh one in the other |
| `RenamedRuns.SameEnabled` | rsched/src/lib.rs:193-260 | A step is possible exactly when the renamed step is possible in the renamed state |
| `Enlisting.EnlistChoose` | rsched/src/lib.rs:168-185 | A child that has not started is passed over by the choice whether it is registered or not |
| `Enlisting.EnlistCall` | rsched/src/lib.rs:1381-1565 | Every call of another thread commutes with a child's registration |
| `Enlisting.EnlistGo` | rsched/src/lib.rs:285-350 | Every stretch of code another thread runs under the global lock commutes with a child's registration |
| `Xorshift.NextPrev` | rsched/src/scheduler.rs:25-30 | One draw is a bijection on 64-bit words, with an explicit inverse |
| `Xorshift.FirstWords` | rsched/src/scheduler.rs:20-30 | The first three words of seed 1, as numbers, and those of seed 0 are the same |
| `Xorshift.TapeFollows` | rsched/src/scheduler.rs:20-34 | The words decisions are made from: the first is one draw from the seed, or from 1 for seed 0, and each further one is one draw from the word before, all 64 bits of it |
| `Xorshift.NeverZero` | rsched/src/scheduler.rs:20-30 | No seed ever reaches the all-zero state |
| `Xorshift.SeedsStayApart` | rsched/src/scheduler.rs:20-30 | After any number of draws two seeds share the generator state exactly when they are equal or are 0 and 1 |
| `Choice.AheadReaches` | rsched/src/scheduler.rs:67-71 | The distance the other lemmas speak of is the number of steps forward, round at the end |
| `Choice.ScanStops` | rsched/src/scheduler.rs:62-73 | The scan returns the nearest eligible entry going forward from the start |
| `Choice.PickNearest` | rsched/src/scheduler.rs:57-73 | A decision is an entry exactly when that entry is not blocking and no other such entry comes before it, going forward from the start and round |
| `Choice.Pick` | rsched/src/scheduler.rs:57-73 | A choice is an entry that is not blocking, and there is none exactly when all are blocking |
| `Bias.PickedWhen` | rsched/src/scheduler.rs:57-73 | A start selects an eligible entry exactly when it is that entry or lies in the run of blocking entries just before it, going round |
| `Bias.StartsCount` | rsched/src/scheduler.rs:57-73 | An eligible entry is selected by exactly one start more than the length of the blocking run before it |
| `Bias.WeightsShareStarts` | rsched/src/scheduler.rs:57-73 | These numbers add up to the number of entries, unless all are blocking |
| `Bias.StartShare` | rsched/src/scheduler.rs:32-34 | Each start index is the residue of floor or ceiling of total/n of the words below a total, and of which of the two |
| `Bias.BiasBound` | rsched/src/scheduler.rs:32-34 | Over all 2^64 words, an eligible entry of weight d is taken between d floor(2^64/n) and d ceil(2^64/n) times |
| `Bias.WordsCount` | rsched/src/scheduler.rs:32-34 | Exactly how many of the 2^64 words take an eligible entry: floor(2^64/n) for each start selecting it, and one more for each such start below 2^64 mod n |
| `Bias.SameStartsWhen` | rsched/src/scheduler.rs:39-43 | Two eligible entries are selected by equally many starts exactly when equally long blocking runs precede them; this counts starts, which are not equally likely |
| `Bias.UniformWhen` | rsched/src/scheduler.rs:39-43 | For fewer than 2^32 entries (thread ids are 32-bit), the eligible entries are taken by equally many words, as the comment says, exactly when equally long blocking runs precede all of them and equally many of the starts selecting each lie below 2^64 mod n |
| `Bias.UniformPowers` | rsched/src/scheduler.rs:39-43 | When n divides 2^64, exactly when equally long blocking runs precede all of them |
| `Bias.NotUniform` | rsched/src/scheduler.rs:39-43 | It is not uniform in general: two eligible entries of three with one and two starts |
| `Bias.NotUniformUnblocked` | rsched/src/scheduler.rs:39-43 | Nor with nobody blocking: of three entries the first is taken by one word more than the others |
| `Scheduler.Rng.constructor` | rsched/src/scheduler.rs:21-23 | A new generator's state is the seed, or 1 for seed 0: the beginning of its sequence |
| `Scheduler.Rng.Next` | rsched/src/scheduler.rs:25-30 | Updating the state in place yields the next word of the seed's sequence |
| `Scheduler.Rng.UsizeLessThan` | rsched/src/scheduler.rs:32-34 | The generator moves on by one draw and the index is its whole 64-bit state modulo n, which is the next word of the seed modulo n |
| `Scheduler.RandomWalk.Choose` | rsched/src/scheduler.rs:57-73 | The in-place draw and the scanning loop make the decision of Choice.Pick, that is the entry nearest to the new state modulo the number of entries; no word is drawn for no entries |
| `Scheduler.LoggingScheduler.Choose` | rsched/src/scheduler.rs:91-93 | Logging makes the same decision and uses the generator equally |
| `Scheduler.LoggingScheduler.OnEvent` | rsched/src/scheduler.rs:95-126 | An event is printed and no decision is touched |
| `Scheduler.ChooseBy` | rsched/src/lib.rs:127-133 | Whichever scheduler the environment selects, the decision and the words drawn are the same |
| `Fuzzer.FuzzerInputHash` | rsched/src/lib.rs:1016-1028 | The hashing loop computes the hash and folds in the size; a null pointer hashes no bytes. What that hash is, AbsorbOrder, KnownHashes and KnownSeeds say |
| `Fuzzer.AbsorbOrder` | rsched/src/lib.rs:1022-1025 | Undoing the multiplication leaves the hash with the byte xored in: xor first, multiply afterwards, as FNV-1a does |
| `Fuzzer.KnownHashes` | rsched/src/lib.rs:1016-1025 | The published FNV-1a values of the empty input, "a" and "ab" |
| `Fuzzer.KnownSeeds` | rsched/src/lib.rs:1016-1028 | The base seeds of no data, of a null pointer with size 3, and of the byte 0x61 |
| `Fuzzer.PrimeInvertible` | rsched/src/lib.rs:1018 | Multiplication by the FNV prime can be undone modulo 2^64 |
| `Fuzzer.CommonTail` | rsched/src/lib.rs:1022-1025 | Appending the same bytes keeps two hashes as equal or as different as they were |
| `Fuzzer.OneByteChangesSeed` | rsched/src/lib.rs:1016-1028 | Inputs of one length that agree but for one byte have different base seeds |
| `Fuzzer.NextSchedule` | rsched/src/lib.rs:1036-1041 | The first schedule's seed is the base seed, and each next one is greater by one, wrapping around |
| `Fuzzer.SchedulesDiffer` | rsched/src/lib.rs:1031-1045 | The schedules of one input have distinct generator states after any number of draws, except the two consecutive ones with seeds 0 and 1 |
| `Registry.Registry.constructor` | rsched/src/lib.rs:127-145 | A new record is empty and its scheduler stands at the beginning of the seed's words, logged or not |
| `Registry.Registry.Remove` | rsched/src/lib.rs:153-159 | The retaining loop drops the thread and marks its record blocking and exited |
| `Registry.Registry.Flags` | rsched/src/lib.rs:168-184 | The loop over the records flags exactly the threads that may not run: blocking, not started, or not waiting inside rsched |
| `Registry.Registry.Choose` | rsched/src/lib.rs:168-185 | These flags and the scheduler's decision pick the thread specified: the first eligible one from the start drawn |
| `Registry.Registry.SwitchTarget` | rsched/src/lib.rs:228-242 | Which thread a context switch selects: none for an unlisted caller or a single thread, else the choice after marking the caller started |
| `Registry.Registry.LockPass` | rsched/src/lib.rs:288-300 | One pass of the mutex_lock loop: enters, re-enters or queues |
| `Registry.Registry.MutexUnlock` | rsched/src/lib.rs:317-350 | The error codes, the decrement, the removal of a free mutex and the hand-over to a drawn waiter |
| `Registry.Registry.PickOne` | rsched/src/lib.rs:335-342 | One draw, and the candidate taken is the generator's new state modulo the number of candidates |
| `Registry.Registry.HandOver` | rsched/src/lib.rs:338-349 | The waiter at the next draw modulo the number of waiters becomes the owner with the recorded count and is no longer blocking |
| `Registry.Registry.CondEnqueue` | rsched/src/lib.rs:1499-1506 | Appends the caller to the condition's queue and marks it blocking |
| `Registry.Registry.CondSignal` | rsched/src/lib.rs:1534-1543 | Takes the waiter at the next draw modulo the number of waiters off the queue and unblocks it; nothing happens on an empty queue |
| `Registry.Registry.CondBroadcast` | rsched/src/lib.rs:1557-1561 | Empties the queue and unblocks everybody on it |
| `Registry.Registry.BarrierArrive` | rsched/src/lib.rs:1604-1632 | EINVAL without a barrier; otherwise queues and blocks the caller, or empties the barrier and unblocks the whole round |
| `Registry.Registry.Depart` | rsched/src/lib.rs:1154-1162 | Unblocks the joiner, removes the thread and chooses whom to signal |
| `BufferRuns.InBounds` | rsched/c-examples/benchmarks.c:116-142 | In every run, for all producer and consumer counts dividing the total, all queue sizes and all sequences of choices, 0 <= buffer_count <= max_queue_size |
| `BufferRuns.NeverStuck` | rsched/c-examples/benchmarks.c:144-180 | With a queue size of at least 1, or nothing to produce, in every reachable state some step is possible unless main has finished |
| `BufferRuns.Terminates` | rsched/c-examples/benchmarks.c:144-180 | No run is longer than 26 (3 threads + 10 total) steps, with no fairness assumption |
| `BufferRuns.EndsWithZero` | rsched/c-examples/benchmarks.c:170-180 | With such arguments a run that cannot go on has joined every worker and returns 0 |
| `BufferRuns.FinishesWhen` | rsched/c-examples/benchmarks.c:116-180 | A run that cannot go on has finished exactly when the queue size is at least 1 or there is nothing to produce |
| `BufferRuns.EmptyQueueNeverFinishes` | rsched/c-examples/benchmarks.c:116-142 | With queue size 0 and something to produce, no run finishes or moves an item |
| `BufferRuns.EmptyQueueWaits` | rsched/c-examples/benchmarks.c:116-142 | And each such run that cannot go on ends with nobody holding the turn, every worker on its condition's queue and main blocking: they wait for ever |
| `BufferRuns.OneInCritical` | rsched/c-examples/benchmarks.c:116-142 | Mutual exclusion: in every reachable state a worker holds the buffer mutex, virtually and in reality, at depth 1 exactly between its lock and its unlock or wait, and at most one worker does |
| `BufferRuns.CountsInside` | rsched/c-examples/benchmarks.c:119-139 | In every run, only a worker that holds the mutex in reality changes the count: a producer by one up, a consumer by one down |
| `BufferRuns.WaitsWhen` | rsched/c-examples/benchmarks.c:119-135 | In every run, only a worker that holds the mutex in reality waits on a condition: a producer with the buffer full, a consumer with it empty |
| `BufferRuns.MovesTotal` | rsched/c-examples/benchmarks.c:144-180 | A finished run has put exactly total items into the buffer and taken total items out |
| `BufferAccounts.GoodNext` | rsched/c-examples/benchmarks.c:116-142 | Every step keeps the accounts (items moved equal the count; while one side has sleepers it has no more to do than threads awake), and every call lowers the potential |
| `BufferAccounts.SignalOtherSide` | rsched/c-examples/benchmarks.c:122-123 | A signal keeps the other side's quota: one more item, one more thread awake |
| `BufferAccounts.SignalPotential` | rsched/c-examples/benchmarks.c:116-142 | Waking somebody costs less than the signaller's own progress saves |
| `LockRuns.NeverStuck` | rsched/c-examples/benchmarks.c:54-70 | In every reachable state of the lock kernel some step is possible, unless main has finished |
| `LockRuns.Terminates` | rsched/c-examples/benchmarks.c:54-70 | No run is longer than 26 (2 tasks + 2 + tasks (2 events + 2)) steps |
| `LockRuns.EndsWithCount` | rsched/c-examples/benchmarks.c:94-106 | A run that cannot go on has joined every task and returns tasks times events modulo 2^32, which is the product exactly when it fits 32 bits |
| `LockRuns.CountsInside` | rsched/c-examples/benchmarks.c:43-65 | In every run, only a task that holds the mutex in reality changes the counter, by one, and not before tasks + 1 distinct threads have arrived at the start barrier |
| `LockKernel.Arrives` | rsched/c-examples/benchmarks.c:58-65 | The last to arrive at the start barrier finds main and all other tasks waiting there |
| `Critical.FirstPass` | rsched/src/lib.rs:285-315 | A thread outside any mutex that locks one gets it at depth 1 if it is free, or queues |
| `Critical.LaterPass` | rsched/src/lib.rs:285-315 | A thread that was handed the mutex ends up inside it at depth 1 |
| `Critical.Release` | rsched/src/lib.rs:317-350 | Unlocking from inside succeeds and leaves the thread outside, whoever gets the mutex next |

## Left out

- ThreadSanitizer and AddressSanitizer builds: start gates, background threads and annotations depend on foreign runtimes and let threads run outside the turn.
- The seccomp filter, the SIGSYS handler, symbol binding, the re-entrancy depth and thread-local plumbing: operating-system glue.
- Error returns of real primitives, spurious wake-ups, error-checking mutexes: excluded by the assumptions above.
- Scheduler.LoggingScheduler.OnEvent: an event is an optional line of text; the kinds of events, their formatting and `next_event` are left out, because no decision reads them.
- Mutex attribute objects: `MutexInit` and `NoteMutex` take the resulting kind as an argument.
- LockRuns.NeverStuck: the barrier count is the integer `tasks + 1`; with 2^32 - 1 tasks the 32-bit sum is 0 and barrier_init fails, which is not modelled. The same holds for Terminates and EndsWithCount of that module.
- BufferRuns.NeverStuck: `total_threads` is the integer sum of producers and consumers; from 2^32 on the 32-bit sum wraps and fewer threads are joined than created, which is not modelled. The same holds for Terminates, EndsWithZero, FinishesWhen and the EmptyQueue lemmas of that module.
- Wrap-around of the 32-bit recursion and barrier counts at 2^32: counts are unbounded integers.
- Atomic operations: each is one scheduling point followed by one access, that is `Yield` and user code.
- Boxed thread records are values in a map: `Registry` does not model aliasing of a record through a pointer.
- A whole call as one method: each method of `Registry` is the code between two points where the global lock may be released, and the waits in between are steps of `Machine`.
- The C loops of the kernels are step functions of their memory, because every call in them is a scheduling point.
- The create and counter kernels: the lock kernel without its mutex.
- `rsched_fuzzer_test_one_input` as a loop: only the seeds it derives are modelled, not the user's test.
- Preloading, sleep-to-yield conversion, the LLVM pass and binary instrumentation: wrappers around the calls modelled here.
