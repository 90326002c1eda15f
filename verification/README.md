# dark-std: the synchronous containers, the wait group and the atomic duration

This project models the `sync` part of dark-std and proves what it promises.

* **Protocol.dfy** is the reader/writer exclusion protocol that `SyncVec`, `SyncHashMap`,
  `SyncBtreeMap` and `SyncIndexMap` share word for word: `begin_read`, `begin_write`, the guards and
  `WriteLock`, for any number of threads on one container, one step for each load, store,
  read-modify-write, mutex operation and access. It is written once over any sequential object.
  Counters are integers (that they never go below zero is proved), write sections are a map from
  threads (that there is at most one is proved), and an update tears the contents with arbitrary
  values before it ends. A panic that skips a decrement, and a forgotten guard, is the step `Leak`;
  moving a `VecIter` to another thread is `HandOver`. A channel that carries an iterator counts
  as a thread.
* **Guarantees.dfy** states what holds in every run: exclusion, slot conservation, the handoff of
  the flag, linearizability, guard stability. **HappensBefore.dfy** adds causal histories and proves
  data-race freedom; **Ordering.dfy** defines happens-before as a relation between the steps of a run,
  from a table of acquires and releases, and proves that the causal histories are that relation.
  **References.dfy** adds the references that iterators hand out and that may be
  kept longer than the iterator: what holds as long as they are used in time, and exactly when they
  do harm. **Slots.dfy** says which thread writes which counter and who can hold which guard.
* **Progress.dfy** gives a schedule that completes all calls and its bound;
  **Stuck.dfy** says exactly when a scanning writer cannot return; **Scans.dfy** has a run in which a
  scan succeeds though the counters are never zero together; **Schedules.dfy** puts runs together.
* **Worlds.dfy** has any number of containers, each with an object of its own. **Deadlocks.dfy** says
  exactly which threads can still return from their calls, and exactly when everything can be
  completed, on one container or many and under no discipline; **Disciplines.dfy** measures two
  disciplines against that.
* **Calls.dfy** has `begin_read`, `begin_write` and the operations as loops on a class, other
  threads interfering between any two instructions. The class keeps books that its invariant ties to the
  run: which steps the calling thread has done, what its last load of the flag found, which batches of
  steps the others have had. The others have a turn between any two instructions of the thread, and
  within a call it lets them have more only while it is blocked by a mutex. Every contract says which
  instructions the call has executed.
* **Containers.dfy** has the sequential objects: a sequence, a map, and an index map with
  `swap_remove`, and what each update does, position by position or told from the updates before it.
* **SlotDirectory.dfy** has `reader_count_for`, for threads and containers that come and go and an
  allocator that reuses addresses.
* **WaitGroup.dfy** and **Duration.dfy** have the other two types. **Sequential.dfy** defines
  histories.

## What was found

* `next` of a read iterator returns `&'a V`, and `next` of a write iterator `&'a mut V`, where `'a` is the
  borrow of the container and not of the iterator (src/sync/vec.rs:35-55, and alike in the maps). So
  references can be kept when the slot or the WriteLock is long released. A kept `&V` races with the
  next writer (`References.KeptReferenceRaces`), and a store through a kept `&mut V` changes the
  memory under the guards of others (`References.KeptReferenceDisturbs`). If every use happens before
  the end of its iterator or section all guarantees hold (`References.UsesInTimeAreSafe`); from a
  state that can be completed something can go wrong, no further reference being kept too long, if
  and only if some thread has a reference whose iterator or WriteLock is gone
  (`References.SafeIff`).
* The rule documented for guards (do not write while holding one in the same scope) does not prevent
  deadlock. Comparing a container with itself takes two read guards in turn; a writer that starts
  in between waits for the first, and the second never comes (`Stuck.SelfComparisonDeadlocks`).
  Obeying a stricter rule (no call on a container while holding anything of it) on each
  container by itself is not enough for two of them (`Disciplines.CrossedIsReachable`); taken over
  all containers together it is (`Disciplines.AllContainersComplete`).
* The exact condition, without any rule: a thread can return from its call if and only if it is in no
  set of threads that wait within the set, in begin_write for a guard that is leaked or owned in
  the set or for a write mutex held in the set, or in begin_read for a flag that is up and
  whose write mutex is held in the set (`Deadlocks.ReturnsIff`). Everything can be completed if
  and only if nothing is leaked and there is no such set (`Deadlocks.CompletableIff`).
* A comment says that a counter is only written by its owning thread (src/sync/mod.rs:22). A moved
  `VecIter` decrements it from another (src/sync/vec.rs:19-33): `Slots.MovedIteratorDecrements` is such
  a run, and by `Slots.ForeignWriteIff` a step changes another thread's counter exactly if it drops a
  guard granted there. The model follows the code, and the guarantees hold nevertheless.
* A panicking comparison or hash inside a read leaks a slot, and all writers wait from then on
  (`Stuck.LeakBlocksWriters`, `Stuck.LeakIsReachable`).
* `WaitGroup::add` is not atomic: two overlapping clones can lose an update, and `wait` then
  returns with a clone still live (`WaitGroups.LostUpdate`). Whether it can from now on is decided by
  the state: seen from a moment with no `add` and no `wait` in progress, every later `wait` is
  right if and only if the clones missing from `total` are no more than the messages received so
  far (`WaitGroups.SafeAgainIff`); with calls of `wait` in progress, if and only if no call is as
  near to `total` as `WaitGroups.SafeForeverIff` says. Without overlap `wait` is right, but at most one
  call ever gets out of its loop (`WaitGroups.WaitsAtMostOnce`), and an explicit `add` keeps all
  calls in it (`WaitGroups.SerialWaitReturnsIff`; whatever overlapped, `WaitGroups.WaitReturnsIff`).
* `get_mut` lets a caller overwrite an element, which destroys it as `set` does; elements are conserved
  if those are counted (`Containers.VecRunConserves`).
* Where `usize` has fewer than 64 bits, a stored duration is truncated; `Durations.FitsIff` says
  when it survives.

## Assumptions

A run of Protocol.dfy has accesses through guards and iterators that live and within sections. Runs
in which references are kept are the subject of References.dfy; those in which they are used in time
are runs of Protocol.dfy (`References.TimelyIsProtocol`), and the results about every run speak
of these. All accesses are to the contents as a whole: elements are not told apart.

Atomic operations interleave in one order that all threads agree on; in HappensBefore.dfy they order
accesses only as far as their release and acquire parts say. `Relaxed` loads in `WaitGroup` and
`AtomicDuration` read the latest value. Counters, `total` and `CONTAINER_ID` do not overflow
(`SlotDirectory.NewIdIff` says which reuse of an id would be harmless). A thread is inside a call on
one container at a time; the containers of one world have one type of states and updates, which
for different kinds of containers is the sum of theirs.

## Model

| member | source | states |
|---|---|---|
| Protocol.InvStep | src/sync/vec.rs:101-130 | every atomic step of any thread keeps the invariant: who holds which mutex, when the flag is up, exact counters, no granted guard on the scanned prefix, memory explained by the history |
| Protocol.ConservedStep | src/sync/mod.rs:111-115 | each counter stays equal to the live guards charged to its slot plus the attempts between increment and decrement, also when another thread releases a guard |
| Protocol.QuietStep | src/sync/map_hash.rs:171-184 | the non-atomic scan is enough: granted guards stay off the scanned prefix while the registry grows and retrying readers move counters |
| Protocol.FlagUpStep | src/sync/mod.rs:198-216 | `writing` is up exactly while the holder of the write mutex is between its two stores |
| Protocol.SectionAlone | src/sync/vec.rs:117-130 | threads past begin_write exclude each other, hold the write mutex and have the flag up |
| Protocol.ExplainedEndOp | src/sync/vec.rs:166-213 | when an update ends, whatever was torn, the contents and the result are those of the sequential object |
| Guarantees.Exclusion | src/sync/vec.rs:93-130 | in every reachable state, while a thread is past begin_write no guard is live, no access through a guard is possible, no other thread is past it, and counters show only failed attempts |
| Guarantees.NoUnderflow | src/sync/mod.rs:180-184 | in every reachable state counters are exact, and whoever is about to decrement one finds it positive |
| Guarantees.FlagHandoff | src/sync/mod.rs:200-216 | the flag belongs to one holder of the write mutex, so a departing writer cannot erase the next writer's flag |
| Guarantees.Linearizable | src/sync/vec.rs:166-335 | every run with references used in time refines the sequential object: legal history, memory equal to its final state outside sections, every guard sees the state current at its `writing` load |
| Guarantees.EffectOnce | src/sync/vec.rs:166-335 | each call takes effect exactly once, between its start and its end, and the calls of a thread in the order it makes them: events in the history are the calls started, by kind and place, less those pending |
| Guarantees.HistoryGrows | src/sync/vec.rs:166-335 | what took effect keeps its place, and the name of a dropped guard is never used again |
| Guarantees.RealTimeOrder | src/sync/vec.rs:166-335 | of two calls of any threads of which one has ended before the other starts, the earlier has its event first in the history |
| Guarantees.GuardStability | src/sync/vec.rs:306-332 | with references used in time, at every moment of every run suffix in which a guard lives, the memory is what it was at the grant |
| HappensBefore.DataRaceFree | src/sync/vec.rs:29-33 | in every run, two accesses through guards, iterators and sections, of which one is a write, are ordered by happens-before, with iterators dropped by other threads through a Release decrement |
| Ordering.AccessesOrdered | src/sync/vec.rs:93-130 | the same said of the run alone: of two accesses to the contents, one of them a write, the earlier is connected to the later by a chain of program order, handovers and releases that an acquire reads from |
| Ordering.PastIsHb | src/sync/mod.rs:111-115 | the causal histories are that relation, in both directions and over every run: a thread knows of an access exactly if a chain leads from it to what the thread does next |
| Ordering.Learns | src/sync/mod.rs:111-115 | a thread learns from a step what the location it acquires publishes, and nothing else; a Release decrement leaves every past as it was |
| References.UsesInTimeAreSafe | src/sync/vec.rs:19-55 | in every run in which each use of a reference happens before the end of its iterator or section there is no race, no memory changes under a guard, no section runs beside a live reference of an iterator, and the containers go through a run of the protocol |
| References.TimelyIsProtocol | src/sync/vec.rs:19-55 | the same runs are runs of the protocol, so all results about those hold for them |
| References.RInvStep | src/sync/vec.rs:19-55 | every act in time keeps the invariant: holders of live references know all writes, and accesses stay known to whoever will conflict with them |
| References.KeptReferenceRaces | src/sync/vec.rs:35-41 | a run in which a `&V` is kept when its iterator is dropped, and a use of it can race with a writer |
| References.KeptReferenceDisturbs | src/sync/vec.rs:44-55 | a run in which a store through a kept `&mut V` changes what a live guard of another thread sees |
| References.SafeIff | src/sync/vec.rs:35-55 | from a state with two threads or more that can be completed: all continuations that keep no further reference too long are free of races and leave guarded memory alone exactly if no thread has a reference whose iterator or WriteLock is gone |
| References.ForgettingHeals | src/sync/vec.rs:35-55 | once the only such reference is forgotten every continuation is safe again |
| References.LoanMustReturn | src/sync/vec.rs:35-41 | a reference may be used by another thread; if nothing but the order of the run puts the use before the drop of the iterator the drop is too early, and after any synchronization with the owner it is in time |
| Slots.ForeignWriteIff | src/sync/mod.rs:20-25 | a step changes a counter that is not its thread's own exactly if it drops a guard granted on another counter |
| Slots.MovedIteratorDecrements | src/sync/vec.rs:19-33 | a run in which a thread that never read decrements the counter of another by dropping an iterator moved to it |
| Slots.ReadGuardsStay | src/sync/mod.rs:77-115 | over every run a guard that is not `Send` is with the thread that read, and every guard is charged to the counter of the thread that read |
| HappensBefore.ReadCollected | src/sync/vec.rs:120-124 | a scan that loads zero acquires every earlier read made through that slot |
| HappensBefore.WriteStaysKnown | src/sync/mod.rs:212-216 | all earlier writes reach the next writer through the mutex and every reader through the lowered flag |
| Progress.Complete | src/sync/vec.rs:101-130 | from every state in which holders are in their own code, a careful schedule of at most Measure(s) steps completes all calls and drops all guards |
| Progress.CarefulRunsComplete | src/sync/map_hash.rs:155-184 | every state that a run keeping to the strict discipline reaches can be completed within that bound |
| Progress.RegistryReleased | src/sync/mod.rs:62-66 | in every state, guards and attempts or not, the holder of the registry mutex releases it by at most counters + 2 steps of its own, so the two mutexes cannot form a cycle |
| Progress.ScanEndsWithin | src/sync/vec.rs:117-130 | without a choice of schedule: in a run in which attempts to read have stopped and guards are dropped, a writer that has the write mutex returns by at most counters + 5 steps of its own |
| Stuck.ScanReturnsIff | src/sync/map_hash.rs:131-184 | a scanning writer can return exactly when no live guard is leaked or owned by a thread inside a call |
| Stuck.PinnedForever | src/sync/map_hash.rs:155-184 | scanning under such a guard is a closed set of states |
| Stuck.NestedReadNeverReturns | src/sync/map_hash.rs:155-184 | neither the writer nor the thread that entered a call with a guard in hand ever returns |
| Stuck.SelfComparisonDeadlocks | src/sync/vec.rs:418-422 | a run that obeys the documented rule and ends in such a state |
| Stuck.LeakBlocksWriters | src/sync/vec.rs:296-304 | after a leaked slot its counter stays positive and no begin_write returns, in every continuation |
| Stuck.LeakIsReachable | src/sync/vec.rs:296-304 | one panicking read leads from a new container to such a state, and a write started then never returns |
| Scans.ScanIsNoSnapshot | src/sync/vec.rs:120-128 | a writer can enter although at every moment of its scan some counter was positive |
| Worlds.EachContainerRuns | src/sync/map_hash.rs:190-218 | each of many containers goes through a run of its own, so every guarantee holds for each |
| Deadlocks.ReturnsIff | src/sync/vec.rs:80-130 | a thread inside a call on any of many containers can return exactly if it is in no set of threads that wait within the set for guards, write mutexes and flags |
| Deadlocks.SoloReturnsIff | src/sync/vec.rs:101-130 | the same for one container, for threads in begin_read and waiting for the write mutex as well as scanning |
| Deadlocks.CompletableIff | src/sync/vec.rs:80-130 | all calls on all containers can be completed and all guards dropped exactly if no guard is leaked and there is no such set |
| Deadlocks.CompleteRun | src/sync/vec.rs:101-130 | then a schedule does it that starts no call and has no more steps than the sum of the measures of the containers |
| Deadlocks.DeadlockedForever | src/sync/vec.rs:80-84 | the threads of such a set stay inside their calls in every continuation |
| Deadlocks.DeadlockedBack | src/sync/vec.rs:101-130 | steps towards completion, which raise no flag while a guard is live, bring no thread into such a set |
| Disciplines.AllContainersComplete | src/sync/vec.rs:80-130 | with no call started while holding anything of any container, from every reachable state all calls on all containers can be completed, within the sum of the measures |
| Disciplines.WFreeStep | src/sync/vec.rs:80-84 | that discipline keeps every thread inside a call free of the other containers, iterators being handed to whoever is in its own code |
| Disciplines.CrossedIsReachable | src/sync/vec.rs:80-84 | a run of one read and one write of each of two threads, careful on each of two containers by itself, after which neither thread ever returns |
| Calls.Container.ReaderCount | src/sync/mod.rs:44-71 | the thread ends up with its own counter, the one it had if it had one, or has taken no instruction but the call and the registry mutex is held; undisturbed it returns exactly if it has a counter or the mutex is free |
| Calls.Container.Attempt | src/sync/vec.rs:106-113 | one turn of the loop: its steps are the increment, the load of the flag and, exactly if that load found the flag up, the decrement; otherwise it grants a guard on the current state |
| Calls.Container.Spin | src/sync/vec.rs:106-113 | every turn but the last found the flag up, and the loop ends with the first turn that finds it down |
| Calls.Container.BeginRead | src/sync/vec.rs:101-114 | a returned counter is a granted guard that sees the state at its place in the history; the steps taken are those of the registration, of the turns that found the flag up, and of the one that found it down; undisturbed, with the flag down and its counter known or the registry mutex free, it returns |
| Calls.Container.AllZero | src/sync/vec.rs:121-124 | single loads that all find zero mean that no guard is live, although others went on in between; all counters are loaded, or those up to the first nonzero one |
| Calls.Container.AwaitReaders | src/sync/vec.rs:120-128 | the loop is left only with no guard live and the flag up; it has scanned again and again, each scan that failed having stopped at a nonzero load, and waited only while the registry mutex was held; undisturbed with all counters at zero the first scan passes |
| Calls.Container.BeginWrite | src/sync/vec.rs:117-130 | a returned lock means no guard, flag up, mutex held, memory equal to the state of the history; the steps taken are those of the source; undisturbed, with both mutexes free and all counters at zero, it returns |
| Calls.Container.Update | src/sync/vec.rs:166-241 | under interference and tearing, contents and result are the sequential object's, and the update was done once |
| Calls.Container.EndWrite | src/sync/mod.rs:212-216 | the section's updates become the next event of the history; the flag falls before the mutex is free |
| Calls.Container.WriteOp | src/sync/map_hash.rs:220-232 | the result of insert, remove, push, pop is the sequential object's at a point within the call; the call is begin_write, one update and the drop of the lock, and undisturbed it returns |
| Calls.Container.ReadOp | src/sync/map_hash.rs:298-340 | the result of get, contains, len is that of one state current within the call, and the slot is released; the call is begin_read, one access and one decrement, and undisturbed it returns |
| Calls.Container.Iterate | src/sync/vec.rs:306-313 | the references that an iterator hands out, read later but before it is dropped, show the elements of one state, each once and in order |
| Containers.VecRunConserves | src/sync/vec.rs:166-293 | over every concurrent run with references used in time elements are conserved: what is in the vector, was handed back or was destroyed is what was put in; only `set`, stores through `get_mut` and `clear` destroy any |
| Containers.VecConservesOne | src/sync/vec.rs:166-293 | each update balances the elements, panicking `insert` and `set` and stores through references included; which element it is says VecByPosition |
| Containers.VecRoundTrip | src/sync/vec.rs:166-213 | remove undoes insert and insert undoes remove |
| Containers.VecByPosition | src/sync/vec.rs:166-241 | what every update does to every position and what it returns, panics and indices out of bounds included; in both directions, so nothing else happens |
| Containers.VecRunByPosition | src/sync/vec.rs:166-241 | the same for every update of every concurrent run, on the contents that the updates before it left |
| Containers.MapReadsLastWrite | src/sync/map_hash.rs:220-312 | over every run with references used in time, a guard finds under a key what the last update of that key wrote before the grant |
| Containers.LookupIsLast | src/sync/map_btree.rs:217-238 | looking a key up after any updates gives the value told from the updates alone; the results of updates are told by MapResults |
| Containers.MapResults | src/sync/map_hash.rs:220-232 | over every run insert, remove and mem::replace through get_mut return what the last update of that key before them wrote, or none; get_mut finds the key exactly if there is such a value |
| Containers.IndexResults | src/sync/map_index.rs:223-235 | the same for SyncIndexMap |
| Containers.IndexMapIsAMap | src/sync/map_index.rs:223-235 | over every run with references used in time SyncIndexMap gives the results of one sequential map, and guards see entries that list it |
| Containers.IndexStep | src/sync/map_index.rs:232-235 | insert, swap_remove and the rest do to the entries what a map does to the map listed, with the same results; the order of the entries is told by IndexByPosition |
| Containers.IndexByPosition | src/sync/map_index.rs:223-235 | what every update does to every position: remove puts the last entry in the place of the one removed and leaves the others, insert of a new key appends, a present key changes its own value only; in both directions |
| Containers.IndexRunByPosition | src/sync/map_index.rs:223-235 | the same for every update of every concurrent run |
| Containers.IndexGet | src/sync/map_index.rs:301-315 | get on the entries is lookup in the map |
| Containers.IndexLen | src/sync/map_index.rs:241-246 | len counts every key once |
| SlotDirectory.ReaderSlots.Find | src/sync/mod.rs:56-61 | the search returns the first entry for the id, or there is none |
| SlotDirectory.Process.ReaderCountFor | src/sync/mod.rs:44-71 | cache, list and registration give the answer of the lookup function and agree with the function (thread, container) to counter; the counter is in the registry asked for and is nobody else's; a new one starts at zero, is the last of its registry, and nothing else changes; a repeated call changes nothing in the registry |
| SlotDirectory.Process.ReaderCountAmong | src/sync/mod.rs:56-66 | the same counter results if other threads register, drop and create between the failed search and the push; the registration itself adds one counter at zero to what the others left |
| SlotDirectory.OthersUndisturbed | src/sync/mod.rs:56-66 | whatever others do meanwhile, the container asked for keeps its counters and their values, and every other counter is as it was or new and at zero |
| SlotDirectory.Process.DropContainer | src/sync/mod.rs:22-25 | dropping frees the counters of the container and no others, and leaves stale entries, which stay harmless |
| SlotDirectory.Process.Create | src/sync/mod.rs:73-75 | a new container gets an id no live container has and an empty registry, nothing else changes, and the directory stays right |
| SlotDirectory.DroppedTruthful | src/sync/mod.rs:22-25 | entries of dropped containers cannot be asked for |
| SlotDirectory.RegisteredSound | src/sync/mod.rs:62-66 | a new counter at a reused address belongs to one container and one thread |
| SlotDirectory.NewIdIff | src/sync/mod.rs:73-75 | if a used id were given to a new container, the call for it would return a counter of that container exactly if the thread has no entry for the id, stale ones included |
| WaitGroups.OnlyUndercounts | src/sync/wg.rs:68-71 | in every interleaving `total` is at most what was added, and handles and messages are conserved |
| WaitGroups.RightUnlessLost | src/sync/wg.rs:95-109 | in every interleaving, if no clone is missing from `total` when `wait` leaves its loop, its handle is the last |
| WaitGroups.SafeForeverIff | src/sync/wg.rs:47-122 | from any state with no `add` in progress, whatever overlapped before: every later end of a `wait` is right exactly if no call, old or new, is so near to `total` that the queue and the other handles' messages would get it out early |
| WaitGroups.SafeAgainIff | src/sync/wg.rs:47-122 | with no `wait` in progress either, exactly if the clones missing from `total` are no more than the messages received so far |
| WaitGroups.WaitIsSafe | src/sync/wg.rs:95-122 | with non-overlapping adds, a `wait` that leaves its loop leaves when its handle is the only one |
| WaitGroups.EarlyReturnIsSafe | src/sync/wg.rs:96-98 | the same when `wait` returns at once |
| WaitGroups.WaitsAtMostOnce | src/sync/wg.rs:95-115 | with non-overlapping adds, at most one call of `wait` ever gets out of its loop |
| WaitGroups.NoLostWakeup | src/sync/wg.rs:101-109 | the last handle finds exactly the messages it still needs in the queue |
| WaitGroups.WaitReturnsIff | src/sync/wg.rs:47-115 | from any state with no `add` in progress, whatever overlapped before, a waiting call can return exactly if its messages, the queue and the handles not occupied by calls that go on waiting make up for `total` |
| WaitGroups.SerialWaitReturnsIff | src/sync/wg.rs:47-115 | if adds never overlapped, exactly if only clones raised `total`, it received every message so far, and nobody waits on another handle |
| WaitGroups.FinishWait | src/sync/wg.rs:99-114 | the receive loop terminates once no other handle is live, having received `total` messages |
| WaitGroups.LostUpdate | src/sync/wg.rs:47-71 | a run in which two overlapping clones lose an update and `wait` returns with a clone live |
| WaitGroups.WaitGroup.Wait | src/sync/wg.rs:95-115 | under interference, if the call returns its handle is the only one left, provided that adds are kept apart or that no clone is missing from `total`; a call that returns from its loop has received at least `total` messages, one that has not is waiting at an empty queue; undisturbed it returns exactly if there are `total` messages |
| WaitGroups.WaitGroup.Receive | src/sync/wg.rs:101-109 | one turn receives one message and leaves only when every other handle is gone, under the same proviso, and exactly when `total` is reached |
| WaitGroups.WaitGroup.Add | src/sync/wg.rs:68-71 | whatever goes on between load and store, other adds included, `total` ends as what it was at the load and the amount; kept apart, nothing is lost |
| WaitGroups.WaitGroup.Clone | src/sync/wg.rs:47-56 | one new handle, and `total` one more than at the load, others going on in between |
| WaitGroups.WaitGroup.Drop | src/sync/wg.rs:118-122 | one handle less and one message more |
| Durations.DurToMs | src/sync/duration.rs:49-56 | the least number of milliseconds that covers the duration, or 2^64 - 1 |
| Durations.GetAfterStore | src/sync/duration.rs:9-33 | with 64-bit usize, none exactly for zero, else rounded up by less than a millisecond, else saturated |
| Durations.StoreAfterGet | src/sync/duration.rs:17-33 | storing what was read changes nothing |
| Durations.FitsIff | src/sync/duration.rs:26-33 | a duration survives a narrower usize exactly if its milliseconds fit |
| Durations.AtomicDuration.Stored | src/sync/duration.rs:26-33 | what is stored is the remainder of the milliseconds by the number of values of usize |
| Durations.AtomicDuration.Take | src/sync/duration.rs:36-41 | what was stored is handed out and the cell is empty |

## Left out

- Calls.Container.BeginRead: a call whose environment runs out is left where it is, waiting for a mutex or after a turn that found the flag up; whether calls complete is the subject of Progress.dfy.
- Calls.Container: one thread makes calls on an object of this class; what the others do, calls included, is given as steps of the protocol.
- Progress.ScanEndsWithin: says nothing of a writer that waits for the write mutex, which parking_lot may give to others time and again; nor of scans while readers retry, which can make every scan fail.
- References.SafeIff: asks that owners know what was read through their iterators; a thread that has used a reference without telling the owner, and is inside a call, is not covered.
- References.KeptReferenceDisturbs: one store; loads through mutable references, and mutable references handed to other threads, are not modelled, as elements are not told apart.
- Taking the inner iterator of a write iterator out through DerefMut, which keeps references in the same way.
- Weak memory beyond happens-before on an interleaving.
- The internals of HashMap, BTreeMap, IndexMap, Vec, flume and parking_lot; the iteration order of hash and tree maps.
- `Index` and `get_uncheck`, which bypass the protocol; `*_mut` methods and `into_inner`, which have exclusive access by typing.
- `wait_async`, which has the loop of `wait`; the `Err` arm of `recv`, impossible while the caller's handle keeps a sender; sending on the public fields of a WaitGroup.
- Exit of a thread. It leaves its counter behind, at zero unless a `VecIter` was moved away before; then at one for each such iterator until the receiver drops it. In the model the thread stays and does nothing more.
- Serialization, formatting, the error type, `defer!` and the benches.
