# Missile-interception scheduling, modelled in Dafny

The repository is a set of C drivers for the SimuSil missile-interception
simulator. One cannon is shared by many threads, one per missile the radar
discovers. Each driver decides which thread may use the cannon next. This
project models the scheduling core of four drivers and the list library they
share. It proves three groups of results:

- The EDF drivers keep their lists sorted by deadline, FIFO among equal
  deadlines.
- The SCAN comparator orders the targets of one snapshot of the cannon
  along the cannon's sweep.
- In each driver at most one thread holds the cannon at a time. For
  5_EDF.c this holds only with `action_command` initialised to 0. As
  written, two threads can fire together (see Findings).

- **The wait list** (`include/simusil.h`). The list is the class
  `WaitList.List` over a `seq`. It has one method per documented call:
  `createList`, `list_enqueue`, `list_dequeue`, `list_remove`,
  `list_insert` and `destroyList`. The body of `list_insert` is in a
  prebuilt library that is not part of this model. The model scans from
  the head and links the new element in before the first element `e` with
  `cmp(e, new) == 1`. `InsertedBetween` proves that this meets the
  documented A/B placement rule. For a comparator of a strict weak order,
  repeated insertion is a stable sort (`InsertAllIsStableSort`).
- **The deadline comparators** (`Edf`). `cmp_deadline` and
  `compareDeadline` are the same function. `cmp` of 5_EDF.c is the same
  test with its arguments named the other way round. All three are the
  comparator of the lexicographic `(tv_sec, tv_nsec)` order. The EDF list
  is therefore sorted by deadline, FIFO among equal deadlines.
- **Timespec arithmetic and the estimator** (`Time`, `Estimator`, `CInt`).
  This covers `diff_ts`, the single-carry `timeAdd` macro and the
  looping `addTime`. It also covers the integer estimate
  `p1.y/(p0.y-p1.y)*DELTATIME`. C's truncating division (`CInt.Quot`),
  conversions through `unsigned long` (modulo 2^64) and the unsigned carry
  test of `timeAdd` are all written out.
- **Four grant protocols**, as sequential state machines. Each is a class
  whose methods are the atomic steps of one thread. A semaphore is an
  integer counter. A blocking `sem_wait` or `list_dequeue(..., 1)` is a
  precondition saying when the step can run. A ghost token records who
  holds the cannon. Each class's invariant is a predicate over a value
  snapshot of its fields, and one lemma per step shows that the step
  preserves it.
  - `Dispatcher` models 5_EDF_mariano.c: the `common` semaphore, a
    dispatcher thread and per-worker `private` semaphores.
  - `TokenChain` models 5_EDF_javi_noplanner.c. There is no dispatcher:
    the holder removes itself from the list, dequeues the earliest deadline
    and posts it.
  - `ScanPlanner` models 6_scheduler_javi.c: the SCAN comparator
    `comparePosition`, the `semList` planner and the cannon's
    position/direction update.
  - `FirstMissile` models 5_EDF.c: the `n_lista` counter, `lista_misiles`
    and each task's `action_command` semaphore.
- **Monitoring** (`Tracking`, `Simusil.ReportOf`). The polling loop runs
  over a sequence of radar readings, and the outcome switch follows it.

The radar, the clock and the float estimator of 5_EDF_mariano.c are
inputs. Radar readings are a `seq<MissileState>` or a single reading. Clock
readings are `Timespec` parameters. The float estimate is the deadline's
`tv_sec`. Cannon movements are recorded in a `shots` sequence.

Where the code differs from the intended design:

- The estimator has no validity guard. The model follows the code, and
  `Estimator.EstimateDefined` makes the undefined cases (a zero
  denominator, `int` overflow) preconditions. A rising target above
  ground gets a non-positive estimate, and one below ground a
  non-negative one (`RemainingTicks`).
- 5_EDF_mariano.c calls `list_remove(x, l)` on the thread list `l`, but no
  thread is ever added to `l`, so the call always answers 0
  (`Dispatcher.Dispatch.Finish`).

5_EDF.c does not compile as written. The model takes the evident intent of
each defective line:

- `addTime`'s parameters `s` and `ns` are untyped. They are taken as `long`.
  The `&start` and `&dt` arguments are read as the timespec values.
- Several statements lack their semicolon. They are read as complete
  statements.
- `cmp` dereferences `void*`. It is read as comparing two `list_item`s.
- The cannon aims at an undeclared `p`. It is modelled as the second
  sample `p1`.
- The dequeued `list_item*` is posted as if it were a `sem_t*`. It is
  modelled as posting the semaphore the item carries, i.e. its owner's.
  On an empty list the dequeue yields NULL, and the model reports that no
  semaphore was posted (`posted == None`).

## Model

| member | source | states |
|---|---|---|
| CInt.ToUnsignedLong | 5_EDF_javi_noplanner.c:123-133 | Storing an integer in an `unsigned long` gives a value in [0, 2^64) congruent to it modulo 2^64, unchanged when already in range |
| CInt.ToLong | 5_EDF_javi_noplanner.c:135 | Converting to `long` gives the unique `long` congruent modulo 2^64, unchanged for values already in range |
| CInt.LongThroughUnsigned | 5_EDF_javi_noplanner.c:133-135 | A `long` stored in `timeRemaining` (unsigned long) and read back as `tv_nsec` is unchanged |
| CInt.Quot | 5_EDF_javi_noplanner.c:133 | C's integer division: the remainder has the dividend's sign and is smaller than the divisor in magnitude |
| CInt.QuotOfNonnegatives | 5_EDF.c:128 | With a nonnegative dividend and a positive divisor, C and Euclidean division agree |
| CInt.QuotTruncatesTowardZero | 5_EDF.c:128 | On a negative dividend they differ: -7/2 is -3 in C and -4 in Euclidean division |
| Simusil.ReportOf | 5_EDF_mariano.c:147-158 | The outcome switch: INTERCEPTED and IMPACTED exactly on their codes; the error message only for values outside the enum, since MISSILE_ERROR equals MISSILE_ACTIVE |
| Time.EarlierIsTimeOrder | 5_EDF_mariano.c:85-88 | On normalised timespecs the lexicographic order of the comparators is the order of the instants |
| Time.EarlierNeedsNormalized | 5_EDF_javi_noplanner.c:94-109 | Without normalisation the two orders disagree: (5 s, 1.5e9 ns) is lexicographically before (6 s, 0) but later |
| Time.DiffTs | 5_EDF_mariano.c:52-55 | `diff_ts` is the difference of the instants reduced modulo 2^64 into `long` range, and exactly the difference when that fits |
| Time.DiffTsSelf | 5_EDF_mariano.c:52-55 | `diff_ts(a, a) == 0` |
| Time.DiffTsAntisymmetric | 5_EDF_mariano.c:52-55 | `diff_ts(b, a) == -diff_ts(a, b)` unless the wrapped difference is LONG_MIN |
| Time.MacroCarriesIff | 5_EDF_javi_noplanner.c:25-31 | The carry test against the `unsigned long` NSECS_PER_SEC fires for tv_nsec >= 10^9 and also for any negative tv_nsec |
| Time.TimeAdd | 5_EDF_javi_noplanner.c:27-35 | `timeAdd` keeps the total nanoseconds, carries at most once, keeps normalised inputs normalised, and leaves tv_nsec >= 10^9 when the sum reaches 2*10^9 |
| Time.AddTime | 5_EDF.c:74-83 | `addTime` keeps the total nanoseconds; afterwards tv_nsec < 10^9, and >= 0 when the summed nanoseconds are; no loop iteration without a carry |
| Estimator.RemainingTicks | 5_EDF_javi_noplanner.c:133 | The estimate is always a multiple of DELTATIME. For a falling target above ground it is the whole number of sampling intervals (times DELTATIME) to reach height 0 at the observed rate, rounded down. For a falling target below ground the quotient is truncated toward zero, so it is rounded up to a nonpositive multiple. For a rising target the quotient is likewise truncated toward zero: not positive above ground and not negative below it, each bounded to within one DELTATIME of the exact ratio |
| Estimator.DeadlineAsWritten | 5_EDF_javi_noplanner.c:133-137 | The stored deadline is the sample time plus the estimate, but tv_nsec stays >= 10^9 once estimate plus tv_nsec reaches two seconds |
| Estimator.Deadline | 5_EDF_javi_noplanner.c:133-137 | The corrected deadline denotes the same instant and is normalised |
| Estimator.NoPlannerExample | 5_EDF_javi_noplanner.c:125-137 | Heights 100 then 90, sampled 10 ms apart from time 0, give an estimate of 90 ms and a deadline of 100 ms |
| WaitList.InsertPos | include/simusil.h:84-98 | The insertion point follows only elements with cmp(e, new) != 1 and is at the first element with cmp(e, new) == 1 |
| WaitList.Inserted | include/simusil.h:84-98 | Insertion grows the list by exactly one |
| WaitList.InsertedBetween | include/simusil.h:88-95 | The new element lands between A with cmp(A, new) == 0 and B with cmp(B, new) == 1, and cutting it out gives the old list back |
| WaitList.InsertedMultiset | include/simusil.h:84-98 | Insertion adds exactly the new element to the contents |
| WaitList.InsertedMember | include/simusil.h:84-98 | After insertion an element is listed iff it was listed before or is the new one |
| WaitList.InsertedDistinct | include/simusil.h:84-98 | Inserting an element whose key is not listed keeps keys distinct, and every element is old or new |
| WaitList.Removed | include/simusil.h:77-82 | Removal takes out one occurrence of x when present and nothing when absent |
| WaitList.RemovedAt | include/simusil.h:77-82 | Removing the first occurrence, at index i, leaves the other elements in their order |
| WaitList.RemovedMember | include/simusil.h:77-82 | Removal keeps every other element and adds none |
| WaitList.RemovedKeeps | include/simusil.h:77-82 | Removal keeps a sorted list with distinct keys sorted and distinct |
| WaitList.TailDistinct | include/simusil.h:67-75 | After dequeuing the head, keys stay distinct and none equals the head's |
| WaitList.List.constructor | include/simusil.h:40-48 | `createList` yields an empty list |
| WaitList.List.Enqueue | include/simusil.h:60-65 | `list_enqueue` appends at the tail, earlier elements unchanged |
| WaitList.List.Dequeue | include/simusil.h:67-75 | `list_dequeue` removes and returns the head; on an empty list it returns NULL without blocking and cannot complete when blocking |
| WaitList.List.Remove | include/simusil.h:77-82 | `list_remove` returns 1 and cuts out the reference when present, 0 and no change when absent |
| WaitList.List.Insert | include/simusil.h:84-98 | `list_insert`'s walk from the head places the element where `Inserted` says |
| WaitList.List.Destroy | include/simusil.h:50-58 | `destroyList` hands each object to the destructor once, head first, and leaves the list empty |
| WaitList.InsertKeepsSorted | include/simusil.h:84-98 | For a comparator answering "new strictly before listed" of a strict weak order, insertion keeps the list sorted, with the new element after its ties |
| WaitList.HeadIsFirst | include/simusil.h:67-75 | No element of a sorted list is strictly before its head, and the rest stays sorted |
| WaitList.InsertedTies | include/simusil.h:84-98 | Insertion appends the new element to the end of its own tie class and leaves every other tie class unchanged |
| WaitList.InsertAllPermutes | include/simusil.h:84-98 | Inserting arrivals one by one keeps exactly the arrivals |
| WaitList.InsertAllSorted | include/simusil.h:84-98 | Inserting arrivals one by one yields a sorted list |
| WaitList.InsertAllStable | include/simusil.h:84-98 | Inserting arrivals one by one keeps each tie class in arrival order |
| WaitList.InsertAllIsStableSort | include/simusil.h:84-98 | Repeated `list_insert` is a stable sort: a permutation, sorted, ties in arrival order |
| Edf.CmpDeadline | 5_EDF_mariano.c:80-89 | `cmp_deadline`/`compareDeadline` answers 0 or 1, and 1 exactly when the new deadline is lexicographically strictly earlier |
| Edf.CmpDeadlineTies | 5_EDF_mariano.c:85-88 | Two tasks compare 0 both ways exactly when their deadlines are equal |
| Edf.CmpDeadlineIsTimeOrder | 5_EDF_javi_noplanner.c:88-110 | On normalised deadlines `compareDeadline` answers 1 exactly when the new deadline is the earlier instant |
| Edf.EdfOrder | 5_EDF_mariano.c:80-89 | The deadline order is a strict weak order, `cmp_deadline` is its comparator, and it answers only 0 or 1 |
| Edf.TiesAreEqualDeadlines | 5_EDF_mariano.c:85-88 | Under the deadline order, a task's tie class is the set of tasks with its deadline |
| Edf.EdfListIsStableSort | 5_EDF_mariano.c:123 | Tasks inserted from an empty EDF list end up as a permutation of the arrivals, sorted by deadline, with each deadline's tasks in arrival order |
| Edf.HeadIsEarliest | 5_EDF_mariano.c:181 | The head of the EDF list has the earliest deadline listed |
| Edf.DequeueKeepsSorted | 5_EDF_mariano.c:178-183 | After a dequeue the rest is still sorted and nothing in it is earlier than what was dequeued, so dequeues come out in deadline order |
| Edf.EdfExample | 5_EDF_mariano.c:80-89 | Tasks due at 3 s, 1 s and 2 s, inserted in that order, are listed 1 s, 2 s, 3 s |
| Edf.CmpImpact | 5_EDF.c:85-94 | `cmp(a, b)` answers 0 or 1, and 1 exactly when a's impact time is lexicographically strictly later than b's |
| Edf.ImpactOrder | 5_EDF.c:85-94 | `cmp` is the comparator of a strict weak order on impact times |
| Edf.CmpImpactMirrorsCmpDeadline | 5_EDF.c:85-94 | `cmp` on items equals `cmp_deadline` on tasks carrying the same times |
| Edf.DeadlineOrderAsWritten | 5_EDF_javi_noplanner.c:133-139 | As written, a task due at 12 s is listed after one due at 12.5 s, because the latter's tv_nsec is not normalised; with the corrected deadline it goes first |
| Edf.DeadlineOrderIsTimeOrder | 5_EDF_javi_noplanner.c:133-139 | With the corrected deadline, a new task is placed before a listed one exactly when its sample time plus estimate is strictly earlier |
| Tracking.Monitor | 5_EDF_mariano.c:143-146 | The polling loop stops at the first non-active reading, never on MISSILE_ERROR (which reads as active); all earlier readings were active |
| Dispatcher.Dispatch.constructor | 5_EDF_mariano.c:207-214 | `common` starts at 1 with an empty EDF list, and the invariant holds |
| Dispatcher.Dispatch.Spawn | 5_EDF_mariano.c:225-233 | A new worker gets id `++workerCount` and a `private` semaphore at 0 |
| Dispatcher.Dispatch.Insert | 5_EDF_mariano.c:119-123 | The worker's deadline (estimate in tv_sec, tv_nsec 0) is inserted with `cmp_deadline`; the worker is queued |
| Dispatcher.Dispatch.DispatcherTake | 5_EDF_mariano.c:180 | The dispatcher's `sem_wait(common)` takes the single token |
| Dispatcher.Dispatch.DispatcherGrant | 5_EDF_mariano.c:181-182 | The dispatcher dequeues the earliest-deadline worker and posts its `private` semaphore |
| Dispatcher.Dispatch.Wake | 5_EDF_mariano.c:125-134 | After its wait, a worker whose missile is gone posts `common` at once; otherwise it holds the cannon, aiming at the x of that same re-read |
| Dispatcher.Dispatch.Fire | 5_EDF_mariano.c:137-141 | The holder fires at the x it re-read after its wait, and posts `common` exactly once |
| Dispatcher.Dispatch.Track | 5_EDF_mariano.c:143-158 | Monitoring ends after `polls` active readings with the outcome of the reading at index `polls`, the first non-active one; with no non-active reading every given reading was active and the task keeps monitoring; nothing else changes |
| Dispatcher.Dispatch.Finish | 5_EDF_mariano.c:161 | `list_remove(x, l)` on the never-filled thread list answers 0 and the worker exits |
| Dispatcher.OneCannonToken | 5_EDF_mariano.c:174-185 | `common` + dispatcher mid-grant + posted privates + holding workers account for exactly one token: at most one worker may fire |
| TokenChain.InitStep | 5_EDF_javi_noplanner.c:234-236 | Task 0 with its semaphore pre-posted satisfies the invariant |
| TokenChain.SpawnStep | 5_EDF_javi_noplanner.c:240-242 | Creating a task with its semaphore at 0 keeps the invariant |
| TokenChain.EnqueueStep | 5_EDF_javi_noplanner.c:133-139 | Listing a task by deadline keeps the list sorted, duplicate-free and consistent with the token |
| TokenChain.WakeStep | 5_EDF_javi_noplanner.c:142-158 | Only the posted task can pass its wait, and it then holds the token |
| TokenChain.RemoveStep | 5_EDF_javi_noplanner.c:160 | The holder's `list_remove` finds its entry only if it is task 0, and keeps the invariant |
| TokenChain.PassStep | 5_EDF_javi_noplanner.c:163-165 | The holder posts the earliest-deadline listed task, never itself, and the token moves there |
| TokenChain.TrackStep | 5_EDF_javi_noplanner.c:167-187 | Reporting an outcome keeps the invariant |
| TokenChain.Chain.constructor | 5_EDF_javi_noplanner.c:234-236 | Task 0 is created with its semaphore posted |
| TokenChain.Chain.Spawn | 5_EDF_javi_noplanner.c:240-242 | Each new task gets id `workerCount++` and a semaphore at 0 |
| TokenChain.Chain.Enqueue | 5_EDF_javi_noplanner.c:125-139 | The deadline is the time of the second sample plus the integer estimate, normalised, and the task is inserted with `compareDeadline` |
| TokenChain.Chain.Wake | 5_EDF_javi_noplanner.c:142-158 | After its wait the task fires at its first sample's x only if the missile is still active |
| TokenChain.Chain.RemoveSelf | 5_EDF_javi_noplanner.c:160 | `list_remove(x, l)` answers 1 only for task 0; every other holder was already dequeued |
| TokenChain.Chain.PassOn | 5_EDF_javi_noplanner.c:163-165 | The holder dequeues the earliest deadline and posts it exactly once; it goes on to monitor only if its missile was active |
| TokenChain.Chain.Track | 5_EDF_javi_noplanner.c:167-187 | Monitoring ends after `polls` active readings with the outcome of the reading at index `polls`, the first non-active one; with no non-active reading every given reading was active and the task keeps monitoring |
| TokenChain.OneGrant | 5_EDF_javi_noplanner.c:142-165 | Exactly one task has its semaphore posted or holds the cannon, and no semaphore exceeds 1 |
| ScanPlanner.ComparePosition | 6_scheduler_javi.c:83-143 | `comparePosition` answers only 0 or 1 |
| ScanPlanner.ComparePositionAhead | 6_scheduler_javi.c:89-102 | Moving right towards a target ahead: 0 exactly for listed targets between the cannon and the new one |
| ScanPlanner.ComparePositionBehind | 6_scheduler_javi.c:103-114 | Moving right with the target behind: 0 for every target at or ahead of the cannon; behind it, 1 exactly for targets further behind than the new one |
| ScanPlanner.ComparePositionMirror | 6_scheduler_javi.c:116-142 | LEFT is RIGHT on negated positions |
| ScanPlanner.SweepIsStrictWeakOrder | 6_scheduler_javi.c:83-143 | For a fixed snapshot the sweep order is a strict weak order |
| ScanPlanner.ComparePositionIsSweepOrder | 6_scheduler_javi.c:83-143 | Away from the cannon's own position, `comparePosition` answers 1 exactly when the new target comes strictly earlier on the sweep |
| ScanPlanner.ComparePositionAtCannon | 6_scheduler_javi.c:89-142 | A new target exactly at the cannon goes after every target ahead and before every target behind |
| ScanPlanner.SpawnStep | 6_scheduler_javi.c:258-264 | Creating a task keeps the invariant |
| ScanPlanner.InsertStep | 6_scheduler_javi.c:168-173 | Listing a task's snapshot keeps the invariant |
| ScanPlanner.TakeStep | 6_scheduler_javi.c:151 | The planner's wait on `semList` keeps the invariant |
| ScanPlanner.GrantStep | 6_scheduler_javi.c:152-154 | Dequeue-and-post by the planner keeps the invariant |
| ScanPlanner.WakeStep | 6_scheduler_javi.c:176-185 | Both outcomes of the re-read keep the invariant |
| ScanPlanner.FireStep | 6_scheduler_javi.c:188-197 | Firing, the direction update and the post of `semList` keep the invariant |
| ScanPlanner.TrackStep | 6_scheduler_javi.c:199-216 | Reporting an outcome keeps the invariant |
| ScanPlanner.FinishStep | 6_scheduler_javi.c:219 | A finished task is no longer listed, so its `list_remove` changes nothing, and the invariant holds |
| ScanPlanner.Planner.constructor | 6_scheduler_javi.c:46-48 | `cannonLastPosX` starts at -1, the direction at RIGHT and `semList` at 1 |
| ScanPlanner.Planner.Spawn | 6_scheduler_javi.c:258-264 | A new task gets id `workerCount++` and a semaphore at 0 |
| ScanPlanner.Planner.Insert | 6_scheduler_javi.c:168-173 | The task snapshots its x and the cannon's direction and last position, and is inserted with `comparePosition` |
| ScanPlanner.Planner.PlannerTake | 6_scheduler_javi.c:151 | The planner's `sem_wait(&semList)` takes the token |
| ScanPlanner.Planner.PlannerGrant | 6_scheduler_javi.c:152-154 | The planner dequeues the head and posts its semaphore |
| ScanPlanner.Planner.Wake | 6_scheduler_javi.c:176-185 | A task whose missile is gone posts `semList` at once; otherwise it holds the cannon at the target's x |
| ScanPlanner.Planner.Fire | 6_scheduler_javi.c:188-197 | After firing, the direction is RIGHT exactly when the target is right of the last position, the last position becomes the target's x, and `semList` is posted once |
| ScanPlanner.Planner.Track | 6_scheduler_javi.c:199-216 | Monitoring ends after `polls` active readings with the outcome of the reading at index `polls`, the first non-active one; with no non-active reading every given reading was active and the task keeps monitoring |
| ScanPlanner.Planner.Finish | 6_scheduler_javi.c:219 | `list_remove(x, l)` answers 0 and leaves the list unchanged |
| ScanPlanner.OneCannonToken | 6_scheduler_javi.c:145-197 | `semList`, the planner mid-grant, posted semaphores and holders account for one token: at most one task holds the cannon |
| FirstMissile.HolderIsPending | 5_EDF.c:133-152 | A task that may go to the cannon is counted in `n_lista` |
| FirstMissile.SpawnStep | 5_EDF.c:211-216 | Creating a task keeps the bookkeeping and safety |
| FirstMissile.QuietStep | 5_EDF.c:112-122 | Registering, the first reading and reporting keep the bookkeeping and safety |
| FirstMissile.EstimateStep | 5_EDF.c:124-131 | Estimating and initialising `action_command` keep them |
| FirstMissile.AdmitFirstStep | 5_EDF.c:133-135 | The task that finds `n_lista` at 0 becomes the one holder |
| FirstMissile.AdmitStep | 5_EDF.c:133-135 | A later task's increment keeps the bookkeeping and safety |
| FirstMissile.EnqueueStep | 5_EDF.c:137-138 | Listing the impact time keeps `lista_misiles` sorted, one item per task |
| FirstMissile.WaitStep | 5_EDF.c:139 | Passing the wait makes the task the holder |
| FirstMissile.FireEmptyStep | 5_EDF.c:148-152 | With nothing listed, the release posts nothing and nobody holds the cannon afterwards |
| FirstMissile.Posted | 5_EDF.c:151 | A post raises a queued task's semaphore by one and leaves any other phase alone |
| FirstMissile.FirePostStep | 5_EDF.c:148-152 | From a safe state the release posts the earliest listed task, which is queued and not the firing one, and it becomes the holder |
| FirstMissile.ExitStep | 5_EDF.c:174 | Leaving the thread list keeps the bookkeeping and safety |
| FirstMissile.Missiles.constructor | 5_EDF.c:201-203 | `n_lista` starts at 0 with both lists empty; the state is safe with the intended initial value |
| FirstMissile.Missiles.Spawn | 5_EDF.c:211-216 | A new task gets id `workerCount++` |
| FirstMissile.Missiles.Register | 5_EDF.c:112 | `list_enqueue(x, x->id, l)` appends the task's id |
| FirstMissile.Missiles.FirstRead | 5_EDF.c:115-122 | A missile already gone at the first reading skips the protocol |
| FirstMissile.Missiles.Estimate | 5_EDF.c:124-131 | The impact time is the first clock reading plus DELTATIME plus the integer estimate, and the stored (tv_sec, tv_nsec) pair is the one `addTime` produces: with `dt` the reading plus DELTATIME carried once, the estimate is added to dt.tv_nsec with no borrow when that stays below 10^9 (so a negative estimate can leave tv_nsec negative), and otherwise carried up to a normalised pair |
| FirstMissile.Missiles.Admit | 5_EDF.c:133-135 | `first_missile` is set exactly when `n_lista` was 0, and `n_lista` grows by one |
| FirstMissile.Missiles.Enqueue | 5_EDF.c:137-138 | A non-first task inserts its impact time with `cmp` |
| FirstMissile.Missiles.Wait | 5_EDF.c:139 | The wait completes only on a positive semaphore, and the task goes to the cannon |
| FirstMissile.Missiles.Fire | 5_EDF.c:143-152 | Fires at the aim, decrements `n_lista` once, dequeues without blocking and posts the earliest item's owner (nothing on an empty list) |
| FirstMissile.Missiles.Track | 5_EDF.c:154-171 | Monitoring ends after `polls` active readings with the outcome of the reading at index `polls`, the first non-active one; with no non-active reading every given reading was active and the task keeps monitoring |
| FirstMissile.Missiles.Finish | 5_EDF.c:174 | `list_remove(x, l)` finds the task's id and removes it |
| FirstMissile.OneCannonHolder | 5_EDF.c:130-152 | With `action_command` initialised to 0, at most one task is at the cannon, and none while `n_lista` is 0 |
| FirstMissile.TwoAtCannonAsWritten | 5_EDF.c:130-139 | With `action_command` initialised to 1 as written, two tasks reach the cannon together |

## Left out

- Signal handling (`handler`, `destroyer`, `destroyWorker`) is left out: it is thread cancellation and process exit.
- `main`'s world, radar and cannon setup, `radarWaitMissile` and `pthread_create` are left out. Each thread creation is a `Spawn` step.
- The simulator calls are not modelled. Radar readings are inputs; `cannonMove`/`cannonFire` become an append to `shots`; `clock_gettime` readings are parameters; sleeps are dropped.
- Real thread interleavings are not modelled. Each method is one atomic step, and any order of enabled steps is allowed. Races such as the unsynchronised read of `cannonLastPosX` (6_scheduler_javi.c:171-172) are not modelled.
- Liveness is not modelled: in particular, whether a waiting task is eventually granted, and the case in 5_EDF.c where a task lists itself after the only holder has released an empty list. The invariants are safety properties only.
- The floating-point estimator of 5_EDF_mariano.c (lines 115-120) is not modelled: its `tv_sec` is an input of `Dispatcher.Dispatch.Insert`.
- 5_EDF_javi.c, 2_Serial.c and 1_DoNothing.c are not part of this model.
- The list library's internals are not modelled: links, locking and the list names and debug levels.
- `printf` output is not modelled.
- The `DIF_TS` macro of 5_EDF_javi_noplanner.c:26 is not modelled, because no driver uses it. Unlike `diff_ts`, it has no conversion back to `long`, so its value would be the `unsigned long` wrap of the difference.
- ScanPlanner states no order on the planner's list across snapshots. Each `list_insert` compares with the new task's own snapshot of the cannon, and the cannon moves between insertions, so the list has no single order to keep. The sweep order is proved per snapshot (`ComparePositionIsSweepOrder`).
- Dispatcher.Dispatch.Insert: the deadline's `tv_sec` is taken as a given integer, because the float estimate behind it is not modelled.
- Estimator.EstimateDefined excludes a zero denominator and `int` overflow. The code has no guard, and those inputs are undefined behaviour in C.
- Time.DiffTs and Time.TimeAdd exclude signed overflow of the `long` field arithmetic by precondition. Only the `unsigned long` parts wrap.
- TokenChain.Chain.Enqueue stores the corrected, normalised deadline (`Estimator.Deadline`), not the deadline as written. The as-written deadline and the misordering it causes are stated by `Estimator.DeadlineAsWritten` and `Edf.DeadlineOrderAsWritten`.
- FirstMissile.Missiles.Fire: the `list_item*` posted as a `sem_t*` is modelled as a post of the item owner's semaphore. A NULL from the empty list is modelled as no post, although the C call would be undefined.
- ScanPlanner.Planner.Finish requires that the task's snapshot was recorded. Every task that reaches `list_remove` has passed `list_insert`.

## Findings

| source | as written | input that shows it | evidently intended | confidence | as-written member | corrected member |
|---|---|---|---|---|---|---|
| 5_EDF_javi_noplanner.c:133-136 | The deadline is `(struct timespec){0, timeRemaining}` plus `startThread` with a single carry, so tv_nsec stays at or above 10^9 once the estimate plus tv_nsec reaches 2 s, and the lexicographic `compareDeadline` misorders it | Samples at 10.5 s (heights 2010, 2000) and 11.9 s (heights 11, 10): deadlines 12.5 s stored as (11, 1.5e9) and 12 s stored as (12, 0); the 12 s task is listed after the 12.5 s one | Split the estimate into seconds and nanoseconds before adding, so the deadline is normalised and the list order is time order | high (not executed) | Edf.DeadlineOrderAsWritten | Edf.DeadlineOrderIsTimeOrder |
| 5_EDF.c:130 | `sem_init(&action_command, 0, 1)`: a queued task's `sem_wait` at line 139 returns at once | Two tasks: the first finds `n_lista` at 0 and goes to the cannon; the second lists itself and passes its wait while the first is still firing | Initial value 0, so a listed task waits until the firing task posts it | high (not executed) | FirstMissile.TwoAtCannonAsWritten | FirstMissile.OneCannonHolder |
