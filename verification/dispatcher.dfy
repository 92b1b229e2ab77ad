/**
 * The dispatcher protocol of 5_EDF_mariano.c as a sequential state machine.
 * One `common` semaphore (initially 1) is the cannon: the dispatcher thread
 * waits on it, takes the earliest-deadline worker off the EDF list and
 * posts that worker's `private` semaphore (initially 0); the worker
 * re-reads its missile, fires if it is still active, and posts `common`
 * back, on the lost path at once and on the firing path right after
 * `cannonFire`. Each method is one atomic step of one thread; a blocking
 * `sem_wait` or `list_dequeue(..., 1)` is a precondition saying when the
 * step can run. The radar readings and the floating-point deadline
 * estimate are parameters.
 */
module Dispatcher {
  import opened Simusil
  import opened Time
  import opened WaitList
  import opened Edf
  import opened Tracking

  /** Where a worker thread (`searchAndDestroy`) is. */
  datatype Phase =
    | Sampling                   // created, sampling the radar to estimate its deadline
    | Queued                     // inserted in the EDF list, blocked on its private semaphore
    | Holding(aim: int)          // past sem_wait(private) with the missile active: aiming at the re-read x
    | Monitoring                 // fired and posted common, polling the radar
    | Finished(outcome: Outcome) // outcome reported (Lost: the missile was gone after the wait)
    | Exited                     // list_remove(x, l) done, thread gone

  /** Where the single cannon token is (proof bookkeeping only). */
  datatype Token = InCommon | WithDispatcher | Posted(id: nat) | HeldBy(id: nat)

  function IdOf(w: Worker): nat { w.id }

  class Dispatch {
    /** The `common` semaphore. */
    var common: int
    /** The dispatcher thread is between sem_wait(common) and sem_post(&t->private). */
    var dispatching: bool
    /** Each worker's `private` semaphore. */
    var privateSem: map<nat, int>
    var phase: map<nat, Phase>
    /** `workerCount`: ids 1..workerCount have been handed out (0 is the dispatcher). */
    var workerCount: nat
    /** Cannon positions fired at, in order. */
    var shots: seq<int>
    /** The EDF list `edf`. */
    const edf: List<Worker>
    /** The list of living threads `l`; nothing ever enqueues into it. */
    const living: List<nat>
    ghost var token: Token

    ghost predicate TokenHeld()
      reads this
    {
      && common == (if token == InCommon then 1 else 0)
      && (dispatching <==> token == WithDispatcher)
      && privateSem.Keys == phase.Keys
      && (forall id :: id in privateSem ==> privateSem[id] == if token == Posted(id) then 1 else 0)
      && (forall id :: id in phase && phase[id].Holding? ==> token == HeldBy(id))
      && (token.Posted? ==> token.id in phase && phase[token.id] == Queued)
      && (token.HeldBy? ==> token.id in phase && phase[token.id].Holding?)
    }

    ghost predicate ListWellFormed()
      reads this, edf
    {
      && (forall i :: 0 <= i < |edf.items| ==> edf.items[i].id in phase && phase[edf.items[i].id] == Queued)
      && (forall i :: 0 <= i < |edf.items| ==> token != Posted(edf.items[i].id))
      && DistinctBy(edf.items, IdOf)
      && SortedBy(edf.items, EarlierWorker)
    }

    ghost predicate Valid()
      reads this, edf, living
    {
      && TokenHeld()
      && ListWellFormed()
      && (forall id :: id in phase <==> 1 <= id <= workerCount)
      && living.items == []
    }

    /** main: `sem_init(&common, 0, 1)` and two empty lists. */
    constructor ()
      ensures Valid()
      ensures common == 1 && !dispatching && workerCount == 0
      ensures phase == map[] && privateSem == map[] && shots == []
      ensures edf.items == [] && fresh(edf) && fresh(living)
    {
      common := 1;
      dispatching := false;
      privateSem := map[];
      phase := map[];
      workerCount := 0;
      shots := [];
      edf := new List();
      living := new List();
      token := InCommon;
    }

    /** main: `x->id = ++workerCount; sem_init(&x->private, 0, 0)` and the thread starts. */
    method Spawn() returns (id: nat)
      requires Valid()
      modifies this
      ensures Valid()
      ensures id == old(workerCount) + 1 && workerCount == id && id !in old(phase)
      ensures phase == old(phase)[id := Sampling] && privateSem == old(privateSem)[id := 0]
      ensures common == old(common) && dispatching == old(dispatching) && shots == old(shots)
    {
      workerCount := workerCount + 1;
      id := workerCount;
      phase := phase[id := Sampling];
      privateSem := privateSem[id := 0];
    }

    /**
     * The worker stores its estimated deadline (`tv_sec` from the estimate,
     * `tv_nsec` 0) and calls `list_insert(x, cmp_deadline, x->id, x->edf)`.
     */
    method Insert(id: nat, deadlineSec: int)
      requires Valid() && id in phase && phase[id] == Sampling
      modifies this, edf
      ensures Valid()
      ensures edf.items == Inserted(old(edf.items), Worker(id, Timespec(deadlineSec, 0)), CmpDeadline)
      ensures phase == old(phase)[id := Queued]
      ensures common == old(common) && dispatching == old(dispatching) && privateSem == old(privateSem)
      ensures shots == old(shots) && workerCount == old(workerCount)
    {
      var w := Worker(id, Timespec(deadlineSec, 0));
      ghost var s := edf.items;
      EdfOrder();
      InsertKeepsSorted(s, w, CmpDeadline, EarlierWorker);
      InsertedDistinct(s, w, CmpDeadline, IdOf);
      edf.Insert(w, CmpDeadline);
      phase := phase[id := Queued];
    }

    /** The dispatcher's `sem_wait(x->common)`. */
    method DispatcherTake()
      requires Valid() && !dispatching && common > 0
      modifies this
      ensures Valid()
      ensures common == old(common) - 1 && dispatching
      ensures phase == old(phase) && privateSem == old(privateSem) && shots == old(shots)
      ensures workerCount == old(workerCount)
    {
      common := common - 1;
      dispatching := true;
      token := WithDispatcher;
    }

    /**
     * The dispatcher's `t = list_dequeue(x->edf, 1); sem_post(&t->private)`:
     * the granted worker is the listed one with the earliest deadline.
     */
    method DispatcherGrant() returns (granted: Worker)
      requires Valid() && dispatching && edf.items != []
      modifies this, edf
      ensures Valid()
      ensures granted == old(edf.items)[0] && edf.items == old(edf.items)[1..]
      ensures forall i :: 0 <= i < |old(edf.items)| ==> !Earlier(old(edf.items)[i].deadline, granted.deadline)
      ensures privateSem == old(privateSem)[granted.id := old(privateSem)[granted.id] + 1]
      ensures !dispatching && common == old(common)
      ensures phase == old(phase) && shots == old(shots) && workerCount == old(workerCount)
    {
      ghost var s := edf.items;
      HeadIsEarliest(s);
      DequeueKeepsSorted(s);
      TailDistinct(s, IdOf);
      var head := edf.Dequeue(true);
      granted := head.value;
      privateSem := privateSem[granted.id := privateSem[granted.id] + 1];
      dispatching := false;
      token := Posted(granted.id);
    }

    /**
     * The worker's `sem_wait(&x->private)` and re-read of the missile. Lost
     * (no longer active): post `common` at once and report it. Active: the
     * worker holds the cannon, aiming at the re-read position `x` (`p2.x`).
     */
    method Wake(id: nat, sm: MissileState, x: int) returns (lost: bool)
      requires Valid() && id in phase && phase[id] == Queued && privateSem[id] > 0
      modifies this
      ensures Valid()
      ensures lost == !IsActive(sm)
      ensures privateSem == old(privateSem)[id := old(privateSem)[id] - 1]
      ensures lost ==> common == old(common) + 1 && phase == old(phase)[id := Finished(Lost)]
      ensures !lost ==> common == old(common) && phase == old(phase)[id := Holding(x)]
      ensures dispatching == old(dispatching) && shots == old(shots) && workerCount == old(workerCount)
    {
      privateSem := privateSem[id := privateSem[id] - 1];
      lost := !IsActive(sm);
      if lost {
        common := common + 1;
        phase := phase[id := Finished(Lost)];
        token := InCommon;
      } else {
        phase := phase[id := Holding(x)];
        token := HeldBy(id);
      }
    }

    /** `cannonMove(x->c, p2.x); cannonFire(x->c); sem_post(x->common)`, at the x read in `Wake`. */
    method Fire(id: nat)
      requires Valid() && id in phase && phase[id].Holding?
      modifies this
      ensures Valid()
      ensures shots == old(shots) + [old(phase)[id].aim] && common == old(common) + 1
      ensures phase == old(phase)[id := Monitoring]
      ensures privateSem == old(privateSem) && dispatching == old(dispatching) && workerCount == old(workerCount)
    {
      shots := shots + [phase[id].aim];
      common := common + 1;
      phase := phase[id := Monitoring];
      token := InCommon;
    }

    /** The monitoring loop and the outcome switch, over the given radar readings; `polls` counts the active ones before the exit. */
    method Track(id: nat, readings: seq<MissileState>) returns (polls: nat, exit: Option<MissileState>)
      requires Valid() && id in phase && phase[id] == Monitoring
      modifies this
      ensures Valid()
      ensures polls <= |readings| && forall i :: 0 <= i < polls ==> IsActive(readings[i])
      ensures exit.Some? <==> polls < |readings|
      ensures exit.Some? ==> exit.value == readings[polls] && !IsActive(exit.value)
      ensures exit.None? ==> forall i :: 0 <= i < |readings| ==> IsActive(readings[i])
      ensures phase == if exit.Some? then old(phase)[id := Finished(ReportOf(exit.value))] else old(phase)
      ensures common == old(common) && privateSem == old(privateSem) && shots == old(shots)
      ensures dispatching == old(dispatching) && workerCount == old(workerCount)
    {
      polls, exit := Monitor(readings);
      if exit.Some? {
        phase := phase[id := Finished(ReportOf(exit.value))];
      }
    }

    /** `list_remove(x, l)`: the thread list is never filled, so it answers 0. */
    method Finish(id: nat) returns (found: int)
      requires Valid() && id in phase && phase[id].Finished?
      modifies this, living
      ensures Valid()
      ensures found == 0
      ensures phase == old(phase)[id := Exited]
      ensures common == old(common) && privateSem == old(privateSem) && shots == old(shots)
      ensures dispatching == old(dispatching) && workerCount == old(workerCount)
    {
      found := living.Remove(id);
      phase := phase[id := Exited];
    }
  }

  /**
   * The cannon is never held twice: the `common` count, the dispatcher
   * between its wait and its post, the posted `private` semaphores and the
   * workers holding the cannon account for exactly one token.
   */
  lemma OneCannonToken(d: Dispatch)
    requires d.Valid()
    ensures d.common + (if d.dispatching then 1 else 0) <= 1
    ensures d.common + (if d.dispatching then 1 else 0) == 1 ==>
      forall id :: id in d.phase ==> d.privateSem[id] == 0 && !d.phase[id].Holding?
    ensures forall a, b ::
      && a in d.phase && (d.privateSem[a] > 0 || d.phase[a].Holding?)
      && b in d.phase && (d.privateSem[b] > 0 || d.phase[b].Holding?)
      ==> a == b
    ensures d.common + (if d.dispatching then 1 else 0) == 0 ==>
      exists id :: id in d.phase && (d.privateSem[id] == 1 || d.phase[id].Holding?)
  {
    if d.common + (if d.dispatching then 1 else 0) == 0 {
      var id := d.token.id;
      assert id in d.phase && (d.privateSem[id] == 1 || d.phase[id].Holding?);
    }
  }
}
