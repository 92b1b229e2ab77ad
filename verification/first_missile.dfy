/**
 * The first-missile protocol of 5_EDF.c. A task estimates its missile's
 * impact time and, under `mutex_lista`, increments the global counter
 * `n_lista`; the task that finds it at 0 fires at once. Every other task
 * puts its impact time and its `action_command` semaphore in
 * `lista_misiles`, ordered by `cmp`, and waits on that semaphore. After
 * firing, a task decrements `n_lista`, takes the earliest entry off the
 * list without blocking and posts its semaphore. Each critical section
 * under `mutex_lista` is one atomic step here. The file does not compile
 * as written; the model takes the evident intent of the defective lines.
 */
module FirstMissile {
  import opened CInt
  import opened Simusil
  import opened Time
  import opened Estimator
  import opened WaitList
  import opened Edf
  import opened Tracking

  /** `sem_init(&action_command, 0, 1)` as written. */
  const ACTION_INIT_AS_WRITTEN: int := 1
  /** The evidently intended initial value: a queued task blocks until it is posted. */
  const ACTION_INIT: int := 0

  /**
   * Where a task thread (`searchAndDestroy`) is. `action` is the value of
   * the task's own `action_command` semaphore (a local of the thread) from
   * its `sem_init` until its `sem_wait`; `aim` is where the cannon will be
   * moved.
   */
  datatype Phase =
    | Spawned                                            // created by main
    | Sampling                                           // in the thread list `l`, reading the radar
    | Estimated(impact: Timespec, aim: int, action: int) // impact time estimated, semaphore initialised
    | Admitted(impact: Timespec, aim: int, action: int)  // n_lista incremented, not the first: about to list itself
    | Queued(aim: int, action: int)                      // listed (or dequeued and posted), waiting on its semaphore
    | Firing(aim: int)                                   // moving the cannon and firing
    | Monitoring                                         // released the list, polling the radar
    | Finished(outcome: Outcome)                         // outcome reported (Lost: inactive at the first reading)
    | Exited                                             // list_remove(x, l) done, thread gone

  /** The task is in the thread list `l`. */
  predicate Registered(p: Phase) {
    !p.Spawned? && !p.Exited?
  }

  /** The task is counted in `n_lista`: incremented, not yet decremented. */
  predicate Pending(p: Phase) {
    p.Admitted? || p.Queued? || p.Firing?
  }

  /**
   * The task has called `list_insert`: its item may be in `lista_misiles`
   * from then on, whatever the task goes on to do.
   */
  predicate PastInsert(p: Phase) {
    p.Queued? || p.Firing? || p.Monitoring? || p.Finished? || p.Exited?
  }

  function Owner(it: Item): nat { it.owner }

  /**
   * A snapshot of the protocol's state: `n_lista`, each task's phase, the
   * tasks counted in `n_lista`, `lista_misiles`, the number of ids handed
   * out and the task that may go on to the cannon, if any.
   */
  datatype State = State(nLista: nat, phase: map<nat, Phase>, pending: set<nat>,
                         items: seq<Item>, n: nat, holder: Option<nat>)

  /**
   * The bookkeeping holds: ids 0..n-1 are handed out; `n_lista` counts the
   * pending tasks; `lista_misiles` holds items of tasks past their
   * `list_insert`, one per task, sorted by impact time.
   */
  ghost predicate Wf(s: State) {
    && (forall id: int :: id in s.phase <==> 0 <= id < s.n)
    && (forall id :: id in s.pending <==> id in s.phase && Pending(s.phase[id]))
    && s.nLista == |s.pending|
    && (forall i :: 0 <= i < |s.items| ==> s.items[i].owner in s.phase && PastInsert(s.phase[s.items[i].owner]))
    && DistinctBy(s.items, Owner)
    && SortedBy(s.items, EarlierItem)
  }

  /** The task may go on to the cannon: it is firing, or its semaphore is positive. */
  predicate Holds(s: State, id: nat) {
    id in s.phase &&
    (s.phase[id].Firing? || ((s.phase[id].Estimated? || s.phase[id].Admitted? || s.phase[id].Queued?) && s.phase[id].action > 0))
  }

  /**
   * The protocol is safe: semaphores start at 0, the listed tasks are
   * queued and have not been posted, and every task that may go on to the
   * cannon is the one holder.
   */
  ghost predicate SafeState(actionInit: int, s: State) {
    && actionInit == ACTION_INIT
    && (forall id :: id in s.phase && (s.phase[id].Estimated? || s.phase[id].Admitted?) ==> s.phase[id].action == 0)
    && (forall i :: 0 <= i < |s.items| ==>
          s.items[i].owner in s.phase && s.phase[s.items[i].owner].Queued? && s.phase[s.items[i].owner].action == 0)
    && (forall id: nat :: Holds(s, id) ==> s.holder == Some(id))
  }

  /** Each task in the thread list `l` appears there exactly once. */
  ghost predicate Registry(phase: map<nat, Phase>, reg: seq<nat>) {
    forall id :: multiset(reg)[id] == if id in phase && Registered(phase[id]) then 1 else 0
  }

  /** A holder is counted in `n_lista`, so with `n_lista` at 0 nobody holds the cannon. */
  lemma HolderIsPending(actionInit: int, s: State, id: nat)
    requires Wf(s) && SafeState(actionInit, s) && Holds(s, id)
    ensures id in s.pending && s.nLista > 0
  {
  }

  // The thread list only changes at list_enqueue and list_remove; every
  // other step keeps a task in it or out of it.

  lemma RegistryKeep(phase: map<nat, Phase>, reg: seq<nat>, id: nat, p: Phase)
    requires Registry(phase, reg) && id in phase && Registered(phase[id]) == Registered(p)
    ensures Registry(phase[id := p], reg)
  {
  }

  lemma RegistryEnqueue(phase: map<nat, Phase>, reg: seq<nat>, id: nat)
    requires Registry(phase, reg) && id in phase && phase[id] == Spawned
    ensures Registry(phase[id := Sampling], reg + [id])
  {
  }

  lemma RegistryRemove(phase: map<nat, Phase>, reg: seq<nat>, id: nat)
    requires Registry(phase, reg) && id in phase && phase[id].Finished?
    ensures id in reg && Registry(phase[id := Exited], Removed(reg, id))
  {
    assert multiset(reg)[id] == 1;
  }

  lemma RegistryAfterPost(phase: map<nat, Phase>, reg: seq<nat>, id: nat, o: nat)
    requires Registry(phase, reg) && id in phase && phase[id].Firing? && o in phase
    ensures Registry(AfterPost(phase, id, o), reg)
  {
  }

  // One lemma per step of a task: from well-formed state in which the step
  // can run, the step keeps the bookkeeping and, from a safe state, keeps
  // the protocol safe.

  /** The two halves every step keeps. */
  ghost predicate Keeps(ai: int, s: State, s': State) {
    Wf(s') && (SafeState(ai, s) ==> SafeState(ai, s'))
  }

  lemma SpawnStep(ai: int, s: State)
    requires Wf(s)
    ensures s.n !in s.phase && Keeps(ai, s, s.(phase := s.phase[s.n := Spawned], n := s.n + 1))
  {
  }

  /** A step of a task outside the protocol proper: registering, the first reading, the outcome. */
  lemma QuietStep(ai: int, s: State, id: nat, p: Phase)
    requires Wf(s) && id in s.phase
    requires s.phase[id].Spawned? || s.phase[id].Sampling? || s.phase[id].Monitoring?
    requires p.Sampling? || p.Finished?
    requires PastInsert(s.phase[id]) ==> PastInsert(p)
    ensures Keeps(ai, s, s.(phase := s.phase[id := p]))
  {
  }

  lemma EstimateStep(ai: int, s: State, id: nat, impact: Timespec, aim: int)
    requires Wf(s) && id in s.phase && s.phase[id] == Sampling
    ensures Keeps(ai, s, s.(phase := s.phase[id := Estimated(impact, aim, ai)]))
  {
    var s' := s.(phase := s.phase[id := Estimated(impact, aim, ai)]);
    if SafeState(ai, s) {
      forall j: nat | Holds(s', j)
        ensures s'.holder == Some(j)
      {
        assert Holds(s, j);
      }
    }
  }

  lemma AdmitFirstStep(ai: int, s: State, id: nat)
    requires Wf(s) && id in s.phase && s.phase[id].Estimated? && s.nLista == 0
    ensures Keeps(ai, s, s.(nLista := 1, phase := s.phase[id := Firing(s.phase[id].aim)],
                            pending := s.pending + {id}, holder := Some(id)))
  {
    var s' := s.(nLista := 1, phase := s.phase[id := Firing(s.phase[id].aim)],
                 pending := s.pending + {id}, holder := Some(id));
    assert s.pending == {};
    if SafeState(ai, s) {
      forall j: nat | Holds(s', j)
        ensures s'.holder == Some(j)
      {
        if j != id {
          assert Holds(s, j);
          HolderIsPending(ai, s, j);
        }
      }
    }
  }

  lemma AdmitStep(ai: int, s: State, id: nat)
    requires Wf(s) && id in s.phase && s.phase[id].Estimated?
    ensures var p := s.phase[id];
      Keeps(ai, s, s.(nLista := s.nLista + 1, phase := s.phase[id := Admitted(p.impact, p.aim, p.action)],
                      pending := s.pending + {id}))
  {
    if SafeState(ai, s) {
      var p := s.phase[id];
      var s' := s.(nLista := s.nLista + 1, phase := s.phase[id := Admitted(p.impact, p.aim, p.action)],
                   pending := s.pending + {id});
      forall j: nat | Holds(s', j)
        ensures s'.holder == Some(j)
      {
        assert Holds(s, j);
      }
    }
  }

  lemma EnqueueStep(ai: int, s: State, id: nat)
    requires Wf(s) && id in s.phase && s.phase[id].Admitted?
    ensures var p := s.phase[id];
      Keeps(ai, s, s.(items := Inserted(s.items, Item(p.impact, id), CmpImpact),
                      phase := s.phase[id := Queued(p.aim, p.action)]))
  {
    var p := s.phase[id];
    var it := Item(p.impact, id);
    var s' := s.(items := Inserted(s.items, it, CmpImpact), phase := s.phase[id := Queued(p.aim, p.action)]);
    ImpactOrder();
    InsertKeepsSorted(s.items, it, CmpImpact, EarlierItem);
    InsertedDistinct(s.items, it, CmpImpact, Owner);
    if SafeState(ai, s) {
      forall j: nat | Holds(s', j)
        ensures s'.holder == Some(j)
      {
        assert Holds(s, j);
      }
    }
  }

  lemma WaitStep(ai: int, s: State, id: nat)
    requires Wf(s) && id in s.phase && s.phase[id].Queued? && s.phase[id].action > 0
    ensures Keeps(ai, s, s.(phase := s.phase[id := Firing(s.phase[id].aim)], holder := Some(id)))
  {
    if SafeState(ai, s) {
      var s' := s.(phase := s.phase[id := Firing(s.phase[id].aim)], holder := Some(id));
      assert Holds(s, id);
      forall j: nat | Holds(s', j)
        ensures s'.holder == Some(j)
      {
        if j != id {
          assert Holds(s, j);
        }
      }
    }
  }

  /** The firing task's release when `lista_misiles` is empty: nothing is posted. */
  lemma FireEmptyStep(ai: int, s: State, id: nat)
    requires Wf(s) && id in s.phase && s.phase[id].Firing? && s.items == []
    ensures id in s.pending
    ensures Keeps(ai, s, s.(nLista := s.nLista - 1, phase := s.phase[id := Monitoring],
                            pending := s.pending - {id}, holder := None))
  {
    if SafeState(ai, s) {
      var s' := s.(nLista := s.nLista - 1, phase := s.phase[id := Monitoring],
                   pending := s.pending - {id}, holder := None);
      assert Holds(s, id);
      forall j: nat | Holds(s', j)
        ensures false
      {
        assert Holds(s, j);
      }
    }
  }

  /**
   * The phase of a task once the semaphore its item carries is posted: a
   * queued task's count goes up; a task no longer waiting on it does not
   * notice.
   */
  function Posted(p: Phase): (q: Phase)
    ensures p.Queued? ==> q.Queued? && q.aim == p.aim && q.action == p.action + 1
    ensures !p.Queued? ==> q == p
  {
    if p.Queued? then Queued(p.aim, p.action + 1) else p
  }

  /**
   * The phases after the firing task releases the list and posts the
   * semaphore of the item at the head (as written, that can be its own).
   */
  function AfterPost(phase: map<nat, Phase>, id: nat, o: nat): map<nat, Phase>
    requires o in phase
  {
    var m := phase[id := Monitoring];
    m[o := Posted(m[o])]
  }

  /** The firing task's release when `lista_misiles` is not empty: its head's owner is posted. */
  lemma FirePostStep(ai: int, s: State, id: nat)
    requires Wf(s) && id in s.phase && s.phase[id].Firing? && s.items != []
    ensures var o := s.items[0].owner;
      && id in s.pending && o in s.phase
      && (SafeState(ai, s) ==> s.phase[o].Queued? && o != id)
      && Keeps(ai, s, s.(nLista := s.nLista - 1, phase := AfterPost(s.phase, id, o),
                         pending := s.pending - {id}, items := s.items[1..], holder := Some(o)))
    ensures forall i :: 0 <= i < |s.items| ==> !EarlierItem(s.items[i], s.items[0])
  {
    var o := s.items[0].owner;
    var s' := s.(nLista := s.nLista - 1, phase := AfterPost(s.phase, id, o),
                 pending := s.pending - {id}, items := s.items[1..], holder := Some(o));
    ImpactOrder();
    HeadIsFirst(s.items, EarlierItem);
    TailDistinct(s.items, Owner);
    if SafeState(ai, s) {
      assert Holds(s, id) && o != id;
      assert forall i :: 0 <= i < |s'.items| ==> s'.items[i].owner != o;
      forall j: nat | Holds(s', j)
        ensures s'.holder == Some(j)
      {
        if j != o {
          assert Holds(s, j);
        }
      }
    }
  }

  lemma ExitStep(ai: int, s: State, id: nat)
    requires Wf(s) && id in s.phase && s.phase[id].Finished?
    ensures Keeps(ai, s, s.(phase := s.phase[id := Exited]))
  {
  }

  class Missiles {
    /** The initial value of every `action_command`. */
    const actionInit: int
    /** `n_lista`. */
    var nLista: nat
    var phase: map<nat, Phase>
    /** `workerCount`: ids 0..workerCount-1 have been handed out. */
    var workerCount: nat
    /** Cannon positions fired at, in order. */
    var shots: seq<int>
    /** `lista_misiles`, ordered by `cmp`; an item's owner is the task whose semaphore it carries. */
    const lista: List<Item>
    /** The list of living threads `l`, by task id. */
    const l: List<nat>
    ghost var pending: set<nat>
    ghost var holder: Option<nat>

    ghost function Snapshot(): State
      reads this, lista
    {
      State(nLista, phase, pending, lista.items, workerCount, holder)
    }

    ghost predicate Valid()
      reads this, lista, l
    {
      lista != l as object && Wf(Snapshot()) && Registry(phase, l.items)
    }

    ghost predicate Safe()
      reads this, lista
    {
      SafeState(actionInit, Snapshot())
    }

    /** main: `n_lista = 0`, `createList` for `l` and for `lista_misiles`. */
    constructor (init: int)
      ensures Valid() && actionInit == init
      ensures init == ACTION_INIT ==> Safe()
      ensures nLista == 0 && workerCount == 0 && phase == map[] && shots == []
      ensures lista.items == [] && l.items == [] && fresh(lista) && fresh(l)
    {
      actionInit := init;
      nLista := 0;
      phase := map[];
      workerCount := 0;
      shots := [];
      lista := new List();
      l := new List();
      pending := {};
      holder := None;
    }

    /** main: `x->id = workerCount++` and the thread starts. */
    method Spawn() returns (id: nat)
      requires Valid()
      modifies this
      ensures Valid() && (old(Safe()) ==> Safe())
      ensures id == old(workerCount) && workerCount == id + 1 && id !in old(phase)
      ensures phase == old(phase)[id := Spawned]
      ensures nLista == old(nLista) && shots == old(shots)
    {
      ghost var s := Snapshot();
      SpawnStep(actionInit, s);
      id := workerCount;
      workerCount := workerCount + 1;
      phase := phase[id := Spawned];
      assert Snapshot() == s.(phase := phase, n := workerCount);
    }

    /** `list_enqueue(x, x->id, l)`. */
    method Register(id: nat)
      requires Valid() && id in phase && phase[id] == Spawned
      modifies this, l
      ensures Valid() && (old(Safe()) ==> Safe())
      ensures l.items == old(l.items) + [id]
      ensures phase == old(phase)[id := Sampling]
      ensures nLista == old(nLista) && shots == old(shots) && workerCount == old(workerCount)
    {
      ghost var s := Snapshot();
      QuietStep(actionInit, s, id, Sampling);
      RegistryEnqueue(phase, l.items, id);
      l.Enqueue(id);
      phase := phase[id := Sampling];
      assert Snapshot() == s.(phase := phase);
    }

    /** The first `radarReadMissile`: a missile already gone skips the protocol altogether. */
    method FirstRead(id: nat, sm: MissileState) returns (lost: bool)
      requires Valid() && id in phase && phase[id] == Sampling
      modifies this
      ensures Valid() && (old(Safe()) ==> Safe())
      ensures lost == !IsActive(sm)
      ensures phase == old(phase)[id := if lost then Finished(Lost) else Sampling]
      ensures nLista == old(nLista) && shots == old(shots) && workerCount == old(workerCount)
    {
      lost := !IsActive(sm);
      var p := if lost then Finished(Lost) else Sampling;
      ghost var s := Snapshot();
      QuietStep(actionInit, s, id, p);
      RegistryKeep(phase, l.items, id, p);
      phase := phase[id := p];
      assert Snapshot() == s.(phase := phase);
    }

    /**
     * `dt = addTime(start, 0, DELTATIME)`, the second reading p1,
     * `timeRemaining = p1.y/(p0.y-p1.y)*DELTATIME`, the impact time
     * `addTime(dt, 0, timeRemaining)` and `sem_init(&action_command, 0, init)`.
     * The cannon is aimed at the second reading's x. For a clock reading
     * `dt` needs at most one carry; `addTime` carries only upward, so an
     * estimate that takes tv_nsec below 0 is stored unnormalised, and that
     * pair is what `cmp` later compares.
     */
    method Estimate(id: nat, start: Timespec, p0y: int, p1: Pos) returns (impact: Timespec)
      requires Valid() && id in phase && phase[id] == Sampling
      requires ClockReading(start) && EstimateDefined(p0y, p1.y, DELTATIME_EDF)
      modifies this
      ensures Valid() && (old(Safe()) ==> Safe())
      ensures TotalNs(impact) == TotalNs(start) + DELTATIME_EDF + RemainingTicks(p0y, p1.y, DELTATIME_EDF)
      ensures impact.nsec < NSECS_PER_SEC
      ensures p0y > p1.y >= 0 ==> Normalized(impact)
      ensures var dt := TimeAdd(start, Timespec(0, DELTATIME_EDF));
        var ticks := RemainingTicks(p0y, p1.y, DELTATIME_EDF);
        && (dt.nsec + ticks < NSECS_PER_SEC ==> impact == Timespec(dt.sec, dt.nsec + ticks))
        && (dt.nsec + ticks >= 0 ==> Normalized(impact))
      ensures phase == old(phase)[id := Estimated(impact, p1.x, actionInit)]
      ensures nLista == old(nLista) && shots == old(shots) && workerCount == old(workerCount)
    {
      var dt := AddTime(start, 0, DELTATIME_EDF);
      ghost var sample := TimeAdd(start, Timespec(0, DELTATIME_EDF));
      EarlierIsTimeOrder(dt, sample);
      EarlierIsTimeOrder(sample, dt);
      assert dt == sample;
      var timeRemaining := RemainingTicks(p0y, p1.y, DELTATIME_EDF);
      impact := AddTime(dt, 0, timeRemaining);
      var p := Estimated(impact, p1.x, actionInit);
      ghost var s := Snapshot();
      EstimateStep(actionInit, s, id, impact, p1.x);
      RegistryKeep(phase, l.items, id, p);
      phase := phase[id := p];
      assert Snapshot() == s.(phase := phase);
    }

    /** Under `mutex_lista`: `if (n_lista++ == 0) first_missile = 1`; the first task goes to the cannon. */
    method Admit(id: nat) returns (first: bool)
      requires Valid() && id in phase && phase[id].Estimated?
      modifies this
      ensures Valid() && (old(Safe()) ==> Safe())
      ensures first <==> old(nLista) == 0
      ensures nLista == old(nLista) + 1
      ensures var p := old(phase)[id];
        phase == old(phase)[id := if first then Firing(p.aim) else Admitted(p.impact, p.aim, p.action)]
      ensures shots == old(shots) && workerCount == old(workerCount)
    {
      first := nLista == 0;
      var p := phase[id];
      var p' := if first then Firing(p.aim) else Admitted(p.impact, p.aim, p.action);
      ghost var s := Snapshot();
      if first {
        AdmitFirstStep(actionInit, s, id);
        holder := Some(id);
      } else {
        AdmitStep(actionInit, s, id);
      }
      RegistryKeep(phase, l.items, id, p');
      phase := phase[id := p'];
      nLista := nLista + 1;
      pending := pending + {id};
      assert Snapshot() == s.(nLista := nLista, phase := phase, pending := pending, holder := holder);
    }

    /** `list_insert(&misile_impact_data, cmp, x->id, lista_misiles)`. */
    method Enqueue(id: nat)
      requires Valid() && id in phase && phase[id].Admitted?
      modifies this, lista
      ensures Valid() && (old(Safe()) ==> Safe())
      ensures var p := old(phase)[id];
        && lista.items == Inserted(old(lista.items), Item(p.impact, id), CmpImpact)
        && phase == old(phase)[id := Queued(p.aim, p.action)]
      ensures nLista == old(nLista) && shots == old(shots) && workerCount == old(workerCount)
    {
      var p := phase[id];
      ghost var s := Snapshot();
      EnqueueStep(actionInit, s, id);
      RegistryKeep(phase, l.items, id, Queued(p.aim, p.action));
      lista.Insert(Item(p.impact, id), CmpImpact);
      phase := phase[id := Queued(p.aim, p.action)];
      assert Snapshot() == s.(items := lista.items, phase := phase);
    }

    /** `sem_wait(&action_command)`: the task has been posted (or its semaphore started positive). */
    method Wait(id: nat)
      requires Valid() && id in phase && phase[id].Queued? && phase[id].action > 0
      modifies this
      ensures Valid() && (old(Safe()) ==> Safe())
      ensures phase == old(phase)[id := Firing(old(phase)[id].aim)]
      ensures nLista == old(nLista) && shots == old(shots) && workerCount == old(workerCount)
    {
      var p' := Firing(phase[id].aim);
      ghost var s := Snapshot();
      WaitStep(actionInit, s, id);
      RegistryKeep(phase, l.items, id, p');
      phase := phase[id := p'];
      holder := Some(id);
      assert Snapshot() == s.(phase := phase, holder := holder);
    }

    /**
     * `cannonMove; cannonFire`, then under `mutex_lista`: `--n_lista`, a
     * non-blocking `list_dequeue(lista_misiles, 0)` and a post of the
     * dequeued item's semaphore. On an empty list the dequeue yields NULL
     * and the post has no semaphore to act on: `posted` is None.
     */
    method Fire(id: nat) returns (posted: Option<nat>)
      requires Valid() && id in phase && phase[id].Firing?
      modifies this, lista
      ensures Valid() && (old(Safe()) ==> Safe())
      ensures shots == old(shots) + [old(phase)[id].aim]
      ensures nLista == old(nLista) - 1
      ensures posted.None? <==> old(lista.items) == []
      ensures old(lista.items) == [] ==> lista.items == [] && phase == old(phase)[id := Monitoring]
      ensures old(lista.items) != [] ==>
        && posted == Some(old(lista.items)[0].owner)
        && lista.items == old(lista.items)[1..]
        && (old(Safe()) ==> old(phase)[posted.value].Queued? && posted.value != id)
        && phase == AfterPost(old(phase), id, posted.value)
        && forall i :: 0 <= i < |old(lista.items)| ==> !EarlierItem(old(lista.items)[i], old(lista.items)[0])
      ensures workerCount == old(workerCount)
    {
      ghost var s := Snapshot();
      var aim := phase[id].aim;
      var next := lista.Dequeue(false);
      if next.Some? {
        var o := next.value.owner;
        FirePostStep(actionInit, s, id);
        RegistryAfterPost(phase, l.items, id, o);
        phase := AfterPost(phase, id, o);
        posted := Some(o);
      } else {
        FireEmptyStep(actionInit, s, id);
        RegistryKeep(phase, l.items, id, Monitoring);
        phase := phase[id := Monitoring];
        posted := None;
      }
      ghost var s' := s.(nLista := s.nLista - 1, phase := phase, pending := s.pending - {id},
                         items := lista.items, holder := posted);
      assert Keeps(actionInit, s, s');
      shots := shots + [aim];
      nLista := nLista - 1;
      pending := pending - {id};
      holder := posted;
      assert Snapshot() == s';
    }

    /** The monitoring loop and the outcome switch, over the given radar readings; `polls` counts the active ones before the exit. */
    method Track(id: nat, readings: seq<MissileState>) returns (polls: nat, exit: Option<MissileState>)
      requires Valid() && id in phase && phase[id] == Monitoring
      modifies this
      ensures Valid() && (old(Safe()) ==> Safe())
      ensures polls <= |readings| && forall i :: 0 <= i < polls ==> IsActive(readings[i])
      ensures exit.Some? <==> polls < |readings|
      ensures exit.Some? ==> exit.value == readings[polls] && !IsActive(exit.value)
      ensures exit.None? ==> forall i :: 0 <= i < |readings| ==> IsActive(readings[i])
      ensures phase == if exit.Some? then old(phase)[id := Finished(ReportOf(exit.value))] else old(phase)
      ensures nLista == old(nLista) && shots == old(shots) && workerCount == old(workerCount)
    {
      polls, exit := Monitor(readings);
      if exit.Some? {
        var p := Finished(ReportOf(exit.value));
        ghost var s := Snapshot();
        QuietStep(actionInit, s, id, p);
        RegistryKeep(phase, l.items, id, p);
        phase := phase[id := p];
        assert Snapshot() == s.(phase := phase);
      }
    }

    /** `list_remove(x, l)`: the task registered itself, so it is found and removed. */
    method Finish(id: nat) returns (found: int)
      requires Valid() && id in phase && phase[id].Finished?
      modifies this, l
      ensures Valid() && (old(Safe()) ==> Safe())
      ensures found == 1 && l.items == Removed(old(l.items), id)
      ensures phase == old(phase)[id := Exited]
      ensures nLista == old(nLista) && shots == old(shots) && workerCount == old(workerCount)
    {
      ghost var s := Snapshot();
      ExitStep(actionInit, s, id);
      RegistryRemove(phase, l.items, id);
      found := l.Remove(id);
      phase := phase[id := Exited];
      assert Snapshot() == s.(phase := phase);
    }
  }

  /**
   * With the intended initial value 0, at most one task is at the cannon,
   * and none while `n_lista` is 0.
   */
  lemma OneCannonHolder(m: Missiles)
    requires m.Valid() && m.Safe()
    ensures forall a, b :: a in m.phase && m.phase[a].Firing? && b in m.phase && m.phase[b].Firing? ==> a == b
    ensures m.nLista == 0 ==> forall id :: id in m.phase ==> !m.phase[id].Firing?
  {
    var s := m.Snapshot();
    forall id | id in m.phase && m.phase[id].Firing?
      ensures m.nLista > 0 && s.holder == Some(id)
    {
      assert Holds(s, id);
      HolderIsPending(m.actionInit, s, id);
    }
  }

  /**
   * As written, `action_command` starts at 1, so a queued task's
   * `sem_wait` returns at once: a first task and a second one that lists
   * itself while the first is still firing are at the cannon together.
   */
  method TwoAtCannonAsWritten() returns (m: Missiles, a: nat, b: nat)
    ensures m.Valid() && m.actionInit == ACTION_INIT_AS_WRITTEN
    ensures a != b && a in m.phase && b in m.phase && m.phase[a].Firing? && m.phase[b].Firing?
  {
    m := new Missiles(ACTION_INIT_AS_WRITTEN);
    a := m.Spawn();
    b := m.Spawn();
    m.Register(a);
    m.Register(b);
    var lostA := m.FirstRead(a, MISSILE_ACTIVE);
    var lostB := m.FirstRead(b, MISSILE_ACTIVE);
    assert Quot(90, 10) == 9;
    var impactA := m.Estimate(a, Timespec(0, 0), 100, Pos(0, 90));
    var impactB := m.Estimate(b, Timespec(0, 0), 100, Pos(5, 90));
    var firstA := m.Admit(a);
    var firstB := m.Admit(b);
    m.Enqueue(b);
    m.Wait(b);
  }
}
