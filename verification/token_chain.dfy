/**
 * The token-passing protocol of 5_EDF_javi_noplanner.c as a sequential
 * state machine. There is no dispatcher: task 0's semaphore is posted
 * before it starts, every other task's starts at 0, and the task holding
 * the cannon fires (if its missile is still active), takes itself off the
 * list `l`, waits for a task to be listed, dequeues the earliest deadline
 * and posts that task's semaphore. Each method is one atomic step of one
 * thread; blocking calls are preconditions. Clock and radar readings are
 * parameters.
 */
module TokenChain {
  import opened CInt
  import opened Simusil
  import opened Time
  import opened Estimator
  import opened WaitList
  import opened Edf
  import opened Tracking

  /** Where a task thread is. */
  datatype Phase =
    | Sampling                           // created by newMissile, sampling the radar
    | Queued(self: Worker, aim: int)     // listed with its deadline, blocked on semMissile
    | Holding(self: Worker, active: bool) // past sem_wait, fired if the missile was active
    | Passing(active: bool)              // list_remove done, handing the cannon on
    | Monitoring                         // handed on, polling the radar
    | Finished(outcome: Outcome)         // outcome reported (Lost: gone after the wait)

  /** Where the single cannon token is (proof bookkeeping only). */
  datatype Token = Posted(id: nat) | HeldBy(id: nat)

  function IdOf(w: Worker): nat { w.id }

  /** The task holds the cannon: past its wait and not yet past its post. */
  predicate Holds(p: Phase) {
    p.Holding? || p.Passing?
  }

  /** The token is in exactly one place, and the semaphores and phases agree with it. */
  ghost predicate TokenCirculates(sem: map<nat, int>, phase: map<nat, Phase>, token: Token) {
    && sem.Keys == phase.Keys
    && token.id in phase
    && (forall id :: id in sem ==> sem[id] == if token == Posted(id) then 1 else 0)
    && (forall id :: id in phase && Holds(phase[id]) ==> token == HeldBy(id))
    && (token.HeldBy? ==> Holds(phase[token.id]))
    && (token.Posted? ==> phase[token.id].Queued? || (token.id == 0 && phase[token.id].Sampling?))
    && (0 in phase && (phase[0].Sampling? || phase[0].Queued?) ==> token == Posted(0))
  }

  /**
   * The list holds queued tasks, once each, sorted by deadline; a queued
   * task is listed unless it has been dequeued and posted, and task 0,
   * posted without being dequeued, stays listed until it removes itself.
   */
  ghost predicate ListWellFormed(phase: map<nat, Phase>, items: seq<Worker>, token: Token) {
    && AllListed(phase, items)
    && QueuedEntries(phase, items, token)
    && HolderEntries(phase, items)
    && DistinctBy(items, IdOf)
    && SortedBy(items, EarlierWorker)
  }

  /** Every entry of the list belongs to a queued task or to a task holding the cannon. */
  ghost predicate AllListed(phase: map<nat, Phase>, items: seq<Worker>) {
    forall i :: 0 <= i < |items| ==> Listed(phase, items[i])
  }

  /** A queued task is listed unless it has been dequeued and posted; task 0 is listed while queued. */
  ghost predicate QueuedEntries(phase: map<nat, Phase>, items: seq<Worker>, token: Token) {
    forall id :: id in phase && phase[id].Queued? ==>
      (phase[id].self.id == id && (phase[id].self in items <==> id == 0 || token != Posted(id)))
  }

  /** A task holding the cannon is still listed only when it is task 0. */
  ghost predicate HolderEntries(phase: map<nat, Phase>, items: seq<Worker>) {
    forall id :: id in phase && phase[id].Holding? ==>
      (phase[id].self.id == id && (phase[id].self in items <==> id == 0))
  }

  /** w is the list entry of a task that is queued, or is task 0 holding the cannon. */
  ghost predicate Listed(phase: map<nat, Phase>, w: Worker) {
    w.id in phase && (phase[w.id].Queued? || phase[w.id].Holding?) && phase[w.id].self == w
  }

  ghost predicate ChainInv(n: nat, sem: map<nat, int>, phase: map<nat, Phase>, items: seq<Worker>, token: Token) {
    && TokenCirculates(sem, phase, token)
    && ListWellFormed(phase, items, token)
    && (forall id: int :: id in phase <==> 0 <= id < n)
  }

  lemma InitStep()
    ensures ChainInv(1, map[0 := 1], map[0 := Sampling], [], Posted(0))
  {
  }

  lemma SpawnStep(n: nat, sem: map<nat, int>, phase: map<nat, Phase>, items: seq<Worker>, token: Token)
    requires ChainInv(n, sem, phase, items, token)
    ensures n !in phase
    ensures ChainInv(n + 1, sem[n := 0], phase[n := Sampling], items, token)
  {
  }

  /** A task's first listing moves no token. */
  lemma EnqueueTokens(sem: map<nat, int>, phase: map<nat, Phase>, token: Token, id: nat, q: Phase)
    requires TokenCirculates(sem, phase, token)
    requires id in phase && phase[id] == Sampling && q.Queued?
    ensures TokenCirculates(sem, phase[id := q], token)
    ensures token == Posted(id) ==> id == 0
  {
  }

  /** `list_insert` of a sampling task's entry keeps the list well formed. */
  lemma EnqueueListed(phase: map<nat, Phase>, items: seq<Worker>, token: Token, id: nat, w: Worker, aim: int)
    requires ListWellFormed(phase, items, token)
    requires id in phase && phase[id] == Sampling && w.id == id
    requires token == Posted(id) ==> id == 0
    ensures ListWellFormed(phase[id := Queued(w, aim)], Inserted(items, w, CmpDeadline), token)
  {
    var phase', items' := phase[id := Queued(w, aim)], Inserted(items, w, CmpDeadline);
    EdfOrder();
    InsertKeepsSorted(items, w, CmpDeadline, EarlierWorker);
    forall i | 0 <= i < |items|
      ensures IdOf(items[i]) != IdOf(w)
    {
      assert Listed(phase, items[i]);
    }
    InsertedDistinct(items, w, CmpDeadline, IdOf);
    forall i | 0 <= i < |items'|
      ensures Listed(phase', items'[i])
    {
      if items'[i] != w {
        var k :| 0 <= k < |items| && items[k] == items'[i];
        assert Listed(phase, items[k]);
      }
    }
    forall j | j in phase' && phase'[j].Queued?
      ensures phase'[j].self.id == j && (phase'[j].self in items' <==> j == 0 || token != Posted(j))
    {
      InsertedMember(items, w, CmpDeadline, phase'[j].self);
      if j != id {
        assert phase'[j] == phase[j];
      }
    }
    forall j | j in phase' && phase'[j].Holding?
      ensures phase'[j].self.id == j && (phase'[j].self in items' <==> j == 0)
    {
      InsertedMember(items, w, CmpDeadline, phase'[j].self);
      assert phase'[j] == phase[j];
    }
  }

  lemma EnqueueStep(n: nat, sem: map<nat, int>, phase: map<nat, Phase>, items: seq<Worker>, token: Token,
                    id: nat, w: Worker, aim: int)
    requires ChainInv(n, sem, phase, items, token)
    requires id in phase && phase[id] == Sampling && w.id == id
    ensures ChainInv(n, sem, phase[id := Queued(w, aim)], Inserted(items, w, CmpDeadline), token)
  {
    EnqueueTokens(sem, phase, token, id, Queued(w, aim));
    EnqueueListed(phase, items, token, id, w, aim);
  }

  lemma WakeStep(n: nat, sem: map<nat, int>, phase: map<nat, Phase>, items: seq<Worker>, token: Token,
                 id: nat, active: bool)
    requires ChainInv(n, sem, phase, items, token)
    requires id in phase && phase[id].Queued? && sem[id] > 0
    ensures token == Posted(id)
    ensures ChainInv(n, sem[id := sem[id] - 1], phase[id := Holding(phase[id].self, active)], items, HeldBy(id))
  {
    var sem', phase' := sem[id := sem[id] - 1], phase[id := Holding(phase[id].self, active)];
    assert TokenCirculates(sem', phase', HeldBy(id));
    forall j | j in phase' && phase'[j].Queued?
      ensures phase'[j].self.id == j && (phase'[j].self in items <==> j == 0 || HeldBy(id) != Posted(j))
    {
      assert phase'[j] == phase[j];
    }
    assert forall j :: j in phase' && phase'[j].Holding? ==> j == id;
    assert ListWellFormed(phase', items, HeldBy(id));
  }

  /** After list_remove of the holder's own entry, no entry of the list carries the holder's id. */
  lemma RemovedHolderGone(phase: map<nat, Phase>, items: seq<Worker>, id: nat)
    requires id in phase && phase[id].Holding?
    requires AllListed(phase, items) && DistinctBy(items, IdOf)
    ensures forall i :: 0 <= i < |Removed(items, phase[id].self)| ==> Removed(items, phase[id].self)[i].id != id
  {
    var self := phase[id].self;
    var items' := Removed(items, self);
    if self in items {
      var k := FirstIndex(items, self);
      RemovedAt(items, self, k);
      forall i | 0 <= i < |items'|
        ensures items'[i].id != id
      {
        var j := if i < k then i else i + 1;
        CutIndex(items, k, i);
        assert Listed(phase, items[j]) && Listed(phase, items[k]);
        assert IdOf(items[j]) != IdOf(items[k]);
      }
    } else {
      forall i | 0 <= i < |items|
        ensures items[i].id != id
      {
        assert Listed(phase, items[i]);
      }
    }
  }

  /** The entries left after the holder's list_remove still belong to queued tasks (or task 0). */
  lemma RemovedListed(phase: map<nat, Phase>, items: seq<Worker>, id: nat)
    requires id in phase && phase[id].Holding?
    requires AllListed(phase, items) && DistinctBy(items, IdOf)
    ensures AllListed(phase[id := Passing(phase[id].active)], Removed(items, phase[id].self))
  {
    var self := phase[id].self;
    var phase', items' := phase[id := Passing(phase[id].active)], Removed(items, self);
    RemovedHolderGone(phase, items, id);
    forall i | 0 <= i < |items'|
      ensures Listed(phase', items'[i])
    {
      RemovedMember(items, self, items'[i]);
      var k :| 0 <= k < |items| && items[k] == items'[i];
      assert Listed(phase, items[k]);
    }
  }

  /** A queued task's entry is untouched by another task's list_remove. */
  lemma RemovedQueued(phase: map<nat, Phase>, items: seq<Worker>, token: Token, id: nat)
    requires id in phase && phase[id].Holding? && phase[id].self.id == id
    requires QueuedEntries(phase, items, token)
    ensures QueuedEntries(phase[id := Passing(phase[id].active)], Removed(items, phase[id].self), token)
  {
    var self := phase[id].self;
    var phase', items' := phase[id := Passing(phase[id].active)], Removed(items, self);
    forall j | j in phase' && phase'[j].Queued?
      ensures phase'[j].self.id == j && (phase'[j].self in items' <==> j == 0 || token != Posted(j))
    {
      assert phase'[j] == phase[j];
      RemovedMember(items, self, phase[j].self);
    }
  }

  /** The holder's list_remove moves no token, and it is the only task holding the cannon. */
  lemma PassingTokens(sem: map<nat, int>, phase: map<nat, Phase>, token: Token, id: nat, active: bool)
    requires TokenCirculates(sem, phase, token)
    requires id in phase && phase[id].Holding?
    ensures token == HeldBy(id)
    ensures TokenCirculates(sem, phase[id := Passing(active)], token)
    ensures forall j :: j in phase && phase[j].Holding? ==> j == id
  {
  }

  /** The holder's list_remove of its own entry keeps the list well formed. */
  lemma RemoveListed(phase: map<nat, Phase>, items: seq<Worker>, token: Token, id: nat)
    requires ListWellFormed(phase, items, token)
    requires id in phase && phase[id].Holding?
    requires forall j :: j in phase && phase[j].Holding? ==> j == id
    ensures ListWellFormed(phase[id := Passing(phase[id].active)], Removed(items, phase[id].self), token)
  {
    var self := phase[id].self;
    var phase', items' := phase[id := Passing(phase[id].active)], Removed(items, self);
    RemovedKeeps(items, self, EarlierWorker, IdOf);
    RemovedListed(phase, items, id);
    RemovedQueued(phase, items, token, id);
    assert forall j :: j in phase' ==> !phase'[j].Holding?;
  }

  lemma RemoveStep(n: nat, sem: map<nat, int>, phase: map<nat, Phase>, items: seq<Worker>, token: Token, id: nat)
    requires ChainInv(n, sem, phase, items, token)
    requires id in phase && phase[id].Holding?
    ensures token == HeldBy(id)
    ensures phase[id].self in items <==> id == 0
    ensures ChainInv(n, sem, phase[id := Passing(phase[id].active)], Removed(items, phase[id].self), token)
  {
    PassingTokens(sem, phase, token, id, phase[id].active);
    RemoveListed(phase, items, token, id);
  }

  /** The hand-over: the holder's post moves the token to the dequeued task. */
  lemma PassTokens(sem: map<nat, int>, phase: map<nat, Phase>, token: Token, id: nat, next: nat, p: Phase)
    requires TokenCirculates(sem, phase, token)
    requires id in phase && phase[id].Passing?
    requires next in phase && phase[next].Queued?
    requires p == Monitoring || p.Finished?
    ensures next in sem && next != id && token == HeldBy(id)
    ensures next != 0
    ensures TokenCirculates(sem[next := sem[next] + 1], phase[id := p], Posted(next))
    ensures forall j :: j in phase ==> !phase[j].Holding?
  {
    assert token == HeldBy(id);
  }

  /** `list_dequeue` by the holder keeps the list well formed once the head's task is posted. */
  lemma PassListed(phase: map<nat, Phase>, items: seq<Worker>, token: Token, id: nat, p: Phase)
    requires ListWellFormed(phase, items, token) && token == HeldBy(id)
    requires id in phase && phase[id].Passing? && items != [] && items[0].id != 0
    requires forall j :: j in phase ==> !phase[j].Holding?
    requires p == Monitoring || p.Finished?
    ensures ListWellFormed(phase[id := p], items[1..], Posted(items[0].id))
  {
    var next := items[0];
    var phase', items', token' := phase[id := p], items[1..], Posted(next.id);
    DequeueKeepsSorted(items);
    TailDistinct(items, IdOf);
    assert Listed(phase, next);
    forall i | 0 <= i < |items'|
      ensures Listed(phase', items'[i])
    {
      assert items'[i] == items[i + 1];
      assert Listed(phase, items[i + 1]);
    }
    forall j | j in phase' && phase'[j].Queued?
      ensures phase'[j].self.id == j && (phase'[j].self in items' <==> j == 0 || token' != Posted(j))
    {
      assert phase'[j] == phase[j];
      if j == next.id {
        assert phase[j].self == next;
        assert forall k :: 0 <= k < |items'| ==> IdOf(items'[k]) != IdOf(next);
      } else {
        assert phase[j].self != next;
        assert phase[j].self in items <==> phase[j].self in items';
      }
    }
  }

  lemma PassStep(n: nat, sem: map<nat, int>, phase: map<nat, Phase>, items: seq<Worker>, token: Token, id: nat)
    requires ChainInv(n, sem, phase, items, token)
    requires id in phase && phase[id].Passing? && items != []
    ensures items[0].id in sem && items[0].id != id
    ensures forall i :: 0 <= i < |items| ==> !Earlier(items[i].deadline, items[0].deadline)
    ensures ChainInv(n, sem[items[0].id := sem[items[0].id] + 1],
                     phase[id := if phase[id].active then Monitoring else Finished(Lost)],
                     items[1..], Posted(items[0].id))
  {
    var p := if phase[id].active then Monitoring else Finished(Lost);
    HeadIsEarliest(items);
    assert Listed(phase, items[0]);
    PassTokens(sem, phase, token, id, items[0].id, p);
    PassListed(phase, items, token, id, p);
  }

  lemma TrackStep(n: nat, sem: map<nat, int>, phase: map<nat, Phase>, items: seq<Worker>, token: Token, id: nat, o: Outcome)
    requires ChainInv(n, sem, phase, items, token)
    requires id in phase && phase[id] == Monitoring
    ensures ChainInv(n, sem, phase[id := Finished(o)], items, token)
  {
    var phase' := phase[id := Finished(o)];
    forall j | j in phase' && phase'[j].Queued?
      ensures phase'[j].self.id == j && (phase'[j].self in items <==> j == 0 || token != Posted(j))
    {
      assert phase'[j] == phase[j];
    }
  }

  class Chain {
    /** `workerCount`: ids 0..workerCount-1 have been handed out. */
    var workerCount: nat
    /** Each task's `semMissile`. */
    var sem: map<nat, int>
    var phase: map<nat, Phase>
    /** Cannon positions fired at, in order. */
    var shots: seq<int>
    /** The list `l` of tasks waiting for the cannon, by deadline. */
    const l: List<Worker>
    ghost var token: Token

    ghost predicate Valid()
      reads this, l
    {
      ChainInv(workerCount, sem, phase, l.items, token)
    }

    /** main: `x = newMissile(workerCount++, ...); sem_post(&x->semMissile)`: task 0 may go first. */
    constructor ()
      ensures Valid()
      ensures workerCount == 1 && phase == map[0 := Sampling] && sem == map[0 := 1]
      ensures shots == [] && l.items == [] && fresh(l)
    {
      workerCount := 1;
      phase := map[0 := Sampling];
      sem := map[0 := 1];
      shots := [];
      l := new List();
      token := Posted(0);
      new;
      InitStep();
    }

    /** main's loop: `newMissile(workerCount++, ...)` with `sem_init(&x->semMissile, 0, 0)`. */
    method Spawn() returns (id: nat)
      requires Valid()
      modifies this
      ensures Valid()
      ensures id == old(workerCount) && workerCount == id + 1 && id !in old(phase)
      ensures phase == old(phase)[id := Sampling] && sem == old(sem)[id := 0]
      ensures shots == old(shots)
    {
      SpawnStep(workerCount, sem, phase, l.items, token);
      id := workerCount;
      workerCount := workerCount + 1;
      phase := phase[id := Sampling];
      sem := sem[id := 0];
    }

    /**
     * Two radar samples DELTATIME apart (`start` is the first clock reading),
     * the integer estimate, the deadline and `list_insert(x, compareDeadline,
     * x->id, l)`. The deadline is the normalised one (see
     * Estimator.Deadline); the cannon will aim at the first sample's x.
     */
    method Enqueue(id: nat, start: Timespec, p0: Pos, p1: Pos) returns (deadline: Timespec)
      requires Valid() && id in phase && phase[id] == Sampling
      requires ClockReading(start) && start.sec < LONG_MAX / 2
      requires EstimateDefined(p0.y, p1.y, DELTATIME_NOPLANNER)
      modifies this, l
      ensures Valid()
      ensures Normalized(deadline)
      ensures TotalNs(deadline) == TotalNs(start) + DELTATIME_NOPLANNER + RemainingTicks(p0.y, p1.y, DELTATIME_NOPLANNER)
      ensures l.items == Inserted(old(l.items), Worker(id, deadline), CmpDeadline)
      ensures phase == old(phase)[id := Queued(Worker(id, deadline), p0.x)]
      ensures sem == old(sem) && shots == old(shots) && workerCount == old(workerCount)
    {
      var startThread := TimeAdd(start, Timespec(0, DELTATIME_NOPLANNER));
      var timeRemaining := RemainingTicks(p0.y, p1.y, DELTATIME_NOPLANNER);
      deadline := Deadline(startThread, timeRemaining);
      var w := Worker(id, deadline);
      EnqueueStep(workerCount, sem, phase, l.items, token, id, w, p0.x);
      l.Insert(w, CmpDeadline);
      phase := phase[id := Queued(w, p0.x)];
    }

    /**
     * `sem_wait(&x->semMissile)`, the re-read, and, when the missile is
     * still active, `cannonMove(x->c, p0.x); cannonFire(x->c)`.
     */
    method Wake(id: nat, sm: MissileState) returns (active: bool)
      requires Valid() && id in phase && phase[id].Queued? && sem[id] > 0
      modifies this
      ensures Valid()
      ensures active == IsActive(sm)
      ensures sem == old(sem)[id := old(sem)[id] - 1]
      ensures shots == if active then old(shots) + [old(phase)[id].aim] else old(shots)
      ensures phase == old(phase)[id := Holding(old(phase)[id].self, active)]
      ensures workerCount == old(workerCount)
    {
      active := IsActive(sm);
      WakeStep(workerCount, sem, phase, l.items, token, id, active);
      sem := sem[id := sem[id] - 1];
      if active {
        shots := shots + [phase[id].aim];
      }
      phase := phase[id := Holding(phase[id].self, active)];
      token := HeldBy(id);
    }

    /**
     * `list_remove(x, l)`: only task 0, which went first without being
     * dequeued, is still listed; every other holder was taken off the list
     * by its predecessor.
     */
    method RemoveSelf(id: nat) returns (found: int)
      requires Valid() && id in phase && phase[id].Holding?
      modifies this, l
      ensures Valid()
      ensures found == if id == 0 then 1 else 0
      ensures l.items == Removed(old(l.items), old(phase)[id].self)
      ensures phase == old(phase)[id := Passing(old(phase)[id].active)]
      ensures sem == old(sem) && shots == old(shots) && workerCount == old(workerCount)
    {
      RemoveStep(workerCount, sem, phase, l.items, token, id);
      found := l.Remove(phase[id].self);
      phase := phase[id := Passing(phase[id].active)];
    }

    /**
     * `nextMissile = list_dequeue(l, 1); sem_post(&nextMissile->semMissile)`:
     * the holder blocks until a task is listed and hands the cannon to the
     * earliest deadline. It then monitors only if its missile was active.
     */
    method PassOn(id: nat) returns (next: Worker)
      requires Valid() && id in phase && phase[id].Passing? && l.items != []
      modifies this, l
      ensures Valid()
      ensures next == old(l.items)[0] && l.items == old(l.items)[1..]
      ensures forall i :: 0 <= i < |old(l.items)| ==> !Earlier(old(l.items)[i].deadline, next.deadline)
      ensures next.id != id && sem == old(sem)[next.id := old(sem)[next.id] + 1]
      ensures phase == old(phase)[id := if old(phase)[id].active then Monitoring else Finished(Lost)]
      ensures shots == old(shots) && workerCount == old(workerCount)
    {
      ghost var items := l.items;
      PassStep(workerCount, sem, phase, items, token, id);
      var head := l.Dequeue(true);
      next := head.value;
      sem := sem[next.id := sem[next.id] + 1];
      phase := phase[id := if phase[id].active then Monitoring else Finished(Lost)];
      token := Posted(next.id);
      assert next == items[0] && l.items == items[1..];
    }

    /** The monitoring loop and the outcome switch, over the given radar readings; `polls` counts the active ones before the exit. */
    method Track(id: nat, readings: seq<MissileState>) returns (polls: nat, exit: Option<MissileState>)
      requires Valid() && id in phase && phase[id] == Monitoring
      modifies this
      ensures Valid()
      ensures polls <= |readings| && forall i :: 0 <= i < polls ==> IsActive(readings[i])
      ensures exit.Some? <==> polls < |readings|
      ensures exit.Some? ==> exit.value == readings[polls] && !IsActive(exit.value)
      ensures exit.None? ==> forall i :: 0 <= i < |readings| ==> IsActive(readings[i])
      ensures phase == if exit.Some? then old(phase)[id := Finished(ReportOf(exit.value))] else old(phase)
      ensures sem == old(sem) && shots == old(shots) && workerCount == old(workerCount)
    {
      polls, exit := Monitor(readings);
      if exit.Some? {
        TrackStep(workerCount, sem, phase, l.items, token, id, ReportOf(exit.value));
        phase := phase[id := Finished(ReportOf(exit.value))];
      }
    }
  }

  /**
   * Exactly one grant circulates: at any time exactly one task either has
   * its semaphore posted or holds the cannon, and no semaphore is above 1.
   */
  lemma OneGrant(c: Chain)
    requires c.Valid()
    ensures forall id :: id in c.sem ==> 0 <= c.sem[id] <= 1
    ensures forall a, b ::
      && a in c.phase && (c.sem[a] > 0 || Holds(c.phase[a]))
      && b in c.phase && (c.sem[b] > 0 || Holds(c.phase[b]))
      ==> a == b
    ensures exists id :: id in c.phase && (c.sem[id] > 0 || Holds(c.phase[id]))
  {
    var id := c.token.id;
    assert id in c.phase && (c.sem[id] > 0 || Holds(c.phase[id]));
  }
}
