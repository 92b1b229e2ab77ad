/**
 * The SCAN ("elevator") planner of 6_scheduler_javi.c. Each task records,
 * when it lists itself, its target's x and the cannon's last position and
 * direction; `comparePosition` orders the list along the cannon's sweep
 * from that snapshot. A planner thread hands the cannon out through the
 * `semList` semaphore, as the dispatcher of the EDF driver does, and the
 * task that fires updates the cannon's position and direction.
 */
module ScanPlanner {
  import opened Simusil
  import opened WaitList
  import opened Tracking

  /** The cannon's directions. */
  const RIGHT: int := 1
  const LEFT: int := 0

  /** What `comparePosition` reads of a task's `Args_t`. */
  datatype Request = Request(id: nat, posX: int, movingTo: int, cannonPosX: int)

  /**
   * `comparePosition(elem, new)`. Only the new request's snapshot of the
   * cannon (direction and position) is consulted; any direction other than
   * RIGHT takes the LEFT branch.
   */
  function ComparePosition(elem: Request, newReq: Request): (r: int)
    ensures r == 0 || r == 1
  {
    if newReq.movingTo == RIGHT then
      if newReq.posX > newReq.cannonPosX then
        if elem.posX >= newReq.cannonPosX then (if elem.posX <= newReq.posX then 0 else 1)
        else 1
      else
        if elem.posX >= newReq.cannonPosX then 0
        else (if elem.posX < newReq.posX then 1 else 0)
    else
      if newReq.posX < newReq.cannonPosX then
        if elem.posX <= newReq.cannonPosX then (if elem.posX >= newReq.posX then 0 else 1)
        else 1
      else
        if elem.posX <= newReq.cannonPosX then 0
        else (if elem.posX > newReq.posX then 1 else 0)
  }

  /**
   * Moving right towards a target ahead of the cannon, the new request goes
   * after the listed ones between the cannon and itself, and before those
   * beyond it or behind the cannon.
   */
  lemma ComparePositionAhead(elem: Request, newReq: Request)
    requires newReq.movingTo == RIGHT && newReq.posX > newReq.cannonPosX
    ensures ComparePosition(elem, newReq) == 0 <==> newReq.cannonPosX <= elem.posX <= newReq.posX
  {
  }

  /**
   * Moving right with the target at or behind the cannon, the new request
   * goes after every listed one at or ahead of the cannon; among those
   * behind, it goes before the ones further behind than itself, so the
   * return sweep is served in descending x.
   */
  lemma ComparePositionBehind(elem: Request, newReq: Request)
    requires newReq.movingTo == RIGHT && newReq.posX <= newReq.cannonPosX
    ensures elem.posX >= newReq.cannonPosX ==> ComparePosition(elem, newReq) == 0
    ensures elem.posX < newReq.cannonPosX ==> (ComparePosition(elem, newReq) == 1 <==> elem.posX < newReq.posX)
  {
  }

  function Mirror(r: Request): Request {
    Request(r.id, -r.posX, RIGHT, -r.cannonPosX)
  }

  /** LEFT is the mirror image of RIGHT: negate every x and compare as if moving right. */
  lemma ComparePositionMirror(elem: Request, newReq: Request)
    requires newReq.movingTo != RIGHT
    ensures ComparePosition(elem, newReq) == ComparePosition(Mirror(elem), Mirror(newReq))
  {
  }

  /**
   * The position of x along the sweep that starts at c going in direction
   * dir: first the points from c onwards in that direction, nearest first,
   * then the points behind c, nearest first.
   */
  function SweepLeg(x: int, dir: int, c: int): (leg: int)
    ensures leg == 0 || leg == 1
  {
    if dir == RIGHT then (if x >= c then 0 else 1) else (if x <= c then 0 else 1)
  }

  function SweepDistance(x: int, dir: int, c: int): (d: int)
    ensures SweepLeg(x, dir, c) == 0 ==> d >= 0
  {
    if SweepLeg(x, dir, c) == 0 then (if dir == RIGHT then x - c else c - x)
    else (if dir == RIGHT then c - x else x - c)
  }

  /** a is served strictly before b on the sweep from c in direction dir. */
  predicate SweepBefore(a: int, b: int, dir: int, c: int) {
    SweepLeg(a, dir, c) < SweepLeg(b, dir, c) ||
    (SweepLeg(a, dir, c) == SweepLeg(b, dir, c) && SweepDistance(a, dir, c) < SweepDistance(b, dir, c))
  }

  /** For a fixed snapshot the sweep order is a strict weak order on positions. */
  lemma SweepIsStrictWeakOrder(dir: int, c: int)
    ensures forall a, b :: SweepBefore(a, b, dir, c) ==> !SweepBefore(b, a, dir, c)
    ensures forall a, b, x :: !SweepBefore(a, b, dir, c) && !SweepBefore(b, x, dir, c) ==> !SweepBefore(a, x, dir, c)
  {
  }

  /**
   * Away from the cannon's own position, `comparePosition` answers exactly
   * "the new target comes strictly before the listed one on the sweep".
   */
  lemma ComparePositionIsSweepOrder(elem: Request, newReq: Request)
    requires newReq.posX != newReq.cannonPosX
    ensures ComparePosition(elem, newReq) == 1 <==>
      SweepBefore(newReq.posX, elem.posX, newReq.movingTo, newReq.cannonPosX)
  {
  }

  /**
   * A new target exactly at the cannon's position is placed as if it were
   * just behind it: before the listed targets behind the cannon and after
   * all those ahead, including ones it would reach first.
   */
  lemma ComparePositionAtCannon(elem: Request, newReq: Request)
    requires newReq.posX == newReq.cannonPosX
    ensures ComparePosition(elem, newReq) == 1 <==>
      SweepLeg(elem.posX, newReq.movingTo, newReq.cannonPosX) == 1
  {
  }

  /** Where a task thread (`searchAndDestroy`) is. */
  datatype Phase =
    | Sampling                   // created, reading the radar
    | Queued                     // listed with its snapshot, blocked on semMissile
    | Holding(x: int)            // granted, missile active at x: aiming and firing
    | Monitoring                 // fired and posted semList, polling the radar
    | Finished(outcome: Outcome) // outcome reported (Lost: gone after the wait)
    | Exited                     // list_remove done, thread gone

  /** Where the single cannon token is (proof bookkeeping only). */
  datatype Token = InSemList | WithPlanner | Posted(id: nat) | HeldBy(id: nat)

  function IdOf(r: Request): nat { r.id }

  /**
   * The list holds the snapshots of queued tasks that have not been posted
   * yet, one per task.
   */
  ghost predicate Listing(items: seq<Request>, phase: map<nat, Phase>, args: map<nat, Request>, token: Token) {
    && (forall i :: 0 <= i < |items| ==>
          var id := items[i].id; id in phase && phase[id] == Queued && id in args && args[id] == items[i])
    && (forall i :: 0 <= i < |items| ==> token != Posted(items[i].id))
    && (forall id :: id in args ==> args[id].id == id)
    && DistinctBy(items, IdOf)
  }

  /** The planner's state at one instant, as values: the fields of `Planner` and the list's contents. */
  datatype State = State(
    semList: int, planning: bool, sem: map<nat, int>, phase: map<nat, Phase>,
    args: map<nat, Request>, workerCount: nat, dir: int, token: Token, items: seq<Request>)

  /**
   * The single cannon token: `semList` holds it, or the planner between its
   * wait and its post, or the one task whose `semMissile` was posted, or the
   * one task past its wait with an active missile.
   */
  ghost predicate TokenHeld(s: State) {
    && s.semList == (if s.token == InSemList then 1 else 0)
    && (s.planning <==> s.token == WithPlanner)
    && s.sem.Keys == s.phase.Keys
    && (forall id :: id in s.sem ==> s.sem[id] == if s.token == Posted(id) then 1 else 0)
    && (forall id :: id in s.phase && s.phase[id].Holding? ==> s.token == HeldBy(id))
    && (s.token.Posted? ==> s.token.id in s.phase && s.phase[s.token.id] == Queued)
    && (s.token.HeldBy? ==> s.token.id in s.phase && s.phase[s.token.id].Holding?)
  }

  ghost predicate Inv(s: State) {
    && TokenHeld(s)
    && Listing(s.items, s.phase, s.args, s.token)
    && (forall id: int :: id in s.phase <==> 0 <= id < s.workerCount)
    && (s.dir == RIGHT || s.dir == LEFT)
  }

  // One lemma per step of a thread: from a state satisfying the invariant
  // in which the step can run, the step leads to a state satisfying it.

  lemma SpawnStep(s: State)
    requires Inv(s)
    ensures s.workerCount !in s.phase
    ensures Inv(s.(workerCount := s.workerCount + 1, phase := s.phase[s.workerCount := Sampling],
               sem := s.sem[s.workerCount := 0]))
  {
  }

  lemma InsertStep(s: State, req: Request)
    requires Inv(s) && req.id in s.phase && s.phase[req.id] == Sampling
    ensures Inv(s.(items := Inserted(s.items, req, ComparePosition),
                   phase := s.phase[req.id := Queued], args := s.args[req.id := req]))
  {
    InsertedDistinct(s.items, req, ComparePosition, IdOf);
    var s' := s.(items := Inserted(s.items, req, ComparePosition),
                 phase := s.phase[req.id := Queued], args := s.args[req.id := req]);
    forall i | 0 <= i < |s'.items|
      ensures var id := s'.items[i].id;
        id in s'.phase && s'.phase[id] == Queued && id in s'.args && s'.args[id] == s'.items[i]
      ensures s'.token != Posted(s'.items[i].id)
    {
      if s'.items[i] != req {
        var k :| 0 <= k < |s.items| && s.items[k] == s'.items[i];
        assert s.items[k].id != req.id;
      }
    }
  }

  lemma TakeStep(s: State)
    requires Inv(s) && !s.planning && s.semList > 0
    ensures Inv(s.(semList := s.semList - 1, planning := true, token := WithPlanner))
  {
  }

  lemma GrantStep(s: State)
    requires Inv(s) && s.planning && s.items != []
    ensures s.items[0].id in s.sem
    ensures var next := s.items[0];
      Inv(s.(items := s.items[1..], sem := s.sem[next.id := s.sem[next.id] + 1],
             planning := false, token := Posted(next.id)))
  {
    TailDistinct(s.items, IdOf);
  }

  lemma WakeStep(s: State, id: nat, lost: bool, x: int)
    requires Inv(s) && id in s.phase && s.phase[id] == Queued && s.sem[id] > 0
    ensures var s1 := s.(sem := s.sem[id := s.sem[id] - 1]);
      Inv(if lost then s1.(semList := s.semList + 1, phase := s.phase[id := Finished(Lost)], token := InSemList)
          else s1.(phase := s.phase[id := Holding(x)], token := HeldBy(id)))
  {
  }

  lemma FireStep(s: State, id: nat, dir: int)
    requires Inv(s) && id in s.phase && s.phase[id].Holding? && (dir == RIGHT || dir == LEFT)
    ensures Inv(s.(dir := dir, semList := s.semList + 1, phase := s.phase[id := Monitoring], token := InSemList))
  {
  }

  lemma TrackStep(s: State, id: nat, outcome: Outcome)
    requires Inv(s) && id in s.phase && s.phase[id] == Monitoring
    ensures Inv(s.(phase := s.phase[id := Finished(outcome)]))
  {
  }

  /** A task past its wait is no longer listed: removing its request changes nothing. */
  lemma FinishStep(s: State, id: nat)
    requires Inv(s) && id in s.phase && s.phase[id].Finished? && id in s.args
    ensures s.args[id] !in s.items && Removed(s.items, s.args[id]) == s.items
    ensures Inv(s.(phase := s.phase[id := Exited]))
  {
    NotListed(s, id);
    ExitTokenHeld(s, id);
    ExitListing(s.items, s.phase, s.args, s.token, id);
    var s' := s.(phase := s.phase[id := Exited]);
    assert forall k: int :: k in s'.phase <==> 0 <= k < s'.workerCount;
    InvParts(s');
  }

  /** Inv from its four parts. */
  lemma InvParts(s: State)
    requires TokenHeld(s) && Listing(s.items, s.phase, s.args, s.token)
    requires forall id: int :: id in s.phase <==> 0 <= id < s.workerCount
    requires s.dir == RIGHT || s.dir == LEFT
    ensures Inv(s)
  {
  }

  lemma ExitTokenHeld(s: State, id: nat)
    requires TokenHeld(s) && id in s.phase && s.phase[id].Finished?
    ensures TokenHeld(s.(phase := s.phase[id := Exited]))
  {
  }

  lemma ExitListing(items: seq<Request>, phase: map<nat, Phase>, args: map<nat, Request>, token: Token, id: nat)
    requires Listing(items, phase, args, token) && id in phase && phase[id] != Queued
    ensures Listing(items, phase[id := Exited], args, token)
  {
  }

  lemma NotListed(s: State, id: nat)
    requires Listing(s.items, s.phase, s.args, s.token)
    requires id in s.phase && s.phase[id] != Queued && id in s.args
    ensures s.args[id] !in s.items
  {
    if i :| 0 <= i < |s.items| && s.items[i] == s.args[id] {
      assert false;
    }
  }

  class Planner {
    /** `semList`. */
    var semList: int
    /** The planner thread is between sem_wait(&semList) and its sem_post. */
    var planning: bool
    /** Each task's `semMissile`. */
    var sem: map<nat, int>
    var phase: map<nat, Phase>
    /** Each listed task's snapshot (`x->posX`, `x->cannonMovingTo`, `x->cannonPosX`). */
    var args: map<nat, Request>
    /** `workerCount`: ids 0..workerCount-1 have been handed out. */
    var workerCount: nat
    /** The globals `cannonLastPosX` and `cannonMovingDir`. */
    var cannonLastPosX: int
    var cannonMovingDir: int
    /** Cannon positions fired at, in order. */
    var shots: seq<int>
    /** The list `l`, ordered by `comparePosition`. */
    const l: List<Request>
    ghost var token: Token

    ghost function Snapshot(): State
      reads this, l
    {
      State(semList, planning, sem, phase, args, workerCount, cannonMovingDir, token, l.items)
    }

    ghost predicate Valid()
      reads this, l
    {
      Inv(Snapshot())
    }

    /** The globals' initial values and `sem_init(&semList, 0, 1)`. */
    constructor ()
      ensures Valid()
      ensures semList == 1 && !planning && workerCount == 0
      ensures cannonLastPosX == -1 && cannonMovingDir == RIGHT
      ensures phase == map[] && sem == map[] && args == map[] && shots == []
      ensures l.items == [] && fresh(l)
    {
      semList := 1;
      planning := false;
      sem := map[];
      phase := map[];
      args := map[];
      workerCount := 0;
      cannonLastPosX := -1;
      cannonMovingDir := RIGHT;
      shots := [];
      l := new List();
      token := InSemList;
    }

    /** main: `x->id = workerCount++; sem_init(&x->semMissile, 0, 0)` and the thread starts. */
    method Spawn() returns (id: nat)
      requires Valid()
      modifies this
      ensures Valid()
      ensures id == old(workerCount) && workerCount == id + 1 && id !in old(phase)
      ensures phase == old(phase)[id := Sampling] && sem == old(sem)[id := 0]
      ensures semList == old(semList) && planning == old(planning) && args == old(args)
      ensures cannonLastPosX == old(cannonLastPosX) && cannonMovingDir == old(cannonMovingDir) && shots == old(shots)
    {
      ghost var s := Snapshot();
      SpawnStep(s);
      id := workerCount;
      workerCount := workerCount + 1;
      phase := phase[id := Sampling];
      sem := sem[id := 0];
      assert Snapshot() == s.(workerCount := workerCount, phase := phase, sem := sem);
    }

    /**
     * The task snapshots its target's x and the cannon's direction and last
     * position, then `list_insert(x, comparePosition, x->id, l)`.
     */
    method Insert(id: nat, posX: int) returns (req: Request)
      requires Valid() && id in phase && phase[id] == Sampling
      modifies this, l
      ensures Valid()
      ensures req == Request(id, posX, cannonMovingDir, cannonLastPosX)
      ensures l.items == Inserted(old(l.items), req, ComparePosition)
      ensures phase == old(phase)[id := Queued] && args == old(args)[id := req]
      ensures semList == old(semList) && planning == old(planning) && sem == old(sem)
      ensures cannonLastPosX == old(cannonLastPosX) && cannonMovingDir == old(cannonMovingDir)
      ensures shots == old(shots) && workerCount == old(workerCount)
    {
      req := Request(id, posX, cannonMovingDir, cannonLastPosX);
      ghost var s := Snapshot();
      InsertStep(s, req);
      l.Insert(req, ComparePosition);
      phase := phase[id := Queued];
      args := args[id := req];
      assert Snapshot() == s.(items := l.items, phase := phase, args := args);
    }

    /** The planner's `sem_wait(&semList)`. */
    method PlannerTake()
      requires Valid() && !planning && semList > 0
      modifies this
      ensures Valid()
      ensures semList == old(semList) - 1 && planning
      ensures phase == old(phase) && sem == old(sem) && args == old(args) && shots == old(shots)
      ensures cannonLastPosX == old(cannonLastPosX) && cannonMovingDir == old(cannonMovingDir)
      ensures workerCount == old(workerCount)
    {
      ghost var s := Snapshot();
      TakeStep(s);
      semList := semList - 1;
      planning := true;
      token := WithPlanner;
      assert Snapshot() == s.(semList := semList, planning := true, token := token);
    }

    /** The planner's `nextMissile = list_dequeue(l, 1); sem_post(&nextMissile->semMissile)`. */
    method PlannerGrant() returns (next: Request)
      requires Valid() && planning && l.items != []
      modifies this, l
      ensures Valid()
      ensures next == old(l.items)[0] && l.items == old(l.items)[1..]
      ensures sem == old(sem)[next.id := old(sem)[next.id] + 1]
      ensures !planning && semList == old(semList)
      ensures phase == old(phase) && args == old(args) && shots == old(shots)
      ensures cannonLastPosX == old(cannonLastPosX) && cannonMovingDir == old(cannonMovingDir)
      ensures workerCount == old(workerCount)
    {
      ghost var s := Snapshot();
      GrantStep(s);
      var head := l.Dequeue(true);
      next := head.value;
      sem := sem[next.id := sem[next.id] + 1];
      planning := false;
      token := Posted(next.id);
      assert Snapshot() == s.(items := l.items, sem := sem, planning := false, token := token);
    }

    /**
     * `sem_wait(&x->semMissile)` and the re-read: lost, post `semList` at
     * once; active at x, hold the cannon.
     */
    method Wake(id: nat, sm: MissileState, x: int) returns (lost: bool)
      requires Valid() && id in phase && phase[id] == Queued && sem[id] > 0
      modifies this
      ensures Valid()
      ensures lost == !IsActive(sm)
      ensures sem == old(sem)[id := old(sem)[id] - 1]
      ensures lost ==> semList == old(semList) + 1 && phase == old(phase)[id := Finished(Lost)]
      ensures !lost ==> semList == old(semList) && phase == old(phase)[id := Holding(x)]
      ensures planning == old(planning) && args == old(args) && shots == old(shots)
      ensures cannonLastPosX == old(cannonLastPosX) && cannonMovingDir == old(cannonMovingDir)
      ensures workerCount == old(workerCount)
    {
      ghost var s := Snapshot();
      lost := !IsActive(sm);
      WakeStep(s, id, lost, x);
      sem := sem[id := sem[id] - 1];
      if lost {
        semList := semList + 1;
        phase := phase[id := Finished(Lost)];
        token := InSemList;
      } else {
        phase := phase[id := Holding(x)];
        token := HeldBy(id);
      }
      assert Snapshot() == s.(sem := sem, semList := semList, phase := phase, token := token);
    }

    /**
     * `cannonMove(x->c, p.x); cannonFire(x->c)`, then the direction update
     * (RIGHT when the target is right of the last position, otherwise LEFT),
     * `cannonLastPosX = p.x` and `sem_post(&semList)`.
     */
    method Fire(id: nat)
      requires Valid() && id in phase && phase[id].Holding?
      modifies this
      ensures Valid()
      ensures var x := old(phase)[id].x;
        && shots == old(shots) + [x]
        && (cannonMovingDir == RIGHT <==> x > old(cannonLastPosX))
        && cannonLastPosX == x
      ensures semList == old(semList) + 1 && phase == old(phase)[id := Monitoring]
      ensures planning == old(planning) && sem == old(sem) && args == old(args)
      ensures workerCount == old(workerCount)
    {
      ghost var s := Snapshot();
      var x := phase[id].x;
      shots := shots + [x];
      if x > cannonLastPosX {
        cannonMovingDir := RIGHT;
      } else {
        cannonMovingDir := LEFT;
      }
      FireStep(s, id, cannonMovingDir);
      cannonLastPosX := x;
      semList := semList + 1;
      phase := phase[id := Monitoring];
      token := InSemList;
      assert Snapshot() == s.(dir := cannonMovingDir, semList := semList, phase := phase, token := InSemList);
    }

    /** The monitoring loop and the outcome switch, over the given radar readings; `polls` counts the active ones before the exit. */
    method Track(id: nat, readings: seq<MissileState>) returns (polls: nat, exit: Option<MissileState>)
      requires Valid() && id in phase && phase[id] == Monitoring
      modifies this
      ensures Valid()
      ensures polls <= |readings| && forall i :: 0 <= i < polls ==> IsActive(readings[i])
      ensures exit.Some? <==> polls < |readings|
      ensures exit.Some? ==> exit.value == readings[polls] && !IsActive(exit.value)
      ensures exit.None? ==> forall i :: 0 <= i < |readings| ==> IsActive(readings[i])
      ensures phase == if exit.Some? then old(phase)[id := Finished(ReportOf(exit.value))] else old(phase)
      ensures semList == old(semList) && planning == old(planning) && sem == old(sem)
      ensures args == old(args) && shots == old(shots) && workerCount == old(workerCount)
      ensures cannonLastPosX == old(cannonLastPosX) && cannonMovingDir == old(cannonMovingDir)
    {
      ghost var s := Snapshot();
      polls, exit := Monitor(readings);
      if exit.Some? {
        TrackStep(s, id, ReportOf(exit.value));
        phase := phase[id := Finished(ReportOf(exit.value))];
        assert Snapshot() == s.(phase := phase);
      }
    }

    /** `list_remove(x, l)`: the planner already dequeued the task, so it answers 0. */
    method Finish(id: nat) returns (found: int)
      requires Valid() && id in phase && phase[id].Finished? && id in args
      modifies this, l
      ensures Valid()
      ensures found == 0 && l.items == old(l.items)
      ensures phase == old(phase)[id := Exited]
      ensures semList == old(semList) && planning == old(planning) && sem == old(sem)
      ensures args == old(args) && shots == old(shots) && workerCount == old(workerCount)
      ensures cannonLastPosX == old(cannonLastPosX) && cannonMovingDir == old(cannonMovingDir)
    {
      ghost var s := Snapshot();
      FinishStep(s, id);
      found := l.Remove(args[id]);
      phase := phase[id := Exited];
      assert Snapshot() == s.(phase := phase);
    }
  }

  /**
   * At most one task holds the cannon: `semList`, the planner between its
   * wait and its post, the posted task semaphores and the holding tasks
   * account for exactly one token.
   */
  lemma OneCannonToken(p: Planner)
    requires p.Valid()
    ensures p.semList + (if p.planning then 1 else 0) <= 1
    ensures forall a, b ::
      && a in p.phase && (p.sem[a] > 0 || p.phase[a].Holding?)
      && b in p.phase && (p.sem[b] > 0 || p.phase[b].Holding?)
      ==> a == b
    ensures p.semList + (if p.planning then 1 else 0) == 0 <==>
      exists id :: id in p.phase && (p.sem[id] > 0 || p.phase[id].Holding?)
  {
    if p.semList + (if p.planning then 1 else 0) == 0 {
      var id := p.token.id;
      assert id in p.phase && (p.sem[id] > 0 || p.phase[id].Holding?);
    }
  }
}
