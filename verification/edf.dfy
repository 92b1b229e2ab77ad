/**
 * The deadline comparators of the EDF drivers and the order they give the
 * wait list: `cmp_deadline` (5_EDF_mariano.c), `compareDeadline`
 * (5_EDF_javi_noplanner.c, the same function) and `cmp` (5_EDF.c, the same
 * test on estimated impact times). With the insertion rule of `list_insert`
 * they keep the list sorted by deadline, equal deadlines in arrival order.
 */
module Edf {
  import opened CInt
  import opened Time
  import opened WaitList
  import opened Estimator

  /** What the deadline comparators look at in a task's `Args_t`: its id and its deadline. */
  datatype Worker = Worker(id: nat, deadline: Timespec)

  /**
   * `cmp_deadline(list_elem, new_elem)` and `compareDeadline(listMissile,
   * newMissile)`: 1 when the new task's deadline is lexicographically
   * strictly before the listed one's, otherwise 0.
   */
  function CmpDeadline(listElem: Worker, newElem: Worker): (r: int)
    ensures r == 0 || r == 1
    ensures r == 1 <==> Earlier(newElem.deadline, listElem.deadline)
  {
    if newElem.deadline.sec < listElem.deadline.sec then 1
    else if newElem.deadline.sec > listElem.deadline.sec then 0
    else if newElem.deadline.nsec < listElem.deadline.nsec then 1
    else 0
  }

  /** The EDF order on tasks: strictly earlier deadline. */
  predicate EarlierWorker(a: Worker, b: Worker) {
    Earlier(a.deadline, b.deadline)
  }

  /**
   * Neither of two tasks compares 1 against the other exactly when their
   * deadlines are equal: equal deadlines are ties, and the newcomer then
   * goes after the listed task.
   */
  lemma CmpDeadlineTies(a: Worker, b: Worker)
    ensures CmpDeadline(a, b) == 0 && CmpDeadline(b, a) == 0 <==> a.deadline == b.deadline
  {
  }

  /** On normalised deadlines the comparator answers "is the new deadline the earlier instant". */
  lemma CmpDeadlineIsTimeOrder(listElem: Worker, newElem: Worker)
    requires Normalized(listElem.deadline) && Normalized(newElem.deadline)
    ensures CmpDeadline(listElem, newElem) == 1 <==> TotalNs(newElem.deadline) < TotalNs(listElem.deadline)
  {
    EarlierIsTimeOrder(newElem.deadline, listElem.deadline);
  }

  /** The lexicographic deadline order is a strict weak order, and CmpDeadline is its comparator. */
  lemma EdfOrder()
    ensures StrictWeakOrder(EarlierWorker)
    ensures Induces(CmpDeadline, EarlierWorker)
    ensures ZeroOne(CmpDeadline)
  {
  }

  /** The tasks of s whose deadline is d, in list order. */
  function WithDeadline(s: seq<Worker>, d: Timespec): (t: seq<Worker>)
    ensures forall w :: w in t ==> w in s && w.deadline == d
  {
    if s == [] then []
    else (if s[0].deadline == d then [s[0]] else []) + WithDeadline(s[1..], d)
  }

  /** For the EDF order, the tie class of a task is the set of tasks with its deadline. */
  lemma {:induction false} TiesAreEqualDeadlines(s: seq<Worker>, y: Worker)
    ensures Ties(s, y, EarlierWorker) == WithDeadline(s, y.deadline)
  {
    if s != [] {
      TiesAreEqualDeadlines(s[1..], y);
    }
  }

  /**
   * Starting from an empty EDF list, `list_insert(..., cmp_deadline, ...)`
   * of tasks arriving in the order xs gives a list holding exactly those
   * tasks, sorted by deadline, where the tasks sharing any deadline keep
   * their arrival order (FIFO among ties).
   */
  lemma EdfListIsStableSort(xs: seq<Worker>)
    ensures multiset(InsertAll(xs, CmpDeadline)) == multiset(xs)
    ensures SortedBy(InsertAll(xs, CmpDeadline), EarlierWorker)
    ensures forall d :: WithDeadline(InsertAll(xs, CmpDeadline), d) == WithDeadline(xs, d)
  {
    EdfOrder();
    InsertAllIsStableSort(xs, CmpDeadline, EarlierWorker);
    forall d
      ensures WithDeadline(InsertAll(xs, CmpDeadline), d) == WithDeadline(xs, d)
    {
      var y := Worker(0, d);
      TiesAreEqualDeadlines(InsertAll(xs, CmpDeadline), y);
      TiesAreEqualDeadlines(xs, y);
    }
  }

  /**
   * The head of a sorted EDF list has the earliest deadline of all listed
   * tasks, so a blocking `list_dequeue` hands out the most urgent task.
   */
  lemma HeadIsEarliest(s: seq<Worker>)
    requires s != [] && SortedBy(s, EarlierWorker)
    ensures forall i :: 0 <= i < |s| ==> !Earlier(s[i].deadline, s[0].deadline)
  {
    forall i | 0 < i < |s|
      ensures !Earlier(s[i].deadline, s[0].deadline)
    {
      assert !EarlierWorker(s[i], s[0]);
    }
  }

  /** Taking the head off a sorted list leaves it sorted: successive dequeues come out in deadline order. */
  lemma DequeueKeepsSorted(s: seq<Worker>)
    requires s != [] && SortedBy(s, EarlierWorker)
    ensures SortedBy(s[1..], EarlierWorker)
    ensures forall i :: 0 <= i < |s| - 1 ==> !Earlier(s[1..][i].deadline, s[0].deadline)
  {
    HeadIsEarliest(s);
    forall i, j | 0 <= i < j < |s| - 1
      ensures !EarlierWorker(s[1..][j], s[1..][i])
    {
      assert s[1..][j] == s[j + 1] && s[1..][i] == s[i + 1];
    }
  }

  /** Three tasks due at 3 s, 1 s and 2 s, inserted in that order, are listed 1 s, 2 s, 3 s. */
  lemma EdfExample()
    ensures var a, b, c := Worker(1, Timespec(3, 0)), Worker(2, Timespec(1, 0)), Worker(3, Timespec(2, 0));
      InsertAll([a, b, c], CmpDeadline) == [b, c, a]
  {
    var a, b, c := Worker(1, Timespec(3, 0)), Worker(2, Timespec(1, 0)), Worker(3, Timespec(2, 0));
    assert [a, b, c][..2] == [a, b];
    assert [a, b][..1] == [a];
    assert [a][..0] == [];
    assert InsertAll([a], CmpDeadline) == [a];
    assert InsertPos([a], b, CmpDeadline) == 0;
    assert InsertAll([a, b], CmpDeadline) == [b, a];
    assert InsertPos([b, a], c, CmpDeadline) == 1;
  }

  // ---------------------------------------------------------------------
  // 5_EDF.c: the list of estimated impact times.
  // ---------------------------------------------------------------------

  /** A `list_item` of 5_EDF.c: the estimated impact time and the task whose `action_command` it carries. */
  datatype Item = Item(impactTime: Timespec, owner: nat)

  /**
   * `cmp(a, b)` of 5_EDF.c with a the listed item and b the new one: 1 when
   * a's impact time is lexicographically strictly later than b's. As
   * `list_insert` calls it, that is "the new item is strictly earlier",
   * the order of CmpDeadline.
   */
  function CmpImpact(a: Item, b: Item): (r: int)
    ensures r == 0 || r == 1
    ensures r == 1 <==> Earlier(b.impactTime, a.impactTime)
  {
    if a.impactTime.sec > b.impactTime.sec then 1
    else if a.impactTime.sec < b.impactTime.sec then 0
    else if a.impactTime.nsec > b.impactTime.nsec then 1
    else 0
  }

  /** The order of 5_EDF.c's list: strictly earlier estimated impact. */
  predicate EarlierItem(a: Item, b: Item) {
    Earlier(a.impactTime, b.impactTime)
  }

  /** `cmp` is the comparator of the strict weak order EarlierItem, so its list is sorted FIFO-stably too. */
  lemma ImpactOrder()
    ensures StrictWeakOrder(EarlierItem)
    ensures Induces(CmpImpact, EarlierItem)
    ensures ZeroOne(CmpImpact)
  {
  }

  /** `cmp` and `cmp_deadline` agree when items and tasks carry the same times. */
  lemma CmpImpactMirrorsCmpDeadline(a: Item, b: Item)
    ensures CmpImpact(a, b) == CmpDeadline(Worker(a.owner, a.impactTime), Worker(b.owner, b.impactTime))
  {
  }

  // ---------------------------------------------------------------------
  // 5_EDF_javi_noplanner.c: deadlines from the integer estimator.
  // ---------------------------------------------------------------------

  /**
   * As written, a deadline whose tv_nsec is left at or above 10^9 is
   * ordered wrongly: a target sampled at 10.5 s and due 2 s later (12.5 s)
   * and one sampled at 11.9 s and due 0.1 s later (12 s) are listed with
   * the later deadline first. With the normalised deadline the earlier one
   * is listed first.
   */
  lemma DeadlineOrderAsWritten()
    ensures var t1, t2 := Timespec(10, 500_000_000), Timespec(11, 900_000_000);
      var d1, d2 := RemainingTicks(2010, 2000, DELTATIME_NOPLANNER), RemainingTicks(11, 10, DELTATIME_NOPLANNER);
      var a, b := Worker(1, DeadlineAsWritten(t1, d1)), Worker(2, DeadlineAsWritten(t2, d2));
      && TotalNs(b.deadline) < TotalNs(a.deadline)
      && Inserted([a], b, CmpDeadline) == [a, b]
    ensures var t1, t2 := Timespec(10, 500_000_000), Timespec(11, 900_000_000);
      var d1, d2 := RemainingTicks(2010, 2000, DELTATIME_NOPLANNER), RemainingTicks(11, 10, DELTATIME_NOPLANNER);
      var a, b := Worker(1, Deadline(t1, d1)), Worker(2, Deadline(t2, d2));
      && TotalNs(b.deadline) < TotalNs(a.deadline)
      && Inserted([a], b, CmpDeadline) == [b, a]
  {
    assert Quot(2000, 10) == 200;
    assert Quot(10, 1) == 10;
    var t1, t2 := Timespec(10, 500_000_000), Timespec(11, 900_000_000);
    assert DeadlineAsWritten(t1, 2_000_000_000) == Timespec(11, 1_500_000_000);
    assert DeadlineAsWritten(t2, 100_000_000) == Timespec(12, 0);
    assert Deadline(t1, 2_000_000_000) == Timespec(12, 500_000_000);
    assert Deadline(t2, 100_000_000) == Timespec(12, 0);
  }

  /**
   * With the normalised deadline the list order is the order of the
   * instants: a task is placed before a listed one exactly when its sample
   * time plus estimate is strictly earlier.
   */
  lemma DeadlineOrderIsTimeOrder(id1: nat, t1: Timespec, r1: int, id2: nat, t2: Timespec, r2: int)
    requires ClockReading(t1) && IsInt(r1) && ClockReading(t2) && IsInt(r2)
    ensures CmpDeadline(Worker(id1, Deadline(t1, r1)), Worker(id2, Deadline(t2, r2))) == 1
      <==> TotalNs(t2) + r2 < TotalNs(t1) + r1
  {
    CmpDeadlineIsTimeOrder(Worker(id1, Deadline(t1, r1)), Worker(id2, Deadline(t2, r2)));
  }
}
