/**
 * The list type of the simulator library (include/simusil.h): a shared
 * doubly linked list of object references. Only its documented contract is
 * modelled: the list is a sequence of references, `List` is the list object
 * and each library call is a method that changes its contents.
 *
 * `list_insert`'s body is in the prebuilt library. The model walks from the
 * head and inserts the new object before the first element `e` with
 * `cmp(e, new) == 1`, or at the tail when there is none; lemma
 * `InsertedBetween` shows this meets the documented placement rule.
 */
module WaitList {
  import opened Simusil

  /** Where `list_insert(x, cmp, ...)` places x in s. */
  function InsertPos<T>(s: seq<T>, x: T, cmp: (T, T) -> int): (p: nat)
    ensures p <= |s|
    ensures forall i :: 0 <= i < p ==> cmp(s[i], x) != 1
    ensures p < |s| ==> cmp(s[p], x) == 1
    decreases |s|
  {
    if s == [] || cmp(s[0], x) == 1 then 0 else 1 + InsertPos(s[1..], x, cmp)
  }

  /** The contents of the list after `list_insert(x, cmp, ...)`. */
  function Inserted<T>(s: seq<T>, x: T, cmp: (T, T) -> int): (r: seq<T>)
    ensures |r| == |s| + 1
  {
    var p := InsertPos(s, x, cmp);
    s[..p] + [x] + s[p..]
  }

  /** Element-wise description of an insertion at position p. */
  lemma InsertedAt<T>(s: seq<T>, x: T, cmp: (T, T) -> int)
    ensures var r, p := Inserted(s, x, cmp), InsertPos(s, x, cmp);
      && r[p] == x
      && (forall k :: 0 <= k < p ==> r[k] == s[k])
      && (forall k :: p < k < |r| ==> r[k] == s[k - 1])
  {
  }

  /** The comparators of the drivers only ever return 0 or 1. */
  ghost predicate ZeroOne<T(!new)>(cmp: (T, T) -> int) {
    forall a, b :: cmp(a, b) == 0 || cmp(a, b) == 1
  }

  /**
   * The placement rule documented for `list_insert`: the new element lands
   * between adjacent A and B with cmp(A, new) == 0 and cmp(B, new) == 1 (A
   * absent at the head, B absent at the tail), and the elements already in
   * the list keep their relative order.
   */
  lemma InsertedBetween<T(!new)>(s: seq<T>, x: T, cmp: (T, T) -> int)
    requires ZeroOne(cmp)
    ensures var r, p := Inserted(s, x, cmp), InsertPos(s, x, cmp);
      && r[p] == x
      && (p > 0 ==> cmp(r[p - 1], x) == 0)
      && (p + 1 < |r| ==> cmp(r[p + 1], x) == 1)
      && r[..p] + r[p + 1..] == s
  {
    var p := InsertPos(s, x, cmp);
    InsertedNeighbours(s, x, cmp);
    if p > 0 {
      assert cmp(s[p - 1], x) != 1;
    }
  }

  /** The neighbours of the inserted element are the elements of s around position p. */
  lemma InsertedNeighbours<T>(s: seq<T>, x: T, cmp: (T, T) -> int)
    ensures var r, p := Inserted(s, x, cmp), InsertPos(s, x, cmp);
      && r[p] == x
      && (p > 0 ==> r[p - 1] == s[p - 1])
      && (p + 1 < |r| ==> r[p + 1] == s[p])
      && r[..p] + r[p + 1..] == s
  {
    CutOut(s, x, InsertPos(s, x, cmp), Inserted(s, x, cmp));
  }

  /** Cutting x back out of r == s[..p] + [x] + s[p..] gives s. */
  lemma CutOut<T>(s: seq<T>, x: T, p: nat, r: seq<T>)
    requires p <= |s| && r == s[..p] + [x] + s[p..]
    ensures r[p] == x
    ensures p > 0 ==> r[p - 1] == s[p - 1]
    ensures p + 1 < |r| ==> r[p + 1] == s[p]
    ensures r[..p] + r[p + 1..] == s
  {
    assert r[..p] == s[..p];
    assert r[p + 1..] == s[p..];
    assert s[..p] + s[p..] == s;
  }

  lemma InsertedMultiset<T>(s: seq<T>, x: T, cmp: (T, T) -> int)
    ensures multiset(Inserted(s, x, cmp)) == multiset(s) + multiset{x}
  {
    var p := InsertPos(s, x, cmp);
    assert s == s[..p] + s[p..];
  }

  /** Insertion adds x and nothing else. */
  lemma InsertedMember<T>(s: seq<T>, x: T, cmp: (T, T) -> int, v: T)
    ensures v in Inserted(s, x, cmp) <==> v in s || v == x
  {
    var p := InsertPos(s, x, cmp);
    assert s == s[..p] + s[p..];
  }

  /** The contents of the list after `list_remove(x, ...)`: the first occurrence of x is cut out. */
  function Removed<T(==)>(s: seq<T>, x: T): (r: seq<T>)
    ensures x !in s ==> r == s
    ensures x in s ==> |r| == |s| - 1
    ensures multiset(r) == multiset(s) - multiset{x}
  {
    if s == [] then []
    else
      assert s == [s[0]] + s[1..];
      if s[0] == x then s[1..] else [s[0]] + Removed(s[1..], x)
  }

  /** Removing the first occurrence, at index i, leaves every other element in its order. */
  lemma {:induction false} RemovedAt<T>(s: seq<T>, x: T, i: nat)
    requires i < |s| && s[i] == x && x !in s[..i]
    ensures Removed(s, x) == s[..i] + s[i + 1..]
  {
    if i > 0 {
      var t := s[1..];
      assert s[0] != x by { assert s[0] in s[..i]; }
      assert x !in t[..i - 1] by { assert t[..i - 1] == s[1..i]; }
      RemovedAt(t, x, i - 1);
      ConsCut(s, i);
    }
  }

  /** Element i of s with index k cut out. */
  lemma CutIndex<T>(s: seq<T>, k: nat, i: nat)
    requires k < |s| && i < |s| - 1
    ensures (s[..k] + s[k + 1..])[i] == s[if i < k then i else i + 1]
  {
  }

  /** Cutting index i out of s is keeping s[0] and cutting index i - 1 out of s[1..]. */
  lemma ConsCut<T>(s: seq<T>, i: nat)
    requires 0 < i < |s|
    ensures [s[0]] + (s[1..][..i - 1] + s[1..][i..]) == s[..i] + s[i + 1..]
  {
    assert s[1..][..i - 1] == s[1..i];
    assert s[1..][i..] == s[i + 1..];
    assert [s[0]] + s[1..i] == s[..i];
  }

  /** No two elements of s share a key (no task is listed twice). */
  ghost predicate DistinctBy<T, K>(s: seq<T>, key: T -> K) {
    forall i, j :: 0 <= i < j < |s| ==> key(s[i]) != key(s[j])
  }

  /** Inserting an element with a fresh key keeps the keys distinct, and adds nothing else. */
  lemma InsertedDistinct<T, K>(s: seq<T>, x: T, cmp: (T, T) -> int, key: T -> K)
    requires DistinctBy(s, key)
    requires forall i :: 0 <= i < |s| ==> key(s[i]) != key(x)
    ensures DistinctBy(Inserted(s, x, cmp), key)
    ensures forall i :: 0 <= i < |s| + 1 ==> Inserted(s, x, cmp)[i] == x || Inserted(s, x, cmp)[i] in s
  {
    var r, p := Inserted(s, x, cmp), InsertPos(s, x, cmp);
    InsertedAt(s, x, cmp);
    forall i, j | 0 <= i < j < |r|
      ensures key(r[i]) != key(r[j])
    {
      if j < p {
      } else if j == p {
      } else if i == p {
        assert r[j] == s[j - 1];
      } else if i < p {
        assert r[j] == s[j - 1];
      } else {
        assert r[i] == s[i - 1] && r[j] == s[j - 1];
      }
    }
    forall i | 0 <= i < |r|
      ensures r[i] == x || r[i] in s
    {
      if i < p {
        assert r[i] == s[i];
      } else if i > p {
        assert r[i] == s[i - 1];
      }
    }
  }

  /** Dequeuing the head: the rest keeps distinct keys, none of them the head's. */
  lemma TailDistinct<T, K>(s: seq<T>, key: T -> K)
    requires s != [] && DistinctBy(s, key)
    ensures DistinctBy(s[1..], key)
    ensures forall i :: 0 <= i < |s| - 1 ==> key(s[1..][i]) != key(s[0])
  {
    forall i, j | 0 <= i < j < |s| - 1
      ensures key(s[1..][i]) != key(s[1..][j])
    {
      assert s[1..][i] == s[i + 1] && s[1..][j] == s[j + 1];
    }
    forall i | 0 <= i < |s| - 1
      ensures key(s[1..][i]) != key(s[0])
    {
      assert s[1..][i] == s[i + 1];
    }
  }

  /** The index of the first occurrence of x in s. */
  ghost function FirstIndex<T>(s: seq<T>, x: T): (i: nat)
    requires x in s
    ensures i < |s| && s[i] == x && x !in s[..i]
  {
    if s[0] == x then 0
    else
      var i := 1 + FirstIndex(s[1..], x);
      assert s[..i] == [s[0]] + s[1..][..i - 1];
      i
  }

  /** Removal takes out x and nothing else. */
  lemma RemovedMember<T>(s: seq<T>, x: T, y: T)
    ensures y in Removed(s, x) ==> y in s
    ensures y != x ==> (y in Removed(s, x) <==> y in s)
  {
    assert multiset(Removed(s, x))[y] <= multiset(s)[y];
    if y != x {
      assert multiset(Removed(s, x))[y] == multiset(s)[y];
    }
  }

  /** Skipping index i of a sorted sequence with distinct keys keeps both properties. */
  lemma SkipKeeps<T, K>(s: seq<T>, i: nat, before: (T, T) -> bool, key: T -> K)
    requires i < |s| && SortedBy(s, before) && DistinctBy(s, key)
    ensures SortedBy(s[..i] + s[i + 1..], before) && DistinctBy(s[..i] + s[i + 1..], key)
  {
    var r := s[..i] + s[i + 1..];
    assert |r| == |s| - 1;
    assert forall k :: 0 <= k < i ==> r[k] == s[k];
    assert forall k :: i <= k < |r| ==> r[k] == s[k + 1];
    forall a, b | 0 <= a < b < |r|
      ensures !before(r[b], r[a]) && key(r[a]) != key(r[b])
    {
      var fa, fb := if a < i then a else a + 1, if b < i then b else b + 1;
      assert r[a] == s[fa] && r[b] == s[fb];
    }
  }

  /** Cutting an element out keeps the others sorted and their keys distinct. */
  lemma RemovedKeeps<T, K>(s: seq<T>, x: T, before: (T, T) -> bool, key: T -> K)
    requires SortedBy(s, before) && DistinctBy(s, key)
    ensures SortedBy(Removed(s, x), before) && DistinctBy(Removed(s, x), key)
  {
    if x in s {
      var i := FirstIndex(s, x);
      RemovedAt(s, x, i);
      SkipKeeps(s, i, before, key);
    }
  }

  /** The list object (`List_ptr_t`). */
  class List<T(==)> {
    /** The referenced objects, head first. */
    var items: seq<T>

    /** `createList`: an empty list (the name and debug level are not modelled). */
    constructor ()
      ensures items == []
    {
      items := [];
    }

    /** `list_enqueue`: append x at the tail. */
    method Enqueue(x: T)
      modifies this
      ensures items == old(items) + [x]
    {
      items := items + [x];
    }

    /**
     * `list_dequeue(list, wait)`: remove and return the head. With wait == 0
     * an empty list yields NULL; with wait != 0 the caller blocks until an
     * element is there, so the call completes only on a nonempty list.
     */
    method Dequeue(wait: bool) returns (head: Option<T>)
      requires wait ==> items != []
      modifies this
      ensures old(items) == [] ==> head == None && items == []
      ensures old(items) != [] ==> head == Some(old(items)[0]) && items == old(items)[1..]
    {
      if items == [] {
        head := None;
      } else {
        head := Some(items[0]);
        items := items[1..];
      }
    }

    /** `list_remove(x, list)`: 1 and x cut out if present, 0 and no change otherwise. */
    method Remove(x: T) returns (found: int)
      modifies this
      ensures found == (if x in old(items) then 1 else 0)
      ensures items == Removed(old(items), x)
    {
      var i := 0;
      while i < |items| && items[i] != x
        invariant i <= |items|
        invariant x !in items[..i]
      {
        assert items[..i + 1] == items[..i] + [items[i]];
        i := i + 1;
      }
      if i < |items| {
        RemovedAt(items, x, i);
        items := items[..i] + items[i + 1..];
        found := 1;
      } else {
        assert items[..i] == items;
        found := 0;
      }
    }

    /** `list_insert(x, cmp, ...)`: walk from the head to the first e with cmp(e, x) == 1 and link x in before it. */
    method Insert(x: T, cmp: (T, T) -> int)
      modifies this
      ensures items == Inserted(old(items), x, cmp)
    {
      var i := 0;
      while i < |items| && cmp(items[i], x) != 1
        invariant i <= |items|
        invariant forall k :: 0 <= k < i ==> cmp(items[k], x) != 1
      {
        i := i + 1;
      }
      assert i == InsertPos(items, x, cmp);
      items := items[..i] + [x] + items[i..];
    }

    /** `destroyList(list, destructor)`: hands every object to the destructor, head first, and empties the list. */
    method Destroy() returns (destroyed: seq<T>)
      modifies this
      ensures destroyed == old(items)
      ensures items == []
    {
      destroyed := [];
      while items != []
        invariant destroyed + items == old(items)
        decreases |items|
      {
        destroyed := destroyed + [items[0]];
        items := items[1..];
      }
    }
  }

  // ---------------------------------------------------------------------
  // Ordered insertion: what list_insert guarantees when the comparator is
  // "new strictly before elem" for a strict weak order.
  // ---------------------------------------------------------------------

  /** No element is strictly before an earlier one. */
  ghost predicate SortedBy<T>(s: seq<T>, before: (T, T) -> bool) {
    forall i, j :: 0 <= i < j < |s| ==> !before(s[j], s[i])
  }

  /** `before` is a strict weak order: asymmetric, and "not before" is transitive. */
  ghost predicate StrictWeakOrder<T(!new)>(before: (T, T) -> bool) {
    && (forall a, b :: before(a, b) ==> !before(b, a))
    && (forall a, b, c :: !before(a, b) && !before(b, c) ==> !before(a, c))
  }

  /** The comparator answers 1 exactly when the new element goes strictly before the listed one. */
  ghost predicate Induces<T(!new)>(cmp: (T, T) -> int, before: (T, T) -> bool) {
    forall e, n :: cmp(e, n) == 1 <==> before(n, e)
  }

  /**
   * Inserting into a sorted list keeps it sorted. The new element goes
   * after every element it is not strictly before (in particular after all
   * its ties) and before every element it is strictly before.
   */
  lemma InsertKeepsSorted<T(!new)>(s: seq<T>, x: T, cmp: (T, T) -> int, before: (T, T) -> bool)
    requires StrictWeakOrder(before) && Induces(cmp, before)
    requires SortedBy(s, before)
    ensures SortedBy(Inserted(s, x, cmp), before)
    ensures forall i :: 0 <= i < InsertPos(s, x, cmp) ==> !before(x, s[i])
    ensures forall i :: InsertPos(s, x, cmp) <= i < |s| ==> before(x, s[i])
  {
    var r, p := Inserted(s, x, cmp), InsertPos(s, x, cmp);
    InsertedAt(s, x, cmp);
    forall i | p <= i < |s|
      ensures before(x, s[i])
    {
      assert before(x, s[p]);
      assert !before(s[i], s[p]);
    }
    forall i, j | 0 <= i < j < |r|
      ensures !before(r[j], r[i])
    {
      if j < p {
        assert r[i] == s[i] && r[j] == s[j];
      } else if j == p {
        assert r[i] == s[i];
      } else if i == p {
        assert r[j] == s[j - 1];
      } else if i < p {
        assert r[i] == s[i] && r[j] == s[j - 1];
      } else {
        assert r[i] == s[i - 1] && r[j] == s[j - 1];
      }
    }
  }

  /**
   * The head of a sorted list is not preceded by any element, and what
   * `list_dequeue` leaves behind is still sorted.
   */
  lemma HeadIsFirst<T(!new)>(s: seq<T>, before: (T, T) -> bool)
    requires s != [] && SortedBy(s, before) && StrictWeakOrder(before)
    ensures forall i :: 0 <= i < |s| ==> !before(s[i], s[0])
    ensures SortedBy(s[1..], before)
  {
    forall i, j | 0 <= i < j < |s| - 1
      ensures !before(s[1..][j], s[1..][i])
    {
      assert s[1..][j] == s[j + 1] && s[1..][i] == s[i + 1];
    }
  }

  /** The elements of s tied with y (neither strictly before the other), in order. */
  function Ties<T>(s: seq<T>, y: T, before: (T, T) -> bool): (t: seq<T>)
    ensures |t| <= |s|
  {
    if s == [] then []
    else (if !before(s[0], y) && !before(y, s[0]) then [s[0]] else []) + Ties(s[1..], y, before)
  }

  lemma {:induction false} TiesAppend<T>(a: seq<T>, b: seq<T>, y: T, before: (T, T) -> bool)
    ensures Ties(a + b, y, before) == Ties(a, y, before) + Ties(b, y, before)
  {
    if a == [] {
      assert a + b == b;
    } else {
      var h := if !before(a[0], y) && !before(y, a[0]) then [a[0]] else [];
      assert (a + b)[0] == a[0];
      assert (a + b)[1..] == a[1..] + b;
      TiesAppend(a[1..], b, y, before);
      calc {
        Ties(a + b, y, before);
        h + Ties(a[1..] + b, y, before);
        h + (Ties(a[1..], y, before) + Ties(b, y, before));
        (h + Ties(a[1..], y, before)) + Ties(b, y, before);
      }
    }
  }

  /** The tie classes of an insertion at p: those of the part before p, of x, and of the rest. */
  lemma InsertedTiesSplit<T>(s: seq<T>, x: T, y: T, cmp: (T, T) -> int, before: (T, T) -> bool)
    ensures var p := InsertPos(s, x, cmp);
      && Ties(Inserted(s, x, cmp), y, before) ==
         Ties(s[..p], y, before) + Ties([x], y, before) + Ties(s[p..], y, before)
      && Ties(s, y, before) == Ties(s[..p], y, before) + Ties(s[p..], y, before)
      && Ties([x], y, before) == if !before(x, y) && !before(y, x) then [x] else []
  {
    var p := InsertPos(s, x, cmp);
    var lo, hi := s[..p], s[p..];
    assert Inserted(s, x, cmp) == (lo + [x]) + hi;
    TiesAppend(lo + [x], hi, y, before);
    TiesAppend(lo, [x], y, before);
    assert lo + hi == s;
    TiesAppend(lo, hi, y, before);
    assert [x][1..] == [];
  }

  /** Insertion appends x to its own tie class and leaves every other tie class as it was. */
  lemma InsertedTies<T(!new)>(s: seq<T>, x: T, y: T, cmp: (T, T) -> int, before: (T, T) -> bool)
    requires StrictWeakOrder(before) && Induces(cmp, before)
    requires SortedBy(s, before)
    ensures Ties(Inserted(s, x, cmp), y, before) ==
            Ties(s, y, before) + (if !before(x, y) && !before(y, x) then [x] else [])
  {
    InsertedTiesSplit(s, x, y, cmp, before);
    if !before(x, y) && !before(y, x) {
      NoTiesPastPos(s, x, y, cmp, before);
    }
  }

  /** No element of s past x's insertion point is tied with a y tied with x. */
  lemma NoTiesPastPos<T(!new)>(s: seq<T>, x: T, y: T, cmp: (T, T) -> int, before: (T, T) -> bool)
    requires StrictWeakOrder(before) && Induces(cmp, before)
    requires SortedBy(s, before)
    requires !before(x, y) && !before(y, x)
    ensures Ties(s[InsertPos(s, x, cmp)..], y, before) == []
  {
    var p := InsertPos(s, x, cmp);
    InsertKeepsSorted(s, x, cmp, before);
    forall i | 0 <= i < |s[p..]|
      ensures before(x, s[p..][i])
    {
      assert s[p..][i] == s[p + i];
    }
    NoTiesAfter(s[p..], x, y, before);
  }

  /** Nothing strictly after x is tied with a y that is tied with x. */
  lemma {:induction false} NoTiesAfter<T(!new)>(t: seq<T>, x: T, y: T, before: (T, T) -> bool)
    requires StrictWeakOrder(before)
    requires forall i :: 0 <= i < |t| ==> before(x, t[i])
    requires !before(x, y) && !before(y, x)
    ensures Ties(t, y, before) == []
  {
    if t != [] {
      assert before(x, t[0]);
      assert before(y, t[0]);
      NoTiesAfter(t[1..], x, y, before);
    }
  }

  /** The list built by `list_insert`-ing xs one after another into an empty list. */
  function InsertAll<T>(xs: seq<T>, cmp: (T, T) -> int): (r: seq<T>)
    ensures |r| == |xs|
  {
    if xs == [] then [] else Inserted(InsertAll(xs[..|xs| - 1], cmp), xs[|xs| - 1], cmp)
  }

  /** Inserting one element after another keeps exactly the arrivals. */
  lemma {:induction false} InsertAllPermutes<T>(xs: seq<T>, cmp: (T, T) -> int)
    ensures multiset(InsertAll(xs, cmp)) == multiset(xs)
  {
    if xs != [] {
      var init, last := xs[..|xs| - 1], xs[|xs| - 1];
      InsertAllPermutes(init, cmp);
      InsertedMultiset(InsertAll(init, cmp), last, cmp);
      assert xs == init + [last];
    }
  }

  /** Inserting one element after another yields a sorted list. */
  lemma {:induction false} InsertAllSorted<T(!new)>(xs: seq<T>, cmp: (T, T) -> int, before: (T, T) -> bool)
    requires StrictWeakOrder(before) && Induces(cmp, before)
    ensures SortedBy(InsertAll(xs, cmp), before)
  {
    if xs != [] {
      var init, last := xs[..|xs| - 1], xs[|xs| - 1];
      InsertAllSorted(init, cmp, before);
      InsertKeepsSorted(InsertAll(init, cmp), last, cmp, before);
    }
  }

  /** Inserting one element after another keeps each tie class in arrival order. */
  lemma {:induction false} InsertAllStable<T(!new)>(xs: seq<T>, y: T, cmp: (T, T) -> int, before: (T, T) -> bool)
    requires StrictWeakOrder(before) && Induces(cmp, before)
    ensures Ties(InsertAll(xs, cmp), y, before) == Ties(xs, y, before)
  {
    if xs != [] {
      var init, last := xs[..|xs| - 1], xs[|xs| - 1];
      InsertAllStable(init, y, cmp, before);
      InsertAllSorted(init, cmp, before);
      InsertedTies(InsertAll(init, cmp), last, y, cmp, before);
      TiesAppend(init, [last], y, before);
      assert xs == init + [last];
      assert Ties([last], y, before) == if !before(last, y) && !before(y, last) then [last] else [];
    }
  }

  /**
   * Inserting one element after another is a stable sort: the result is a
   * permutation of the arrivals, sorted, and every tie class appears in
   * arrival order.
   */
  lemma InsertAllIsStableSort<T(!new)>(xs: seq<T>, cmp: (T, T) -> int, before: (T, T) -> bool)
    requires StrictWeakOrder(before) && Induces(cmp, before)
    ensures multiset(InsertAll(xs, cmp)) == multiset(xs)
    ensures SortedBy(InsertAll(xs, cmp), before)
    ensures forall y :: Ties(InsertAll(xs, cmp), y, before) == Ties(xs, y, before)
  {
    InsertAllPermutes(xs, cmp);
    InsertAllSorted(xs, cmp, before);
    forall y
      ensures Ties(InsertAll(xs, cmp), y, before) == Ties(xs, y, before)
    {
      InsertAllStable(xs, y, cmp, before);
    }
  }
}
