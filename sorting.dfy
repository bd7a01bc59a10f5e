/**
 * A stable insertion sort over a comparator in the style of
 * `Array.prototype.sort`: negative, zero or positive as the first argument
 * sorts before, with or after the second.
 */
module Sorting {
  import opened Seqs

  /** Swapping `a` and `b` negates their comparison. */
  ghost predicate AntisymmetricAt<T>(cmp: (T, T) -> int, a: T, b: T) {
    cmp(b, a) == -cmp(a, b)
  }

  /** "Sorts no later than" chains from `a` through `b` to `c`. */
  ghost predicate TransitiveAt<T>(cmp: (T, T) -> int, a: T, b: T, c: T) {
    cmp(a, b) <= 0 && cmp(b, c) <= 0 ==> cmp(a, c) <= 0
  }

  /*
   * The two laws are stated through the predicates above, so that a proof
   * instantiates them only where it names them.
   */
  ghost predicate Antisymmetric<T(!new)>(cmp: (T, T) -> int) {
    forall a, b :: AntisymmetricAt(cmp, a, b)
  }

  ghost predicate Transitive<T(!new)>(cmp: (T, T) -> int) {
    forall a, b, c :: TransitiveAt(cmp, a, b, c)
  }

  /** A consistent comparator: it orders its type as a total preorder. */
  ghost predicate IsComparator<T(!new)>(cmp: (T, T) -> int) {
    Antisymmetric(cmp) && Transitive(cmp)
  }

  /** No later element sorts before an earlier one. */
  ghost predicate Sorted<T>(s: seq<T>, cmp: (T, T) -> int) {
    forall i, j :: 0 <= i < j < |s| ==> cmp(s[i], s[j]) <= 0
  }

  /** Inserts `x` after every element that does not sort after it. */
  function Insert<T(==,!new)>(sorted: seq<T>, x: T, cmp: (T, T) -> int): (r: seq<T>)
    ensures multiset(r) == multiset(sorted) + multiset{x}
  {
    if sorted == [] then [x]
    else if cmp(x, sorted[0]) < 0 then [x] + sorted
    else
      assert sorted == [sorted[0]] + sorted[1..];
      [sorted[0]] + Insert(sorted[1..], x, cmp)
  }

  /** Insertion sort: each element in turn is inserted into the sorted prefix before it. */
  function SortBy<T(==,!new)>(s: seq<T>, cmp: (T, T) -> int): (r: seq<T>)
    ensures multiset(r) == multiset(s)
    decreases |s|
  {
    if s == [] then []
    else
      assert s == s[..|s| - 1] + [s[|s| - 1]];
      Insert(SortBy(s[..|s| - 1], cmp), s[|s| - 1], cmp)
  }

  /** Every element of a sorted list sorts no earlier than its head. */
  lemma HeadFirst<T(!new)>(sorted: seq<T>, cmp: (T, T) -> int, k: nat)
    requires IsComparator(cmp)
    requires Sorted(sorted, cmp)
    requires k < |sorted|
    ensures cmp(sorted[0], sorted[k]) <= 0
  {
    if k == 0 {
      assert AntisymmetricAt(cmp, sorted[0], sorted[0]);
    }
  }

  lemma {:induction false} InsertSorted<T(!new)>(sorted: seq<T>, x: T, cmp: (T, T) -> int)
    requires IsComparator(cmp)
    requires Sorted(sorted, cmp)
    ensures Sorted(Insert(sorted, x, cmp), cmp)
  {
    if sorted == [] {
    } else if cmp(x, sorted[0]) < 0 {
      forall j | 0 <= j < |sorted|
        ensures cmp(x, sorted[j]) <= 0
      {
        HeadFirst(sorted, cmp, j);
        assert TransitiveAt(cmp, x, sorted[0], sorted[j]);
      }
    } else {
      assert AntisymmetricAt(cmp, x, sorted[0]);
      var t := Insert(sorted[1..], x, cmp);
      InsertSorted(sorted[1..], x, cmp);
      forall j | 0 <= j < |t|
        ensures cmp(sorted[0], t[j]) <= 0
      {
        assert t[j] in multiset(t);
        if t[j] != x {
          assert t[j] in multiset(sorted[1..]);
          var m :| 0 <= m < |sorted[1..]| && sorted[1..][m] == t[j];
          assert sorted[m + 1] == t[j];
        }
      }
    }
  }

  lemma {:induction false} SortBySorted<T(!new)>(s: seq<T>, cmp: (T, T) -> int)
    requires IsComparator(cmp)
    ensures Sorted(SortBy(s, cmp), cmp)
    decreases |s|
  {
    if s != [] {
      SortBySorted(s[..|s| - 1], cmp);
      InsertSorted(SortBy(s[..|s| - 1], cmp), s[|s| - 1], cmp);
    }
  }

  /**
   * The elements of `s`, in order, that compare equal to `y`: the
   * equivalence class of `y` as `s` lists it.
   */
  function EquivalentTo<T>(s: seq<T>, y: T, cmp: (T, T) -> int): seq<T> {
    if s == [] then []
    else (if cmp(s[0], y) == 0 then [s[0]] else []) + EquivalentTo(s[1..], y, cmp)
  }

  lemma EquivalentToCons<T>(x: T, s: seq<T>, y: T, cmp: (T, T) -> int)
    ensures EquivalentTo([x] + s, y, cmp) == (if cmp(x, y) == 0 then [x] else []) + EquivalentTo(s, y, cmp)
  {
    assert ([x] + s)[1..] == s;
  }

  /** Appending an element appends it to its equivalence class, if it belongs there. */
  lemma {:induction false} EquivalentToSnoc<T>(init: seq<T>, last: T, y: T, cmp: (T, T) -> int)
    ensures EquivalentTo(init + [last], y, cmp)
         == EquivalentTo(init, y, cmp) + (if cmp(last, y) == 0 then [last] else [])
  {
    if init != [] {
      assert (init + [last])[1..] == init[1..] + [last];
      EquivalentToSnoc(init[1..], last, y, cmp);
    }
  }

  /** A list none of whose elements is equivalent to `y` holds no part of its class. */
  lemma {:induction false} EquivalentToNone<T>(s: seq<T>, y: T, cmp: (T, T) -> int)
    requires forall k :: 0 <= k < |s| ==> cmp(s[k], y) != 0
    ensures EquivalentTo(s, y, cmp) == []
  {
    if s != [] {
      EquivalentToNone(s[1..], y, cmp);
    }
  }

  /** No element of a sorted list that lies above a strictly larger `x` is equivalent to `x`. */
  lemma InsertBeforeSeparates<T(!new)>(sorted: seq<T>, x: T, y: T, cmp: (T, T) -> int)
    requires IsComparator(cmp)
    requires Sorted(sorted, cmp)
    requires sorted != [] && cmp(x, sorted[0]) < 0 && cmp(x, y) == 0
    ensures EquivalentTo(sorted, y, cmp) == []
  {
    forall k | 0 <= k < |sorted|
      ensures cmp(sorted[k], y) != 0
    {
      // were sorted[k] equivalent to y, and so to x, x could not sort before sorted[0]
      HeadFirst(sorted, cmp, k);
      assert AntisymmetricAt(cmp, x, y);
      assert TransitiveAt(cmp, sorted[k], y, x);
      assert TransitiveAt(cmp, sorted[0], sorted[k], x);
      assert AntisymmetricAt(cmp, x, sorted[0]);
    }
    EquivalentToNone(sorted, y, cmp);
  }

  /** Inserting `x` at the front adds it, if at all, to the front of its equivalence class. */
  lemma InsertStableFront<T(!new)>(sorted: seq<T>, x: T, y: T, cmp: (T, T) -> int)
    requires IsComparator(cmp)
    requires Sorted(sorted, cmp)
    requires sorted != [] && cmp(x, sorted[0]) < 0
    ensures EquivalentTo([x] + sorted, y, cmp)
         == EquivalentTo(sorted, y, cmp) + (if cmp(x, y) == 0 then [x] else [])
  {
    EquivalentToCons(x, sorted, y, cmp);
    if cmp(x, y) == 0 {
      InsertBeforeSeparates(sorted, x, y, cmp);
    }
  }

  /** Inserting into a sorted list appends `x` to its equivalence class. */
  lemma {:induction false} InsertStable<T(!new)>(sorted: seq<T>, x: T, y: T, cmp: (T, T) -> int)
    requires IsComparator(cmp)
    requires Sorted(sorted, cmp)
    ensures EquivalentTo(Insert(sorted, x, cmp), y, cmp)
         == EquivalentTo(sorted, y, cmp) + (if cmp(x, y) == 0 then [x] else [])
  {
    if sorted == [] {
    } else if cmp(x, sorted[0]) < 0 {
      InsertStableFront(sorted, x, y, cmp);
    } else {
      var h, rest := sorted[0], sorted[1..];
      assert Insert(sorted, x, cmp) == [h] + Insert(rest, x, cmp);
      InsertStable(rest, x, y, cmp);
      EquivalentToCons(h, Insert(rest, x, cmp), y, cmp);
    }
  }

  /** Stability: elements that compare equal keep their relative order. */
  lemma {:induction false} SortByStable<T(!new)>(s: seq<T>, y: T, cmp: (T, T) -> int)
    requires IsComparator(cmp)
    ensures EquivalentTo(SortBy(s, cmp), y, cmp) == EquivalentTo(s, y, cmp)
    decreases |s|
  {
    if s != [] {
      var init, last := s[..|s| - 1], s[|s| - 1];
      assert s == init + [last];
      var sortedInit := SortBy(init, cmp);
      assert SortBy(s, cmp) == Insert(sortedInit, last, cmp);
      SortByStable(init, y, cmp);
      SortBySorted(init, cmp);
      InsertStable(sortedInit, last, y, cmp);
      EquivalentToSnoc(init, last, y, cmp);
    }
  }
}
