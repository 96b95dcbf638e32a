/**
 * `Array.prototype.sort` with a comparator. Since ECMAScript 2019 the sort is stable, so its
 * result is fully determined: an element goes after every earlier element the comparator does
 * not place after it. `InsertionSort` is that result written as a function; `SortInPlace` is the
 * in-place sort the converter runs on its arrays, proved equal to it.
 *
 * A comparator is given as `le(a, b)`: "the comparator's result for (a, b) is at most 0", which
 * is when a stable sort keeps `a` in front of a later `b`. A comparator that returns NaN counts
 * as 0, so `le` holds both ways for such a pair.
 */
module Sorting {

  /** `le` is total and transitive on the elements of `s`: a consistent comparator there. */
  ghost predicate TotalPreorderOn<T(!new)>(le: (T, T) -> bool, s: seq<T>) {
    && (forall x, y :: x in s && y in s ==> le(x, y) || le(y, x))
    && (forall x, y, z :: x in s && y in s && z in s && le(x, y) && le(y, z) ==> le(x, z))
  }

  predicate SortedBy<T>(s: seq<T>, le: (T, T) -> bool) {
    forall i, j :: 0 <= i < j < |s| ==> le(s[i], s[j])
  }

  /** `x` placed after the last element that `le` allows in front of it, scanning from the end. */
  function Insert<T>(s: seq<T>, x: T, le: (T, T) -> bool): (r: seq<T>)
    ensures |r| == |s| + 1
  {
    if s == [] then [x]
    else if le(s[|s| - 1], x) then s + [x]
    else Insert(s[..|s| - 1], x, le) + [s[|s| - 1]]
  }

  /** Inserting adds exactly the one element. */
  lemma {:induction false} InsertPermutes<T>(s: seq<T>, x: T, le: (T, T) -> bool)
    ensures multiset(Insert(s, x, le)) == multiset(s) + multiset{x}
    decreases |s|
  {
    if s != [] && !le(s[|s| - 1], x) {
      InsertPermutes(s[..|s| - 1], x, le);
      assert s == s[..|s| - 1] + [s[|s| - 1]];
    }
  }

  /** The stable sort of `s`: each element inserted, in turn, into the sorted prefix before it. */
  function InsertionSort<T>(s: seq<T>, le: (T, T) -> bool): (r: seq<T>)
    ensures |r| == |s|
  {
    if s == [] then []
    else Insert(InsertionSort(s[..|s| - 1], le), s[|s| - 1], le)
  }

  /** The sort is a permutation of its input. */
  lemma {:induction false} InsertionSortPermutes<T>(s: seq<T>, le: (T, T) -> bool)
    ensures multiset(InsertionSort(s, le)) == multiset(s)
    decreases |s|
  {
    if s != [] {
      InsertionSortPermutes(s[..|s| - 1], le);
      InsertPermutes(InsertionSort(s[..|s| - 1], le), s[|s| - 1], le);
      assert s == s[..|s| - 1] + [s[|s| - 1]];
    }
  }

  lemma {:induction false} InsertSorted<T(!new)>(s: seq<T>, x: T, le: (T, T) -> bool)
    requires SortedBy(s, le) && TotalPreorderOn(le, s + [x])
    ensures SortedBy(Insert(s, x, le), le)
    decreases |s|
  {
    if s != [] && !le(s[|s| - 1], x) {
      var init, last := s[..|s| - 1], s[|s| - 1];
      assert last in s + [x] && x in s + [x];
      assert le(x, last);
      assert TotalPreorderOn(le, init + [x]) by {
        forall y | y in init + [x] ensures y in s + [x] {
          if y in init {
            var i :| 0 <= i < |init| && init[i] == y;
            assert s[i] == y;
          }
        }
      }
      InsertSorted(init, x, le);
      var r := Insert(init, x, le);
      InsertPermutes(init, x, le);
      forall y | y in r ensures le(y, last) {
        assert y in multiset(r);
        if y != x {
          assert y in multiset(init);
          var i :| 0 <= i < |init| && init[i] == y;
          assert s[i] == y;
        }
      }
      forall i, j | 0 <= i < j < |r| + 1 ensures le((r + [last])[i], (r + [last])[j]) {
        if j == |r| {
          assert r[i] in r;
        } else {
          assert (r + [last])[i] == r[i] && (r + [last])[j] == r[j];
        }
      }
    }
  }

  lemma PrefixInSeq<T>(s: seq<T>, y: T)
    requires s != [] && y in s[..|s| - 1]
    ensures y in s
  {
    var i :| 0 <= i < |s| - 1 && s[..|s| - 1][i] == y;
    assert s[i] == y;
  }

  /** With a consistent comparator, the stable sort is sorted (and, by its contract, a permutation). */
  lemma {:induction false} InsertionSortSorted<T(!new)>(s: seq<T>, le: (T, T) -> bool)
    requires TotalPreorderOn(le, s)
    ensures SortedBy(InsertionSort(s, le), le)
    decreases |s|
  {
    if s != [] {
      var init, last := s[..|s| - 1], s[|s| - 1];
      forall y | y in init ensures y in s {
        PrefixInSeq(s, y);
      }
      InsertionSortSorted(init, le);
      var sorted := InsertionSort(init, le);
      InsertionSortPermutes(init, le);
      forall y | y in sorted + [last] ensures y in s {
        if y in sorted {
          assert y in multiset(sorted);
          assert y in init;
        }
      }
      InsertSorted(sorted, last, le);
    }
  }

  /** A list that is already in order comes back unchanged: sorting is idempotent. */
  lemma {:induction false} InsertionSortOfSorted<T>(s: seq<T>, le: (T, T) -> bool)
    requires SortedBy(s, le)
    ensures InsertionSort(s, le) == s
    decreases |s|
  {
    if s != [] {
      var init := s[..|s| - 1];
      assert SortedBy(init, le);
      InsertionSortOfSorted(init, le);
      if |s| > 1 {
        assert le(s[|s| - 2], s[|s| - 1]);
      }
      assert s == init + [s[|s| - 1]];
    }
  }

  lemma InsertionSortStep<T>(s: seq<T>, k: nat, le: (T, T) -> bool)
    requires k < |s|
    ensures InsertionSort(s[..k + 1], le) == Insert(InsertionSort(s[..k], le), s[k], le)
  {
    assert s[..k + 1][..k] == s[..k];
  }

  /** Inserting into a prefix that ends with an element `le` refuses moves that element behind. */
  lemma InsertPast<T>(s: seq<T>, j: nat, x: T, le: (T, T) -> bool)
    requires 0 < j <= |s| && !le(s[j - 1], x)
    ensures Insert(s[..j], x, le) == Insert(s[..j - 1], x, le) + [s[j - 1]]
  {
    assert s[..j][..j - 1] == s[..j - 1];
  }

  /**
   * The stable sort, in place: insertion sort, shifting each element left past the elements that
   * must follow it.
   */
  method SortInPlace<T>(a: array<T>, le: (T, T) -> bool)
    modifies a
    ensures a[..] == InsertionSort(old(a[..]), le)
  {
    ghost var was := a[..];
    var i := 0;
    while i < a.Length
      invariant 0 <= i <= a.Length
      invariant a[..i] == InsertionSort(was[..i], le)
      invariant forall k :: i <= k < a.Length ==> a[k] == was[k]
    {
      assert a[i] == was[i];
      InsertAt(a, i, le);
      InsertionSortStep(was, i, le);
      i := i + 1;
    }
    assert a[..] == a[..a.Length] && was == was[..a.Length];
  }

  /** Moves `a[i]` into its place in the prefix before it; the elements after `i` stay put. */
  method InsertAt<T>(a: array<T>, i: nat, le: (T, T) -> bool)
    requires i < a.Length
    modifies a
    ensures a[..i + 1] == Insert(old(a[..i]), old(a[i]), le)
    ensures forall k :: i < k < a.Length ==> a[k] == old(a[k])
  {
    ghost var sorted := a[..i];
    var x := a[i];
    var j := ShiftRight(a, i, x, le);
    InsertStop(sorted, j, x, le);
    ghost var before := a[..];
    a[j] := x;
    assert a[..] == before[j := x];
    Assemble(before, sorted, i, j, x);
    assert a[..i + 1] == before[j := x][..i + 1];
  }

  /**
   * Shifts right, one place, the elements at the end of `a[..i]` that must follow `x`, and returns
   * the index of the hole left for `x`.
   */
  method ShiftRight<T>(a: array<T>, i: nat, x: T, le: (T, T) -> bool) returns (j: nat)
    requires i < a.Length
    modifies a
    ensures j <= i
    ensures forall k :: 0 <= k < j ==> a[k] == old(a[k])
    ensures forall k :: j < k <= i ==> a[k] == old(a[k - 1])
    ensures forall k :: i < k < a.Length ==> a[k] == old(a[k])
    ensures j > 0 ==> le(old(a[j - 1]), x)
    ensures Insert(old(a[..i]), x, le) == Insert(old(a[..i])[..j], x, le) + old(a[..i])[j..]
  {
    ghost var sorted := a[..i];
    j := i;
    assert sorted[..j] == sorted && sorted[j..] == [];
    while j > 0 && !le(a[j - 1], x)
      invariant 0 <= j <= i
      invariant forall k :: 0 <= k < j ==> a[k] == sorted[k]
      invariant forall k :: j < k <= i ==> a[k] == sorted[k - 1]
      invariant forall k :: i < k < a.Length ==> a[k] == old(a[k])
      invariant Insert(sorted, x, le) == Insert(sorted[..j], x, le) + sorted[j..]
    {
      InsertShift(sorted, j, x, le);
      a[j] := a[j - 1];
      j := j - 1;
    }
  }

  /** The array after the last move: the prefix sorted, `x` in the hole, the moved elements after it. */
  lemma Assemble<T>(before: seq<T>, sorted: seq<T>, i: nat, j: nat, x: T)
    requires j <= i == |sorted| < |before|
    requires forall k :: 0 <= k < j ==> before[k] == sorted[k]
    requires forall k :: j < k <= i ==> before[k] == sorted[k - 1]
    ensures before[j := x][..i + 1] == sorted[..j] + [x] + sorted[j..]
  {
  }

  lemma InsertShift<T>(sorted: seq<T>, j: nat, x: T, le: (T, T) -> bool)
    requires 0 < j <= |sorted| && !le(sorted[j - 1], x)
    requires Insert(sorted, x, le) == Insert(sorted[..j], x, le) + sorted[j..]
    ensures Insert(sorted, x, le) == Insert(sorted[..j - 1], x, le) + sorted[j - 1..]
  {
    InsertPast(sorted, j, x, le);
    Reassociate(Insert(sorted[..j - 1], x, le), sorted[j - 1], sorted[j..], sorted[j - 1..]);
  }

  lemma Reassociate<T>(b: seq<T>, y: T, t: seq<T>, u: seq<T>)
    requires u == [y] + t
    ensures (b + [y]) + t == b + u
  {
  }

  lemma InsertStop<T>(sorted: seq<T>, j: nat, x: T, le: (T, T) -> bool)
    requires j <= |sorted| && (j > 0 ==> le(sorted[j - 1], x))
    ensures Insert(sorted[..j], x, le) == sorted[..j] + [x]
  {
    if j > 0 {
      assert sorted[..j][j - 1] == sorted[j - 1];
    }
  }

  /** Sorts a copy of `s` in an array, as the converter's in-place sorts do. */
  method Sort<T>(s: seq<T>, le: (T, T) -> bool) returns (r: seq<T>)
    ensures r == InsertionSort(s, le)
  {
    var a := new T[|s|](i requires 0 <= i < |s| => s[i]);
    assert a[..] == s;
    SortInPlace(a, le);
    r := a[..];
  }
}
