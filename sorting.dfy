/**
 * A reference for JavaScript's `Array.prototype.sort(compare)`: a stable
 * insertion sort driven by the same three-way comparator. For a comparator
 * that is a total preorder and whose signs agree (`cmp(a, b) < 0` exactly
 * when `cmp(b, a) > 0`) every stable sort gives this order; for any other
 * comparator the order JavaScript produces is implementation-defined and
 * this is one admissible outcome. The sortedness lemmas below need only the
 * total preorder.
 */
module Sorting {

  /** `cmp(a, b) <= 0` is total and transitive: "a may come before b". */
  ghost predicate TotalPreorder<T(!new)>(cmp: (T, T) -> int) {
    && (forall a, b :: cmp(a, b) <= 0 || cmp(b, a) <= 0)
    && (forall a, b, c :: cmp(a, b) <= 0 && cmp(b, c) <= 0 ==> cmp(a, c) <= 0)
  }

  ghost predicate SortedBy<T>(cmp: (T, T) -> int, s: seq<T>) {
    forall i, j :: 0 <= i < j < |s| ==> cmp(s[i], s[j]) <= 0
  }

  /** Puts `x` in front of the first element it may precede. */
  function Insert<T>(cmp: (T, T) -> int, x: T, s: seq<T>): (r: seq<T>)
    ensures |r| == |s| + 1
    ensures multiset(r) == multiset(s) + multiset{x}
  {
    if s == [] then [x]
    else if cmp(x, s[0]) <= 0 then [x] + s
    else
      assert s == [s[0]] + s[1..];
      [s[0]] + Insert(cmp, x, s[1..])
  }

  /** `s.sort(cmp)`, as a value: the result is a rearrangement of `s`. */
  function SortBy<T>(cmp: (T, T) -> int, s: seq<T>): (r: seq<T>)
    ensures |r| == |s|
    ensures multiset(r) == multiset(s)
  {
    if s == [] then []
    else
      assert s == [s[0]] + s[1..];
      Insert(cmp, s[0], SortBy(cmp, s[1..]))
  }

  lemma {:induction false} InsertSorted<T(!new)>(cmp: (T, T) -> int, x: T, s: seq<T>)
    requires TotalPreorder(cmp) && SortedBy(cmp, s)
    ensures SortedBy(cmp, Insert(cmp, x, s))
  {
    if s == [] {
    } else if cmp(x, s[0]) <= 0 {
      PrecedesSorted(cmp, x, s);
      ConsSorted(cmp, x, s);
    } else {
      var tail := Insert(cmp, x, s[1..]);
      SortedTail(cmp, s);
      InsertSorted(cmp, x, s[1..]);
      forall j | 0 <= j < |tail| ensures cmp(s[0], tail[j]) <= 0 {
        FirstPrecedes(cmp, x, s, tail[j]);
      }
      ConsSorted(cmp, s[0], tail);
    }
  }

  /** What precedes the head of a sorted sequence precedes all of it. */
  lemma PrecedesSorted<T(!new)>(cmp: (T, T) -> int, x: T, s: seq<T>)
    requires TotalPreorder(cmp) && SortedBy(cmp, s)
    requires s != [] && cmp(x, s[0]) <= 0
    ensures forall j :: 0 <= j < |s| ==> cmp(x, s[j]) <= 0
  {
    forall j | 0 < j < |s| ensures cmp(x, s[j]) <= 0 {
      assert cmp(s[0], s[j]) <= 0;
    }
  }

  lemma SortedTail<T>(cmp: (T, T) -> int, s: seq<T>)
    requires SortedBy(cmp, s) && s != []
    ensures SortedBy(cmp, s[1..])
  {
    forall i, j | 0 <= i < j < |s| - 1 ensures cmp(s[1..][i], s[1..][j]) <= 0 {
      assert s[1..][i] == s[i + 1] && s[1..][j] == s[j + 1];
    }
  }

  /** An element that precedes everything of a sorted sequence can go in front of it. */
  lemma ConsSorted<T>(cmp: (T, T) -> int, x: T, s: seq<T>)
    requires SortedBy(cmp, s)
    requires forall j :: 0 <= j < |s| ==> cmp(x, s[j]) <= 0
    ensures SortedBy(cmp, [x] + s)
  {
    var r := [x] + s;
    forall i, j | 0 <= i < j < |r| ensures cmp(r[i], r[j]) <= 0 {
      assert r[j] == s[j - 1];
      if i > 0 {
        assert r[i] == s[i - 1];
      }
    }
  }

  /** When `x` goes after `s[0]`, `s[0]` precedes everything inserted behind it. */
  lemma FirstPrecedes<T(!new)>(cmp: (T, T) -> int, x: T, s: seq<T>, y: T)
    requires TotalPreorder(cmp) && SortedBy(cmp, s)
    requires s != [] && cmp(x, s[0]) > 0
    requires y in multiset(Insert(cmp, x, s[1..]))
    ensures cmp(s[0], y) <= 0
  {
    if y != x {
      assert y in multiset(s[1..]);
      var k :| 0 <= k < |s[1..]| && s[1..][k] == y;
      assert s[k + 1] == y;
    }
  }

  /** Under a total-preorder comparator the sort really sorts. */
  lemma {:induction false} SortBySorted<T(!new)>(cmp: (T, T) -> int, s: seq<T>)
    requires TotalPreorder(cmp)
    ensures SortedBy(cmp, SortBy(cmp, s))
  {
    if s != [] {
      SortBySorted(cmp, s[1..]);
      InsertSorted(cmp, s[0], SortBy(cmp, s[1..]));
    }
  }

  /** Sorting by a numeric key: the comparator `key(a) - key(b)` of the source. */
  function ByKey<T>(key: T -> int): (cmp: (T, T) -> int)
  {
    (a: T, b: T) => key(a) - key(b)
  }

  /** A key-difference comparator is a total preorder, so the result ascends by key. */
  lemma SortByKeyAscends<T(!new)>(key: T -> int, s: seq<T>)
    ensures multiset(SortBy(ByKey(key), s)) == multiset(s)
    ensures forall i, j :: 0 <= i < j < |s| ==> key(SortBy(ByKey(key), s)[i]) <= key(SortBy(ByKey(key), s)[j])
  {
    var cmp := ByKey(key);
    assert TotalPreorder(cmp);
    SortBySorted(cmp, s);
    var r := SortBy(cmp, s);
    forall i, j | 0 <= i < j < |s| ensures key(r[i]) <= key(r[j]) {
      assert cmp(r[i], r[j]) <= 0;
    }
  }
}
