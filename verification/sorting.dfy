/** `Array.prototype.sort` with a comparator, as a stable insertion sort.

    A comparator `cmp` is represented by the relation `le(a, b)` that holds
    exactly when `cmp(a, b) <= 0`, i.e. when `a` may stay before `b`.  The
    sort is stable, as the language requires since ECMAScript 2019, and for a
    comparator that induces a total preorder the stable sorted order is unique,
    so any conforming engine produces the result computed here. */
module Sorting {

  ghost predicate Total<T(!new)>(le: (T, T) -> bool) {
    forall a, b :: le(a, b) || le(b, a)
  }

  ghost predicate Transitive<T(!new)>(le: (T, T) -> bool) {
    forall a, b, c :: le(a, b) && le(b, c) ==> le(a, c)
  }

  /** Every neighbouring pair is in order. */
  ghost predicate SortedBy<T>(s: seq<T>, le: (T, T) -> bool) {
    forall i :: 0 <= i < |s| - 1 ==> le(s[i], s[i + 1])
  }

  /** Insert `x` before the first element it may precede. */
  function Insert<T>(x: T, s: seq<T>, le: (T, T) -> bool): (r: seq<T>)
    ensures |r| == |s| + 1
    ensures multiset(r) == multiset(s) + multiset{x}
    ensures r[0] == x || (s != [] && r[0] == s[0])
    decreases |s|
  {
    if s == [] then [x]
    else if le(x, s[0]) then [x] + s
    else
      assert s == [s[0]] + s[1..];
      [s[0]] + Insert(x, s[1..], le)
  }

  function InsertionSort<T>(s: seq<T>, le: (T, T) -> bool): (r: seq<T>)
    ensures multiset(r) == multiset(s)
    ensures |r| == |s|
    decreases |s|
  {
    if s == [] then []
    else
      assert s == [s[0]] + s[1..];
      Insert(s[0], InsertionSort(s[1..], le), le)
  }

  lemma {:induction false} InsertSorted<T(!new)>(x: T, s: seq<T>, le: (T, T) -> bool)
    requires Total(le)
    requires SortedBy(s, le)
    ensures SortedBy(Insert(x, s, le), le)
    decreases |s|
  {
    if s != [] && !le(x, s[0]) {
      assert le(s[0], x);
      InsertSorted(x, s[1..], le);
      var t := Insert(x, s[1..], le);
      assert Insert(x, s, le) == [s[0]] + t;
      assert le(s[0], t[0]);
    }
  }

  /** With a total comparator the sort's result is ordered. */
  lemma {:induction false} InsertionSortSorted<T(!new)>(s: seq<T>, le: (T, T) -> bool)
    requires Total(le)
    ensures SortedBy(InsertionSort(s, le), le)
    decreases |s|
  {
    if s != [] {
      InsertionSortSorted(s[1..], le);
      InsertSorted(s[0], InsertionSort(s[1..], le), le);
    }
  }

  /** For a transitive relation, neighbour order gives order of every pair. */
  lemma {:induction false} SortedByAllPairs<T(!new)>(s: seq<T>, le: (T, T) -> bool)
    requires Transitive(le)
    requires SortedBy(s, le)
    ensures forall i, j :: 0 <= i < j < |s| ==> le(s[i], s[j])
    decreases |s|
  {
    if |s| > 1 {
      SortedByAllPairs(s[1..], le);
      forall j | 1 < j < |s|
        ensures le(s[0], s[j])
      {
        assert le(s[1], s[j]) by {
          assert s[1..][0] == s[1] && s[1..][j - 1] == s[j];
        }
      }
    }
  }
}
