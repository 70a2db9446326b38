/**
 * The stable sort behind `Array.prototype.sort(compare)`: insertion into an ordered list, where an
 * element goes in front of the first element it does not follow. `leq(a, b)` stands for
 * `compare(a, b) <= 0`.
 */
module Sorting {

  ghost predicate Total<T(!new)>(leq: (T, T) -> bool)
  {
    forall a, b :: leq(a, b) || leq(b, a)
  }

  ghost predicate Transitive<T(!new)>(leq: (T, T) -> bool)
  {
    forall a, b, c :: leq(a, b) && leq(b, c) ==> leq(a, c)
  }

  predicate Sorted<T>(s: seq<T>, leq: (T, T) -> bool)
  {
    forall i, j :: 0 <= i < j < |s| ==> leq(s[i], s[j])
  }

  function Insert<T>(x: T, s: seq<T>, leq: (T, T) -> bool): (r: seq<T>)
    ensures multiset(r) == multiset(s) + multiset{x}
    ensures |r| == |s| + 1
  {
    if s == [] then [x]
    else if leq(x, s[0]) then [x] + s
    else
      assert s == [s[0]] + s[1..];
      [s[0]] + Insert(x, s[1..], leq)
  }

  function Sort<T>(s: seq<T>, leq: (T, T) -> bool): (r: seq<T>)
    ensures multiset(r) == multiset(s)
    ensures |r| == |s|
  {
    if s == [] then []
    else
      assert s == [s[0]] + s[1..];
      Insert(s[0], Sort(s[1..], leq), leq)
  }

  lemma {:induction false} InsertSorted<T(!new)>(x: T, s: seq<T>, leq: (T, T) -> bool)
    requires Total(leq) && Transitive(leq)
    requires Sorted(s, leq)
    ensures Sorted(Insert(x, s, leq), leq)
  {
    if s != [] && !leq(x, s[0]) {
      InsertSorted(x, s[1..], leq);
      var r := Insert(x, s[1..], leq);
      assert leq(s[0], x);
      forall k | 0 <= k < |r| ensures leq(s[0], r[k]) {
        assert r[k] in multiset(r);
        assert r[k] in multiset(s[1..]) + multiset{x};
        if r[k] in multiset(s[1..]) {
          var j :| 0 <= j < |s[1..]| && s[1..][j] == r[k];
          assert s[j + 1] == r[k];
        }
      }
    }
  }

  /** The sorted result is ordered by `leq` and holds the same elements as its input. */
  lemma {:induction false} SortSorted<T(!new)>(s: seq<T>, leq: (T, T) -> bool)
    requires Total(leq) && Transitive(leq)
    ensures Sorted(Sort(s, leq), leq)
  {
    if s != [] {
      SortSorted(s[1..], leq);
      InsertSorted(s[0], Sort(s[1..], leq), leq);
    }
  }

  /** A list that is already in order comes back unchanged: the sort never swaps equal elements. */
  lemma {:induction false} SortOfSorted<T>(s: seq<T>, leq: (T, T) -> bool)
    requires Sorted(s, leq)
    ensures Sort(s, leq) == s
  {
    if s != [] {
      SortOfSorted(s[1..], leq);
      assert Sort(s[1..], leq) == s[1..];
      if |s| > 1 {
        assert leq(s[0], s[1]);
      }
    }
  }
}
