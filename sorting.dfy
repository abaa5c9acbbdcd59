/**
 * Stable sorting of a sequence by a real-valued key, ascending or descending.
 * This is the meaning of Python's `list.sort(key=..., reverse=...)` and
 * `sorted(...)`: the result is ordered by key, is a permutation of the input,
 * and keeps the input order among elements with equal keys (Python keeps that
 * order also when `reverse=True`).
 */
module Sorting {

  /** `a` may stand before `b` in the requested direction. */
  predicate Precedes(a: real, b: real, descending: bool) {
    if descending then a >= b else a <= b
  }

  ghost predicate SortedBy<T>(s: seq<T>, key: T -> real, descending: bool) {
    forall i, j :: 0 <= i < j < |s| ==> Precedes(key(s[i]), key(s[j]), descending)
  }

  /** The elements of `s` whose key is `k`, in their order in `s`. */
  function WithKey<T>(s: seq<T>, key: T -> real, k: real): seq<T> {
    if s == [] then []
    else (if key(s[0]) == k then [s[0]] else []) + WithKey(s[1..], key, k)
  }

  /** A stable sort of `s`: ordered, a permutation, equal keys in input order. */
  ghost predicate IsStableSortOf<T>(r: seq<T>, s: seq<T>, key: T -> real, descending: bool) {
    && SortedBy(r, key, descending)
    && multiset(r) == multiset(s)
    && forall k :: WithKey(r, key, k) == WithKey(s, key, k)
  }

  /** Puts `x` in front of the first element it may precede. */
  function Insert<T>(x: T, s: seq<T>, key: T -> real, descending: bool): seq<T> {
    if s == [] || Precedes(key(x), key(s[0]), descending) then [x] + s
    else [s[0]] + Insert(x, s[1..], key, descending)
  }

  /** Insertion sort: the sort the source obtains from `list.sort`. */
  function Sort<T>(s: seq<T>, key: T -> real, descending: bool): seq<T> {
    if s == [] then [] else Insert(s[0], Sort(s[1..], key, descending), key, descending)
  }

  lemma {:induction false} InsertPermutes<T>(x: T, s: seq<T>, key: T -> real, descending: bool)
    ensures multiset(Insert(x, s, key, descending)) == multiset(s) + multiset{x}
  {
    if s != [] && !Precedes(key(x), key(s[0]), descending) {
      InsertPermutes(x, s[1..], key, descending);
      assert s == [s[0]] + s[1..];
    }
  }

  lemma {:induction false} SortPermutes<T>(s: seq<T>, key: T -> real, descending: bool)
    ensures multiset(Sort(s, key, descending)) == multiset(s)
  {
    if s != [] {
      SortPermutes(s[1..], key, descending);
      InsertPermutes(s[0], Sort(s[1..], key, descending), key, descending);
      assert s == [s[0]] + s[1..];
    }
  }

  lemma {:induction false} InsertSorted<T>(x: T, s: seq<T>, key: T -> real, descending: bool)
    requires SortedBy(s, key, descending)
    ensures SortedBy(Insert(x, s, key, descending), key, descending)
  {
    if s != [] && !Precedes(key(x), key(s[0]), descending) {
      var rest := Insert(x, s[1..], key, descending);
      InsertSorted(x, s[1..], key, descending);
      InsertPermutes(x, s[1..], key, descending);
      forall j | 0 <= j < |rest|
        ensures Precedes(key(s[0]), key(rest[j]), descending)
      {
        assert rest[j] in multiset(rest);
        if rest[j] != x {
          assert rest[j] in multiset(s[1..]);
          var m :| 0 <= m < |s[1..]| && s[1..][m] == rest[j];
          assert s[m + 1] == rest[j];
        }
      }
      assert Insert(x, s, key, descending) == [s[0]] + rest;
    }
  }

  lemma {:induction false} SortSorted<T>(s: seq<T>, key: T -> real, descending: bool)
    ensures SortedBy(Sort(s, key, descending), key, descending)
  {
    if s != [] {
      SortSorted(s[1..], key, descending);
      InsertSorted(s[0], Sort(s[1..], key, descending), key, descending);
    }
  }

  lemma {:induction false} WithKeyInsert<T>(x: T, s: seq<T>, key: T -> real, descending: bool, k: real)
    ensures WithKey(Insert(x, s, key, descending), key, k)
         == (if key(x) == k then [x] else []) + WithKey(s, key, k)
  {
    if s == [] || Precedes(key(x), key(s[0]), descending) {
      assert ([x] + s)[1..] == s;
    } else {
      var rest := Insert(x, s[1..], key, descending);
      var a := if key(s[0]) == k then [s[0]] else [];
      var b := if key(x) == k then [x] else [];
      var w := WithKey(s[1..], key, k);
      assert ([s[0]] + rest)[0] == s[0] && ([s[0]] + rest)[1..] == rest;
      WithKeyInsert(x, s[1..], key, descending, k);
      assert WithKey(Insert(x, s, key, descending), key, k) == a + (b + w);
      assert WithKey(s, key, k) == a + w;
      assert a == [] || b == [] by { assert key(s[0]) != key(x); }
      if a == [] {
        assert a + (b + w) == b + w && a + w == w;
      } else {
        assert b + (a + w) == a + w && a + (b + w) == a + w;
      }
    }
  }

  lemma {:induction false} WithKeySort<T>(s: seq<T>, key: T -> real, descending: bool, k: real)
    ensures WithKey(Sort(s, key, descending), key, k) == WithKey(s, key, k)
  {
    if s != [] {
      WithKeySort(s[1..], key, descending, k);
      WithKeyInsert(s[0], Sort(s[1..], key, descending), key, descending, k);
    }
  }

  /** `Sort` is a stable sort. */
  lemma SortIsStable<T>(s: seq<T>, key: T -> real, descending: bool)
    ensures IsStableSortOf(Sort(s, key, descending), s, key, descending)
    ensures |Sort(s, key, descending)| == |s|
  {
    SortSorted(s, key, descending);
    SortPermutes(s, key, descending);
    assert |multiset(Sort(s, key, descending))| == |multiset(s)|;
    forall k ensures WithKey(Sort(s, key, descending), key, k) == WithKey(s, key, k) {
      WithKeySort(s, key, descending, k);
    }
  }

  /** The first element of a sorted permutation carries the extreme key. */
  lemma FirstIsExtreme<T>(r: seq<T>, s: seq<T>, key: T -> real, descending: bool)
    requires SortedBy(r, key, descending) && multiset(r) == multiset(s) && r != []
    ensures r[0] in s
    ensures forall x :: x in s ==> Precedes(key(r[0]), key(x), descending)
  {
    assert r[0] in multiset(r);
    forall x | x in s ensures Precedes(key(r[0]), key(x), descending) {
      assert x in multiset(r);
      var j :| 0 <= j < |r| && r[j] == x;
      if j > 0 {
        assert Precedes(key(r[0]), key(r[j]), descending);
      }
    }
  }

  /** The last element of a sorted permutation carries the opposite extreme. */
  lemma LastIsExtreme<T>(r: seq<T>, s: seq<T>, key: T -> real, descending: bool)
    requires SortedBy(r, key, descending) && multiset(r) == multiset(s) && r != []
    ensures r[|r| - 1] in s
    ensures forall x :: x in s ==> Precedes(key(x), key(r[|r| - 1]), descending)
  {
    assert r[|r| - 1] in multiset(r);
    forall x | x in s ensures Precedes(key(x), key(r[|r| - 1]), descending) {
      assert x in multiset(r);
      var j :| 0 <= j < |r| && r[j] == x;
      if j < |r| - 1 {
        assert Precedes(key(r[j]), key(r[|r| - 1]), descending);
      }
    }
  }

  /** The second element of a sorted permutation is extreme once the first is set aside. */
  lemma SecondIsNextExtreme<T>(r: seq<T>, s: seq<T>, key: T -> real, descending: bool)
    requires SortedBy(r, key, descending) && multiset(r) == multiset(s) && |r| >= 2
    ensures r[1] in multiset(s) - multiset{r[0]}
    ensures forall x :: x in multiset(s) - multiset{r[0]} ==> Precedes(key(r[1]), key(x), descending)
  {
    var tail := r[1..];
    assert r == [r[0]] + tail;
    assert multiset(s) - multiset{r[0]} == multiset(tail);
    assert SortedBy(tail, key, descending) by {
      forall i, j | 0 <= i < j < |tail| ensures Precedes(key(tail[i]), key(tail[j]), descending) {
        assert tail[i] == r[i + 1] && tail[j] == r[j + 1];
      }
    }
    FirstIsExtreme(tail, tail, key, descending);
  }
}
