/**
 * Stable sorting by an integer key, as `Array.prototype.sort` with a comparator returning
 * `key(a) - key(b)` does (the sort is stable since ECMAScript 2019). Used on a copy: the
 * input sequence is a value and is never reordered.
 */
module Sorting {
  predicate SortedBy<T>(s: seq<T>, key: T -> int) {
    forall i, j :: 0 <= i < j < |s| ==> key(s[i]) <= key(s[j])
  }

  /** `x` placed before the first element whose key is at least its own. */
  function Insert<T>(x: T, s: seq<T>, key: T -> int): (r: seq<T>)
    ensures |r| == |s| + 1
    ensures multiset(r) == multiset(s) + multiset{x}
  {
    if s == [] || key(x) <= key(s[0]) then [x] + s
    else
      assert s == [s[0]] + s[1..];
      [s[0]] + Insert(x, s[1..], key)
  }

  function SortBy<T>(s: seq<T>, key: T -> int): (r: seq<T>)
    ensures |r| == |s|
    ensures multiset(r) == multiset(s)
  {
    if s == [] then []
    else
      assert s == [s[0]] + s[1..];
      Insert(s[0], SortBy(s[1..], key), key)
  }

  lemma {:induction false} InsertSorted<T>(x: T, s: seq<T>, key: T -> int)
    requires SortedBy(s, key)
    ensures SortedBy(Insert(x, s, key), key)
  {
    if !(s == [] || key(x) <= key(s[0])) {
      InsertSorted(x, s[1..], key);
      var t := Insert(x, s[1..], key);
      assert Insert(x, s, key) == [s[0]] + t;
      InsertAbove(x, s[1..], key, key(s[0]));
    }
  }

  /** A bound below `x` and every element of `s` stays below every element after the insertion. */
  lemma {:induction false} InsertAbove<T>(x: T, s: seq<T>, key: T -> int, b: int)
    requires b <= key(x) && forall i :: 0 <= i < |s| ==> b <= key(s[i])
    ensures forall j :: 0 <= j < |Insert(x, s, key)| ==> b <= key(Insert(x, s, key)[j])
  {
    if !(s == [] || key(x) <= key(s[0])) {
      InsertAbove(x, s[1..], key, b);
      assert Insert(x, s, key) == [s[0]] + Insert(x, s[1..], key);
    }
  }

  /** The result is sorted by the key. */
  lemma {:induction false} SortBySorted<T>(s: seq<T>, key: T -> int)
    ensures SortedBy(SortBy(s, key), key)
  {
    if s != [] {
      SortBySorted(s[1..], key);
      InsertSorted(s[0], SortBy(s[1..], key), key);
    }
  }

  /** The elements of `s` with key `k`, in order. */
  function WithKey<T>(s: seq<T>, k: int, key: T -> int): seq<T> {
    if s == [] then [] else (if key(s[0]) == k then [s[0]] else []) + WithKey(s[1..], k, key)
  }

  lemma {:induction false} WithKeyInsert<T>(x: T, s: seq<T>, k: int, key: T -> int)
    requires SortedBy(s, key)
    ensures WithKey(Insert(x, s, key), k, key) == (if key(x) == k then [x] else []) + WithKey(s, k, key)
  {
    if s == [] || key(x) <= key(s[0]) {
      assert ([x] + s)[1..] == s;
    } else {
      WithKeyInsert(x, s[1..], k, key);
      assert ([s[0]] + Insert(x, s[1..], key))[1..] == Insert(x, s[1..], key);
      // s[0]'s key is below x's, so at most one of the two has key k
      assert key(s[0]) < key(x);
      assert WithKey(s, k, key) == (if key(s[0]) == k then [s[0]] else []) + WithKey(s[1..], k, key);
    }
  }

  /** Elements with equal keys keep their relative order (stability). */
  lemma {:induction false} SortByStable<T>(s: seq<T>, k: int, key: T -> int)
    ensures WithKey(SortBy(s, key), k, key) == WithKey(s, k, key)
  {
    if s != [] {
      SortByStable(s[1..], k, key);
      SortBySorted(s[1..], key);
      WithKeyInsert(s[0], SortBy(s[1..], key), k, key);
    }
  }
}
