/**
 * The list idioms the extension uses (`filter` followed by `map`, and a `Set` of keys built from
 * a list), stated once over any element type. Each is defined on a prefix of its input, so a
 * loop that pushes one element at a time keeps it as its invariant.
 */
module Seqs {
  /** `f` of each of the first `n` elements that pass `keep`, in order. */
  function KeptMapped<T, U>(xs: seq<T>, n: nat, keep: T -> bool, f: T -> U): seq<U>
    requires n <= |xs|
  {
    if n == 0 then [] else KeptMapped(xs, n - 1, keep, f) + (if keep(xs[n - 1]) then [f(xs[n - 1])] else [])
  }

  lemma {:induction false} KeptMappedMembers<T, U>(xs: seq<T>, n: nat, keep: T -> bool, f: T -> U, y: U)
    requires n <= |xs|
    ensures y in KeptMapped(xs, n, keep, f) <==> exists i :: 0 <= i < n && keep(xs[i]) && f(xs[i]) == y
  {
    if n > 0 {
      KeptMappedMembers(xs, n - 1, keep, f, y);
      if keep(xs[n - 1]) && f(xs[n - 1]) == y {
        assert y in KeptMapped(xs, n, keep, f);
      }
    }
  }

  lemma {:induction false} KeptMappedLength<T, U>(xs: seq<T>, n: nat, keep: T -> bool, f: T -> U)
    requires n <= |xs|
    ensures |KeptMapped(xs, n, keep, f)| <= n
  {
    if n > 0 {
      KeptMappedLength(xs, n - 1, keep, f);
    }
  }

  /** `f` of every element that passes `keep`: `xs.filter(keep).map(f)`. */
  function FilterMap<T, U>(xs: seq<T>, keep: T -> bool, f: T -> U): seq<U> {
    KeptMapped(xs, |xs|, keep, f)
  }

  /** `new Set(xs.slice(0, n).map(key))`. */
  function KeySet<T>(xs: seq<T>, n: nat, key: T -> string): (r: set<string>)
    requires n <= |xs|
  {
    if n == 0 then {} else KeySet(xs, n - 1, key) + {key(xs[n - 1])}
  }

  lemma {:induction false} KeySetMembers<T>(xs: seq<T>, n: nat, key: T -> string, k: string)
    requires n <= |xs|
    ensures k in KeySet(xs, n, key) <==> exists i :: 0 <= i < n && key(xs[i]) == k
  {
    if n > 0 {
      KeySetMembers(xs, n - 1, key, k);
    }
  }

  /** The elements among the first `n` that pass `keep`, in order: `xs.slice(0, n).filter(keep)`. */
  function Filter<T>(xs: seq<T>, n: nat, keep: T -> bool): (r: seq<T>)
    requires n <= |xs|
    ensures |r| <= n
  {
    if n == 0 then [] else Filter(xs, n - 1, keep) + (if keep(xs[n - 1]) then [xs[n - 1]] else [])
  }

  lemma {:induction false} FilterMembers<T>(xs: seq<T>, n: nat, keep: T -> bool, y: T)
    requires n <= |xs|
    ensures y in Filter(xs, n, keep) <==> exists i :: 0 <= i < n && keep(xs[i]) && xs[i] == y
  {
    if n > 0 {
      FilterMembers(xs, n - 1, keep, y);
      if keep(xs[n - 1]) && xs[n - 1] == y {
        assert y in Filter(xs, n, keep);
      }
    }
  }

  /** Filtering keeps everything when everything passes. */
  lemma {:induction false} FilterAll<T>(xs: seq<T>, n: nat, keep: T -> bool)
    requires n <= |xs| && forall i :: 0 <= i < n ==> keep(xs[i])
    ensures Filter(xs, n, keep) == xs[..n]
  {
    if n > 0 {
      FilterAll(xs, n - 1, keep);
      assert xs[..n] == xs[..n - 1] + [xs[n - 1]];
    }
  }

  /** Nothing is kept when nothing passes. */
  lemma {:induction false} KeptMappedNone<T, U>(xs: seq<T>, n: nat, keep: T -> bool, f: T -> U)
    requires n <= |xs| && forall i :: 0 <= i < n ==> !keep(xs[i])
    ensures KeptMapped(xs, n, keep, f) == []
  {
    if n > 0 {
      KeptMappedNone(xs, n - 1, keep, f);
    }
  }

  /** Concatenation is associative. */
  lemma AppendAssoc<T>(a: seq<T>, b: seq<T>, c: seq<T>)
    ensures a + b + c == a + (b + c)
  {
  }

  /** The front of a concatenation is its first part. */
  lemma TakeAppend<T>(a: seq<T>, b: seq<T>)
    ensures (a + b)[..|a|] == a
  {
  }

  /** A member of a sequence sits at some index. */
  lemma IndexOfMember<T>(s: seq<T>, x: T) returns (k: nat)
    requires x in s
    ensures k < |s| && s[k] == x
  {
    k :| k < |s| && s[k] == x;
  }

  /** A non-empty sequence is its front followed by its last element. */
  lemma SplitLast<T>(s: seq<T>)
    requires s != []
    ensures s == s[..|s| - 1] + [s[|s| - 1]]
  {
  }
}
