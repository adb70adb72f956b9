/**
 * Ordering helpers for the `ORDER BY <key> DESC` queries of the stores:
 * a sequence kept in non-increasing order of an integer key, and the
 * insertion step that keeps it so. Ties are left in whatever order the
 * insertion produces; only the ordering key is promised.
 */
module Ranking {

  /** `s` is in non-increasing order of `key`. */
  predicate SortedDesc<T>(s: seq<T>, key: T -> int) {
    forall i, j :: 0 <= i < j < |s| ==> key(s[i]) >= key(s[j])
  }

  /** The element at position `i` of `s` with `x` spliced in at position `k`. */
  lemma SpliceAt<T>(s: seq<T>, x: T, k: nat, i: nat)
    requires k <= |s| && i <= |s|
    ensures |s[..k] + [x] + s[k..]| == |s| + 1
    ensures (s[..k] + [x] + s[k..])[i] == if i < k then s[i] else if i == k then x else s[i - 1]
  {
  }

  /** Splicing `x` in after every key at least `key(x)` and before every smaller one keeps `s` sorted. */
  lemma SpliceSorted<T>(s: seq<T>, x: T, k: nat, key: T -> int)
    requires SortedDesc(s, key) && k <= |s|
    requires forall i :: 0 <= i < k ==> key(s[i]) >= key(x)
    requires k < |s| ==> key(s[k]) < key(x)
    ensures SortedDesc(s[..k] + [x] + s[k..], key)
  {
    var r := s[..k] + [x] + s[k..];
    forall i, j | 0 <= i < j < |r|
      ensures key(r[i]) >= key(r[j])
    {
      SpliceAt(s, x, k, i);
      SpliceAt(s, x, k, j);
      if i == k {
        assert key(s[j - 1]) <= key(s[k]);
      }
    }
  }

  /**
   * Inserts `x` into `s`, which is sorted by `key`, after every element
   * whose key is at least `key(x)`: the result is `s` with `x` spliced in
   * at position `k`, still sorted, and holding exactly one more `x`.
   */
  method InsertDesc<T>(s: seq<T>, x: T, key: T -> int) returns (r: seq<T>, k: nat)
    requires SortedDesc(s, key)
    ensures k <= |s| && r == s[..k] + [x] + s[k..]
    ensures SortedDesc(r, key)
    ensures multiset(r) == multiset(s) + multiset{x}
  {
    k := 0;
    while k < |s| && key(s[k]) >= key(x)
      invariant 0 <= k <= |s|
      invariant forall i :: 0 <= i < k ==> key(s[i]) >= key(x)
    {
      k := k + 1;
    }
    SpliceSorted(s, x, k, key);
    r := s[..k] + [x] + s[k..];
    assert s == s[..k] + s[k..];
  }

  /** No two elements of `s` share an `id`. */
  predicate DistinctBy<T>(s: seq<T>, id: T -> int) {
    forall i, j :: 0 <= i < j < |s| ==> id(s[i]) != id(s[j])
  }

  /** The ids that occur in `s`. */
  function IdsOf<T>(s: seq<T>, id: T -> int): set<int> {
    set i | 0 <= i < |s| :: id(s[i])
  }

  /** Splicing in an element whose id is not yet present keeps the ids distinct and adds exactly that id. */
  lemma SpliceDistinct<T>(s: seq<T>, x: T, k: nat, id: T -> int)
    requires k <= |s| && DistinctBy(s, id) && id(x) !in IdsOf(s, id)
    ensures DistinctBy(s[..k] + [x] + s[k..], id)
    ensures IdsOf(s[..k] + [x] + s[k..], id) == IdsOf(s, id) + {id(x)}
  {
    var r := s[..k] + [x] + s[k..];
    forall i | 0 <= i < |r| ensures r[i] == if i < k then s[i] else if i == k then x else s[i - 1] {
      SpliceAt(s, x, k, i);
    }
    forall i, j | 0 <= i < j < |r| ensures id(r[i]) != id(r[j]) {
      if i < k && j > k {
        assert id(s[i]) != id(s[j - 1]);
      } else if i == k {
        assert id(s[j - 1]) in IdsOf(s, id);
      } else if j == k {
        assert id(s[i]) in IdsOf(s, id);
      }
    }
    forall u | u in IdsOf(s, id) ensures u in IdsOf(r, id) {
      var i :| 0 <= i < |s| && id(s[i]) == u;
      if i < k { assert r[i] == s[i]; } else { assert r[i + 1] == s[i]; }
    }
    assert r[k] == x;
  }

  /** A set of positive size has a member to pick. */
  lemma SomeMember(s: set<int>)
    requires |s| > 0
    ensures exists x :: x in s
  {
    if forall x :: x !in s {
      assert false;
    }
  }

  /** The first `n` elements of a ranking: still ordered and distinct, and no later element outranks or repeats one of them. */
  lemma TakePrefix<T>(s: seq<T>, n: nat, key: T -> int, id: T -> int)
    requires n <= |s| && SortedDesc(s, key) && DistinctBy(s, id)
    ensures SortedDesc(s[..n], key) && DistinctBy(s[..n], id)
    ensures forall j :: n <= j < |s| ==> id(s[j]) !in IdsOf(s[..n], id)
    ensures forall i, j :: 0 <= i < n <= j < |s| ==> key(s[j]) <= key(s[..n][i])
    ensures IdsOf(s[..n], id) <= IdsOf(s, id)
    ensures forall i :: 0 <= i < n ==> id(s[i]) in IdsOf(s[..n], id)
  {
    forall j | n <= j < |s| ensures id(s[j]) !in IdsOf(s[..n], id) {
      forall i | 0 <= i < n ensures id(s[..n][i]) != id(s[j]) {
        assert s[..n][i] == s[i];
      }
    }
    forall i | 0 <= i < n ensures id(s[i]) in IdsOf(s[..n], id) {
      assert s[..n][i] == s[i];
    }
  }
}
