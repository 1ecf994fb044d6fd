/**
 * What taking the first k elements of a descending sort keeps: elements of
 * the input, and none smaller than an element left out (the top k).
 */
module SortedPrefix {
  import opened Sorting

  /** Sorting loses no element. */
  lemma MemberOfSort<T>(s: seq<T>, key: T -> real, p: T)
    requires p in s
    ensures p in SortDesc(s, key)
  {
    assert p in multiset(s);
  }

  /** An element of `r` outside its first k elements sits at an index from k on. */
  lemma AfterPrefix<T>(r: seq<T>, k: nat, p: T) returns (j: nat)
    requires k <= |r| && p in r && p !in r[..k]
    ensures k <= j < |r| && r[j] == p
  {
    assert r == r[..k] + r[k..];
    assert p in r[k..];
    var t :| 0 <= t < |r[k..]| && r[k..][t] == p;
    j := k + t;
  }

  /**
   * The first k elements of the sort are elements of the input, and no
   * element left out has a larger key than one kept.
   */
  lemma SortDescPrefixKeepsLargest<T>(s: seq<T>, key: T -> real, k: nat)
    requires k <= |s|
    ensures forall p :: p in SortDesc(s, key)[..k] ==> p in s
    ensures forall p, q :: p in s && p !in SortDesc(s, key)[..k] && q in SortDesc(s, key)[..k] ==> key(p) <= key(q)
  {
    var r := SortDesc(s, key);
    SortDescSorted(s, key);
    forall p | p in r[..k] ensures p in s {
      assert p in multiset(r);
    }
    forall p, q | p in s && p !in r[..k] && q in r[..k] ensures key(p) <= key(q) {
      MemberOfSort(s, key, p);
      var j := AfterPrefix(r, k, p);
      var i :| 0 <= i < k && r[..k][i] == q;
      assert key(r[i]) >= key(r[j]);
    }
  }
}
