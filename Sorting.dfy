/**
 * A stable sort by a real-valued key, in non-increasing key order. It stands
 * for JavaScript's Array.prototype.sort with a comparator `(a, b) => key(b) - key(a)`
 * (stable since ES2019) and for database `ORDER BY ... DESC`. Ascending sorts
 * are the same sort on the negated key.
 */
module Sorting {

  predicate SortedDesc<T>(s: seq<T>, key: T -> real)
  {
    forall i, j :: 0 <= i < j < |s| ==> key(s[i]) >= key(s[j])
  }

  /** The elements of `s` whose key is exactly `v`, in their order in `s`. */
  function WithKey<T>(s: seq<T>, key: T -> real, v: real): (r: seq<T>)
    ensures |r| <= |s|
  {
    if s == [] then []
    else WithKey(s[..|s| - 1], key, v) + (if key(s[|s| - 1]) == v then [s[|s| - 1]] else [])
  }

  lemma {:induction false} WithKeyAppend<T>(a: seq<T>, b: seq<T>, key: T -> real, v: real)
    ensures WithKey(a + b, key, v) == WithKey(a, key, v) + WithKey(b, key, v)
    decreases |b|
  {
    if b == [] {
      assert a + b == a;
    } else {
      var b' := b[..|b| - 1];
      assert (a + b)[..|a + b| - 1] == a + b';
      WithKeyAppend(a, b', key, v);
    }
  }

  /** Insert `x` after every element whose key is at least key(x). */
  function Insert<T>(t: seq<T>, x: T, key: T -> real): (r: seq<T>)
    ensures |r| == |t| + 1
    ensures multiset(r) == multiset(t) + multiset{x}
  {
    if t == [] then [x]
    else if key(t[|t| - 1]) >= key(x) then t + [x]
    else
      assert t == t[..|t| - 1] + [t[|t| - 1]];
      Insert(t[..|t| - 1], x, key) + [t[|t| - 1]]
  }

  /** Stable insertion sort, highest key first. */
  function SortDesc<T>(s: seq<T>, key: T -> real): (r: seq<T>)
    ensures |r| == |s|
    ensures multiset(r) == multiset(s)
  {
    if s == [] then []
    else
      assert s == s[..|s| - 1] + [s[|s| - 1]];
      Insert(SortDesc(s[..|s| - 1], key), s[|s| - 1], key)
  }

  lemma {:induction false} InsertSorted<T>(t: seq<T>, x: T, key: T -> real)
    requires SortedDesc(t, key)
    ensures SortedDesc(Insert(t, x, key), key)
    decreases |t|
  {
    if t != [] && key(t[|t| - 1]) < key(x) {
      var init := t[..|t| - 1];
      InsertSorted(init, x, key);
      var u := Insert(init, x, key);
      // every element of u is init's or x, and both have keys above t's last
      forall i | 0 <= i < |u| ensures key(u[i]) >= key(t[|t| - 1]) {
        assert u[i] in multiset(u);
        if u[i] != x {
          assert u[i] in multiset(init);
          var j :| 0 <= j < |init| && init[j] == u[i];
        }
      }
    }
  }

  lemma {:induction false} InsertStable<T>(t: seq<T>, x: T, key: T -> real, v: real)
    ensures WithKey(Insert(t, x, key), key, v) == WithKey(t, key, v) + WithKey([x], key, v)
    decreases |t|
  {
    if t == [] {
      assert [x] == [] + [x];
      WithKeyAppend([], [x], key, v);
    } else if key(t[|t| - 1]) >= key(x) {
      WithKeyAppend(t, [x], key, v);
    } else {
      var init := t[..|t| - 1];
      var last := t[|t| - 1];
      var u := Insert(init, x, key);
      InsertStable(init, x, key, v);
      WithKeyAppend(u, [last], key, v);
      WithKeyAppend(init, [last], key, v);
      assert t == init + [last];
      WithKeyAppend([], [x], key, v);
      WithKeyAppend([], [last], key, v);
      assert [] + [x] == [x] && [] + [last] == [last];
    }
  }

  /** The sorted output is ordered by non-increasing key. */
  lemma {:induction false} SortDescSorted<T>(s: seq<T>, key: T -> real)
    ensures SortedDesc(SortDesc(s, key), key)
    decreases |s|
  {
    if s != [] {
      SortDescSorted(s[..|s| - 1], key);
      InsertSorted(SortDesc(s[..|s| - 1], key), s[|s| - 1], key);
    }
  }

  /** Stability: the elements sharing any one key appear in the output in their input order. */
  lemma {:induction false} SortDescStable<T>(s: seq<T>, key: T -> real, v: real)
    ensures WithKey(SortDesc(s, key), key, v) == WithKey(s, key, v)
    decreases |s|
  {
    if s != [] {
      var init, last := s[..|s| - 1], s[|s| - 1];
      var sorted := SortDesc(init, key);
      assert SortDesc(s, key) == Insert(sorted, last, key);
      SortDescStable(init, key, v);
      InsertStable(sorted, last, key, v);
      assert WithKey(s, key, v) == WithKey(init, key, v) + (if key(last) == v then [last] else []);
      assert WithKey([last], key, v) == (if key(last) == v then [last] else []) by {
        assert [last][..0] == [];
      }
    }
  }

  /** A list that is already in order is left untouched. */
  lemma {:induction false} SortDescOfSorted<T>(s: seq<T>, key: T -> real)
    requires SortedDesc(s, key)
    ensures SortDesc(s, key) == s
    decreases |s|
  {
    if s != [] {
      var init := s[..|s| - 1];
      assert SortedDesc(init, key);
      SortDescOfSorted(init, key);
      if |init| > 0 {
        assert key(init[|init| - 1]) >= key(s[|s| - 1]);
      }
      assert init + [s[|s| - 1]] == s;
    }
  }
}
