/**
 * JavaScript's Map with string keys, whose iteration follows the order in which keys were
 * first set: a list of key/value entries. `set` on a present key replaces
 * its value where it stands; on a new key it appends.
 */
module OrderedMaps {
  import opened Common

  type Entries<V> = seq<(string, V)>

  predicate HasKey<V>(e: Entries<V>, k: string)
  {
    e != [] && (e[0].0 == k || HasKey(e[1..], k))
  }

  /** Map.get: the value stored under `k`, if any. */
  function Get<V>(e: Entries<V>, k: string): (r: Option<V>)
    ensures r.Some? <==> HasKey(e, k)
    ensures r.Some? ==> (k, r.value) in e
  {
    if e == [] then None else if e[0].0 == k then Some(e[0].1) else Get(e[1..], k)
  }

  /** `map.get(k) || d` for a numeric Map: a missing key or a stored zero give `d`. */
  function GetOr(e: Entries<real>, k: string, d: real): (r: real)
    ensures r == d || (r != 0.0 && (k, r) in e)
  {
    match Get(e, k)
    case Some(v) => if v != 0.0 then v else d
    case None => d
  }

  /** Map.set. */
  function Put<V>(e: Entries<V>, k: string, v: V): (r: Entries<V>)
    ensures Get(r, k) == Some(v)
    ensures forall j :: j != k ==> Get(r, j) == Get(e, j)
    ensures |r| == if HasKey(e, k) then |e| else |e| + 1
    ensures forall j :: HasKey(r, j) <==> HasKey(e, j) || j == k
    ensures forall p :: p in r ==> p == (k, v) || p in e
  {
    if e == [] then [(k, v)]
    else if e[0].0 == k then [(k, v)] + e[1..]
    else [e[0]] + Put(e[1..], k, v)
  }

  /** No key is listed twice. */
  predicate DistinctKeys<V>(e: Entries<V>)
  {
    e == [] || (!HasKey(e[1..], e[0].0) && DistinctKeys(e[1..]))
  }

  lemma {:induction false} PutDistinct<V>(e: Entries<V>, k: string, v: V)
    requires DistinctKeys(e)
    ensures DistinctKeys(Put(e, k, v))
  {
    if e != [] && e[0].0 != k {
      PutDistinct(e[1..], k, v);
    }
  }

  /** Setting a key that is not there appends one entry at the end. */
  lemma {:induction false} PutNew<V>(e: Entries<V>, k: string, v: V)
    requires !HasKey(e, k)
    ensures Put(e, k, v) == e + [(k, v)]
  {
    if e != [] {
      PutNew(e[1..], k, v);
      assert e == [e[0]] + e[1..];
    }
  }

  function KeysOf<V>(e: Entries<V>): (r: seq<string>)
    ensures |r| == |e| && forall i :: 0 <= i < |e| ==> r[i] == e[i].0
  {
    seq(|e|, i requires 0 <= i < |e| => e[i].0)
  }

  function ValuesOf<V>(e: Entries<V>): (r: seq<V>)
    ensures |r| == |e| && forall i :: 0 <= i < |e| ==> r[i] == e[i].1
  {
    seq(|e|, i requires 0 <= i < |e| => e[i].1)
  }

  lemma {:induction false} HasKeyIndex<V>(e: Entries<V>, i: int)
    requires 0 <= i < |e|
    ensures HasKey(e, e[i].0)
  {
    if i > 0 {
      HasKeyIndex(e[1..], i - 1);
    }
  }

  /** Entries without a repeated key list their keys without repetitions. */
  lemma {:induction false} DistinctKeysListed<V>(e: Entries<V>)
    requires DistinctKeys(e)
    ensures Distinct(KeysOf(e))
  {
    if e != [] {
      DistinctKeysListed(e[1..]);
      forall j | 0 < j < |e| ensures e[0].0 != e[j].0 {
        HasKeyIndex(e[1..], j - 1);
      }
    }
  }

  /** Rearranging entries keeps their keys free of repetitions. */
  lemma KeysOfPermutation<V>(a: Entries<V>, b: Entries<V>)
    requires multiset(a) == multiset(b) && Distinct(KeysOf(a))
    ensures Distinct(KeysOf(b))
  {
    DistinctPermutation(a, b);
    forall i, j | 0 <= i < j < |b| ensures b[i].0 != b[j].0 {
      assert b[i] in multiset(a) && b[j] in multiset(a);
      var i' :| 0 <= i' < |a| && a[i'] == b[i];
      var j' :| 0 <= j' < |a| && a[j'] == b[j];
      assert KeysOf(a)[i'] == b[i].0 && KeysOf(a)[j'] == b[j].0;
    }
  }

  /**
   * new Set(xs), read back in its iteration order: every element once, where
   * it first appears.
   */
  function Dedup(s: seq<string>): (r: seq<string>)
    ensures forall x :: x in r <==> x in s
    ensures Distinct(r)
  {
    if s == [] then []
    else
      var d := Dedup(s[..|s| - 1]);
      assert forall x :: x in s <==> x in s[..|s| - 1] || x == s[|s| - 1] by {
        assert s == s[..|s| - 1] + [s[|s| - 1]];
      }
      if s[|s| - 1] in d then d else d + [s[|s| - 1]]
  }
}
