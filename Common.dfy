/**
 * Shared vocabulary: optional values, the numeric conversions of Java and
 * JavaScript that the services rely on, and the abstract transcendental
 * functions (exp, sqrt, log10) that the scoring formulas use.
 */
module Common {

  datatype Option<T> = None | Some(value: T)

  function Min(a: int, b: int): (r: int)
    ensures r <= a && r <= b && (r == a || r == b)
  {
    if a <= b then a else b
  }

  function Max(a: int, b: int): (r: int)
    ensures r >= a && r >= b && (r == a || r == b)
  {
    if a >= b then a else b
  }

  function MinR(a: real, b: real): (r: real)
    ensures r <= a && r <= b && (r == a || r == b)
  {
    if a <= b then a else b
  }

  function MaxR(a: real, b: real): (r: real)
    ensures r >= a && r >= b && (r == a || r == b)
  {
    if a >= b then a else b
  }

  /** Math.max(lo, Math.min(hi, x)) */
  function ClampR(x: real, lo: real, hi: real): (r: real)
    requires lo <= hi
    ensures lo <= r <= hi
    ensures lo <= x <= hi ==> r == x
  {
    MaxR(lo, MinR(hi, x))
  }

  function AbsR(x: real): (r: real)
    ensures r >= 0.0 && (r == x || r == -x)
  {
    if x >= 0.0 then x else -x
  }

  function Abs(x: int): (r: nat)
    ensures r == x || r == -x
  {
    if x >= 0 then x else -x
  }

  /** Math.floor on an exact real. */
  function Floor(x: real): (r: int)
    ensures r as real <= x < r as real + 1.0
  {
    x.Floor
  }

  /** Math.ceil on an exact real. */
  function Ceil(x: real): (r: int)
    ensures x <= r as real < x + 1.0
  {
    if x.Floor as real == x then x.Floor else x.Floor + 1
  }

  /** A Java (long)/(int) cast of a double and JavaScript's Math.trunc: rounds toward zero. */
  function Trunc(x: real): (r: int)
    ensures x >= 0.0 ==> r as real <= x < r as real + 1.0
    ensures x < 0.0 ==> r as real - 1.0 < x <= r as real
  {
    if x >= 0.0 then x.Floor else -((-x).Floor)
  }

  /** Java's Math.round on doubles: floor(x + 0.5). */
  function Round(x: real): (r: int)
    ensures r as real - 0.5 <= x < r as real + 0.5
  {
    (x + 0.5).Floor
  }

  /** Java's integer division `/` by a positive divisor, which truncates toward zero. */
  function JavaDiv(a: int, b: int): (q: int)
    requires b > 0
    ensures a >= 0 ==> q == a / b
    ensures a < 0 ==> q == -((-a) / b) && q <= 0
  {
    if a >= 0 then a / b else -((-a) / b)
  }

  /** Java's remainder `%` by a positive divisor: its sign follows the dividend. */
  function JavaRem(a: int, b: int): (m: int)
    requires b > 0
    ensures a >= 0 ==> 0 <= m < b
    ensures a < 0 ==> -b < m <= 0
  {
    if a >= 0 then a % b else -((-a) % b)
  }

  lemma JavaDivRem(a: int, b: int)
    requires b > 0
    ensures a == JavaDiv(a, b) * b + JavaRem(a, b)
  {
    if a < 0 {
      assert -a == ((-a) / b) * b + (-a) % b;
    }
  }

  /** The properties of Math.exp that the learning model depends on. */
  ghost predicate IsExp(exp: real -> real)
  {
    && exp(0.0) == 1.0
    && (forall x: real :: exp(x) > 0.0)
    && (forall x: real, y: real :: x <= y ==> exp(x) <= exp(y))
  }

  /** The properties of Math.sqrt used by cosine similarity. */
  ghost predicate IsSqrt(sqrt: real -> real)
  {
    forall x: real :: x >= 0.0 ==> sqrt(x) >= 0.0 && sqrt(x) * sqrt(x) == x
  }

  /** The properties of Math.log10 used by the popularity score. */
  ghost predicate IsLog10(log10: real -> real)
  {
    && log10(1.0) == 0.0
    && (forall x: real, y: real :: 1.0 <= x <= y ==> log10(x) <= log10(y))
  }

  /** A quotient whose numerator is at most its positive denominator is at most one. */
  lemma DivAtMostOne(x: real, m: real)
    requires m > 0.0 && x <= m
    ensures x / m <= 1.0
  {
    assert x / m * m == x;
  }

  lemma ExpAtMostOne(exp: real -> real, x: real)
    requires IsExp(exp) && x <= 0.0
    ensures 0.0 < exp(x) <= 1.0
  {
    assert exp(x) <= exp(0.0);
  }

  lemma Log10NonNegative(log10: real -> real, x: real)
    requires IsLog10(log10) && x >= 1.0
    ensures log10(x) >= 0.0
  {
    assert log10(1.0) <= log10(x);
  }

  /** The end index of JavaScript's slice(0, n): a negative n counts back from the end. */
  function SliceEnd(len: nat, n: int): (e: nat)
    ensures e <= len
    ensures 0 <= n <= len ==> e == n
    ensures n > len ==> e == len
    ensures n < 0 ==> e == Max(len + n, 0)
  {
    if n >= 0 then (if n <= len then n else len) else if len + n >= 0 then len + n else 0
  }

  lemma TruncMonotone(x: real, y: real)
    requires 0.0 <= x <= y
    ensures 0 <= Trunc(x) <= Trunc(y)
  {
    assert x.Floor as real <= y;
  }

  /** List.indexOf: the first position holding `x`, or -1. */
  function IndexOfElem<T(==)>(s: seq<T>, x: T): (r: int)
    ensures -1 <= r < |s|
    ensures r >= 0 ==> s[r] == x
    ensures forall k :: 0 <= k < |s| && (r == -1 || k < r) ==> s[k] != x
  {
    if |s| == 0 then -1
    else if s[0] == x then 0
    else
      var r := IndexOfElem(s[1..], x);
      if r == -1 then -1 else r + 1
  }

  /** Array.prototype.filter: the elements satisfying `p`, in their order. */
  function Filter<T(!new)>(s: seq<T>, p: T -> bool): (r: seq<T>)
    ensures |r| <= |s|
    ensures forall x :: x in r <==> x in s && p(x)
    ensures forall i :: 0 <= i < |r| ==> p(r[i])
    ensures multiset(r) <= multiset(s)
  {
    if s == [] then []
    else
      assert s == s[..|s| - 1] + [s[|s| - 1]];
      Filter(s[..|s| - 1], p) + (if p(s[|s| - 1]) then [s[|s| - 1]] else [])
  }

  /** The elements of `s` are pairwise distinct. */
  predicate Distinct<T(==)>(s: seq<T>)
  {
    forall i, j :: 0 <= i < j < |s| ==> s[i] != s[j]
  }

  /** A sequence is without repetitions exactly when it holds each element at most once. */
  lemma {:induction false} DistinctCounts<T>(s: seq<T>)
    ensures Distinct(s) <==> forall x :: multiset(s)[x] <= 1
  {
    if s != [] {
      var init, x := s[..|s| - 1], s[|s| - 1];
      assert s == init + [x];
      DistinctCounts(init);
      if Distinct(s) {
        assert Distinct(init) && x !in init;
      }
      if forall y :: multiset(s)[y] <= 1 {
        assert forall y :: multiset(init)[y] <= multiset(s)[y];
        assert multiset(init)[x] == 0;
        assert x !in init;
      }
    }
  }

  /** Rearranging a sequence without repetitions gives one without repetitions. */
  lemma DistinctPermutation<T>(a: seq<T>, b: seq<T>)
    requires multiset(a) == multiset(b) && Distinct(a)
    ensures Distinct(b)
  {
    DistinctCounts(a);
    DistinctCounts(b);
  }

  /** In a sequence without repetitions the position of an element is where it is. */
  lemma IndexOfDistinct<T>(s: seq<T>, k: int)
    requires Distinct(s) && 0 <= k < |s|
    ensures IndexOfElem(s, s[k]) == k
  {
  }
}
