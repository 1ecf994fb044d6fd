/**
 * String operations of Java and JavaScript that the core relies on, over
 * `seq<char>`. Case conversion covers ASCII letters only.
 */
module Text {
  import opened Common

  function LowerChar(c: char): (r: char)
    ensures 'A' <= c <= 'Z' ==> r as int == c as int + 32
    ensures !('A' <= c <= 'Z') ==> r == c
  {
    if 'A' <= c <= 'Z' then (c as int + 32) as char else c
  }

  /** String.prototype.toLowerCase / String.toLowerCase (ASCII letters). */
  function Lower(s: seq<char>): (r: seq<char>)
    ensures |r| == |s| && forall i :: 0 <= i < |s| ==> r[i] == LowerChar(s[i])
  {
    seq(|s|, i requires 0 <= i < |s| => LowerChar(s[i]))
  }

  lemma LowerIdempotent(s: seq<char>)
    ensures Lower(Lower(s)) == Lower(s)
  {
    assert forall i :: 0 <= i < |s| ==> LowerChar(LowerChar(s[i])) == LowerChar(s[i]);
  }

  /** Java's String.equalsIgnoreCase, on ASCII case. */
  predicate EqualsIgnoreCase(a: seq<char>, b: seq<char>)
  {
    Lower(a) == Lower(b)
  }

  /** Characters removed by Java's String.trim: every code point up to U+0020. */
  predicate IsJavaSpace(c: char)
  {
    c as int <= 0x20
  }

  /** Characters removed by JavaScript's String.prototype.trim (white space and line terminators). */
  predicate IsJsSpace(c: char)
  {
    || c == ' ' || c == '\t' || c == '\n' || c == '\r'
    || c == '\U{000B}' || c == '\U{000C}' || c == '\U{00A0}' || c == '\U{1680}'
    || ('\U{2000}' <= c <= '\U{200A}')
    || c == '\U{2028}' || c == '\U{2029}' || c == '\U{202F}' || c == '\U{205F}'
    || c == '\U{3000}' || c == '\U{FEFF}'
  }

  function TrimStart(s: seq<char>, ws: char -> bool): (r: seq<char>)
    ensures |r| <= |s| && r == s[|s| - |r|..]
    ensures r != [] ==> !ws(r[0])
  {
    if s != [] && ws(s[0]) then TrimStart(s[1..], ws) else s
  }

  function TrimEnd(s: seq<char>, ws: char -> bool): (r: seq<char>)
    ensures |r| <= |s| && r == s[..|r|]
    ensures r != [] ==> !ws(r[|r| - 1])
  {
    if s != [] && ws(s[|s| - 1]) then TrimEnd(s[..|s| - 1], ws) else s
  }

  /** Strip the longest prefix and suffix of characters satisfying `ws`. */
  function Trim(s: seq<char>, ws: char -> bool): (r: seq<char>)
  {
    TrimEnd(TrimStart(s, ws), ws)
  }

  /** A string without blanks at either end is its own trim. */
  lemma TrimKeeps(s: seq<char>, ws: char -> bool)
    requires s != [] && !ws(s[0]) && !ws(s[|s| - 1])
    ensures Trim(s, ws) == s
  {
  }

  function JavaTrim(s: seq<char>): (r: seq<char>)
  {
    Trim(s, IsJavaSpace)
  }

  function JsTrim(s: seq<char>): (r: seq<char>)
  {
    Trim(s, IsJsSpace)
  }

  /** s.replace(/from/g, to) for a single character. */
  function ReplaceChar(s: seq<char>, from: char, to: char): (r: seq<char>)
    ensures |r| == |s|
    ensures forall i :: 0 <= i < |s| ==> r[i] == (if s[i] == from then to else s[i])
    ensures from != to ==> from !in r
  {
    seq(|s|, i requires 0 <= i < |s| => if s[i] == from then to else s[i])
  }

  predicate StartsWith(s: seq<char>, p: seq<char>)
  {
    |p| <= |s| && s[..|p|] == p
  }

  predicate EndsWith(s: seq<char>, p: seq<char>)
  {
    |p| <= |s| && s[|s| - |p|..] == p
  }

  /** `sub` occurs in `s` starting at position `j`. */
  predicate OccursAt(s: seq<char>, sub: seq<char>, j: int)
  {
    0 <= j && j + |sub| <= |s| && s[j..j + |sub|] == sub
  }

  /** indexOf(sub): the first position of `sub` in `s`, if any. */
  function IndexOf(s: seq<char>, sub: seq<char>): (r: Option<nat>)
    ensures r.Some? ==> OccursAt(s, sub, r.value)
    ensures r.Some? ==> forall j :: 0 <= j < r.value ==> !OccursAt(s, sub, j)
    ensures r.None? ==> forall j :: !OccursAt(s, sub, j)
  {
    if |sub| > |s| then None
    else if s[..|sub|] == sub then Some(0)
    else
      var t := IndexOf(s[1..], sub);
      forall j | 1 <= j ensures OccursAt(s, sub, j) <==> OccursAt(s[1..], sub, j - 1) {
        OccursAtShift(s, sub, j);
      }
      match t
      case None => None
      case Some(k) => Some(k + 1)
  }

  lemma OccursAtShift(s: seq<char>, sub: seq<char>, j: int)
    requires 1 <= j && s != []
    ensures OccursAt(s, sub, j) <==> OccursAt(s[1..], sub, j - 1)
  {
    if j + |sub| <= |s| {
      var a, b := s[j..j + |sub|], s[1..][j - 1..j - 1 + |sub|];
      assert |a| == |b|;
      forall t | 0 <= t < |a| ensures a[t] == b[t] {
        assert a[t] == s[j + t] && b[t] == s[1..][j - 1 + t];
      }
      assert a == b;
    }
  }

  /** String.includes / String.contains. */
  predicate Contains(s: seq<char>, sub: seq<char>)
  {
    IndexOf(s, sub).Some?
  }

  /** indexOf(char) in Java: -1 when absent. */
  function IndexOfChar(s: seq<char>, c: char): (r: int)
    ensures -1 <= r < |s|
    ensures r == -1 <==> c !in s
    ensures r >= 0 ==> s[r] == c && c !in s[..r]
  {
    if s == [] then -1
    else if s[0] == c then 0
    else
      var t := IndexOfChar(s[1..], c);
      if t == -1 then -1 else t + 1
  }

  /** lastIndexOf(char) in Java: -1 when absent. */
  function LastIndexOfChar(s: seq<char>, c: char): (r: int)
    ensures -1 <= r < |s|
    ensures r == -1 <==> c !in s
    ensures r >= 0 ==> s[r] == c && c !in s[r + 1..]
  {
    if s == [] then -1
    else if s[|s| - 1] == c then |s| - 1
    else LastIndexOfChar(s[..|s| - 1], c)
  }

  /** Java's lastIndexOf(c, from): the last occurrence at or before index `from`, or -1. */
  function LastIndexOfCharFrom(s: seq<char>, c: char, from: int): (r: int)
    ensures -1 <= r < |s|
    ensures r >= 0 ==> r <= from && s[r] == c
    decreases from
  {
    if from < 0 then -1
    else if from >= |s| then LastIndexOfCharFrom(s, c, |s| - 1)
    else if s[from] == c then from
    else LastIndexOfCharFrom(s, c, from - 1)
  }

  /** No occurrence lies between the one found and `from`. */
  lemma {:induction false} LastIndexOfCharFromIsLast(s: seq<char>, c: char, from: int)
    ensures var r := LastIndexOfCharFrom(s, c, from);
      forall k :: r < k < |s| && k <= from ==> s[k] != c
    decreases from
  {
    if from >= |s| {
      LastIndexOfCharFromIsLast(s, c, |s| - 1);
    } else if from >= 0 && s[from] != c {
      LastIndexOfCharFromIsLast(s, c, from - 1);
    }
  }

  /** String.prototype.split(sep) for a non-empty separator. */
  function Split(s: seq<char>, sep: seq<char>): (parts: seq<seq<char>>)
    requires |sep| > 0
    ensures |parts| >= 1
    decreases |s|
  {
    match IndexOf(s, sep)
    case None => [s]
    case Some(k) => [s[..k]] + Split(s[k + |sep|..], sep)
  }

  /** Array.prototype.join(sep). */
  function Join(parts: seq<seq<char>>, sep: seq<char>): (r: seq<char>)
  {
    if parts == [] then []
    else if |parts| == 1 then parts[0]
    else parts[0] + sep + Join(parts[1..], sep)
  }

  /** Joining the pieces of a split with the same separator gives back the string. */
  lemma {:induction false} JoinSplit(s: seq<char>, sep: seq<char>)
    requires |sep| > 0
    ensures Join(Split(s, sep), sep) == s
    decreases |s|
  {
    var found := IndexOf(s, sep);
    if found.Some? {
      var k := found.value;
      var rest := s[k + |sep|..];
      var tail := Split(rest, sep);
      JoinSplit(rest, sep);
      assert Split(s, sep) == [s[..k]] + tail;
      JoinCons(s[..k], tail, sep);
      assert OccursAt(s, sep, k);
      SliceAround(s, k, |sep|);
    }
  }

  lemma SliceAround(s: seq<char>, k: int, n: nat)
    requires 0 <= k && k + n <= |s|
    ensures s == s[..k] + s[k..k + n] + s[k + n..]
  {
  }

  lemma JoinCons(head: seq<char>, tail: seq<seq<char>>, sep: seq<char>)
    requires |tail| >= 1
    ensures Join([head] + tail, sep) == head + sep + Join(tail, sep)
  {
    assert ([head] + tail)[1..] == tail;
  }

  /** A string without the separator splits into itself. */
  lemma SplitWithoutSeparator(s: seq<char>, sep: seq<char>)
    requires |sep| > 0 && !Contains(s, sep)
    ensures Split(s, sep) == [s]
  {
  }
}
