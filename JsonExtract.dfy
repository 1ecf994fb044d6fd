/**
 * Extraction of the JSON payload from an AI reply: drop surrounding blanks and
 * a Markdown code fence, then prefer the span from the first '[' to the last
 * ']', else the span from the first '{' to the last '}', else the cleaned text.
 */
module JsonExtract {
  import opened Common
  import opened Text

  /** Remove a leading "```json" or "```" and then a trailing "```", then trim. */
  function Unfence(s: seq<char>): (r: seq<char>)
  {
    var a := if StartsWith(s, "```json") then s[7..] else if StartsWith(s, "```") then s[3..] else s;
    var b := if EndsWith(a, "```") then a[..|a| - 3] else a;
    JavaTrim(b)
  }

  /** The first `open` comes before the last `close`. */
  predicate HasSpan(c: seq<char>, open: char, close: char)
  {
    var i := IndexOfChar(c, open);
    var j := LastIndexOfChar(c, close);
    i != -1 && j != -1 && i < j
  }

  /** The span from the first `open` to the last `close`, both included. */
  function Span(c: seq<char>, open: char, close: char): (r: seq<char>)
    requires HasSpan(c, open, close)
    ensures |r| >= 2 && r[0] == open && r[|r| - 1] == close
    ensures r == c[IndexOfChar(c, open)..LastIndexOfChar(c, close) + 1]
  {
    c[IndexOfChar(c, open)..LastIndexOfChar(c, close) + 1]
  }

  /** The cleaned text that the brackets are searched in. */
  function Cleaned(content: seq<char>): seq<char>
  {
    Unfence(JavaTrim(content))
  }

  /**
   * extractJson; `None` stands for a null reply. A null or blank reply gives
   * "{}"; otherwise the result is the array span of the cleaned text when it
   * has one, else its object span, else the cleaned text itself.
   */
  function ExtractJson(content: Option<seq<char>>): (r: seq<char>)
    ensures content.None? || JavaTrim(content.value) == [] ==> r == "{}"
    ensures content.Some? && JavaTrim(content.value) != [] ==>
      var c := Cleaned(content.value);
      && (HasSpan(c, '[', ']') ==> r == Span(c, '[', ']'))
      && (!HasSpan(c, '[', ']') && HasSpan(c, '{', '}') ==> r == Span(c, '{', '}'))
      && (!HasSpan(c, '[', ']') && !HasSpan(c, '{', '}') ==> r == c)
  {
    if content.None? || JavaTrim(content.value) == [] then "{}"
    else
      var c := Cleaned(content.value);
      if HasSpan(c, '[', ']') then Span(c, '[', ']')
      else if HasSpan(c, '{', '}') then Span(c, '{', '}')
      else c
  }

  /** A blank reply, all of whose characters Java's trim removes, gives the empty object. */
  lemma BlankGivesEmptyObject(content: seq<char>)
    requires forall k :: 0 <= k < |content| ==> IsJavaSpace(content[k])
    ensures ExtractJson(Some(content)) == "{}"
  {
    assert TrimStart(content, IsJavaSpace) == [];
  }

  /** The result of a non-blank reply is always a contiguous slice of its cleaned text. */
  lemma ExtractJsonIsSlice(content: seq<char>)
    requires JavaTrim(content) != []
    ensures var c := Cleaned(content); var r := ExtractJson(Some(content));
      exists i, j :: 0 <= i <= j <= |c| && r == c[i..j]
  {
    var c := Cleaned(content);
    var r := ExtractJson(Some(content));
    var i, j := ChosenBounds(c);
    assert r == c[i..j];
  }

  /** The bounds of the span ExtractJson chooses in a cleaned text `c`. */
  lemma ChosenBounds(c: seq<char>) returns (i: int, j: int)
    ensures 0 <= i <= j <= |c|
    ensures HasSpan(c, '[', ']') ==> c[i..j] == Span(c, '[', ']')
    ensures !HasSpan(c, '[', ']') && HasSpan(c, '{', '}') ==> c[i..j] == Span(c, '{', '}')
    ensures !HasSpan(c, '[', ']') && !HasSpan(c, '{', '}') ==> c[i..j] == c
  {
    if HasSpan(c, '[', ']') {
      i, j := IndexOfChar(c, '['), LastIndexOfChar(c, ']') + 1;
    } else if HasSpan(c, '{', '}') {
      i, j := IndexOfChar(c, '{'), LastIndexOfChar(c, '}') + 1;
    } else {
      i, j := 0, |c|;
    }
  }

  lemma FirstIndexAtMost(c: seq<char>, x: char, k: int)
    requires 0 <= k < |c| && c[k] == x
    ensures 0 <= IndexOfChar(c, x) <= k
  {
    if c[0] != x {
      FirstIndexAtMost(c[1..], x, k - 1);
    }
  }

  lemma LastIndexAtLeast(c: seq<char>, x: char, k: int)
    requires 0 <= k < |c| && c[k] == x
    ensures k <= LastIndexOfChar(c, x)
  {
    if c[|c| - 1] != x {
      LastIndexAtLeast(c[..|c| - 1], x, k);
    }
  }

  lemma SpanOfSliceOnlyIfSpan(c: seq<char>, i: int, j: int, open: char, close: char)
    requires 0 <= i <= j <= |c| && HasSpan(c[i..j], open, close)
    ensures HasSpan(c, open, close)
  {
    var s := c[i..j];
    var a, b := IndexOfChar(s, open), LastIndexOfChar(s, close);
    assert c[i + a] == open && c[i + b] == close;
    assert open in c[..i + a + 1];
    FirstIndexAtMost(c, open, i + a);
    LastIndexAtLeast(c, close, i + b);
  }

  /** A text that starts with `open` and ends with `close` survives cleaning and is its own span. */
  lemma DelimitedIsOwnSpan(r: seq<char>, open: char, close: char)
    requires |r| >= 2 && r[0] == open && r[|r| - 1] == close
    requires (open == '[' && close == ']') || (open == '{' && close == '}')
    ensures JavaTrim(r) == r && Cleaned(r) == r
    ensures HasSpan(r, open, close) && Span(r, open, close) == r
  {
    TrimKeeps(r, IsJavaSpace);
    if |r| >= 3 {
      assert r[..3][0] == open && r[|r| - 3..][2] == close;
    }
    assert !StartsWith(r, "```") && !StartsWith(r, "```json") && !EndsWith(r, "```");
    assert IndexOfChar(r, open) == 0;
    assert LastIndexOfChar(r, close) == |r| - 1;
  }

  /** An array text is extracted as itself. */
  lemma ArrayExtractsToItself(r: seq<char>)
    requires |r| >= 2 && r[0] == '[' && r[|r| - 1] == ']'
    ensures ExtractJson(Some(r)) == r
  {
    DelimitedIsOwnSpan(r, '[', ']');
  }

  /** An object text holding no array span is extracted as itself. */
  lemma ObjectExtractsToItself(r: seq<char>)
    requires |r| >= 2 && r[0] == '{' && r[|r| - 1] == '}' && !HasSpan(r, '[', ']')
    ensures ExtractJson(Some(r)) == r
  {
    DelimitedIsOwnSpan(r, '{', '}');
  }

  /** The object span of a text without an array span has no array span either. */
  lemma ObjectSpanHasNoArray(c: seq<char>)
    requires HasSpan(c, '{', '}') && !HasSpan(c, '[', ']')
    ensures !HasSpan(Span(c, '{', '}'), '[', ']')
  {
    var i, j := IndexOfChar(c, '{'), LastIndexOfChar(c, '}') + 1;
    if HasSpan(c[i..j], '[', ']') {
      SpanOfSliceOnlyIfSpan(c, i, j, '[', ']');
    }
  }

  lemma ArraySpanIsFixpoint(c: seq<char>)
    requires HasSpan(c, '[', ']')
    ensures ExtractJson(Some(Span(c, '[', ']'))) == Span(c, '[', ']')
  {
    ArrayExtractsToItself(Span(c, '[', ']'));
  }

  lemma ObjectSpanIsFixpoint(c: seq<char>)
    requires HasSpan(c, '{', '}') && !HasSpan(c, '[', ']')
    ensures ExtractJson(Some(Span(c, '{', '}'))) == Span(c, '{', '}')
  {
    ObjectSpanHasNoArray(c);
    ObjectExtractsToItself(Span(c, '{', '}'));
  }

  /** A span that was extracted is extracted again unchanged: the result is a fixpoint. */
  lemma ExtractedSpanIsFixpoint(content: seq<char>)
    requires JavaTrim(content) != []
    requires HasSpan(Cleaned(content), '[', ']') || HasSpan(Cleaned(content), '{', '}')
    ensures ExtractJson(Some(ExtractJson(Some(content)))) == ExtractJson(Some(content))
  {
    var c := Cleaned(content);
    var r := ExtractJson(Some(content));
    if HasSpan(c, '[', ']') {
      assert r == Span(c, '[', ']');
      ArraySpanIsFixpoint(c);
    } else {
      assert r == Span(c, '{', '}');
      ObjectSpanIsFixpoint(c);
    }
  }
}
