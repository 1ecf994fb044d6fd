/**
 * Knowledge-point extraction from a long text: the text is cut into
 * overlapping chunks (preferring paragraph breaks), each chunk is sent to the
 * AI with a share of the requested count, and the collected points are
 * deduplicated by normalised name and cut to the count. The AI call is a
 * function parameter; a chunk whose call fails contributes no points.
 */
module KnowledgeExtraction {
  import opened Common
  import opened Text

  const ChunkSize := 6000
  const Overlap := 200
  /** Texts up to this length are sent in one request. */
  const DirectLimit := 8000

  // ---------------------------------------------------------------------------
  // Chunking
  // ---------------------------------------------------------------------------

  /**
   * The end of the chunk that starts at `start`: `chunkSize` characters on, or
   * the text's end, or, when that leaves text over, the last newline at or
   * before that point if it lies beyond the chunk's midpoint.
   */
  function ChunkEnd(text: seq<char>, chunkSize: nat, start: int): (end: int)
    requires 0 <= start < |text| && chunkSize > 0
    ensures start < end <= |text| && end <= start + chunkSize
    ensures end < |text| ==> end > start + chunkSize / 2
    ensures end < |text| && end != start + chunkSize ==> text[end] == '\n'
  {
    var end := Min(start + chunkSize, |text|);
    if end < |text| then
      var lastParagraph := LastIndexOfCharFrom(text, '\n', end);
      if lastParagraph > start + chunkSize / 2 then lastParagraph else end
    else end
  }

  /**
   * When text is left over, the cut is the last newline between the chunk's
   * midpoint and its full length, or the full length when there is none.
   */
  lemma ChunkEndIsLastBreak(text: seq<char>, chunkSize: nat, start: int)
    requires 0 <= start && start + chunkSize < |text| && chunkSize > 0
    ensures var end := ChunkEnd(text, chunkSize, start);
      && (forall k :: end < k <= start + chunkSize ==> text[k] != '\n')
      && (end == start + chunkSize && text[end] != '\n' ==>
            forall k :: start + chunkSize / 2 < k <= start + chunkSize ==> text[k] != '\n')
  {
    LastIndexOfCharFromIsLast(text, '\n', start + chunkSize);
  }

  /** A chunk reaches the end of the text exactly when `chunkSize` characters would. */
  lemma ChunkEndReachesEnd(text: seq<char>, chunkSize: nat, start: int)
    requires 0 <= start < |text| && chunkSize > 0
    ensures ChunkEnd(text, chunkSize, start) == |text| <==> start + chunkSize >= |text|
  {
  }

  /** The next start of the loop as written: the chunk's end less the overlap, even after the last chunk. */
  function NextStartAsWritten(text: seq<char>, chunkSize: nat, overlap: nat, start: int): int
    requires 0 <= start < |text| && chunkSize > 0
  {
    ChunkEnd(text, chunkSize, start) - overlap
  }

  /** The value of `start` after `n` iterations of the loop as written, or -1 once the loop has left. */
  function StartAfterAsWritten(text: seq<char>, chunkSize: nat, overlap: nat, n: nat): int
    requires chunkSize > 0
    decreases n
  {
    if n == 0 then 0
    else
      var s := StartAfterAsWritten(text, chunkSize, overlap, n - 1);
      if 0 <= s < |text| then NextStartAsWritten(text, chunkSize, overlap, s) else -1
  }

  /**
   * As written, the chunk that reaches the end of the text sets start to
   * length - overlap, and from there every iteration produces the same chunk
   * and the same start again.
   */
  lemma AsWrittenRepeatsLastChunk(text: seq<char>, chunkSize: nat, overlap: nat, start: int)
    requires chunkSize > 0 && 0 < overlap <= chunkSize && overlap <= |text|
    requires 0 <= start < |text| && start + chunkSize >= |text|
    ensures NextStartAsWritten(text, chunkSize, overlap, start) == |text| - overlap
    ensures NextStartAsWritten(text, chunkSize, overlap, |text| - overlap) == |text| - overlap
  {
    ChunkEndReachesEnd(text, chunkSize, start);
    ChunkEndReachesEnd(text, chunkSize, |text| - overlap);
  }

  /**
   * As written, with a positive overlap of at most half a chunk and a text no
   * shorter than the overlap, the loop condition `start < text.length()` holds
   * after any number of iterations: the loop never exits.
   */
  lemma {:induction false} AsWrittenLoopNeverExits(text: seq<char>, chunkSize: nat, overlap: nat, n: nat)
    requires chunkSize > 0 && 0 < overlap <= chunkSize / 2 && overlap <= |text|
    ensures 0 <= StartAfterAsWritten(text, chunkSize, overlap, n) < |text|
    decreases n
  {
    if n > 0 {
      AsWrittenLoopNeverExits(text, chunkSize, overlap, n - 1);
    }
  }

  /** Every chunk is non-empty and at most `chunkSize` long; every chunk but the last is longer than the overlap. */
  predicate WellSized(cs: seq<seq<char>>, chunkSize: nat, overlap: nat)
  {
    forall i :: 0 <= i < |cs| ==> 0 < |cs[i]| <= chunkSize && (i < |cs| - 1 ==> |cs[i]| > overlap)
  }

  /**
   * Each chunk after the first begins with the last `overlap` characters of
   * the one before; and a chunk shorter than `chunkSize` that is not the last
   * was cut at a newline, which the next chunk carries right after the overlap.
   */
  predicate Overlapping(cs: seq<seq<char>>, chunkSize: nat, overlap: nat)
  {
    forall i, j :: 0 <= i < |cs| && j == i + 1 && j < |cs| ==> Follows(cs[i], cs[j], chunkSize, overlap)
  }

  predicate Follows(prev: seq<char>, next: seq<char>, chunkSize: nat, overlap: nat)
  {
    && |prev| >= overlap && |next| > overlap
    && next[..overlap] == prev[|prev| - overlap..]
    && (|prev| == chunkSize || next[overlap] == '\n')
  }

  /** Each chunk after the first with its overlap dropped, concatenated. */
  function DropOverlaps(cs: seq<seq<char>>, overlap: nat): seq<char>
  {
    if cs == [] then [] else cs[0][Min(overlap, |cs[0]|)..] + DropOverlaps(cs[1..], overlap)
  }

  /** The text rebuilt from its chunks: the first chunk, then each later one without its overlap. */
  function Rejoin(cs: seq<seq<char>>, overlap: nat): (r: seq<char>)
    ensures cs == [] ==> r == []
  {
    if cs == [] then [] else cs[0] + DropOverlaps(cs[1..], overlap)
  }

  lemma {:induction false} DropOverlapsSnoc(cs: seq<seq<char>>, c: seq<char>, overlap: nat)
    ensures DropOverlaps(cs + [c], overlap) == DropOverlaps(cs, overlap) + c[Min(overlap, |c|)..]
  {
    if cs == [] {
      assert ([] + [c])[1..] == [];
    } else {
      assert (cs + [c])[1..] == cs[1..] + [c];
      DropOverlapsSnoc(cs[1..], c, overlap);
    }
  }

  /** Appending a chunk appends what follows its overlap. */
  lemma RejoinSnoc(cs: seq<seq<char>>, c: seq<char>, overlap: nat)
    requires cs != []
    ensures Rejoin(cs + [c], overlap) == Rejoin(cs, overlap) + c[Min(overlap, |c|)..]
  {
    assert (cs + [c])[0] == cs[0] && (cs + [c])[1..] == cs[1..] + [c];
    DropOverlapsSnoc(cs[1..], c, overlap);
  }

  /**
   * `cs` covers the text up to `start + overlap`, where the next chunk starts
   * `overlap` characters before that point; the last chunk ends with those
   * characters and, when shorter than `chunkSize`, was cut at a newline.
   */
  predicate Ready(text: seq<char>, cs: seq<seq<char>>, start: int, chunkSize: nat, overlap: nat)
  {
    && cs != [] && 0 <= start && start + overlap < |text|
    && Rejoin(cs, overlap) == text[..start + overlap]
    && var last := cs[|cs| - 1];
    && |last| > overlap && last[|last| - overlap..] == text[start..start + overlap]
    && (|last| == chunkSize || text[start + overlap] == '\n')
  }

  lemma ExtendWellSized(text: seq<char>, cs: seq<seq<char>>, start: int, end: int, chunkSize: nat, overlap: nat)
    requires 0 <= start < end <= |text| && end - start <= chunkSize
    requires cs != [] ==> Ready(text, cs, start, chunkSize, overlap)
    requires WellSized(cs, chunkSize, overlap)
    ensures WellSized(cs + [text[start..end]], chunkSize, overlap)
  {
    var cs' := cs + [text[start..end]];
    forall i | 0 <= i < |cs'| ensures 0 < |cs'[i]| <= chunkSize && (i < |cs'| - 1 ==> |cs'[i]| > overlap) {
      if i < |cs| {
        assert cs'[i] == cs[i];
      }
    }
  }

  lemma ExtendOverlapping(text: seq<char>, cs: seq<seq<char>>, start: int, end: int, chunkSize: nat, overlap: nat)
    requires 0 <= start < end <= |text| && (cs != [] ==> end > start + overlap)
    requires cs != [] ==> Ready(text, cs, start, chunkSize, overlap)
    requires Overlapping(cs, chunkSize, overlap)
    ensures Overlapping(cs + [text[start..end]], chunkSize, overlap)
  {
    var chunk := text[start..end];
    var cs' := cs + [chunk];
    forall i, j | 0 <= i < |cs'| && j == i + 1 && j < |cs'| ensures Follows(cs'[i], cs'[j], chunkSize, overlap) {
      if j == |cs'| - 1 {
        assert cs'[i] == cs[|cs| - 1] && cs'[j] == chunk;
        assert chunk[..overlap] == text[start..start + overlap];
        assert chunk[overlap] == text[start + overlap];
      } else {
        assert cs'[i] == cs[i] && cs'[j] == cs[j];
      }
    }
  }

  lemma ExtendRejoin(text: seq<char>, cs: seq<seq<char>>, start: int, end: int, chunkSize: nat, overlap: nat)
    requires 0 <= start < end <= |text| && (cs != [] ==> end > start + overlap)
    requires cs == [] ==> start == 0
    requires cs != [] ==> Ready(text, cs, start, chunkSize, overlap)
    ensures Rejoin(cs + [text[start..end]], overlap) == text[..end]
  {
    var chunk := text[start..end];
    if cs == [] {
      assert cs + [chunk] == [chunk] && [chunk][1..] == cs;
    } else {
      RejoinSnoc(cs, chunk, overlap);
      assert chunk[overlap..] == text[start + overlap..end];
      assert text[..start + overlap] + text[start + overlap..end] == text[..end];
    }
  }

  /** The chunk from `start` to the next chunk end keeps the loop's invariant. */
  lemma ExtendChunks(text: seq<char>, cs: seq<seq<char>>, start: int, chunkSize: nat, overlap: nat)
    requires chunkSize > 0 && overlap <= chunkSize / 2 && 0 <= start < |text|
    requires cs == [] ==> start == 0
    requires cs != [] ==> Ready(text, cs, start, chunkSize, overlap)
    requires WellSized(cs, chunkSize, overlap) && Overlapping(cs, chunkSize, overlap)
    ensures var end := ChunkEnd(text, chunkSize, start);
      var cs' := cs + [text[start..end]];
      && Rejoin(cs', overlap) == text[..end]
      && WellSized(cs', chunkSize, overlap) && Overlapping(cs', chunkSize, overlap)
      && (end < |text| ==> Ready(text, cs', end - overlap, chunkSize, overlap))
  {
    var end := ChunkEnd(text, chunkSize, start);
    var chunk := text[start..end];
    var cs' := cs + [chunk];
    assert cs != [] ==> end > start + overlap by {
      if cs != [] && end == |text| {
        assert start + overlap < |text|;
      }
    }
    ExtendWellSized(text, cs, start, end, chunkSize, overlap);
    ExtendOverlapping(text, cs, start, end, chunkSize, overlap);
    ExtendRejoin(text, cs, start, end, chunkSize, overlap);
    if end < |text| {
      assert cs'[|cs'| - 1] == chunk;
      assert chunk[|chunk| - overlap..] == text[end - overlap..end];
    }
  }

  /**
   * splitTextIntoChunks, with the loop left once a chunk reaches the end of
   * the text. The chunks cover the text exactly, each within `chunkSize`, each
   * overlapping the one before by `overlap` characters.
   */
  method SplitTextIntoChunks(text: seq<char>, chunkSize: nat, overlap: nat) returns (chunks: seq<seq<char>>)
    requires chunkSize > 0 && overlap <= chunkSize / 2
    ensures Rejoin(chunks, overlap) == text
    ensures WellSized(chunks, chunkSize, overlap)
    ensures Overlapping(chunks, chunkSize, overlap)
  {
    chunks := [];
    var start := 0;
    while start < |text|
      invariant 0 <= start
      invariant chunks == [] ==> start == 0
      invariant chunks != [] ==> Ready(text, chunks, start, chunkSize, overlap)
      invariant WellSized(chunks, chunkSize, overlap) && Overlapping(chunks, chunkSize, overlap)
      decreases |text| - start
    {
      var end := ChunkEnd(text, chunkSize, start);
      ExtendChunks(text, chunks, start, chunkSize, overlap);
      chunks := chunks + [text[start..end]];
      if end == |text| {
        assert text[..end] == text;
        break;
      }
      start := end - overlap;
    }
  }

  /** A non-empty text gives at least one chunk. */
  lemma ChunksOfNonEmpty(text: seq<char>, chunks: seq<seq<char>>, overlap: nat)
    requires Rejoin(chunks, overlap) == text && text != []
    ensures chunks != []
  {
  }

  // ---------------------------------------------------------------------------
  // Deduplication
  // ---------------------------------------------------------------------------

  /** A knowledge point as the AI returns it: a map of field names to values. */
  type Point = map<string, string>

  /** The dedup key: the "name" field lower-cased and trimmed, for points whose name is present and non-empty. */
  function Key(p: Point): (k: Option<string>)
    ensures k.Some? <==> "name" in p && p["name"] != []
  {
    if "name" in p && p["name"] != [] then Some(JavaTrim(Lower(p["name"]))) else None
  }

  /** The keys of the named points of `ps`. */
  function SeenKeys(ps: seq<Point>): set<string>
  {
    if ps == [] then {}
    else
      var last := ps[|ps| - 1];
      SeenKeys(ps[..|ps| - 1]) + (if Key(last).Some? then {Key(last).value} else {})
  }

  /** The first point with each key, in order; unnamed points are dropped. */
  function KeepFirst(ps: seq<Point>): (r: seq<Point>)
    ensures |r| <= |ps|
  {
    if ps == [] then []
    else
      var init, last := ps[..|ps| - 1], ps[|ps| - 1];
      KeepFirst(init) + (if Key(last).Some? && Key(last).value !in SeenKeys(init) then [last] else [])
  }

  /** deduplicateKnowledgePoints. */
  method Deduplicate(points: seq<Point>) returns (result: seq<Point>)
    ensures result == KeepFirst(points)
  {
    result := [];
    var seenNames: set<string> := {};
    for i := 0 to |points|
      invariant result == KeepFirst(points[..i])
      invariant seenNames == SeenKeys(points[..i])
    {
      assert points[..i + 1][..i] == points[..i];
      var point := points[i];
      if "name" in point && point["name"] != [] {
        var normalizedName := JavaTrim(Lower(point["name"]));
        if normalizedName !in seenNames {
          seenNames := seenNames + {normalizedName};
          result := result + [point];
        }
      }
    }
    assert points[..|points|] == points;
  }

  /** Every kept point comes from the input, and every key of the input is kept. */
  lemma {:induction false} KeepFirstKeys(ps: seq<Point>)
    ensures forall q :: q in KeepFirst(ps) ==> q in ps
    ensures SeenKeys(KeepFirst(ps)) == SeenKeys(ps)
  {
    if ps != [] {
      var init, last := ps[..|ps| - 1], ps[|ps| - 1];
      KeepFirstKeys(init);
      var r := KeepFirst(ps);
      if Key(last).Some? && Key(last).value !in SeenKeys(init) {
        assert r[..|r| - 1] == KeepFirst(init);
      } else {
        assert r == KeepFirst(init);
      }
    }
  }

  lemma {:induction false} SeenKeysMember(ps: seq<Point>, i: int)
    requires 0 <= i < |ps| && Key(ps[i]).Some?
    ensures Key(ps[i]).value in SeenKeys(ps)
    decreases |ps|
  {
    if i < |ps| - 1 {
      SeenKeysMember(ps[..|ps| - 1], i);
    }
  }

  /** The kept points all have names, and no two share a key. */
  lemma {:induction false} KeepFirstDistinct(ps: seq<Point>)
    ensures var r := KeepFirst(ps);
      && (forall i :: 0 <= i < |r| ==> Key(r[i]).Some?)
      && (forall i, j :: 0 <= i < j < |r| ==> Key(r[i]) != Key(r[j]))
  {
    if ps != [] {
      var init, last := ps[..|ps| - 1], ps[|ps| - 1];
      KeepFirstDistinct(init);
      KeepFirstKeys(init);
      var k := KeepFirst(init);
      if Key(last).Some? && Key(last).value !in SeenKeys(init) {
        forall i | 0 <= i < |k| ensures Key(k[i]).Some? && Key(k[i]) != Key(last) {
          SeenKeysMember(k, i);
        }
      }
    }
  }

  /** Deduplicating twice changes nothing. */
  lemma {:induction false} KeepFirstIdempotent(ps: seq<Point>)
    ensures KeepFirst(KeepFirst(ps)) == KeepFirst(ps)
  {
    if ps != [] {
      var init, last := ps[..|ps| - 1], ps[|ps| - 1];
      KeepFirstIdempotent(init);
      KeepFirstKeys(init);
      var k := KeepFirst(init);
      if Key(last).Some? && Key(last).value !in SeenKeys(init) {
        var r := k + [last];
        assert KeepFirst(ps) == r;
        assert r[..|r| - 1] == k && r[|r| - 1] == last;
        assert KeepFirst(r) == KeepFirst(k) + [last];
      } else {
        assert KeepFirst(ps) == k;
      }
    }
  }

  // ---------------------------------------------------------------------------
  // Chunked extraction
  // ---------------------------------------------------------------------------

  /** All points returned for the first |asked| chunks, each asked for its count. */
  function Gathered(chunks: seq<seq<char>>, asked: seq<int>, ai: (seq<char>, int) -> seq<Point>): seq<Point>
    requires |asked| <= |chunks|
  {
    if asked == [] then []
    else
      var n := |asked| - 1;
      Gathered(chunks, asked[..n], ai) + ai(chunks[n], asked[n])
  }

  /** subList(0, count) when the list is longer than the count; a negative count makes subList throw (None). */
  function CutTo(ps: seq<Point>, count: int): (r: Option<seq<Point>>)
    ensures r.None? <==> count < 0
    ensures r.Some? ==> |r.value| <= count && |r.value| <= |ps| && r.value == ps[..|r.value|]
    ensures r.Some? && |ps| <= count ==> r.value == ps
  {
    if |ps| > count then (if count < 0 then None else Some(ps[..count])) else Some(ps)
  }

  /**
   * extractKnowledgePointsChunked for a text too long to be sent at once.
   * `ai(chunk, n)` is what the AI returns when asked for n points of the chunk.
   * Also returns the count asked of each chunk that was sent and the points
   * collected before deduplication.
   */
  method ExtractChunked(text: seq<char>, count: int, ai: (seq<char>, int) -> seq<Point>)
    returns (result: Option<seq<Point>>, chunks: seq<seq<char>>, asked: seq<int>, collected: seq<Point>)
    requires |text| > DirectLimit
    ensures Rejoin(chunks, Overlap) == text && |chunks| >= 1
    ensures WellSized(chunks, ChunkSize, Overlap) && Overlapping(chunks, ChunkSize, Overlap)
    ensures |asked| == |chunks| || |asked| == |chunks| - 1
    ensures forall i :: 0 <= i < |asked| ==> asked[i] > 0
    ensures forall i :: 0 <= i < |asked| && i < |chunks| - 1 ==> asked[i] == Max(1, JavaDiv(count, |chunks|))
    ensures |asked| == |chunks| ==>
      asked[|chunks| - 1] == count - |Gathered(chunks, asked[..|chunks| - 1], ai)|
    ensures |asked| < |chunks| ==> count - |Gathered(chunks, asked, ai)| <= 0
    ensures collected == Gathered(chunks, asked, ai)
    ensures result == CutTo(KeepFirst(collected), count)
  {
    chunks := SplitTextIntoChunks(text, ChunkSize, Overlap);
    ChunksOfNonEmpty(text, chunks, Overlap);
    var pointsPerChunk := Max(1, JavaDiv(count, |chunks|));
    asked, collected := [], [];
    var i := 0;
    while i < |chunks|
      invariant 0 <= i <= |chunks| && |asked| == i
      invariant forall k :: 0 <= k < i ==> asked[k] > 0
      invariant forall k :: 0 <= k < i && k < |chunks| - 1 ==> asked[k] == pointsPerChunk
      invariant i == |chunks| ==> asked[|chunks| - 1] == count - |Gathered(chunks, asked[..|chunks| - 1], ai)|
      invariant collected == Gathered(chunks, asked, ai)
    {
      var chunkCount := if i == |chunks| - 1 then count - |collected| else pointsPerChunk;
      if chunkCount <= 0 {
        break;
      }
      var chunkPoints := ai(chunks[i], chunkCount);
      assert (asked + [chunkCount])[..i] == asked;
      asked := asked + [chunkCount];
      collected := collected + chunkPoints;
      i := i + 1;
    }
    var deduplicated := Deduplicate(collected);
    if |deduplicated| > count {
      if count < 0 {
        result := None;
      } else {
        result := Some(deduplicated[..count]);
      }
    } else {
      result := Some(deduplicated);
    }
  }
}
