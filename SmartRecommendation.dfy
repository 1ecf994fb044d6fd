/**
 * The hybrid recommendation engine: user-based collaborative filtering over
 * an implicit user-item rating matrix, content similarity to a profile built
 * from the user's history, and item popularity, blended with fixed weights
 * and re-ranked with a tag-diversity term.
 *
 * Every JavaScript Map is an insertion-ordered entry list (OrderedMaps);
 * `Date.now()`, `Math.exp`, `Math.sqrt` and `Math.log10` are parameters.
 */
module SmartRecommendation {
  import opened Common
  import opened Sorting
  import opened OrderedMaps
  import opened SortedPrefix

  const CF_WEIGHT: real := 0.4
  const CONTENT_WEIGHT: real := 0.4
  const POPULARITY_WEIGHT: real := 0.2
  const DAY_MS: real := 86400000.0
  /** Only users more similar than this take part in collaborative filtering. */
  const MIN_SIMILARITY: real := 0.1
  const MAX_SIMILAR_USERS: nat := 20
  const PROFILE_TAGS: nat := 5
  const PROFILE_KNOWLEDGE_POINTS: nat := 10

  datatype ItemType = Question | Course | KnowledgePoint

  datatype BehaviorType = View | Practice | Collect | Correct | Wrong

  datatype UserBehavior = UserBehavior(
    userId: string,
    itemId: string,
    itemType: ItemType,
    behaviorType: BehaviorType,
    timestamp: int,
    duration: Option<real>,
    score: Option<real>)

  datatype Item = Item(
    id: string,
    itemType: ItemType,
    title: string,
    difficulty: Option<real>,
    subject: Option<string>,
    tags: Option<seq<string>>,
    knowledgePoints: Option<seq<string>>,
    avgScore: Option<real>,
    practiceCount: Option<real>)

  datatype RecommendationResult = RecommendationResult(
    item: Item,
    score: real,
    reason: string,
    confidence: real,
    diversity: real,
    novelty: real,
    explanation: seq<string>)

  /** A number JavaScript treats as true: present and not zero. */
  predicate Truthy(x: Option<real>)
  {
    x.Some? && x.value != 0.0
  }

  /** A string JavaScript treats as true: present and not empty. */
  predicate TruthyText(x: Option<string>)
  {
    x.Some? && x.value != ""
  }

  function Snd(p: (string, real)): real
  {
    p.1
  }

  function IdsOf(items: seq<Item>): (r: seq<string>)
    ensures |r| == |items| && forall i :: 0 <= i < |items| ==> r[i] == items[i].id
  {
    seq(|items|, i requires 0 <= i < |items| => items[i].id)
  }

  // ---------------------------------------------------------------------
  // Implicit ratings
  // ---------------------------------------------------------------------

  function BaseRating(t: BehaviorType): real
  {
    match t
    case View => 1.0
    case Practice => 3.0
    case Collect => 4.0
    case Correct => 5.0
    case Wrong => 2.0
  }

  /** Base rating plus up to one point for study time and up to two for the score. */
  function RawRating(b: UserBehavior): real
  {
    var withDuration := BaseRating(b.behaviorType)
      + (if Truthy(b.duration) then MinR(b.duration.value / 300.0, 1.0) else 0.0);
    withDuration + (if b.score.Some? then b.score.value / 100.0 * 2.0 else 0.0)
  }

  /** Exponential decay with a 30-day period that at most halves a rating. */
  function DecayFactor(b: UserBehavior, now: int, exp: real -> real): real
  {
    var daysSince := (now - b.timestamp) as real / DAY_MS;
    0.5 + 0.5 * exp(-daysSince / 30.0)
  }

  /** The rating one behaviour contributes. */
  function Rating(b: UserBehavior, now: int, exp: real -> real): real
  {
    RawRating(b) * DecayFactor(b, now, exp)
  }

  /** A behaviour from the past with a non-negative duration and a score within 0..100. */
  predicate WellFormedBehavior(b: UserBehavior, now: int)
  {
    && b.timestamp <= now
    && (b.duration.Some? ==> b.duration.value >= 0.0)
    && (b.score.Some? ==> 0.0 <= b.score.value <= 100.0)
  }

  lemma RatingBounds(b: UserBehavior, now: int, exp: real -> real)
    requires IsExp(exp) && WellFormedBehavior(b, now)
    ensures BaseRating(b.behaviorType) / 2.0 < Rating(b, now, exp) <= 8.0
  {
    var base, raw, f := BaseRating(b.behaviorType), RawRating(b), DecayFactor(b, now, exp);
    var daysSince := (now - b.timestamp) as real / DAY_MS;
    ExpAtMostOne(exp, -daysSince / 30.0);
    assert 0.5 < f <= 1.0;
    assert 1.0 <= base <= raw <= base + 3.0 <= 8.0;
    ScaleWithin(raw, f, 0.5, 1.0);
    assert Rating(b, now, exp) == raw * f;
    assert raw * 0.5 < raw * f <= raw * 1.0;
  }

  /** Scaling a positive amount by a factor within lo..hi. */
  lemma ScaleWithin(x: real, f: real, lo: real, hi: real)
    requires x > 0.0 && lo < f <= hi
    ensures x * lo < x * f <= x * hi
  {
  }

  /** A quotient whose numerator is between lo and hi times its positive denominator. */
  lemma DivWithin(n: real, d: real, lo: real, hi: real)
    requires d > 0.0 && Bounded(n, d, lo, hi)
    ensures lo <= n / d <= hi
  {
    assert n / d * d == n;
  }

  /** The ratings of one user, by item; an unknown user has none. */
  function VectorOf(m: map<string, Entries<real>>, u: string): Entries<real>
  {
    if u in m then m[u] else []
  }

  /** `userMatrix.get(itemId) || 0` */
  function PairRating(m: map<string, Entries<real>>, u: string, i: string): real
  {
    GetOr(VectorOf(m, u), i, 0.0)
  }

  /** The matrix after one behaviour: its rating is added to the pair's current rating. */
  function Record(m: map<string, Entries<real>>, b: UserBehavior, now: int, exp: real -> real): map<string, Entries<real>>
  {
    var v := VectorOf(m, b.userId);
    m[b.userId := Put(v, b.itemId, GetOr(v, b.itemId, 0.0) + Rating(b, now, exp))]
  }

  function RecordAll(m: map<string, Entries<real>>, bs: seq<UserBehavior>, now: int, exp: real -> real): map<string, Entries<real>>
  {
    if bs == [] then m
    else Record(RecordAll(m, bs[..|bs| - 1], now, exp), bs[|bs| - 1], now, exp)
  }

  /** The total rating that the behaviours of user `u` on item `i` contribute. */
  function RatingSum(bs: seq<UserBehavior>, u: string, i: string, now: int, exp: real -> real): real
  {
    if bs == [] then 0.0
    else
      var b := bs[|bs| - 1];
      RatingSum(bs[..|bs| - 1], u, i, now, exp) + (if b.userId == u && b.itemId == i then Rating(b, now, exp) else 0.0)
  }

  /** Recording a behaviour adds its rating to its own pair and leaves every other pair alone. */
  lemma RecordStep(m: map<string, Entries<real>>, b: UserBehavior, u: string, i: string, now: int, exp: real -> real)
    ensures PairRating(Record(m, b, now, exp), u, i)
         == PairRating(m, u, i) + (if b.userId == u && b.itemId == i then Rating(b, now, exp) else 0.0)
  {
    var v := VectorOf(m, b.userId);
    var w := Put(v, b.itemId, GetOr(v, b.itemId, 0.0) + Rating(b, now, exp));
    assert VectorOf(Record(m, b, now, exp), b.userId) == w;
    if b.userId == u && b.itemId != i {
      assert Get(w, i) == Get(v, i);
    }
  }

  /**
   * Repeated behaviours accumulate: a pair's rating after a batch is its
   * rating before plus the ratings of the batch's behaviours on that pair.
   */
  lemma {:induction false} RatingsAccumulate(m: map<string, Entries<real>>, bs: seq<UserBehavior>, u: string, i: string, now: int, exp: real -> real)
    ensures PairRating(RecordAll(m, bs, now, exp), u, i) == PairRating(m, u, i) + RatingSum(bs, u, i, now, exp)
  {
    if bs != [] {
      RatingsAccumulate(m, bs[..|bs| - 1], u, i, now, exp);
      RecordStep(RecordAll(m, bs[..|bs| - 1], now, exp), bs[|bs| - 1], u, i, now, exp);
    }
  }

  /** Well-formed behaviours only ever raise a pair's rating. */
  lemma {:induction false} RatingSumNonNegative(bs: seq<UserBehavior>, u: string, i: string, now: int, exp: real -> real)
    requires IsExp(exp)
    requires forall b :: b in bs ==> WellFormedBehavior(b, now)
    ensures RatingSum(bs, u, i, now, exp) >= 0.0
  {
    if bs != [] {
      RatingSumNonNegative(bs[..|bs| - 1], u, i, now, exp);
      RatingBounds(bs[|bs| - 1], now, exp);
    }
  }

  // ---------------------------------------------------------------------
  // Cosine similarity
  // ---------------------------------------------------------------------

  /** `new Set([...vec1.keys(), ...vec2.keys()])` in iteration order. */
  function AllKeys(v1: Entries<real>, v2: Entries<real>): seq<string>
  {
    Dedup(KeysOf(v1) + KeysOf(v2))
  }

  function Dot(keys: seq<string>, v1: Entries<real>, v2: Entries<real>): real
  {
    if keys == [] then 0.0
    else
      var k := keys[|keys| - 1];
      Dot(keys[..|keys| - 1], v1, v2) + GetOr(v1, k, 0.0) * GetOr(v2, k, 0.0)
  }

  function Norm(keys: seq<string>, v: Entries<real>): (r: real)
    ensures r >= 0.0
  {
    if keys == [] then 0.0
    else
      var k := keys[|keys| - 1];
      Norm(keys[..|keys| - 1], v) + GetOr(v, k, 0.0) * GetOr(v, k, 0.0)
  }

  lemma SqrtPositive(sqrt: real -> real, x: real)
    requires IsSqrt(sqrt) && x > 0.0
    ensures sqrt(x) > 0.0
  {
    assert sqrt(x) * sqrt(x) == x;
  }

  /** dot / (|v1| |v2|), and 0 when either norm is 0. */
  function Angle(dot: real, norm1: real, norm2: real, sqrt: real -> real): real
    requires IsSqrt(sqrt) && norm1 >= 0.0 && norm2 >= 0.0
  {
    if norm1 == 0.0 || norm2 == 0.0 then 0.0
    else
      SqrtPositive(sqrt, norm1);
      SqrtPositive(sqrt, norm2);
      dot / (sqrt(norm1) * sqrt(norm2))
  }

  /** Cosine of the angle between two rating vectors; 0 when either has no non-zero rating. */
  function Cosine(v1: Entries<real>, v2: Entries<real>, sqrt: real -> real): (r: real)
    requires IsSqrt(sqrt)
    ensures v1 == [] || v2 == [] ==> r == 0.0
  {
    var keys := AllKeys(v1, v2);
    NormOfEmpty(keys);
    Angle(Dot(keys, v1, v2), Norm(keys, v1), Norm(keys, v2), sqrt)
  }

  lemma {:induction false} NormOfEmpty(keys: seq<string>)
    ensures Norm(keys, []) == 0.0
  {
    if keys != [] {
      NormOfEmpty(keys[..|keys| - 1]);
    }
  }

  lemma {:induction false} DotSelf(keys: seq<string>, v: Entries<real>)
    ensures Dot(keys, v, v) == Norm(keys, v)
  {
    if keys != [] {
      DotSelf(keys[..|keys| - 1], v);
    }
  }

  /** A vector with some non-zero rating is at angle zero to itself. */
  lemma CosineSelf(v: Entries<real>, sqrt: real -> real)
    requires IsSqrt(sqrt) && Norm(AllKeys(v, v), v) != 0.0
    ensures Cosine(v, v, sqrt) == 1.0
  {
    var keys := AllKeys(v, v);
    var n := Norm(keys, v);
    DotSelf(keys, v);
    SqrtPositive(sqrt, n);
    assert Dot(keys, v, v) == n;
    assert sqrt(n) * sqrt(n) == n;
    assert n / (sqrt(n) * sqrt(n)) == 1.0;
  }

  /** Non-negative ratings are never at an obtuse angle. */
  lemma CosineNonNegative(v1: Entries<real>, v2: Entries<real>, sqrt: real -> real)
    requires IsSqrt(sqrt)
    requires forall p :: p in v1 ==> p.1 >= 0.0
    requires forall p :: p in v2 ==> p.1 >= 0.0
    ensures Cosine(v1, v2, sqrt) >= 0.0
  {
    var keys := AllKeys(v1, v2);
    DotNonNegative(keys, v1, v2);
    var n1 := Norm(keys, v1);
    var n2 := Norm(keys, v2);
    if n1 != 0.0 && n2 != 0.0 {
      SqrtPositive(sqrt, n1);
      SqrtPositive(sqrt, n2);
      assert sqrt(n1) * sqrt(n2) > 0.0;
    }
  }

  lemma {:induction false} DotNonNegative(keys: seq<string>, v1: Entries<real>, v2: Entries<real>)
    requires forall p :: p in v1 ==> p.1 >= 0.0
    requires forall p :: p in v2 ==> p.1 >= 0.0
    ensures Dot(keys, v1, v2) >= 0.0
  {
    if keys != [] {
      DotNonNegative(keys[..|keys| - 1], v1, v2);
      var k := keys[|keys| - 1];
      assert GetOr(v1, k, 0.0) >= 0.0 && GetOr(v2, k, 0.0) >= 0.0;
    }
  }

  // ---------------------------------------------------------------------
  // User similarities and collaborative filtering
  // ---------------------------------------------------------------------

  /** Every listed user has a row in the matrix. */
  predicate Rows(users: seq<string>, m: map<string, Entries<real>>)
  {
    forall i :: 0 <= i < |users| ==> users[i] in m
  }

  /** The other users, in matrix order, more similar to `u` than MIN_SIMILARITY. */
  function SimilarCandidates(users: seq<string>, m: map<string, Entries<real>>, u: string, sqrt: real -> real): (r: Entries<real>)
    requires IsSqrt(sqrt) && u in m && Rows(users, m)
    ensures forall p :: p in r ==> p.0 != u && p.1 > MIN_SIMILARITY && p.0 in users
  {
    if users == [] then []
    else
      var c := SimilarCandidates(users[..|users| - 1], m, u, sqrt);
      var other := users[|users| - 1];
      if other == u then c
      else
        var s := Cosine(m[u], m[other], sqrt);
        if s > MIN_SIMILARITY then Put(c, other, s) else c
  }

  /** At most MAX_SIMILAR_USERS of the candidates, most similar first. */
  function SimilaritiesOf(u: string, users: seq<string>, m: map<string, Entries<real>>, sqrt: real -> real): Entries<real>
    requires IsSqrt(sqrt) && Rows(users, m)
  {
    if u !in m then []
    else
      var ranked := SortDesc(SimilarCandidates(users, m, u, sqrt), Snd);
      ranked[..Min(|ranked|, MAX_SIMILAR_USERS)]
  }

  /**
   * The neighbourhood of a user excludes the user, keeps only similarities
   * above MIN_SIMILARITY, holds at most MAX_SIMILAR_USERS users and lists
   * them most similar first.
   */
  lemma SimilaritiesShape(u: string, users: seq<string>, m: map<string, Entries<real>>, sqrt: real -> real)
    requires IsSqrt(sqrt) && Rows(users, m)
    ensures |SimilaritiesOf(u, users, m, sqrt)| <= MAX_SIMILAR_USERS
    ensures forall p :: p in SimilaritiesOf(u, users, m, sqrt) ==> p.0 != u && p.1 > MIN_SIMILARITY && p.0 in users
    ensures SortedDesc(SimilaritiesOf(u, users, m, sqrt), Snd)
    ensures u !in m ==> SimilaritiesOf(u, users, m, sqrt) == []
  {
    if u in m {
      var c := SimilarCandidates(users, m, u, sqrt);
      var ranked := SortDesc(c, Snd);
      SortDescSorted(c, Snd);
      var r := ranked[..Min(|ranked|, MAX_SIMILAR_USERS)];
      forall p | p in r ensures p.0 != u && p.1 > MIN_SIMILARITY && p.0 in users {
        assert p in multiset(ranked);
      }
    }
  }

  /**
   * The candidates are complete: every other listed user whose similarity
   * exceeds MIN_SIMILARITY is a candidate with that similarity, and every
   * candidate carries its own cosine. No user is listed twice.
   */
  lemma {:induction false} SimilarCandidatesComplete(users: seq<string>, m: map<string, Entries<real>>, u: string, sqrt: real -> real)
    requires IsSqrt(sqrt) && u in m && Rows(users, m)
    ensures forall i :: 0 <= i < |users| && users[i] != u && Cosine(m[u], m[users[i]], sqrt) > MIN_SIMILARITY ==>
      Get(SimilarCandidates(users, m, u, sqrt), users[i]) == Some(Cosine(m[u], m[users[i]], sqrt))
    ensures forall p :: p in SimilarCandidates(users, m, u, sqrt) ==> p.0 in m && p.1 == Cosine(m[u], m[p.0], sqrt)
    ensures DistinctKeys(SimilarCandidates(users, m, u, sqrt))
  {
    if users != [] {
      var init := users[..|users| - 1];
      SimilarCandidatesComplete(init, m, u, sqrt);
      var c := SimilarCandidates(init, m, u, sqrt);
      var other := users[|users| - 1];
      if other != u {
        var s := Cosine(m[u], m[other], sqrt);
        if s > MIN_SIMILARITY {
          PutDistinct(c, other, s);
        }
      }
      var r := SimilarCandidates(users, m, u, sqrt);
      forall i | 0 <= i < |users| && users[i] != u && Cosine(m[u], m[users[i]], sqrt) > MIN_SIMILARITY
        ensures Get(r, users[i]) == Some(Cosine(m[u], m[users[i]], sqrt))
      {
        if i < |users| - 1 {
          assert users[i] == init[i];
        }
      }
    }
  }

  /**
   * The neighbourhood keeps the most similar candidates: all of them when
   * there are at most MAX_SIMILAR_USERS, and otherwise no candidate left out
   * is more similar than any candidate kept.
   */
  lemma SimilaritiesTopK(u: string, users: seq<string>, m: map<string, Entries<real>>, sqrt: real -> real)
    requires IsSqrt(sqrt) && Rows(users, m) && u in m
    ensures |SimilaritiesOf(u, users, m, sqrt)| == Min(|SimilarCandidates(users, m, u, sqrt)|, MAX_SIMILAR_USERS)
    ensures forall p :: p in SimilaritiesOf(u, users, m, sqrt) ==> p in SimilarCandidates(users, m, u, sqrt)
    ensures forall p, q ::
      p in SimilarCandidates(users, m, u, sqrt) && p !in SimilaritiesOf(u, users, m, sqrt) && q in SimilaritiesOf(u, users, m, sqrt)
      ==> p.1 <= q.1
  {
    var c := SimilarCandidates(users, m, u, sqrt);
    var k := Min(|c|, MAX_SIMILAR_USERS);
    var r := SortDesc(c, Snd)[..k];
    assert r == SimilaritiesOf(u, users, m, sqrt);
    SortDescPrefixKeepsLargest(c, Snd, k);
    forall p, q | p in c && p !in r && q in r ensures p.1 <= q.1 {
      assert Snd(p) <= Snd(q);
    }
  }

  /** Σ similarity × rating over the neighbours that rated `item`. */
  function WeightedSum(sims: Entries<real>, m: map<string, Entries<real>>, item: string): real
  {
    if sims == [] then 0.0
    else
      var (other, sim) := sims[|sims| - 1];
      WeightedSum(sims[..|sims| - 1], m, item)
        + (if other in m && HasKey(m[other], item) then sim * Get(m[other], item).value else 0.0)
  }

  /** Σ similarity over the neighbours that rated `item`. */
  function SimilaritySum(sims: Entries<real>, m: map<string, Entries<real>>, item: string): real
  {
    if sims == [] then 0.0
    else
      var (other, sim) := sims[|sims| - 1];
      SimilaritySum(sims[..|sims| - 1], m, item) + (if other in m && HasKey(m[other], item) then sim else 0.0)
  }

  lemma SumsStep(sims: Entries<real>, j: int, m: map<string, Entries<real>>, item: string)
    requires 0 <= j < |sims|
    ensures var (other, sim) := sims[j];
      && WeightedSum(sims[..j + 1], m, item) == WeightedSum(sims[..j], m, item)
           + (if other in m && HasKey(m[other], item) then sim * Get(m[other], item).value else 0.0)
      && SimilaritySum(sims[..j + 1], m, item) == SimilaritySum(sims[..j], m, item)
           + (if other in m && HasKey(m[other], item) then sim else 0.0)
  {
    assert sims[..j + 1][..j] == sims[..j];
  }

  /** The collaborative score of each candidate the user has not rated and some neighbour has. */
  function CfLoop(items: seq<Item>, own: Entries<real>, sims: Entries<real>, m: map<string, Entries<real>>): (r: Entries<real>)
    ensures forall k :: HasKey(r, k) ==> !HasKey(own, k) && k in IdsOf(items)
  {
    if items == [] then []
    else
      var s := CfLoop(items[..|items| - 1], own, sims, m);
      var item := items[|items| - 1];
      assert forall k :: k in IdsOf(items[..|items| - 1]) ==> k in IdsOf(items) by {
        forall k | k in IdsOf(items[..|items| - 1]) ensures k in IdsOf(items) {
          var j :| 0 <= j < |items| - 1 && IdsOf(items[..|items| - 1])[j] == k;
          assert IdsOf(items)[j] == k;
        }
      }
      assert IdsOf(items)[|items| - 1] == item.id;
      if HasKey(own, item.id) then s
      else
        var ss := SimilaritySum(sims, m, item.id);
        if ss > 0.0 then Put(s, item.id, WeightedSum(sims, m, item.id) / ss) else s
  }

  function CfScores(u: string, items: seq<Item>, users: seq<string>, m: map<string, Entries<real>>, sqrt: real -> real): Entries<real>
    requires IsSqrt(sqrt) && Rows(users, m)
  {
    if u !in m || m[u] == [] then []
    else CfLoop(items, m[u], SimilaritiesOf(u, users, m, sqrt), m)
  }

  /** Collaborative filtering never scores an item the user has rated, nor a non-candidate. */
  lemma CfSkipsRated(u: string, items: seq<Item>, users: seq<string>, m: map<string, Entries<real>>, sqrt: real -> real, k: string)
    requires IsSqrt(sqrt) && Rows(users, m)
    requires HasKey(CfScores(u, items, users, m, sqrt), k)
    ensures !HasKey(VectorOf(m, u), k) && k in IdsOf(items)
  {
  }

  /** Every stored rating lies within lo..hi. */
  predicate RatingsWithin(m: map<string, Entries<real>>, lo: real, hi: real)
  {
    forall u, p :: u in m && p in m[u] ==> lo <= p.1 <= hi
  }

  lemma RatingWithin(m: map<string, Entries<real>>, other: string, item: string, lo: real, hi: real)
    requires RatingsWithin(m, lo, hi) && other in m && HasKey(m[other], item)
    ensures lo <= Get(m[other], item).value <= hi
  {
    assert (item, Get(m[other], item).value) in m[other];
  }

  /** `ws` lies between lo and hi times the weight total `ss`. */
  predicate Bounded(ws: real, ss: real, lo: real, hi: real)
  {
    lo * ss <= ws <= hi * ss
  }

  /** Adding one more weighted rating keeps a weighted sum within its bounds. */
  lemma AddWithin(ws: real, ss: real, sim: real, rating: real, lo: real, hi: real)
    requires Bounded(ws, ss, lo, hi) && sim > 0.0 && lo <= rating <= hi
    ensures Bounded(ws + sim * rating, ss + sim, lo, hi)
  {
    assert sim * lo <= sim * rating <= sim * hi;
  }

  lemma {:induction false} WeightedSumWithin(sims: Entries<real>, m: map<string, Entries<real>>, item: string, lo: real, hi: real)
    requires RatingsWithin(m, lo, hi)
    requires forall p :: p in sims ==> p.1 > 0.0
    ensures Bounded(WeightedSum(sims, m, item), SimilaritySum(sims, m, item), lo, hi)
  {
    if sims == [] {
      assert Bounded(0.0, 0.0, lo, hi);
    } else {
      var init := sims[..|sims| - 1];
      var other, sim := sims[|sims| - 1].0, sims[|sims| - 1].1;
      assert sims[|sims| - 1] in sims;
      assert forall p :: p in init ==> p in sims;
      WeightedSumWithin(init, m, item, lo, hi);
      var ss, ws := SimilaritySum(init, m, item), WeightedSum(init, m, item);
      if other in m && HasKey(m[other], item) {
        var rating := Get(m[other], item).value;
        assert WeightedSum(sims, m, item) == ws + sim * rating;
        assert SimilaritySum(sims, m, item) == ss + sim;
        RatingWithin(m, other, item, lo, hi);
        AddWithin(ws, ss, sim, rating, lo, hi);
      } else {
        assert WeightedSum(sims, m, item) == ws && SimilaritySum(sims, m, item) == ss;
      }
    }
  }

  lemma {:induction false} CfLoopWithin(items: seq<Item>, own: Entries<real>, sims: Entries<real>, m: map<string, Entries<real>>, lo: real, hi: real)
    requires RatingsWithin(m, lo, hi)
    requires forall p :: p in sims ==> p.1 > 0.0
    ensures forall p :: p in CfLoop(items, own, sims, m) ==> lo <= p.1 <= hi
  {
    if items != [] {
      CfLoopWithin(items[..|items| - 1], own, sims, m, lo, hi);
      var item := items[|items| - 1];
      var ss := SimilaritySum(sims, m, item.id);
      if !HasKey(own, item.id) && ss > 0.0 {
        WeightedSumWithin(sims, m, item.id, lo, hi);
        DivWithin(WeightedSum(sims, m, item.id), ss, lo, hi);
      }
    }
  }

  /**
   * A collaborative score is a similarity-weighted mean of the neighbours'
   * ratings, so it lies within any bounds that hold for all stored ratings.
   */
  lemma CfScoresWithin(u: string, items: seq<Item>, users: seq<string>, m: map<string, Entries<real>>, sqrt: real -> real, lo: real, hi: real)
    requires IsSqrt(sqrt) && Rows(users, m)
    requires RatingsWithin(m, lo, hi)
    ensures forall p :: p in CfScores(u, items, users, m, sqrt) ==> lo <= p.1 <= hi
  {
    if u in m && m[u] != [] {
      SimilaritiesShape(u, users, m, sqrt);
      CfLoopWithin(items, m[u], SimilaritiesOf(u, users, m, sqrt), m, lo, hi);
    }
  }

  // ---------------------------------------------------------------------
  // The user profile
  // ---------------------------------------------------------------------

  /** `counts.set(x, (counts.get(x) || 0) + 1)` for each `x` in turn. */
  function Count(counts: Entries<real>, xs: seq<string>): (r: Entries<real>)
    ensures forall k :: HasKey(r, k) <==> HasKey(counts, k) || k in xs
    ensures (forall p :: p in counts ==> p.1 >= 1.0) ==> forall p :: p in r ==> p.1 >= 1.0
  {
    if xs == [] then counts
    else
      var c := Count(counts, xs[..|xs| - 1]);
      var x := xs[|xs| - 1];
      assert forall k :: k in xs <==> k in xs[..|xs| - 1] || k == x by {
        assert xs == xs[..|xs| - 1] + [x];
      }
      Put(c, x, GetOr(c, x, 0.0) + 1.0)
  }

  /** What buildUserProfile counts over a user's behaviours. */
  datatype Tally = Tally(
    subjects: Entries<real>,
    tags: Entries<real>,
    knowledgePoints: Entries<real>,
    totalDifficulty: real,
    difficultyCount: nat)

  function TallyItem(t: Tally, item: Item): Tally
  {
    Tally(
      if TruthyText(item.subject) then Count(t.subjects, [item.subject.value]) else t.subjects,
      if item.tags.Some? then Count(t.tags, item.tags.value) else t.tags,
      if item.knowledgePoints.Some? then Count(t.knowledgePoints, item.knowledgePoints.value) else t.knowledgePoints,
      if Truthy(item.difficulty) then t.totalDifficulty + item.difficulty.value else t.totalDifficulty,
      if Truthy(item.difficulty) then t.difficultyCount + 1 else t.difficultyCount)
  }

  /** Every tag of the known items behind the behaviours, with repetitions. */
  function SeenTags(bs: seq<UserBehavior>, features: map<string, Item>): seq<string>
  {
    if bs == [] then []
    else
      var b := bs[|bs| - 1];
      SeenTags(bs[..|bs| - 1], features)
        + (if b.itemId in features && features[b.itemId].tags.Some? then features[b.itemId].tags.value else [])
  }

  /** The counts over the behaviours whose item is known; the others are skipped. */
  function TallyOf(bs: seq<UserBehavior>, features: map<string, Item>): (t: Tally)
    ensures forall k :: HasKey(t.tags, k) <==> k in SeenTags(bs, features)
  {
    if bs == [] then Tally([], [], [], 0.0, 0)
    else
      var t := TallyOf(bs[..|bs| - 1], features);
      var b := bs[|bs| - 1];
      if b.itemId in features then TallyItem(t, features[b.itemId]) else t
  }

  /** The position of the first entry with the greatest value; -1 for no entries. */
  function TopIndex(c: Entries<real>): (r: int)
    ensures -1 <= r < |c|
    ensures r == -1 <==> c == []
    ensures r >= 0 ==> forall j :: 0 <= j < |c| ==> c[j].1 <= c[r].1
    ensures r >= 0 ==> forall j :: 0 <= j < r ==> c[j].1 < c[r].1
  {
    if c == [] then -1
    else
      var t := TopIndex(c[..|c| - 1]);
      if t == -1 || c[|c| - 1].1 > c[t].1 then |c| - 1 else t
  }

  /** getTopItem: the first key with the greatest count. */
  function TopKey(c: Entries<real>): Option<string>
  {
    if c == [] then None else Some(c[TopIndex(c)].0)
  }

  /** The keys of the `n` highest counts, ties in first-seen order. */
  function TopKeys(c: Entries<real>, n: nat): (r: seq<string>)
    ensures |r| <= n && |r| <= |c|
    ensures forall k :: k in r ==> HasKey(c, k)
  {
    var ranked := SortDesc(c, Snd);
    var top := ranked[..Min(|ranked|, n)];
    assert forall i :: 0 <= i < |top| ==> HasKey(c, top[i].0) by {
      forall i | 0 <= i < |top| ensures HasKey(c, top[i].0) {
        assert top[i] in multiset(c);
        var j :| 0 <= j < |c| && c[j] == top[i];
        HasKeyIndex(c, j);
      }
    }
    KeysOf(top)
  }

  function ProfileOf(u: string, behaviors: map<string, seq<UserBehavior>>, features: map<string, Item>): Option<Item>
  {
    if u !in behaviors || behaviors[u] == [] then None
    else
      var t := TallyOf(behaviors[u], features);
      Some(Item(
        "user-profile-" + u, KnowledgePoint, "User Profile",
        if t.difficultyCount > 0 then Some(t.totalDifficulty / t.difficultyCount as real) else None,
        TopKey(t.subjects),
        Some(TopKeys(t.tags, PROFILE_TAGS)),
        Some(TopKeys(t.knowledgePoints, PROFILE_KNOWLEDGE_POINTS)),
        None, None))
  }

  /**
   * A user with behaviours gets a profile and one without does not; the
   * profile keeps at most five tags, each a tag of an item the user acted on,
   * and at most ten knowledge points.
   */
  lemma ProfileShape(u: string, behaviors: map<string, seq<UserBehavior>>, features: map<string, Item>)
    ensures ProfileOf(u, behaviors, features).Some? <==> u in behaviors && behaviors[u] != []
    ensures ProfileOf(u, behaviors, features).Some? ==>
      var p := ProfileOf(u, behaviors, features).value;
      && p.id == "user-profile-" + u
      && p.tags.Some? && |p.tags.value| <= PROFILE_TAGS
      && (forall k :: k in p.tags.value ==> k in SeenTags(behaviors[u], features))
      && p.knowledgePoints.Some? && |p.knowledgePoints.value| <= PROFILE_KNOWLEDGE_POINTS
  {
  }

  /** Counting into a Map never lists a key twice. */
  lemma {:induction false} CountDistinct(counts: Entries<real>, xs: seq<string>)
    requires DistinctKeys(counts)
    ensures DistinctKeys(Count(counts, xs))
  {
    if xs != [] {
      var c := Count(counts, xs[..|xs| - 1]);
      CountDistinct(counts, xs[..|xs| - 1]);
      PutDistinct(c, xs[|xs| - 1], GetOr(c, xs[|xs| - 1], 0.0) + 1.0);
    }
  }

  lemma {:induction false} TallyDistinct(bs: seq<UserBehavior>, features: map<string, Item>)
    ensures DistinctKeys(TallyOf(bs, features).tags) && DistinctKeys(TallyOf(bs, features).knowledgePoints)
  {
    if bs != [] {
      var t := TallyOf(bs[..|bs| - 1], features);
      TallyDistinct(bs[..|bs| - 1], features);
      var b := bs[|bs| - 1];
      if b.itemId in features {
        var item := features[b.itemId];
        if item.tags.Some? { CountDistinct(t.tags, item.tags.value); }
        if item.knowledgePoints.Some? { CountDistinct(t.knowledgePoints, item.knowledgePoints.value); }
      }
    }
  }

  /** The top keys of a Map's counts are distinct. */
  lemma TopKeysDistinct(c: Entries<real>, n: nat)
    requires DistinctKeys(c)
    ensures Distinct(TopKeys(c, n))
  {
    var ranked := SortDesc(c, Snd);
    DistinctKeysListed(c);
    KeysOfPermutation(c, ranked);
    var top := ranked[..Min(|ranked|, n)];
    assert forall i :: 0 <= i < |top| ==> KeysOf(top)[i] == KeysOf(ranked)[i];
  }

  /**
   * buildUserProfile takes its tags and knowledge points from the keys of its
   * counting Maps, so a profile never repeats one.
   */
  lemma ProfileHasNoRepeats(u: string, behaviors: map<string, seq<UserBehavior>>, features: map<string, Item>)
    requires ProfileOf(u, behaviors, features).Some?
    ensures var p := ProfileOf(u, behaviors, features).value;
      && p.tags.Some? && Distinct(p.tags.value)
      && p.knowledgePoints.Some? && Distinct(p.knowledgePoints.value)
  {
    var t := TallyOf(behaviors[u], features);
    TallyDistinct(behaviors[u], features);
    TopKeysDistinct(t.tags, PROFILE_TAGS);
    TopKeysDistinct(t.knowledgePoints, PROFILE_KNOWLEDGE_POINTS);
  }

  /** Content similarity against a user's profile lies in [0, 1] whenever it is a number. */
  lemma ProfileSimilarityInUnitRange(u: string, behaviors: map<string, seq<UserBehavior>>, features: map<string, Item>, item: Item)
    requires ProfileOf(u, behaviors, features).Some?
    requires ContentSimilarity(ProfileOf(u, behaviors, features).value, item).Some?
    ensures 0.0 <= ContentSimilarity(ProfileOf(u, behaviors, features).value, item).value <= 1.0
  {
    ProfileHasNoRepeats(u, behaviors, features);
    ContentSimilarityInUnitRange(ProfileOf(u, behaviors, features).value, item);
  }

  // ---------------------------------------------------------------------
  // Content similarity
  // ---------------------------------------------------------------------

  lemma {:induction false} DistinctCard(s: seq<string>)
    requires Distinct(s)
    ensures |set x | x in s| == |s|
  {
    if s != [] {
      var init := s[..|s| - 1];
      DistinctCard(init);
      assert (set x | x in s) == (set x | x in init) + {s[|s| - 1]} by {
        assert s == init + [s[|s| - 1]];
      }
    }
  }

  /** `a.filter(x => b.includes(x))` */
  function Shared(a: seq<string>, b: seq<string>): (r: seq<string>)
    ensures |r| <= |a|
    ensures forall x :: x in r <==> x in a && x in b
    ensures Distinct(a) ==> Distinct(r)
  {
    if a == [] then []
    else
      var init := a[..|a| - 1];
      var x := a[|a| - 1];
      assert a == init + [x];
      assert Distinct(a) ==> Distinct(init) && x !in init;
      Shared(init, b) + (if x in b then [x] else [])
  }

  lemma SubsetCard(small: set<string>, big: set<string>)
    requires small <= big
    ensures |small| <= |big|
  {
    assert big == small + (big - small);
    assert small * (big - small) == {};
  }

  lemma OverlapFacts(a: seq<string>, b: seq<string>)
    ensures |set x | x in a + b| == 0 <==> a == [] && b == []
    ensures Distinct(a) && a + b != [] ==> 0.0 <= |Shared(a, b)| as real / |set x | x in a + b| as real <= 1.0
  {
    var union := set x | x in a + b;
    if a != [] {
      assert a[0] in union;
    }
    if b != [] {
      assert (a + b)[|a|] == b[0];
      assert b[0] in union;
    }
    if Distinct(a) {
      var shared := Shared(a, b);
      DistinctCard(shared);
      SubsetCard((set x | x in shared), union);
      if a + b != [] {
        DivWithin(|shared| as real, |union| as real, 0.0, 1.0);
      }
    }
  }

  /**
   * |a ∩ b| / |a ∪ b| as `a.filter(x => b.includes(x)).length / new Set([...a, ...b]).size`;
   * None stands for the NaN of 0 / 0 when both lists are empty.
   */
  function Overlap(a: seq<string>, b: seq<string>): (r: Option<real>)
    ensures r.None? <==> a + b == []
    ensures Distinct(a) && r.Some? ==> 0.0 <= r.value <= 1.0
  {
    var union := set x | x in a + b;
    OverlapFacts(a, b);
    if a + b == [] then None
    else Some(|Shared(a, b)| as real / |union| as real)
  }

  /**
   * calculateContentSimilarity: weighted agreement in subject (0.3), tags
   * (0.3), knowledge points (0.3) and difficulty (0.1), over the weights of
   * the attributes both sides have; None stands for NaN.
   */
  function ContentSimilarity(profile: Item, item: Item): (r: Option<real>)
    ensures r.None? <==>
      || (profile.tags.Some? && item.tags.Some? && profile.tags.value == [] && item.tags.value == [])
      || (profile.knowledgePoints.Some? && item.knowledgePoints.Some?
          && profile.knowledgePoints.value == [] && item.knowledgePoints.value == [])
  {
    var subjects := TruthyText(profile.subject) && TruthyText(item.subject);
    var tagsOn := profile.tags.Some? && item.tags.Some?;
    var kpsOn := profile.knowledgePoints.Some? && item.knowledgePoints.Some?;
    var diffOn := Truthy(profile.difficulty) && Truthy(item.difficulty);
    var tagOverlap := if tagsOn then Overlap(profile.tags.value, item.tags.value) else Some(0.0);
    var kpOverlap := if kpsOn then Overlap(profile.knowledgePoints.value, item.knowledgePoints.value) else Some(0.0);
    if tagOverlap.None? || kpOverlap.None? then None
    else
      var weightSum := (if subjects then 0.3 else 0.0) + (if tagsOn then 0.3 else 0.0)
        + (if kpsOn then 0.3 else 0.0) + (if diffOn then 0.1 else 0.0);
      var similarity := (if subjects && profile.subject == item.subject then 0.3 else 0.0)
        + 0.3 * tagOverlap.value + 0.3 * kpOverlap.value
        + (if diffOn then 0.1 * MaxR(0.0, 1.0 - AbsR(profile.difficulty.value - item.difficulty.value) / 5.0) else 0.0);
      Some(if weightSum > 0.0 then similarity / weightSum else 0.0)
  }

  /**
   * Against a profile without repeated tags or knowledge points, content
   * similarity is a proportion.
   */
  lemma ContentSimilarityInUnitRange(profile: Item, item: Item)
    requires profile.tags.Some? ==> Distinct(profile.tags.value)
    requires profile.knowledgePoints.Some? ==> Distinct(profile.knowledgePoints.value)
    requires ContentSimilarity(profile, item).Some?
    ensures 0.0 <= ContentSimilarity(profile, item).value <= 1.0
  {
    var subjects := TruthyText(profile.subject) && TruthyText(item.subject);
    var tagsOn := profile.tags.Some? && item.tags.Some?;
    var kpsOn := profile.knowledgePoints.Some? && item.knowledgePoints.Some?;
    var diffOn := Truthy(profile.difficulty) && Truthy(item.difficulty);
    var tagOverlap := if tagsOn then Overlap(profile.tags.value, item.tags.value) else Some(0.0);
    var kpOverlap := if kpsOn then Overlap(profile.knowledgePoints.value, item.knowledgePoints.value) else Some(0.0);
    var weightSum := (if subjects then 0.3 else 0.0) + (if tagsOn then 0.3 else 0.0)
      + (if kpsOn then 0.3 else 0.0) + (if diffOn then 0.1 else 0.0);
    var similarity := (if subjects && profile.subject == item.subject then 0.3 else 0.0)
      + 0.3 * tagOverlap.value + 0.3 * kpOverlap.value
      + (if diffOn then 0.1 * MaxR(0.0, 1.0 - AbsR(profile.difficulty.value - item.difficulty.value) / 5.0) else 0.0);
    assert 0.0 <= 0.3 * tagOverlap.value <= (if tagsOn then 0.3 else 0.0);
    assert 0.0 <= 0.3 * kpOverlap.value <= (if kpsOn then 0.3 else 0.0);
    assert 0.0 <= similarity <= weightSum;
    if weightSum > 0.0 {
      DivWithin(similarity, weightSum, 0.0, 1.0);
    }
  }

  /** The candidates with a positive content similarity to the profile. */
  function ContentLoop(profile: Item, items: seq<Item>): (r: Entries<real>)
    ensures forall p :: p in r ==> p.1 > 0.0
  {
    if items == [] then []
    else
      var s := ContentLoop(profile, items[..|items| - 1]);
      var item := items[|items| - 1];
      match ContentSimilarity(profile, item)
      case Some(x) => if x > 0.0 then Put(s, item.id, x) else s
      case None => s
  }

  function ContentScores(u: string, items: seq<Item>, behaviors: map<string, seq<UserBehavior>>, features: map<string, Item>): Entries<real>
  {
    match ProfileOf(u, behaviors, features)
    case None => []
    case Some(profile) => ContentLoop(profile, items)
  }

  // ---------------------------------------------------------------------
  // Popularity
  // ---------------------------------------------------------------------

  /** log10(practiceCount + 1) × avgScore / 100, with 0 and 50 for missing numbers. */
  function RawPopularity(item: Item, log10: real -> real): real
  {
    var practiceCount := if Truthy(item.practiceCount) then item.practiceCount.value else 0.0;
    var avgScore := if Truthy(item.avgScore) then item.avgScore.value else 50.0;
    log10(practiceCount + 1.0) * (avgScore / 100.0)
  }

  function RawScores(items: seq<Item>, log10: real -> real): (r: Entries<real>)
  {
    if items == [] then []
    else
      var item := items[|items| - 1];
      Put(RawScores(items[..|items| - 1], log10), item.id, RawPopularity(item, log10))
  }

  /** `Math.max(...xs, floor)` */
  function MaxOf(xs: seq<real>, floor: real): (r: real)
    ensures r >= floor && forall i :: 0 <= i < |xs| ==> xs[i] <= r
    ensures r == floor || r in xs
  {
    if xs == [] then floor else MaxR(MaxOf(xs[..|xs| - 1], floor), xs[|xs| - 1])
  }

  function Normalise(e: Entries<real>, m: real): (r: Entries<real>)
    requires m > 0.0
    ensures |r| == |e| && forall i :: 0 <= i < |e| ==> r[i] == (e[i].0, e[i].1 / m)
  {
    seq(|e|, i requires 0 <= i < |e| => (e[i].0, e[i].1 / m))
  }

  /** Each candidate's popularity divided by the largest one, or by 1 if that is larger. */
  function PopularityOf(items: seq<Item>, log10: real -> real): Entries<real>
  {
    var raw := RawScores(items, log10);
    Normalise(raw, MaxOf(ValuesOf(raw), 1.0))
  }

  /** Items with non-negative counts and averages. */
  predicate NonNegativeStats(items: seq<Item>)
  {
    forall item :: item in items ==>
      (item.practiceCount.Some? ==> item.practiceCount.value >= 0.0)
      && (item.avgScore.Some? ==> item.avgScore.value >= 0.0)
  }

  lemma {:induction false} RawScoresNonNegative(items: seq<Item>, log10: real -> real)
    requires IsLog10(log10) && NonNegativeStats(items)
    ensures forall p :: p in RawScores(items, log10) ==> p.1 >= 0.0
  {
    if items != [] {
      var item := items[|items| - 1];
      assert item in items;
      assert NonNegativeStats(items[..|items| - 1]) by {
        assert forall x :: x in items[..|items| - 1] ==> x in items;
      }
      RawScoresNonNegative(items[..|items| - 1], log10);
      RawPopularityNonNegative(item, log10);
    }
  }

  lemma RawPopularityNonNegative(item: Item, log10: real -> real)
    requires IsLog10(log10)
    requires item.practiceCount.Some? ==> item.practiceCount.value >= 0.0
    requires item.avgScore.Some? ==> item.avgScore.value >= 0.0
    ensures RawPopularity(item, log10) >= 0.0
  {
    var practiceCount := if Truthy(item.practiceCount) then item.practiceCount.value else 0.0;
    var avgScore := if Truthy(item.avgScore) then item.avgScore.value else 50.0;
    Log10NonNegative(log10, practiceCount + 1.0);
    var x, y := log10(practiceCount + 1.0), avgScore / 100.0;
    assert x >= 0.0 && y >= 0.0;
    assert RawPopularity(item, log10) == x * y;
  }

  /** Normalised popularity never exceeds 1: the divisor is at least every raw score. */
  lemma PopularityAtMostOne(items: seq<Item>, log10: real -> real)
    ensures forall i :: 0 <= i < |PopularityOf(items, log10)| ==> PopularityOf(items, log10)[i].1 <= 1.0
  {
    var raw := RawScores(items, log10);
    var m := MaxOf(ValuesOf(raw), 1.0);
    forall i | 0 <= i < |raw| ensures raw[i].1 / m <= 1.0 {
      assert ValuesOf(raw)[i] == raw[i].1;
      DivAtMostOne(raw[i].1, m);
    }
  }

  /** For non-negative statistics normalised popularity is never negative. */
  lemma PopularityNonNegative(items: seq<Item>, log10: real -> real)
    requires IsLog10(log10) && NonNegativeStats(items)
    ensures forall i :: 0 <= i < |PopularityOf(items, log10)| ==> PopularityOf(items, log10)[i].1 >= 0.0
  {
    var raw := RawScores(items, log10);
    RawScoresNonNegative(items, log10);
    forall i | 0 <= i < |raw| ensures raw[i].1 >= 0.0 {
      assert raw[i] in raw;
    }
  }

  // ---------------------------------------------------------------------
  // Diversity and novelty
  // ---------------------------------------------------------------------

  /** How many times each tag occurs over all the items' tag lists. */
  function TagFrequency(items: seq<Item>): (r: Entries<real>)
    ensures forall p :: p in r ==> p.1 >= 1.0
  {
    if items == [] then []
    else
      var f := TagFrequency(items[..|items| - 1]);
      var item := items[|items| - 1];
      if item.tags.Some? then Count(f, item.tags.value) else f
  }

  /** Σ 1 / (tagFrequency.get(tag) || 1) over the tags. */
  function Uniqueness(tags: seq<string>, freq: Entries<real>): (r: real)
    ensures (forall p :: p in freq ==> p.1 >= 1.0) ==> 0.0 < r || tags == []
    ensures (forall p :: p in freq ==> p.1 >= 1.0) ==> r <= |tags| as real
  {
    if tags == [] then 0.0
    else
      var f := GetOr(freq, tags[|tags| - 1], 1.0);
      Uniqueness(tags[..|tags| - 1], freq) + 1.0 / f
  }

  /** 1 for an item without tags, else the mean rarity of its tags among the items. */
  function ItemDiversity(item: Item, freq: Entries<real>): real
  {
    if item.tags.Some? && |item.tags.value| > 0
    then 1.0 * (Uniqueness(item.tags.value, freq) / |item.tags.value| as real)
    else 1.0
  }

  function DiversityLoop(items: seq<Item>, all: seq<Item>): Entries<real>
  {
    if items == [] then []
    else
      var item := items[|items| - 1];
      Put(DiversityLoop(items[..|items| - 1], all), item.id, ItemDiversity(item, TagFrequency(all)))
  }

  function DiversityOf(items: seq<Item>): Entries<real>
  {
    DiversityLoop(items, items)
  }

  lemma {:induction false} DiversityLoopInRange(items: seq<Item>, all: seq<Item>)
    ensures forall p :: p in DiversityLoop(items, all) ==> 0.0 < p.1 <= 1.0
  {
    if items != [] {
      DiversityLoopInRange(items[..|items| - 1], all);
      var item := items[|items| - 1];
      if item.tags.Some? && |item.tags.value| > 0 {
        var n := |item.tags.value| as real;
        var u := Uniqueness(item.tags.value, TagFrequency(all));
        DivWithin(u, n, 0.0, 1.0);
        assert u / n > 0.0;
      }
    }
  }

  /** Diversity is 1 for an item without tags and otherwise a positive proportion. */
  lemma DiversityInRange(items: seq<Item>)
    ensures forall p :: p in DiversityOf(items) ==> 0.0 < p.1 <= 1.0
    ensures forall item :: item in items && (item.tags.None? || item.tags.value == []) ==>
      ItemDiversity(item, TagFrequency(items)) == 1.0
  {
    DiversityLoopInRange(items, items);
  }

  /** 1 for an item the user never touched, else max(0, 1 - rating / 10). */
  function ItemNovelty(own: Option<Entries<real>>, item: Item): (r: real)
    ensures r >= 0.0
    ensures own.None? || !HasKey(own.value, item.id) ==> r == 1.0
    ensures own.Some? && HasKey(own.value, item.id) ==>
      (r == 0.0 <==> Get(own.value, item.id).value >= 10.0)
    ensures own.Some? && HasKey(own.value, item.id) && Get(own.value, item.id).value >= 0.0 ==> r <= 1.0
  {
    if own.None? || !HasKey(own.value, item.id) then 1.0
    else MaxR(0.0, 1.0 - Get(own.value, item.id).value / 10.0)
  }

  function NoveltyOf(own: Option<Entries<real>>, items: seq<Item>): (r: Entries<real>)
    ensures forall p :: p in r ==> p.1 >= 0.0
  {
    if items == [] then []
    else
      var item := items[|items| - 1];
      Put(NoveltyOf(own, items[..|items| - 1]), item.id, ItemNovelty(own, item))
  }

  // ---------------------------------------------------------------------
  // Blending and ranking
  // ---------------------------------------------------------------------

  const SIMILAR_STUDENTS := "与你兴趣相似的学生也在学习"
  const FITS_PREFERENCES := "符合你的学习偏好和知识体系"
  const POPULAR := "热门内容，广受好评"
  const CURATED := "为你精心挑选的学习内容"

  /** One line for each signal above 0.5, or the default line when there is none. */
  function Explanation(cf: real, content: real, pop: real): seq<string>
  {
    var lines := (if cf > 0.5 then [SIMILAR_STUDENTS] else [])
      + (if content > 0.5 then [FITS_PREFERENCES] else [])
      + (if pop > 0.5 then [POPULAR] else []);
    if lines == [] then [CURATED] else lines
  }

  /**
   * The explanation names exactly the signals above 0.5, and falls back to
   * the default line only when there is none.
   */
  lemma ExplanationLines(cf: real, content: real, pop: real)
    ensures SIMILAR_STUDENTS in Explanation(cf, content, pop) <==> cf > 0.5
    ensures FITS_PREFERENCES in Explanation(cf, content, pop) <==> content > 0.5
    ensures POPULAR in Explanation(cf, content, pop) <==> pop > 0.5
    ensures CURATED in Explanation(cf, content, pop) <==> cf <= 0.5 && content <= 0.5 && pop <= 0.5
    ensures 1 <= |Explanation(cf, content, pop)| <= 3
  {
    assert SIMILAR_STUDENTS[0] != FITS_PREFERENCES[0] && SIMILAR_STUDENTS[0] != POPULAR[0];
    assert SIMILAR_STUDENTS[0] != CURATED[0] && FITS_PREFERENCES[0] != POPULAR[0];
    assert FITS_PREFERENCES[0] != CURATED[0] && POPULAR[0] != CURATED[0];
  }

  function Blend(id: string, cf: Entries<real>, content: Entries<real>, pop: Entries<real>): real
  {
    GetOr(cf, id, 0.0) * CF_WEIGHT + GetOr(content, id, 0.0) * CONTENT_WEIGHT + GetOr(pop, id, 0.0) * POPULARITY_WEIGHT
  }

  /**
   * The weights add up to one, so scores in the unit interval blend into it;
   * a candidate no strategy scored blends to 0.
   */
  lemma BlendWithin(id: string, cf: Entries<real>, content: Entries<real>, pop: Entries<real>)
    requires forall p :: p in cf ==> 0.0 <= p.1 <= 1.0
    requires forall p :: p in content ==> 0.0 <= p.1 <= 1.0
    requires forall p :: p in pop ==> 0.0 <= p.1 <= 1.0
    ensures 0.0 <= Blend(id, cf, content, pop) <= 1.0
    ensures Get(cf, id).None? && Get(content, id).None? && Get(pop, id).None? ==> Blend(id, cf, content, pop) == 0.0
  {
    var c, t, q := GetOr(cf, id, 0.0), GetOr(content, id, 0.0), GetOr(pop, id, 0.0);
    assert 0.0 <= c <= 1.0 && 0.0 <= t <= 1.0 && 0.0 <= q <= 1.0;
  }

  /** A higher score from any strategy never lowers the blend. */
  lemma BlendMonotone(id: string, cf: Entries<real>, content: Entries<real>, pop: Entries<real>,
                      cf': Entries<real>, content': Entries<real>, pop': Entries<real>)
    requires GetOr(cf, id, 0.0) <= GetOr(cf', id, 0.0)
    requires GetOr(content, id, 0.0) <= GetOr(content', id, 0.0)
    requires GetOr(pop, id, 0.0) <= GetOr(pop', id, 0.0)
    ensures Blend(id, cf, content, pop) <= Blend(id, cf', content', pop')
  {
  }

  function FinalScores(items: seq<Item>, cf: Entries<real>, content: Entries<real>, pop: Entries<real>): Entries<real>
  {
    if items == [] then []
    else
      var id := items[|items| - 1].id;
      Put(FinalScores(items[..|items| - 1], cf, content, pop), id, Blend(id, cf, content, pop))
  }

  function Explanations(items: seq<Item>, cf: Entries<real>, content: Entries<real>, pop: Entries<real>): Entries<seq<string>>
  {
    if items == [] then []
    else
      var id := items[|items| - 1].id;
      Put(Explanations(items[..|items| - 1], cf, content, pop), id,
          Explanation(GetOr(cf, id, 0.0), GetOr(content, id, 0.0), GetOr(pop, id, 0.0)))
  }

  /** generateReason */
  function Reason(score: real): (r: string)
    ensures r == "强烈推荐" <==> score > 0.8
    ensures r == "推荐" <==> 0.6 < score <= 0.8
    ensures r == "建议尝试" <==> 0.4 < score <= 0.6
    ensures r == "可以了解" <==> score <= 0.4
  {
    if score > 0.8 then "强烈推荐"
    else if score > 0.6 then "推荐"
    else if score > 0.4 then "建议尝试"
    else "可以了解"
  }

  /** calculateConfidence: a percentage when its three inputs are proportions. */
  function Confidence(baseScore: real, diversity: real, novelty: real): (r: real)
    ensures 0.0 <= baseScore <= 1.0 && 0.0 <= diversity <= 1.0 && 0.0 <= novelty <= 1.0 ==> 0.0 <= r <= 100.0
    ensures baseScore >= 0.0 && diversity >= 0.0 && novelty >= 0.0 ==> r >= 0.0
  {
    (baseScore * 0.6 + diversity * 0.2 + novelty * 0.2) * 100.0
  }

  function ResultFor(item: Item, final: Entries<real>, diversity: Entries<real>, novelty: Entries<real>,
                     explanations: Entries<seq<string>>, diversityWeight: real): RecommendationResult
  {
    var baseScore := GetOr(final, item.id, 0.0);
    var d := GetOr(diversity, item.id, 0.0);
    var n := GetOr(novelty, item.id, 0.0);
    RecommendationResult(
      item, baseScore * (1.0 - diversityWeight) + d * diversityWeight, Reason(baseScore),
      Confidence(baseScore, d, n), d, n,
      match Get(explanations, item.id) case Some(e) => e case None => [])
  }

  /** One result per candidate, in candidate order. */
  function Results(items: seq<Item>, cf: Entries<real>, content: Entries<real>, pop: Entries<real>,
                   diversity: Entries<real>, novelty: Entries<real>, diversityWeight: real): (r: seq<RecommendationResult>)
    ensures |r| == |items| && forall i :: 0 <= i < |items| ==> r[i].item == items[i]
  {
    var final := FinalScores(items, cf, content, pop);
    var explanations := Explanations(items, cf, content, pop);
    seq(|items|, i requires 0 <= i < |items| => ResultFor(items[i], final, diversity, novelty, explanations, diversityWeight))
  }

  function ScoreOf(r: RecommendationResult): real
  {
    r.score
  }

  /** `results.sort((a, b) => b.score - a.score).slice(0, topN)` */
  function TopResults(results: seq<RecommendationResult>, topN: int): seq<RecommendationResult>
  {
    var ranked := SortDesc(results, ScoreOf);
    ranked[..SliceEnd(|ranked|, topN)]
  }

  /** The top-N list holds at most N of the results, highest score first. */
  lemma TopResultsShape(results: seq<RecommendationResult>, topN: int)
    ensures 0 <= topN ==> |TopResults(results, topN)| <= topN
    ensures |TopResults(results, topN)| <= |results|
    ensures SortedDesc(TopResults(results, topN), ScoreOf)
    ensures forall r :: r in TopResults(results, topN) ==> r in results
  {
    var ranked := SortDesc(results, ScoreOf);
    SortDescSorted(results, ScoreOf);
    forall r | r in TopResults(results, topN) ensures r in results {
      assert r in multiset(ranked);
    }
  }

  // ---------------------------------------------------------------------
  // State changes, as functions of the old state
  // ---------------------------------------------------------------------

  /** The matrix's users after a behaviour: a new user joins at the end. */
  function Enrol(users: seq<string>, u: string): seq<string>
  {
    if u in users then users else users + [u]
  }

  function EnrolAll(users: seq<string>, bs: seq<UserBehavior>): seq<string>
  {
    if bs == [] then users else Enrol(EnrolAll(users, bs[..|bs| - 1]), bs[|bs| - 1].userId)
  }

  function BehaviorsOf(m: map<string, seq<UserBehavior>>, u: string): seq<UserBehavior>
  {
    if u in m then m[u] else []
  }

  /** The behaviour log after a behaviour: it is appended to its user's list. */
  function Log(m: map<string, seq<UserBehavior>>, b: UserBehavior): map<string, seq<UserBehavior>>
  {
    m[b.userId := BehaviorsOf(m, b.userId) + [b]]
  }

  function LogAll(m: map<string, seq<UserBehavior>>, bs: seq<UserBehavior>): map<string, seq<UserBehavior>>
  {
    if bs == [] then m else Log(LogAll(m, bs[..|bs| - 1]), bs[|bs| - 1])
  }

  /** The behaviours of user `u`, in order. */
  function OfUser(bs: seq<UserBehavior>, u: string): seq<UserBehavior>
  {
    if bs == [] then []
    else OfUser(bs[..|bs| - 1], u) + (if bs[|bs| - 1].userId == u then [bs[|bs| - 1]] else [])
  }

  /** A batch appends to each user's list exactly that user's behaviours, in order. */
  lemma {:induction false} LogAllAppends(m: map<string, seq<UserBehavior>>, bs: seq<UserBehavior>, u: string)
    ensures BehaviorsOf(LogAll(m, bs), u) == BehaviorsOf(m, u) + OfUser(bs, u)
  {
    if bs != [] {
      LogAllAppends(m, bs[..|bs| - 1], u);
    }
  }

  /** The catalogue entries a batch of items sets: the last item with each id wins. */
  function ItemsById(items: seq<Item>): (r: map<string, Item>)
    ensures forall id :: id in r <==> id in IdsOf(items)
  {
    if items == [] then map[]
    else
      var item := items[|items| - 1];
      assert forall id :: id in IdsOf(items) <==> id in IdsOf(items[..|items| - 1]) || id == item.id by {
        assert IdsOf(items) == IdsOf(items[..|items| - 1]) + [item.id];
      }
      ItemsById(items[..|items| - 1])[item.id := item]
  }

  lemma ItemsByIdStep(m: map<string, Item>, items: seq<Item>, i: int)
    requires 0 <= i < |items|
    ensures m + ItemsById(items[..i + 1]) == (m + ItemsById(items[..i]))[items[i].id := items[i]]
  {
    assert items[..i + 1][..i] == items[..i];
  }

  /** The user's row, if the matrix has one. */
  function OwnRatings(m: map<string, Entries<real>>, u: string): Option<Entries<real>>
  {
    if u in m then Some(m[u]) else None
  }

  // ---------------------------------------------------------------------
  // Loops over values
  // ---------------------------------------------------------------------

  /** The loop of cosineSimilarity: the dot product and both squared norms over `keys`. */
  method DotAndNorms(keys: seq<string>, v1: Entries<real>, v2: Entries<real>)
    returns (dotProduct: real, norm1: real, norm2: real)
    ensures dotProduct == Dot(keys, v1, v2)
    ensures norm1 == Norm(keys, v1) && norm2 == Norm(keys, v2)
  {
    dotProduct, norm1, norm2 := 0.0, 0.0, 0.0;
    for i := 0 to |keys|
      invariant dotProduct == Dot(keys[..i], v1, v2)
      invariant norm1 == Norm(keys[..i], v1) && norm2 == Norm(keys[..i], v2)
    {
      assert keys[..i + 1][..i] == keys[..i];
      var a := GetOr(v1, keys[i], 0.0);
      var b := GetOr(v2, keys[i], 0.0);
      assert Dot(keys[..i + 1], v1, v2) == dotProduct + a * b;
      dotProduct := dotProduct + a * b;
      norm1 := norm1 + a * a;
      norm2 := norm2 + b * b;
    }
    assert keys[..|keys|] == keys;
  }

  method CosineSimilarity(v1: Entries<real>, v2: Entries<real>, sqrt: real -> real) returns (r: real)
    requires IsSqrt(sqrt)
    ensures r == Cosine(v1, v2, sqrt)
  {
    var dotProduct, norm1, norm2 := DotAndNorms(AllKeys(v1, v2), v1, v2);
    if norm1 == 0.0 || norm2 == 0.0 {
      return 0.0;
    }
    SqrtPositive(sqrt, norm1);
    SqrtPositive(sqrt, norm2);
    r := dotProduct / (sqrt(norm1) * sqrt(norm2));
  }

  /** The `forEach` that counts each of `xs` into `counts`. */
  method CountInto(counts: Entries<real>, xs: seq<string>) returns (r: Entries<real>)
    ensures r == Count(counts, xs)
  {
    r := counts;
    for i := 0 to |xs|
      invariant r == Count(counts, xs[..i])
    {
      assert xs[..i + 1][..i] == xs[..i];
      r := Put(r, xs[i], GetOr(r, xs[i], 0.0) + 1.0);
    }
    assert xs[..|xs|] == xs;
  }

  /** getTopItem: starts from minus infinity (None) and keeps the first strictly greater value. */
  method GetTopItem(counts: Entries<real>) returns (maxKey: Option<string>)
    ensures maxKey == TopKey(counts)
  {
    maxKey := None;
    var maxValue: Option<real> := None;
    for i := 0 to |counts|
      invariant i == 0 ==> maxKey.None? && maxValue.None?
      invariant i > 0 ==> maxKey == Some(counts[TopIndex(counts[..i])].0)
      invariant i > 0 ==> maxValue == Some(counts[TopIndex(counts[..i])].1)
    {
      assert counts[..i + 1][..i] == counts[..i];
      var (key, value) := counts[i];
      if maxValue.None? || value > maxValue.value {
        maxValue := Some(value);
        maxKey := Some(key);
      }
    }
    assert counts[..|counts|] == counts;
  }

  method PopularityBasedFiltering(items: seq<Item>, log10: real -> real) returns (scores: Entries<real>)
    ensures scores == PopularityOf(items, log10)
    ensures forall i :: 0 <= i < |scores| ==> scores[i].1 <= 1.0
  {
    scores := [];
    for i := 0 to |items|
      invariant scores == RawScores(items[..i], log10)
    {
      assert items[..i + 1][..i] == items[..i];
      var item := items[i];
      var practiceCount := if Truthy(item.practiceCount) then item.practiceCount.value else 0.0;
      var avgScore := if Truthy(item.avgScore) then item.avgScore.value else 50.0;
      var popularity := log10(practiceCount + 1.0) * (avgScore / 100.0);
      assert popularity == RawPopularity(item, log10);
      scores := Put(scores, item.id, popularity);
    }
    assert items[..|items|] == items;
    var maxScore := MaxOf(ValuesOf(scores), 1.0);
    ghost var raw := scores;
    for i := 0 to |scores|
      invariant |scores| == |raw|
      invariant forall j :: 0 <= j < |raw| ==> scores[j] == if j < i then (raw[j].0, raw[j].1 / maxScore) else raw[j]
    {
      scores := scores[i := (scores[i].0, scores[i].1 / maxScore)];
    }
    assert scores == Normalise(raw, maxScore);
    PopularityAtMostOne(items, log10);
  }

  method TagFrequencyOf(items: seq<Item>) returns (tagFrequency: Entries<real>)
    ensures tagFrequency == TagFrequency(items)
  {
    tagFrequency := [];
    for i := 0 to |items|
      invariant tagFrequency == TagFrequency(items[..i])
    {
      assert items[..i + 1][..i] == items[..i];
      if items[i].tags.Some? {
        tagFrequency := CountInto(tagFrequency, items[i].tags.value);
      }
    }
    assert items[..|items|] == items;
  }

  method CalculateDiversity(items: seq<Item>) returns (diversityScores: Entries<real>)
    ensures diversityScores == DiversityOf(items)
    ensures forall p :: p in diversityScores ==> 0.0 < p.1 <= 1.0
  {
    diversityScores := [];
    for i := 0 to |items|
      invariant diversityScores == DiversityLoop(items[..i], items)
    {
      assert items[..i + 1][..i] == items[..i];
      var item := items[i];
      var diversity := 1.0;
      if item.tags.Some? && |item.tags.value| > 0 {
        var tagFrequency := TagFrequencyOf(items);
        var uniqueness := Uniqueness(item.tags.value, tagFrequency) / |item.tags.value| as real;
        diversity := diversity * uniqueness;
      }
      diversityScores := Put(diversityScores, item.id, diversity);
    }
    assert items[..|items|] == items;
    DiversityInRange(items);
  }

  /** The weighted sum and the similarity sum over the neighbours that rated `item`. */
  method NeighbourSums(similarities: Entries<real>, matrix: map<string, Entries<real>>, item: string)
    returns (weightedSum: real, similaritySum: real)
    ensures weightedSum == WeightedSum(similarities, matrix, item)
    ensures similaritySum == SimilaritySum(similarities, matrix, item)
  {
    weightedSum, similaritySum := 0.0, 0.0;
    for j := 0 to |similarities|
      invariant weightedSum == WeightedSum(similarities[..j], matrix, item)
      invariant similaritySum == SimilaritySum(similarities[..j], matrix, item)
    {
      SumsStep(similarities, j, matrix, item);
      var (otherUserId, similarity) := similarities[j];
      if otherUserId in matrix && HasKey(matrix[otherUserId], item) {
        weightedSum := weightedSum + similarity * Get(matrix[otherUserId], item).value;
        similaritySum := similaritySum + similarity;
      }
    }
    assert similarities[..|similarities|] == similarities;
  }

  /** The explanation lines, pushed one by one. */
  method ExplanationFor(cfScore: real, contentScore: real, popScore: real) returns (lines: seq<string>)
    ensures lines == Explanation(cfScore, contentScore, popScore)
  {
    var a: seq<string> := if cfScore > 0.5 then [SIMILAR_STUDENTS] else [];
    var b: seq<string> := if contentScore > 0.5 then [FITS_PREFERENCES] else [];
    var c: seq<string> := if popScore > 0.5 then [POPULAR] else [];
    lines := [];
    if cfScore > 0.5 {
      lines := lines + [SIMILAR_STUDENTS];
    }
    assert lines == a;
    if contentScore > 0.5 {
      lines := lines + [FITS_PREFERENCES];
    }
    assert lines == a + b;
    if popScore > 0.5 {
      lines := lines + [POPULAR];
    }
    assert lines == a + b + c;
    if |lines| == 0 {
      lines := lines + [CURATED];
    }
  }

  /** The blended score and the explanation lines of each candidate. */
  method BlendScores(candidateItems: seq<Item>, cfScores: Entries<real>, contentScores: Entries<real>, popularityScores: Entries<real>)
    returns (finalScores: Entries<real>, explanations: Entries<seq<string>>)
    ensures finalScores == FinalScores(candidateItems, cfScores, contentScores, popularityScores)
    ensures explanations == Explanations(candidateItems, cfScores, contentScores, popularityScores)
  {
    finalScores, explanations := [], [];
    for i := 0 to |candidateItems|
      invariant finalScores == FinalScores(candidateItems[..i], cfScores, contentScores, popularityScores)
      invariant explanations == Explanations(candidateItems[..i], cfScores, contentScores, popularityScores)
    {
      assert candidateItems[..i + 1][..i] == candidateItems[..i];
      var item := candidateItems[i];
      var cfScore := GetOr(cfScores, item.id, 0.0);
      var contentScore := GetOr(contentScores, item.id, 0.0);
      var popScore := GetOr(popularityScores, item.id, 0.0);
      var finalScore := cfScore * CF_WEIGHT + contentScore * CONTENT_WEIGHT + popScore * POPULARITY_WEIGHT;
      assert finalScore == Blend(item.id, cfScores, contentScores, popularityScores);
      finalScores := Put(finalScores, item.id, finalScore);
      var lines := ExplanationFor(cfScore, contentScore, popScore);
      explanations := Put(explanations, item.id, lines);
    }
    assert candidateItems[..|candidateItems|] == candidateItems;
  }

  // ---------------------------------------------------------------------
  // The engine
  // ---------------------------------------------------------------------

  class SmartRecommendationEngine {
    var userBehaviors: map<string, seq<UserBehavior>>
    var itemFeatures: map<string, Item>
    /** The users of userItemMatrix, in the order the Map iterates them. */
    var users: seq<string>
    var userItemMatrix: map<string, Entries<real>>

    /** `users` lists the matrix's users, each once. */
    ghost predicate Valid()
      reads this
    {
      && Distinct(users)
      && Rows(users, userItemMatrix)
      && forall u :: u in userItemMatrix ==> u in users
    }

    constructor()
      ensures Valid()
      ensures userBehaviors == map[] && itemFeatures == map[]
      ensures users == [] && userItemMatrix == map[]
    {
      userBehaviors := map[];
      itemFeatures := map[];
      users := [];
      userItemMatrix := map[];
    }

    method AddBehavior(behavior: UserBehavior, now: int, exp: real -> real)
      requires Valid()
      modifies this`userBehaviors, this`users, this`userItemMatrix
      ensures Valid()
      ensures userBehaviors == Log(old(userBehaviors), behavior)
      ensures users == Enrol(old(users), behavior.userId)
      ensures userItemMatrix == Record(old(userItemMatrix), behavior, now, exp)
    {
      var userId := behavior.userId;
      if userId !in userBehaviors {
        userBehaviors := userBehaviors[userId := []];
      }
      userBehaviors := userBehaviors[userId := userBehaviors[userId] + [behavior]];
      UpdateUserItemMatrix(behavior, now, exp);
    }

    method AddBehaviors(behaviors: seq<UserBehavior>, now: int, exp: real -> real)
      requires Valid()
      modifies this`userBehaviors, this`users, this`userItemMatrix
      ensures Valid()
      ensures userBehaviors == LogAll(old(userBehaviors), behaviors)
      ensures users == EnrolAll(old(users), behaviors)
      ensures userItemMatrix == RecordAll(old(userItemMatrix), behaviors, now, exp)
    {
      for i := 0 to |behaviors|
        invariant Valid()
        invariant userBehaviors == LogAll(old(userBehaviors), behaviors[..i])
        invariant users == EnrolAll(old(users), behaviors[..i])
        invariant userItemMatrix == RecordAll(old(userItemMatrix), behaviors[..i], now, exp)
      {
        assert behaviors[..i + 1][..i] == behaviors[..i];
        AddBehavior(behaviors[i], now, exp);
      }
      assert behaviors[..|behaviors|] == behaviors;
    }

    method AddItem(item: Item)
      modifies this`itemFeatures
      ensures itemFeatures == old(itemFeatures)[item.id := item]
    {
      itemFeatures := itemFeatures[item.id := item];
    }

    method AddItems(items: seq<Item>)
      modifies this`itemFeatures
      ensures itemFeatures == old(itemFeatures) + ItemsById(items)
    {
      for i := 0 to |items|
        invariant itemFeatures == old(itemFeatures) + ItemsById(items[..i])
      {
        ItemsByIdStep(old(itemFeatures), items, i);
        AddItem(items[i]);
      }
      assert items[..|items|] == items;
    }

    /** The behaviour's implicit rating, added to what the user-item pair already has. */
    method UpdateUserItemMatrix(behavior: UserBehavior, now: int, exp: real -> real)
      requires Valid()
      modifies this`users, this`userItemMatrix
      ensures Valid()
      ensures users == Enrol(old(users), behavior.userId)
      ensures userItemMatrix == Record(old(userItemMatrix), behavior, now, exp)
    {
      var userId, itemId := behavior.userId, behavior.itemId;
      if userId !in userItemMatrix {
        userItemMatrix := userItemMatrix[userId := []];
        users := users + [userId];
      }
      var userMatrix := userItemMatrix[userId];
      var rating := BaseRating(behavior.behaviorType);
      if Truthy(behavior.duration) {
        rating := rating + MinR(behavior.duration.value / 300.0, 1.0);
      }
      if behavior.score.Some? {
        rating := rating + behavior.score.value / 100.0 * 2.0;
      }
      assert rating == RawRating(behavior);
      var daysSince := (now - behavior.timestamp) as real / DAY_MS;
      var timeDecay := exp(-daysSince / 30.0);
      rating := rating * (0.5 + 0.5 * timeDecay);
      assert rating == Rating(behavior, now, exp);
      var currentRating := GetOr(userMatrix, itemId, 0.0);
      userItemMatrix := userItemMatrix[userId := Put(userMatrix, itemId, currentRating + rating)];
    }

    method CalculateUserSimilarities(userId: string, sqrt: real -> real) returns (similarities: Entries<real>)
      requires Valid() && IsSqrt(sqrt)
      ensures similarities == SimilaritiesOf(userId, users, userItemMatrix, sqrt)
      ensures |similarities| <= MAX_SIMILAR_USERS && SortedDesc(similarities, Snd)
      ensures forall p :: p in similarities ==> p.0 != userId && p.1 > MIN_SIMILARITY
    {
      SimilaritiesShape(userId, users, userItemMatrix, sqrt);
      if userId !in userItemMatrix {
        return [];
      }
      var userMatrix := userItemMatrix[userId];
      var candidates: Entries<real> := [];
      for i := 0 to |users|
        invariant candidates == SimilarCandidates(users[..i], userItemMatrix, userId, sqrt)
      {
        assert users[..i + 1][..i] == users[..i];
        var otherUserId := users[i];
        if otherUserId == userId {
          continue;
        }
        var similarity := CosineSimilarity(userMatrix, userItemMatrix[otherUserId], sqrt);
        if similarity > MIN_SIMILARITY {
          candidates := Put(candidates, otherUserId, similarity);
        }
      }
      assert users[..|users|] == users;
      var ranked := SortDesc(candidates, Snd);
      similarities := ranked[..Min(|ranked|, MAX_SIMILAR_USERS)];
    }

    method CollaborativeFiltering(userId: string, candidateItems: seq<Item>, sqrt: real -> real) returns (scores: Entries<real>)
      requires Valid() && IsSqrt(sqrt)
      ensures scores == CfScores(userId, candidateItems, users, userItemMatrix, sqrt)
      ensures userId !in userItemMatrix ==> scores == []
      ensures forall k :: HasKey(scores, k) ==> !HasKey(VectorOf(userItemMatrix, userId), k) && k in IdsOf(candidateItems)
    {
      scores := [];
      if userId !in userItemMatrix || userItemMatrix[userId] == [] {
        return;
      }
      var userMatrix := userItemMatrix[userId];
      var similarities := CalculateUserSimilarities(userId, sqrt);
      for i := 0 to |candidateItems|
        invariant scores == CfLoop(candidateItems[..i], userMatrix, similarities, userItemMatrix)
      {
        assert candidateItems[..i + 1][..i] == candidateItems[..i];
        var item := candidateItems[i];
        if HasKey(userMatrix, item.id) {
          continue;
        }
        var weightedSum, similaritySum := NeighbourSums(similarities, userItemMatrix, item.id);
        if similaritySum > 0.0 {
          scores := Put(scores, item.id, weightedSum / similaritySum);
        }
      }
      assert candidateItems[..|candidateItems|] == candidateItems;
    }

    method BuildUserProfile(userId: string) returns (profile: Option<Item>)
      ensures profile == ProfileOf(userId, userBehaviors, itemFeatures)
    {
      if userId !in userBehaviors || userBehaviors[userId] == [] {
        return None;
      }
      var behaviors := userBehaviors[userId];
      var subjectCount, tagCount, kpCount: Entries<real> := [], [], [];
      var totalDifficulty: real, difficultyCount: nat := 0.0, 0;
      for i := 0 to |behaviors|
        invariant Tally(subjectCount, tagCount, kpCount, totalDifficulty, difficultyCount)
               == TallyOf(behaviors[..i], itemFeatures)
      {
        assert behaviors[..i + 1][..i] == behaviors[..i];
        if behaviors[i].itemId !in itemFeatures {
          continue;
        }
        var item := itemFeatures[behaviors[i].itemId];
        ghost var before := Tally(subjectCount, tagCount, kpCount, totalDifficulty, difficultyCount);
        assert TallyOf(behaviors[..i + 1], itemFeatures) == TallyItem(before, item);
        if TruthyText(item.subject) {
          subjectCount := CountInto(subjectCount, [item.subject.value]);
        }
        if item.tags.Some? {
          tagCount := CountInto(tagCount, item.tags.value);
        }
        if item.knowledgePoints.Some? {
          kpCount := CountInto(kpCount, item.knowledgePoints.value);
        }
        if Truthy(item.difficulty) {
          totalDifficulty := totalDifficulty + item.difficulty.value;
          difficultyCount := difficultyCount + 1;
        }
        assert Tally(subjectCount, tagCount, kpCount, totalDifficulty, difficultyCount) == TallyItem(before, item);
      }
      assert behaviors[..|behaviors|] == behaviors;
      var subject := GetTopItem(subjectCount);
      profile := Some(Item(
        "user-profile-" + userId, KnowledgePoint, "User Profile",
        if difficultyCount > 0 then Some(totalDifficulty / difficultyCount as real) else None,
        subject,
        Some(TopKeys(tagCount, PROFILE_TAGS)),
        Some(TopKeys(kpCount, PROFILE_KNOWLEDGE_POINTS)),
        None, None));
    }

    method ContentBasedFiltering(userId: string, candidateItems: seq<Item>) returns (scores: Entries<real>)
      ensures scores == ContentScores(userId, candidateItems, userBehaviors, itemFeatures)
      ensures forall p :: p in scores ==> p.1 > 0.0
    {
      scores := [];
      var userProfile := BuildUserProfile(userId);
      if userProfile.None? {
        return;
      }
      for i := 0 to |candidateItems|
        invariant scores == ContentLoop(userProfile.value, candidateItems[..i])
      {
        assert candidateItems[..i + 1][..i] == candidateItems[..i];
        var item := candidateItems[i];
        var similarity := ContentSimilarity(userProfile.value, item);
        if similarity.Some? && similarity.value > 0.0 {
          scores := Put(scores, item.id, similarity.value);
        }
      }
      assert candidateItems[..|candidateItems|] == candidateItems;
    }

    method CalculateNovelty(userId: string, items: seq<Item>) returns (noveltyScores: Entries<real>)
      ensures noveltyScores == NoveltyOf(OwnRatings(userItemMatrix, userId), items)
    {
      noveltyScores := [];
      var userMatrix := OwnRatings(userItemMatrix, userId);
      for i := 0 to |items|
        invariant noveltyScores == NoveltyOf(userMatrix, items[..i])
      {
        assert items[..i + 1][..i] == items[..i];
        var item := items[i];
        if userMatrix.None? || !HasKey(userMatrix.value, item.id) {
          noveltyScores := Put(noveltyScores, item.id, 1.0);
        } else {
          var interactionLevel := Get(userMatrix.value, item.id).value;
          noveltyScores := Put(noveltyScores, item.id, MaxR(0.0, 1.0 - interactionLevel / 10.0));
        }
      }
      assert items[..|items|] == items;
    }

    /**
     * The hybrid ranking: at most topN of the candidates, highest blended
     * and diversity-adjusted score first.
     */
    method Recommend(userId: string, candidateItems: seq<Item>, topN: int, diversityWeight: real,
                     sqrt: real -> real, log10: real -> real) returns (results: seq<RecommendationResult>)
      requires Valid() && IsSqrt(sqrt)
      ensures results == TopResults(
        Results(candidateItems,
                CfScores(userId, candidateItems, users, userItemMatrix, sqrt),
                ContentScores(userId, candidateItems, userBehaviors, itemFeatures),
                PopularityOf(candidateItems, log10),
                DiversityOf(candidateItems),
                NoveltyOf(OwnRatings(userItemMatrix, userId), candidateItems),
                diversityWeight),
        topN)
      ensures 0 <= topN ==> |results| <= topN
      ensures |results| <= |candidateItems|
      ensures SortedDesc(results, ScoreOf)
      ensures forall r :: r in results ==> r.item in candidateItems
    {
      var cfScores := CollaborativeFiltering(userId, candidateItems, sqrt);
      var contentScores := ContentBasedFiltering(userId, candidateItems);
      var popularityScores := PopularityBasedFiltering(candidateItems, log10);
      var finalScores, explanations := BlendScores(candidateItems, cfScores, contentScores, popularityScores);
      var diversityScores := CalculateDiversity(candidateItems);
      var noveltyScores := CalculateNovelty(userId, candidateItems);
      var all := seq(|candidateItems|, i requires 0 <= i < |candidateItems| =>
        ResultFor(candidateItems[i], finalScores, diversityScores, noveltyScores, explanations, diversityWeight));
      assert all == Results(candidateItems, cfScores, contentScores, popularityScores,
                            diversityScores, noveltyScores, diversityWeight);
      results := TopResults(all, topN);
      TopResultsShape(all, topN);
      forall r | r in results ensures r.item in candidateItems {
        var k :| 0 <= k < |all| && all[k] == r;
      }
    }

    method Clear()
      modifies this
      ensures Valid()
      ensures userBehaviors == map[] && itemFeatures == map[]
      ensures users == [] && userItemMatrix == map[]
    {
      userBehaviors := map[];
      itemFeatures := map[];
      users := [];
      userItemMatrix := map[];
    }
  }
}

