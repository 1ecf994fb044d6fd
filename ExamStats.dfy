/**
 * Exam result statistics: the score summary of a list of results (count,
 * average, extremes, pass and excellent counts and rates, five score bands),
 * and the per-knowledge-point score analysis of one exam result.
 */
module ExamStats {
  import opened Common

  const PassScore := 60
  const ExcellentScore := 90

  // ---------------------------------------------------------------------------
  // Score summary
  // ---------------------------------------------------------------------------

  function Sum(scores: seq<int>): int
  {
    if scores == [] then 0 else Sum(scores[..|scores| - 1]) + scores[|scores| - 1]
  }

  /** The number of scores in [lo, hi). */
  function CountIn(scores: seq<int>, lo: int, hi: int): (n: nat)
    ensures n <= |scores|
  {
    if scores == [] then 0
    else CountIn(scores[..|scores| - 1], lo, hi) + (if lo <= scores[|scores| - 1] < hi then 1 else 0)
  }

  function MaxOf(scores: seq<int>): (m: int)
    requires scores != []
    ensures forall k :: 0 <= k < |scores| ==> scores[k] <= m
    ensures m in scores
  {
    if |scores| == 1 then scores[0] else Max(MaxOf(scores[..|scores| - 1]), scores[|scores| - 1])
  }

  function MinOf(scores: seq<int>): (m: int)
    requires scores != []
    ensures forall k :: 0 <= k < |scores| ==> m <= scores[k]
    ensures m in scores
  {
    if |scores| == 1 then scores[0] else Min(MinOf(scores[..|scores| - 1]), scores[|scores| - 1])
  }

  /** Math.round(x * 100.0) / 100.0 on an exact real. */
  function Round2(x: real): real
  {
    Round(x * 100.0) as real / 100.0
  }

  datatype ScoreStats = ScoreStats(
    totalCount: nat, averageScore: real, maxScore: int, minScore: int,
    passCount: nat, passRate: real, excellentCount: nat, excellentRate: real,
    scoreDistribution: seq<(string, nat)>)

  /** The lower end of the first band: no Java int score is below it. */
  const Lowest := -0x8000_0000

  /** The upper end of the last band: above any Java int score. */
  const Highest := 0x8000_0000

  /** getScoreStats over the scores of the selected results. */
  function GetScoreStats(scores: seq<int>): ScoreStats
    requires forall k :: 0 <= k < |scores| ==> Lowest <= scores[k] < Highest
  {
    if scores == [] then ScoreStats(0, 0.0, 0, 0, 0, 0.0, 0, 0.0, [])
    else
      var totalCount := |scores|;
      var avgScore := Sum(scores) as real / totalCount as real;
      var passCount := CountIn(scores, PassScore, Highest);
      var excellentCount := CountIn(scores, ExcellentScore, Highest);
      ScoreStats(totalCount, Round2(avgScore), MaxOf(scores), MinOf(scores),
        passCount, Round2(passCount as real * 100.0 / totalCount as real),
        excellentCount, Round2(excellentCount as real * 100.0 / totalCount as real),
        [("0-59", CountIn(scores, Lowest, 60)), ("60-69", CountIn(scores, 60, 70)), ("70-79", CountIn(scores, 70, 80)),
         ("80-89", CountIn(scores, 80, 90)), ("90-100", CountIn(scores, 90, Highest))])
  }

  /** The scores of results that all have one. */
  function Present(results: seq<Option<int>>): (scores: seq<int>)
    requires forall k :: 0 <= k < |results| ==> results[k].Some?
    ensures |scores| == |results| && forall k :: 0 <= k < |results| ==> scores[k] == results[k].value
  {
    seq(|results|, k requires 0 <= k < |results| => results[k].value)
  }

  /**
   * getScoreStats over the selected results' scores, `None` being a null
   * score: unboxing a null score for the average throws, so there are no
   * statistics exactly when a result has none (no results at all give the
   * empty statistics).
   */
  function ScoreStatsOf(results: seq<Option<int>>): (r: Option<ScoreStats>)
    requires forall k :: 0 <= k < |results| && results[k].Some? ==> Lowest <= results[k].value < Highest
    ensures r.None? <==> exists k :: 0 <= k < |results| && results[k].None?
    ensures r.Some? ==> r.value.totalCount == |results|
    ensures r.Some? ==> r.value == GetScoreStats(Present(results))
  {
    if exists k :: 0 <= k < |results| && results[k].None? then None
    else Some(GetScoreStats(Present(results)))
  }

  /** No results give all-zero statistics and an empty distribution. */
  lemma EmptyStats()
    ensures GetScoreStats([]) == ScoreStats(0, 0.0, 0, 0, 0, 0.0, 0, 0.0, [])
  {
  }

  /** Splitting a range at m splits its count. */
  lemma {:induction false} CountSplit(scores: seq<int>, lo: int, m: int, hi: int)
    requires lo <= m <= hi
    ensures CountIn(scores, lo, hi) == CountIn(scores, lo, m) + CountIn(scores, m, hi)
  {
    if scores != [] {
      CountSplit(scores[..|scores| - 1], lo, m, hi);
    }
  }

  /** A range covering every score counts them all. */
  lemma {:induction false} CountAll(scores: seq<int>, lo: int, hi: int)
    requires forall k :: 0 <= k < |scores| ==> lo <= scores[k] < hi
    ensures CountIn(scores, lo, hi) == |scores|
  {
    if scores != [] {
      CountAll(scores[..|scores| - 1], lo, hi);
    }
  }

  /**
   * The five bands partition the results, excellent results are among the
   * passing ones, and the extremes are scores of the list bounding all the
   * others and the average.
   */
  lemma ScoreStatsConsistent(scores: seq<int>)
    requires scores != []
    requires forall k :: 0 <= k < |scores| ==> Lowest <= scores[k] < Highest
    ensures var s := GetScoreStats(scores);
      && s.totalCount == |scores|
      && |s.scoreDistribution| == 5
      && s.scoreDistribution[0].1 + s.scoreDistribution[1].1 + s.scoreDistribution[2].1
         + s.scoreDistribution[3].1 + s.scoreDistribution[4].1 == s.totalCount
      && s.excellentCount <= s.passCount <= s.totalCount
      && s.passCount == s.totalCount - s.scoreDistribution[0].1
      && s.excellentCount == s.scoreDistribution[4].1
      && s.minScore <= s.maxScore && s.minScore in scores && s.maxScore in scores
  {
    CountSplit(scores, Lowest, 60, Highest);
    CountSplit(scores, 60, 70, Highest);
    CountSplit(scores, 70, 80, Highest);
    CountSplit(scores, 80, 90, Highest);
    CountAll(scores, Lowest, Highest);
  }

  lemma {:induction false} SumBounds(scores: seq<int>, lo: int, hi: int)
    requires forall k :: 0 <= k < |scores| ==> lo <= scores[k] <= hi
    ensures |scores| * lo <= Sum(scores) <= |scores| * hi
  {
    if scores != [] {
      SumBounds(scores[..|scores| - 1], lo, hi);
    }
  }

  lemma DivMonotone(a: real, b: real, n: real)
    requires a <= b && n > 0.0
    ensures a / n <= b / n
  {
    assert b / n - a / n == (b - a) / n;
  }

  lemma MulDiv(x: real, n: real)
    requires n > 0.0
    ensures (n * x) / n == x
  {
  }

  lemma AtLeastAsReal(a: int, n: int, lo: int)
    requires n > 0 && n * lo <= a
    ensures lo as real <= a as real / n as real
  {
    assert (n * lo) as real == n as real * lo as real;
    DivMonotone(n as real * lo as real, a as real, n as real);
    MulDiv(lo as real, n as real);
  }

  lemma AtMostAsReal(a: int, n: int, hi: int)
    requires n > 0 && a <= n * hi
    ensures a as real / n as real <= hi as real
  {
    assert (n * hi) as real == n as real * hi as real;
    DivMonotone(a as real, n as real * hi as real, n as real);
    MulDiv(hi as real, n as real);
  }

  /** The exact average lies between the lowest and the highest score. */
  lemma AverageBetweenExtremes(scores: seq<int>)
    requires scores != []
    ensures MinOf(scores) as real <= Sum(scores) as real / |scores| as real <= MaxOf(scores) as real
  {
    SumBounds(scores, MinOf(scores), MaxOf(scores));
    AtLeastAsReal(Sum(scores), |scores|, MinOf(scores));
    AtMostAsReal(Sum(scores), |scores|, MaxOf(scores));
  }

  /** The rates are percentages between 0 and 100. */
  lemma RatesArePercentages(scores: seq<int>)
    requires scores != []
    requires forall k :: 0 <= k < |scores| ==> Lowest <= scores[k] < Highest
    ensures var s := GetScoreStats(scores);
      0.0 <= s.excellentRate <= s.passRate <= 100.0
  {
    var n := |scores| as real;
    var p := CountIn(scores, PassScore, Highest);
    var e := CountIn(scores, ExcellentScore, Highest);
    CountSplit(scores, PassScore, ExcellentScore, Highest);
    DivMonotone(0.0, e as real * 100.0, n);
    DivMonotone(e as real * 100.0, p as real * 100.0, n);
    DivMonotone(p as real * 100.0, n * 100.0, n);
    MulDiv(100.0, n);
    Round2Monotone(0.0, e as real * 100.0 / n);
    Round2Monotone(e as real * 100.0 / n, p as real * 100.0 / n);
    Round2Monotone(p as real * 100.0 / n, 100.0);
    assert Round2(0.0) == 0.0 && Round2(100.0) == 100.0;
  }

  lemma Round2Monotone(x: real, y: real)
    requires x <= y
    ensures Round2(x) <= Round2(y)
  {
    assert Round(x * 100.0) <= Round(y * 100.0) by {
      assert (x * 100.0 + 0.5).Floor as real <= y * 100.0 + 0.5;
    }
  }

  // ---------------------------------------------------------------------------
  // Knowledge-point analysis
  // ---------------------------------------------------------------------------

  /** A question of the paper with its full score. */
  datatype PaperQuestion = PaperQuestion(questionId: int, score: int)

  /** A row of the paper's question table; `None` is a null score. */
  datatype PaperRow = PaperRow(questionId: int, score: Option<int>)

  /** The running totals of one knowledge point. */
  datatype KpStat = KpStat(score: int, maxScore: int, questionCount: nat)

  /** The knowledge points linked to a question (none if the link table has no row for it). */
  function KpsOf(links: map<int, seq<int>>, questionId: int): seq<int>
  {
    if questionId in links then links[questionId] else []
  }

  /** One link of a question to knowledge point `kp`: its score counts towards the maximum, and towards the earned score if answered right. */
  function AddLink(m: map<int, KpStat>, kp: int, questionScore: int, earned: bool): map<int, KpStat>
  {
    var d := if kp in m then m[kp] else KpStat(0, 0, 0);
    m[kp := KpStat(d.score + (if earned then questionScore else 0), d.maxScore + questionScore, d.questionCount + 1)]
  }

  /** All links of one question, in order. */
  function AddLinks(m: map<int, KpStat>, kps: seq<int>, questionScore: int, earned: bool): map<int, KpStat>
  {
    if kps == [] then m else AddLink(AddLinks(m, kps[..|kps| - 1], questionScore, earned), kps[|kps| - 1], questionScore, earned)
  }

  /** The totals over the questions of the paper. */
  function Aggregate(questions: seq<PaperQuestion>, wrong: set<int>, links: map<int, seq<int>>): map<int, KpStat>
  {
    if questions == [] then map[]
    else
      var q := questions[|questions| - 1];
      AddLinks(Aggregate(questions[..|questions| - 1], wrong, links), KpsOf(links, q.questionId), q.score, q.questionId !in wrong)
  }

  /** The inner loop of getKnowledgePointAnalysis: one question's links. */
  method AddQuestionLinks(m: map<int, KpStat>, qkpList: seq<int>, questionScore: int, earned: bool)
    returns (kpStats: map<int, KpStat>)
    ensures kpStats == AddLinks(m, qkpList, questionScore, earned)
  {
    kpStats := m;
    for j := 0 to |qkpList|
      invariant kpStats == AddLinks(m, qkpList[..j], questionScore, earned)
    {
      assert qkpList[..j + 1][..j] == qkpList[..j];
      var kpId := qkpList[j];
      var dto := if kpId in kpStats then kpStats[kpId] else KpStat(0, 0, 0);
      dto := dto.(maxScore := dto.maxScore + questionScore, questionCount := dto.questionCount + 1);
      if earned {
        dto := dto.(score := dto.score + questionScore);
      }
      kpStats := kpStats[kpId := dto];
    }
    assert qkpList[..|qkpList|] == qkpList;
  }

  /** The accumulation loop of getKnowledgePointAnalysis. */
  method AggregateScores(questions: seq<PaperQuestion>, wrong: set<int>, links: map<int, seq<int>>)
    returns (kpStats: map<int, KpStat>)
    ensures kpStats == Aggregate(questions, wrong, links)
  {
    kpStats := map[];
    for i := 0 to |questions|
      invariant kpStats == Aggregate(questions[..i], wrong, links)
    {
      assert questions[..i + 1][..i] == questions[..i];
      var pq := questions[i];
      kpStats := AddQuestionLinks(kpStats, KpsOf(links, pq.questionId), pq.score, pq.questionId !in wrong);
    }
    assert questions[..|questions|] == questions;
  }

  /** The number of times `kp` occurs in `kps`. */
  function Occurrences(kps: seq<int>, kp: int): nat
  {
    if kps == [] then 0 else Occurrences(kps[..|kps| - 1], kp) + (if kps[|kps| - 1] == kp then 1 else 0)
  }

  /** The number of (question, kp) links of the paper. */
  function LinkCount(questions: seq<PaperQuestion>, links: map<int, seq<int>>, kp: int): nat
  {
    if questions == [] then 0
    else
      var q := questions[|questions| - 1];
      LinkCount(questions[..|questions| - 1], links, kp) + Occurrences(KpsOf(links, q.questionId), kp)
  }

  /** The full scores of the questions linked to `kp`, once per link. */
  function LinkedMax(questions: seq<PaperQuestion>, links: map<int, seq<int>>, kp: int): int
  {
    if questions == [] then 0
    else
      var q := questions[|questions| - 1];
      LinkedMax(questions[..|questions| - 1], links, kp) + Occurrences(KpsOf(links, q.questionId), kp) * q.score
  }

  /** The full scores of the correctly answered questions linked to `kp`, once per link. */
  function LinkedEarned(questions: seq<PaperQuestion>, wrong: set<int>, links: map<int, seq<int>>, kp: int): int
  {
    if questions == [] then 0
    else
      var q := questions[|questions| - 1];
      LinkedEarned(questions[..|questions| - 1], wrong, links, kp)
        + (if q.questionId in wrong then 0 else Occurrences(KpsOf(links, q.questionId), kp) * q.score)
  }

  /** The totals of `kp` in `m`, all zero when it has none yet. */
  function Get(m: map<int, KpStat>, kp: int): KpStat
  {
    if kp in m then m[kp] else KpStat(0, 0, 0)
  }

  lemma AddLinkEffect(m: map<int, KpStat>, k: int, s: int, earned: bool, kp: int)
    ensures var m' := AddLink(m, k, s, earned); var n := if k == kp then 1 else 0;
      && (kp in m' <==> kp in m || n > 0)
      && Get(m', kp) == KpStat(Get(m, kp).score + (if earned then n * s else 0), Get(m, kp).maxScore + n * s,
                               Get(m, kp).questionCount + n)
  {
  }

  /** The effect of one question's links on the totals of `kp`. */
  lemma {:induction false} AddLinksEffect(m: map<int, KpStat>, kps: seq<int>, s: int, earned: bool, kp: int)
    ensures var m' := AddLinks(m, kps, s, earned); var n := Occurrences(kps, kp);
      && (kp in m' <==> kp in m || n > 0)
      && Get(m', kp) == KpStat(Get(m, kp).score + (if earned then n * s else 0), Get(m, kp).maxScore + n * s,
                               Get(m, kp).questionCount + n)
  {
    if kps != [] {
      var init := kps[..|kps| - 1];
      var k := kps[|kps| - 1];
      AddLinksEffect(m, init, s, earned, kp);
      AddLinkEffect(AddLinks(m, init, s, earned), k, s, earned, kp);
      var n0 := Occurrences(init, kp);
      var d := if k == kp then 1 else 0;
      assert n0 * s + d * s == (n0 + d) * s;
    }
  }

  /**
   * The analysis holds exactly the knowledge points linked to some question
   * of the paper; for each, the question count is its number of links, the
   * maximum is the sum of the linked questions' scores, and the score is that
   * sum over the questions not answered wrongly.
   */
  lemma {:induction false} AggregateIsLinkSums(questions: seq<PaperQuestion>, wrong: set<int>, links: map<int, seq<int>>, kp: int)
    ensures var m := Aggregate(questions, wrong, links);
      && (kp in m <==> LinkCount(questions, links, kp) > 0)
      && Get(m, kp) == KpStat(LinkedEarned(questions, wrong, links, kp), LinkedMax(questions, links, kp),
                              LinkCount(questions, links, kp))
  {
    if questions != [] {
      var q := questions[|questions| - 1];
      var init := questions[..|questions| - 1];
      AggregateIsLinkSums(init, wrong, links, kp);
      AddLinksEffect(Aggregate(init, wrong, links), KpsOf(links, q.questionId), q.score, q.questionId !in wrong, kp);
    }
  }

  lemma {:induction false} EarnedAtMostMax(questions: seq<PaperQuestion>, wrong: set<int>, links: map<int, seq<int>>, kp: int)
    requires forall k :: 0 <= k < |questions| ==> questions[k].score >= 0
    ensures 0 <= LinkedEarned(questions, wrong, links, kp) <= LinkedMax(questions, links, kp)
  {
    if questions != [] {
      EarnedAtMostMax(questions[..|questions| - 1], wrong, links, kp);
    }
  }

  /** With non-negative question scores, a point's earned score never exceeds its maximum. */
  lemma ScoreAtMostMax(questions: seq<PaperQuestion>, wrong: set<int>, links: map<int, seq<int>>, kp: int)
    requires forall k :: 0 <= k < |questions| ==> questions[k].score >= 0
    requires kp in Aggregate(questions, wrong, links)
    ensures var d := Aggregate(questions, wrong, links)[kp];
      0 <= d.score <= d.maxScore && d.questionCount >= 1
  {
    AggregateIsLinkSums(questions, wrong, links, kp);
    EarnedAtMostMax(questions, wrong, links, kp);
  }

  /**
   * `dto.getMaxScore() + questionScore` unboxes a question's score once per
   * linked point, so a null score throws exactly when its question has a link.
   */
  predicate NullScoreUnboxed(rows: seq<PaperRow>, links: map<int, seq<int>>)
  {
    exists k :: 0 <= k < |rows| && rows[k].score.None? && KpsOf(links, rows[k].questionId) != []
  }

  /** The rows as questions; a null score reads as 0, a value no total ever uses when nothing throws. */
  function Questions(rows: seq<PaperRow>): (qs: seq<PaperQuestion>)
    ensures |qs| == |rows|
    ensures forall k :: 0 <= k < |rows| ==>
      qs[k].questionId == rows[k].questionId && qs[k].score == (if rows[k].score.Some? then rows[k].score.value else 0)
  {
    seq(|rows|, k requires 0 <= k < |rows| =>
      PaperQuestion(rows[k].questionId, if rows[k].score.Some? then rows[k].score.value else 0))
  }

  /** A question without linked points adds nothing to the totals, whatever its score. */
  lemma UnlinkedAddsNothing(questions: seq<PaperQuestion>, q: PaperQuestion, wrong: set<int>, links: map<int, seq<int>>)
    requires KpsOf(links, q.questionId) == []
    ensures Aggregate(questions + [q], wrong, links) == Aggregate(questions, wrong, links)
  {
    assert (questions + [q])[..|questions|] == questions;
  }

  /** A point of the analysis, with its name and its score rate in hundredths of a percent. */
  datatype KpAnalysis = KpAnalysis(knowledgePointId: int, knowledgePointName: Option<string>,
    score: int, maxScore: int, questionCount: nat, scoreRateHundredths: int)

  /** BigDecimal.setScale(2, HALF_UP) of x, in hundredths: ties round away from zero. */
  function HalfUpHundredths(x: real): (h: int)
    ensures x >= 0.0 ==> h as real - 0.5 <= x * 100.0 < h as real + 0.5
    ensures x < 0.0 ==> h as real - 0.5 < x * 100.0 <= h as real + 0.5
  {
    if x >= 0.0 then (x * 100.0 + 0.5).Floor else -((-x * 100.0 + 0.5).Floor)
  }

  /** The rate of a point: earned * 100 / maximum, or 0 when the maximum is not positive. */
  function ScoreRate(d: KpStat): int
  {
    if d.maxScore > 0 then HalfUpHundredths(d.score as real * 100.0 / d.maxScore as real) else 0
  }

  /** With the earned score between 0 and the maximum, the rate is between 0 and 100 percent. */
  lemma ScoreRateIsPercentage(d: KpStat)
    requires 0 <= d.score <= d.maxScore
    ensures 0 <= ScoreRate(d) <= 10000
  {
    if d.maxScore > 0 {
      var x := d.score as real * 100.0 / d.maxScore as real;
      assert x <= 100.0 by {
        assert d.score as real <= d.maxScore as real;
      }
    }
  }

  /**
   * `Collectors.toMap(getId, getName)` over the stored points of the totals
   * throws on a null name, so the names fail exactly when a point of the
   * totals is stored without one; `kpNames` maps each stored point to its
   * name, `None` being null.
   */
  predicate NullNameListed(totals: map<int, KpStat>, kpNames: map<int, Option<string>>)
  {
    exists kp :: kp in totals && kp in kpNames && kpNames[kp].None?
  }

  /**
   * getKnowledgePointAnalysis: nothing for a missing exam result or a paper
   * without questions; an exception (`None`) when a linked question has a
   * null score or a point of the totals has a null stored name; otherwise one
   * entry per linked knowledge point. The entries are keyed by point id (the
   * source returns them in hash order).
   */
  method KnowledgePointAnalysis(examFound: bool, rows: seq<PaperRow>, wrong: set<int>,
                                links: map<int, seq<int>>, kpNames: map<int, Option<string>>)
    returns (result: Option<map<int, KpAnalysis>>)
    ensures !examFound || rows == [] ==> result == Some(map[])
    ensures examFound && rows != [] ==>
      (result.None? <==> NullScoreUnboxed(rows, links)
                         || NullNameListed(Aggregate(Questions(rows), wrong, links), kpNames))
    ensures examFound && rows != [] && result.Some? ==>
      var m := Aggregate(Questions(rows), wrong, links);
      && result.value.Keys == m.Keys
      && forall kp :: kp in result.value ==>
           result.value[kp] == KpAnalysis(kp, if kp in kpNames then kpNames[kp] else None,
             m[kp].score, m[kp].maxScore, m[kp].questionCount, ScoreRate(m[kp]))
  {
    if !examFound || rows == [] {
      return Some(map[]);
    }
    if NullScoreUnboxed(rows, links) {
      return None;
    }
    var kpStats := AggregateScores(Questions(rows), wrong, links);
    if exists kp :: kp in kpStats && kp in kpNames && kpNames[kp].None? {
      return None;
    }
    result := Some(map kp | kp in kpStats ::
      KpAnalysis(kp, if kp in kpNames then kpNames[kp] else None,
        kpStats[kp].score, kpStats[kp].maxScore, kpStats[kp].questionCount, ScoreRate(kpStats[kp])));
  }
}
