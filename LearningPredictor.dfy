/**
 * The learning-effect predictor of the front end: a Bayesian-knowledge-tracing
 * style estimate of how well a student masters each knowledge point, updated
 * record by record, with a forgetting curve, predictions against fixed
 * thresholds and a prioritised review path.
 *
 * Math.exp is the parameter `exp` (its properties are IsExp), the clock is the
 * parameter `now` in milliseconds, and the insertion order of the two Maps is
 * the field `order`.
 */
module LearningPredictor {
  import opened Common
  import opened Sorting

  const P_INIT: real := 0.1
  const P_LEARN: real := 0.3
  const P_FORGET: real := 0.1
  const P_SLIP: real := 0.1
  const P_GUESS: real := 0.2
  const DAY_MS: real := 86400000.0

  datatype LearningRecord = LearningRecord(
    knowledgePointId: string,
    knowledgePointName: string,
    timestamp: int,
    isCorrect: bool,
    responseTime: real,
    difficulty: real,
    attemptCount: int,
    hintUsed: bool)

  datatype Trend = Improving | Stable | Declining

  datatype KnowledgeState = KnowledgeState(
    knowledgePointId: string,
    knowledgePointName: string,
    masteryLevel: real,
    confidence: real,
    forgettingRate: real,
    lastPracticeTime: int,
    totalAttempts: nat,
    correctAttempts: nat,
    avgResponseTime: real,
    trend: Trend)

  datatype Action = Review | Practice | Advance | Master
  datatype Risk = Low | Medium | High

  datatype PredictionResult = PredictionResult(
    knowledgePointId: string,
    knowledgePointName: string,
    currentMastery: real,
    predictedMastery: real,
    successProbability: real,
    recommendedAction: Action,
    timeToMastery: real,
    riskLevel: Risk,
    suggestions: seq<string>)

  datatype LearningPath = LearningPath(
    knowledgePointId: string,
    priority: real,
    estimatedTime: real,
    prerequisites: seq<string>,
    difficulty: real,
    reason: string)

  /** Days elapsed between two millisecond timestamps. */
  function Days(from: int, to: int): real
  {
    (to - from) as real / DAY_MS
  }

  // ---------------------------------------------------------------------
  // The knowledge state and its update

  /** The state a knowledge point starts from at its first record. */
  function InitialState(r: LearningRecord): KnowledgeState
  {
    KnowledgeState(r.knowledgePointId, r.knowledgePointName, P_INIT, 0.5, P_FORGET, r.timestamp, 0, 0, 0.0, Stable)
  }

  /** getDifficultyFactor: harder questions teach more. */
  function DifficultyFactor(difficulty: real): real
  {
    0.5 + difficulty * 0.1
  }

  /** The BKT step: the mastery after answering, from the decayed mastery. */
  function NewMastery(decayed: real, r: LearningRecord): real
  {
    if r.isCorrect then
      var gained := decayed + (1.0 - decayed) * P_LEARN * DifficultyFactor(r.difficulty);
      if r.responseTime < 30.0 then MinR(1.0, gained * 1.1) else gained
    else
      var slipPenalty := P_SLIP * (1.0 + r.difficulty / 5.0);
      var lowered := MaxR(0.0, decayed * (1.0 - slipPenalty));
      if r.hintUsed then lowered * 0.9 else lowered
  }

  /** For a difficulty in 1..5, a correct answer never lowers the decayed mastery and stays at most 1. */
  lemma CorrectNeverLowers(decayed: real, r: LearningRecord)
    requires r.isCorrect && 0.0 <= decayed <= 1.0 && 1.0 <= r.difficulty <= 5.0
    ensures decayed <= NewMastery(decayed, r) <= 1.0
  {
    var f := DifficultyFactor(r.difficulty);
    assert 0.6 <= f <= 1.0;
    var c := (1.0 - decayed) * P_LEARN;
    assert 0.0 <= c <= 1.0 - decayed;
    MulRealLe(0.0, f, c);
    MulRealLe(f, 1.0, c);
    assert c * f == (1.0 - decayed) * P_LEARN * f;
    var gained := decayed + c * f;
    assert decayed <= gained <= 1.0;
    if r.responseTime < 30.0 {
      assert gained <= gained * 1.1;
    }
  }

  /** For a difficulty in 1..5, a wrong answer never raises the decayed mastery and keeps it nonnegative. */
  lemma WrongNeverRaises(decayed: real, r: LearningRecord)
    requires !r.isCorrect && 0.0 <= decayed && 1.0 <= r.difficulty <= 5.0
    ensures 0.0 <= NewMastery(decayed, r) <= decayed
  {
    var slip := P_SLIP * (1.0 + r.difficulty / 5.0);
    assert 0.0 <= 1.0 - slip <= 1.0;
    MulRealLe(1.0 - slip, 1.0, decayed);
    assert decayed * (1.0 - slip) <= decayed;
  }

  lemma MulRealLe(x: real, y: real, c: real)
    requires x <= y && c >= 0.0
    ensures x * c <= y * c
  {
  }

  /** The number of correct records. */
  function CountCorrect(h: seq<LearningRecord>): (n: nat)
    ensures n <= |h|
  {
    if h == [] then 0 else CountCorrect(h[..|h| - 1]) + (if h[|h| - 1].isCorrect then 1 else 0)
  }

  function SumResponse(h: seq<LearningRecord>): real
  {
    if h == [] then 0.0 else SumResponse(h[..|h| - 1]) + h[|h| - 1].responseTime
  }

  /** The correct rate over the last five records: history.slice(-5). */
  function RecentCorrectRate(h: seq<LearningRecord>): (rate: real)
    requires h != []
    ensures 0.0 <= rate <= 1.0
  {
    var recent := h[|h| - Min(5, |h|)..];
    DivAtMostOne(CountCorrect(recent) as real, |recent| as real);
    CountCorrect(recent) as real / |recent| as real
  }

  /** calculateTrend, over the history that already holds the new record. */
  function TrendOf(h: seq<LearningRecord>, newMastery: real, oldMastery: real): (t: Trend)
    ensures |h| < 3 ==> t == Stable
    ensures t == Improving <==> |h| >= 3 && newMastery > oldMastery && RecentCorrectRate(h) > 0.6
    ensures t == Declining <==> |h| >= 3 && !(newMastery > oldMastery && RecentCorrectRate(h) > 0.6)
                                && (newMastery < oldMastery || RecentCorrectRate(h) < 0.4)
  {
    if |h| < 3 then Stable
    else
      var rate := RecentCorrectRate(h);
      if newMastery > oldMastery && rate > 0.6 then Improving
      else if newMastery < oldMastery || rate < 0.4 then Declining
      else Stable
  }

  /**
   * calculateForgettingRate, stated through the first and the last record: the
   * intervals between consecutive records add up to the time between those two.
   */
  function ForgettingRateOf(h: seq<LearningRecord>): (rate: real)
    ensures |h| < 2 ==> rate == P_FORGET
    ensures 0.5 * P_FORGET <= rate <= 2.0 * P_FORGET
  {
    if |h| < 2 then P_FORGET
    else
      var avgInterval := (h[|h| - 1].timestamp - h[0].timestamp) as real / (|h| - 1) as real;
      var avgDays := avgInterval / DAY_MS;
      P_FORGET * MinR(2.0, MaxR(0.5, avgDays / 7.0))
  }

  /** The mastery after the forgetting curve up to time `t`. */
  function Decayed(s: KnowledgeState, t: int, exp: real -> real): real
  {
    s.masteryLevel * exp(-s.forgettingRate * Days(s.lastPracticeTime, t))
  }

  /** The mean response time once the `total`-th response `rt` is in. */
  function RunningMean(avg: real, total: nat, rt: real): real
    requires total > 0
  {
    (avg * (total - 1) as real + rt) / total as real
  }

  /** The confidence after `total` attempts: five points each from one half, at most 1. */
  function Confidence(total: nat): (c: real)
    ensures 0.5 <= c <= 1.0
    ensures total >= 10 <==> c == 1.0
  {
    MinR(1.0, 0.5 + total as real * 0.05)
  }

  /**
   * updateKnowledgeState on values: `prior` is the stored state if any and `h`
   * the history that already ends with `r`.
   */
  function UpdateState(prior: Option<KnowledgeState>, h: seq<LearningRecord>, r: LearningRecord, exp: real -> real): KnowledgeState
  {
    var s := if prior.Some? then prior.value else InitialState(r);
    var m := NewMastery(Decayed(s, r.timestamp, exp), r);
    var total := s.totalAttempts + 1;
    s.(totalAttempts := total,
       correctAttempts := if r.isCorrect then s.correctAttempts + 1 else s.correctAttempts,
       avgResponseTime := RunningMean(s.avgResponseTime, total, r.responseTime),
       confidence := Confidence(total),
       trend := TrendOf(h, m, s.masteryLevel),
       masteryLevel := MinR(1.0, MaxR(0.0, m)),
       lastPracticeTime := r.timestamp,
       forgettingRate := ForgettingRateOf(h))
  }

  /** What a stored state says about the history of its knowledge point. */
  predicate Tracks(k: string, s: KnowledgeState, h: seq<LearningRecord>)
  {
    && h != []
    && (forall i :: 0 <= i < |h| ==> h[i].knowledgePointId == k)
    && s.knowledgePointId == k
    && s.knowledgePointName == h[0].knowledgePointName
    && s.totalAttempts == |h|
    && s.correctAttempts == CountCorrect(h)
    && 0.0 <= s.masteryLevel <= 1.0
    && s.confidence == Confidence(|h|)
    && s.forgettingRate == ForgettingRateOf(h)
    && s.lastPracticeTime == h[|h| - 1].timestamp
    && s.avgResponseTime == SumResponse(h) / |h| as real
  }

  /** A tracked state gives the bounds the model promises: confidence in [0.5, 1], correct at most total. */
  lemma TrackedBounds(k: string, s: KnowledgeState, h: seq<LearningRecord>)
    requires Tracks(k, s, h)
    ensures 0.5 <= s.confidence <= 1.0
    ensures 0 <= s.correctAttempts <= s.totalAttempts
    ensures 0.05 <= s.forgettingRate <= 0.2
  {
  }

  lemma {:induction false} SnocUnfolds(h: seq<LearningRecord>, r: LearningRecord)
    ensures CountCorrect(h + [r]) == CountCorrect(h) + (if r.isCorrect then 1 else 0)
    ensures SumResponse(h + [r]) == SumResponse(h) + r.responseTime
  {
    assert (h + [r])[..|h + [r]| - 1] == h;
  }

  /** The running mean of updateKnowledgeState stays the mean of all the response times. */
  lemma AvgStep(avg: real, sum: real, n: nat, rt: real)
    requires n == 0 ==> avg == 0.0 && sum == 0.0
    requires n > 0 ==> avg == sum / n as real
    ensures RunningMean(avg, n + 1, rt) == (sum + rt) / (n + 1) as real
  {
    if n > 0 {
      assert avg * n as real == sum;
    }
  }

  /** Updating a state with one more record of its point keeps it tracking the longer history. */
  lemma UpdateTracks(k: string, prior: Option<KnowledgeState>, h: seq<LearningRecord>, r: LearningRecord, exp: real -> real)
    requires r.knowledgePointId == k
    requires prior.None? ==> h == []
    requires prior.Some? ==> Tracks(k, prior.value, h)
    ensures Tracks(k, UpdateState(prior, h + [r], r, exp), h + [r])
  {
    var h' := h + [r];
    var s := if prior.Some? then prior.value else InitialState(r);
    var n := |h|;
    SnocUnfolds(h, r);
    assert s.totalAttempts == n;
    var u := UpdateState(prior, h', r, exp);
    AvgStep(s.avgResponseTime, SumResponse(h), n, r.responseTime);
    assert h'[0].knowledgePointName == s.knowledgePointName by {
      if n == 0 {
        assert h' == [r];
      } else {
        assert h'[0] == h[0];
      }
    }
    forall i | 0 <= i < |h'| ensures h'[i].knowledgePointId == k {
      if i < n {
        assert h'[i] == h[i];
      }
    }
  }

  /** The first record of a point starts from the initial mastery without decay. */
  lemma FirstRecord(r: LearningRecord, exp: real -> real)
    requires IsExp(exp)
    ensures var u := UpdateState(None, [r], r, exp);
      && u.masteryLevel == MinR(1.0, MaxR(0.0, NewMastery(P_INIT, r)))
      && u.totalAttempts == 1 && u.trend == Stable && u.forgettingRate == P_FORGET
      && u.avgResponseTime == r.responseTime && u.confidence == 0.55
  {
    assert Days(r.timestamp, r.timestamp) == 0.0;
    assert -P_FORGET * 0.0 == 0.0;
    assert Decayed(InitialState(r), r.timestamp, exp) == P_INIT;
  }

  // ---------------------------------------------------------------------
  // Predictions

  /** The recommended action by the current mastery. */
  function ActionFor(mastery: real): (a: Action)
    ensures a == Master <==> mastery >= 0.9
    ensures a == Advance <==> 0.7 <= mastery < 0.9
    ensures a == Practice <==> 0.4 <= mastery < 0.7
    ensures a == Review <==> mastery < 0.4
  {
    if mastery >= 0.9 then Master
    else if mastery >= 0.7 then Advance
    else if mastery >= 0.4 then Practice
    else Review
  }

  /** The forgetting risk by the predicted mastery. */
  function RiskFor(predicted: real): (r: Risk)
    ensures r == Low <==> predicted >= 0.7
    ensures r == Medium <==> 0.4 <= predicted < 0.7
    ensures r == High <==> predicted < 0.4
  {
    if predicted >= 0.7 then Low
    else if predicted >= 0.4 then Medium
    else High
  }

  /** P(correct) = P(L)(1 - P(slip)) + (1 - P(L)) P(guess). */
  function SuccessProbability(mastery: real): real
  {
    mastery * (1.0 - P_SLIP) + (1.0 - mastery) * P_GUESS
  }

  /** The chance of a correct answer lies between guessing and not slipping, and grows with mastery. */
  lemma SuccessProbabilityBounds(m: real, m': real)
    requires 0.0 <= m <= m' <= 1.0
    ensures P_GUESS <= SuccessProbability(m) <= SuccessProbability(m') <= 1.0 - P_SLIP
  {
  }

  /** The mastery predicted a week ahead of `now`. */
  function PredictedMastery(s: KnowledgeState, now: int, exp: real -> real): real
  {
    var totalDays := Days(s.lastPracticeTime, now) + 7.0;
    s.masteryLevel * exp(-s.forgettingRate * totalDays)
  }

  /** Forgetting only loses mastery: the prediction lies between 0 and the current mastery. */
  lemma PredictionNeverRaises(s: KnowledgeState, now: int, exp: real -> real)
    requires IsExp(exp) && 0.0 <= s.masteryLevel && s.forgettingRate >= 0.0 && now >= s.lastPracticeTime
    ensures 0.0 <= PredictedMastery(s, now, exp) <= s.masteryLevel
  {
    var x := -s.forgettingRate * (Days(s.lastPracticeTime, now) + 7.0);
    assert x <= 0.0 by {
      assert Days(s.lastPracticeTime, now) >= 0.0;
      MulRealLe(0.0, Days(s.lastPracticeTime, now) + 7.0, s.forgettingRate);
    }
    ExpAtMostOne(exp, x);
    MulRealLe(exp(x), 1.0, s.masteryLevel);
  }

  /** The decay applied before an update only loses mastery too. */
  lemma DecayNeverRaises(s: KnowledgeState, t: int, exp: real -> real)
    requires IsExp(exp) && 0.0 <= s.masteryLevel && s.forgettingRate >= 0.0 && t >= s.lastPracticeTime
    ensures 0.0 <= Decayed(s, t, exp) <= s.masteryLevel
  {
    var x := -s.forgettingRate * Days(s.lastPracticeTime, t);
    assert Decayed(s, t, exp) == s.masteryLevel * exp(x);
    assert x <= 0.0 by {
      MulRealLe(0.0, Days(s.lastPracticeTime, t), s.forgettingRate);
    }
    ExpAtMostOne(exp, x);
    MulRealLe(exp(x), 1.0, s.masteryLevel);
  }

  /** estimateTimeToMastery: hours to reach 0.9 at five points of mastery per practice. */
  function TimeToMastery(s: KnowledgeState): (hours: real)
    ensures s.masteryLevel >= 0.9 ==> hours == 0.0
    ensures s.avgResponseTime >= 0.0 ==> hours >= 0.0
    ensures s.masteryLevel < 0.9 && s.avgResponseTime > 0.0 ==> hours > 0.0
  {
    if s.masteryLevel >= 0.9 then 0.0
    else
      var remaining := 0.9 - s.masteryLevel;
      var avgPracticeTime := s.avgResponseTime / 60.0;
      var practicesNeeded := Ceil(remaining / 0.05);
      assert practicesNeeded >= 1;
      var totalMinutes := practicesNeeded as real * avgPracticeTime * 2.0;
      totalMinutes / 60.0
  }

  /** generateSuggestions. */
  function Suggestions(s: KnowledgeState, risk: Risk, now: int): (r: seq<string>)
    ensures 2 <= |r| <= 5
    ensures |r| == 2 <==> risk == Low && s.trend == Stable && Days(s.lastPracticeTime, now) <= 7.0
  {
    var byMastery :=
      if s.masteryLevel < 0.4 then ["建议从基础概念开始系统学习", "可以观看相关视频讲解"]
      else if s.masteryLevel < 0.7 then ["继续练习巩固，重点关注易错点", "尝试中等难度的习题"]
      else if s.masteryLevel < 0.9 then ["可以挑战更高难度的题目", "尝试总结归纳知识点"]
      else ["已充分掌握，可以教别人来巩固", "定期复习即可保持熟练度"];
    var byRisk :=
      if risk == High then ["⚠️ 遗忘风险较高，建议尽快复习"]
      else if risk == Medium then ["建议在3天内进行一次复习"]
      else [];
    var byTrend :=
      if s.trend == Declining then ["最近表现下滑，建议调整学习方法"]
      else if s.trend == Improving then ["学习状态很好，保持当前节奏"]
      else [];
    var byGap := if Days(s.lastPracticeTime, now) > 7.0 then ["已超过一周未练习，建议重新复习"] else [];
    assert |byMastery| == 2;
    assert byRisk == [] <==> risk == Low;
    assert byTrend == [] <==> s.trend == Stable;
    assert byGap == [] <==> Days(s.lastPracticeTime, now) <= 7.0;
    byMastery + byRisk + byTrend + byGap
  }

  /** predict for a known point. */
  function PredictionOf(id: string, s: KnowledgeState, now: int, exp: real -> real): PredictionResult
  {
    var predicted := PredictedMastery(s, now, exp);
    var risk := RiskFor(predicted);
    PredictionResult(id, s.knowledgePointName, s.masteryLevel, predicted, SuccessProbability(s.masteryLevel),
                     ActionFor(s.masteryLevel), TimeToMastery(s), risk, Suggestions(s, risk, now))
  }

  /**
   * A prediction for a point in a reachable state: it names the point and its
   * current mastery, predicts no more than that mastery, keeps the success
   * probability between guessing and slipping, and rates the risk and the
   * action by the predicted and the current mastery.
   */
  lemma PredictionOfFacts(id: string, s: KnowledgeState, now: int, exp: real -> real)
    requires IsExp(exp) && 0.0 <= s.masteryLevel <= 1.0 && s.forgettingRate >= 0.0 && now >= s.lastPracticeTime
    ensures var p := PredictionOf(id, s, now, exp);
      && p.knowledgePointId == id && p.knowledgePointName == s.knowledgePointName
      && p.currentMastery == s.masteryLevel
      && 0.0 <= p.predictedMastery <= p.currentMastery
      && P_GUESS <= p.successProbability <= 1.0 - P_SLIP
      && (p.riskLevel == High <==> p.predictedMastery < 0.4)
      && (p.riskLevel == Low ==> p.recommendedAction != Review)
      && (p.recommendedAction == Master <==> p.currentMastery >= 0.9)
      && 2 <= |p.suggestions| <= 5
  {
    PredictionNeverRaises(s, now, exp);
    SuccessProbabilityBounds(s.masteryLevel, s.masteryLevel);
  }

  // ---------------------------------------------------------------------
  // The learning path

  /** The priority of a point on the learning path, normalised into [1, 10]. */
  function PathPriority(s: KnowledgeState, p: PredictionResult, now: int): (priority: real)
    ensures 1.0 <= priority <= 10.0
  {
    var byMastery := (1.0 - s.masteryLevel) * 4.0;
    var byRisk := if p.riskLevel == High then 3.0 else if p.riskLevel == Medium then 1.5 else 0.0;
    var byGap := MinR(2.0, Days(s.lastPracticeTime, now) / 7.0);
    var byTrend := if s.trend == Declining then 1.0 else 0.0;
    MinR(10.0, MaxR(1.0, byMastery + byRisk + byGap + byTrend))
  }

  function SumDifficulty(h: seq<LearningRecord>): real
  {
    if h == [] then 0.0 else SumDifficulty(h[..|h| - 1]) + h[|h| - 1].difficulty
  }

  /** estimateDifficulty: the mean difficulty scaled up by the error rate, at most 5. */
  function EstimateDifficulty(s: KnowledgeState, h: seq<LearningRecord>): (d: real)
    requires h != [] ==> s.totalAttempts != 0
    ensures d <= 5.0
    ensures h == [] ==> d == 3.0
  {
    if h == [] then 3.0
    else
      var avgDifficulty := SumDifficulty(h) / |h| as real;
      var correctRate := s.correctAttempts as real / s.totalAttempts as real;
      MinR(5.0, avgDifficulty * (2.0 - correctRate))
  }

  /** reasons.join(sep) */
  function Join(parts: seq<string>, sep: string): string
  {
    if parts == [] then ""
    else if |parts| == 1 then parts[0]
    else parts[0] + sep + Join(parts[1..], sep)
  }

  /** generatePathReason. */
  function PathReason(s: KnowledgeState, p: PredictionResult, now: int): string
  {
    var reasons :=
      (if s.masteryLevel < 0.4 then ["基础薄弱"] else [])
      + (if p.riskLevel == High then ["遗忘风险高"] else [])
      + (if Days(s.lastPracticeTime, now) > 7.0 then ["长时间未练习"] else [])
      + (if s.trend == Declining then ["最近表现下滑"] else []);
    if reasons == [] then "建议继续巩固提升" else Join(reasons, "，")
  }

  /** One entry of the learning path. */
  function PathOf(s: KnowledgeState, h: seq<LearningRecord>, p: PredictionResult, now: int): LearningPath
    requires h != [] ==> s.totalAttempts != 0
  {
    LearningPath(s.knowledgePointId, PathPriority(s, p, now), p.timeToMastery * 60.0, [],
                 EstimateDifficulty(s, h), PathReason(s, p, now))
  }

  function PriorityOf(p: LearningPath): real
  {
    p.priority
  }

  /** The negated mastery: sorting by it highest first is sorting by mastery lowest first. */
  function NegMastery(s: KnowledgeState): real
  {
    -s.masteryLevel
  }

  // ---------------------------------------------------------------------
  // The predictor with its two Maps

  function HistoryOf(lh: map<string, seq<LearningRecord>>, k: string): seq<LearningRecord>
  {
    if k in lh then lh[k] else []
  }

  function StateOf(ks: map<string, KnowledgeState>, k: string): Option<KnowledgeState>
  {
    if k in ks then Some(ks[k]) else None
  }

  /** The records of one point among `records`, in order. */
  function RecordsFor(records: seq<LearningRecord>, k: string): seq<LearningRecord>
  {
    if records == [] then []
    else RecordsFor(records[..|records| - 1], k) + (if records[|records| - 1].knowledgePointId == k then [records[|records| - 1]] else [])
  }

  /** The states of `keys`, in that order. */
  function ValuesOf(keys: seq<string>, ks: map<string, KnowledgeState>): (r: seq<KnowledgeState>)
    requires forall i :: 0 <= i < |keys| ==> keys[i] in ks
    ensures |r| == |keys| && forall i :: 0 <= i < |keys| ==> r[i] == ks[keys[i]]
  {
    seq(|keys|, i requires 0 <= i < |keys| => ks[keys[i]])
  }

  predicate IsWeak(s: KnowledgeState)
  {
    s.masteryLevel < 0.6
  }

  predicate NeedsReview(s: KnowledgeState, now: int)
  {
    Days(s.lastPracticeTime, now) > 3.0 && s.masteryLevel < 0.9
  }

  /** The invariant of the predictor: one tracked state and history per key, keys listed once in insertion order. */
  predicate Consistent(order: seq<string>, ks: map<string, KnowledgeState>, lh: map<string, seq<LearningRecord>>)
  {
    && Distinct(order)
    && (forall i :: 0 <= i < |order| ==> order[i] in ks)
    && (forall k :: k in ks ==> k in order)
    && (forall k :: k in lh ==> k in ks)
    && (forall k :: k in ks ==> k in lh && Tracks(k, ks[k], lh[k]))
  }

  /** A known point whose path can be computed: a nonempty history comes with attempts. */
  predicate PathReady(k: string, ks: map<string, KnowledgeState>, lh: map<string, seq<LearningRecord>>)
  {
    k in ks && k in lh && ks[k].knowledgePointId == k && (lh[k] != [] ==> ks[k].totalAttempts != 0)
  }

  /** The paths the loop of generateLearningPath collects over `keys`, before sorting. */
  function PathsOf(keys: seq<string>, ks: map<string, KnowledgeState>, lh: map<string, seq<LearningRecord>>, now: int, exp: real -> real): seq<LearningPath>
    requires forall i :: 0 <= i < |keys| ==> PathReady(keys[i], ks, lh)
  {
    if keys == [] then []
    else
      var k := keys[|keys| - 1];
      assert PathReady(k, ks, lh);
      PathsOf(keys[..|keys| - 1], ks, lh, now, exp) + [PathOf(ks[k], lh[k], PredictionOf(k, ks[k], now, exp), now)]
  }

  /** The predictor's two Maps and their shared key order, as one value. */
  datatype Tables = Tables(order: seq<string>, states: map<string, KnowledgeState>, history: map<string, seq<LearningRecord>>)

  /** addLearningRecord on the tables: the record joins its history, its point's state is updated, a new key is listed last. */
  function AddOne(t: Tables, r: LearningRecord, exp: real -> real): Tables
  {
    var k := r.knowledgePointId;
    var lh := t.history[k := HistoryOf(t.history, k) + [r]];
    Tables(if k in t.states then t.order else t.order + [k],
           t.states[k := UpdateState(StateOf(t.states, k), lh[k], r, exp)],
           lh)
  }

  /** addLearningRecords on the tables: addLearningRecord for every record, in order. */
  function AddAll(t: Tables, records: seq<LearningRecord>, exp: real -> real): Tables
  {
    if records == [] then t
    else AddOne(AddAll(t, records[..|records| - 1], exp), records[|records| - 1], exp)
  }

  class LearningEffectPredictor {
    var knowledgeStates: map<string, KnowledgeState>
    var learningHistory: map<string, seq<LearningRecord>>
    /** The keys of both Maps in insertion order. */
    var order: seq<string>

    predicate Valid()
      reads this
    {
      Consistent(order, knowledgeStates, learningHistory)
    }

    constructor ()
      ensures knowledgeStates == map[] && learningHistory == map[] && order == []
      ensures Valid()
    {
      knowledgeStates := map[];
      learningHistory := map[];
      order := [];
    }

    /** The first part of addLearningRecord: the record joins its point's history. */
    method PushRecord(record: LearningRecord)
      modifies this`learningHistory, this`order
      ensures learningHistory == old(learningHistory)[record.knowledgePointId := HistoryOf(old(learningHistory), record.knowledgePointId) + [record]]
      ensures order == if record.knowledgePointId in old(knowledgeStates) then old(order) else old(order) + [record.knowledgePointId]
    {
      var kpId := record.knowledgePointId;
      if kpId !in learningHistory {
        learningHistory := learningHistory[kpId := []];
      }
      learningHistory := learningHistory[kpId := learningHistory[kpId] + [record]];
      if kpId !in knowledgeStates {
        order := order + [kpId];
      }
    }

    /** calculateForgettingRate: the loop adds up the intervals between consecutive records. */
    method CalculateForgettingRate(kpId: string) returns (rate: real)
      ensures rate == ForgettingRateOf(HistoryOf(learningHistory, kpId))
    {
      if kpId !in learningHistory || |learningHistory[kpId]| < 2 {
        return P_FORGET;
      }
      var history := learningHistory[kpId];
      var totalInterval := 0;
      var i := 1;
      while i < |history|
        invariant 1 <= i <= |history|
        invariant totalInterval == history[i - 1].timestamp - history[0].timestamp
      {
        var interval := history[i].timestamp - history[i - 1].timestamp;
        totalInterval := totalInterval + interval;
        i := i + 1;
      }
      var avgInterval := totalInterval as real / (|history| - 1) as real;
      var avgDays := avgInterval / DAY_MS;
      rate := P_FORGET * MinR(2.0, MaxR(0.5, avgDays / 7.0));
    }

    /** updateKnowledgeState, after the record has joined the history. */
    method UpdateKnowledgeState(record: LearningRecord, exp: real -> real)
      modifies this`knowledgeStates
      ensures knowledgeStates == old(knowledgeStates)[record.knowledgePointId :=
        UpdateState(StateOf(old(knowledgeStates), record.knowledgePointId), HistoryOf(learningHistory, record.knowledgePointId), record, exp)]
    {
      var kpId := record.knowledgePointId;
      var state := if kpId in knowledgeStates then knowledgeStates[kpId] else InitialState(record);
      var decayedMastery := Decayed(state, record.timestamp, exp);
      var newMastery := NewMastery(decayedMastery, record);
      state := state.(totalAttempts := state.totalAttempts + 1);
      if record.isCorrect {
        state := state.(correctAttempts := state.correctAttempts + 1);
      }
      state := state.(avgResponseTime := RunningMean(state.avgResponseTime, state.totalAttempts, record.responseTime));
      state := state.(confidence := Confidence(state.totalAttempts));
      state := state.(trend := TrendOf(HistoryOf(learningHistory, kpId), newMastery, state.masteryLevel));
      state := state.(masteryLevel := MinR(1.0, MaxR(0.0, newMastery)), lastPracticeTime := record.timestamp);
      var rate := CalculateForgettingRate(kpId);
      state := state.(forgettingRate := rate);
      knowledgeStates := knowledgeStates[kpId := state];
    }

    /** addLearningRecord: the record is appended to its history and its point's state is updated. */
    method AddLearningRecord(record: LearningRecord, exp: real -> real)
      modifies this
      requires Valid()
      ensures learningHistory == old(learningHistory)[record.knowledgePointId := HistoryOf(old(learningHistory), record.knowledgePointId) + [record]]
      ensures knowledgeStates == old(knowledgeStates)[record.knowledgePointId :=
        UpdateState(StateOf(old(knowledgeStates), record.knowledgePointId), learningHistory[record.knowledgePointId], record, exp)]
      ensures order == if record.knowledgePointId in old(knowledgeStates) then old(order) else old(order) + [record.knowledgePointId]
      ensures Valid()
    {
      var k := record.knowledgePointId;
      ghost var prior := StateOf(knowledgeStates, k);
      ghost var h := HistoryOf(learningHistory, k);
      ghost var order0, ks0, lh0 := order, knowledgeStates, learningHistory;
      PushRecord(record);
      UpdateKnowledgeState(record, exp);
      UpdateTracks(k, prior, h, record, exp);
      AddPreserves(order0, ks0, lh0, record, exp, order, knowledgeStates, learningHistory);
    }

    /** addLearningRecords: every record in turn; each point's history grows by its records, in order. */
    method AddLearningRecords(records: seq<LearningRecord>, exp: real -> real)
      modifies this
      requires Valid()
      ensures Tables(order, knowledgeStates, learningHistory) == AddAll(Tables(old(order), old(knowledgeStates), old(learningHistory)), records, exp)
      ensures forall k :: HistoryOf(learningHistory, k) == HistoryOf(old(learningHistory), k) + RecordsFor(records, k)
      ensures Valid()
    {
      ghost var t0 := Tables(order, knowledgeStates, learningHistory);
      for i := 0 to |records|
        invariant Valid()
        invariant Tables(order, knowledgeStates, learningHistory) == AddAll(t0, records[..i], exp)
      {
        ghost var t1 := Tables(order, knowledgeStates, learningHistory);
        AddLearningRecord(records[i], exp);
        AddOneIs(t1, records[i], exp, order, knowledgeStates, learningHistory);
        AddAllSnoc(t0, records, i, exp);
      }
      assert records[..|records|] == records;
      AddAllHistories(t0, records, exp);
    }

    /** predict: nothing for an unknown point. */
    function Predict(knowledgePointId: string, now: int, exp: real -> real): (r: Option<PredictionResult>)
      reads this
      ensures r.None? <==> knowledgePointId !in knowledgeStates
      ensures r.Some? ==> r.value.knowledgePointId == knowledgePointId && r.value.currentMastery == knowledgeStates[knowledgePointId].masteryLevel
    {
      if knowledgePointId !in knowledgeStates then None
      else Some(PredictionOf(knowledgePointId, knowledgeStates[knowledgePointId], now, exp))
    }

    /** getAllKnowledgeStates: the states in insertion order. */
    function AllKnowledgeStates(): (r: seq<KnowledgeState>)
      reads this
      requires Valid()
      ensures |r| == |order| && forall i :: 0 <= i < |order| ==> r[i] == knowledgeStates[order[i]]
    {
      ValuesOf(order, knowledgeStates)
    }

    /** generateLearningPath: one path per known point, highest priority first. */
    method GenerateLearningPath(now: int, exp: real -> real) returns (paths: seq<LearningPath>)
      requires Valid()
      ensures paths == SortDesc(PathsOf(order, knowledgeStates, learningHistory, now, exp), PriorityOf)
    {
      var collected: seq<LearningPath> := [];
      for i := 0 to |order|
        invariant collected == PathsOf(order[..i], knowledgeStates, learningHistory, now, exp)
      {
        var k := order[i];
        var state := knowledgeStates[k];
        var prediction := Predict(k, now, exp);
        if prediction.None? {
          continue;
        }
        assert order[..i + 1][..i] == order[..i];
        collected := collected + [PathOf(state, learningHistory[k], prediction.value, now)];
      }
      assert order[..|order|] == order;
      paths := SortDesc(collected, PriorityOf);
    }

    /** getWeakKnowledgePoints: the states below 0.6 mastery, weakest first. */
    function WeakKnowledgePoints(): (r: seq<KnowledgeState>)
      reads this
      requires Valid()
      ensures forall i :: 0 <= i < |r| ==> IsWeak(r[i])
      ensures SortedDesc(r, NegMastery)
      ensures multiset(r) == multiset(Filter(AllKnowledgeStates(), IsWeak))
    {
      var weak := Filter(AllKnowledgeStates(), IsWeak);
      SortDescSorted(weak, NegMastery);
      SortKeepsWeak(weak);
      SortDesc(weak, NegMastery)
    }

    /** getReviewNeeded: the states last practised more than three days ago and below 0.9 mastery. */
    function ReviewNeeded(now: int): (r: seq<KnowledgeState>)
      reads this
      requires Valid()
      ensures forall i :: 0 <= i < |r| ==> NeedsReview(r[i], now)
      ensures forall i :: 0 <= i < |order| && NeedsReview(knowledgeStates[order[i]], now) ==> knowledgeStates[order[i]] in r
    {
      Filter(AllKnowledgeStates(), (s: KnowledgeState) => NeedsReview(s, now))
    }

    /** clear: both Maps are emptied. */
    method Clear()
      modifies this
      ensures knowledgeStates == map[] && learningHistory == map[] && order == []
      ensures Valid()
    {
      knowledgeStates := map[];
      learningHistory := map[];
      order := [];
    }
  }

  /** One added record keeps the predictor consistent. */
  lemma AddPreserves(order: seq<string>, ks: map<string, KnowledgeState>, lh: map<string, seq<LearningRecord>>,
                     r: LearningRecord, exp: real -> real,
                     order': seq<string>, ks': map<string, KnowledgeState>, lh': map<string, seq<LearningRecord>>)
    requires Consistent(order, ks, lh)
    requires lh' == lh[r.knowledgePointId := HistoryOf(lh, r.knowledgePointId) + [r]]
    requires ks' == ks[r.knowledgePointId := UpdateState(StateOf(ks, r.knowledgePointId), lh'[r.knowledgePointId], r, exp)]
    requires order' == if r.knowledgePointId in ks then order else order + [r.knowledgePointId]
    requires Tracks(r.knowledgePointId, ks'[r.knowledgePointId], lh'[r.knowledgePointId])
    ensures Consistent(order', ks', lh')
  {
    var k := r.knowledgePointId;
    if k !in ks {
      forall i, j | 0 <= i < j < |order'| ensures order'[i] != order'[j] {
        if j == |order| {
          assert order'[i] == order[i];
        }
      }
    }
    forall i | 0 <= i < |order'| ensures order'[i] in ks' {
      if i < |order| {
        assert order'[i] == order[i];
      }
    }
  }

  lemma SortKeepsWeak(w: seq<KnowledgeState>)
    requires forall i :: 0 <= i < |w| ==> IsWeak(w[i])
    ensures forall i :: 0 <= i < |SortDesc(w, NegMastery)| ==> IsWeak(SortDesc(w, NegMastery)[i])
  {
    var r := SortDesc(w, NegMastery);
    forall i | 0 <= i < |r| ensures IsWeak(r[i]) {
      assert r[i] in multiset(w);
      var j :| 0 <= j < |w| && w[j] == r[i];
    }
  }

  lemma HistoriesStep(lh0: map<string, seq<LearningRecord>>, lh1: map<string, seq<LearningRecord>>, lh2: map<string, seq<LearningRecord>>,
                      records: seq<LearningRecord>, i: int)
    requires 0 <= i < |records|
    requires forall k :: HistoryOf(lh1, k) == HistoryOf(lh0, k) + RecordsFor(records[..i], k)
    requires lh2 == lh1[records[i].knowledgePointId := HistoryOf(lh1, records[i].knowledgePointId) + [records[i]]]
    ensures forall k :: HistoryOf(lh2, k) == HistoryOf(lh0, k) + RecordsFor(records[..i + 1], k)
  {
    forall k ensures HistoryOf(lh2, k) == HistoryOf(lh0, k) + RecordsFor(records[..i + 1], k) {
      RecordsForSnoc(records, i, k);
      assert HistoryOf(lh2, k) == HistoryOf(lh1, k) + (if records[i].knowledgePointId == k then [records[i]] else []);
    }
  }

  lemma RecordsForSnoc(records: seq<LearningRecord>, i: int, k: string)
    requires 0 <= i < |records|
    ensures RecordsFor(records[..i + 1], k) == RecordsFor(records[..i], k) + (if records[i].knowledgePointId == k then [records[i]] else [])
  {
    assert records[..i + 1][..i] == records[..i];
  }

  /** The three effects that AddLearningRecord ensures are together AddOne. */
  lemma AddOneIs(t: Tables, r: LearningRecord, exp: real -> real,
                 order': seq<string>, ks': map<string, KnowledgeState>, lh': map<string, seq<LearningRecord>>)
    requires lh' == t.history[r.knowledgePointId := HistoryOf(t.history, r.knowledgePointId) + [r]]
    requires ks' == t.states[r.knowledgePointId := UpdateState(StateOf(t.states, r.knowledgePointId), lh'[r.knowledgePointId], r, exp)]
    requires order' == if r.knowledgePointId in t.states then t.order else t.order + [r.knowledgePointId]
    ensures Tables(order', ks', lh') == AddOne(t, r, exp)
  {
  }

  /** Adding one more record of a batch. */
  lemma AddAllSnoc(t: Tables, records: seq<LearningRecord>, i: int, exp: real -> real)
    requires 0 <= i < |records|
    ensures AddAll(t, records[..i + 1], exp) == AddOne(AddAll(t, records[..i], exp), records[i], exp)
  {
    assert records[..i + 1][..i] == records[..i];
  }

  /** A batch keeps the predictor consistent. */
  lemma {:induction false} AddAllConsistent(t: Tables, records: seq<LearningRecord>, exp: real -> real)
    requires Consistent(t.order, t.states, t.history)
    ensures var t' := AddAll(t, records, exp); Consistent(t'.order, t'.states, t'.history)
  {
    if records != [] {
      var p := AddAll(t, records[..|records| - 1], exp);
      AddAllConsistent(t, records[..|records| - 1], exp);
      var r := records[|records| - 1];
      var k := r.knowledgePointId;
      var t' := AddOne(p, r, exp);
      UpdateTracks(k, StateOf(p.states, k), HistoryOf(p.history, k), r, exp);
      AddPreserves(p.order, p.states, p.history, r, exp, t'.order, t'.states, t'.history);
    }
  }

  /** A batch only appends keys: the old order is a prefix of the new one, and every new key is one of the batch's points. */
  lemma {:induction false} AddAllExtendsOrder(t: Tables, records: seq<LearningRecord>, exp: real -> real)
    ensures var t' := AddAll(t, records, exp);
      && |t.order| <= |t'.order| && t'.order[..|t.order|] == t.order
      && forall i :: |t.order| <= i < |t'.order| ==> exists j :: 0 <= j < |records| && records[j].knowledgePointId == t'.order[i]
  {
    if records != [] {
      var init := records[..|records| - 1];
      var p := AddAll(t, init, exp);
      AddAllExtendsOrder(t, init, exp);
      var t' := AddOne(p, records[|records| - 1], exp);
      forall i | |t.order| <= i < |t'.order|
        ensures exists j :: 0 <= j < |records| && records[j].knowledgePointId == t'.order[i]
      {
        if i < |p.order| {
          var j :| 0 <= j < |init| && init[j].knowledgePointId == p.order[i];
          assert records[j] == init[j];
        } else {
          assert records[|records| - 1].knowledgePointId == t'.order[i];
        }
      }
    }
  }

  /** A batch grows each point's history by that point's records, in order. */
  lemma {:induction false} AddAllHistories(t: Tables, records: seq<LearningRecord>, exp: real -> real)
    ensures forall k :: HistoryOf(AddAll(t, records, exp).history, k) == HistoryOf(t.history, k) + RecordsFor(records, k)
  {
    if records != [] {
      var n := |records| - 1;
      AddAllHistories(t, records[..n], exp);
      HistoriesStep(t.history, AddAll(t, records[..n], exp).history, AddAll(t, records, exp).history, records, n);
      assert records[..n + 1] == records;
    }
  }

  /** A point that no record of the batch names keeps its state and its history. */
  lemma {:induction false} AddAllKeepsOthers(t: Tables, records: seq<LearningRecord>, exp: real -> real, k: string)
    requires forall j :: 0 <= j < |records| ==> records[j].knowledgePointId != k
    ensures StateOf(AddAll(t, records, exp).states, k) == StateOf(t.states, k)
    ensures HistoryOf(AddAll(t, records, exp).history, k) == HistoryOf(t.history, k)
  {
    if records != [] {
      AddAllKeepsOthers(t, records[..|records| - 1], exp, k);
    }
  }

  /** Every key of a consistent predictor has a computable path. */
  lemma ConsistentReady(order: seq<string>, ks: map<string, KnowledgeState>, lh: map<string, seq<LearningRecord>>)
    requires Consistent(order, ks, lh)
    ensures forall i :: 0 <= i < |order| ==> PathReady(order[i], ks, lh)
  {
    forall i | 0 <= i < |order| ensures PathReady(order[i], ks, lh) {
      assert Tracks(order[i], ks[order[i]], lh[order[i]]);
    }
  }

  /** The learning path holds one entry per known point, priorities in [1, 10], highest priority first. */
  lemma LearningPathSorted(order: seq<string>, ks: map<string, KnowledgeState>, lh: map<string, seq<LearningRecord>>, now: int, exp: real -> real)
    requires Consistent(order, ks, lh)
    ensures SortedDesc(SortDesc(PathsOf(order, ks, lh, now, exp), PriorityOf), PriorityOf)
    ensures |SortDesc(PathsOf(order, ks, lh, now, exp), PriorityOf)| == |order|
    ensures forall i :: 0 <= i < |order| ==> 1.0 <= SortDesc(PathsOf(order, ks, lh, now, exp), PriorityOf)[i].priority <= 10.0
  {
    ConsistentReady(order, ks, lh);
    var paths := PathsOf(order, ks, lh, now, exp);
    SortDescSorted(paths, PriorityOf);
    PathsOfShape(order, ks, lh, now, exp);
    PrioritiesKept(paths);
  }

  lemma PrioritiesKept(paths: seq<LearningPath>)
    requires forall j :: 0 <= j < |paths| ==> 1.0 <= paths[j].priority <= 10.0
    ensures forall i :: 0 <= i < |SortDesc(paths, PriorityOf)| ==> 1.0 <= SortDesc(paths, PriorityOf)[i].priority <= 10.0
  {
    var r := SortDesc(paths, PriorityOf);
    forall i | 0 <= i < |r| ensures 1.0 <= r[i].priority <= 10.0 {
      assert r[i] in multiset(paths);
      var j :| 0 <= j < |paths| && paths[j] == r[i];
    }
  }

  lemma {:induction false} PathsOfShape(keys: seq<string>, ks: map<string, KnowledgeState>, lh: map<string, seq<LearningRecord>>, now: int, exp: real -> real)
    requires forall i :: 0 <= i < |keys| ==> PathReady(keys[i], ks, lh)
    ensures |PathsOf(keys, ks, lh, now, exp)| == |keys|
    ensures forall j :: 0 <= j < |keys| ==> PathsOf(keys, ks, lh, now, exp)[j].knowledgePointId == keys[j]
    ensures forall j :: 0 <= j < |keys| ==> 1.0 <= PathsOf(keys, ks, lh, now, exp)[j].priority <= 10.0
  {
    if keys != [] {
      var init := keys[..|keys| - 1];
      PathsOfShape(init, ks, lh, now, exp);
      var p := PathsOf(keys, ks, lh, now, exp);
      var q := PathsOf(init, ks, lh, now, exp);
      var k := keys[|keys| - 1];
      assert PathReady(k, ks, lh);
      assert p == q + [PathOf(ks[k], lh[k], PredictionOf(k, ks[k], now, exp), now)];
      forall j | 0 <= j < |keys| ensures p[j].knowledgePointId == keys[j] && 1.0 <= p[j].priority <= 10.0 {
        if j < |init| {
          assert p[j] == q[j] && keys[j] == init[j];
        }
      }
    }
  }
}
