/**
 * The practice session store: answer checking, streaks, adaptive difficulty,
 * experience points, question navigation and achievement unlocking.
 */
module PracticeStore {
  import opened Common
  import opened Text
  import opened StringSort

  // ---------------------------------------------------------------------------
  // Answer checking
  // ---------------------------------------------------------------------------

  /** A submitted answer: one text, or the options chosen in a multiple-choice question. */
  datatype Answer = Single(text: string) | Multiple(choices: seq<string>)

  /** The reference answer as compared: trimmed, then lower-cased. */
  function CorrectForm(answer: string): string
  {
    Lower(JsTrim(answer))
  }

  /** Full-width commas replaced by ASCII ones. */
  function CommaNormal(s: string): string
  {
    ReplaceChar(s, '，', ',')
  }

  /** A text answer as compared: trimmed, lower-cased, full-width commas replaced. */
  function NormalizeUser(u: string): string
  {
    CommaNormal(Lower(JsTrim(u)))
  }

  function TrimAll(parts: seq<string>): (r: seq<string>)
    ensures |r| == |parts| && forall i :: 0 <= i < |parts| ==> r[i] == JsTrim(parts[i])
  {
    seq(|parts|, i requires 0 <= i < |parts| => JsTrim(parts[i]))
  }

  /** The alternatives of a '###'-separated answer. */
  function Parts(correctLower: string): seq<string>
  {
    TrimAll(Split(correctLower, "###"))
  }

  /** The comma-separated fields of a text, trimmed. */
  function Fields(p: string): seq<string>
  {
    TrimAll(Split(p, ","))
  }

  /** The first alternative that contains a comma: the template of a multi-blank answer. */
  function FirstWithComma(parts: seq<string>): (r: Option<string>)
    ensures r.Some? ==> r.value in parts && Contains(r.value, ",")
    ensures r.None? ==> forall k :: 0 <= k < |parts| ==> !Contains(parts[k], ",")
  {
    if parts == [] then None
    else if Contains(parts[0], ",") then Some(parts[0])
    else FirstWithComma(parts[1..])
  }

  /**
   * The accepted values of blank `index` of `n`: the non-empty field at that
   * position of each alternative with commas, and every alternative without
   * commas when it is the last blank.
   */
  function Possible(parts: seq<string>, index: nat, n: int): seq<string>
  {
    if parts == [] then []
    else
      var p := parts[0];
      var here :=
        if Contains(p, ",") then
          var fields := Fields(p);
          if index < |fields| && fields[index] != "" then [fields[index]] else []
        else if index == n - 1 then [p]
        else [];
      here + Possible(parts[1..], index, n)
  }

  /** A text answer against the reference answer in compared form. */
  function CheckSingle(correctAnswer: string, u: string): bool
  {
    var correctLower := CommaNormal(correctAnswer);
    var user := NormalizeUser(u);
    if !Contains(correctLower, "###") then user == correctLower
    else
      var parts := Parts(correctLower);
      var templatePart := FirstWithComma(parts);
      if templatePart.Some? && Contains(user, ",") then
        var templateFields := Fields(templatePart.value);
        var userFields := Fields(user);
        if |templateFields| != |userFields| then user in parts
        else forall index :: 0 <= index < |templateFields| ==> userFields[index] in Possible(parts, index, |templateFields|)
      else user in parts
  }

  /** Chosen options against the reference answer in compared form: sorted, joined with commas, lower-cased. */
  function CheckMultiple(correctAnswer: string, choices: seq<string>): bool
  {
    Lower(Join(SortStrings(choices), ",")) == correctAnswer
  }

  /** checkAnswer against the question's reference answer. */
  function CheckAnswer(questionAnswer: string, answer: Answer): bool
  {
    match answer
    case Multiple(choices) => CheckMultiple(CorrectForm(questionAnswer), choices)
    case Single(u) => CheckSingle(CorrectForm(questionAnswer), u)
  }

  /** The chosen options are compared as a set: their order does not matter. */
  lemma MultipleIgnoresOrder(questionAnswer: string, a: seq<string>, b: seq<string>)
    requires multiset(a) == multiset(b)
    ensures CheckAnswer(questionAnswer, Multiple(a)) == CheckAnswer(questionAnswer, Multiple(b))
  {
    SortIgnoresOrder(a, b);
  }

  /** When the reference answer is the sorted options joined with commas, every arrangement of those options is accepted. */
  lemma MultipleReferenceAccepted(questionAnswer: string, options: seq<string>, shuffled: seq<string>)
    requires CorrectForm(questionAnswer) == Lower(Join(SortStrings(options), ","))
    requires multiset(shuffled) == multiset(options)
    ensures CheckAnswer(questionAnswer, Multiple(shuffled))
  {
    SortIgnoresOrder(shuffled, options);
  }

  lemma LowerIdempotentChar(c: char)
    ensures LowerChar(LowerChar(c)) == LowerChar(c)
  {
  }

  lemma JsTrimEnds(u: string)
    ensures var t := JsTrim(u); t != [] ==> !IsJsSpace(t[0]) && !IsJsSpace(t[|t| - 1])
  {
    var s := TrimStart(u, IsJsSpace);
    var t := JsTrim(u);
    assert t == TrimEnd(s, IsJsSpace) && t == s[..|t|];
  }

  /** Lower-casing and replacing full-width commas turn no character into a blank. */
  lemma NormalKeepsNonBlank(t: string, i: nat)
    requires i < |t| && !IsJsSpace(t[i])
    ensures !IsJsSpace(CommaNormal(Lower(t))[i])
  {
    assert CommaNormal(Lower(t))[i] == if LowerChar(t[i]) == '，' then ',' else LowerChar(t[i]);
  }

  /** Each step of the normalisation leaves a normalised letter alone. */
  lemma NormalCharsFixed(t: string)
    ensures var r := CommaNormal(Lower(t)); Lower(r) == r && CommaNormal(r) == r
  {
    var r := CommaNormal(Lower(t));
    forall i | 0 <= i < |r| ensures LowerChar(r[i]) == r[i] {
      LowerIdempotentChar(t[i]);
    }
  }

  /** Lower-casing and replacing full-width commas in a trimmed text gives a text each of the three steps leaves alone. */
  lemma NormalFormFixed(t: string)
    requires t != [] ==> !IsJsSpace(t[0]) && !IsJsSpace(t[|t| - 1])
    ensures var r := CommaNormal(Lower(t)); JsTrim(r) == r && Lower(r) == r && CommaNormal(r) == r
  {
    var r := CommaNormal(Lower(t));
    if r != [] {
      NormalKeepsNonBlank(t, 0);
      NormalKeepsNonBlank(t, |t| - 1);
      TrimKeeps(r, IsJsSpace);
    }
    NormalCharsFixed(t);
  }

  /** Normalising a normalised answer changes nothing. */
  lemma NormalizeIdempotent(u: string)
    ensures NormalizeUser(NormalizeUser(u)) == NormalizeUser(u)
  {
    JsTrimEnds(u);
    NormalFormFixed(JsTrim(u));
  }

  /**
   * Blanks around the answer, letter case and full-width commas do not
   * matter: a text answer gets the verdict of its normalised form.
   */
  lemma SingleVerdictOfNormalForm(questionAnswer: string, u: string)
    ensures CheckAnswer(questionAnswer, Single(u)) == CheckAnswer(questionAnswer, Single(NormalizeUser(u)))
  {
    NormalizeIdempotent(u);
  }

  /** Without '###', the stored answer itself is accepted. */
  lemma SingleReferenceAccepted(questionAnswer: string)
    requires !Contains(CommaNormal(CorrectForm(questionAnswer)), "###")
    ensures CheckAnswer(questionAnswer, Single(questionAnswer))
  {
  }

  /** With '###', an answer equal to a listed alternative is accepted unless the multi-blank rule applies. */
  lemma AlternativeAccepted(questionAnswer: string, u: string, k: int)
    requires var correctLower := CommaNormal(CorrectForm(questionAnswer));
      && Contains(correctLower, "###")
      && 0 <= k < |Parts(correctLower)| && NormalizeUser(u) == Parts(correctLower)[k]
      && (FirstWithComma(Parts(correctLower)).None? || !Contains(NormalizeUser(u), ","))
    ensures CheckAnswer(questionAnswer, Single(u))
  {
  }

  lemma PossibleIncludes(parts: seq<string>, k: int, index: nat, n: int)
    requires 0 <= k < |parts| && Contains(parts[k], ",")
    requires index < |Fields(parts[k])| && Fields(parts[k])[index] != ""
    ensures Fields(parts[k])[index] in Possible(parts, index, n)
  {
    if k > 0 {
      PossibleIncludes(parts[1..], k - 1, index, n);
    }
  }

  /** In the multi-blank rule as well, an alternative whose comma fields are all filled in is accepted as typed. */
  lemma FilledAlternativeAccepted(questionAnswer: string, u: string, k: int)
    requires var correctLower := CommaNormal(CorrectForm(questionAnswer));
      && Contains(correctLower, "###")
      && 0 <= k < |Parts(correctLower)| && NormalizeUser(u) == Parts(correctLower)[k]
      && forall i :: 0 <= i < |Fields(NormalizeUser(u))| ==> Fields(NormalizeUser(u))[i] != ""
    ensures CheckAnswer(questionAnswer, Single(u))
  {
    var parts := Parts(CommaNormal(CorrectForm(questionAnswer)));
    var user := NormalizeUser(u);
    var templatePart := FirstWithComma(parts);
    if templatePart.Some? && Contains(user, ",") {
      var n := |Fields(templatePart.value)|;
      if n == |Fields(user)| {
        forall index | 0 <= index < n ensures Fields(user)[index] in Possible(parts, index, n) {
          PossibleIncludes(parts, k, index, n);
        }
      }
    }
  }

  // ---------------------------------------------------------------------------
  // Adaptive difficulty
  // ---------------------------------------------------------------------------

  /** The score of one answer: 1 if correct, +0.2 under 30 s, -0.1 over 120 s, clamped to [0, 1.2]. */
  function PerformanceScore(isCorrect: bool, timeSpent: real): (p: real)
    ensures 0.0 <= p <= 1.2
  {
    var base := if isCorrect then 1.0 else 0.0;
    var adjusted :=
      if isCorrect && timeSpent < 30.0 then base + 0.2
      else if isCorrect && timeSpent > 120.0 then base - 0.1
      else base;
    MaxR(0.0, MinR(1.2, adjusted))
  }

  lemma PerformanceScoreCases(isCorrect: bool, timeSpent: real)
    ensures !isCorrect ==> PerformanceScore(isCorrect, timeSpent) == 0.0
    ensures isCorrect && timeSpent < 30.0 ==> PerformanceScore(isCorrect, timeSpent) == 1.2
    ensures isCorrect && timeSpent > 120.0 ==> PerformanceScore(isCorrect, timeSpent) == 0.9
    ensures isCorrect && 30.0 <= timeSpent <= 120.0 ==> PerformanceScore(isCorrect, timeSpent) == 1.0
  {
  }

  /** The last ten performance scores: push, then drop the oldest beyond ten. */
  function RecordPerformance(recent: seq<real>, score: real): seq<real>
  {
    var pushed := recent + [score];
    if |pushed| > 10 then pushed[1..] else pushed
  }

  function SumR(s: seq<real>): real
  {
    if s == [] then 0.0 else SumR(s[..|s| - 1]) + s[|s| - 1]
  }

  function Mean(s: seq<real>): real
    requires s != []
  {
    SumR(s) / |s| as real
  }

  function AdjustLevel(level: real, avg: real): real
  {
    if avg > 0.8 && level < 5.0 then MinR(5.0, level + 0.5)
    else if avg < 0.4 && level > 1.0 then MaxR(1.0, level - 0.5)
    else level
  }

  datatype Adjustment = Adjustment(timestamp: int, oldLevel: real, newLevel: real, reason: string, performanceScore: real)

  const RaiseReason := "表现优秀，提升难度"
  const LowerReason := "需要调整，降低难度"

  /** The difficulty state and the mirror of it kept in the adaptive history. */
  datatype Adaptive = Adaptive(
    difficultyLevel: real, recentPerformance: seq<real>, adjustmentHistory: seq<Adjustment>,
    historyLevel: real, historyPerformance: seq<real>)

  /** updateAdaptiveDifficulty; `now` is the time stamp of a logged adjustment. */
  function Adapt(a: Adaptive, isCorrect: bool, timeSpent: real, now: int): Adaptive
  {
    var recent := RecordPerformance(a.recentPerformance, PerformanceScore(isCorrect, timeSpent));
    var avg := Mean(recent);
    var level := AdjustLevel(a.difficultyLevel, avg);
    var history :=
      if a.difficultyLevel != level then
        a.adjustmentHistory + [Adjustment(now, a.difficultyLevel, level, if avg > 0.8 then RaiseReason else LowerReason, avg)]
      else a.adjustmentHistory;
    Adaptive(level, recent, history, level, recent)
  }

  /** The level lies in [1, 5] and at most ten scores in [0, 1.2] are kept. */
  predicate AdaptiveValid(a: Adaptive)
  {
    && 1.0 <= a.difficultyLevel <= 5.0
    && |a.recentPerformance| <= 10
    && forall k :: 0 <= k < |a.recentPerformance| ==> 0.0 <= a.recentPerformance[k] <= 1.2
  }

  lemma {:induction false} SumBounds(s: seq<real>)
    requires forall k :: 0 <= k < |s| ==> 0.0 <= s[k] <= 1.2
    ensures 0.0 <= SumR(s) <= 1.2 * |s| as real
  {
    if s != [] {
      SumBounds(s[..|s| - 1]);
    }
  }

  /**
   * An update keeps the state valid, moves the level by at most 0.5, raises
   * it only on an average above 0.8 and lowers it only on one below 0.4, and
   * the mirror in the history follows the state.
   */
  lemma AdaptKeepsBounds(a: Adaptive, isCorrect: bool, timeSpent: real, now: int)
    requires AdaptiveValid(a)
    ensures var a' := Adapt(a, isCorrect, timeSpent, now);
      && AdaptiveValid(a')
      && -0.5 <= a'.difficultyLevel - a.difficultyLevel <= 0.5
      && (a'.difficultyLevel > a.difficultyLevel ==> Mean(a'.recentPerformance) > 0.8)
      && (a'.difficultyLevel < a.difficultyLevel ==> Mean(a'.recentPerformance) < 0.4)
      && a'.historyLevel == a'.difficultyLevel && a'.historyPerformance == a'.recentPerformance
      && a'.recentPerformance[|a'.recentPerformance| - 1] == PerformanceScore(isCorrect, timeSpent)
  {
  }

  /** An adjustment is logged exactly when the level changed, and records the change. */
  lemma AdjustmentLoggedIffChanged(a: Adaptive, isCorrect: bool, timeSpent: real, now: int)
    ensures var a' := Adapt(a, isCorrect, timeSpent, now);
      && (a'.difficultyLevel != a.difficultyLevel <==> |a'.adjustmentHistory| == |a.adjustmentHistory| + 1)
      && (a'.difficultyLevel == a.difficultyLevel ==> a'.adjustmentHistory == a.adjustmentHistory)
      && (a'.difficultyLevel != a.difficultyLevel ==>
            && a'.adjustmentHistory[..|a.adjustmentHistory|] == a.adjustmentHistory
            && var last := a'.adjustmentHistory[|a.adjustmentHistory|];
               last.oldLevel == a.difficultyLevel && last.newLevel == a'.difficultyLevel && last.timestamp == now
               && (last.reason == RaiseReason <==> last.newLevel > last.oldLevel))
  {
    var a' := Adapt(a, isCorrect, timeSpent, now);
    if a'.difficultyLevel != a.difficultyLevel {
      assert RaiseReason[0] != LowerReason[0];
    }
  }

  /** The mean of valid scores is itself between 0 and 1.2. */
  lemma MeanBounds(s: seq<real>)
    requires s != [] && forall k :: 0 <= k < |s| ==> 0.0 <= s[k] <= 1.2
    ensures 0.0 <= Mean(s) <= 1.2
  {
    SumBounds(s);
    var n := |s| as real;
    assert SumR(s) / n <= (1.2 * n) / n;
  }

  // ---------------------------------------------------------------------------
  // Experience
  // ---------------------------------------------------------------------------

  /** calculateXpGain with the streak as it stands after the answer. */
  function XpGain(isCorrect: bool, timeSpent: real, difficulty: int, streak: nat): int
  {
    if !isCorrect then 0
    else
      var speedBonus := if timeSpent < 30.0 then 10 else if timeSpent < 60.0 then 5 else 0;
      10 + difficulty * 5 + speedBonus + Min(streak * 2, 20)
  }

  /** No experience for a wrong answer; a right one earns 10 plus 5 per difficulty level plus at most 10 for speed and 20 for the streak. */
  lemma XpGainBounds(isCorrect: bool, timeSpent: real, difficulty: int, streak: nat)
    ensures !isCorrect ==> XpGain(isCorrect, timeSpent, difficulty, streak) == 0
    ensures isCorrect ==> 10 + 5 * difficulty <= XpGain(isCorrect, timeSpent, difficulty, streak) <= 40 + 5 * difficulty
    ensures isCorrect && streak >= 10 ==> XpGain(isCorrect, timeSpent, difficulty, streak) == XpGain(isCorrect, timeSpent, difficulty, 10)
  {
  }

  /** A longer streak and a faster answer never earn less. */
  lemma XpGainMonotone(isCorrect: bool, t1: real, t2: real, difficulty: int, s1: nat, s2: nat)
    requires t2 <= t1 && s1 <= s2
    ensures XpGain(isCorrect, t1, difficulty, s1) <= XpGain(isCorrect, t2, difficulty, s2)
  {
  }

  /** userLevel: one level per thousand experience points, starting at 1. */
  function UserLevel(totalXp: int): int
  {
    Floor(totalXp as real / 1000.0) + 1
  }

  lemma UserLevelBand(totalXp: int)
    ensures (UserLevel(totalXp) - 1) * 1000 <= totalXp < UserLevel(totalXp) * 1000
    ensures totalXp >= 0 ==> UserLevel(totalXp) >= 1
  {
    var l := UserLevel(totalXp) - 1;
    assert l as real <= totalXp as real / 1000.0 < l as real + 1.0;
    assert (l * 1000) as real == l as real * 1000.0;
  }

  // ---------------------------------------------------------------------------
  // Navigation and achievements
  // ---------------------------------------------------------------------------

  function NextIndex(index: int, count: int): int
  {
    if index < count - 1 then index + 1 else index
  }

  function PreviousIndex(index: int): int
  {
    if index > 0 then index - 1 else index
  }

  function GoToIndex(index: int, count: int, target: int): int
  {
    if 0 <= target < count then target else index
  }

  /** The current index points at a question, or is 0 when there are none. */
  predicate IndexInRange(index: int, count: int)
  {
    0 <= index && (index < count || index == 0)
  }

  lemma NavigationKeepsIndex(index: int, count: int, target: int)
    requires IndexInRange(index, count)
    ensures IndexInRange(NextIndex(index, count), count)
    ensures IndexInRange(PreviousIndex(index), count)
    ensures IndexInRange(GoToIndex(index, count, target), count)
    ensures 0 <= target < count ==> GoToIndex(index, count, target) == target
    ensures NextIndex(index, count) - index in {0, 1} && index - PreviousIndex(index) in {0, 1}
  {
  }

  datatype Achievement = Achievement(id: string, rewardXp: int, unlockedAt: Option<int>)

  predicate HasAchievement(achievements: seq<Achievement>, id: string)
  {
    exists k :: 0 <= k < |achievements| && achievements[k].id == id
  }

  /** unlockAchievement on (achievements, total experience). */
  function Unlock(achievements: seq<Achievement>, totalXp: int, a: Achievement, now: int): (seq<Achievement>, int)
  {
    if HasAchievement(achievements, a.id) then (achievements, totalXp)
    else (achievements + [a.(unlockedAt := Some(now))], totalXp + a.rewardXp)
  }

  /** Unlocking is idempotent by id: the reward is granted once, and a second unlock changes nothing. */
  lemma UnlockIdempotent(achievements: seq<Achievement>, totalXp: int, a: Achievement, t1: int, t2: int)
    ensures var (achs1, xp1) := Unlock(achievements, totalXp, a, t1);
      && HasAchievement(achs1, a.id)
      && Unlock(achs1, xp1, a, t2) == (achs1, xp1)
      && xp1 == totalXp + (if HasAchievement(achievements, a.id) then 0 else a.rewardXp)
  {
    var (achs1, xp1) := Unlock(achievements, totalXp, a, t1);
    if !HasAchievement(achievements, a.id) {
      assert achs1[|achievements|].id == a.id;
    }
  }

  // ---------------------------------------------------------------------------
  // The store
  // ---------------------------------------------------------------------------

  datatype Question = Question(id: int, answer: string, difficulty: int)

  datatype UserAnswer = UserAnswer(questionId: int, answer: Answer, isCorrect: bool, timeSpent: real, submitTime: int)

  /** The counters of the current session. */
  datatype Session = Session(correctCount: int, wrongCount: int, maxStreak: int, xpGained: int)

  datatype Practice = Practice(
    questions: seq<Question>, currentIndex: int, userAnswers: map<int, UserAnswer>, adaptive: Adaptive,
    achievements: seq<Achievement>, currentStreak: nat, totalXp: int, session: Option<Session>)

  /** The first question with id `id`. */
  function FindQuestion(questions: seq<Question>, id: int): (r: Option<Question>)
    ensures r.Some? ==> r.value in questions && r.value.id == id
    ensures r.None? ==> forall k :: 0 <= k < |questions| ==> questions[k].id != id
  {
    if questions == [] then None
    else if questions[0].id == id then Some(questions[0])
    else FindQuestion(questions[1..], id)
  }

  /** The answer as stored: sorting the chosen options sorts the caller's array in place. */
  function StoredAnswer(answer: Answer): Answer
  {
    match answer
    case Single(_) => answer
    case Multiple(choices) => Multiple(SortStrings(choices))
  }

  /** The session counters after a verdict: one more right answer and the best streak, or one more wrong answer. */
  function CountVerdict(session: Option<Session>, isCorrect: bool, streak: nat): Option<Session>
  {
    match session
    case None => None
    case Some(s) =>
      if isCorrect then Some(s.(correctCount := s.correctCount + 1, maxStreak := Max(s.maxStreak, streak)))
      else Some(s.(wrongCount := s.wrongCount + 1))
  }

  /** The session's experience after a gain. */
  function AddGain(session: Option<Session>, xp: int): Option<Session>
  {
    match session
    case None => None
    case Some(s) => Some(s.(xpGained := s.xpGained + xp))
  }

  /** submitAnswer on the store's state. */
  function Submit(st: Practice, questionId: int, answer: Answer, timeSpent: real, now: int): Practice
  {
    match FindQuestion(st.questions, questionId)
    case None => st
    case Some(q) => Record(st, q, answer, CheckAnswer(q.answer, answer), timeSpent, now)
  }

  /** The state after answering `q` with `answer`, given the verdict. */
  function Record(st: Practice, q: Question, answer: Answer, isCorrect: bool, timeSpent: real, now: int): Practice
  {
    var streak := if isCorrect then st.currentStreak + 1 else 0;
    var xp := XpGain(isCorrect, timeSpent, q.difficulty, streak);
    st.(userAnswers := st.userAnswers[q.id := UserAnswer(q.id, StoredAnswer(answer), isCorrect, timeSpent, now)],
        adaptive := Adapt(st.adaptive, isCorrect, timeSpent, now),
        currentStreak := streak, totalXp := st.totalXp + xp, session := AddGain(CountVerdict(st.session, isCorrect, streak), xp))
  }

  /** Record with the streak and the gain named, for proofs where the verdict is a computed value. */
  lemma RecordUnfolds(st: Practice, q: Question, answer: Answer, isCorrect: bool, timeSpent: real, now: int, streak: nat, xp: int)
    requires streak == (if isCorrect then st.currentStreak + 1 else 0)
    requires xp == XpGain(isCorrect, timeSpent, q.difficulty, streak)
    ensures Record(st, q, answer, isCorrect, timeSpent, now)
      == st.(userAnswers := st.userAnswers[q.id := UserAnswer(q.id, StoredAnswer(answer), isCorrect, timeSpent, now)],
             adaptive := Adapt(st.adaptive, isCorrect, timeSpent, now),
             currentStreak := streak, totalXp := st.totalXp + xp, session := AddGain(CountVerdict(st.session, isCorrect, streak), xp))
  {
  }

  /** An answer to a question not in the practice changes nothing. */
  lemma SubmitUnknownQuestion(st: Practice, questionId: int, answer: Answer, timeSpent: real, now: int)
    requires forall k :: 0 <= k < |st.questions| ==> st.questions[k].id != questionId
    ensures Submit(st, questionId, answer, timeSpent, now) == st
  {
  }

  /** The session counts one more answer, of the right kind, and the experience it earned; a right answer's streak is within the best streak. */
  lemma SessionCounts(session: Option<Session>, isCorrect: bool, streak: nat, xp: int)
    ensures var s' := AddGain(CountVerdict(session, isCorrect, streak), xp);
      && (session.Some? <==> s'.Some?)
      && (session.Some? ==>
            && s'.value.correctCount == session.value.correctCount + (if isCorrect then 1 else 0)
            && s'.value.wrongCount == session.value.wrongCount + (if isCorrect then 0 else 1)
            && s'.value.xpGained == session.value.xpGained + xp
            && s'.value.maxStreak >= session.value.maxStreak
            && (isCorrect ==> s'.value.maxStreak >= streak)
            && (!isCorrect ==> s'.value.maxStreak == session.value.maxStreak))
  {
  }

  /** The verdict is stored with the answer under the question's id, and no other question's answer changes. */
  lemma SubmitSavesAnswer(st: Practice, q: Question, answer: Answer, timeSpent: real, now: int)
    requires FindQuestion(st.questions, q.id) == Some(q)
    ensures Submit(st, q.id, answer, timeSpent, now).userAnswers.Keys == st.userAnswers.Keys + {q.id}
    ensures Submit(st, q.id, answer, timeSpent, now).userAnswers[q.id].isCorrect == CheckAnswer(q.answer, answer)
    ensures forall id :: id in st.userAnswers && id != q.id ==> Submit(st, q.id, answer, timeSpent, now).userAnswers[id] == st.userAnswers[id]
  {
    var isCorrect := CheckAnswer(q.answer, answer);
    var streak := if isCorrect then st.currentStreak + 1 else 0;
    RecordUnfolds(st, q, answer, isCorrect, timeSpent, now, streak, XpGain(isCorrect, timeSpent, q.difficulty, streak));
    var saved := UserAnswer(q.id, StoredAnswer(answer), isCorrect, timeSpent, now);
    assert Submit(st, q.id, answer, timeSpent, now).userAnswers == st.userAnswers[q.id := saved];
    MapUpdateKeys(st.userAnswers, q.id, saved);
  }

  lemma MapUpdateKeys<K, V>(m: map<K, V>, k: K, v: V)
    ensures m[k := v].Keys == m.Keys + {k}
    ensures m[k := v][k] == v
    ensures forall j :: j in m && j != k ==> m[k := v][j] == m[j]
  {
  }

  /**
   * A right answer extends the streak and a wrong one breaks it; the
   * experience grows by the gain for the new streak, and the session counts
   * the verdict and the gain.
   */
  lemma SubmitCounts(st: Practice, q: Question, answer: Answer, timeSpent: real, now: int)
    requires FindQuestion(st.questions, q.id) == Some(q)
    ensures var st' := Submit(st, q.id, answer, timeSpent, now);
      var isCorrect := CheckAnswer(q.answer, answer);
      && st'.currentStreak == (if isCorrect then st.currentStreak + 1 else 0)
      && st'.totalXp == st.totalXp + XpGain(isCorrect, timeSpent, q.difficulty, st'.currentStreak)
      && st'.session == AddGain(CountVerdict(st.session, isCorrect, st'.currentStreak), st'.totalXp - st.totalXp)
  {
    var isCorrect := CheckAnswer(q.answer, answer);
    var streak := if isCorrect then st.currentStreak + 1 else 0;
    RecordUnfolds(st, q, answer, isCorrect, timeSpent, now, streak, XpGain(isCorrect, timeSpent, q.difficulty, streak));
  }

  /** Submitting leaves the questions, the position and the achievements alone. */
  lemma SubmitKeeps(st: Practice, questionId: int, answer: Answer, timeSpent: real, now: int)
    ensures Submit(st, questionId, answer, timeSpent, now).questions == st.questions
    ensures Submit(st, questionId, answer, timeSpent, now).currentIndex == st.currentIndex
    ensures Submit(st, questionId, answer, timeSpent, now).achievements == st.achievements
  {
  }

  /** The practice store of the front end; persistence to local storage is not modelled. */
  class PracticeStoreState {
    var questions: seq<Question>
    var currentIndex: int
    var userAnswers: map<int, UserAnswer>
    var adaptive: Adaptive
    var achievements: seq<Achievement>
    var currentStreak: nat
    var totalXp: int
    var session: Option<Session>

    function Model(): Practice
      reads this
    {
      Practice(questions, currentIndex, userAnswers, adaptive, achievements, currentStreak, totalXp, session)
    }

    constructor ()
      ensures Model() == Practice([], 0, map[], Adaptive(3.0, [], [], 3.0, []), [], 0, 0, None)
    {
      questions := [];
      currentIndex := 0;
      userAnswers := map[];
      adaptive := Adaptive(3.0, [], [], 3.0, []);
      achievements := [];
      currentStreak := 0;
      totalXp := 0;
      session := None;
    }

    /** startPractice: a fresh session over `qs`, at the first question. */
    method StartPractice(qs: seq<Question>)
      modifies this
      ensures Model() == old(Model()).(questions := qs, currentIndex := 0, userAnswers := map[], session := Some(Session(0, 0, 0, 0)))
    {
      session := Some(Session(0, 0, 0, 0));
      questions := qs;
      currentIndex := 0;
      userAnswers := map[];
    }

    method UpdateAdaptiveDifficulty(isCorrect: bool, timeSpent: real, now: int)
      modifies this`adaptive
      ensures Model() == old(Model()).(adaptive := Adapt(old(adaptive), isCorrect, timeSpent, now))
    {
      var performanceScore := PerformanceScore(isCorrect, timeSpent);
      var recent := adaptive.recentPerformance + [performanceScore];
      if |recent| > 10 {
        recent := recent[1..];
      }
      var avgPerformance := Mean(recent);
      var oldLevel := adaptive.difficultyLevel;
      var level := oldLevel;
      if avgPerformance > 0.8 && level < 5.0 {
        level := MinR(5.0, level + 0.5);
      } else if avgPerformance < 0.4 && level > 1.0 {
        level := MaxR(1.0, level - 0.5);
      }
      var history := adaptive.adjustmentHistory;
      if oldLevel != level {
        history := history + [Adjustment(now, oldLevel, level, if avgPerformance > 0.8 then RaiseReason else LowerReason, avgPerformance)];
      }
      adaptive := Adaptive(level, recent, history, level, recent);
    }

    method SubmitAnswer(questionId: int, answer: Answer, timeSpent: real, now: int)
      modifies this
      ensures Model() == Submit(old(Model()), questionId, answer, timeSpent, now)
    {
      ghost var before := Model();
      var found := FindQuestion(questions, questionId);
      if found.None? {
        return;
      }
      var question := found.value;
      var isCorrect := CheckAnswer(question.answer, answer);
      SaveAnswer(question.id, answer, isCorrect, timeSpent, now);
      CountStats(isCorrect);
      UpdateAdaptiveDifficulty(isCorrect, timeSpent, now);
      var xpGain := XpGain(isCorrect, timeSpent, question.difficulty, currentStreak);
      GainXp(xpGain);
      RecordUnfolds(before, question, answer, isCorrect, timeSpent, now, currentStreak, xpGain);
    }

    /** Saving the answer record of submitAnswer. */
    method SaveAnswer(questionId: int, answer: Answer, isCorrect: bool, timeSpent: real, now: int)
      modifies this`userAnswers
      ensures Model() == old(Model()).(userAnswers := old(userAnswers)[questionId := UserAnswer(questionId, StoredAnswer(answer), isCorrect, timeSpent, now)])
    {
      userAnswers := userAnswers[questionId := UserAnswer(questionId, StoredAnswer(answer), isCorrect, timeSpent, now)];
    }

    /** The streak and session counters of submitAnswer. */
    method CountStats(isCorrect: bool)
      modifies this`currentStreak, this`session
      ensures currentStreak == if isCorrect then old(currentStreak) + 1 else 0
      ensures Model() == old(Model()).(currentStreak := currentStreak, session := CountVerdict(old(session), isCorrect, currentStreak))
    {
      if isCorrect {
        currentStreak := currentStreak + 1;
        if session.Some? {
          var s := session.value;
          session := Some(s.(correctCount := s.correctCount + 1, maxStreak := Max(s.maxStreak, currentStreak)));
        }
      } else {
        currentStreak := 0;
        if session.Some? {
          session := Some(session.value.(wrongCount := session.value.wrongCount + 1));
        }
      }
    }

    /** Adding the experience of submitAnswer to the total and to the session. */
    method GainXp(xp: int)
      modifies this`totalXp, this`session
      ensures Model() == old(Model()).(totalXp := old(totalXp) + xp, session := AddGain(old(session), xp))
    {
      totalXp := totalXp + xp;
      if session.Some? {
        session := Some(session.value.(xpGained := session.value.xpGained + xp));
      }
    }

    method NextQuestion()
      modifies this
      ensures Model() == old(Model()).(currentIndex := NextIndex(old(currentIndex), |questions|))
    {
      if currentIndex < |questions| - 1 {
        currentIndex := currentIndex + 1;
      }
    }

    method PreviousQuestion()
      modifies this
      ensures Model() == old(Model()).(currentIndex := PreviousIndex(old(currentIndex)))
    {
      if currentIndex > 0 {
        currentIndex := currentIndex - 1;
      }
    }

    method GoToQuestion(index: int)
      modifies this
      ensures Model() == old(Model()).(currentIndex := GoToIndex(old(currentIndex), |questions|, index))
    {
      if index >= 0 && index < |questions| {
        currentIndex := index;
      }
    }

    method UnlockAchievement(a: Achievement, now: int)
      modifies this
      ensures (achievements, totalXp) == Unlock(old(achievements), old(totalXp), a, now)
      ensures Model() == old(Model()).(achievements := achievements, totalXp := totalXp)
    {
      var i := 0;
      while i < |achievements|
        invariant 0 <= i <= |achievements|
        invariant forall k :: 0 <= k < i ==> achievements[k].id != a.id
      {
        if achievements[i].id == a.id {
          return;
        }
        i := i + 1;
      }
      achievements := achievements + [a.(unlockedAt := Some(now))];
      totalXp := totalXp + a.rewardXp;
    }
  }
}
