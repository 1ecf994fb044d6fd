/**
 * The knowledge battle: per-round scoring with a time bonus and a combo
 * bonus, the game-over settlement, and the room in which only a player's
 * first answer per round counts. Sessions are identified by integers; the
 * clock is a parameter.
 */
module Battle {
  import opened Common
  import opened Text

  const RoundTimeoutSeconds := 20
  const BaseScore := 10

  // ---------------------------------------------------------------------------
  // Scoring and settlement
  // ---------------------------------------------------------------------------

  /** isCorrect: an answer was given and equals the correct one ignoring case. */
  predicate IsCorrect(answer: Option<string>, correct: string)
  {
    answer.Some? && EqualsIgnoreCase(answer.value, correct)
  }

  /** Half a point for every second left of the round, never negative. */
  function TimeBonus(timeUsedMs: int): (b: real)
    ensures b >= 0.0
    ensures timeUsedMs >= 0 ==> b <= 10.0
  {
    MaxR(0.0, (RoundTimeoutSeconds * 1000 - timeUsedMs) as real / 1000.0 * 0.5)
  }

  datatype RoundOutcome = RoundOutcome(combo: nat, score: int)

  /** One player's round in sendRoundResult: the new combo and the points scored. */
  function ScoreRound(correct: bool, combo: nat, timeUsedMs: int): RoundOutcome
  {
    if correct then
      var c := combo + 1;
      RoundOutcome(c, Trunc(BaseScore as real + TimeBonus(timeUsedMs) + Min(c * 2, 10) as real))
    else RoundOutcome(0, 0)
  }

  /**
   * A correct answer extends the combo and scores the base plus the combo
   * bonus at least, and at most 30 when answered within the round; a wrong
   * one breaks the combo and scores nothing.
   */
  lemma RoundScoring(correct: bool, combo: nat, timeUsedMs: int)
    ensures var o := ScoreRound(correct, combo, timeUsedMs);
      && (correct ==> o.combo == combo + 1 && o.score >= BaseScore + Min(2 * o.combo, 10))
      && (correct && timeUsedMs >= 0 ==> o.score <= 30)
      && (!correct ==> o == RoundOutcome(0, 0))
  {
    if correct {
      var c := combo + 1;
      var x := BaseScore as real + TimeBonus(timeUsedMs) + Min(c * 2, 10) as real;
      assert x >= (BaseScore + Min(c * 2, 10)) as real;
      TruncMonotone((BaseScore + Min(c * 2, 10)) as real, x);
    }
  }

  /** Answering faster never scores less. */
  lemma FasterScoresMore(combo: nat, t1: int, t2: int)
    requires t1 <= t2
    ensures ScoreRound(true, combo, t1).score >= ScoreRound(true, combo, t2).score
  {
    var c := combo + 1;
    var x1 := BaseScore as real + TimeBonus(t1) + Min(c * 2, 10) as real;
    var x2 := BaseScore as real + TimeBonus(t2) + Min(c * 2, 10) as real;
    assert TimeBonus(t1) >= TimeBonus(t2);
    TruncMonotone(x2, x1);
  }

  /** The result a player is told at game over. */
  datatype GameResult = You | Opponent | Draw

  datatype Settlement = Settlement(result1: GameResult, result2: GameResult, change1: int, change2: int)

  /** sendGameOver: the results and the recorded score changes of both players. */
  function GameOver(score1: int, score2: int): Settlement
  {
    if score1 > score2 then Settlement(You, Opponent, 20, -10)
    else if score1 < score2 then Settlement(Opponent, You, -10, 20)
    else Settlement(Draw, Draw, 5, 5)
  }

  /** The points change updatePlayerPoints applies for a result. */
  function PointsDelta(r: GameResult): int
  {
    match r
    case You => 20
    case Draw => 5
    case Opponent => -10
  }

  /** updatePlayerPoints for a known student: the stored points (null read as 0) plus the delta, never below 0. */
  function UpdatedPoints(current: Option<int>, r: GameResult): (p: int)
    ensures p >= 0
    ensures var base := if current.Some? then current.value else 0;
      base + PointsDelta(r) >= 0 ==> p == base + PointsDelta(r)
    ensures var base := if current.Some? then current.value else 0;
      base + PointsDelta(r) < 0 ==> p == 0
  {
    var currentPoints := if current.Some? then current.value else 0;
    var newPoints := currentPoints + PointsDelta(r);
    if newPoints < 0 then 0 else newPoints
  }

  /**
   * The higher score wins (+20 against -10) and equal scores draw (+5 each);
   * the recorded change agrees with the points applied; swapping the players
   * swaps the settlement.
   */
  lemma GameOverOutcome(score1: int, score2: int)
    ensures var s := GameOver(score1, score2);
      && (score1 > score2 <==> s.result1 == You)
      && (score1 < score2 <==> s.result2 == You)
      && (score1 == score2 <==> s.result1 == Draw && s.result2 == Draw)
      && s.change1 == PointsDelta(s.result1) && s.change2 == PointsDelta(s.result2)
      && GameOver(score2, score1) == Settlement(s.result2, s.result1, s.change2, s.change1)
  {
  }

  // ---------------------------------------------------------------------------
  // The room
  // ---------------------------------------------------------------------------

  /** A battle room's state; `answers` holds each question's correct answer. */
  datatype Room = Room(
    p1: int, p2: Option<int>, answers: seq<string>, currentRoundIndex: nat,
    p1Answer: Option<string>, p2Answer: Option<string>,
    p1AnswerTime: int, p2AnswerTime: int, roundStartTime: int,
    p1Score: int, p2Score: int, p1Combo: nat, p2Combo: nat)

  /** A new room: the first round, no answers, no scores. */
  function NewRoom(p1: int, p2: Option<int>, answers: seq<string>): Room
  {
    Room(p1, p2, answers, 0, None, None, 0, 0, 0, 0, 0, 0, 0)
  }

  /** submitAnswer: a player's first answer of the round is recorded with its time; later ones are ignored. */
  function Submit(r: Room, session: int, answer: string, now: int): Room
  {
    var r1 := if session == r.p1 && r.p1Answer.None? then r.(p1Answer := Some(answer), p1AnswerTime := now) else r;
    if r1.p2.Some? && session == r1.p2.value && r1.p2Answer.None? then r1.(p2Answer := Some(answer), p2AnswerTime := now)
    else r1
  }

  /** The bot's answer in a bot game is written directly, with its time. */
  function BotAnswer(r: Room, answer: string, now: int): Room
  {
    r.(p2AnswerTime := now, p2Answer := Some(answer))
  }

  predicate RoundComplete(r: Room)
  {
    r.p1Answer.Some? && r.p2Answer.Some?
  }

  predicate HasNextQuestion(r: Room)
  {
    r.currentRoundIndex < |r.answers| - 1
  }

  /** nextRound: the room moved on to the following question. */
  function Advance(r: Room): Room
  {
    r.(currentRoundIndex := r.currentRoundIndex + 1, p1Answer := None, p2Answer := None, p1AnswerTime := 0, p2AnswerTime := 0)
  }

  /** startRoundTimer records when the round started. */
  function StartRound(r: Room, now: int): Room
  {
    r.(roundStartTime := now)
  }

  /** sendRoundResult: both players' rounds are scored against the current question. */
  function RoundResult(r: Room): Room
    requires r.currentRoundIndex < |r.answers|
  {
    var correct := r.answers[r.currentRoundIndex];
    var o1 := ScoreRound(IsCorrect(r.p1Answer, correct), r.p1Combo, r.p1AnswerTime - r.roundStartTime);
    var o2 := ScoreRound(IsCorrect(r.p2Answer, correct), r.p2Combo, r.p2AnswerTime - r.roundStartTime);
    r.(p1Combo := o1.combo, p2Combo := o2.combo, p1Score := r.p1Score + o1.score, p2Score := r.p2Score + o2.score)
  }

  /**
   * Only the first answer of a player per round is stored: once recorded, a
   * player's answer and its time survive every later submission, and in a
   * room of two distinct players one player's submission leaves the other's
   * answer alone.
   */
  lemma FirstAnswerWins(r: Room, session: int, answer: string, now: int)
    ensures var r' := Submit(r, session, answer, now);
      && (r.p1Answer.Some? ==> r'.p1Answer == r.p1Answer && r'.p1AnswerTime == r.p1AnswerTime)
      && (r.p2Answer.Some? ==> r'.p2Answer == r.p2Answer && r'.p2AnswerTime == r.p2AnswerTime)
      && (session == r.p1 && r.p1Answer.None? ==> r'.p1Answer == Some(answer) && r'.p1AnswerTime == now)
      && (r.p2 != Some(r.p1) && session == r.p1 ==> r'.p2Answer == r.p2Answer)
      && r'.(p1Answer := r.p1Answer, p2Answer := r.p2Answer, p1AnswerTime := r.p1AnswerTime, p2AnswerTime := r.p2AnswerTime) == r
  {
  }

  /** A repeated submission by the same session changes nothing. */
  lemma ResubmitIgnored(r: Room, session: int, a: string, b: string, t1: int, t2: int)
    ensures var r1 := Submit(r, session, a, t1); Submit(r1, session, b, t2) == r1
  {
  }

  /** nextRound clears both answers and their times, moves one round on, and keeps the scores and combos. */
  lemma NextRoundClears(r: Room)
    ensures var r' := Advance(r);
      && r'.p1Answer.None? && r'.p2Answer.None? && !RoundComplete(r')
      && r'.currentRoundIndex == r.currentRoundIndex + 1
      && r'.p1Score == r.p1Score && r'.p2Score == r.p2Score
      && r'.p1Combo == r.p1Combo && r'.p2Combo == r.p2Combo
  {
  }

  /** Scoring a round never lowers a score, and a player who did not answer correctly loses the combo and gains nothing. */
  lemma RoundResultScores(r: Room)
    requires r.currentRoundIndex < |r.answers|
    ensures var r' := RoundResult(r); var correct := r.answers[r.currentRoundIndex];
      && r'.p1Score >= r.p1Score && r'.p2Score >= r.p2Score
      && (!IsCorrect(r.p1Answer, correct) ==> r'.p1Score == r.p1Score && r'.p1Combo == 0)
      && (!IsCorrect(r.p2Answer, correct) ==> r'.p2Score == r.p2Score && r'.p2Combo == 0)
      && (IsCorrect(r.p1Answer, correct) ==> r'.p1Combo == r.p1Combo + 1)
      && (IsCorrect(r.p2Answer, correct) ==> r'.p2Combo == r.p2Combo + 1)
  {
    var correct := r.answers[r.currentRoundIndex];
    RoundScoring(IsCorrect(r.p1Answer, correct), r.p1Combo, r.p1AnswerTime - r.roundStartTime);
    RoundScoring(IsCorrect(r.p2Answer, correct), r.p2Combo, r.p2AnswerTime - r.roundStartTime);
  }

  /** BattleRoom as a mutable object; the room's fields are those of `Room`. */
  class BattleRoom {
    var p1: int
    var p2: Option<int>
    var answers: seq<string>
    var currentRoundIndex: nat
    var p1Answer: Option<string>
    var p2Answer: Option<string>
    var p1AnswerTime: int
    var p2AnswerTime: int
    var roundStartTime: int
    var p1Score: int
    var p2Score: int
    var p1Combo: nat
    var p2Combo: nat

    function Model(): Room
      reads this
    {
      Room(p1, p2, answers, currentRoundIndex, p1Answer, p2Answer,
        p1AnswerTime, p2AnswerTime, roundStartTime, p1Score, p2Score, p1Combo, p2Combo)
    }

    constructor (player1: int, player2: Option<int>, questionAnswers: seq<string>)
      ensures Model() == NewRoom(player1, player2, questionAnswers)
    {
      p1, p2, answers := player1, player2, questionAnswers;
      currentRoundIndex := 0;
      p1Answer, p2Answer := None, None;
      p1AnswerTime, p2AnswerTime, roundStartTime := 0, 0, 0;
      p1Score, p2Score, p1Combo, p2Combo := 0, 0, 0, 0;
    }

    method SubmitAnswer(session: int, answer: string, now: int)
      modifies this
      ensures Model() == Submit(old(Model()), session, answer, now)
    {
      if session == p1 {
        if p1Answer.None? {
          p1Answer := Some(answer);
          p1AnswerTime := now;
        }
      }
      if p2.Some? && session == p2.value {
        if p2Answer.None? {
          p2Answer := Some(answer);
          p2AnswerTime := now;
        }
      }
    }

    method SetBotAnswer(answer: string, now: int)
      modifies this
      ensures Model() == BotAnswer(old(Model()), answer, now)
    {
      p2AnswerTime := now;
      p2Answer := Some(answer);
    }

    method StartRoundTimer(now: int)
      modifies this
      ensures Model() == StartRound(old(Model()), now)
    {
      roundStartTime := now;
    }

    method NextRound()
      modifies this
      ensures Model() == Advance(old(Model()))
    {
      currentRoundIndex := currentRoundIndex + 1;
      p1Answer, p2Answer := None, None;
      p1AnswerTime, p2AnswerTime := 0, 0;
    }

    method SendRoundResult()
      requires currentRoundIndex < |answers|
      modifies this
      ensures Model() == RoundResult(old(Model()))
    {
      var correct := answers[currentRoundIndex];
      var p1Correct := IsCorrect(p1Answer, correct);
      var p2Correct := IsCorrect(p2Answer, correct);
      var p1RoundScore, p2RoundScore := 0, 0;
      if p1Correct {
        p1Combo := p1Combo + 1;
        var timeBonus := TimeBonus(p1AnswerTime - roundStartTime);
        var comboBonus := Min(p1Combo * 2, 10);
        p1RoundScore := Trunc(BaseScore as real + timeBonus + comboBonus as real);
      } else {
        p1Combo := 0;
      }
      if p2Correct {
        p2Combo := p2Combo + 1;
        var timeBonus := TimeBonus(p2AnswerTime - roundStartTime);
        var comboBonus := Min(p2Combo * 2, 10);
        p2RoundScore := Trunc(BaseScore as real + timeBonus + comboBonus as real);
      } else {
        p2Combo := 0;
      }
      p1Score := p1Score + p1RoundScore;
      p2Score := p2Score + p2RoundScore;
    }
  }
}
