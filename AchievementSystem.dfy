/**
 * The learning achievement system of the front end: experience and levels,
 * titles and perks, achievements unlocked from learning statistics, and the
 * legendary badges.
 */
module AchievementSystem {
  import opened Common

  // ---------------------------------------------------------------------------
  // Levels
  // ---------------------------------------------------------------------------

  datatype UserLevel = UserLevel(level: int, title: string, currentExp: int, expToNextLevel: int, totalExp: int, perks: seq<string>)

  function ThreePow(n: nat): (r: nat)
  {
    if n == 0 then 1 else 3 * ThreePow(n - 1)
  }

  /** 2^n, which exceeds n (so it is never zero as a divisor). */
  function TwoPow(n: nat): (r: nat)
    ensures r > n
  {
    if n == 0 then 1 else 2 * TwoPow(n - 1)
  }

  /** calculateExpForNextLevel: floor(100 * 1.5^(level - 1)), computed exactly as 100 * 3^(level-1) / 2^(level-1). */
  function ExpForNextLevel(level: int): int
    requires level >= 1
  {
    FloorDiv(100 * ThreePow(level - 1), TwoPow(level - 1))
  }

  /** Integer division by repeated subtraction. */
  function FloorDiv(a: nat, b: nat): nat
    requires b > 0
    decreases a
  {
    if a < b then 0 else 1 + FloorDiv(a - b, b)
  }

  /** FloorDiv is the floor of the quotient. */
  lemma {:induction false} FloorDivIsDiv(a: nat, b: nat)
    requires b > 0
    ensures FloorDiv(a, b) == a / b
    decreases a
  {
    if a >= b {
      FloorDivIsDiv(a - b, b);
      DivStep(a, b);
    }
  }

  lemma DivStep(a: int, b: int)
    requires b > 0 && a >= b
    ensures (a - b) / b == a / b - 1
  {
    var q, r := (a - b) / b, (a - b) % b;
    assert a == (q + 1) * b + r;
    DivUnique(a, b, q + 1, r);
  }

  lemma DivUnique(a: int, b: int, q: int, r: int)
    requires b > 0 && 0 <= r < b && a == q * b + r
    ensures a / b == q
  {
    var q', r' := a / b, a % b;
    assert a == q' * b + r';
    if q' < q {
      MulLe(q' + 1, q, b);
    } else if q' > q {
      MulLe(q + 1, q', b);
    }
  }

  lemma {:induction false} PowGrowth(n: nat)
    ensures ThreePow(n) >= TwoPow(n) >= 1
  {
    if n > 0 {
      PowGrowth(n - 1);
    }
  }

  /** The threshold is never below 100, so every level-up uses up experience. */
  lemma ExpForNextLevelAtLeast100(level: int)
    requires level >= 1
    ensures ExpForNextLevel(level) >= 100
  {
    var a, b := ThreePow(level - 1), TwoPow(level - 1);
    PowGrowth(level - 1);
    FloorDivIsDiv(100 * a, b);
    MulLe(b, a, 100);
    DivAtLeast(100 * a, b, 100);
  }

  lemma DivAtLeast(x: int, d: int, q: int)
    requires d > 0 && x >= q * d
    ensures x / d >= q
  {
    var k := x / d;
    assert x == k * d + x % d;
    if k < q {
      MulLe(k, q - 1, d);
    }
  }

  /** Every level needs at least half as much again (rounded down) as the one before. */
  lemma ExpForNextLevelGrows(level: int)
    requires level >= 1
    ensures ExpForNextLevel(level + 1) >= ExpForNextLevel(level) + ExpForNextLevel(level) / 2
  {
    var a, b := ThreePow(level - 1), TwoPow(level - 1);
    FloorDivIsDiv(100 * a, b);
    FloorDivIsDiv(100 * ThreePow(level), TwoPow(level));
    assert ThreePow(level) == 3 * a && TwoPow(level) == 2 * b;
    GrowthStep(100 * a, b);
  }

  /** Multiplying the dividend by 3 and the divisor by 2 gains at least half the quotient. */
  lemma GrowthStep(x: int, b: int)
    requires x >= 0 && b > 0
    ensures (3 * x) / (2 * b) >= x / b + (x / b) / 2
  {
    var q := x / b;
    assert x >= q * b;
    var h := q + q / 2;
    assert 3 * x >= h * (2 * b) by {
      assert h * (2 * b) == (2 * h) * b;
      MulLe(2 * h, 3 * q, b);
    }
    DivAtLeast(3 * x, 2 * b, h);
  }

  lemma MulLe(x: int, y: int, b: int)
    requires x <= y && b >= 0
    ensures x * b <= y * b
  {
  }

  function Titles(): seq<string>
  {
    ["初学者", "学徒", "学者", "专家", "大师", "宗师", "传奇", "至尊"]
  }

  /** getLevelTitle: one title per five levels, the last one from level 35 on. */
  function Title(level: int): string
    requires level >= 0
  {
    Titles()[Min(level / 5, |Titles()| - 1)]
  }

  lemma TitleByLevel(level: int)
    requires level >= 0
    ensures level < 40 ==> Title(level) == Titles()[level / 5]
    ensures level >= 35 ==> Title(level) == "至尊"
    ensures level < 5 ==> Title(level) == "初学者"
  {
  }

  /** The levels at which the perks are granted, in the order they are listed. */
  function PerkLevels(): seq<int>
  {
    [5, 10, 15, 20, 30, 50]
  }

  function AllPerks(): seq<string>
  {
    ["解锁高级AI功能", "自定义学习计划", "专属学习报告", "优先答疑服务", "学习大师勋章", "终身学习荣誉"]
  }

  /** getLevelPerks. */
  function Perks(level: int): seq<string>
  {
    (if level >= 5 then ["解锁高级AI功能"] else [])
    + (if level >= 10 then ["自定义学习计划"] else [])
    + (if level >= 15 then ["专属学习报告"] else [])
    + (if level >= 20 then ["优先答疑服务"] else [])
    + (if level >= 30 then ["学习大师勋章"] else [])
    + (if level >= 50 then ["终身学习荣誉"] else [])
  }

  /** The number of perk levels reached. */
  function PerkCount(level: int): (n: nat)
    ensures n <= 6
  {
    if level >= 50 then 6 else if level >= 30 then 5 else if level >= 20 then 4
    else if level >= 15 then 3 else if level >= 10 then 2 else if level >= 5 then 1 else 0
  }

  /** The perks of a level are the listed perks whose level it has reached, in order. */
  lemma PerksReached(level: int)
    ensures Perks(level) == AllPerks()[..PerkCount(level)]
    ensures forall k :: 0 <= k < 6 ==> (PerkLevels()[k] <= level <==> k < PerkCount(level))
  {
  }

  /** A higher level keeps every perk of a lower one. */
  lemma PerksMonotone(low: int, high: int)
    requires low <= high
    ensures Perks(low) <= Perks(high)
  {
    PerksReached(low);
    PerksReached(high);
  }

  /** The level record is consistent with its level: threshold, title and perks. */
  predicate LevelValid(l: UserLevel)
  {
    && l.level >= 1
    && l.expToNextLevel == ExpForNextLevel(l.level)
    && l.title == Title(l.level)
    && l.perks == Perks(l.level)
  }

  /** The level record of a new user. */
  function InitialLevel(): UserLevel
  {
    UserLevel(1, "初学者", 0, 100, 0, [])
  }

  /** levelUp. */
  function LevelUpOf(l: UserLevel): UserLevel
    requires l.level >= 0
  {
    l.(currentExp := l.currentExp - l.expToNextLevel, level := l.level + 1,
       expToNextLevel := ExpForNextLevel(l.level + 1), title := Title(l.level + 1), perks := Perks(l.level + 1))
  }

  /** Level up while the experience reaches the threshold. */
  function Settle(l: UserLevel): (r: UserLevel)
    requires LevelValid(l)
    ensures LevelValid(r)
    ensures r.totalExp == l.totalExp && r.level >= l.level
    ensures r.currentExp < r.expToNextLevel
    decreases if l.currentExp > 0 then l.currentExp else 0
  {
    if l.currentExp >= l.expToNextLevel then
      LevelUpValid(l);
      Settle(LevelUpOf(l))
    else l
  }

  /** A level-up that the experience reaches gives a consistent record with less current experience. */
  lemma LevelUpValid(l: UserLevel)
    requires LevelValid(l) && l.currentExp >= l.expToNextLevel
    ensures LevelValid(LevelUpOf(l))
    ensures LevelUpOf(l).currentExp <= l.currentExp - 100
    ensures LevelUpOf(l).totalExp == l.totalExp && LevelUpOf(l).level == l.level + 1
  {
    ExpForNextLevelAtLeast100(l.level);
  }

  /** One level-up does not change where settling ends. */
  lemma LevelUpStep(l: UserLevel)
    requires LevelValid(l) && l.currentExp >= l.expToNextLevel
    ensures LevelValid(LevelUpOf(l)) && LevelUpOf(l).currentExp < l.currentExp
    ensures Settle(LevelUpOf(l)) == Settle(l)
  {
    LevelUpValid(l);
  }

  /** One level-up keeps the total experience accounted for. */
  lemma LevelUpAccounted(l: UserLevel)
    requires LevelValid(l) && l.currentExp >= l.expToNextLevel && Accounted(l)
    ensures Accounted(LevelUpOf(l))
  {
    CumulativeStep(l.level);
  }

  /** A record below its threshold is already settled. */
  lemma Settled(l: UserLevel)
    requires LevelValid(l) && l.currentExp < l.expToNextLevel
    ensures Settle(l) == l
  {
  }

  lemma CumulativeStep(level: int)
    requires level >= 1
    ensures Cumulative(level + 1) == Cumulative(level) + ExpForNextLevel(level)
  {
  }

  /** addExp on the level record. */
  function GainExp(l: UserLevel, exp: int): UserLevel
    requires LevelValid(l)
  {
    CreditValid(l, exp);
    Settle(Credit(l, exp))
  }

  /** The first two statements of addExp: the gain is added to the current and the total experience. */
  function Credit(l: UserLevel, exp: int): UserLevel
  {
    l.(currentExp := l.currentExp + exp, totalExp := l.totalExp + exp)
  }

  /** Crediting experience leaves the level, threshold, title and perks alone and keeps the total accounted for. */
  lemma CreditValid(l: UserLevel, exp: int)
    requires LevelValid(l)
    ensures LevelValid(Credit(l, exp))
    ensures Accounted(l) ==> Accounted(Credit(l, exp))
  {
    var c := Credit(l, exp);
    assert c.level == l.level && c.expToNextLevel == l.expToNextLevel && c.title == l.title && c.perks == l.perks;
  }

  /** After gaining experience the record is consistent and below its threshold, and the total grew by exactly the gain. */
  lemma GainExpEffect(l: UserLevel, exp: int)
    requires LevelValid(l)
    ensures LevelValid(GainExp(l, exp))
    ensures GainExp(l, exp).currentExp < GainExp(l, exp).expToNextLevel
    ensures GainExp(l, exp).totalExp == l.totalExp + exp
    ensures GainExp(l, exp).level >= l.level
  {
  }

  /** The experience needed from level 1 to reach `level`. */
  function Cumulative(level: int): int
    requires level >= 1
    decreases level
  {
    if level == 1 then 0 else Cumulative(level - 1) + ExpForNextLevel(level - 1)
  }

  /** The total experience is what the passed levels took plus the current experience. */
  predicate Accounted(l: UserLevel)
    requires l.level >= 1
  {
    l.totalExp == Cumulative(l.level) + l.currentExp
  }

  lemma {:induction false} SettleAccounted(l: UserLevel)
    requires LevelValid(l) && Accounted(l)
    ensures Accounted(Settle(l))
    decreases if l.currentExp > 0 then l.currentExp else 0
  {
    if l.currentExp >= l.expToNextLevel {
      LevelUpValid(l);
      LevelUpAccounted(l);
      SettleAccounted(LevelUpOf(l));
    }
  }

  /** Gaining experience keeps the total accounted for by the levels passed. */
  lemma GainExpAccounted(l: UserLevel, exp: int)
    requires LevelValid(l) && Accounted(l)
    ensures Accounted(GainExp(l, exp))
  {
    CreditValid(l, exp);
    SettleAccounted(Credit(l, exp));
  }

  /** With no negative experience, the level is the one whose range holds the total. */
  lemma LevelOfTotal(l: UserLevel)
    requires LevelValid(l) && Accounted(l) && 0 <= l.currentExp < l.expToNextLevel
    ensures Cumulative(l.level) <= l.totalExp < Cumulative(l.level + 1)
  {
  }

  /** Experience gains in order. */
  function GainAll(l: UserLevel, exps: seq<int>): (r: UserLevel)
    requires LevelValid(l)
    ensures LevelValid(r)
  {
    if exps == [] then l
    else
      GainExpEffect(GainAll(l, exps[..|exps| - 1]), exps[|exps| - 1]);
      GainExp(GainAll(l, exps[..|exps| - 1]), exps[|exps| - 1])
  }

  function Sum(s: seq<int>): int
  {
    if s == [] then 0 else Sum(s[..|s| - 1]) + s[|s| - 1]
  }

  /** A sequence of gains adds their sum to the total and keeps it accounted for. */
  lemma {:induction false} GainAllEffect(l: UserLevel, exps: seq<int>)
    requires LevelValid(l) && Accounted(l)
    ensures GainAll(l, exps).totalExp == l.totalExp + Sum(exps)
    ensures Accounted(GainAll(l, exps))
  {
    if exps != [] {
      var init := exps[..|exps| - 1];
      GainAllEffect(l, init);
      GainExpEffect(GainAll(l, init), exps[|exps| - 1]);
      GainExpAccounted(GainAll(l, init), exps[|exps| - 1]);
    }
  }

  lemma GainAllOne(l: UserLevel, exp: int)
    requires LevelValid(l)
    ensures GainAll(l, [exp]) == GainExp(l, exp)
  {
    assert [exp][..0] == [];
  }

  /** Gaining two lists of experience in turn is gaining their concatenation. */
  lemma {:induction false} GainAllAppend(l: UserLevel, xs: seq<int>, ys: seq<int>)
    requires LevelValid(l)
    ensures GainAll(l, xs + ys) == GainAll(GainAll(l, xs), ys)
    decreases |ys|
  {
    if ys == [] {
      assert xs + ys == xs;
    } else {
      var init := ys[..|ys| - 1];
      assert (xs + ys)[..|xs + ys| - 1] == xs + init;
      GainAllAppend(l, xs, init);
    }
  }

  // ---------------------------------------------------------------------------
  // Achievements
  // ---------------------------------------------------------------------------

  datatype Category = Study | Practice | Social | Special
  datatype Rarity = Common | Rare | Epic | Legendary
  datatype RequirementType = StudyTime | PracticeCount | CorrectRate | StreakDays | KnowledgeMastery | AiChat | NoteCount | PerfectScore

  datatype Requirement = Requirement(kind: RequirementType, target: real, current: Option<real>)

  datatype Achievement = Achievement(
    id: string, name: string, description: string, icon: string, category: Category, rarity: Rarity,
    points: nat, requirement: Requirement, unlocked: bool, unlockedAt: Option<int>, progress: real)

  datatype LearningStats = LearningStats(
    totalStudyTime: real, totalPracticeCount: real, avgCorrectRate: real, streakDays: real,
    knowledgePointsMastered: real, aiChatCount: real, noteCount: real, perfectScoreCount: real)

  /** A partial statistics object: the fields that are present overwrite the current ones. */
  datatype StatsUpdate = StatsUpdate(
    totalStudyTime: Option<real>, totalPracticeCount: Option<real>, avgCorrectRate: Option<real>, streakDays: Option<real>,
    knowledgePointsMastered: Option<real>, aiChatCount: Option<real>, noteCount: Option<real>, perfectScoreCount: Option<real>)

  datatype Badge = Badge(id: string, name: string, icon: string, color: string, description: string, earnedAt: int)

  datatype Animation = Confetti | Firework | Shine

  datatype Reward =
    | PointsReward(points: nat, message: string, animation: Animation)
    | BadgeReward(badge: Badge, message: string, animation: Animation)

  function ZeroStats(): LearningStats
  {
    LearningStats(0.0, 0.0, 0.0, 0.0, 0.0, 0.0, 0.0, 0.0)
  }

  function Overwrite(old_: real, new_: Option<real>): real
  {
    if new_.Some? then new_.value else old_
  }

  /** Object.assign of a partial statistics object. */
  function MergeStats(s: LearningStats, u: StatsUpdate): LearningStats
  {
    LearningStats(
      Overwrite(s.totalStudyTime, u.totalStudyTime), Overwrite(s.totalPracticeCount, u.totalPracticeCount),
      Overwrite(s.avgCorrectRate, u.avgCorrectRate), Overwrite(s.streakDays, u.streakDays),
      Overwrite(s.knowledgePointsMastered, u.knowledgePointsMastered), Overwrite(s.aiChatCount, u.aiChatCount),
      Overwrite(s.noteCount, u.noteCount), Overwrite(s.perfectScoreCount, u.perfectScoreCount))
  }

  /** The statistic an achievement of each kind is measured by. */
  function CurrentOf(s: LearningStats, kind: RequirementType): real
  {
    match kind
    case StudyTime => s.totalStudyTime
    case PracticeCount => s.totalPracticeCount
    case CorrectRate => s.avgCorrectRate
    case StreakDays => s.streakDays
    case KnowledgeMastery => s.knowledgePointsMastered
    case AiChat => s.aiChatCount
    case NoteCount => s.noteCount
    case PerfectScore => s.perfectScoreCount
  }

  /** Progress in percent, capped at 100. */
  function Progress(current: real, target: real): real
    requires target > 0.0
  {
    MinR(100.0, current / target * 100.0)
  }

  /** Progress lies in [0, 100] for a non-negative statistic and is 100 exactly when the target is reached. */
  lemma ProgressBounds(current: real, target: real)
    requires target > 0.0
    ensures Progress(current, target) <= 100.0
    ensures current >= 0.0 ==> Progress(current, target) >= 0.0
    ensures Progress(current, target) == 100.0 <==> current >= target
  {
    var q := current / target;
    assert current == q * target;
    if current >= target {
      assert q >= 1.0;
    } else {
      assert q < 1.0;
    }
  }

  function AnimationOf(r: Rarity): Animation
  {
    match r
    case Legendary => Confetti
    case Epic => Firework
    case _ => Shine
  }

  /** An achievement as one check leaves it: a locked one gets its statistic, progress and verdict. */
  function CheckOne(a: Achievement, s: LearningStats, now: int): Achievement
    requires a.requirement.target > 0.0
  {
    if a.unlocked then a
    else
      var current := CurrentOf(s, a.requirement.kind);
      var reached := current >= a.requirement.target;
      a.(requirement := a.requirement.(current := Some(current)),
         progress := Progress(current, a.requirement.target),
         unlocked := reached,
         unlockedAt := if reached then Some(now) else a.unlockedAt)
  }

  /** Whether one check unlocks `a`. */
  predicate Unlocks(a: Achievement, s: LearningStats)
  {
    !a.unlocked && CurrentOf(s, a.requirement.kind) >= a.requirement.target
  }

  /**
   * An unlocked achievement is left alone; a locked one records the statistic
   * and its progress, and unlocks exactly when the target is reached.
   */
  lemma CheckOneEffect(a: Achievement, s: LearningStats, now: int)
    requires a.requirement.target > 0.0
    ensures var b := CheckOne(a, s, now);
      && (a.unlocked ==> b == a)
      && (b.unlocked <==> a.unlocked || Unlocks(a, s))
      && (!a.unlocked ==>
            b.progress == Progress(CurrentOf(s, a.requirement.kind), a.requirement.target)
            && b.requirement.current == Some(CurrentOf(s, a.requirement.kind)))
      && (Unlocks(a, s) ==> b.unlockedAt == Some(now))
      && b.id == a.id && b.points == a.points && b.rarity == a.rarity && b.requirement.target == a.requirement.target
  {
  }

  /** Checking again with the same statistics changes nothing. */
  lemma CheckOneIdempotent(a: Achievement, s: LearningStats, now: int, later: int)
    requires a.requirement.target > 0.0
    ensures CheckOne(CheckOne(a, s, now), s, later) == CheckOne(a, s, now)
    ensures !Unlocks(CheckOne(a, s, now), s)
  {
  }

  function NatToString(n: nat): string
  {
    if n < 10 then [DigitChar(n)] else NatToString(n / 10) + [DigitChar(n % 10)]
  }

  function DigitChar(d: nat): char
    requires d < 10
  {
    ('0' as int + d) as char
  }

  function BadgeOf(a: Achievement, now: int): Badge
  {
    Badge(a.id + "_badge", a.name, a.icon, "#FFD700", a.description, now)
  }

  function PointsRewardOf(a: Achievement): Reward
  {
    PointsReward(a.points, "🎉 解锁成就：" + a.name + "！获得 " + NatToString(a.points) + " 积分", AnimationOf(a.rarity))
  }

  /** The rewards and the badge depend only on what an achievement is, not on its state. */
  lemma SameRewards(a: Achievement, b: Achievement, now: int)
    requires a.id == b.id && a.name == b.name && a.icon == b.icon && a.description == b.description
    requires a.points == b.points && a.rarity == b.rarity
    ensures PointsRewardOf(a) == PointsRewardOf(b) && BadgeOf(a, now) == BadgeOf(b, now)
  {
  }

  function BadgeRewardOf(b: Badge): Reward
  {
    BadgeReward(b, "🏆 获得传奇徽章：" + b.name + "！", Confetti)
  }

  predicate TargetsPositive(achs: seq<Achievement>)
  {
    forall i :: 0 <= i < |achs| ==> achs[i].requirement.target > 0.0
  }

  /** What a check produces: the achievements, the unlocked ids, the experience gains, the badges and the rewards, in order. */
  datatype Checked = Checked(achievements: seq<Achievement>, unlocked: seq<string>, exp: seq<int>, badges: seq<Badge>, rewards: seq<Reward>)

  /** What checking one achievement contributes: the achievement as checked, and its unlock, gain, badge and rewards if it unlocks. */
  function Outcome(a: Achievement, s: LearningStats, now: int): (c: Checked)
    requires a.requirement.target > 0.0
    ensures c.achievements == [CheckOne(a, s, now)]
  {
    var b := CheckOne(a, s, now);
    if !Unlocks(a, s) then Checked([b], [], [], [], [])
    else if a.rarity == Legendary then
      Checked([b], [a.id], [a.points], [BadgeOf(a, now)], [PointsRewardOf(a), BadgeRewardOf(BadgeOf(a, now))])
    else
      Checked([b], [a.id], [a.points], [], [PointsRewardOf(a)])
  }

  /** Two checks one after the other. */
  function Join(c: Checked, d: Checked): Checked
  {
    Checked(c.achievements + d.achievements, c.unlocked + d.unlocked, c.exp + d.exp, c.badges + d.badges, c.rewards + d.rewards)
  }

  /** checkAchievements over the achievements in their order. */
  function CheckAll(achs: seq<Achievement>, s: LearningStats, now: int): Checked
    requires TargetsPositive(achs)
  {
    if achs == [] then Checked([], [], [], [], [])
    else
      assert TargetsPositive(achs[..|achs| - 1]);
      Join(CheckAll(achs[..|achs| - 1], s, now), Outcome(achs[|achs| - 1], s, now))
  }

  lemma CheckAllLast(achs: seq<Achievement>, i: nat, s: LearningStats, now: int)
    requires i < |achs| && TargetsPositive(achs[..i]) && achs[i].requirement.target > 0.0
    ensures TargetsPositive(achs[..i + 1])
    ensures CheckAll(achs[..i + 1], s, now) == Join(CheckAll(achs[..i], s, now), Outcome(achs[i], s, now))
  {
    assert achs[..i + 1][..i] == achs[..i];
  }

  lemma AppendAssoc<T>(a: seq<T>, b: seq<T>, c: seq<T>)
    ensures a + (b + c) == (a + b) + c
  {
  }

  lemma ReplaceFirst<T>(p: seq<T>, q: seq<T>, x: T)
    requires q != []
    ensures (p + q)[|p| := x] == (p + [x]) + q[1..]
  {
  }

  /** The achievements a check unlocks, in order. */
  function Fresh(achs: seq<Achievement>, s: LearningStats): seq<Achievement>
  {
    if achs == [] then []
    else Fresh(achs[..|achs| - 1], s) + (if Unlocks(achs[|achs| - 1], s) then [achs[|achs| - 1]] else [])
  }

  function Ids(achs: seq<Achievement>): (r: seq<string>)
    ensures |r| == |achs| && forall i :: 0 <= i < |achs| ==> r[i] == achs[i].id
  {
    seq(|achs|, i requires 0 <= i < |achs| => achs[i].id)
  }

  function PointsOf(achs: seq<Achievement>): (r: seq<int>)
    ensures |r| == |achs| && forall i :: 0 <= i < |achs| ==> r[i] == achs[i].points
  {
    seq(|achs|, i requires 0 <= i < |achs| => achs[i].points as int)
  }

  function LegendaryOnes(achs: seq<Achievement>): seq<Achievement>
  {
    if achs == [] then []
    else LegendaryOnes(achs[..|achs| - 1]) + (if achs[|achs| - 1].rarity == Legendary then [achs[|achs| - 1]] else [])
  }

  function Badges(achs: seq<Achievement>, now: int): (r: seq<Badge>)
    ensures |r| == |achs| && forall i :: 0 <= i < |achs| ==> r[i] == BadgeOf(achs[i], now)
  {
    seq(|achs|, i requires 0 <= i < |achs| => BadgeOf(achs[i], now))
  }

  /** Every achievement is checked in place. */
  lemma {:induction false} CheckAllEach(achs: seq<Achievement>, s: LearningStats, now: int)
    requires TargetsPositive(achs)
    ensures |CheckAll(achs, s, now).achievements| == |achs|
    ensures forall i :: 0 <= i < |achs| ==> CheckAll(achs, s, now).achievements[i] == CheckOne(achs[i], s, now)
  {
    if achs != [] {
      var init := achs[..|achs| - 1];
      assert TargetsPositive(init);
      CheckAllEach(init, s, now);
    }
  }

  lemma FreshLast(achs: seq<Achievement>, s: LearningStats)
    requires achs != []
    ensures Fresh(achs, s) == Fresh(achs[..|achs| - 1], s) + (if Unlocks(achs[|achs| - 1], s) then [achs[|achs| - 1]] else [])
  {
  }

  lemma LegendaryOnesSnoc(f: seq<Achievement>, a: Achievement)
    ensures LegendaryOnes(f + [a]) == LegendaryOnes(f) + (if a.rarity == Legendary then [a] else [])
  {
    assert (f + [a])[..|f + [a]| - 1] == f;
  }

  /** A check records, in order, the ids of exactly the locked achievements whose target is reached. */
  lemma {:induction false} CheckAllUnlocked(achs: seq<Achievement>, s: LearningStats, now: int)
    requires TargetsPositive(achs)
    ensures CheckAll(achs, s, now).unlocked == Ids(Fresh(achs, s))
  {
    if achs != [] {
      var init, a := achs[..|achs| - 1], achs[|achs| - 1];
      assert TargetsPositive(init);
      CheckAllUnlocked(init, s, now);
      FreshLast(achs, s);
      if Unlocks(a, s) {
        assert Ids(Fresh(init, s) + [a]) == Ids(Fresh(init, s)) + [a.id];
      }
    }
  }

  /** A check gains, in order, the points of exactly the achievements it unlocks. */
  lemma {:induction false} CheckAllExp(achs: seq<Achievement>, s: LearningStats, now: int)
    requires TargetsPositive(achs)
    ensures CheckAll(achs, s, now).exp == PointsOf(Fresh(achs, s))
  {
    if achs != [] {
      var init, a := achs[..|achs| - 1], achs[|achs| - 1];
      assert TargetsPositive(init);
      CheckAllExp(init, s, now);
      FreshLast(achs, s);
      if Unlocks(a, s) {
        assert PointsOf(Fresh(init, s) + [a]) == PointsOf(Fresh(init, s)) + [a.points];
      }
    }
  }

  /** A check earns, in order, one badge for each legendary achievement it unlocks. */
  lemma {:induction false} CheckAllBadges(achs: seq<Achievement>, s: LearningStats, now: int)
    requires TargetsPositive(achs)
    ensures CheckAll(achs, s, now).badges == Badges(LegendaryOnes(Fresh(achs, s)), now)
  {
    if achs != [] {
      var init, a := achs[..|achs| - 1], achs[|achs| - 1];
      assert TargetsPositive(init);
      CheckAllBadges(init, s, now);
      FreshLast(achs, s);
      if Unlocks(a, s) {
        var l := LegendaryOnes(Fresh(init, s));
        LegendaryOnesSnoc(Fresh(init, s), a);
        if a.rarity == Legendary {
          assert Badges(l + [a], now) == Badges(l, now) + [BadgeOf(a, now)];
        } else {
          assert l + [] == l;
        }
      } else {
        assert Fresh(achs, s) == Fresh(init, s);
      }
    }
  }

  /** Every unlock brings one points reward and every badge one badge reward. */
  lemma {:induction false} CheckAllRewardCount(achs: seq<Achievement>, s: LearningStats, now: int)
    requires TargetsPositive(achs)
    ensures |CheckAll(achs, s, now).rewards| == |Fresh(achs, s)| + |LegendaryOnes(Fresh(achs, s))|
  {
    if achs != [] {
      var init, a := achs[..|achs| - 1], achs[|achs| - 1];
      assert TargetsPositive(init);
      CheckAllRewardCount(init, s, now);
      FreshLast(achs, s);
      if Unlocks(a, s) {
        LegendaryOnesSnoc(Fresh(init, s), a);
      } else {
        assert Fresh(achs, s) == Fresh(init, s);
      }
    }
  }

  /** Only legendary achievements earn badges, each named after its achievement. */
  lemma {:induction false} LegendaryOnesAreLegendary(achs: seq<Achievement>)
    ensures forall b :: b in LegendaryOnes(achs) ==> b in achs && b.rarity == Legendary
  {
    if achs != [] {
      LegendaryOnesAreLegendary(achs[..|achs| - 1]);
    }
  }

  /** A check unlocks only locked achievements whose target is reached. */
  lemma {:induction false} FreshAreUnlocked(achs: seq<Achievement>, s: LearningStats)
    ensures forall a :: a in Fresh(achs, s) ==> a in achs && Unlocks(a, s)
  {
    if achs != [] {
      FreshAreUnlocked(achs[..|achs| - 1], s);
    }
  }

  /** A second check with the same statistics unlocks nothing and changes nothing. */
  lemma CheckAllIdempotent(achs: seq<Achievement>, s: LearningStats, now: int, later: int)
    requires TargetsPositive(achs)
    ensures TargetsPositive(CheckAll(achs, s, now).achievements)
    ensures CheckAll(CheckAll(achs, s, now).achievements, s, later).achievements == CheckAll(achs, s, now).achievements
    ensures CheckAll(CheckAll(achs, s, now).achievements, s, later).unlocked == []
  {
    var once := CheckAll(achs, s, now).achievements;
    CheckAllEach(achs, s, now);
    forall i | 0 <= i < |once| ensures once[i].requirement.target > 0.0 && !Unlocks(once[i], s) {
      CheckOneIdempotent(achs[i], s, now, later);
    }
    CheckAllEach(once, s, later);
    forall i | 0 <= i < |once| ensures CheckOne(once[i], s, later) == once[i] {
      CheckOneIdempotent(achs[i], s, now, later);
    }
    var twice := CheckAll(once, s, later).achievements;
    assert |twice| == |once|;
    assert twice == once;
    CheckAllUnlocked(once, s, later);
    NoneFresh(once, s);
  }

  lemma {:induction false} NoneFresh(achs: seq<Achievement>, s: LearningStats)
    requires forall i :: 0 <= i < |achs| ==> !Unlocks(achs[i], s)
    ensures Fresh(achs, s) == []
  {
    if achs != [] {
      NoneFresh(achs[..|achs| - 1], s);
    }
  }

  /** clear on one achievement. */
  function Reset(a: Achievement): Achievement
  {
    a.(unlocked := false, progress := 0.0, unlockedAt := None,
       requirement := if a.requirement.current.Some? then a.requirement.(current := Some(0.0)) else a.requirement)
  }

  /** After clearing, nothing is unlocked and no progress is left; what an achievement asks for is kept. */
  lemma ResetEffect(a: Achievement)
    ensures !Reset(a).unlocked && Reset(a).progress == 0.0 && Reset(a).unlockedAt.None?
    ensures Reset(a).id == a.id && Reset(a).points == a.points && Reset(a).requirement.kind == a.requirement.kind
    ensures Reset(a).requirement.target == a.requirement.target
    ensures Reset(a).requirement.current.Some? == a.requirement.current.Some?
  {
  }

  lemma ResetKeepsTargets(before: seq<Achievement>, after: seq<Achievement>)
    requires TargetsPositive(before) && |after| == |before|
    requires forall i :: 0 <= i < |after| ==> after[i] == Reset(before[i])
    ensures TargetsPositive(after)
  {
    forall i | 0 <= i < |after| ensures after[i].requirement.target > 0.0 {
      ResetEffect(before[i]);
    }
  }

  function A(id: string, name: string, description: string, icon: string, category: Category, rarity: Rarity,
             points: nat, kind: RequirementType, target: real): Achievement
  {
    Achievement(id, name, description, icon, category, rarity, points, Requirement(kind, target, None), false, None, 0.0)
  }

  /** initializeAchievements: the achievements in their insertion order. */
  function InitialAchievements(): (r: seq<Achievement>)
    ensures |r| == 25
  {
    seq(25, k requires 0 <= k < 25 => InitialAchievement(k))
  }

  /** The built-in achievement at position `k` of the list. */
  function InitialAchievement(k: nat): Achievement
    requires k < 25
  {
    match k
    case 0 => A("study_1h", "学海初航", "累计学习1小时", "🎯", Study, Common, 10, StudyTime, 60.0)
    case 1 => A("study_10h", "勤学苦练", "累计学习10小时", "📚", Study, Common, 50, StudyTime, 600.0)
    case 2 => A("study_100h", "学习达人", "累计学习100小时", "🏆", Study, Rare, 200, StudyTime, 6000.0)
    case 3 => A("study_500h", "学霸之路", "累计学习500小时", "👑", Study, Epic, 1000, StudyTime, 30000.0)
    case 4 => A("practice_10", "初试锋芒", "完成10次练习", "✏️", Practice, Common, 10, PracticeCount, 10.0)
    case 5 => A("practice_100", "百炼成钢", "完成100次练习", "💪", Practice, Rare, 100, PracticeCount, 100.0)
    case 6 => A("practice_1000", "千锤百炼", "完成1000次练习", "⚡", Practice, Epic, 500, PracticeCount, 1000.0)
    case 7 => A("accuracy_80", "精益求精", "平均正确率达到80%", "🎖️", Practice, Rare, 150, CorrectRate, 80.0)
    case 8 => A("accuracy_90", "卓越表现", "平均正确率达到90%", "🌟", Practice, Epic, 300, CorrectRate, 90.0)
    case 9 => A("accuracy_95", "完美主义", "平均正确率达到95%", "💎", Practice, Legendary, 500, CorrectRate, 95.0)
    case 10 => A("streak_7", "一周坚持", "连续学习7天", "🔥", Study, Common, 50, StreakDays, 7.0)
    case 11 => A("streak_30", "一月不辍", "连续学习30天", "🌈", Study, Rare, 200, StreakDays, 30.0)
    case 12 => A("streak_100", "百日筑基", "连续学习100天", "🚀", Study, Epic, 800, StreakDays, 100.0)
    case 13 => A("streak_365", "全年无休", "连续学习365天", "🏅", Study, Legendary, 3000, StreakDays, 365.0)
    case 14 => A("mastery_10", "知识萌芽", "掌握10个知识点", "🌱", Study, Common, 20, KnowledgeMastery, 10.0)
    case 15 => A("mastery_50", "学识渐丰", "掌握50个知识点", "🌳", Study, Rare, 100, KnowledgeMastery, 50.0)
    case 16 => A("mastery_100", "博学多识", "掌握100个知识点", "🌲", Study, Epic, 300, KnowledgeMastery, 100.0)
    case 17 => A("ai_chat_10", "AI好友", "与AI助手对话10次", "🤖", Social, Common, 10, AiChat, 10.0)
    case 18 => A("ai_chat_100", "AI伙伴", "与AI助手对话100次", "💬", Social, Rare, 50, AiChat, 100.0)
    case 19 => A("ai_chat_500", "AI挚友", "与AI助手对话500次", "💝", Social, Epic, 200, AiChat, 500.0)
    case 20 => A("note_10", "笔记新手", "创建10条笔记", "📝", Study, Common, 20, NoteCount, 10.0)
    case 21 => A("note_50", "笔记达人", "创建50条笔记", "📖", Study, Rare, 100, NoteCount, 50.0)
    case 22 => A("perfect_1", "首次满分", "第一次获得满分", "🎊", Special, Rare, 100, PerfectScore, 1.0)
    case 23 => A("perfect_10", "满分常客", "获得10次满分", "🎉", Special, Epic, 300, PerfectScore, 10.0)
    case _ => A("perfect_100", "满分大师", "获得100次满分", "🎆", Special, Legendary, 1000, PerfectScore, 100.0)
  }

  /** Every built-in achievement has a positive target and starts locked without progress. */
  lemma InitialAchievementsWellFormed()
    ensures |InitialAchievements()| == 25
    ensures TargetsPositive(InitialAchievements())
    ensures forall i :: 0 <= i < |InitialAchievements()| ==> !InitialAchievements()[i].unlocked && InitialAchievements()[i].progress == 0.0
  {
  }

  // ---------------------------------------------------------------------------
  // The system
  // ---------------------------------------------------------------------------

  /** The level record is consistent and accounted for, and every achievement has a positive target. */
  predicate Consistent(level: UserLevel, achievements: seq<Achievement>)
  {
    LevelValid(level) && Accounted(level) && TargetsPositive(achievements)
  }

  /** A new level record is consistent with any achievement list whose targets are positive. */
  lemma StartConsistent(achs: seq<Achievement>)
    requires TargetsPositive(achs)
    ensures Consistent(InitialLevel(), achs)
  {
    FloorDivIsDiv(100, 1);
  }

  class AchievementTracker {
    var achievements: seq<Achievement>
    var stats: LearningStats
    var level: UserLevel
    var badges: seq<Badge>
    var unlockedAchievements: seq<string>

    predicate Valid()
      reads this
    {
      Consistent(level, achievements)
    }

    constructor ()
      ensures achievements == InitialAchievements() && stats == ZeroStats() && level == InitialLevel()
      ensures badges == [] && unlockedAchievements == []
      ensures Valid()
    {
      var achs := InitialAchievements();
      InitialAchievementsWellFormed();
      StartConsistent(achs);
      achievements := achs;
      stats := ZeroStats();
      level := InitialLevel();
      badges := [];
      unlockedAchievements := [];
    }

    /** levelUp. */
    method LevelUp()
      modifies this`level
      requires level.level >= 0
      ensures level == LevelUpOf(old(level))
    {
      level := level.(currentExp := level.currentExp - level.expToNextLevel);
      level := level.(level := level.level + 1);
      level := level.(expToNextLevel := ExpForNextLevel(level.level));
      level := level.(title := Title(level.level));
      level := level.(perks := Perks(level.level));
    }

    /** addExp. */
    method AddExp(exp: int)
      modifies this`level
      requires LevelValid(level)
      ensures level == GainExp(old(level), exp)
    {
      ghost var start := Credit(level, exp);
      CreditValid(level, exp);
      level := level.(currentExp := level.currentExp + exp);
      level := level.(totalExp := level.totalExp + exp);
      assert level == start;
      while level.currentExp >= level.expToNextLevel
        invariant LevelValid(level) && Settle(level) == Settle(start)
        decreases level.currentExp
      {
        LevelUpStep(level);
        LevelUp();
      }
      Settled(level);
    }

    /** checkAchievements; `now` is the clock reading used for the unlock time and the badges. */
    method CheckAchievements(now: int) returns (rewards: seq<Reward>)
      modifies this`achievements, this`unlockedAchievements, this`badges, this`level
      requires LevelValid(level) && TargetsPositive(achievements)
      ensures var c := CheckAll(old(achievements), stats, now);
        && achievements == c.achievements && rewards == c.rewards
        && unlockedAchievements == old(unlockedAchievements) + c.unlocked
        && badges == old(badges) + c.badges
        && level == GainAll(old(level), c.exp)
    {
      ghost var achs0, unlocked0, badges0, level0 := achievements, unlockedAchievements, badges, level;
      rewards := [];
      for i := 0 to |achievements|
        invariant |achievements| == |achs0| && TargetsPositive(achs0[..i])
        invariant achievements == CheckAll(achs0[..i], stats, now).achievements + achs0[i..]
        invariant unlockedAchievements == unlocked0 + CheckAll(achs0[..i], stats, now).unlocked
        invariant badges == badges0 + CheckAll(achs0[..i], stats, now).badges
        invariant rewards == CheckAll(achs0[..i], stats, now).rewards
        invariant LevelValid(level) && level == GainAll(level0, CheckAll(achs0[..i], stats, now).exp)
      {
        ghost var c := CheckAll(achs0[..i], stats, now);
        ghost var o := Outcome(achs0[i], stats, now);
        CheckAllLast(achs0, i, stats, now);
        assert achievements[i] == achs0[i];
        var r := CheckAt(i, now);
        rewards := rewards + r;
        AppendAssoc(unlocked0, c.unlocked, o.unlocked);
        AppendAssoc(badges0, c.badges, o.badges);
        GainAllAppend(level0, c.exp, o.exp);
        CheckAllEach(achs0[..i], stats, now);
        ReplaceFirst(c.achievements, achs0[i..], CheckOne(achs0[i], stats, now));
        assert achs0[i..][1..] == achs0[i + 1..];
      }
      assert achs0[..|achs0|] == achs0;
    }

    /** The body of checkAchievements' loop for the achievement at `i`. */
    method CheckAt(i: nat, now: int) returns (rewards: seq<Reward>)
      modifies this`achievements, this`unlockedAchievements, this`badges, this`level
      requires i < |achievements| && achievements[i].requirement.target > 0.0 && LevelValid(level)
      ensures var o := Outcome(old(achievements[i]), stats, now);
        && achievements == old(achievements)[i := CheckOne(old(achievements[i]), stats, now)] && rewards == o.rewards
        && unlockedAchievements == old(unlockedAchievements) + o.unlocked
        && badges == old(badges) + o.badges
        && LevelValid(level) && level == GainAll(old(level), o.exp)
    {
      rewards := [];
      var a := achievements[i];
      if a.unlocked {
        return;
      }
      var current := CurrentOf(stats, a.requirement.kind);
      a := a.(requirement := a.requirement.(current := Some(current)));
      a := a.(progress := Progress(current, a.requirement.target));
      if current >= a.requirement.target {
        a := a.(unlocked := true, unlockedAt := Some(now));
        SameRewards(a, old(achievements[i]), now);
        achievements := achievements[i := a];
        unlockedAchievements := unlockedAchievements + [a.id];
        ghost var level0 := level;
        AddExp(a.points);
        GainAllOne(level0, a.points);
        rewards := rewards + [PointsRewardOf(a)];
        if a.rarity == Legendary {
          var badge := BadgeOf(a, now);
          badges := badges + [badge];
          rewards := rewards + [BadgeRewardOf(badge)];
        }
      } else {
        achievements := achievements[i := a];
      }
    }

    /** updateStats: merge the statistics, then check the achievements (the rewards are dropped). */
    method UpdateStats(u: StatsUpdate, now: int)
      modifies this
      requires Valid()
      ensures Valid()
      ensures stats == MergeStats(old(stats), u)
      ensures var c := CheckAll(old(achievements), stats, now);
        && achievements == c.achievements
        && unlockedAchievements == old(unlockedAchievements) + c.unlocked
        && badges == old(badges) + c.badges
        && level == GainAll(old(level), c.exp)
    {
      stats := MergeStats(stats, u);
      ghost var achs0 := achievements;
      ghost var level0 := level;
      var _ := CheckAchievements(now);
      GainAllEffect(level0, CheckAll(achs0, stats, now).exp);
      CheckAllEach(achs0, stats, now);
      forall i | 0 <= i < |achievements| ensures achievements[i].requirement.target > 0.0 {
        CheckOneEffect(achs0[i], stats, now);
      }
    }

    /** clear: statistics, level, badges and the unlock list start over, and every achievement is reset. */
    method Clear()
      modifies this
      requires Valid()
      ensures stats == ZeroStats() && level == InitialLevel() && badges == [] && unlockedAchievements == []
      ensures |achievements| == |old(achievements)|
      ensures forall i :: 0 <= i < |achievements| ==> achievements[i] == Reset(old(achievements)[i])
      ensures Valid()
    {
      ghost var achs0 := achievements;
      ResetAchievements();
      ResetKeepsTargets(achs0, achievements);
      stats := ZeroStats();
      level := InitialLevel();
      badges := [];
      unlockedAchievements := [];
      StartConsistent(achievements);
    }

    /** The loop of clear over the achievements. */
    method ResetAchievements()
      modifies this`achievements
      ensures |achievements| == |old(achievements)|
      ensures forall i :: 0 <= i < |achievements| ==> achievements[i] == Reset(old(achievements)[i])
    {
      ghost var achs0 := achievements;
      for i := 0 to |achievements|
        invariant |achievements| == |achs0|
        invariant forall k :: 0 <= k < i ==> achievements[k] == Reset(achs0[k])
        invariant forall k :: i <= k < |achs0| ==> achievements[k] == achs0[k]
      {
        var a := achievements[i];
        a := a.(unlocked := false, progress := 0.0, unlockedAt := None);
        if a.requirement.current.Some? {
          a := a.(requirement := a.requirement.(current := Some(0.0)));
        }
        achievements := achievements[i := a];
      }
    }
  }
}
