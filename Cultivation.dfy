/**
 * Cultivation progression of a student's profile: a successful breakthrough
 * moves one level up and raises the experience cap and the attributes, a
 * failed one costs a fifth of the cap, and idle time is converted into
 * experience at most once per absence of ten minutes or more.
 */
module Cultivation {
  import opened Common
  import opened Realm

  /** The numeric part of a profile that breakthroughs change. */
  datatype Stats = Stats(realmLevel: int, currentExp: int, maxExp: int, attack: int, defense: int)

  /** The profile invariant the service keeps for the profiles it creates (level 0, exp 0, cap 100). */
  predicate ValidStats(s: Stats)
  {
    s.realmLevel >= 0 && s.currentExp >= 0 && s.maxExp >= 0 && s.attack >= 0 && s.defense >= 0
  }

  /** A new level crosses into a new realm when it is a multiple of ten. */
  predicate IsRealmBoundary(level: int)
  {
    JavaRem(level, 10) == 0
  }

  /** doSuccess: pay the cap, go one level up, then grow the cap and attributes. */
  function Succeed(s: Stats): Stats
  {
    var newLevel := s.realmLevel + 1;
    var realm := GetByLevel(newLevel);
    var exp := Max(0, s.currentExp - s.maxExp);
    if IsRealmBoundary(newLevel) then
      Stats(newLevel, exp, realm.BaseMaxExp(), s.attack + realm.AtkBonus(), s.defense + realm.DefBonus())
    else
      // (long)(maxExp * 1.2), (int)(attack * 1.1) + 10, (int)(defense * 1.1) + 5
      Stats(newLevel, exp, Trunc(s.maxExp as real * 1.2), Trunc(s.attack as real * 1.1) + 10,
            Trunc(s.defense as real * 1.1) + 5)
  }

  /** doFail: lose (long)(maxExp * 0.2) experience, never going below zero. */
  function Fail(s: Stats): Stats
  {
    Stats(s.realmLevel, Max(s.currentExp - Trunc(s.maxExp as real * 0.2), 0), s.maxExp, s.attack, s.defense)
  }

  lemma TruncScaledAtLeast(x: int, f: real)
    requires x >= 0 && f >= 1.0
    ensures Trunc(x as real * f) >= x
  {
    assert x as real * f >= x as real;
  }

  /** A success keeps the profile well formed, is exactly one level up, and pays the cap out of the experience. */
  lemma SucceedStep(s: Stats)
    requires ValidStats(s)
    ensures ValidStats(Succeed(s))
    ensures Succeed(s).realmLevel == s.realmLevel + 1
    ensures Succeed(s).currentExp == Max(0, s.currentExp - s.maxExp) <= s.currentExp
    ensures Succeed(s).attack > s.attack && Succeed(s).defense > s.defense
  {
    var newLevel := s.realmLevel + 1;
    var realm := GetByLevel(newLevel);
    var exp := Max(0, s.currentExp - s.maxExp);
    if IsRealmBoundary(newLevel) {
      RealmOrdering(QiPractice, realm);
      assert Succeed(s) == Stats(newLevel, exp, realm.BaseMaxExp(), s.attack + realm.AtkBonus(), s.defense + realm.DefBonus());
    } else {
      TruncScaledAtLeast(s.maxExp, 1.2);
      TruncScaledAtLeast(s.attack, 1.1);
      TruncScaledAtLeast(s.defense, 1.1);
      assert Succeed(s) == Stats(newLevel, exp, Trunc(s.maxExp as real * 1.2), Trunc(s.attack as real * 1.1) + 10,
                                 Trunc(s.defense as real * 1.1) + 5);
    }
  }

  /**
   * Within a realm the cap grows by a fifth (rounded down); reaching a multiple
   * of ten replaces the cap with the new realm's base, whatever it was before.
   */
  lemma SucceedCap(s: Stats)
    requires ValidStats(s)
    ensures IsRealmBoundary(s.realmLevel + 1) ==> Succeed(s).maxExp == GetByLevel(s.realmLevel + 1).BaseMaxExp()
    ensures !IsRealmBoundary(s.realmLevel + 1) ==>
      Succeed(s).maxExp >= s.maxExp && Succeed(s).maxExp == (6 * s.maxExp) / 5
  {
    if !IsRealmBoundary(s.realmLevel + 1) {
      TruncScaledAtLeast(s.maxExp, 1.2);
      var q := (6 * s.maxExp) / 5;
      assert s.maxExp as real * 1.2 == (6 * s.maxExp) as real / 5.0;
      assert q as real <= (6 * s.maxExp) as real / 5.0 < q as real + 1.0;
    }
  }

  /** Entering realm k (levels 10, 20, ..., 90) resets the cap to realm k's base. */
  lemma BoundaryEntersNextRealm(s: Stats)
    requires ValidStats(s) && IsRealmBoundary(s.realmLevel + 1) && s.realmLevel + 1 < 100
    ensures GetByLevel(s.realmLevel + 1).Index() == (s.realmLevel + 1) / 10 >= 1
    ensures Succeed(s).maxExp == GetByLevel(s.realmLevel + 1).BaseMaxExp()
  {
    SucceedCap(s);
  }

  /** A failure loses a fifth of the cap (rounded down), clamped at zero, and changes nothing else. */
  lemma FailStep(s: Stats)
    requires ValidStats(s)
    ensures ValidStats(Fail(s))
    ensures Fail(s).currentExp == Max(0, s.currentExp - s.maxExp / 5) <= s.currentExp
    ensures Fail(s).(currentExp := s.currentExp) == s
  {
    var q := s.maxExp / 5;
    assert s.maxExp as real * 0.2 == s.maxExp as real / 5.0;
    assert q as real <= s.maxExp as real / 5.0 < q as real + 1.0;
  }

  /** addExp: an epiphany doubles the amount; experience grows by it and attack by a tenth of it, at least one. */
  function Credit(s: Stats, amount: int, epiphany: bool): Stats
  {
    var gained := if epiphany then amount * 2 else amount;
    Stats(s.realmLevel, s.currentExp + gained, s.maxExp, s.attack + (if gained > 10 then gained / 10 else 1), s.defense)
  }

  /**
   * A non-negative amount keeps the profile well formed: the experience grows
   * by the amount (twice it on an epiphany), attack grows by a tenth of that
   * but at least one, and level, cap and defense are untouched.
   */
  lemma CreditStep(s: Stats, amount: int, epiphany: bool)
    requires ValidStats(s) && amount >= 0
    ensures var gained := if epiphany then 2 * amount else amount;
      var t := Credit(s, amount, epiphany);
      && ValidStats(t)
      && t.currentExp == s.currentExp + gained
      && s.attack < t.attack && 10 * (t.attack - s.attack) <= Max(10, gained)
      && t.(currentExp := s.currentExp, attack := s.attack) == s
  {
  }

  /** Java's " " + n for a one-digit remainder in -9..9. */
  function SmallIntToString(n: int): (r: string)
    requires -9 <= n <= 9
    ensures 1 <= |r| <= 2
  {
    var d := ['0' + (Abs(n) as char)];
    if n < 0 then "-" + d else d
  }

  /** getRealmName: the realm's name with "初期" for its first level and " k层" for the others. */
  function RealmName(level: int): (r: string)
    ensures GetByLevel(level) == Mortal && JavaRem(level, 10) == 0 ==> r == "凡人"
    ensures GetByLevel(level) == Ascension ==> r == Ascension.Name()
    ensures GetByLevel(level) != Ascension && !(GetByLevel(level) == Mortal && JavaRem(level, 10) == 0) ==>
              |r| > |GetByLevel(level).Name()|
    ensures r[..|GetByLevel(level).Name()|] == GetByLevel(level).Name()
  {
    var realm := GetByLevel(level);
    var small := JavaRem(level, 10);
    if realm == Mortal && small == 0 then "凡人"
    else if realm == Ascension then realm.Name()
    else realm.Name() + (if small == 0 then "初期" else " " + SmallIntToString(small) + "层")
  }

  /** Level 0 is "凡人", and the first level of realms 1..9 reads "<realm>初期". */
  lemma RealmNameFirstLevels(level: int)
    requires 0 <= level < 100 && level % 10 == 0
    ensures level == 0 ==> RealmName(level) == "凡人"
    ensures level > 0 ==> RealmName(level) == GetByLevel(level).Name() + "初期"
  {
  }

  /**
   * The other levels of a realm read "<realm> k层" with k the level's last
   * digit; levels -9..-1 keep Java's negative remainder, "凡人 -k层".
   */
  lemma RealmNameInnerLevels(level: int)
    requires -10 < level < 100 && level % 10 != 0
    ensures level > 0 ==> RealmName(level) == GetByLevel(level).Name() + " " + ['0' + ((level % 10) as char)] + "层"
    ensures level < 0 ==> RealmName(level) == "凡人" + " -" + ['0' + ((-level) as char)] + "层"
    ensures RealmName(level)[|RealmName(level)| - 1] == '层'
  {
    var realm, small := GetByLevel(level), JavaRem(level, 10);
    if level > 0 {
      assert small == level % 10 && realm != Ascension;
      assert SmallIntToString(small) == ['0' + ((level % 10) as char)];
      assert RealmName(level) == realm.Name() + " " + SmallIntToString(small) + "层";
    } else {
      assert small == level && realm == Mortal;
      assert SmallIntToString(small) == "-" + ['0' + ((-level) as char)];
      assert RealmName(level) == realm.Name() + " " + SmallIntToString(small) + "层";
    }
  }

  /** Minutes AFK beyond which no more experience is granted. */
  const MaxAfkMinutes := 1440
  /** Absences shorter than this are not settled. */
  const MinAfkMinutes := 10

  datatype AfkOutcome =
    | NoBaseline            // no previous settlement time: only the clock is reset
    | TooSoon               // absence under ten minutes: only the clock is reset
    | Settled(minutes: int, exp: int)

  /** Duration.toMinutes of the time between two instants given in milliseconds. */
  function ElapsedMinutes(lastMs: int, nowMs: int): int
  {
    if nowMs >= lastMs then (nowMs - lastMs) / 60000 else -((lastMs - nowMs) / 60000)
  }

  /** Experience per idle minute: (realmLevel + 1) * (1 + defense * 0.01). */
  function AfkRate(realmLevel: int, defense: int): real
  {
    (realmLevel + 1) as real * (1.0 + defense as real * 0.01)
  }

  /** The exp granted for `minutes` of idling, cast to long by truncation. */
  function AfkExp(minutes: int, realmLevel: int, defense: int): int
  {
    Trunc(minutes as real * AfkRate(realmLevel, defense))
  }

  /** settleAfkReward's outcome, given the last settlement time and the clock. */
  function AfkSettlement(last: Option<int>, nowMs: int, realmLevel: int, defense: int): (r: AfkOutcome)
    ensures last.None? <==> r == NoBaseline
    ensures last.Some? ==> (r == TooSoon <==> ElapsedMinutes(last.value, nowMs) < MinAfkMinutes)
    ensures r.Settled? ==> (MinAfkMinutes <= r.minutes <= MaxAfkMinutes
      && r.minutes == Min(ElapsedMinutes(last.value, nowMs), MaxAfkMinutes)
      && r.exp == AfkExp(r.minutes, realmLevel, defense))
  {
    match last
    case None => NoBaseline
    case Some(t) =>
      var minutes := ElapsedMinutes(t, nowMs);
      if minutes < MinAfkMinutes then TooSoon
      else
        var capped := if minutes > MaxAfkMinutes then MaxAfkMinutes else minutes;
        Settled(capped, AfkExp(capped, realmLevel, defense))
  }

  lemma ElapsedMonotone(last: int, now1: int, now2: int)
    requires last <= now1 <= now2
    ensures 0 <= ElapsedMinutes(last, now1) <= ElapsedMinutes(last, now2)
  {
  }

  lemma RateNonNegative(realmLevel: int, defense: int)
    requires realmLevel >= 0 && defense >= 0
    ensures AfkRate(realmLevel, defense) >= 1.0
  {
    var a, b := (realmLevel + 1) as real, 1.0 + defense as real * 0.01;
    assert a >= 1.0 && b >= 1.0;
    assert a * b - 1.0 == (a - 1.0) * b + (b - 1.0);
  }

  lemma AfkExpMonotone(m1: int, m2: int, realmLevel: int, defense: int)
    requires 0 <= m1 <= m2 && realmLevel >= 0 && defense >= 0
    ensures 0 <= AfkExp(m1, realmLevel, defense) <= AfkExp(m2, realmLevel, defense)
  {
    var k := AfkRate(realmLevel, defense);
    RateNonNegative(realmLevel, defense);
    assert (m2 - m1) as real * k >= 0.0;
    TruncMonotone(m1 as real * k, m2 as real * k);
  }

  /** For a well-formed profile, a longer absence never earns less, and nothing beyond a day earns more. */
  lemma AfkRewardMonotone(last: int, now1: int, now2: int, realmLevel: int, defense: int)
    requires realmLevel >= 0 && defense >= 0 && now1 <= now2
    requires AfkSettlement(Some(last), now1, realmLevel, defense).Settled?
    ensures AfkSettlement(Some(last), now2, realmLevel, defense).Settled?
    ensures 0 <= AfkSettlement(Some(last), now1, realmLevel, defense).exp
              <= AfkSettlement(Some(last), now2, realmLevel, defense).exp
              <= AfkExp(MaxAfkMinutes, realmLevel, defense)
  {
    var e1 := ElapsedMinutes(last, now1);
    assert e1 >= MinAfkMinutes;
    assert now1 >= last;
    ElapsedMonotone(last, now1, now2);
    var m1 := AfkSettlement(Some(last), now1, realmLevel, defense).minutes;
    var m2 := AfkSettlement(Some(last), now2, realmLevel, defense).minutes;
    AfkExpMonotone(m1, m2, realmLevel, defense);
    AfkExpMonotone(m2, MaxAfkMinutes, realmLevel, defense);
  }

  /** A settled absence credits a non-negative amount, so the profile stays well formed and gains experience. */
  lemma SettledCreditKeepsValid(s: Stats, last: int, nowMs: int, epiphany: bool)
    requires ValidStats(s) && AfkSettlement(Some(last), nowMs, s.realmLevel, s.defense).Settled?
    ensures var o := AfkSettlement(Some(last), nowMs, s.realmLevel, s.defense);
      var t := Credit(s, o.exp, epiphany);
      o.exp >= 0 && ValidStats(t) && t.currentExp >= s.currentExp + o.exp && t.attack > s.attack
  {
    var o := AfkSettlement(Some(last), nowMs, s.realmLevel, s.defense);
    AfkExpMonotone(0, o.minutes, s.realmLevel, s.defense);
    CreditStep(s, o.exp, epiphany);
  }

  // ---------------------------------------------------------------------------
  // Spirit roots
  // ---------------------------------------------------------------------------

  /** The five spirit roots that the bonus switch names. */
  datatype Root = Metal | Wood | Water | Fire | Earth

  /** The enum constant's name, the key of the profile's parsed spiritRoots map. */
  function RootKey(r: Root): string
  {
    match r
    case Metal => "METAL"
    case Wood => "WOOD"
    case Water => "WATER"
    case Fire => "FIRE"
    case Earth => "EARTH"
  }

  /** The roots in the order the bonus loop visits them; the bonus is a sum, so the order does not matter. */
  const AllRoots: seq<Root> := [Metal, Wood, Water, Fire, Earth]

  /** The largest level at or above `l` whose square, times ten, fits in `exp`. */
  function LevelFrom(exp: int, l: nat): (r: nat)
    requires 10 * l * l <= exp
    ensures l <= r && 10 * r * r <= exp < 10 * (r + 1) * (r + 1)
    decreases exp - 10 * l * l
  {
    if 10 * (l + 1) * (l + 1) <= exp then
      assert 10 * (l + 1) * (l + 1) > 10 * l * l;
      LevelFrom(exp, l + 1)
    else l
  }

  /**
   * calculateLevel: (int) Math.sqrt(exp / 10.0), that is the largest l with
   * 10 * l * l <= exp; a negative exp gives NaN, which the cast turns into 0.
   */
  function RootLevel(exp: int): (l: nat)
    ensures exp < 10 ==> l == 0
    ensures exp >= 0 ==> 10 * l * l <= exp < 10 * (l + 1) * (l + 1)
  {
    if exp < 0 then 0 else LevelFrom(exp, 0)
  }

  lemma SquaresOrdered(a: nat, b: nat)
    requires a * a < b * b
    ensures a < b
  {
    assert (b - a) * (b + a) == b * b - a * a;
  }

  /** A root with more experience never has a lower level. */
  lemma RootLevelMonotone(e1: int, e2: int)
    requires e1 <= e2
    ensures RootLevel(e1) <= RootLevel(e2)
  {
    if e1 >= 0 {
      LevelsOrdered(RootLevel(e1), RootLevel(e2), e1, e2);
    }
  }

  lemma LevelsOrdered(a: nat, b: nat, e1: int, e2: int)
    requires 10 * a * a <= e1 <= e2 < 10 * (b + 1) * (b + 1)
    ensures a <= b
  {
    assert a * a < (b + 1) * (b + 1);
    SquaresOrdered(a, b + 1);
  }

  /** What a root adds to attack, defense and max HP at level 1. */
  datatype Bonus = Bonus(attack: int, defense: int, hp: int)

  function RootLevelIn(roots: map<string, int>, r: Root): nat
  {
    RootLevel(if RootKey(r) in roots then roots[RootKey(r)] else 0)
  }

  /** One root's bonus: METAL 5 attack, FIRE 8 attack, EARTH 3 defense, WATER 2 defense, WOOD 20 HP per level. */
  function RootBonus(roots: map<string, int>, r: Root): Bonus
  {
    var level := RootLevelIn(roots, r);
    if level <= 0 then Bonus(0, 0, 0)
    else
      match r
      case Metal => Bonus(level * 5, 0, 0)
      case Earth => Bonus(0, level * 3, 0)
      case Wood => Bonus(0, 0, level * 20)
      case Fire => Bonus(level * 8, 0, 0)
      case Water => Bonus(0, level * 2, 0)
  }

  /** The bonuses of the roots `rs`, summed. */
  function BonusOver(roots: map<string, int>, rs: seq<Root>): Bonus
  {
    if rs == [] then Bonus(0, 0, 0)
    else
      var b := BonusOver(roots, rs[..|rs| - 1]);
      var c := RootBonus(roots, rs[|rs| - 1]);
      Bonus(b.attack + c.attack, b.defense + c.defense, b.hp + c.hp)
  }

  /** The total spirit-root bonus of a profile. */
  function SpiritBonus(roots: map<string, int>): Bonus
  {
    BonusOver(roots, AllRoots)
  }

  /**
   * The bonus in closed form: attack 5 per METAL and 8 per FIRE level, defense
   * 3 per EARTH and 2 per WATER level, HP 20 per WOOD level; it is never
   * negative, and it is zero when every root has less than 10 experience.
   */
  lemma SpiritBonusExactly(roots: map<string, int>)
    ensures SpiritBonus(roots) == Bonus(
      5 * RootLevelIn(roots, Metal) + 8 * RootLevelIn(roots, Fire),
      3 * RootLevelIn(roots, Earth) + 2 * RootLevelIn(roots, Water),
      20 * RootLevelIn(roots, Wood))
    ensures SpiritBonus(roots).attack >= 0 && SpiritBonus(roots).defense >= 0 && SpiritBonus(roots).hp >= 0
    ensures (forall k :: k in roots ==> roots[k] < 10) ==> SpiritBonus(roots) == Bonus(0, 0, 0)
  {
    var r := roots;
    assert RootBonus(r, Metal) == Bonus(5 * RootLevelIn(r, Metal), 0, 0);
    assert RootBonus(r, Fire) == Bonus(8 * RootLevelIn(r, Fire), 0, 0);
    assert RootBonus(r, Earth) == Bonus(0, 3 * RootLevelIn(r, Earth), 0);
    assert RootBonus(r, Water) == Bonus(0, 2 * RootLevelIn(r, Water), 0);
    assert RootBonus(r, Wood) == Bonus(0, 0, 20 * RootLevelIn(r, Wood));
    var m, w, a, f, e := RootLevelIn(r, Metal), RootLevelIn(r, Wood), RootLevelIn(r, Water), RootLevelIn(r, Fire), RootLevelIn(r, Earth);
    assert BonusOver(r, [Metal]) == Bonus(5 * m, 0, 0) by {
      assert [Metal][..0] == [];
    }
    assert BonusOver(r, [Metal, Wood]) == Bonus(5 * m, 0, 20 * w) by {
      assert [Metal, Wood][..1] == [Metal];
    }
    assert BonusOver(r, [Metal, Wood, Water]) == Bonus(5 * m, 2 * a, 20 * w) by {
      assert [Metal, Wood, Water][..2] == [Metal, Wood];
    }
    assert BonusOver(r, [Metal, Wood, Water, Fire]) == Bonus(5 * m + 8 * f, 2 * a, 20 * w) by {
      assert [Metal, Wood, Water, Fire][..3] == [Metal, Wood, Water];
    }
    assert AllRoots[..4] == [Metal, Wood, Water, Fire];
  }

  /** Adding the bonus to a profile's attack and defense (max HP is a separate field). */
  function WithBonus(s: Stats, b: Bonus): Stats
  {
    s.(attack := s.attack + b.attack, defense := s.defense + b.defense)
  }

  /** The max HP after the bonus: a null max HP counts as 100. */
  function HpWithBonus(maxHp: Option<int>, b: Bonus): int
  {
    (if maxHp.Some? then maxHp.value else 100) + b.hp
  }

  /**
   * What addExp stores as written: the loaded profile already carries the
   * bonus, and updateById saves it together with the credit.
   */
  function LoadAndCredit(s: Stats, roots: map<string, int>, amount: int, epiphany: bool): Stats
  {
    Credit(WithBonus(s, SpiritBonus(roots)), amount, epiphany)
  }

  /**
   * As written, every addExp stores the bonus again: two calls leave attack
   * and defense higher by twice the bonus than crediting alone would, so a
   * METAL root with 10 experience and two calls of addExp(0) take attack 10
   * to 22 instead of 12.
   */
  lemma AsWrittenBonusCompounds(s: Stats, roots: map<string, int>, a1: int, a2: int)
    ensures var twice := LoadAndCredit(LoadAndCredit(s, roots, a1, false), roots, a2, false);
      var plain := Credit(Credit(s, a1, false), a2, false);
      && twice.attack == plain.attack + 2 * SpiritBonus(roots).attack
      && twice.defense == plain.defense + 2 * SpiritBonus(roots).defense
      && twice.(attack := plain.attack, defense := plain.defense) == plain
    ensures var st := Stats(0, 0, 100, 10, 5);
      LoadAndCredit(LoadAndCredit(st, map["METAL" := 10], 0, false), map["METAL" := 10], 0, false).attack == 22
  {
    var m := map["METAL" := 10];
    assert RootLevelIn(m, Metal) == 1;
    assert RootLevelIn(m, Fire) == 0 && RootLevelIn(m, Earth) == 0 && RootLevelIn(m, Water) == 0;
    SpiritBonusExactly(m);
  }

  /**
   * The intended behaviour: the stored profile only gets the credit, and the
   * bonus is added once to the copy that is shown or used in battle, however
   * many credits came before.
   */
  function Displayed(stored: Stats, roots: map<string, int>): Stats
  {
    WithBonus(stored, SpiritBonus(roots))
  }

  /** Crediting the amounts in turn, as addExp(amount, false) calls one after another. */
  function CreditAll(s: Stats, amounts: seq<int>): Stats
  {
    if amounts == [] then s
    else Credit(CreditAll(s, amounts[..|amounts| - 1]), amounts[|amounts| - 1], false)
  }

  /** The stored profile after addExp calls as written: every call loads with the bonus and saves. */
  function LoadAndCreditAll(s: Stats, roots: map<string, int>, amounts: seq<int>): Stats
  {
    if amounts == [] then s
    else LoadAndCredit(LoadAndCreditAll(s, roots, amounts[..|amounts| - 1]), roots, amounts[|amounts| - 1], false)
  }

  /**
   * As written, after any number of addExp calls the stored attack and
   * defense exceed the plainly credited ones by one bonus per call, and every
   * other field agrees.
   */
  lemma {:induction false} AsWrittenBonusPerCredit(s: Stats, roots: map<string, int>, amounts: seq<int>)
    ensures var stored := LoadAndCreditAll(s, roots, amounts);
      var plain := CreditAll(s, amounts);
      && stored.attack == plain.attack + |amounts| * SpiritBonus(roots).attack
      && stored.defense == plain.defense + |amounts| * SpiritBonus(roots).defense
      && stored.(attack := plain.attack, defense := plain.defense) == plain
    decreases |amounts|
  {
    if amounts != [] {
      var init, a := amounts[..|amounts| - 1], amounts[|amounts| - 1];
      AsWrittenBonusPerCredit(s, roots, init);
      var b := SpiritBonus(roots);
      var w, p := LoadAndCreditAll(s, roots, init), CreditAll(s, init);
      assert LoadAndCreditAll(s, roots, amounts) == Credit(WithBonus(w, b), a, false);
      assert CreditAll(s, amounts) == Credit(p, a, false);
      CreditCommutes(w, p, b, a, |init|);
    }
  }

  /** One credit adds the same to attack whatever the attack was, so k earlier bonuses become k + 1. */
  lemma CreditCommutes(w: Stats, p: Stats, b: Bonus, a: int, k: nat)
    requires w.attack == p.attack + k * b.attack && w.defense == p.defense + k * b.defense
    requires w.(attack := p.attack, defense := p.defense) == p
    ensures var x, y := Credit(WithBonus(w, b), a, false), Credit(p, a, false);
      && x.attack == y.attack + (k + 1) * b.attack
      && x.defense == y.defense + (k + 1) * b.defense
      && x.(attack := y.attack, defense := y.defense) == y
  {
    assert (k + 1) * b.attack == k * b.attack + b.attack;
    assert (k + 1) * b.defense == k * b.defense + b.defense;
  }

  /**
   * With the bonus kept out of the stored profile, showing it after any
   * number of credits is the same as crediting the shown starting profile:
   * the bonus is counted exactly once, whereas the as-written stored value
   * carries one bonus per credit, |amounts| - 1 more than the shown one.
   */
  lemma {:induction false} IntendedBonusAppliedOnce(s: Stats, roots: map<string, int>, amounts: seq<int>)
    ensures Displayed(CreditAll(s, amounts), roots) == CreditAll(Displayed(s, roots), amounts)
    ensures var shown := Displayed(CreditAll(s, amounts), roots);
      var stored := LoadAndCreditAll(s, roots, amounts);
      && stored.attack == shown.attack + (|amounts| - 1) * SpiritBonus(roots).attack
      && stored.defense == shown.defense + (|amounts| - 1) * SpiritBonus(roots).defense
    decreases |amounts|
  {
    if amounts != [] {
      IntendedBonusAppliedOnce(s, roots, amounts[..|amounts| - 1]);
    }
    AsWrittenBonusPerCredit(s, roots, amounts);
    var b := SpiritBonus(roots);
    assert (|amounts| - 1) * b.attack == |amounts| * b.attack - b.attack;
    assert (|amounts| - 1) * b.defense == |amounts| * b.defense - b.defense;
  }

  /** A student's cultivation profile (the mutable entity behind the service). */
  class Profile {
    var realmLevel: int
    var currentExp: int
    var maxExp: int
    var attack: int
    var defense: int
    var lastSettlementTime: Option<int>
    /** Max HP, which a fresh profile leaves null. */
    var maxHp: Option<int>
    /** The parsed spiritRoots JSON: experience per root name. */
    var spiritRoots: map<string, int>

    function Snapshot(): Stats
      reads this
    {
      Stats(realmLevel, currentExp, maxExp, attack, defense)
    }

    /** getOrCreateProfile's fresh profile: level 0, no experience, cap 100, attack 10, defense 5. */
    constructor (nowMs: int)
      ensures Snapshot() == Stats(0, 0, Mortal.BaseMaxExp(), 10, 5) && ValidStats(Snapshot())
      ensures lastSettlementTime == Some(nowMs) && maxHp == None && spiritRoots == map[]
    {
      realmLevel, currentExp, maxExp, attack, defense := 0, 0, Mortal.BaseMaxExp(), 10, 5;
      lastSettlementTime := Some(nowMs);
      maxHp, spiritRoots := None, map[];
    }

    /**
     * applySpiritRootBonuses, which getOrCreateProfile runs on every load:
     * the bonus of every root is added to attack, defense and max HP of this
     * very profile object.
     */
    method ApplySpiritRootBonuses()
      modifies this`attack, this`defense, this`maxHp
      ensures Snapshot() == WithBonus(old(Snapshot()), SpiritBonus(spiritRoots))
      ensures maxHp == Some(HpWithBonus(old(maxHp), SpiritBonus(spiritRoots)))
    {
      var baseAttack := attack;
      var baseDefense := defense;
      var baseHp := if maxHp.Some? then maxHp.value else 100;
      for i := 0 to |AllRoots|
        invariant var b := BonusOver(spiritRoots, AllRoots[..i]);
          baseAttack == attack + b.attack && baseDefense == defense + b.defense
          && baseHp == (if maxHp.Some? then maxHp.value else 100) + b.hp
      {
        assert AllRoots[..i + 1][..i] == AllRoots[..i];
        var root := AllRoots[i];
        var exp := if RootKey(root) in spiritRoots then spiritRoots[RootKey(root)] else 0;
        var level := RootLevel(exp);
        if level > 0 {
          match root
          case Metal => baseAttack := baseAttack + level * 5;
          case Earth => baseDefense := baseDefense + level * 3;
          case Wood => baseHp := baseHp + level * 20;
          case Fire => baseAttack := baseAttack + level * 8;
          case Water => baseDefense := baseDefense + level * 2;
        }
      }
      assert AllRoots[..|AllRoots|] == AllRoots;
      attack := baseAttack;
      defense := baseDefense;
      maxHp := Some(baseHp);
    }

    method DoSuccess()
      modifies this`realmLevel, this`currentExp, this`maxExp, this`attack, this`defense
      ensures Snapshot() == Succeed(old(Snapshot()))
    {
      currentExp := Max(0, currentExp - maxExp);
      var newLevel := realmLevel + 1;
      realmLevel := newLevel;
      var newRealm := GetByLevel(newLevel);
      if JavaRem(newLevel, 10) == 0 {
        maxExp := newRealm.BaseMaxExp();
      } else {
        maxExp := Trunc(maxExp as real * 1.2);
      }
      if JavaRem(newLevel, 10) == 0 {
        attack := attack + newRealm.AtkBonus();
        defense := defense + newRealm.DefBonus();
      } else {
        attack := Trunc(attack as real * 1.1) + 10;
        defense := Trunc(defense as real * 1.1) + 5;
      }
    }

    method DoFail()
      modifies this`currentExp
      ensures Snapshot() == Fail(old(Snapshot()))
    {
      var lostExp := Trunc(maxExp as real * 0.2);
      var newExp := currentExp - lostExp;
      currentExp := Max(newExp, 0);
    }

    /**
     * addExp on this profile: the load through getOrCreateProfile adds the
     * spirit-root bonus, then the credit follows, and updateById stores both;
     * the 5% epiphany roll is the parameter `epiphany`.
     */
    method AddExp(amount: int, epiphany: bool)
      modifies this`currentExp, this`attack, this`defense, this`maxHp
      ensures Snapshot() == LoadAndCredit(old(Snapshot()), spiritRoots, amount, epiphany)
      ensures maxHp == Some(HpWithBonus(old(maxHp), SpiritBonus(spiritRoots)))
    {
      ApplySpiritRootBonuses();
      var gained := amount;
      if epiphany {
        gained := gained * 2;
      }
      currentExp := currentExp + gained;
      var atkGrowth := if gained > 10 then gained / 10 else 1;
      attack := attack + atkGrowth;
    }

    /**
     * settleAfkReward: the load adds the spirit-root bonus, every outcome
     * moves the settlement clock to now, and a settled absence, computed with
     * the bonus defense, credits its experience through addExp, whose own load
     * adds the bonus once more; the epiphany roll is the parameter `epiphany`.
     */
    method SettleAfkReward(nowMs: int, epiphany: bool) returns (r: AfkOutcome)
      modifies this
      ensures var loaded := WithBonus(old(Snapshot()), SpiritBonus(spiritRoots));
        r == AfkSettlement(old(lastSettlementTime), nowMs, loaded.realmLevel, loaded.defense)
      ensures lastSettlementTime == Some(nowMs) && spiritRoots == old(spiritRoots)
      ensures var loaded := WithBonus(old(Snapshot()), SpiritBonus(spiritRoots));
        Snapshot() == if r.Settled? then LoadAndCredit(loaded, spiritRoots, r.exp, epiphany) else loaded
      ensures var hp := HpWithBonus(old(maxHp), SpiritBonus(spiritRoots));
        maxHp == Some(if r.Settled? then HpWithBonus(Some(hp), SpiritBonus(spiritRoots)) else hp)
    {
      ApplySpiritRootBonuses();
      r := AfkSettlement(lastSettlementTime, nowMs, realmLevel, defense);
      if r.Settled? {
        AddExp(r.exp, epiphany);
      }
      lastSettlementTime := Some(nowMs);
    }
  }
}
