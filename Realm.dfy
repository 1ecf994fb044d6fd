/**
 * The eleven cultivation realms and the lookup from a cultivation level to
 * its realm. Every ten levels form one realm; level 0 is a mortal.
 */
module Realm {
  import opened Common

  datatype Realm =
    | Mortal | QiPractice | Foundation | GoldenCore | NascentSoul | SpiritSevering
    | VoidRefining | BodyIntegration | Mahayana | Tribulation | Ascension
  {
    function Index(): (i: nat)
      ensures i <= 10
    {
      match this
      case Mortal => 0
      case QiPractice => 1
      case Foundation => 2
      case GoldenCore => 3
      case NascentSoul => 4
      case SpiritSevering => 5
      case VoidRefining => 6
      case BodyIntegration => 7
      case Mahayana => 8
      case Tribulation => 9
      case Ascension => 10
    }

    function Name(): string
    {
      match this
      case Mortal => "凡人"
      case QiPractice => "炼气期"
      case Foundation => "筑基期"
      case GoldenCore => "金丹期"
      case NascentSoul => "元婴期"
      case SpiritSevering => "化神期"
      case VoidRefining => "炼虚期"
      case BodyIntegration => "合体期"
      case Mahayana => "大乘期"
      case Tribulation => "渡劫期"
      case Ascension => "飞升仙界"
    }

    /** Base breakthrough success rate. */
    function SuccessRate(): real
    {
      match this
      case Mortal => 1.00
      case QiPractice => 0.90
      case Foundation => 0.80
      case GoldenCore => 0.70
      case NascentSoul => 0.60
      case SpiritSevering => 0.50
      case VoidRefining => 0.40
      case BodyIntegration => 0.30
      case Mahayana => 0.20
      case Tribulation => 0.10
      case Ascension => 0.0
    }

    /** The experience cap at the first level of the realm. */
    function BaseMaxExp(): int
    {
      match this
      case Mortal => 100
      case QiPractice => 200
      case Foundation => 500
      case GoldenCore => 1200
      case NascentSoul => 3000
      case SpiritSevering => 8000
      case VoidRefining => 20000
      case BodyIntegration => 50000
      case Mahayana => 150000
      case Tribulation => 500000
      case Ascension => 999999999
    }

    function AtkBonus(): int
    {
      match this
      case Mortal => 0
      case QiPractice => 10
      case Foundation => 50
      case GoldenCore => 150
      case NascentSoul => 400
      case SpiritSevering => 1000
      case VoidRefining => 2500
      case BodyIntegration => 6000
      case Mahayana => 15000
      case Tribulation => 40000
      case Ascension => 100000
    }

    function DefBonus(): int
    {
      match this
      case Mortal => 0
      case QiPractice => 5
      case Foundation => 20
      case GoldenCore => 60
      case NascentSoul => 150
      case SpiritSevering => 400
      case VoidRefining => 1000
      case BodyIntegration => 2500
      case Mahayana => 6000
      case Tribulation => 15000
      case Ascension => 50000
    }
  }

  /** The realms in declaration order, as values() lists them. */
  const AllRealms: seq<Realm> := [
    Mortal, QiPractice, Foundation, GoldenCore, NascentSoul, SpiritSevering,
    VoidRefining, BodyIntegration, Mahayana, Tribulation, Ascension
  ]

  /** The first realm of `rs` whose index is `idx`. */
  function FindByIndex(rs: seq<Realm>, idx: int): (r: Option<Realm>)
    ensures r.Some? ==> r.value in rs && r.value.Index() == idx
    ensures r.None? ==> forall x :: x in rs ==> x.Index() != idx
  {
    if rs == [] then None
    else if rs[0].Index() == idx then Some(rs[0])
    else FindByIndex(rs[1..], idx)
  }

  /** RealmEnum.getByLevel: the realm whose index is level / 10, or ASCENSION when none is. */
  function GetByLevel(level: int): (r: Realm)
    ensures 0 <= JavaDiv(level, 10) <= 10 ==> r.Index() == JavaDiv(level, 10)
    ensures !(0 <= JavaDiv(level, 10) <= 10) ==> r == Ascension
  {
    var idx := JavaDiv(level, 10);
    assert forall i :: 0 <= i <= 10 ==> AllRealms[i].Index() == i;
    assert 0 <= idx <= 10 ==> AllRealms[idx] in AllRealms && AllRealms[idx].Index() == idx;
    match FindByIndex(AllRealms, idx)
    case Some(realm) => realm
    case None => Ascension
  }

  /** Levels from 100 up are all ASCENSION; so are levels of -10 and below, whose index is negative. */
  lemma HighAndNegativeLevelsAscend(level: int)
    requires level >= 100 || level <= -10
    ensures GetByLevel(level) == Ascension
  {
    var r := GetByLevel(level);
    if level >= 100 && JavaDiv(level, 10) <= 10 {
      assert r.Index() == 10;
    }
  }

  /** A higher realm never lowers the base experience cap or raises the success rate. */
  lemma RealmOrdering(a: Realm, b: Realm)
    requires a.Index() <= b.Index()
    ensures a.BaseMaxExp() <= b.BaseMaxExp()
    ensures a.SuccessRate() >= b.SuccessRate()
    ensures a.AtkBonus() <= b.AtkBonus() && a.DefBonus() <= b.DefBonus()
  {
  }

  /** Along non-negative levels, the realm's cap never drops and its success rate never rises. */
  lemma GetByLevelMonotone(l1: int, l2: int)
    requires 0 <= l1 <= l2
    ensures GetByLevel(l1).Index() <= GetByLevel(l2).Index()
    ensures GetByLevel(l1).BaseMaxExp() <= GetByLevel(l2).BaseMaxExp()
    ensures GetByLevel(l1).SuccessRate() >= GetByLevel(l2).SuccessRate()
  {
    assert l1 / 10 <= l2 / 10;
    RealmOrdering(GetByLevel(l1), GetByLevel(l2));
  }
}
