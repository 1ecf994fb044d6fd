/**
 * The ranked tiers of the knowledge battle: the tier a player's points reach,
 * its display name, and the neighbouring tiers matchmaking widens to.
 */
module BattleTiers {
  import opened Common

  /** ORDERED_TIERS: the tier constants from lowest to highest. */
  function OrderedTiers(): seq<string>
  {
    ["IRON", "BRONZE", "SILVER", "GOLD", "PLATINUM", "EMERALD", "DIAMOND", "MASTER", "GRANDMASTER", "CHALLENGER"]
  }

  /** The display names of the tiers, in the same order. */
  function TierNamesCN(): seq<string>
  {
    ["坚韧黑铁", "英勇黄铜", "不屈白银", "荣耀黄金", "华贵铂金", "流光翡翠", "璀璨钻石", "超凡大师", "傲世宗师", "最强王者"]
  }

  function UnrankedNameCN(): string
  {
    "未定级"
  }

  /** The lowest points of each tier above IRON. */
  function Thresholds(): seq<int>
  {
    [100, 200, 300, 400, 500, 600, 800, 1000, 1200]
  }

  lemma TierTablesDistinct()
    ensures |OrderedTiers()| == 10 && Distinct(OrderedTiers())
    ensures |TierNamesCN()| == 10 && Distinct(TierNamesCN()) && UnrankedNameCN() !in TierNamesCN()
  {
  }

  /** The position in ORDERED_TIERS of the tier calculateTier gives for `points`. */
  function TierRank(points: int): (i: nat)
    ensures i < 10
  {
    if points < 100 then 0
    else if points < 200 then 1
    else if points < 300 then 2
    else if points < 400 then 3
    else if points < 500 then 4
    else if points < 600 then 5
    else if points < 800 then 6
    else if points < 1000 then 7
    else if points < 1200 then 8
    else 9
  }

  /** calculateTier */
  function CalculateTier(points: int): (tier: string)
    ensures tier in OrderedTiers()
  {
    OrderedTiers()[TierRank(points)]
  }

  /** calculateTier gives the tier at position TierRank(points) of ORDERED_TIERS. */
  lemma CalculateTierIndex(points: int)
    ensures IndexOfElem(OrderedTiers(), CalculateTier(points)) == TierRank(points)
  {
    TierTablesDistinct();
    IndexOfDistinct(OrderedTiers(), TierRank(points));
  }

  /** The tier lies above the i-th one exactly when the points reach the i-th threshold. */
  lemma TierByThresholds(points: int, i: int)
    requires 0 <= i < |Thresholds()|
    ensures TierRank(points) > i <==> points >= Thresholds()[i]
  {
  }

  /** More points never give a lower tier. */
  lemma CalculateTierMonotone(p1: int, p2: int)
    requires p1 <= p2
    ensures 0 <= IndexOfElem(OrderedTiers(), CalculateTier(p1)) <= IndexOfElem(OrderedTiers(), CalculateTier(p2))
  {
    var i := TierRank(p1);
    CalculateTierIndex(p1);
    CalculateTierIndex(p2);
    if 1 <= i {
      TierByThresholds(p1, i - 1);
      TierByThresholds(p2, i - 1);
    }
  }

  /** getTierNameCN: a tier's display name, or the "unranked" name for an unknown string. */
  function TierNameCN(tier: string): (name: string)
    ensures tier !in OrderedTiers() <==> name == UnrankedNameCN()
    ensures forall k :: 0 <= k < |OrderedTiers()| && OrderedTiers()[k] == tier ==> name == TierNamesCN()[k]
  {
    TierTablesDistinct();
    var i := IndexOfElem(OrderedTiers(), tier);
    assert forall k :: 0 <= k < |OrderedTiers()| && OrderedTiers()[k] == tier ==> i == k by {
      forall k | 0 <= k < |OrderedTiers()| && OrderedTiers()[k] == tier ensures i == k { IndexOfDistinct(OrderedTiers(), k); }
    }
    if i == -1 then UnrankedNameCN() else TierNamesCN()[i]
  }

  /** Different tiers have different display names. */
  lemma TierNamesDistinct(a: string, b: string)
    requires a in OrderedTiers() && b in OrderedTiers() && a != b
    ensures TierNameCN(a) != TierNameCN(b)
  {
    TierTablesDistinct();
    var i :| 0 <= i < 10 && OrderedTiers()[i] == a;
    var j :| 0 <= j < 10 && OrderedTiers()[j] == b;
    assert TierNameCN(a) == TierNamesCN()[i] && TierNameCN(b) == TierNamesCN()[j];
  }

  // ---------------------------------------------------------------------------
  // Matchmaking
  // ---------------------------------------------------------------------------

  /*
   * The matchmaking helpers take the tier order as a parameter `order`;
   * the service passes ORDERED_TIERS, whose entries are distinct.
   */

  /** The tiers found by the first n steps of the downward loop: positions index-1 .. index-n that exist. */
  function Below(order: seq<string>, index: nat, n: nat): seq<string>
    requires index < |order|
  {
    if n == 0 then [] else Below(order, index, n - 1) + (if index - n >= 0 then [order[index - n]] else [])
  }

  /** The tiers found by the first n steps of the upward loop: positions index+1 .. index+n that exist. */
  function Above(order: seq<string>, index: nat, n: nat): seq<string>
    requires index < |order|
  {
    if n == 0 then [] else Above(order, index, n - 1) + (if index + n < |order| then [order[index + n]] else [])
  }

  /** The downward loop finds min(n, index) tiers, nearest first. */
  lemma {:induction false} BelowAt(order: seq<string>, index: nat, n: nat)
    requires index < |order|
    ensures |Below(order, index, n)| == Min(n, index)
    ensures forall k :: 0 <= k < |Below(order, index, n)| ==> Below(order, index, n)[k] == order[index - 1 - k]
  {
    if n > 0 {
      BelowAt(order, index, n - 1);
    }
  }

  /** The upward loop finds min(n, |order| - 1 - index) tiers, nearest first. */
  lemma {:induction false} AboveAt(order: seq<string>, index: nat, n: nat)
    requires index < |order|
    ensures |Above(order, index, n)| == Min(n, |order| - 1 - index)
    ensures forall k :: 0 <= k < |Above(order, index, n)| ==> Above(order, index, n)[k] == order[index + 1 + k]
  {
    if n > 0 {
      AboveAt(order, index, n - 1);
    }
  }

  /** The tiers addAdjacentTiers appends for `currentTier`: none for an unknown tier, else the lower then the higher neighbours. */
  function AdjacentTiers(order: seq<string>, currentTier: string, range: int): seq<string>
  {
    var index := IndexOfElem(order, currentTier);
    if index == -1 then [] else Below(order, index, Max(0, range)) + Above(order, index, Max(0, range))
  }

  /** The two loops of addAdjacentTiers, for a tier found at `index`. */
  method AppendAdjacent(order: seq<string>, tiers: seq<string>, index: nat, range: int) returns (result: seq<string>)
    requires index < |order|
    ensures result == tiers + Below(order, index, Max(0, range)) + Above(order, index, Max(0, range))
  {
    result := tiers;
    var i := 1;
    while i <= range
      invariant 1 <= i <= Max(1, range + 1)
      invariant result == tiers + Below(order, index, i - 1)
    {
      if index - i >= 0 {
        result := result + [order[index - i]];
      }
      i := i + 1;
    }
    var lower := result;
    i := 1;
    while i <= range
      invariant 1 <= i <= Max(1, range + 1)
      invariant result == lower + Above(order, index, i - 1)
    {
      if index + i < |order| {
        result := result + [order[index + i]];
      }
      i := i + 1;
    }
  }

  /** addAdjacentTiers, appending to a copy of `tiers`. */
  method AddAdjacentTiers(order: seq<string>, tiers: seq<string>, currentTier: string, range: int) returns (result: seq<string>)
    ensures result == tiers + AdjacentTiers(order, currentTier, range)
  {
    var index := IndexOfElem(order, currentTier);
    if index == -1 {
      return tiers;
    }
    result := AppendAdjacent(order, tiers, index, range);
  }

  /** The position of the k-th appended neighbour of the tier at `index`: lower ones nearest first, then higher ones nearest first. */
  lemma AdjacentAt(order: seq<string>, index: nat, range: nat, k: int)
    requires Distinct(order) && index < |order|
    requires 0 <= k < |Below(order, index, range) + Above(order, index, range)|
    ensures var adj := Below(order, index, range) + Above(order, index, range); var lo := |Below(order, index, range)|;
      IndexOfElem(order, adj[k]) == (if k < lo then index - 1 - k else index + 1 + (k - lo))
  {
    BelowAt(order, index, range);
    AboveAt(order, index, range);
    var lo := |Below(order, index, range)|;
    IndexOfDistinct(order, if k < lo then index - 1 - k else index + 1 + (k - lo));
  }

  /** Every appended tier is a known tier whose distance from the current one is between 1 and `range`. */
  lemma AdjacentTiersInRange(order: seq<string>, current: string, range: int)
    requires Distinct(order) && current in order
    ensures var adj := AdjacentTiers(order, current, range); var c := IndexOfElem(order, current);
      forall k :: 0 <= k < |adj| ==>
        0 <= IndexOfElem(order, adj[k]) && 1 <= Abs(IndexOfElem(order, adj[k]) - c) <= range
  {
    var index := IndexOfElem(order, current);
    var adj := Below(order, index, Max(0, range)) + Above(order, index, Max(0, range));
    BelowAt(order, index, Max(0, range));
    AboveAt(order, index, Max(0, range));
    forall k | 0 <= k < |adj|
      ensures 0 <= IndexOfElem(order, adj[k]) && 1 <= Abs(IndexOfElem(order, adj[k]) - index) <= range
    {
      AdjacentAt(order, index, Max(0, range), k);
    }
  }

  /** The tier at position j, within `range` of position `index` and not at it, is one of those appended. */
  lemma AdjacentContains(order: seq<string>, index: nat, range: nat, j: int)
    requires index < |order| && 0 <= j < |order| && 1 <= Abs(j - index) <= range
    ensures order[j] in Below(order, index, range) + Above(order, index, range)
  {
    var lo := Below(order, index, range);
    var adj := lo + Above(order, index, range);
    BelowAt(order, index, range);
    AboveAt(order, index, range);
    if j < index {
      assert adj[index - 1 - j] == order[j];
    } else {
      assert adj[|lo| + j - index - 1] == order[j];
    }
  }

  /** Every tier within `range` of the current one, other than itself, is appended. */
  lemma AdjacentTiersComplete(order: seq<string>, current: string, range: int)
    requires current in order
    ensures var adj := AdjacentTiers(order, current, range); var c := IndexOfElem(order, current);
      forall j :: 0 <= j < |order| && 1 <= Abs(j - c) <= range ==> order[j] in adj
  {
    var index := IndexOfElem(order, current);
    forall j | 0 <= j < |order| && 1 <= Abs(j - index) <= range
      ensures order[j] in Below(order, index, Max(0, range)) + Above(order, index, Max(0, range))
    {
      AdjacentContains(order, index, Max(0, range), j);
    }
  }

  /**
   * For tiers at positions x and then y appended around position c: both
   * below and descending, one on each side, or both above and ascending.
   */
  predicate NeighbourOrder(c: int, x: int, y: int)
  {
    y < x < c || x < c < y || c < x < y
  }

  /** The lower neighbours come first, in descending order, and then the higher ones in ascending order. */
  lemma AdjacentTiersOrdered(order: seq<string>, current: string, range: int)
    requires Distinct(order) && current in order
    ensures var adj := AdjacentTiers(order, current, range); var c := IndexOfElem(order, current);
      forall k, l :: 0 <= k < l < |adj| ==> NeighbourOrder(c, IndexOfElem(order, adj[k]), IndexOfElem(order, adj[l]))
  {
    var index := IndexOfElem(order, current);
    var adj := Below(order, index, Max(0, range)) + Above(order, index, Max(0, range));
    assert AdjacentTiers(order, current, range) == adj;
    forall k, l | 0 <= k < l < |adj|
      ensures NeighbourOrder(index, IndexOfElem(order, adj[k]), IndexOfElem(order, adj[l]))
    {
      AdjacentAt(order, index, Max(0, range), k);
      AdjacentAt(order, index, Max(0, range), l);
    }
  }

  /** An unknown current tier adds nothing. */
  lemma UnknownTierAddsNothing(order: seq<string>, current: string, range: int)
    requires current !in order
    ensures AdjacentTiers(order, current, range) == []
  {
  }
}
