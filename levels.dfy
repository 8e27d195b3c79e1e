// Level progression and the item queries of the game configuration
// (config/mod.rs).
module Levels {
  import opened Wrappers
  import opened Seqs
  import opened Confs

  /**
   * What `max_level_info` reports. The names are those of the source, where
   * `xpToGo` holds the xp earned inside the current level and `xpSoFar` the
   * xp still missing from it.
   */
  datatype LevelInfo = LevelInfo(xpSoFar: nat, xpToGo: nat, totalLevelXp: nat, lastUnlockedIndex: nat)

  /**
   * The meaning of a `LevelInfo` for `yourXp` against the per-level thresholds
   * `levelXps`: `lastUnlockedIndex` levels are paid for in full, and either the
   * next one is not, or every level is.
   */
  ghost predicate Describes(yourXp: nat, levelXps: seq<nat>, info: LevelInfo)
  {
    var idx := info.lastUnlockedIndex;
    && idx <= |levelXps|
    && Sum(levelXps[..idx]) <= yourXp
    && (idx < |levelXps| ==>
          && yourXp < Sum(levelXps[..idx + 1])
          && info.xpToGo == yourXp - Sum(levelXps[..idx])
          && info.totalLevelXp == levelXps[idx]
          && info.xpSoFar + info.xpToGo == info.totalLevelXp
          && info.xpToGo < info.totalLevelXp)
    && (idx == |levelXps| ==> info.xpSoFar == 0 && info.xpToGo == 0 && info.totalLevelXp == 0)
  }

  /**
   * `max_level_info`: walks the thresholds, subtracting each one that `yourXp`
   * still covers (`checked_sub` succeeds), and stops at the first one it does
   * not.
   */
  method MaxLevelInfo(yourXp: nat, levelXps: seq<nat>) returns (info: LevelInfo)
    ensures Describes(yourXp, levelXps, info)
    ensures info.lastUnlockedIndex < |levelXps| ==> levelXps[info.lastUnlockedIndex] > 0
  {
    var remaining: nat := yourXp;
    var xpSoFar: nat, xpToGo: nat, totalLevelXp: nat := 0, 0, 0;
    var lastUnlockedIndex: nat := |levelXps|;
    var i: nat := 0;
    while i < |levelXps|
      invariant i <= |levelXps|
      invariant remaining + Sum(levelXps[..i]) == yourXp
    {
      var xp := levelXps[i];
      SumPrefixStep(levelXps, i);
      if remaining < xp {
        xpToGo := remaining;
        xpSoFar := xp - remaining;
        totalLevelXp := xp;
        lastUnlockedIndex := i;
        break;
      }
      remaining := remaining - xp;
      i := i + 1;
    }
    assert levelXps[..|levelXps|] == levelXps;
    info := LevelInfo(xpSoFar, xpToGo, totalLevelXp, lastUnlockedIndex);
  }

  /** `max_level_index`: the index part of `max_level_info`. */
  method MaxLevelIndex(yourXp: nat, levelXps: seq<nat>) returns (index: nat)
    ensures index <= |levelXps|
    ensures Sum(levelXps[..index]) <= yourXp
    ensures index < |levelXps| ==> yourXp < Sum(levelXps[..index + 1])
  {
    var info := MaxLevelInfo(yourXp, levelXps);
    index := info.lastUnlockedIndex;
  }

  /** At most one `LevelInfo` describes a given xp, so `Describes` pins the result down. */
  lemma DescribesUnique(yourXp: nat, levelXps: seq<nat>, a: LevelInfo, b: LevelInfo)
    requires Describes(yourXp, levelXps, a) && Describes(yourXp, levelXps, b)
    ensures a == b
  {
    var i, j := a.lastUnlockedIndex, b.lastUnlockedIndex;
    if i < j {
      SumPrefixMonotone(levelXps, i + 1, j);
    } else if j < i {
      SumPrefixMonotone(levelXps, j + 1, i);
    }
  }

  /** Every threshold before the reached level is at most the xp, a zero threshold in particular. */
  lemma PassedLevelsCovered(yourXp: nat, levelXps: seq<nat>, info: LevelInfo, k: nat)
    requires Describes(yourXp, levelXps, info)
    requires k < info.lastUnlockedIndex
    ensures levelXps[k] <= yourXp
  {
    SumPrefixMonotone(levelXps, k + 1, info.lastUnlockedIndex);
    SumPrefixStep(levelXps, k);
  }

  /** The land-unlock record of an item archetype; only its presence matters here. */
  datatype LandUnlock = LandUnlock(details: string)

  /** The fields of `item::Config` that the configuration queries read. */
  datatype ItemConfig = ItemConfig(name: string, welcomeGift: bool, growsInto: Option<PlantConf>, unlocksLand: Option<LandUnlock>)

  /** `Config`, reduced to its item archetypes (the values of the item map, in iteration order). */
  datatype Config = Config(items: seq<ItemConfig>)
  {
    /** `item_named`: the first item with exactly that name. */
    function ItemNamed(itemName: string): (r: Option<ItemConfig>)
      ensures r.Some? <==> exists i :: 0 <= i < |items| && items[i].name == itemName
      ensures r.Some? ==> r.value in items && r.value.name == itemName
    {
      match FirstIndex(items, (c: ItemConfig) => c.name == itemName)
      case None => None
      case Some(i) => Some(items[i])
    }

    /** `welcome_gifts`: the items marked as a welcome gift. */
    function WelcomeGifts(): (r: seq<ItemConfig>)
      ensures forall c :: c in r <==> c in items && c.welcomeGift
    {
      Filter(items, (c: ItemConfig) => c.welcomeGift)
    }

    /** `seeds`: each item that grows into a plant, paired with that plant. */
    function Seeds(): (r: seq<(PlantConf, ItemConfig)>)
      ensures forall p, c :: (p, c) in r <==> c in items && c.growsInto == Some(p)
    {
      FilterMap(items, (c: ItemConfig) => if c.growsInto.Some? then Some((c.growsInto.value, c)) else None)
    }

    /** `land_unlockers`: each item that unlocks land, paired with its unlock record. */
    function LandUnlockers(): (r: seq<(LandUnlock, ItemConfig)>)
      ensures forall u, c :: (u, c) in r <==> c in items && c.unlocksLand == Some(u)
    {
      FilterMap(items, (c: ItemConfig) => if c.unlocksLand.Some? then Some((c.unlocksLand.value, c)) else None)
    }
  }
}
