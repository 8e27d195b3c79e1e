// A player's hackstead (hackstead/mod.rs): their profile, their land (tiles,
// each maybe holding a plant) and their inventory of items, with the queries
// over them.
module Hacksteads {
  import opened Wrappers
  import opened Seqs
  import opened Uuids
  import opened Archetypes
  import Items
  import HI = HacksteadItems
  import TP = TilePlants
  import Identifiers

  /** `Profile`; the timestamps are left out. `xp` and `extraLandPlotCount` are `i32`s. */
  datatype Profile = Profile(steaderId: Uuid, slackId: Option<string>, xp: Items.i32, extraLandPlotCount: Items.i32)

  /** `Profile::new`: a profile for a new steader id (the fresh identifier the source draws). */
  function NewProfile(slackId: Option<string>, steaderId: Uuid): (p: Profile)
    ensures p.steaderId == steaderId && p.slackId == slackId
    ensures p.xp == 0 && p.extraLandPlotCount == 0
  {
    Profile(steaderId, slackId, 0, 0)
  }

  /** `TileBase`; the acquisition time is left out. */
  datatype TileBase = TileBase(ownerId: Uuid, tileId: Uuid)

  datatype Tile = Tile(plant: Option<TP.Plant>, base: TileBase)

  /** `Tile::new`: an empty tile owned by `ownerId`, with the fresh id `tileId`. */
  function NewTile(ownerId: Uuid, tileId: Uuid): (t: Tile)
    ensures t.plant.None? && t.base.ownerId == ownerId && t.base.tileId == tileId
  {
    Tile(None, TileBase(ownerId, tileId))
  }

  datatype Hackstead = Hackstead(profile: Profile, land: seq<Tile>, inventory: seq<HI.Item>)

  /** `Hackstead::empty`: a fresh profile for the given slack id, no land and no items. */
  function Empty(slackId: Option<string>, steaderId: Uuid): (h: Hackstead)
    ensures h.land == [] && h.inventory == []
    ensures h.profile.slackId == slackId && h.profile.steaderId == steaderId
    ensures h.profile.xp == 0 && h.profile.extraLandPlotCount == 0
  {
    Hackstead(NewProfile(slackId, steaderId), [], [])
  }

  /** The archetypes a new hackstead is given, in configuration order. */
  function WelcomeGifts(archetypes: seq<Archetype>): (r: seq<Archetype>)
    ensures forall a :: a in r <==> a in archetypes && a.welcomeGift
  {
    Filter(archetypes, (a: Archetype) => a.welcomeGift)
  }

  /** Making the `k`th welcome gift for `owner`, with the `k`th fresh item id. */
  function GiftMaker(archetypes: seq<Archetype>, owner: Identifiers.SteaderId, freshItemId: nat -> Identifiers.ItemId): (f: ((nat, Archetype)) -> Result<HI.Item, ConfigError>)
    ensures forall p :: f(p) == HI.FromArchetype(archetypes, p.1, owner, HI.Spawned(), freshItemId(p.0))
  {
    (p: (nat, Archetype)) => HI.FromArchetype(archetypes, p.1, owner, HI.Spawned(), freshItemId(p.0))
  }

  /** The inventory `new_user` collects before the `expect`. */
  function WelcomeInventory(archetypes: seq<Archetype>, owner: Identifiers.SteaderId, freshItemId: nat -> Identifiers.ItemId): (r: Result<seq<HI.Item>, ConfigError>)
    ensures Agrees(Enumerate(WelcomeGifts(archetypes)), GiftMaker(archetypes, owner, freshItemId), r)
  {
    Collect(Enumerate(WelcomeGifts(archetypes)), GiftMaker(archetypes, owner, freshItemId))
  }

  /**
   * The `expect` in `new_user` never fires: every welcome gift is one of the
   * configuration's archetypes, so each item is made, one per gift, in order.
   */
  lemma WelcomeInventoryOk(archetypes: seq<Archetype>, owner: Identifiers.SteaderId, freshItemId: nat -> Identifiers.ItemId)
    ensures var r := WelcomeInventory(archetypes, owner, freshItemId);
      var gifts := WelcomeGifts(archetypes);
      && r.Ok? && |r.value| == |gifts|
      && forall k :: 0 <= k < |gifts| ==>
        HI.FromArchetype(archetypes, gifts[k], owner, HI.Spawned(), freshItemId(k)) == Ok(r.value[k])
  {
    var gifts := WelcomeGifts(archetypes);
    var f := GiftMaker(archetypes, owner, freshItemId);
    AgreesEnumerated(gifts, f, WelcomeInventory(archetypes, owner, freshItemId));
    forall k | 0 <= k < |gifts| ensures f((k, gifts[k])).Ok? {
      assert gifts[k] in gifts;
    }
  }

  /**
   * `Hackstead::new_user`: a fresh profile; one empty tile, owned by the new
   * steader; and one item per welcome gift, in configuration order, owned by
   * the steader and logged as spawned (traded) with owner index 0. The
   * steader, tile and item ids are the fresh identifiers the source draws.
   */
  function NewUser(archetypes: seq<Archetype>, slackId: Option<string>, steaderId: Uuid, tileId: Uuid, freshItemId: nat -> Identifiers.ItemId): (h: Hackstead)
    ensures h.profile == NewProfile(slackId, steaderId)
    ensures h.land == [NewTile(steaderId, tileId)]
    ensures |h.inventory| == |WelcomeGifts(archetypes)|
    ensures forall k :: 0 <= k < |h.inventory| ==>
      var item := h.inventory[k];
      && item.archetypeHandle < |archetypes|
      && archetypes[item.archetypeHandle] == WelcomeGifts(archetypes)[k]
      && archetypes[item.archetypeHandle].welcomeGift
      && item.itemId == freshItemId(k)
      && item.ownerId == Identifiers.SteaderId(steaderId)
      && item.ownershipLog == [HI.LoggedOwner(Identifiers.SteaderId(steaderId), HI.Trade, 0)]
  {
    var owner := Identifiers.SteaderId(steaderId);
    WelcomeInventoryOk(archetypes, owner, freshItemId);
    var inventory := WelcomeInventory(archetypes, owner, freshItemId).value;
    assert forall k :: 0 <= k < |inventory| ==> WelcomeGifts(archetypes)[k] in WelcomeGifts(archetypes);
    Hackstead(NewProfile(slackId, steaderId), [NewTile(steaderId, tileId)], inventory)
  }

  /** The `i32` range. */
  predicate InI32(x: int)
  {
    -0x8000_0000 <= x < 0x8000_0000
  }

  /** `as usize` of an `i32` on a 64-bit target: a negative value wraps around. */
  function AsUsize(x: int): (u: nat)
    requires InI32(x)
    ensures x >= 0 ==> u == x
    ensures x < 0 ==> u == x + 0x1_0000_0000_0000_0000
  {
    if x >= 0 then x else x + 0x1_0000_0000_0000_0000
  }

  /**
   * `land_unlock_eligible`: whether the land the profile's xp allows plus the
   * extra plots exceed the land already held. `xpAllows` is the `land` field
   * of the profile's advancement sum; the `i32` addition must not overflow.
   * A negative total wraps under the cast to `usize`, which makes any
   * hackstead eligible.
   */
  function LandUnlockEligible(h: Hackstead, xpAllows: Items.i32): (r: bool)
    requires InI32(xpAllows as int + h.profile.extraLandPlotCount as int)
    ensures xpAllows as int + h.profile.extraLandPlotCount as int >= 0 ==>
      (r <==> |h.land| < xpAllows as int + h.profile.extraLandPlotCount as int)
  {
    |h.land| < AsUsize(xpAllows as int + h.profile.extraLandPlotCount as int)
  }

  /** With a negative total, any hackstead whose land fits in a `Vec` is eligible. */
  lemma NegativeTotalEligible(h: Hackstead, xpAllows: Items.i32)
    requires InI32(xpAllows as int + h.profile.extraLandPlotCount as int)
    requires xpAllows as int + h.profile.extraLandPlotCount as int < 0
    requires |h.land| < 0x8000_0000_0000_0000
    ensures LandUnlockEligible(h, xpAllows)
  {
  }

  predicate IsOpen(t: Tile) { t.plant.None? }

  /** `open_tiles`: the tiles without a plant. */
  function OpenTiles(land: seq<Tile>): (r: seq<Tile>)
    ensures forall t :: t in r <==> t in land && t.plant.None?
  {
    Filter(land, IsOpen)
  }

  function PlantOf(t: Tile): Option<TP.Plant> { t.plant }

  /** `plants`: the plant of every occupied tile. */
  function Plants(land: seq<Tile>): (r: seq<TP.Plant>)
    ensures forall p :: p in r <==> exists t :: t in land && t.plant == Some(p)
  {
    FilterMap(land, PlantOf)
  }

  /** Both queries keep land order: on joined land they give the joined answers. */
  lemma QueriesKeepOrder(a: seq<Tile>, b: seq<Tile>)
    ensures OpenTiles(a + b) == OpenTiles(a) + OpenTiles(b)
    ensures Plants(a + b) == Plants(a) + Plants(b)
  {
    FilterAppend(a, b, IsOpen);
    FilterMapAppend(a, b, PlantOf);
  }

  /** Every tile is either open or holds one of the plants. */
  lemma {:induction false} OpenTilesAndPlantsCount(land: seq<Tile>)
    ensures |OpenTiles(land)| + |Plants(land)| == |land|
  {
    if land != [] {
      OpenTilesAndPlantsCount(land[1..]);
    }
  }

  /** `Hackstead::item`: the first inventory item with that id. */
  function ItemById(h: Hackstead, itemId: Identifiers.ItemId): (r: Option<HI.Item>)
    ensures r.Some? ==> r.value in h.inventory && r.value.itemId == itemId
    ensures r.Some? ==> exists k :: (0 <= k < |h.inventory| && h.inventory[k] == r.value
      && forall j :: 0 <= j < k ==> h.inventory[j].itemId != itemId)
    ensures r.None? <==> forall i :: i in h.inventory ==> i.itemId != itemId
  {
    match FirstIndex(h.inventory, (i: HI.Item) => i.itemId == itemId)
    case None => None
    case Some(k) => Some(h.inventory[k])
  }

  /** `Hackstead::tile`: the first tile of the land with that id. */
  function TileById(h: Hackstead, tileId: Uuid): (r: Option<Tile>)
    ensures r.Some? ==> r.value in h.land && r.value.base.tileId == tileId
    ensures r.Some? ==> exists k :: (0 <= k < |h.land| && h.land[k] == r.value
      && forall j :: 0 <= j < k ==> h.land[j].base.tileId != tileId)
    ensures r.None? <==> forall t :: t in h.land ==> t.base.tileId != tileId
  {
    match FirstIndex(h.land, (t: Tile) => t.base.tileId == tileId)
    case None => None
    case Some(k) => Some(h.land[k])
  }

  /** `Hackstead::plant`: the first plant on the land whose tile id is that one. */
  function PlantById(h: Hackstead, tileId: Uuid): (r: Option<TP.Plant>)
    ensures r.Some? ==> r.value in Plants(h.land) && r.value.base.tileId == tileId
    ensures r.Some? ==> exists k :: (0 <= k < |Plants(h.land)| && Plants(h.land)[k] == r.value
      && forall j :: 0 <= j < k ==> Plants(h.land)[j].base.tileId != tileId)
    ensures r.None? <==> forall p :: p in Plants(h.land) ==> p.base.tileId != tileId
  {
    var plants := Plants(h.land);
    match FirstIndex(plants, (p: TP.Plant) => p.base.tileId == tileId)
    case None => None
    case Some(k) => Some(plants[k])
  }

  /** `has_item`, `has_tile`, `has_plant`: whether the lookup finds something. */
  predicate HasItem(h: Hackstead, itemId: Identifiers.ItemId) { ItemById(h, itemId).Some? }
  predicate HasTile(h: Hackstead, tileId: Uuid) { TileById(h, tileId).Some? }
  predicate HasPlant(h: Hackstead, tileId: Uuid) { PlantById(h, tileId).Some? }

  /** The `has_` queries hold exactly when something with that id is there. */
  lemma HasIff(h: Hackstead, itemId: Identifiers.ItemId, tileId: Uuid)
    ensures HasItem(h, itemId) <==> exists i :: i in h.inventory && i.itemId == itemId
    ensures HasTile(h, tileId) <==> exists t :: t in h.land && t.base.tileId == tileId
    ensures HasPlant(h, tileId) <==>
      exists t :: t in h.land && t.plant.Some? && t.plant.value.base.tileId == tileId
  {
    if HasPlant(h, tileId) {
      var p := PlantById(h, tileId).value;
      var t :| t in h.land && t.plant == Some(p);
    }
    if t :| t in h.land && t.plant.Some? && t.plant.value.base.tileId == tileId {
      assert t.plant.value in Plants(h.land);
    }
  }

  /** A new user's only tile is open, and a plant lookup on it finds nothing. */
  lemma NewUserLand(archetypes: seq<Archetype>, slackId: Option<string>, steaderId: Uuid, tileId: Uuid, freshItemId: nat -> Identifiers.ItemId)
    ensures var h := NewUser(archetypes, slackId, steaderId, tileId, freshItemId);
      OpenTiles(h.land) == h.land && Plants(h.land) == []
      && HasTile(h, tileId) && !HasPlant(h, tileId)
  {
    var h := NewUser(archetypes, slackId, steaderId, tileId, freshItemId);
    assert h.land[0] in h.land;
    OpenTilesAndPlantsCount(h.land);
  }
}
