// Items of the older generation (item/mod.rs, item/seed.rs, item/gotchi.rs):
// items made from a possession archetype, with an ownership log, an optional
// gotchi and, for seeds, a pedigree of growers.
module Items {
  import opened Wrappers
  import opened Uuids
  import opened Archetypes

  /** Rust's `i32`. */
  newtype i32 = x: int | -0x8000_0000 <= x < 0x8000_0000

  /** `Acquisition`: how an owner came by an item. */
  datatype Acquisition = Trade | Farmed | Crafted | Hatched

  /** The number each acquisition is stored as. */
  function Code(a: Acquisition): i32
  {
    match a
    case Trade => 0
    case Farmed => 1
    case Crafted => 2
    case Hatched => 3
  }

  /** `Acquisition::spawned`: a spawned item counts as traded. */
  function Spawned(): (a: Acquisition)
    ensures Code(a) == 0
  {
    Trade
  }

  /** `Acquisition::try_from_i32`: the acquisition stored as `i`, for 0 to 3 only. */
  function TryFromI32(i: i32): (r: Option<Acquisition>)
    ensures r.Some? <==> 0 <= i <= 3
    ensures r.Some? ==> Code(r.value) == i
  {
    match i
    case 0 => Some(Trade)
    case 1 => Some(Farmed)
    case 2 => Some(Crafted)
    case 3 => Some(Hatched)
    case _ => None
  }

  /** Decoding the stored number of an acquisition gives it back. */
  lemma TryFromCode(a: Acquisition)
    ensures TryFromI32(Code(a)) == Some(a)
  {
  }

  /** `Display for Acquisition`: the variant's name. */
  function Display(a: Acquisition): string
  {
    match a
    case Trade => "Trade"
    case Farmed => "Farmed"
    case Crafted => "Crafted"
    case Hatched => "Hatched"
  }

  /** Different acquisitions display differently. */
  lemma DisplayInjective(a: Acquisition, b: Acquisition)
    ensures Display(a) == Display(b) ==> a == b
  {
  }

  /** `LoggedOwner`: one entry of an item's ownership log. */
  datatype LoggedOwner = LoggedOwner(itemId: Uuid, loggedOwnerId: Uuid, acquisition: Acquisition, ownerIndex: i32)

  datatype ItemBase = ItemBase(archetypeHandle: nat, itemId: Uuid, ownerId: Uuid)

  /** `Gotchi` (item/gotchi.rs). */
  datatype Gotchi = Gotchi(itemId: Uuid, nickname: string)

  datatype Item = Item(base: ItemBase, gotchi: Option<Gotchi>, ownershipLog: seq<LoggedOwner>)

  /** `Gotchi::new`: named after the archetype at `ah`, which must exist. */
  function NewGotchi(archetypes: seq<Archetype>, itemId: Uuid, ah: nat): (g: Gotchi)
    requires ah < |archetypes|
    ensures g.itemId == itemId && g.nickname == archetypes[ah].name
  {
    Gotchi(itemId, archetypes[ah].name)
  }

  /**
   * `Item::from_archetype`: a new item with id `itemId` (the fresh identifier
   * the source draws) of archetype `a`, owned by `loggedOwnerId`, whose log
   * holds that owner alone at index 0, with a gotchi of the same id exactly
   * when the archetype has a gotchi part. Fails when `a` is not one of the
   * configuration's archetypes.
   */
  function FromArchetype(archetypes: seq<Archetype>, a: Archetype, loggedOwnerId: Uuid, acquisition: Acquisition, itemId: Uuid): (r: Result<Item, ConfigError>)
    ensures r.Ok? <==> a in archetypes
    ensures r.Err? ==> r.error == UnknownArchetype(a.name)
    ensures r.Ok? ==>
      && r.value.base.itemId == itemId
      && r.value.base.ownerId == loggedOwnerId
      && HandleOf(archetypes, a) == Ok(r.value.base.archetypeHandle)
      && r.value.ownershipLog == [LoggedOwner(itemId, loggedOwnerId, acquisition, 0)]
      && (r.value.gotchi.Some? <==> a.hasGotchi)
      && (r.value.gotchi.Some? ==> r.value.gotchi.value == Gotchi(itemId, a.name))
  {
    match HandleOf(archetypes, a)
    case Err(e) => Err(e)
    case Ok(ah) =>
      Ok(Item(
        ItemBase(ah, itemId, loggedOwnerId),
        if a.hasGotchi then Some(NewGotchi(archetypes, itemId, ah)) else None,
        [LoggedOwner(itemId, loggedOwnerId, acquisition, 0)]))
  }

  /**
   * `Item::from_archetype_handle`: fails with `UnknownArchetypeHandle(ah)`
   * exactly when the handle is out of range; otherwise an item of an archetype
   * equal to the one at `ah`, whose recorded handle is the first such.
   */
  function FromArchetypeHandle(archetypes: seq<Archetype>, ah: nat, loggedOwnerId: Uuid, acquisition: Acquisition, itemId: Uuid): (r: Result<Item, ConfigError>)
    ensures r.Ok? <==> ah < |archetypes|
    ensures r.Err? ==> r.error == UnknownArchetypeHandle(ah)
    ensures r.Ok? ==>
      && r.value.base.archetypeHandle <= ah
      && archetypes[r.value.base.archetypeHandle] == archetypes[ah]
      && r.value.base.itemId == itemId
      && r.value.base.ownerId == loggedOwnerId
      && r.value.ownershipLog == [LoggedOwner(itemId, loggedOwnerId, acquisition, 0)]
      && (r.value.gotchi.Some? <==> archetypes[ah].hasGotchi)
      && (r.value.gotchi.Some? ==> r.value.gotchi.value == Gotchi(itemId, archetypes[ah].name))
  {
    match ArchetypeAt(archetypes, ah)
    case Err(e) => Err(e)
    case Ok(a) =>
      HandleOfAt(archetypes, ah);
      FromArchetype(archetypes, a, loggedOwnerId, acquisition, itemId)
  }

  /** `Item::nickname`: the gotchi's nickname, else the archetype's name. */
  function Nickname(archetypes: seq<Archetype>, item: Item): (n: string)
    requires item.gotchi.Some? || item.base.archetypeHandle < |archetypes|
    ensures item.gotchi.Some? ==> n == item.gotchi.value.nickname
    ensures item.gotchi.None? ==> n == archetypes[item.base.archetypeHandle].name
  {
    match item.gotchi
    case Some(g) => g.nickname
    case None => archetypes[item.base.archetypeHandle].name
  }

  /** A freshly made item is nicknamed after its archetype, with or without a gotchi. */
  lemma FreshNickname(archetypes: seq<Archetype>, a: Archetype, loggedOwnerId: Uuid, acquisition: Acquisition, itemId: Uuid)
    requires a in archetypes
    ensures var r := FromArchetype(archetypes, a, loggedOwnerId, acquisition, itemId);
      r.Ok? && Nickname(archetypes, r.value) == a.name
  {
  }

  /** `SeedGrower`: one grower in a seed's pedigree. */
  datatype SeedGrower = SeedGrower(id: string, generations: nat)

  datatype Seed = Seed(archetypeHandle: nat, pedigree: seq<SeedGrower>)

  /** `Seed::new`: a seed whose pedigree is its owner alone, at generation 0. */
  function NewSeed(ah: nat, ownerId: string): (s: Seed)
    ensures s.archetypeHandle == ah
    ensures |s.pedigree| == 1 && s.pedigree[0].id == ownerId && s.pedigree[0].generations == 0
  {
    Seed(ah, [SeedGrower(ownerId, 0)])
  }

  /** `SeedGrower::new`. */
  function NewSeedGrower(id: string, generations: nat): (g: SeedGrower)
    ensures g.id == id && g.generations == generations
  {
    SeedGrower(id, generations)
  }

  /** The seed part a seed dereferences to; a handle out of range or without a seed part panics. */
  function SeedArchetypeOf(archetypes: seq<Archetype>, s: Seed): (sa: SeedArchetype)
    requires s.archetypeHandle < |archetypes| && archetypes[s.archetypeHandle].seed.Some?
    ensures Some(sa) == archetypes[s.archetypeHandle].seed
  {
    archetypes[s.archetypeHandle].seed.value
  }
}
