// Items of the hackstead generation (hackstead/item/mod.rs and its gotchi):
// items identified by typed ids, made from a possession archetype.
module HacksteadItems {
  import opened Wrappers
  import opened Archetypes
  import Identifiers

  /** `Acquisition`: how an owner came by an item. */
  datatype Acquisition = Trade | Farmed | Crafted | Hatched

  /** The number each acquisition is stored as. */
  function Code(a: Acquisition): nat
  {
    match a
    case Trade => 0
    case Farmed => 1
    case Crafted => 2
    case Hatched => 3
  }

  /** `Acquisition::spawned`: a spawned item counts as traded. */
  function Spawned(): (a: Acquisition)
    ensures Code(a) == 0
  {
    Trade
  }

  /** `Acquisition::try_from_usize`: the acquisition stored as `i`, for 0 to 3 only. */
  function TryFromUsize(i: nat): (r: Option<Acquisition>)
    ensures r.Some? <==> i <= 3
    ensures r.Some? ==> Code(r.value) == i
  {
    match i
    case 0 => Some(Trade)
    case 1 => Some(Farmed)
    case 2 => Some(Crafted)
    case 3 => Some(Hatched)
    case _ => None
  }

  /** Decoding the stored number of an acquisition gives it back. */
  lemma TryFromCode(a: Acquisition)
    ensures TryFromUsize(Code(a)) == Some(a)
  {
  }

  /** `Display for Acquisition`: the variant's name. */
  function Display(a: Acquisition): string
  {
    match a
    case Trade => "Trade"
    case Farmed => "Farmed"
    case Crafted => "Crafted"
    case Hatched => "Hatched"
  }

  /** Different acquisitions display differently. */
  lemma DisplayInjective(a: Acquisition, b: Acquisition)
    ensures Display(a) == Display(b) ==> a == b
  {
  }

  /** `LoggedOwner`: one entry of an item's ownership log. */
  datatype LoggedOwner = LoggedOwner(loggedOwnerId: Identifiers.SteaderId, acquisition: Acquisition, ownerIndex: nat)

  /** `Gotchi` (hackstead/item/gotchi.rs). */
  datatype Gotchi = Gotchi(nickname: string, itemId: Identifiers.ItemId)

  datatype Item = Item(
    itemId: Identifiers.ItemId,
    ownerId: Identifiers.SteaderId,
    archetypeHandle: nat,
    gotchi: Option<Gotchi>,
    ownershipLog: seq<LoggedOwner>)

  /** `Gotchi::new`: named after the archetype at `ah`, which must exist. */
  function NewGotchi(archetypes: seq<Archetype>, ah: nat, itemId: Identifiers.ItemId): (g: Gotchi)
    requires ah < |archetypes|
    ensures g.nickname == archetypes[ah].name && g.itemId == itemId
  {
    Gotchi(archetypes[ah].name, itemId)
  }

  /**
   * `Item::from_archetype`: a new item with id `itemId` (the fresh identifier
   * the source draws) of archetype `a`, owned by `loggedOwnerId`, whose log
   * holds that owner alone at index 0, with a gotchi exactly when the
   * archetype has a gotchi part. Fails when `a` is not one of the
   * configuration's archetypes.
   */
  function FromArchetype(archetypes: seq<Archetype>, a: Archetype, loggedOwnerId: Identifiers.SteaderId, acquisition: Acquisition, itemId: Identifiers.ItemId): (r: Result<Item, ConfigError>)
    ensures r.Ok? <==> a in archetypes
    ensures r.Err? ==> r.error == UnknownArchetype(a.name)
    ensures r.Ok? ==>
      && r.value.itemId == itemId
      && r.value.ownerId == loggedOwnerId
      && HandleOf(archetypes, a) == Ok(r.value.archetypeHandle)
      && r.value.ownershipLog == [LoggedOwner(loggedOwnerId, acquisition, 0)]
      && (r.value.gotchi.Some? <==> a.hasGotchi)
      && (r.value.gotchi.Some? ==> r.value.gotchi.value == Gotchi(a.name, itemId))
  {
    match HandleOf(archetypes, a)
    case Err(e) => Err(e)
    case Ok(ah) =>
      var g := NewGotchi(archetypes, ah, itemId);
      Ok(Item(itemId, loggedOwnerId, ah, if a.hasGotchi then Some(g) else None, [LoggedOwner(loggedOwnerId, acquisition, 0)]))
  }

  /**
   * `Item::from_archetype_handle`: fails with `UnknownArchetypeHandle(ah)`
   * exactly when the handle is out of range; otherwise an item of an archetype
   * equal to the one at `ah`.
   */
  function FromArchetypeHandle(archetypes: seq<Archetype>, ah: nat, loggedOwnerId: Identifiers.SteaderId, acquisition: Acquisition, itemId: Identifiers.ItemId): (r: Result<Item, ConfigError>)
    ensures r.Ok? <==> ah < |archetypes|
    ensures r.Err? ==> r.error == UnknownArchetypeHandle(ah)
    ensures r.Ok? ==>
      && r.value.archetypeHandle <= ah
      && archetypes[r.value.archetypeHandle] == archetypes[ah]
      && r.value.itemId == itemId
      && r.value.ownerId == loggedOwnerId
      && r.value.ownershipLog == [LoggedOwner(loggedOwnerId, acquisition, 0)]
      && (r.value.gotchi.Some? <==> archetypes[ah].hasGotchi)
      && (r.value.gotchi.Some? ==> r.value.gotchi.value == Gotchi(archetypes[ah].name, itemId))
  {
    match ArchetypeAt(archetypes, ah)
    case Err(e) => Err(e)
    case Ok(a) =>
      HandleOfAt(archetypes, ah);
      FromArchetype(archetypes, a, loggedOwnerId, acquisition, itemId)
  }

  /** `Item::nickname`: the gotchi's nickname, else the archetype's name. */
  function Nickname(archetypes: seq<Archetype>, item: Item): (n: string)
    requires item.gotchi.Some? || item.archetypeHandle < |archetypes|
    ensures item.gotchi.Some? ==> n == item.gotchi.value.nickname
    ensures item.gotchi.None? ==> n == archetypes[item.archetypeHandle].name
  {
    match item.gotchi
    case Some(g) => g.nickname
    case None => archetypes[item.archetypeHandle].name
  }

  /** A freshly made item is nicknamed after its archetype, with or without a gotchi. */
  lemma FreshNickname(archetypes: seq<Archetype>, a: Archetype, loggedOwnerId: Identifiers.SteaderId, acquisition: Acquisition, itemId: Identifiers.ItemId)
    requires a in archetypes
    ensures var r := FromArchetype(archetypes, a, loggedOwnerId, acquisition, itemId);
      r.Ok? && Nickname(archetypes, r.value) == a.name
  {
  }

  /**
   * `Item::gotchi` (and `gotchi_mut`, which designates the same gotchi): the
   * item's gotchi, or `NoSuchGotchiOnItem` with the item's owner and id.
   */
  function GotchiOf(item: Item): (r: Result<Gotchi, Identifiers.NoSuch>)
    ensures r.Ok? <==> item.gotchi.Some?
    ensures r.Ok? ==> r.value == item.gotchi.value
    ensures r.Err? ==> r.error == Identifiers.Gotchi(Identifiers.NoSuchGotchiOnItem(item.ownerId, item.itemId))
  {
    match item.gotchi
    case Some(g) => Ok(g)
    case None => Err(Identifiers.FromNoSuchGotchiOnItem(Identifiers.NoSuchGotchiOnItem(item.ownerId, item.itemId)))
  }

  /** A fresh item has a gotchi to hand out exactly when its archetype has a gotchi part. */
  lemma FreshGotchi(archetypes: seq<Archetype>, a: Archetype, loggedOwnerId: Identifiers.SteaderId, acquisition: Acquisition, itemId: Identifiers.ItemId)
    requires a in archetypes
    ensures var r := FromArchetype(archetypes, a, loggedOwnerId, acquisition, itemId);
      r.Ok? && (GotchiOf(r.value).Ok? <==> a.hasGotchi)
      && (GotchiOf(r.value).Err? ==> GotchiOf(r.value).error == Identifiers.Gotchi(Identifiers.NoSuchGotchiOnItem(loggedOwnerId, itemId)))
  {
  }
}
