// Typed identifiers, "no such thing" errors and user identities (id.rs).
module Identifiers {
  import opened Wrappers
  import Uuids

  datatype TileId = TileId(tileUuid: Uuids.Uuid)
  datatype SteaderId = SteaderId(steaderUuid: Uuids.Uuid)
  datatype ItemId = ItemId(itemUuid: Uuids.Uuid)
  /** The id of an effect rubbed onto a plant (`RubEffectId` in tile/plant/effect.rs). */
  datatype EffectId = EffectId(effectUuid: Uuids.Uuid)

  datatype NoSuchItem = NoSuchItem(steader: SteaderId, item: ItemId)
  datatype NoSuchTile = NoSuchTile(steader: SteaderId, tile: TileId)
  datatype NoSuchPlantOnTile = NoSuchPlantOnTile(steader: SteaderId, tile: TileId)
  datatype NoSuchEffectOnPlant = NoSuchEffectOnPlant(steader: SteaderId, tile: TileId, effect: EffectId)
  datatype NoSuchGotchiOnItem = NoSuchGotchiOnItem(steader: SteaderId, item: ItemId)

  /** `NoSuch`, with the `Effect`/`Gotchi` variants of the merge-conflicted declaration. */
  datatype NoSuch =
    | Plant(plant: NoSuchPlantOnTile)
    | Item(item: NoSuchItem)
    | Tile(tile: NoSuchTile)
    | Effect(effect: NoSuchEffectOnPlant)
    | Gotchi(gotchi: NoSuchGotchiOnItem)

  /** The `From` conversions into `NoSuch`: each wraps its argument in its own variant. */
  function FromNoSuchItem(e: NoSuchItem): (r: NoSuch)
    ensures r.Item? && r.item == e
  {
    Item(e)
  }

  function FromNoSuchTile(e: NoSuchTile): (r: NoSuch)
    ensures r.Tile? && r.tile == e
  {
    Tile(e)
  }

  function FromNoSuchPlantOnTile(e: NoSuchPlantOnTile): (r: NoSuch)
    ensures r.Plant? && r.plant == e
  {
    Plant(e)
  }

  function FromNoSuchEffectOnPlant(e: NoSuchEffectOnPlant): (r: NoSuch)
    ensures r.Effect? && r.effect == e
  {
    Effect(e)
  }

  function FromNoSuchGotchiOnItem(e: NoSuchGotchiOnItem): (r: NoSuch)
    ensures r.Gotchi? && r.gotchi == e
  {
    Gotchi(e)
  }

  /** A user: a coined id, a Slack id, or both. */
  datatype UserId = Uuid(uuid: SteaderId) | Slack(slack: string) | Both(uuid: SteaderId, slack: string)
  {
    /** `UserId::uuid`: the coined id, unless the user is known only by Slack. */
    function UuidOf(): (r: Option<SteaderId>)
      ensures r.Some? <==> !this.Slack?
      ensures r.Some? ==> r.value == this.uuid
    {
      match this
      case Uuid(u) => Some(u)
      case Both(u, _) => Some(u)
      case Slack(_) => None
    }

    /** `UserId::slack`: the Slack id, unless the user is known only by a coined id. */
    function SlackOf(): (r: Option<string>)
      ensures r.Some? <==> !this.Uuid?
      ensures r.Some? ==> r.value == this.slack
    {
      match this
      case Slack(s) => Some(s)
      case Both(_, s) => Some(s)
      case Uuid(_) => None
    }

    /** `UserId::uuid_or_else`: the coined id, or `f` applied to the Slack id. */
    function UuidOrElse(f: string -> SteaderId): (r: SteaderId)
      ensures this.Slack? ==> r == f(this.slack)
      ensures !this.Slack? ==> r == this.uuid
    {
      match this
      case Uuid(u) => u
      case Both(u, _) => u
      case Slack(s) => f(s)
    }
  }

  /** Every user id carries a coined id or a Slack id. */
  lemma UserIdHasOne(u: UserId)
    ensures u.UuidOf().Some? || u.SlackOf().Some?
  {
  }

  /** `uuid_or_else` agrees with `uuid` wherever a coined id is stored, and only calls `f` otherwise. */
  lemma UuidOrElseAgrees(u: UserId, f: string -> SteaderId)
    ensures u.UuidOf().Some? ==> u.UuidOrElse(f) == u.UuidOf().value
    ensures u.UuidOf().None? ==> u.SlackOf().Some? && u.UuidOrElse(f) == f(u.SlackOf().value)
  {
  }

  /** The three unit tests of id.rs, for any steader id and the Slack id "U1". */
  lemma Fetching(uuid: SteaderId)
    ensures Slack("U1").UuidOf() == None && Slack("U1").SlackOf() == Some("U1")
    ensures Uuid(uuid).UuidOf() == Some(uuid) && Uuid(uuid).SlackOf() == None
    ensures Both(uuid, "U1").SlackOf() == Some("U1") && Both(uuid, "U1").UuidOf() == Some(uuid)
  {
  }

  /** The blanket `IdentifiesUser` impl: a steader is the user with that coined id. */
  function UserIdOfSteader(s: SteaderId): (u: UserId)
    ensures u.UuidOf() == Some(s)
    ensures u.SlackOf() == None
  {
    Uuid(s)
  }
}
