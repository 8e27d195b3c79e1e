// The plant that sits on a tile in the hackstead generation
// (hackstead/tile/plant.rs): a plant base addressed by its tile, its craft and
// its effects, grown from a seed archetype.
module TilePlants {
  import opened Wrappers
  import opened Uuids
  import opened Archetypes

  /** `PlantBase`: `xp` is an `i32`, `untilYield` an `f64` that is only copied here. */
  datatype PlantBase = PlantBase(tileId: Uuid, xp: int, untilYield: real, nickname: string, archetypeHandle: nat)

  /** `Craft`: what a plant is crafting and how long until it finishes. */
  datatype Craft = Craft(tileId: Uuid, untilFinish: real, recipeArchetypeHandle: nat)

  /** `Effect`: an item applied to the plant, and which of that item's effects it is. */
  datatype Effect = Effect(tileId: Uuid, untilFinish: Option<real>, itemArchetypeHandle: nat, effectArchetypeHandle: nat)

  datatype Plant = Plant(base: PlantBase, craft: Option<Craft>, effects: seq<Effect>, queuedXpBonus: int)

  /**
   * `Plant::from_seed`: a plant on `tileId` of the first plant archetype named
   * as the seed grows into, fresh (no xp, craft, effects or queued bonus),
   * nicknamed after that archetype and yielding after its base yield duration
   * (0 when it has none). Fails exactly when no plant archetype has that name.
   */
  function FromSeed(plants: seq<PlantArchetype>, tileId: Uuid, seed: SeedArchetype): (r: Result<Plant, ConfigError>)
    ensures r.Ok? <==> exists k :: 0 <= k < |plants| && plants[k].name == seed.growsInto
    ensures r.Err? ==> r.error == UnknownPlantName(seed.growsInto)
    ensures r.Ok? ==>
      var p := r.value;
      && p.base.archetypeHandle < |plants|
      && FindPlantHandle(plants, seed.growsInto) == Ok(p.base.archetypeHandle)
      && p.base.tileId == tileId
      && p.base.xp == 0
      && p.base.nickname == plants[p.base.archetypeHandle].name == seed.growsInto
      && p.base.untilYield == (if plants[p.base.archetypeHandle].baseYieldDuration.Some? then plants[p.base.archetypeHandle].baseYieldDuration.value else 0.0)
      && p.craft.None? && p.effects == [] && p.queuedXpBonus == 0
  {
    match FindPlantHandle(plants, seed.growsInto)
    case Err(e) => Err(e)
    case Ok(ah) =>
      var arch := plants[ah];
      Ok(Plant(
        PlantBase(tileId, 0, if arch.baseYieldDuration.Some? then arch.baseYieldDuration.value else 0.0, arch.name, ah),
        None, [], 0))
  }

  /** `Deref for Plant`: its plant archetype; a handle out of range panics. */
  function ArchetypeOf(plants: seq<PlantArchetype>, p: Plant): (a: PlantArchetype)
    requires p.base.archetypeHandle < |plants|
    ensures a == plants[p.base.archetypeHandle]
  {
    plants[p.base.archetypeHandle]
  }

  /** A plant grown from a seed is of the archetype the seed grows into, and is nicknamed after it. */
  lemma FromSeedArchetype(plants: seq<PlantArchetype>, tileId: Uuid, seed: SeedArchetype)
    requires FromSeed(plants, tileId, seed).Ok?
    ensures var p := FromSeed(plants, tileId, seed).value;
      p.base.archetypeHandle < |plants|
      && ArchetypeOf(plants, p).name == seed.growsInto
      && p.base.nickname == ArchetypeOf(plants, p).name
  {
  }

  /** `Deref for Effect`: the archetype of the item that was used up; a handle out of range panics. */
  function EffectArchetype(archetypes: seq<Archetype>, e: Effect): (a: Archetype)
    requires e.itemArchetypeHandle < |archetypes|
    ensures ArchetypeAt(archetypes, e.itemArchetypeHandle) == Ok(a)
  {
    archetypes[e.itemArchetypeHandle]
  }
}
