// The oldest plant type (hackstead/plant.rs): a plant whose xp and queued xp
// bonus are updated in place, grown from an item-generation seed.
module LegacyPlants {
  import opened Wrappers
  import opened Archetypes
  import Items

  /** `Craft`: how long until the craft finishes and which recipe it makes. */
  datatype Craft = Craft(untilFinish: real, recipeArchetypeHandle: nat)

  /** `Effect`: an item applied to the plant, and which of that item's effects it is. */
  datatype Effect = Effect(untilFinish: Option<real>, itemArchetypeHandle: nat, effectArchetypeHandle: nat)

  /** `Deref for Effect`: the archetype of the item used up; a handle out of range panics. */
  function EffectArchetype(archetypes: seq<Archetype>, e: Effect): (a: Archetype)
    requires e.itemArchetypeHandle < |archetypes|
    ensures ArchetypeAt(archetypes, e.itemArchetypeHandle) == Ok(a)
  {
    archetypes[e.itemArchetypeHandle]
  }

  /** The base yield duration of a plant archetype, 0 when it has none (`unwrap_or(0.0)`). */
  function YieldDurationOr0(a: PlantArchetype): real
  {
    if a.baseYieldDuration.Some? then a.baseYieldDuration.value else 0.0
  }

  /** `GetRecipeRaw`: the recipe at `recipeAh` among those the plant can make, if there is one. */
  function GetRecipeRaw<Recipe>(recipes: seq<Recipe>, recipeAh: nat): (r: Option<Recipe>)
    ensures r.None? <==> recipeAh >= |recipes|
    ensures r.Some? ==> r.value == recipes[recipeAh]
  {
    if recipeAh < |recipes| then Some(recipes[recipeAh]) else None
  }

  class Plant {
    var xp: nat
    var untilYield: real
    var craft: Option<Craft>
    var pedigree: seq<Items.SeedGrower>
    var effects: seq<Effect>
    var archetypeHandle: nat
    var queuedXpBonus: nat

    /**
     * `Plant::from_seed`: a plant of the plant archetype the seed grows into,
     * with the seed's pedigree, no xp, craft, effects or queued bonus, and the
     * archetype's base yield duration (0 when it has none) until it yields.
     * The seed's archetype must have a seed part and name a known plant, else
     * the source panics.
     */
    constructor FromSeed(archetypes: seq<Archetype>, plants: seq<PlantArchetype>, seed: Items.Seed)
      requires seed.archetypeHandle < |archetypes| && archetypes[seed.archetypeHandle].seed.Some?
      requires FindPlantHandle(plants, Items.SeedArchetypeOf(archetypes, seed).growsInto).Ok?
      ensures archetypeHandle < |plants|
      ensures FindPlantHandle(plants, Items.SeedArchetypeOf(archetypes, seed).growsInto) == Ok(archetypeHandle)
      ensures plants[archetypeHandle].name == archetypes[seed.archetypeHandle].seed.value.growsInto
      ensures pedigree == seed.pedigree
      ensures untilYield == YieldDurationOr0(plants[archetypeHandle])
      ensures xp == 0 && craft.None? && effects == [] && queuedXpBonus == 0
    {
      var ah := FindPlantHandle(plants, Items.SeedArchetypeOf(archetypes, seed).growsInto).value;
      archetypeHandle := ah;
      pedigree := seed.pedigree;
      xp := 0;
      craft := None;
      effects := [];
      queuedXpBonus := 0;
      untilYield := YieldDurationOr0(plants[ah]);
    }

    /** `Deref for Plant`: its plant archetype; a handle out of range panics. */
    function Archetype(plants: seq<PlantArchetype>): (a: PlantArchetype)
      reads this
      requires archetypeHandle < |plants|
      ensures a == plants[archetypeHandle]
    {
      plants[archetypeHandle]
    }

    /**
     * `increase_xp`: the queued bonus is added to the amount and reset to 0,
     * and the plant's xp grows by the total. The archetype handle must be
     * valid, else the source panics.
     */
    method IncreaseXp(plants: seq<PlantArchetype>, amt: nat)
      requires archetypeHandle < |plants|
      modifies this
      ensures queuedXpBonus == 0
      ensures xp == old(xp) + amt + old(queuedXpBonus)
      ensures untilYield == old(untilYield) && craft == old(craft) && pedigree == old(pedigree)
      ensures effects == old(effects) && archetypeHandle == old(archetypeHandle)
    {
      var total := amt + queuedXpBonus;
      queuedXpBonus := 0;
      xp := xp + total;
    }

    /**
     * `current_recipe_raw`: the recipe of the current craft among the recipes
     * the plant can make; nothing when the plant is not crafting.
     */
    function CurrentRecipeRaw<Recipe>(recipes: seq<Recipe>): (r: Option<Recipe>)
      reads this
      ensures craft.None? ==> r.None?
      ensures craft.Some? ==> r == GetRecipeRaw(recipes, craft.value.recipeArchetypeHandle)
    {
      match craft
      case None => None
      case Some(c) => GetRecipeRaw(recipes, c.recipeArchetypeHandle)
    }
  }

  /** A queued bonus is paid out once: a second increase gets no bonus. */
  method IncreaseTwice(p: Plant, plants: seq<PlantArchetype>, a: nat, b: nat)
    requires p.archetypeHandle < |plants|
    modifies p
    ensures p.xp == old(p.xp) + a + b + old(p.queuedXpBonus)
    ensures p.queuedXpBonus == 0
  {
    p.IncreaseXp(plants, a);
    p.IncreaseXp(plants, b);
  }

  /** A crafting plant has a current recipe exactly when its recipe handle is in range. */
  lemma CurrentRecipeInRange<Recipe>(p: Plant, recipes: seq<Recipe>)
    requires p.craft.Some?
    ensures p.CurrentRecipeRaw(recipes).Some? <==> p.craft.value.recipeArchetypeHandle < |recipes|
  {
  }
}
