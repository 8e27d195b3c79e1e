// The unverified configuration as parsed from YAML: names instead of handles.
// These are the `Raw*` types of the plant modules, gathered in one module
// because the verifiers of config/verify/mod.rs look into them while the
// per-type verifiers call back into those lookups.
module RawConfigData {
  import opened Wrappers
  import opened Uuids
  import opened Confs
  import Evalputs

  /** `FromFile` (config/verify/mod.rs): a value together with the file it was read from. */
  datatype FromFile<V> = FromFile(inner: V, file: string)
  {
    /** `FromFile::map`: transforms the value, keeps the file. */
    function Map<T>(f: V -> T): (r: FromFile<T>)
      ensures r.file == file
      ensures r.inner == f(inner)
    {
      FromFile(f(inner), file)
    }
  }

  /** `RawFilter` (tile/plant/mod.rs): plant names still to be resolved. */
  datatype RawFilter = Only(onlyNames: seq<string>) | Not(notNames: seq<string>) | All

  /** `RawFilter::default`. */
  function DefaultRawFilter(): (f: RawFilter)
    ensures f.All?
  {
    All
  }

  /** `RawRecipe` (tile/plant/mod.rs). `time` is an `f32`, only copied. */
  datatype RawRecipe = RawRecipe(
    title: string,
    art: string,
    explanation: string,
    destroysPlant: bool,
    time: real,
    needs: seq<(nat, string)>,
    makes: Evalputs.Evalput<string>)

  /** `RawBuff` (tile/plant/buff.rs). Multipliers and chances are `f32`s, only copied. */
  datatype RawBuff =
    | Neighbor(neighbor: RawBuff)
    | ExtraTimeTicks(ticks: nat)
    | ExtraTimeTicksMultiplier(ticksMultiplier: real)
    | Xp(xpPerTick: real)
    | YieldSpeedMultiplier(yieldSpeed: real)
    | YieldSizeMultiplier(yieldSize: real)
    | Yield(evalput: Evalputs.Evalput<string>)
    | Craft(recipes: seq<RawRecipe>)
    | CraftSpeedMultiplier(craftSpeed: real)
    | CraftInputReturnChance(inputReturn: real)
    | CraftOutputDoubleChance(outputDouble: real)
    | Art(file: string, precedence: nat)

  /** The unverified `effect::RawConfig` (tile/plant/effect.rs). */
  datatype RawEffectConfig = RawEffectConfig(
    description: string,
    buff: Option<RawBuff>,
    forPlants: RawFilter,
    duration: Option<real>,
    transmogrification: Option<string>)

  /** `RawCost` (tile/plant/skill.rs): skill titles and item names still to be resolved. */
  datatype RawCost = RawCost(points: nat, items: seq<(nat, string)>, skills: seq<string>)

  /** `RawUnlock` (tile/plant/skill.rs). */
  datatype RawUnlock = RawUnlock(skill: string, costs: RawCost, hideUntil: RawCost)

  /** `RawSkill` (tile/plant/skill.rs). */
  datatype RawSkill = RawSkill(title: string, unlocks: seq<RawUnlock>, effects: seq<RawEffectConfig>, conf: Uuid)

  /**
   * The unverified plant `RawConfig` (tile/plant/mod.rs). `conf` is the handle
   * the lookups of config/verify/mod.rs read from each plant.
   */
  datatype RawPlantConfig = RawPlantConfig(
    name: string,
    conf: PlantConf,
    skillpointUnlockXps: seq<nat>,
    baseYieldDuration: Option<real>,
    skills: FromFile<seq<RawSkill>>)

  /** The fields of the unverified item configuration that the lookups read. */
  datatype RawItemConfig = RawItemConfig(name: string, conf: ItemConf)
}
