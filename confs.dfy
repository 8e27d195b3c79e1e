// Handles that verified configuration uses in place of names.
module Confs {
  import opened Uuids

  /** `plant::Conf`, a handle on one plant archetype (tile/plant/mod.rs). */
  datatype PlantConf = PlantConf(handle: nat)

  /** `item::Conf`, a handle on one item archetype. */
  datatype ItemConf = ItemConf(handle: nat)

  /** `skill::Conf`: the plant a skill belongs to, and the skill's own id on that plant. */
  datatype SkillConf = SkillConf(plant: PlantConf, skill: Uuid)
}
