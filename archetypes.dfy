// The older, handle-indexed configuration that the item, possession and
// hackstead modules still read: a list of possession archetypes and a list
// of plant archetypes, each addressed by its position (an `ArchetypeHandle`).
// Only the fields those modules read are kept, and the lookups stand for the
// configuration code they call.
module Archetypes {
  import opened Wrappers
  import opened Seqs

  /** The seed part of an archetype: the name of the plant the seed grows into. */
  datatype SeedArchetype = SeedArchetype(growsInto: string)

  /** What a possession of this archetype is. */
  datatype ArchetypeKind = GotchiKind | SeedKind(seed: SeedArchetype) | KeepsakeKind

  /**
   * A possession archetype: its name, whether it is a welcome gift, whether it
   * has a gotchi part, its seed part and its kind.
   */
  datatype Archetype = Archetype(name: string, welcomeGift: bool, hasGotchi: bool, seed: Option<SeedArchetype>, kind: ArchetypeKind)

  /** A plant archetype: its name and how long it takes to yield, if it yields. */
  datatype PlantArchetype = PlantArchetype(name: string, baseYieldDuration: Option<real>)

  /** `ConfigError`: a handle, an archetype or a plant name the configuration does not know. */
  datatype ConfigError = UnknownArchetypeHandle(handle: nat) | UnknownArchetype(name: string) | UnknownPlantName(name: string)

  /** The archetype at handle `ah`, or `UnknownArchetypeHandle(ah)` when the handle is out of range. */
  function ArchetypeAt(archetypes: seq<Archetype>, ah: nat): (r: Result<Archetype, ConfigError>)
    ensures r.Ok? <==> ah < |archetypes|
    ensures r.Ok? ==> r.value == archetypes[ah]
    ensures r.Err? ==> r.error == UnknownArchetypeHandle(ah)
  {
    if ah < |archetypes| then Ok(archetypes[ah]) else Err(UnknownArchetypeHandle(ah))
  }

  /** `possession_archetype_to_handle`: the handle of the first archetype equal to `a`. */
  function HandleOf(archetypes: seq<Archetype>, a: Archetype): (r: Result<nat, ConfigError>)
    ensures r.Ok? <==> a in archetypes
    ensures r.Ok? ==> r.value < |archetypes| && archetypes[r.value] == a
    ensures r.Ok? ==> forall j :: 0 <= j < r.value ==> archetypes[j] != a
    ensures r.Err? ==> r.error == UnknownArchetype(a.name)
  {
    match FirstIndex(archetypes, (b: Archetype) => b == a)
    case None => Err(UnknownArchetype(a.name))
    case Some(k) => Ok(k)
  }

  /** `find_plant_handle`: the handle of the first plant archetype with that name. */
  function FindPlantHandle(plants: seq<PlantArchetype>, name: string): (r: Result<nat, ConfigError>)
    ensures r.Ok? <==> exists k :: 0 <= k < |plants| && plants[k].name == name
    ensures r.Ok? ==> r.value < |plants| && plants[r.value].name == name
    ensures r.Ok? ==> forall j :: 0 <= j < r.value ==> plants[j].name != name
    ensures r.Err? ==> r.error == UnknownPlantName(name)
  {
    match FirstIndex(plants, (p: PlantArchetype) => p.name == name)
    case None => Err(UnknownPlantName(name))
    case Some(k) => Ok(k)
  }

  /**
   * Looking up an archetype by its handle and then the handle of that
   * archetype gives back a handle no later than the first, of an equal
   * archetype; the same one when the archetypes are distinct.
   */
  lemma HandleOfAt(archetypes: seq<Archetype>, ah: nat)
    requires ah < |archetypes|
    ensures HandleOf(archetypes, archetypes[ah]).Ok?
    ensures HandleOf(archetypes, archetypes[ah]).value <= ah
    ensures archetypes[HandleOf(archetypes, archetypes[ah]).value] == archetypes[ah]
    ensures (forall i, j :: 0 <= i < j < |archetypes| ==> archetypes[i] != archetypes[j]) ==>
      HandleOf(archetypes, archetypes[ah]).value == ah
  {
    var h := HandleOf(archetypes, archetypes[ah]).value;
    if ah < h {
      assert false;
    }
  }
}
