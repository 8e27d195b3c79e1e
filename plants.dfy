// Plants on tiles (tile/plant/mod.rs): the verified plant archetype, and a
// planted plant whose list of rubbed-on effects is updated in place.
module Plants {
  import opened Wrappers
  import opened Seqs
  import opened Confs
  import opened ConfigVerify
  import R = RawConfigData
  import Skills
  import Effects
  import Identifiers

  /** `plant::Config`: a verified plant archetype. */
  datatype PlantConfig = PlantConfig(
    name: string,
    baseYieldDuration: Option<real>,
    skillpointUnlockXps: seq<nat>,
    skills: seq<Skills.Skill>)

  /** The file name a plant without a skills file reports. */
  const NoSkillsFile := "please supply a skills file"

  /** `default_skills`: no skills, from a file that asks for one. */
  function DefaultSkills(): R.FromFile<seq<R.RawSkill>>
  {
    R.FromFile([], NoSkillsFile)
  }

  /** The verification of one skill of the plant `plantConf`, noted with the skills file. */
  function SkillFileVerifier(raw: RawConfig, plantConf: PlantConf, file: string): (f: R.RawSkill -> VerifResult<Skills.Skill>)
    requires HasPlant(raw, plantConf)
    ensures forall rsk :: f(rsk) == Note(Skills.VerifySkill(raw, plantConf, rsk), FromAFile + file)
  {
    (rsk: R.RawSkill) => VerifyFromFile(R.FromFile(rsk, file), (s: R.RawSkill) => Skills.VerifySkill(raw, plantConf, s))
  }

  /** Every skill of the plant verifies. */
  ghost predicate SkillsVerify(raw: RawConfig, rp: R.RawPlantConfig)
    requires HasPlant(raw, rp.conf)
  {
    forall k :: 0 <= k < |rp.skills.inner| ==> Skills.VerifySkill(raw, rp.conf, rp.skills.inner[k]).Ok?
  }

  /** The plant's skills verified in order, or the first failing skill's error noted with the file. */
  function VerifyPlantSkills(raw: RawConfig, rp: R.RawPlantConfig): (r: VerifResult<seq<Skills.Skill>>)
    requires HasPlant(raw, rp.conf)
    ensures r.Ok? <==> SkillsVerify(raw, rp)
    ensures r.Ok? ==> (|r.value| == |rp.skills.inner|
      && forall k :: 0 <= k < |rp.skills.inner| ==> Ok(r.value[k]) == Skills.VerifySkill(raw, rp.conf, rp.skills.inner[k]))
    ensures r.Err? ==> exists k: nat :: (FirstFailure(rp.skills.inner, SkillFileVerifier(raw, rp.conf, rp.skills.file), k)
      && r.error.kind == Skills.VerifySkill(raw, rp.conf, rp.skills.inner[k]).error.kind
      && r.error.source == Skills.VerifySkill(raw, rp.conf, rp.skills.inner[k]).error.source + [FromAFile + rp.skills.file])
  {
    var f := SkillFileVerifier(raw, rp.conf, rp.skills.file);
    var r := Collect(rp.skills.inner, f);
    AgreesOk(rp.skills.inner, f, r);
    r
  }

  /** The plant `RawConfig::context`. */
  function PlantContext(rp: R.RawPlantConfig): string
  {
    "in a plant named " + rp.name
  }

  /** The plant's `verify_raw`: the plain fields copied, the skills verified. */
  function VerifyPlantRaw(raw: RawConfig, rp: R.RawPlantConfig): VerifResult<PlantConfig>
    requires HasPlant(raw, rp.conf)
  {
    var skills := VerifyPlantSkills(raw, rp);
    if skills.Err? then Err(skills.error)
    else Ok(PlantConfig(rp.name, rp.baseYieldDuration, rp.skillpointUnlockXps, skills.value))
  }

  /**
   * The plant `RawConfig::verify`: succeeds exactly when every skill
   * verifies; keeps the name, the yield duration and the xp thresholds, and
   * gives one verified skill per raw skill, in order. The first failing
   * skill's error is noted with the skills file and then the plant's name.
   */
  function VerifyPlant(raw: RawConfig, rp: R.RawPlantConfig): (r: VerifResult<PlantConfig>)
    requires HasPlant(raw, rp.conf)
    ensures r.Ok? <==> SkillsVerify(raw, rp)
    ensures r.Ok? ==>
      && r.value.name == rp.name
      && r.value.baseYieldDuration == rp.baseYieldDuration
      && r.value.skillpointUnlockXps == rp.skillpointUnlockXps
      && |r.value.skills| == |rp.skills.inner|
      && (forall k :: 0 <= k < |rp.skills.inner| ==>
            Ok(r.value.skills[k]) == Skills.VerifySkill(raw, rp.conf, rp.skills.inner[k]))
    ensures r.Err? ==> exists k: nat :: (FirstFailure(rp.skills.inner, SkillFileVerifier(raw, rp.conf, rp.skills.file), k)
      && var e := Skills.VerifySkill(raw, rp.conf, rp.skills.inner[k]).error;
         r.error == VerifError(e.kind, e.source + [FromAFile + rp.skills.file, PlantContext(rp)]))
  {
    PlantErrorNoted(raw, rp);
    Verified(VerifyPlantRaw(raw, rp), Some(PlantContext(rp)))
  }

  /** The plant's context goes after the skills file's on the first failing skill's error. */
  lemma PlantErrorNoted(raw: RawConfig, rp: R.RawPlantConfig)
    requires HasPlant(raw, rp.conf)
    ensures var r := Verified(VerifyPlantRaw(raw, rp), Some(PlantContext(rp)));
      r.Err? ==> exists k: nat :: (FirstFailure(rp.skills.inner, SkillFileVerifier(raw, rp.conf, rp.skills.file), k)
        && var e := Skills.VerifySkill(raw, rp.conf, rp.skills.inner[k]).error;
           r.error == VerifError(e.kind, e.source + [FromAFile + rp.skills.file, PlantContext(rp)]))
  {
    var skills := VerifyPlantSkills(raw, rp);
    if skills.Err? {
      var f := SkillFileVerifier(raw, rp.conf, rp.skills.file);
      var k: nat :| (FirstFailure(rp.skills.inner, f, k)
        && skills.error.kind == Skills.VerifySkill(raw, rp.conf, rp.skills.inner[k]).error.kind
        && skills.error.source == Skills.VerifySkill(raw, rp.conf, rp.skills.inner[k]).error.source + [FromAFile + rp.skills.file]);
      var e := Skills.VerifySkill(raw, rp.conf, rp.skills.inner[k]).error;
      assert Verified(VerifyPlantRaw(raw, rp), Some(PlantContext(rp)))
          == Err(VerifError(skills.error.kind, skills.error.source + [PlantContext(rp)]));
      NotedTwice(e, skills.error, FromAFile + rp.skills.file, PlantContext(rp));
    }
  }

  /** A context noted after another is the same as both noted at once. */
  lemma NotedTwice(e: VerifError, s: VerifError, first: string, second: string)
    requires s.kind == e.kind && s.source == e.source + [first]
    ensures VerifError(s.kind, s.source + [second]) == VerifError(e.kind, e.source + [first, second])
  {
    assert e.source + [first] + [second] == e.source + [first, second];
  }

  /** A plant without a skills file verifies, to a plant with no skills. */
  lemma DefaultSkillsVerify(raw: RawConfig, rp: R.RawPlantConfig)
    requires HasPlant(raw, rp.conf) && rp.skills == DefaultSkills()
    ensures VerifyPlant(raw, rp) == Ok(PlantConfig(rp.name, rp.baseYieldDuration, rp.skillpointUnlockXps, []))
  {
  }

  /** `Craft`: the recipe a plant is working on. */
  datatype Craft = Craft(recipeArchetypeHandle: nat)

  /** The effects carry pairwise distinct ids. */
  predicate EffectIdsDistinct(effects: seq<Effects.RubEffect>)
  {
    forall i, j :: 0 <= i < j < |effects| ==> effects[i].effectId != effects[j].effectId
  }

  /** Taking an effect out of a list with distinct ids keeps them distinct and leaves no effect with the taken id. */
  lemma TakenIdGone(effects: seq<Effects.RubEffect>, i: nat)
    requires i < |effects| && EffectIdsDistinct(effects)
    ensures EffectIdsDistinct(SwapRemove(effects, i))
    ensures forall j :: 0 <= j < |SwapRemove(effects, i)| ==> SwapRemove(effects, i)[j].effectId != effects[i].effectId
  {
    var rest := SwapRemove(effects, i);
    forall j | 0 <= j < |rest| ensures rest[j].effectId != effects[i].effectId {
      if j == i {
        assert rest[j] == effects[|effects| - 1];
      } else {
        assert rest[j] == effects[j];
      }
    }
    forall a, b | 0 <= a < b < |rest| ensures rest[a].effectId != rest[b].effectId {
      var a' := if a == i then |effects| - 1 else a;
      var b' := if b == i then |effects| - 1 else b;
      assert rest[a] == effects[a'] && rest[b] == effects[b'];
    }
  }

  /** `Plant`: a plant growing on a tile. */
  class Plant {
    var ownerId: Identifiers.SteaderId
    var tileId: Identifiers.TileId
    var xp: nat
    var nickname: string
    var conf: PlantConf
    /** How many items have been rubbed onto this plant over its lifetime. */
    var lifetimeRubs: nat
    var craft: Option<Craft>
    /** The effects now acting on this plant. */
    var effects: seq<Effects.RubEffect>
    var skillsUnlocked: seq<SkillConf>

    /**
     * `Plant::from_conf`: a fresh plant of archetype `conf`, named after it.
     * `plants` is the configuration's list of plant archetypes that `conf`
     * indexes; an index outside it is the panic of `Conf`'s dereference.
     */
    constructor FromConf(owner: Identifiers.SteaderId, tile: Identifiers.TileId, conf: PlantConf, plants: seq<PlantConfig>)
      requires conf.handle < |plants|
      ensures ownerId == owner && tileId == tile && this.conf == conf
      ensures xp == 0 && lifetimeRubs == 0 && craft == None
      ensures nickname == plants[conf.handle].name
      ensures effects == [] && skillsUnlocked == []
    {
      ownerId := owner;
      tileId := tile;
      xp := 0;
      nickname := plants[conf.handle].name;
      this.conf := conf;
      lifetimeRubs := 0;
      craft := None;
      effects := [];
      skillsUnlocked := [];
    }

    /** The error reported for an effect id not on this plant. */
    function Missing(effectId: Identifiers.EffectId): Identifiers.NoSuch
      reads this
    {
      Identifiers.FromNoSuchEffectOnPlant(Identifiers.NoSuchEffectOnPlant(ownerId, tileId, effectId))
    }

    /** The position of the first effect with id `effectId`. */
    function Position(effectId: Identifiers.EffectId): (r: Option<nat>)
      reads this
      ensures r.Some? ==> r.value < |effects| && effects[r.value].effectId == effectId
      ensures r.Some? ==> forall j :: 0 <= j < r.value ==> effects[j].effectId != effectId
      ensures r.None? ==> forall j :: 0 <= j < |effects| ==> effects[j].effectId != effectId
    {
      FirstIndex(effects, (e: Effects.RubEffect) => e.effectId == effectId)
    }

    /**
     * `Plant::effect`: the first effect with id `effectId`, or
     * `NoSuchEffectOnPlant` with this plant's owner and tile.
     */
    function Effect(effectId: Identifiers.EffectId): (r: Result<Effects.RubEffect, Identifiers.NoSuch>)
      reads this
      ensures r.Ok? <==> exists j :: 0 <= j < |effects| && effects[j].effectId == effectId
      ensures r.Ok? ==> r.value.effectId == effectId
      ensures r.Ok? ==> exists j :: (0 <= j < |effects| && effects[j] == r.value
        && forall i :: 0 <= i < j ==> effects[i].effectId != effectId)
      ensures r.Err? ==> r.error == Identifiers.Effect(Identifiers.NoSuchEffectOnPlant(ownerId, tileId, effectId))
    {
      match Position(effectId)
      case None => Err(Missing(effectId))
      case Some(i) => Ok(effects[i])
    }

    /**
     * `Plant::effect_mut`: the slot of `effects` the mutable reference
     * designates, which holds what `effect` finds.
     */
    method EffectMut(effectId: Identifiers.EffectId) returns (r: Result<nat, Identifiers.NoSuch>)
      ensures r.Ok? <==> Effect(effectId).Ok?
      ensures r.Ok? ==> r.value < |effects| && Effect(effectId) == Ok(effects[r.value])
      ensures r.Ok? ==> forall j :: 0 <= j < r.value ==> effects[j].effectId != effectId
      ensures r.Err? ==> Effect(effectId) == Err(r.error)
    {
      var p := Position(effectId);
      if p.None? {
        r := Err(Missing(effectId));
      } else {
        r := Ok(p.value);
      }
    }

    /**
     * `Plant::take_effect`: removes and returns what `effect` finds, the last
     * effect moving into its slot; on a missing id reports what `effect`
     * reports and changes nothing. Nothing but `effects` changes.
     */
    method TakeEffect(effectId: Identifiers.EffectId) returns (r: Result<Effects.RubEffect, Identifiers.NoSuch>)
      modifies this
      ensures r == old(Effect(effectId))
      ensures r.Ok? ==> effects == SwapRemove(old(effects), old(Position(effectId)).value)
      ensures r.Ok? ==> multiset(effects) == multiset(old(effects)) - multiset{r.value}
      ensures r.Err? ==> effects == old(effects)
      ensures ownerId == old(ownerId) && tileId == old(tileId) && xp == old(xp) && nickname == old(nickname)
      ensures conf == old(conf) && lifetimeRubs == old(lifetimeRubs) && craft == old(craft)
      ensures skillsUnlocked == old(skillsUnlocked)
    {
      var p := Position(effectId);
      if p.None? {
        r := Err(Missing(effectId));
      } else {
        var i := p.value;
        r := Ok(effects[i]);
        SwapRemoveMultiset(effects, i);
        effects := SwapRemove(effects, i);
      }
    }
  }
}
