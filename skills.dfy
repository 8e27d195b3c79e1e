// Plant skills (tile/plant/skill.rs): the costs of unlocking a skill, the
// unlocks that lead from one skill to the next, and their verification.
module Skills {
  import opened Wrappers
  import opened Seqs
  import opened Confs
  import opened ConfigVerify
  import R = RawConfigData
  import PF = PlantFilterRecipe
  import Effects

  /** `Cost`: skill points, counted items and skills it takes to unlock. */
  datatype Cost = Cost(points: nat, items: seq<(nat, ItemConf)>, skills: seq<SkillConf>)

  /** `Unlock`: the skill it leads to, the costs, and where it sits in its source skill's list. */
  datatype Unlock = Unlock(skill: SkillConf, hideUntil: Cost, costs: Cost, sourceSkill: SkillConf, index: nat)

  /** `Skill`. */
  datatype Skill = Skill(title: string, unlocks: seq<Unlock>, effects: seq<Effects.EffectConfig>)

  /** `RawCost::empty`. */
  function EmptyCost(): R.RawCost
  {
    R.RawCost(0, [], [])
  }

  /** `RawCost::points`. */
  function PointsCost(points: nat): R.RawCost
  {
    R.RawCost(points, [], [])
  }

  /**
   * An unlock written as a bare skill name: one skill point to unlock, and
   * never hidden.
   */
  function Shorthand(skill: string): (u: R.RawUnlock)
    ensures u.skill == skill
  {
    R.RawUnlock(skill, PointsCost(1), EmptyCost())
  }

  /** `plant_skill_conf` on the plant `plantConf`, as the callback mapped over skill titles. */
  function SkillResolver(raw: RawConfig, plantConf: PlantConf): (f: string -> VerifResult<SkillConf>)
    requires HasPlant(raw, plantConf)
    ensures forall title :: f(title) == PlantSkillConfOf(raw, plantConf, title)
  {
    (title: string) => PlantSkillConfOf(raw, plantConf, title)
  }

  /** Every title names a skill of the plant. */
  ghost predicate SkillsKnown(raw: RawConfig, plantConf: PlantConf, titles: seq<string>)
    requires HasPlant(raw, plantConf)
  {
    forall k :: 0 <= k < |titles| ==> PlantSkillConfOf(raw, plantConf, titles[k]).Ok?
  }

  const CostContext := "in one of an unlock's costs"

  /** A cost's skill titles resolved on the plant, in order, or the first unknown title's error. */
  function ResolveSkills(raw: RawConfig, plantConf: PlantConf, titles: seq<string>): (r: VerifResult<seq<SkillConf>>)
    requires HasPlant(raw, plantConf)
    ensures r.Ok? <==> SkillsKnown(raw, plantConf, titles)
    ensures r.Ok? ==> (|r.value| == |titles|
      && forall k :: 0 <= k < |titles| ==> Ok(r.value[k]) == PlantSkillConfOf(raw, plantConf, titles[k]))
    ensures r.Err? ==> exists k: nat :: (FirstFailure(titles, SkillResolver(raw, plantConf), k)
      && r.error == NewError(UnknownPlantSkill(plantConf, titles[k], raw.skillTitleSuggestions(plantConf, titles[k]))))
  {
    var r := Collect(titles, SkillResolver(raw, plantConf));
    AgreesOk(titles, SkillResolver(raw, plantConf), r);
    r
  }

  /** A cost's counted item names resolved, in order, or the first unknown name's error. */
  function ResolveItems(raw: RawConfig, items: seq<(nat, string)>): (r: VerifResult<seq<(nat, ItemConf)>>)
    ensures r.Ok? <==> PF.NeedsKnown(raw, items)
    ensures r.Ok? ==> (|r.value| == |items|
      && forall k :: 0 <= k < |items| ==> r.value[k].0 == items[k].0 && Ok(r.value[k].1) == ItemConfOf(raw, items[k].1))
    ensures r.Err? ==> exists k: nat :: (FirstFailure(items, PF.NeedResolver(raw), k)
      && r.error == NewError(UnknownItem(items[k].1, raw.itemNameSuggestions(items[k].1))))
  {
    var r := Collect(items, PF.NeedResolver(raw));
    AgreesOk(items, PF.NeedResolver(raw), r);
    r
  }

  /** The cost's `verify_raw`: the points copied, then the skills resolved, then the items. */
  function VerifyCostRaw(raw: RawConfig, plantConf: PlantConf, c: R.RawCost): VerifResult<Cost>
    requires HasPlant(raw, plantConf)
  {
    var skills := ResolveSkills(raw, plantConf, c.skills);
    if skills.Err? then Err(skills.error)
    else
      var items := ResolveItems(raw, c.items);
      if items.Err? then Err(items.error)
      else Ok(Cost(c.points, items.value, skills.value))
  }

  /**
   * `(plant::Conf, RawCost)::verify`: succeeds exactly when every skill title
   * is a skill of the plant and every item name is known; keeps the points
   * and each item's count, resolves every name in order. An unknown skill
   * wins over an unknown item; either is noted with the cost's context.
   */
  function VerifyCost(raw: RawConfig, plantConf: PlantConf, c: R.RawCost): (r: VerifResult<Cost>)
    requires HasPlant(raw, plantConf)
    ensures r.Ok? <==> SkillsKnown(raw, plantConf, c.skills) && PF.NeedsKnown(raw, c.items)
    ensures r.Ok? ==>
      && r.value.points == c.points
      && |r.value.skills| == |c.skills|
      && (forall k :: 0 <= k < |c.skills| ==> Ok(r.value.skills[k]) == PlantSkillConfOf(raw, plantConf, c.skills[k]))
      && |r.value.items| == |c.items|
      && (forall k :: 0 <= k < |c.items| ==>
            r.value.items[k].0 == c.items[k].0 && Ok(r.value.items[k].1) == ItemConfOf(raw, c.items[k].1))
    ensures !SkillsKnown(raw, plantConf, c.skills) ==>
      exists k: nat :: (FirstFailure(c.skills, SkillResolver(raw, plantConf), k)
        && r == Err(VerifError(UnknownPlantSkill(plantConf, c.skills[k], raw.skillTitleSuggestions(plantConf, c.skills[k])), [CostContext])))
    ensures SkillsKnown(raw, plantConf, c.skills) && !PF.NeedsKnown(raw, c.items) ==>
      exists k: nat :: (FirstFailure(c.items, PF.NeedResolver(raw), k)
        && r == Err(VerifError(UnknownItem(c.items[k].1, raw.itemNameSuggestions(c.items[k].1)), [CostContext])))
  {
    assert [] + [CostContext] == [CostContext];
    Verified(VerifyCostRaw(raw, plantConf, c), Some(CostContext))
  }

  /** An empty cost verifies on every plant, to the empty cost. */
  lemma EmptyCostVerifies(raw: RawConfig, plantConf: PlantConf)
    requires HasPlant(raw, plantConf)
    ensures VerifyCost(raw, plantConf, EmptyCost()) == Ok(Cost(0, [], []))
  {
  }

  /** A cost of points alone verifies on every plant, to those points. */
  lemma PointsCostVerifies(raw: RawConfig, plantConf: PlantConf, points: nat)
    requires HasPlant(raw, plantConf)
    ensures VerifyCost(raw, plantConf, PointsCost(points)) == Ok(Cost(points, [], []))
  {
  }

  /** `RawUnlockVerifyWrapper::context`. */
  function UnlockContext(u: R.RawUnlock): string
  {
    "in an unlock for " + u.skill
  }

  /** The unlock's `verify_raw`: the skill, then the hiding cost, then the unlocking cost. */
  function VerifyUnlockRaw(raw: RawConfig, plantConf: PlantConf, sourceSkill: SkillConf, index: nat, u: R.RawUnlock): VerifResult<Unlock>
    requires HasPlant(raw, plantConf)
  {
    var skill := PlantSkillConfOf(raw, plantConf, u.skill);
    if skill.Err? then Err(skill.error)
    else
      var hiding := VerifyCost(raw, plantConf, u.hideUntil);
      if hiding.Err? then Err(hiding.error)
      else
        var costs := VerifyCost(raw, plantConf, u.costs);
        if costs.Err? then Err(costs.error)
        else Ok(Unlock(skill.value, hiding.value, costs.value, sourceSkill, index))
  }

  /**
   * `RawUnlockVerifyWrapper::verify`: succeeds exactly when the target skill
   * exists on the plant and both costs verify; keeps the source skill and the
   * position. An unknown target wins over a bad hiding cost, which wins over
   * a bad unlocking cost; each is noted with the unlock's context.
   */
  function VerifyUnlock(raw: RawConfig, plantConf: PlantConf, sourceSkill: SkillConf, index: nat, u: R.RawUnlock): (r: VerifResult<Unlock>)
    requires HasPlant(raw, plantConf)
    ensures r.Ok? <==>
      && PlantSkillConfOf(raw, plantConf, u.skill).Ok?
      && VerifyCost(raw, plantConf, u.hideUntil).Ok?
      && VerifyCost(raw, plantConf, u.costs).Ok?
    ensures r.Ok? ==>
      && Ok(r.value.skill) == PlantSkillConfOf(raw, plantConf, u.skill)
      && Ok(r.value.hideUntil) == VerifyCost(raw, plantConf, u.hideUntil)
      && Ok(r.value.costs) == VerifyCost(raw, plantConf, u.costs)
      && r.value.sourceSkill == sourceSkill
      && r.value.index == index
    ensures PlantSkillConfOf(raw, plantConf, u.skill).Err? ==>
      r == Err(VerifError(UnknownPlantSkill(plantConf, u.skill, raw.skillTitleSuggestions(plantConf, u.skill)), [UnlockContext(u)]))
    ensures PlantSkillConfOf(raw, plantConf, u.skill).Ok? && VerifyCost(raw, plantConf, u.hideUntil).Err? ==>
      var e := VerifyCost(raw, plantConf, u.hideUntil).error;
      r == Err(VerifError(e.kind, e.source + [UnlockContext(u)]))
    ensures PlantSkillConfOf(raw, plantConf, u.skill).Ok? && VerifyCost(raw, plantConf, u.hideUntil).Ok?
            && VerifyCost(raw, plantConf, u.costs).Err? ==>
      var e := VerifyCost(raw, plantConf, u.costs).error;
      r == Err(VerifError(e.kind, e.source + [UnlockContext(u)]))
  {
    assert [] + [UnlockContext(u)] == [UnlockContext(u)];
    Verified(VerifyUnlockRaw(raw, plantConf, sourceSkill, index, u), Some(UnlockContext(u)))
  }

  /** A bare skill name verifies exactly when the plant has that skill, to a one-point, never hidden unlock. */
  lemma ShorthandVerifies(raw: RawConfig, plantConf: PlantConf, sourceSkill: SkillConf, index: nat, skill: string)
    requires HasPlant(raw, plantConf)
    ensures var r := VerifyUnlock(raw, plantConf, sourceSkill, index, Shorthand(skill));
      && (r.Ok? <==> PlantSkillConfOf(raw, plantConf, skill).Ok?)
      && (r.Ok? ==> r.value.costs == Cost(1, [], []) && r.value.hideUntil == Cost(0, [], []))
  {
    EmptyCostVerifies(raw, plantConf);
    PointsCostVerifies(raw, plantConf, 1);
  }

  /** The callback verifying the `index`th unlock of the skill `skillUuid` on the plant `plantConf`. */
  function UnlockVerifier(raw: RawConfig, plantConf: PlantConf, skillUuid: Uuids.Uuid): (f: ((nat, R.RawUnlock)) -> VerifResult<Unlock>)
    requires HasPlant(raw, plantConf)
    ensures forall e: (nat, R.RawUnlock) :: f(e) == VerifyUnlock(raw, plantConf, SkillConf(plantConf, skillUuid), e.0, e.1)
  {
    (e: (nat, R.RawUnlock)) => VerifyUnlock(raw, plantConf, SkillConf(plantConf, skillUuid), e.0, e.1)
  }

  /** `(plant::Conf, RawSkill)::context`. */
  function SkillContext(rsk: R.RawSkill): string
  {
    "in a skill titled " + rsk.title
  }

  /** A skill's effects verified in order, or the first failing effect's error. */
  function VerifyEffects(raw: RawConfig, rsk: R.RawSkill): (r: VerifResult<seq<Effects.EffectConfig>>)
    ensures r.Ok? <==> EffectsVerify(raw, rsk)
    ensures r.Ok? ==> (|r.value| == |rsk.effects|
      && forall k :: 0 <= k < |rsk.effects| ==> Ok(r.value[k]) == Effects.VerifyEffect(raw, rsk.effects[k]))
    ensures r.Err? ==> exists k: nat :: (FirstFailure(rsk.effects, Effects.EffectVerifier(raw), k)
      && r.error == Effects.VerifyEffect(raw, rsk.effects[k]).error)
  {
    var r := VerifyVec(rsk.effects, Effects.EffectVerifier(raw));
    AgreesOk(rsk.effects, Effects.EffectVerifier(raw), r);
    r
  }

  /** A skill's unlocks verified with their positions, or the first failing unlock's error. */
  function VerifyUnlocks(raw: RawConfig, plantConf: PlantConf, rsk: R.RawSkill): (r: VerifResult<seq<Unlock>>)
    requires HasPlant(raw, plantConf)
    ensures r.Ok? <==> UnlocksVerify(raw, plantConf, rsk)
    ensures r.Ok? ==> (|r.value| == |rsk.unlocks|
      && forall k :: 0 <= k < |rsk.unlocks| ==>
           Ok(r.value[k]) == VerifyUnlock(raw, plantConf, SkillConf(plantConf, rsk.conf), k, rsk.unlocks[k]))
    ensures r.Err? ==> exists k: nat :: (FirstFailure(Enumerate(rsk.unlocks), UnlockVerifier(raw, plantConf, rsk.conf), k)
      && r.error == VerifyUnlock(raw, plantConf, SkillConf(plantConf, rsk.conf), k, rsk.unlocks[k]).error)
  {
    var en := Enumerate(rsk.unlocks);
    var f := UnlockVerifier(raw, plantConf, rsk.conf);
    var r := Collect(en, f);
    AgreesEnumerated(rsk.unlocks, f, r);
    r
  }

  /** The skill's `verify_raw`: the effects, then the unlocks with their positions. */
  function VerifySkillRaw(raw: RawConfig, plantConf: PlantConf, rsk: R.RawSkill): VerifResult<Skill>
    requires HasPlant(raw, plantConf)
  {
    var effects := VerifyEffects(raw, rsk);
    if effects.Err? then Err(effects.error)
    else
      var unlocks := VerifyUnlocks(raw, plantConf, rsk);
      if unlocks.Err? then Err(unlocks.error)
      else Ok(Skill(rsk.title, unlocks.value, effects.value))
  }

  /** Every effect of the skill verifies. */
  ghost predicate EffectsVerify(raw: RawConfig, rsk: R.RawSkill)
  {
    forall k :: 0 <= k < |rsk.effects| ==> Effects.VerifyEffect(raw, rsk.effects[k]).Ok?
  }

  /** Every unlock of the skill verifies, given its position and the skill as its source. */
  ghost predicate UnlocksVerify(raw: RawConfig, plantConf: PlantConf, rsk: R.RawSkill)
    requires HasPlant(raw, plantConf)
  {
    forall k :: 0 <= k < |rsk.unlocks| ==>
      VerifyUnlock(raw, plantConf, SkillConf(plantConf, rsk.conf), k, rsk.unlocks[k]).Ok?
  }

  /**
   * `(plant::Conf, RawSkill)::verify`: succeeds exactly when every effect and
   * every unlock verifies; keeps the title, verifies the effects in order,
   * and gives the `k`th unlock position `k` and this skill (on this plant) as
   * its source. A failing effect wins over a failing unlock; either error is
   * the first failure's, noted with the skill's context.
   */
  function VerifySkill(raw: RawConfig, plantConf: PlantConf, rsk: R.RawSkill): (r: VerifResult<Skill>)
    requires HasPlant(raw, plantConf)
    ensures r.Ok? <==> EffectsVerify(raw, rsk) && UnlocksVerify(raw, plantConf, rsk)
    ensures r.Ok? ==>
      && r.value.title == rsk.title
      && |r.value.effects| == |rsk.effects|
      && (forall k :: 0 <= k < |rsk.effects| ==> Ok(r.value.effects[k]) == Effects.VerifyEffect(raw, rsk.effects[k]))
      && |r.value.unlocks| == |rsk.unlocks|
      && (forall k :: 0 <= k < |rsk.unlocks| ==>
            && Ok(r.value.unlocks[k]) == VerifyUnlock(raw, plantConf, SkillConf(plantConf, rsk.conf), k, rsk.unlocks[k])
            && r.value.unlocks[k].index == k
            && r.value.unlocks[k].sourceSkill == SkillConf(plantConf, rsk.conf))
  {
    Verified(VerifySkillRaw(raw, plantConf, rsk), Some(SkillContext(rsk)))
  }

  /** A failing effect wins over a failing unlock; either error is the first failure's, noted with the skill's context. */
  lemma SkillErrorNoted(raw: RawConfig, plantConf: PlantConf, rsk: R.RawSkill)
    requires HasPlant(raw, plantConf)
    ensures !EffectsVerify(raw, rsk) ==>
      exists k: nat :: (FirstFailure(rsk.effects, Effects.EffectVerifier(raw), k)
        && var e := Effects.VerifyEffect(raw, rsk.effects[k]).error;
           VerifySkill(raw, plantConf, rsk) == Err(VerifError(e.kind, e.source + [SkillContext(rsk)])))
    ensures EffectsVerify(raw, rsk) && !UnlocksVerify(raw, plantConf, rsk) ==>
      exists k: nat :: (FirstFailure(Enumerate(rsk.unlocks), UnlockVerifier(raw, plantConf, rsk.conf), k)
        && var e := VerifyUnlock(raw, plantConf, SkillConf(plantConf, rsk.conf), k, rsk.unlocks[k]).error;
           VerifySkill(raw, plantConf, rsk) == Err(VerifError(e.kind, e.source + [SkillContext(rsk)])))
  {
    var effects := VerifyEffects(raw, rsk);
    if effects.Err? {
      assert VerifySkill(raw, plantConf, rsk) == Err(VerifError(effects.error.kind, effects.error.source + [SkillContext(rsk)]));
    } else {
      var unlocks := VerifyUnlocks(raw, plantConf, rsk);
      if unlocks.Err? {
        assert VerifySkillRaw(raw, plantConf, rsk) == Err(unlocks.error);
        assert VerifySkill(raw, plantConf, rsk) == Err(VerifError(unlocks.error.kind, unlocks.error.source + [SkillContext(rsk)]));
      }
    }
  }
}
