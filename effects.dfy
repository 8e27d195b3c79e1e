// Plant effects (tile/plant/effect.rs): what rubbing an item onto a plant
// does, and the verification of its raw configuration.
module Effects {
  import opened Wrappers
  import opened Confs
  import opened ConfigVerify
  import R = RawConfigData
  import PF = PlantFilterRecipe
  import Buffs
  import Identifiers

  /** `RubEffect`: an effect rubbed onto a plant, with the item it came from and its position in that item's list. */
  datatype RubEffect = RubEffect(effectId: Identifiers.EffectId, itemConf: ItemConf, effectConf: nat)

  /** What an effect does: buff the plant, or turn it into another plant. */
  datatype ConfigKind = Buff(buff: Buffs.Buff) | Transmogrification(plant: PlantConf)
  {
    /** `ConfigKind::buff`. */
    function BuffOf(): (r: Option<Buffs.Buff>)
      ensures r.Some? <==> this.Buff?
      ensures r.Some? ==> r.value == this.buff
    {
      match this
      case Buff(b) => Some(b)
      case Transmogrification(_) => None
    }
  }

  /** `effect::Config`. */
  datatype EffectConfig = EffectConfig(description: string, kind: ConfigKind, forPlants: PF.Filter, duration: Option<real>)

  /** The context of an unknown plant in the transmogrification field, and the two errors of an effect that is not exactly one kind. */
  const TransmogContext := "in the transmogrification field"
  const BothKinds := "a single effect should not transmog AND buff"
  const NeitherKind := "an effect should either transmog OR buff"

  /** The first twenty characters of a description, or all of it when shorter. */
  function Excerpt(description: string): (e: string)
    ensures |e| == if |description| < 20 then |description| else 20
    ensures e <= description
  {
    description[..if |description| < 20 then |description| else 20]
  }

  /** `RawConfig::context`: the description's opening quoted. */
  function EffectContext(rc: R.RawEffectConfig): string
  {
    "in an effect described \"" + Excerpt(rc.description) + "...\""
  }

  /** The transmogrification field: the named plant resolved, noted with `TransmogContext` when unknown. */
  function TransmogOf(raw: RawConfig, rc: R.RawEffectConfig): VerifResult<Option<PlantConf>>
  {
    match rc.transmogrification
    case None => Ok(None)
    case Some(name) =>
      var c := PlantConfOf(raw, name);
      Note(if c.Ok? then Ok(Some(c.value)) else Err(c.error), TransmogContext)
  }

  function BuffVerifier(raw: RawConfig): (f: R.RawBuff -> VerifResult<Buffs.Buff>)
    ensures forall rb :: f(rb) == Buffs.VerifyBuff(raw, rb)
  {
    (rb: R.RawBuff) => Buffs.VerifyBuff(raw, rb)
  }

  /** The kind of an effect: exactly one of a buff and a transmogrification must be given. */
  function KindOf(buff: Option<Buffs.Buff>, trans: Option<PlantConf>): (r: VerifResult<ConfigKind>)
    ensures r.Ok? <==> buff.Some? != trans.Some?
    ensures r.Ok? ==> (r.value.Buff? <==> buff.Some?)
    ensures r.Ok? && buff.Some? ==> r.value.buff == buff.value
    ensures r.Ok? && trans.Some? ==> r.value.plant == trans.value
    ensures buff.Some? && trans.Some? ==> r == Err(CustomError(BothKinds))
    ensures buff.None? && trans.None? ==> r == Err(CustomError(NeitherKind))
  {
    match (buff, trans)
    case (Some(b), None) => Ok(Buff(b))
    case (None, Some(t)) => Ok(Transmogrification(t))
    case (Some(_), Some(_)) => Err(CustomError(BothKinds))
    case (None, None) => Err(CustomError(NeitherKind))
  }

  /** `RawConfig::verify_raw`: the transmogrification, then the buff, then the kind, then the filter. */
  function VerifyEffectRaw(raw: RawConfig, rc: R.RawEffectConfig): VerifResult<EffectConfig>
  {
    var trans := TransmogOf(raw, rc);
    if trans.Err? then Err(trans.error)
    else
      var buff := VerifyOption(rc.buff, BuffVerifier(raw));
      if buff.Err? then Err(buff.error)
      else
        var kind := KindOf(buff.value, trans.value);
        if kind.Err? then Err(kind.error)
        else
          var filter := PF.VerifyFilter(raw, rc.forPlants);
          if filter.Err? then Err(filter.error)
          else Ok(EffectConfig(rc.description, kind.value, filter.value, rc.duration))
  }

  /** The transmogrification, if any, names a known plant. */
  ghost predicate TransmogKnown(raw: RawConfig, rc: R.RawEffectConfig)
  {
    rc.transmogrification.Some? ==> PlantConfOf(raw, rc.transmogrification.value).Ok?
  }

  /** The buff, if any, verifies. */
  ghost predicate BuffVerifies(raw: RawConfig, rc: R.RawEffectConfig)
  {
    rc.buff.Some? ==> Buffs.VerifyBuff(raw, rc.buff.value).Ok?
  }

  /**
   * `RawConfig::verify`: an effect verifies exactly when its plant name is
   * known, its buff verifies, it either buffs or transmogrifies but not both,
   * and its filter verifies. Then the description and duration are copied,
   * the kind follows the field that was given and the filter is verified.
   * Failures come in that order, each ending with the effect's context.
   */
  function VerifyEffect(raw: RawConfig, rc: R.RawEffectConfig): (r: VerifResult<EffectConfig>)
    ensures r.Ok? <==>
      && TransmogKnown(raw, rc) && BuffVerifies(raw, rc)
      && rc.buff.Some? != rc.transmogrification.Some?
      && PF.VerifyFilter(raw, rc.forPlants).Ok?
    ensures r.Ok? ==>
      && r.value.description == rc.description
      && r.value.duration == rc.duration
      && Ok(r.value.forPlants) == PF.VerifyFilter(raw, rc.forPlants)
      && (r.value.kind.Buff? <==> rc.buff.Some?)
      && (rc.buff.Some? ==> Ok(r.value.kind.buff) == Buffs.VerifyBuff(raw, rc.buff.value))
      && (rc.transmogrification.Some? ==> Ok(r.value.kind.plant) == PlantConfOf(raw, rc.transmogrification.value))
    ensures !TransmogKnown(raw, rc) ==>
      var name := rc.transmogrification.value;
      r == Err(VerifError(UnknownPlant(name, raw.plantNameSuggestions(name)), [TransmogContext, EffectContext(rc)]))
    ensures TransmogKnown(raw, rc) && !BuffVerifies(raw, rc) ==>
      && r.Err?
      && r.error.kind == Buffs.VerifyBuff(raw, rc.buff.value).error.kind
      && r.error.source == Buffs.VerifyBuff(raw, rc.buff.value).error.source + [EffectContext(rc)]
    ensures TransmogKnown(raw, rc) && BuffVerifies(raw, rc) && rc.buff.Some? && rc.transmogrification.Some? ==>
      r == Err(VerifError(Custom(BothKinds), [EffectContext(rc)]))
    ensures TransmogKnown(raw, rc) && rc.buff.None? && rc.transmogrification.None? ==>
      r == Err(VerifError(Custom(NeitherKind), [EffectContext(rc)]))
    ensures TransmogKnown(raw, rc) && BuffVerifies(raw, rc) && rc.buff.Some? != rc.transmogrification.Some?
            && PF.VerifyFilter(raw, rc.forPlants).Err? ==>
      && r.Err?
      && r.error.kind == PF.VerifyFilter(raw, rc.forPlants).error.kind
      && r.error.source == PF.VerifyFilter(raw, rc.forPlants).error.source + [EffectContext(rc)]
  {
    assert [] + [TransmogContext] == [TransmogContext];
    assert ([] + [TransmogContext]) + [EffectContext(rc)] == [TransmogContext, EffectContext(rc)];
    assert [] + [EffectContext(rc)] == [EffectContext(rc)];
    Verified(VerifyEffectRaw(raw, rc), Some(EffectContext(rc)))
  }

  function EffectVerifier(raw: RawConfig): (f: R.RawEffectConfig -> VerifResult<EffectConfig>)
    ensures forall rc :: f(rc) == VerifyEffect(raw, rc)
  {
    (rc: R.RawEffectConfig) => VerifyEffect(raw, rc)
  }
}
