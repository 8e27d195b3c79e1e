// Plant buffs (tile/plant/buff.rs): their verification and `BuffSum::new`,
// which folds a plant's buffs into one summary.
module Buffs {
  import opened Wrappers
  import opened Seqs
  import opened Confs
  import opened ConfigVerify
  import R = RawConfigData
  import EV = EvalputVerify
  import PF = PlantFilterRecipe
  import Evalputs

  /** `Buff`: a buff whose item and recipe names are resolved. */
  datatype Buff =
    | Neighbor(neighbor: Buff)
    | Art(file: string, precedence: nat)
    | ExtraTimeTicks(ticks: nat)
    | ExtraTimeTicksMultiplier(ticksMultiplier: real)
    | Xp(xpPerTick: real)
    | YieldSpeedMultiplier(yieldSpeed: real)
    | YieldSizeMultiplier(yieldSize: real)
    | Yield(evalput: Evalputs.Evalput<ItemConf>)
    | Craft(recipes: seq<PF.Recipe>)
    | CraftSpeedMultiplier(craftSpeed: real)
    | CraftInputReturnChance(inputReturn: real)
    | CraftOutputDoubleChance(outputDouble: real)

  /** `RawBuff::context`. */
  function BuffContext(b: R.RawBuff): string
  {
    "in a" + (match b
      case Neighbor(_) => " neighbor"
      case ExtraTimeTicks(_) => "n extra time ticks"
      case ExtraTimeTicksMultiplier(_) => " time ticks multiplier"
      case Xp(_) => " xp"
      case YieldSpeedMultiplier(_) => " yield speed multiplier"
      case YieldSizeMultiplier(_) => " yield size multipler"
      case Yield(_) => " yield"
      case Craft(_) => " craft"
      case CraftSpeedMultiplier(_) => " craft speed multiplier"
      case CraftInputReturnChance(_) => " craft input return chance"
      case CraftOutputDoubleChance(_) => " craft otuput double chance"
      case Art(_, _) => "n art") + " buff"
  }

  /** `RawRecipe::verify` on `raw`, as the callback a list of recipes is verified with. */
  function RecipeVerifier(raw: RawConfig): (f: R.RawRecipe -> VerifResult<PF.Recipe>)
    ensures forall rr :: f(rr) == PF.VerifyRecipe(raw, rr)
  {
    (rr: R.RawRecipe) => PF.VerifyRecipe(raw, rr)
  }

  /** A raw buff all of whose names are known: the condition under which it verifies. */
  ghost predicate Verifiable(raw: RawConfig, rb: R.RawBuff)
  {
    match rb
    case Neighbor(inner) => Verifiable(raw, inner)
    case Yield(e) => EV.VerifyEvalput(raw, e).Ok?
    case Craft(rs) => forall k :: 0 <= k < |rs| ==> PF.VerifyRecipe(raw, rs[k]).Ok?
    case _ => true
  }

  /**
   * `b` is the verified form of `rb`: the same variant with the same numbers
   * and art, a neighbour's inner buff verified in turn, and the evalput or
   * each recipe (in order) resolved.
   */
  ghost predicate Corresponds(raw: RawConfig, rb: R.RawBuff, b: Buff)
  {
    match rb
    case Neighbor(inner) => b.Neighbor? && Corresponds(raw, inner, b.neighbor)
    case ExtraTimeTicks(t) => b == ExtraTimeTicks(t)
    case ExtraTimeTicksMultiplier(m) => b == ExtraTimeTicksMultiplier(m)
    case Xp(x) => b == Xp(x)
    case YieldSpeedMultiplier(m) => b == YieldSpeedMultiplier(m)
    case YieldSizeMultiplier(m) => b == YieldSizeMultiplier(m)
    case Yield(e) => b.Yield? && EV.VerifyEvalput(raw, e) == Ok(b.evalput)
    case Craft(rs) => b.Craft? && |b.recipes| == |rs|
      && forall k :: 0 <= k < |rs| ==> PF.VerifyRecipe(raw, rs[k]) == Ok(b.recipes[k])
    case CraftSpeedMultiplier(m) => b == CraftSpeedMultiplier(m)
    case CraftInputReturnChance(c) => b == CraftInputReturnChance(c)
    case CraftOutputDoubleChance(c) => b == CraftOutputDoubleChance(c)
    case Art(f, p) => b == Art(f, p)
  }

  /** A list of raw recipes verified one by one: every recipe, or the first failure. */
  function VerifyRecipes(raw: RawConfig, rs: seq<R.RawRecipe>): (r: VerifResult<seq<PF.Recipe>>)
    ensures r.Ok? <==> forall k :: 0 <= k < |rs| ==> PF.VerifyRecipe(raw, rs[k]).Ok?
    ensures r.Ok? ==> |r.value| == |rs| && forall k :: 0 <= k < |rs| ==> PF.VerifyRecipe(raw, rs[k]) == Ok(r.value[k])
  {
    var r := VerifyVec(rs, RecipeVerifier(raw));
    AgreesOk(rs, RecipeVerifier(raw), r);
    r
  }

  /** `RawBuff::verify_raw`. */
  function VerifyBuffRaw(raw: RawConfig, rb: R.RawBuff): (r: VerifResult<Buff>)
    ensures r.Ok? <==> Verifiable(raw, rb)
    ensures r.Ok? ==> Corresponds(raw, rb, r.value)
    decreases rb, 0
  {
    match rb
    case Neighbor(inner) => VerifyBuff(raw, inner).Map(b => Neighbor(b))
    case ExtraTimeTicks(t) => Ok(ExtraTimeTicks(t))
    case ExtraTimeTicksMultiplier(m) => Ok(ExtraTimeTicksMultiplier(m))
    case Xp(x) => Ok(Xp(x))
    case YieldSpeedMultiplier(m) => Ok(YieldSpeedMultiplier(m))
    case YieldSizeMultiplier(m) => Ok(YieldSizeMultiplier(m))
    case Yield(e) => EV.VerifyEvalput(raw, e).Map(v => Yield(v))
    case Craft(rs) => VerifyRecipes(raw, rs).Map(v => Craft(v))
    case CraftSpeedMultiplier(m) => Ok(CraftSpeedMultiplier(m))
    case CraftInputReturnChance(c) => Ok(CraftInputReturnChance(c))
    case CraftOutputDoubleChance(c) => Ok(CraftOutputDoubleChance(c))
    case Art(f, p) => Ok(Art(f, p))
  }

  /**
   * `RawBuff::verify`: succeeds exactly when every name inside the buff is
   * known, with the verified form of the buff; a failure carries the buff's
   * own context as its outermost note.
   */
  function VerifyBuff(raw: RawConfig, rb: R.RawBuff): (r: VerifResult<Buff>)
    ensures r.Ok? <==> Verifiable(raw, rb)
    ensures r.Ok? ==> Corresponds(raw, rb, r.value)
    ensures r.Err? ==> |r.error.source| > 0 && r.error.source[|r.error.source| - 1] == BuffContext(rb)
    decreases rb, 1
  {
    Verified(VerifyBuffRaw(raw, rb), Some(BuffContext(rb)))
  }

  /**
   * The part of `BuffSum` that is not floating point: the chosen art, every
   * yield, and every recipe the plant can craft.
   */
  datatype BuffSum = BuffSum(art: string, totalYield: Evalputs.Evalput<ItemConf>, recipes: seq<PF.Recipe>)

  /** The evalputs of the `Yield` buffs, in buff order. */
  function YieldsOf(buffs: seq<Buff>): seq<Evalputs.Evalput<ItemConf>>
  {
    if buffs == [] then []
    else
      var last := buffs[|buffs| - 1];
      YieldsOf(buffs[..|buffs| - 1]) + (if last.Yield? then [last.evalput] else [])
  }

  /** The recipes of the `Craft` buffs, concatenated in buff order. */
  function RecipesOf(buffs: seq<Buff>): seq<PF.Recipe>
  {
    if buffs == [] then []
    else
      var last := buffs[|buffs| - 1];
      RecipesOf(buffs[..|buffs| - 1]) + (if last.Craft? then last.recipes else [])
  }

  /** The art chosen so far and its precedence. */
  datatype ArtChoice = ArtChoice(file: Option<string>, precedence: nat)

  /** One buff's effect on the art choice: an `Art` at least as important replaces it. */
  function ArtStep(a: ArtChoice, b: Buff): ArtChoice
  {
    if b.Art? && b.precedence >= a.precedence then ArtChoice(Some(b.file), b.precedence) else a
  }

  /** The art choice after the buffs, starting from `start`. */
  function ArtFrom(start: ArtChoice, buffs: seq<Buff>): ArtChoice
  {
    if buffs == [] then start
    else ArtStep(ArtFrom(start, buffs[..|buffs| - 1]), buffs[|buffs| - 1])
  }

  /** The art choice of `BuffSum::new`, which starts with no art at precedence 0. */
  function ArtOf(buffs: seq<Buff>): ArtChoice
  {
    ArtFrom(ArtChoice(None, 0), buffs)
  }

  /**
   * `BuffSum::new`, without the floating-point fields. `None` stands for the
   * panic when no buff supplies art.
   */
  method NewBuffSum(buffs: seq<Buff>) returns (sum: Option<BuffSum>)
    ensures sum.None? <==> forall k :: 0 <= k < |buffs| ==> !buffs[k].Art?
    ensures sum.Some? ==> ArtOf(buffs).file.Some? && sum.value == BuffSum(ArtOf(buffs).file.value, Evalputs.All(YieldsOf(buffs)), RecipesOf(buffs))
  {
    var art := ArtChoice(None, 0);
    var yieldList: seq<Evalputs.Evalput<ItemConf>> := [];
    var recipes: seq<PF.Recipe> := [];
    for i := 0 to |buffs|
      invariant art == ArtOf(buffs[..i])
      invariant yieldList == YieldsOf(buffs[..i])
      invariant recipes == RecipesOf(buffs[..i])
    {
      assert buffs[..i + 1][..i] == buffs[..i];
      match buffs[i]
      case Yield(y) =>
        yieldList := yieldList + [y];
      case Craft(rs) =>
        recipes := recipes + rs;
      case Art(file, precedence) =>
        if precedence >= art.precedence {
          art := ArtChoice(Some(file), precedence);
        }
      case _ =>
    }
    assert buffs[..|buffs|] == buffs;
    ArtOfSome(buffs);
    if art.file.None? {
      return None;
    }
    sum := Some(BuffSum(art.file.value, Evalputs.All(yieldList), recipes));
  }

  /**
   * The art `BuffSum::new` picks: some buff supplies art exactly when one is
   * picked, and then it is an `Art` buff of maximal precedence, after which
   * only `Art` buffs of strictly lower precedence follow (ties go to the
   * later buff).
   */
  lemma {:induction false} ArtOfSome(buffs: seq<Buff>)
    ensures ArtOf(buffs).file.Some? <==> exists k :: 0 <= k < |buffs| && buffs[k].Art?
    ensures ArtOf(buffs).file.Some? ==> exists k :: (0 <= k < |buffs| && ChosenArt(buffs, k)
      && ArtOf(buffs) == ArtChoice(Some(buffs[k].file), buffs[k].precedence))
  {
    if buffs != [] {
      var init := buffs[..|buffs| - 1];
      var last := buffs[|buffs| - 1];
      ArtOfSome(init);
      ArtOfBound(init);
      assert forall k :: 0 <= k < |init| ==> init[k] == buffs[k];
      assert ArtOf(buffs) == ArtStep(ArtOf(init), last);
      if last.Art? && last.precedence >= ArtOf(init).precedence {
        assert ChosenArt(buffs, |buffs| - 1);
      } else if ArtOf(init).file.Some? {
        var k :| 0 <= k < |init| && ChosenArt(init, k) && ArtOf(init) == ArtChoice(Some(init[k].file), init[k].precedence);
        assert ChosenArt(buffs, k);
      }
    }
  }

  /** `buffs[k]` is an `Art` buff of maximal precedence with no later buff of equal precedence. */
  ghost predicate ChosenArt(buffs: seq<Buff>, k: int)
    requires 0 <= k < |buffs|
  {
    && buffs[k].Art?
    && forall j :: 0 <= j < |buffs| && buffs[j].Art? ==>
         buffs[j].precedence <= buffs[k].precedence && (j > k ==> buffs[j].precedence < buffs[k].precedence)
  }

  /** No `Art` buff has a higher precedence than the choice, which stays 0 while no art is picked. */
  lemma {:induction false} ArtOfBound(buffs: seq<Buff>)
    ensures forall j :: 0 <= j < |buffs| && buffs[j].Art? ==> buffs[j].precedence <= ArtOf(buffs).precedence
    ensures ArtOf(buffs).file.None? ==> ArtOf(buffs).precedence == 0
  {
    if buffs != [] {
      var init := buffs[..|buffs| - 1];
      ArtOfBound(init);
      assert forall k :: 0 <= k < |init| ==> init[k] == buffs[k];
    }
  }

  /** Art choice is a left fold: the buffs can be taken in two runs. */
  lemma {:induction false} ArtFromAppend(start: ArtChoice, a: seq<Buff>, b: seq<Buff>)
    ensures ArtFrom(start, a + b) == ArtFrom(ArtFrom(start, a), b)
  {
    if b != [] {
      ArtFromAppend(start, a, b[..|b| - 1]);
      assert (a + b)[..|a + b| - 1] == a + b[..|b| - 1];
    } else {
      assert a + b == a;
    }
  }

  /** Yields and recipes of two runs of buffs are those of each run, concatenated. */
  lemma {:induction false} SumsAppend(a: seq<Buff>, b: seq<Buff>)
    ensures YieldsOf(a + b) == YieldsOf(a) + YieldsOf(b)
    ensures RecipesOf(a + b) == RecipesOf(a) + RecipesOf(b)
  {
    if b != [] {
      var init, last, ab := b[..|b| - 1], b[|b| - 1], a + b;
      SumsAppend(a, init);
      assert ab[..|ab| - 1] == a + init && ab[|ab| - 1] == last;
      var y := if last.Yield? then [last.evalput] else [];
      assert YieldsOf(ab) == YieldsOf(a + init) + y;
      assert YieldsOf(b) == YieldsOf(init) + y;
      ConcatAssoc(YieldsOf(a), YieldsOf(init), y);
      var c := if last.Craft? then last.recipes else [];
      assert RecipesOf(ab) == RecipesOf(a + init) + c;
      assert RecipesOf(b) == RecipesOf(init) + c;
      ConcatAssoc(RecipesOf(a), RecipesOf(init), c);
    } else {
      assert a + b == a;
    }
  }

  /** `BuffSum::new` ignores `Neighbor` buffs: removing one changes none of its results. */
  lemma NeighborIgnored(a: seq<Buff>, n: Buff, b: seq<Buff>)
    requires n.Neighbor?
    ensures YieldsOf(a + [n] + b) == YieldsOf(a + b)
    ensures RecipesOf(a + [n] + b) == RecipesOf(a + b)
    ensures ArtOf(a + [n] + b) == ArtOf(a + b)
  {
    SumsAppend(a + [n], b);
    SumsAppend(a, [n]);
    SumsAppend(a, b);
    ArtFromAppend(ArtChoice(None, 0), a + [n], b);
    ArtFromAppend(ArtChoice(None, 0), a, [n]);
    ArtFromAppend(ArtChoice(None, 0), a, b);
    assert [n][..0] == [];
  }
}
