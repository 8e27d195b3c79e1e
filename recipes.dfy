// The standalone recipes of tile/plant/recipe.rs: like the recipes of
// tile/plant/mod.rs, but each carries its own handle.
module Recipes {
  import opened Wrappers
  import opened Seqs
  import opened Confs
  import opened Uuids
  import opened ConfigVerify
  import opened EvalputVerify
  import PF = PlantFilterRecipe
  import Evalputs

  /** `recipe::Conf`: names a recipe by uuid. */
  datatype RecipeConf = RecipeConf(uuid: Uuid)

  /** `Craft`: the recipe a plant is crafting. */
  datatype Craft = Craft(recipeConf: RecipeConf)

  datatype RawRecipe = RawRecipe(
    title: string,
    conf: RecipeConf,
    art: string,
    explanation: string,
    destroysPlant: bool,
    time: real,
    needs: seq<(nat, string)>,
    makes: Evalputs.Evalput<string>)

  datatype Recipe = Recipe(
    title: string,
    conf: RecipeConf,
    art: ItemConf,
    explanation: string,
    destroysPlant: bool,
    time: real,
    needs: seq<(nat, ItemConf)>,
    makes: Evalputs.Evalput<ItemConf>)

  /** `RawRecipe::context`. */
  function RecipeContext(rr: RawRecipe): string
  {
    "in a recipe named \"" + rr.title + "\""
  }

  /** `RawRecipe::verify_raw`: needs first, then the art, then what the recipe makes. */
  function VerifyRecipeRaw(raw: RawConfig, rr: RawRecipe): VerifResult<Recipe>
  {
    var needs := PF.VerifyNeeds(raw, rr.needs);
    if needs.Err? then Err(needs.error)
    else
      var art := Note(ItemConfOf(raw, rr.art), ArtContext);
      if art.Err? then Err(art.error)
      else
        var makes := Note(VerifyEvalput(raw, rr.makes), MakesContext);
        if makes.Err? then Err(makes.error)
        else Ok(Recipe(rr.title, rr.conf, art.value, rr.explanation, rr.destroysPlant, rr.time, needs.value, makes.value))
  }

  /**
   * `RawRecipe::verify`: succeeds exactly when every needed item, the art item
   * and every item of `makes` is known; then keeps the handle and the plain
   * fields and resolves each need in place. A failure carries the field it
   * comes from and then the recipe's context.
   */
  function VerifyRecipe(raw: RawConfig, rr: RawRecipe): (r: VerifResult<Recipe>)
    ensures r.Ok? <==> PF.NeedsKnown(raw, rr.needs) && ItemConfOf(raw, rr.art).Ok? && VerifyEvalput(raw, rr.makes).Ok?
    ensures r.Ok? ==> && r.value.title == rr.title && r.value.conf == rr.conf && r.value.explanation == rr.explanation
                      && r.value.destroysPlant == rr.destroysPlant && r.value.time == rr.time
                      && Ok(r.value.art) == ItemConfOf(raw, rr.art)
                      && Ok(r.value.makes) == VerifyEvalput(raw, rr.makes)
                      && |r.value.needs| == |rr.needs|
                      && forall k :: 0 <= k < |rr.needs| ==>
                           r.value.needs[k].0 == rr.needs[k].0 && Ok(r.value.needs[k].1) == ItemConfOf(raw, rr.needs[k].1)
  {
    Verified(VerifyRecipeRaw(raw, rr), Some(RecipeContext(rr)))
  }

  /**
   * A recipe that fails to verify carries the first failure, in field order,
   * noted with its field and then with the recipe's context.
   */
  lemma RecipeErrorNoted(raw: RawConfig, rr: RawRecipe)
    ensures var r := VerifyRecipe(raw, rr);
      && (r.Err? && !PF.NeedsKnown(raw, rr.needs) ==>
            exists k: nat :: (FirstFailure(rr.needs, PF.NeedResolver(raw), k)
              && r.error == VerifError(UnknownItem(rr.needs[k].1, raw.itemNameSuggestions(rr.needs[k].1)),
                                       [NeedsContext, RecipeContext(rr)])))
      && (r.Err? && PF.NeedsKnown(raw, rr.needs) && ItemConfOf(raw, rr.art).Err? ==>
            r.error == VerifError(UnknownItem(rr.art, raw.itemNameSuggestions(rr.art)), [ArtContext, RecipeContext(rr)]))
      && (r.Err? && PF.NeedsKnown(raw, rr.needs) && ItemConfOf(raw, rr.art).Ok? ==>
            && r.error.kind == VerifyEvalput(raw, rr.makes).error.kind
            && r.error.source == VerifyEvalput(raw, rr.makes).error.source + [MakesContext, RecipeContext(rr)])
  {
    var makes := VerifyEvalput(raw, rr.makes);
    AppendPair([], NeedsContext, RecipeContext(rr));
    AppendPair([], ArtContext, RecipeContext(rr));
    if makes.Err? {
      AppendPair(makes.error.source, MakesContext, RecipeContext(rr));
    }
  }
}
