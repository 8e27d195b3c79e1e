// Plant filters and crafting recipes of tile/plant/mod.rs, with their
// verification.
module PlantFilterRecipe {
  import opened Wrappers
  import opened Seqs
  import opened Confs
  import opened ConfigVerify
  import opened EvalputVerify
  import R = RawConfigData
  import Evalputs

  /** `Filter`: which plants an effect applies to. */
  datatype Filter = Only(only: seq<PlantConf>) | Not(not: seq<PlantConf>) | All

  /** Whether `c` occurs in `these`, scanning from the front (`iter().any`). */
  function Listed(these: seq<PlantConf>, c: PlantConf): (b: bool)
    ensures b <==> c in these
  {
    if these == [] then false
    else these[0] == c || Listed(these[1..], c)
  }

  /** `Filter::allows`. */
  function Allows(f: Filter, c: PlantConf): (b: bool)
    ensures f.Only? ==> (b <==> c in f.only)
    ensures f.Not? ==> (b <==> c !in f.not)
    ensures f.All? ==> b
  {
    match f
    case Only(these) => Listed(these, c)
    case Not(these) => !Listed(these, c)
    case All => true
  }

  /** `Filter::default`: allows every plant. */
  function DefaultFilter(): (f: Filter)
    ensures f.All?
    ensures forall c :: Allows(f, c)
  {
    All
  }

  /** The plant handles a filter lists (none for `All`). */
  function FilterConfs(f: Filter): seq<PlantConf>
  {
    match f
    case Only(these) => these
    case Not(these) => these
    case All => []
  }

  /** The plant names a raw filter lists (none for `All`). */
  function Names(f: R.RawFilter): seq<string>
  {
    match f
    case Only(these) => these
    case Not(these) => these
    case All => []
  }

  /** `RawFilter::context`. */
  function FilterContext(f: R.RawFilter): string
  {
    "in a " + (match f case Only(_) => "only" case Not(_) => "not" case All => "all") + " filter"
  }

  /** `RawFilter::verify_raw`: resolves every plant name, keeping the variant. */
  function VerifyFilterRaw(raw: RawConfig, f: R.RawFilter): VerifResult<Filter>
  {
    match f
    case All => Ok(All)
    case Only(these) => Collect(these, PlantResolver(raw)).Map(cs => Only(cs))
    case Not(these) => Collect(these, PlantResolver(raw)).Map(cs => Not(cs))
  }

  /**
   * `RawFilter::verify`: same variant, each listed name resolved to its plant
   * handle in order; the first unknown name's error otherwise, noted with the
   * filter's context.
   */
  function VerifyFilter(raw: RawConfig, f: R.RawFilter): (r: VerifResult<Filter>)
    ensures r.Ok? ==> (r.value.Only? <==> f.Only?) && (r.value.Not? <==> f.Not?) && (r.value.All? <==> f.All?)
    ensures f.All? ==> r == Ok(All)
    ensures VerifiesAs(Names(f), PlantResolver(raw), r.Map(FilterConfs), [FilterContext(f)])
  {
    NotedCollect(Names(f), PlantResolver(raw), FilterContext(f));
    Verified(VerifyFilterRaw(raw, f), Some(FilterContext(f)))
  }

  /** `Recipe`: a recipe whose names are resolved to item handles. */
  datatype Recipe = Recipe(
    title: string,
    art: ItemConf,
    explanation: string,
    destroysPlant: bool,
    time: real,
    needs: seq<(nat, ItemConf)>,
    makes: Evalputs.Evalput<ItemConf>)

  /** The callback mapped over a recipe's needs: the count kept, the item name resolved. */
  function NeedResolver(raw: RawConfig): (f: ((nat, string)) -> VerifResult<(nat, ItemConf)>)
    ensures forall need: (nat, string) :: f(need).Ok? <==> ItemConfOf(raw, need.1).Ok?
    ensures forall need: (nat, string) :: f(need).Ok? ==> f(need).value == (need.0, ItemConfOf(raw, need.1).value)
    ensures forall need: (nat, string) :: f(need).Err? ==> f(need).error == ItemConfOf(raw, need.1).error
  {
    (need: (nat, string)) => ItemConfOf(raw, need.1).Map(c => (need.0, c))
  }

  /** `RawRecipe::context`. */
  function RecipeContext(rr: R.RawRecipe): string
  {
    "in a recipe named \"" + rr.title + "\""
  }

  /** Every need names a known item. */
  ghost predicate NeedsKnown(raw: RawConfig, needs: seq<(nat, string)>)
  {
    forall k :: 0 <= k < |needs| ==> ItemConfOf(raw, needs[k].1).Ok?
  }

  /**
   * A recipe's needs, verified: each count kept and each item resolved, in
   * order, or the first unknown item noted with `NeedsContext`.
   */
  function VerifyNeeds(raw: RawConfig, needs: seq<(nat, string)>): (r: VerifResult<seq<(nat, ItemConf)>>)
    ensures r.Ok? <==> NeedsKnown(raw, needs)
    ensures r.Ok? ==> (|r.value| == |needs|
      && forall k :: 0 <= k < |needs| ==>
           r.value[k].0 == needs[k].0 && Ok(r.value[k].1) == ItemConfOf(raw, needs[k].1))
    ensures r.Err? ==> exists k: nat :: (FirstFailure(needs, NeedResolver(raw), k)
      && r.error == VerifError(UnknownItem(needs[k].1, raw.itemNameSuggestions(needs[k].1)), [NeedsContext]))
  {
    var r := Note(Collect(needs, NeedResolver(raw)), NeedsContext);
    NotedCollect(needs, NeedResolver(raw), NeedsContext);
    VerifiesAsOk(needs, NeedResolver(raw), r, [NeedsContext]);
    r
  }

  /**
   * `RawRecipe::verify_raw`: the fields in the order the struct literal
   * evaluates them, so a failure in the needs wins over one in the art, which
   * wins over one in what the recipe makes.
   */
  function VerifyRecipeRaw(raw: RawConfig, rr: R.RawRecipe): VerifResult<Recipe>
  {
    var needs := VerifyNeeds(raw, rr.needs);
    if needs.Err? then Err(needs.error)
    else
      var art := Note(ItemConfOf(raw, rr.art), ArtContext);
      if art.Err? then Err(art.error)
      else
        var makes := Note(VerifyEvalput(raw, rr.makes), MakesContext);
        if makes.Err? then Err(makes.error)
        else Ok(Recipe(rr.title, art.value, rr.explanation, rr.destroysPlant, rr.time, needs.value, makes.value))
  }

  /**
   * `RawRecipe::verify`: succeeds exactly when every needed item, the art item
   * and every item of `makes` is known; then copies the plain fields, keeps
   * each need's count and position and resolves its item. Failures are noted
   * with the field they come from and then the recipe's context.
   */
  function VerifyRecipe(raw: RawConfig, rr: R.RawRecipe): (r: VerifResult<Recipe>)
    ensures r.Ok? <==> NeedsKnown(raw, rr.needs) && ItemConfOf(raw, rr.art).Ok? && VerifyEvalput(raw, rr.makes).Ok?
    ensures r.Ok? ==> && r.value.title == rr.title && r.value.explanation == rr.explanation
                      && r.value.destroysPlant == rr.destroysPlant && r.value.time == rr.time
                      && Ok(r.value.art) == ItemConfOf(raw, rr.art)
                      && Ok(r.value.makes) == VerifyEvalput(raw, rr.makes)
                      && |r.value.needs| == |rr.needs|
                      && forall k :: 0 <= k < |rr.needs| ==>
                           r.value.needs[k].0 == rr.needs[k].0 && Ok(r.value.needs[k].1) == ItemConfOf(raw, rr.needs[k].1)
  {
    Verified(VerifyRecipeRaw(raw, rr), Some(RecipeContext(rr)))
  }

  /**
   * A recipe that fails to verify carries the first failure, in field order,
   * noted with its field and then with the recipe's context.
   */
  lemma RecipeErrorNoted(raw: RawConfig, rr: R.RawRecipe)
    ensures var r := VerifyRecipe(raw, rr);
      && (r.Err? && !NeedsKnown(raw, rr.needs) ==>
            exists k: nat :: (FirstFailure(rr.needs, NeedResolver(raw), k)
              && r.error == VerifError(UnknownItem(rr.needs[k].1, raw.itemNameSuggestions(rr.needs[k].1)),
                                       [NeedsContext, RecipeContext(rr)])))
      && (r.Err? && NeedsKnown(raw, rr.needs) && ItemConfOf(raw, rr.art).Err? ==>
            r.error == VerifError(UnknownItem(rr.art, raw.itemNameSuggestions(rr.art)), [ArtContext, RecipeContext(rr)]))
      && (r.Err? && NeedsKnown(raw, rr.needs) && ItemConfOf(raw, rr.art).Ok? ==>
            && r.error.kind == VerifyEvalput(raw, rr.makes).error.kind
            && r.error.source == VerifyEvalput(raw, rr.makes).error.source + [MakesContext, RecipeContext(rr)])
  {
    var makes := VerifyEvalput(raw, rr.makes);
    AppendPair([], NeedsContext, RecipeContext(rr));
    AppendPair([], ArtContext, RecipeContext(rr));
    if makes.Err? {
      AppendPair(makes.error.source, MakesContext, RecipeContext(rr));
    }
  }
}
