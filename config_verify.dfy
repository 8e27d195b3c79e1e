// The configuration verification framework (config/verify/mod.rs): resolving
// names to handles, and errors that carry a stack of contexts.
module ConfigVerify {
  import opened Wrappers
  import opened Seqs
  import opened Confs
  import opened RawConfigData

  /**
   * `RawConfig`: every plant and item as read from its file. The fuzzy-search
   * corpora that propose alternatives for a misspelt name are given as
   * functions from the misspelt name to the proposals.
   */
  datatype RawConfig = RawConfig(
    plants: seq<FromFile<RawPlantConfig>>,
    items: seq<FromFile<RawItemConfig>>,
    plantNameSuggestions: string -> seq<string>,
    skillTitleSuggestions: (PlantConf, string) -> seq<string>,
    itemNameSuggestions: string -> seq<string>)

  datatype VerifErrorKind =
    | UnknownItem(item: string, itemSuggestions: seq<string>)
    | UnknownPlant(plant: string, plantSuggestions: seq<string>)
    | UnknownPlantSkill(plantConf: PlantConf, skill: string, skillSuggestions: seq<string>)
    | Custom(message: string)

  /** An error, and the contexts pushed onto it, innermost first. */
  datatype VerifError = VerifError(kind: VerifErrorKind, source: seq<string>)

  type VerifResult<T> = Result<T, VerifError>

  /** `VerifError::new`: an error with no context yet. */
  function NewError(kind: VerifErrorKind): (e: VerifError)
    ensures e.kind == kind && e.source == []
  {
    VerifError(kind, [])
  }

  /** `VerifError::custom`. */
  function CustomError(message: string): (e: VerifError)
    ensures e.kind == Custom(message) && e.source == []
  {
    NewError(Custom(message))
  }

  /** `VerifNote::note`: pushes `context` onto an error, leaves a success alone. */
  function Note<T>(r: VerifResult<T>, context: string): (n: VerifResult<T>)
    ensures r.Ok? ==> n == r
    ensures r.Err? ==> n.Err? && n.error.kind == r.error.kind && n.error.source == r.error.source + [context]
  {
    match r
    case Ok(_) => r
    case Err(e) => Err(VerifError(e.kind, e.source + [context]))
  }

  /**
   * `Verify::verify`: the result of `verify_raw`, with the value's own context
   * (if it has one) pushed after every context `verify_raw` pushed.
   */
  function Verified<T>(r: VerifResult<T>, context: Option<string>): (n: VerifResult<T>)
    ensures n.Ok? <==> r.Ok?
    ensures r.Ok? || context.None? ==> n == r
    ensures r.Err? && context.Some? ==> n == Note(r, context.value)
  {
    match context
    case None => r
    case Some(c) => Note(r, c)
  }

  /**
   * `Verify for Vec<V>`: every element verified in order; the first failing
   * element's error otherwise. A list has no context of its own.
   */
  function VerifyVec<V, W>(xs: seq<V>, verify: V -> VerifResult<W>): (r: VerifResult<seq<W>>)
    ensures Agrees(xs, verify, r)
  {
    Verified(Collect(xs, verify), None)
  }

  /** `Verify for Option<V>`: nothing to verify for `None`. */
  function VerifyOption<V, W>(o: Option<V>, verify: V -> VerifResult<W>): (r: VerifResult<Option<W>>)
    ensures o.None? ==> r == Ok(None)
    ensures o.Some? ==> (r.Ok? <==> verify(o.value).Ok?)
    ensures o.Some? && r.Ok? ==> r.value == Some(verify(o.value).value)
    ensures o.Some? && r.Err? ==> r.error == verify(o.value).error
  {
    match o
    case None => Ok(None)
    case Some(v) => Verified(verify(v).Map(w => Some(w)), None)
  }

  /** The contexts that recipes push onto their fields' errors. */
  const ArtContext := "in the art field"
  const MakesContext := "in what the recipe makes"
  const NeedsContext := "in what the recipe needs"

  /** What the context of a `FromFile` says before the file's name. */
  const FromAFile := "from a file "

  /** The context of a `FromFile`. */
  function FromFileContext<V>(ff: FromFile<V>): string
  {
    FromAFile + ff.file
  }

  /** `Verify for FromFile<V>`: the inner value's verification, noted with its file. */
  function VerifyFromFile<V, W>(ff: FromFile<V>, verify: V -> VerifResult<W>): (r: VerifResult<W>)
    ensures r.Ok? <==> verify(ff.inner).Ok?
    ensures r.Ok? ==> r.value == verify(ff.inner).value
    ensures r.Err? ==> r.error.kind == verify(ff.inner).error.kind
    ensures r.Err? ==> r.error.source == verify(ff.inner).error.source + [FromAFile + ff.file]
  {
    Verified(verify(ff.inner), Some(FromFileContext(ff)))
  }

  /** `RawConfig::item_conf`: the handle of the first item with that name. */
  function ItemConfOf(raw: RawConfig, itemName: string): (r: VerifResult<ItemConf>)
    ensures r.Ok? <==> exists k :: 0 <= k < |raw.items| && raw.items[k].inner.name == itemName
    ensures r.Ok? ==> exists k :: (0 <= k < |raw.items| && raw.items[k].inner.name == itemName
      && (forall j :: 0 <= j < k ==> raw.items[j].inner.name != itemName)
      && r.value == raw.items[k].inner.conf)
    ensures r.Err? ==> r.error == NewError(UnknownItem(itemName, raw.itemNameSuggestions(itemName)))
  {
    match FirstIndex(raw.items, (i: FromFile<RawItemConfig>) => i.inner.name == itemName)
    case None => Err(NewError(UnknownItem(itemName, raw.itemNameSuggestions(itemName))))
    case Some(k) => Ok(raw.items[k].inner.conf)
  }

  /** `RawConfig::plant_conf`: the handle of the first plant with that name. */
  function PlantConfOf(raw: RawConfig, plantName: string): (r: VerifResult<PlantConf>)
    ensures r.Ok? <==> exists k :: 0 <= k < |raw.plants| && raw.plants[k].inner.name == plantName
    ensures r.Ok? ==> exists k :: (0 <= k < |raw.plants| && raw.plants[k].inner.name == plantName
      && (forall j :: 0 <= j < k ==> raw.plants[j].inner.name != plantName)
      && r.value == raw.plants[k].inner.conf)
    ensures r.Err? ==> r.error == NewError(UnknownPlant(plantName, raw.plantNameSuggestions(plantName)))
  {
    match FirstIndex(raw.plants, (p: FromFile<RawPlantConfig>) => p.inner.name == plantName)
    case None => Err(NewError(UnknownPlant(plantName, raw.plantNameSuggestions(plantName))))
    case Some(k) => Ok(raw.plants[k].inner.conf)
  }

  /** `item_conf` on `raw`, as the callback that verifiers map over item names. */
  function ItemResolver(raw: RawConfig): (f: string -> VerifResult<ItemConf>)
    ensures forall name :: f(name) == ItemConfOf(raw, name)
  {
    (name: string) => ItemConfOf(raw, name)
  }

  /** `plant_conf` on `raw`, as the callback that verifiers map over plant names. */
  function PlantResolver(raw: RawConfig): (f: string -> VerifResult<PlantConf>)
    ensures forall name :: f(name) == PlantConfOf(raw, name)
  {
    (name: string) => PlantConfOf(raw, name)
  }

  /** Some plant carries handle `conf`; `RawConfig::plant` panics otherwise. */
  predicate HasPlant(raw: RawConfig, conf: PlantConf)
  {
    exists k :: 0 <= k < |raw.plants| && raw.plants[k].inner.conf == conf
  }

  /** `RawConfig::plant`: the first plant with handle `conf`. */
  function PlantOf(raw: RawConfig, conf: PlantConf): (p: RawPlantConfig)
    requires HasPlant(raw, conf)
    ensures p.conf == conf
    ensures exists k :: (0 <= k < |raw.plants| && raw.plants[k].inner == p
      && forall j :: 0 <= j < k ==> raw.plants[j].inner.conf != conf)
  {
    var found := FirstIndex(raw.plants, (p: FromFile<RawPlantConfig>) => p.inner.conf == conf);
    assert found.Some?;
    raw.plants[found.value].inner
  }

  /**
   * `RawConfig::plant_skill_conf`: the first skill with that title on the
   * plant with handle `plantConf`, as a skill handle on that plant.
   */
  function PlantSkillConfOf(raw: RawConfig, plantConf: PlantConf, skillTitle: string): (r: VerifResult<SkillConf>)
    requires HasPlant(raw, plantConf)
    ensures var skills := PlantOf(raw, plantConf).skills.inner;
      && (r.Ok? <==> exists k :: 0 <= k < |skills| && skills[k].title == skillTitle)
      && (r.Ok? ==> exists k :: (0 <= k < |skills| && skills[k].title == skillTitle
            && (forall j :: 0 <= j < k ==> skills[j].title != skillTitle)
            && r.value == SkillConf(plantConf, skills[k].conf)))
      && (r.Err? ==> r.error == NewError(UnknownPlantSkill(plantConf, skillTitle, raw.skillTitleSuggestions(plantConf, skillTitle))))
  {
    var skills := PlantOf(raw, plantConf).skills.inner;
    match FirstIndex(skills, (s: RawSkill) => s.title == skillTitle)
    case None => Err(NewError(UnknownPlantSkill(plantConf, skillTitle, raw.skillTitleSuggestions(plantConf, skillTitle))))
    case Some(k) => Ok(SkillConf(plantConf, skills[k].conf))
  }

  /**
   * `r` is what verifying each of `xs` with `f` and collecting gives, with
   * `context` pushed on an error: every result in order, or the error of the
   * first element that fails. In particular `r` is `Ok` exactly when `f`
   * accepts every element.
   */
  ghost predicate VerifiesAs<V, W>(xs: seq<V>, f: V -> VerifResult<W>, r: VerifResult<seq<W>>, context: seq<string>)
  {
    && (r.Ok? ==> |r.value| == |xs| && forall k :: 0 <= k < |xs| ==> f(xs[k]) == Ok(r.value[k]))
    && (r.Err? ==> exists k: nat :: (FirstFailure(xs, f, k)
          && r.error == VerifError(f(xs[k]).error.kind, f(xs[k]).error.source + context)))
  }

  /** `VerifiesAs` decides success: Ok exactly when every element verifies. */
  lemma VerifiesAsOk<V, W>(xs: seq<V>, f: V -> VerifResult<W>, r: VerifResult<seq<W>>, context: seq<string>)
    requires VerifiesAs(xs, f, r, context)
    ensures r.Ok? <==> forall k :: 0 <= k < |xs| ==> f(xs[k]).Ok?
  {
    if r.Err? {
      var k: nat :| FirstFailure(xs, f, k);
      assert !f(xs[k]).Ok?;
    }
  }

  /** Noting a collected verification pushes the note onto the first failure's error. */
  lemma NotedCollect<V, W>(xs: seq<V>, f: V -> VerifResult<W>, context: string)
    ensures VerifiesAs(xs, f, Note(Collect(xs, f), context), [context])
  {
    var r := Collect(xs, f);
    if r.Err? {
      var k: nat :| FirstFailure(xs, f, k) && r.error == f(xs[k]).error;
      assert Note(r, context).error == VerifError(f(xs[k]).error.kind, f(xs[k]).error.source + [context]);
    }
  }

  /** The proposals of a fuzzy search, as the error messages list them. */
  function Proposals(suggestions: seq<string>): string
  {
    Join(suggestions, ", or ")
  }

  /** A suggestion sentence closed by its question mark. */
  function Asking(sentence: string): (s: string)
    ensures |s| > 0 && s[|s| - 1] == '?'
  {
    sentence + "?"
  }

  const NoItemFound := ", but no item with this name could be found. Perhaps you meant "
  const NoSkillFound := ", but no skill with this name on this plant could be found. Perhaps you meant "
  const NoPlantFound := ", but no plant with this name could be found. Perhaps you meant "

  /** `Display for VerifErrorKind`. */
  function KindDisplay(kind: VerifErrorKind): (s: string)
    ensures kind.Custom? ==> s == kind.message
    ensures !kind.Custom? ==> |s| > 0 && s[|s| - 1] == '?'
  {
    match kind
    case UnknownItem(i, sr) =>
      Asking("referenced item " + i + NoItemFound + Proposals(sr))
    case UnknownPlantSkill(pc, s, sr) =>
      Asking("referenced skill " + s + " on plant conf " + NatToString(pc.handle) + NoSkillFound + Proposals(sr))
    case UnknownPlant(p, sr) =>
      Asking("referenced plant " + p + NoPlantFound + Proposals(sr))
    case Custom(s) => s
  }

  /** The context lines of an error's message: most recently pushed first, each as "> ctx". */
  function ContextLines(e: VerifError): (lines: seq<string>)
    ensures |lines| == |e.source|
    ensures forall i :: 0 <= i < |lines| ==> lines[i] == "> " + e.source[|e.source| - 1 - i]
  {
    MapSeq(Reverse(e.source), (s: string) => "> " + s)
  }

  /** The first line of every verification error's message. */
  const Header := "I ran into trouble verifying your config \n"

  /** `Display for VerifError`. */
  function Display(e: VerifError): string
  {
    Header + Join(ContextLines(e), "\n") + "\nas " + KindDisplay(e.kind)
  }

  /** A noted context is printed above every context that was pushed before it. */
  lemma NoteShownFirst<T>(r: VerifResult<T>, context: string)
    requires r.Err?
    ensures ContextLines(Note(r, context).error) == ["> " + context] + ContextLines(r.error)
  {
    var e, n := r.error, Note(r, context).error;
    var shown, expected := ContextLines(n), ["> " + context] + ContextLines(e);
    assert n.source == e.source + [context];
    forall i | 0 <= i < |shown| ensures shown[i] == expected[i] {
      if i == 0 {
        assert n.source[|n.source| - 1] == context;
      } else {
        assert n.source[|n.source| - 1 - i] == e.source[|e.source| - 1 - (i - 1)];
      }
    }
  }

  /** An error fresh from `VerifError::new` prints the header, no context lines, then its kind. */
  lemma DisplayNew(kind: VerifErrorKind)
    ensures Display(NewError(kind)) == Header + "\nas " + KindDisplay(kind)
  {
    assert ContextLines(NewError(kind)) == [];
    assert Header + Join([], "\n") == Header;
  }
}
