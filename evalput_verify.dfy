// Verification of a `RawEvalput`, an evalput naming its items
// (config/evalput.rs): every item name resolved to an item handle.
module EvalputVerify {
  import opened Wrappers
  import opened Seqs
  import opened Confs
  import opened ConfigVerify
  import opened Evalputs

  /** The name of an evalput's root node, as its context quotes it. */
  function NodeName<I>(e: Evalput<I>): string
  {
    match e
    case All(_) => "All"
    case OneOf(_) => "OneOf"
    case Amount(_, _) => "Amount"
    case Chance(_, _) => "Chance"
    case Xp(_) => "Xp"
    case Item(_) => "Item"
  }

  /** `RawEvalput::context`: names the root node only. */
  function EvalputContext(e: Evalput<string>): string
  {
    "in an evalput's " + NodeName(e) + " node"
  }

  /**
   * `ok_or_item` followed by `Verify::verify`'s note, for any callback `f`:
   * the shape and leaves of `ok_or_item` with `c` pushed on the first failure.
   */
  lemma NotedOkOrItem<T>(e: Evalput<string>, f: string -> VerifResult<T>, c: string)
    ensures var r := Verified(OkOrItem(e, f), Some(c));
      var names := Leaves(e);
      && (r.Ok? <==> forall k :: 0 <= k < |names| ==> f(names[k]).Ok?)
      && (r.Ok? ==> (Shape(r.value) == Shape(e) && |Leaves(r.value)| == |names|
            && forall k :: 0 <= k < |names| ==> f(names[k]) == Ok(Leaves(r.value)[k])))
      && (r.Err? ==> exists k: nat :: (FirstFailure(names, f, k)
            && r.error == VerifError(f(names[k]).error.kind, f(names[k]).error.source + [c])))
  {
    OkOrItemSpec(e, f);
    if OkOrItem(e, f).Ok? {
      assert LeafResult(OkOrItem(e, f)) == Ok(Leaves(OkOrItem(e, f).value));
    } else {
      assert LeafResult(OkOrItem(e, f)) == Err(OkOrItem(e, f).error);
      var k: nat :| FirstFailure(Leaves(e), f, k) && OkOrItem(e, f).error == f(Leaves(e)[k]).error;
      assert !f(Leaves(e)[k]).Ok?;
      assert k < |Leaves(e)|;
      assert !(forall j :: 0 <= j < |Leaves(e)| ==> f(Leaves(e)[j]).Ok?);
      assert Verified(OkOrItem(e, f), Some(c)).Err?;
    }
  }

  /**
   * `RawEvalput::verify`: `ok_or_item` with `item_conf` as the callback, noted
   * with the root node's context. Succeeds exactly when every item name is
   * known, keeps the tree's shape and resolves each leaf in place; otherwise
   * fails with the leftmost unknown name.
   */
  function VerifyEvalput(raw: RawConfig, e: Evalput<string>): (r: VerifResult<Evalput<ItemConf>>)
    ensures var names := Leaves(e);
      && (r.Ok? <==> forall k :: 0 <= k < |names| ==> ItemResolver(raw)(names[k]).Ok?)
      && (r.Ok? ==> (Shape(r.value) == Shape(e) && |Leaves(r.value)| == |names|
            && forall k :: 0 <= k < |names| ==> ItemResolver(raw)(names[k]) == Ok(Leaves(r.value)[k])))
      && (r.Err? ==> exists k: nat :: (FirstFailure(names, ItemResolver(raw), k)
            && r.error == VerifError(UnknownItem(names[k], raw.itemNameSuggestions(names[k])), [EvalputContext(e)])))
  {
    NotedOkOrItem(e, ItemResolver(raw), EvalputContext(e));
    Verified(OkOrItem(e, ItemResolver(raw)), Some(EvalputContext(e)))
  }
}
