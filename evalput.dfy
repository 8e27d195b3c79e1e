// The loot-table expression tree `Evalput` of the configuration: a tree of
// item and xp rewards whose structure-preserving maps are proved here.
// `OneOf`, `Chance` and the repeat counts are drawn from a random number
// generator in the program; here they are nondeterministic choices.
module Evalputs {
  import opened Wrappers
  import opened Seqs

  /** `Repeats`: an f32 amount or a range of them (floats are `real`s here). */
  datatype Repeats = Just(amount: real) | Between(lo: real, hi: real)

  datatype Evalput<I> =
    | All(these: seq<Evalput<I>>)
    | OneOf(weighted: seq<(real, Evalput<I>)>)
    | Amount(times: Repeats, body: Evalput<I>)
    | Chance(chance: real, body: Evalput<I>)
    | Xp(amount: Repeats)
    | Item(item: I)

  /** The `Item` payloads of a tree, left to right. */
  function Leaves<I>(e: Evalput<I>): seq<I>
    decreases e, 1, 0
  {
    match e
    case All(these) => LeavesAll(these)
    case OneOf(weighted) => LeavesWeighted(weighted, 0)
    case Amount(_, body) => Leaves(body)
    case Chance(_, body) => Leaves(body)
    case Xp(_) => []
    case Item(i) => [i]
  }

  function LeavesAll<I>(these: seq<Evalput<I>>): seq<I>
    decreases these, 0, 0
  {
    if these == [] then [] else Leaves(these[0]) + LeavesAll(these[1..])
  }

  /** The leaves of the weighted children from index `i` on. */
  function LeavesWeighted<I>(these: seq<(real, Evalput<I>)>, i: nat): seq<I>
    requires i <= |these|
    decreases OneOf(these), 0, |these| - i
  {
    if i == |these| then [] else Leaves(these[i].1) + LeavesWeighted(these, i + 1)
  }

  lemma {:induction false} LeavesAllAppend<I>(a: seq<Evalput<I>>, b: seq<Evalput<I>>)
    ensures LeavesAll(a + b) == LeavesAll(a) + LeavesAll(b)
  {
    if a != [] {
      assert (a + b)[0] == a[0];
      assert (a + b)[1..] == a[1..] + b;
      LeavesAllAppend(a[1..], b);
    } else {
      assert a + b == b;
    }
  }

  /** The leaves of one child of an `All` node are among the node's leaves. */
  lemma {:induction false} LeavesOfChild<I>(these: seq<Evalput<I>>, i: nat, x: I)
    requires i < |these| && x in Leaves(these[i])
    ensures x in LeavesAll(these)
  {
    if i > 0 {
      LeavesOfChild(these[1..], i - 1, x);
    }
  }

  /** `Evalput::map_item`: replaces every `Item` payload by its image under `f`. */
  function MapItem<I, T>(e: Evalput<I>, f: I -> T): Evalput<T>
    decreases e, 1, 0
  {
    match e
    case All(these) => All(MapAll(these, f))
    case OneOf(weighted) => OneOf(MapWeighted(weighted, 0, f))
    case Amount(m, body) => Amount(m, MapItem(body, f))
    case Chance(c, body) => Chance(c, MapItem(body, f))
    case Xp(xp) => Xp(xp)
    case Item(i) => Item(f(i))
  }

  function MapAll<I, T>(these: seq<Evalput<I>>, f: I -> T): (r: seq<Evalput<T>>)
    ensures |r| == |these|
    decreases these, 0, 0
  {
    if these == [] then [] else [MapItem(these[0], f)] + MapAll(these[1..], f)
  }

  function MapWeighted<I, T>(these: seq<(real, Evalput<I>)>, i: nat, f: I -> T): (r: seq<(real, Evalput<T>)>)
    requires i <= |these|
    ensures |r| == |these| - i
    decreases OneOf(these), 0, |these| - i
  {
    if i == |these| then [] else [(these[i].0, MapItem(these[i].1, f))] + MapWeighted(these, i + 1, f)
  }

  function Unit<I>(i: I): () { () }

  /**
   * The shape of a tree: every constructor, weight, repeat count, chance and
   * xp amount, with the item payloads forgotten.
   */
  function Shape<I>(e: Evalput<I>): Evalput<()>
  {
    MapItem(e, Unit)
  }

  /** `map_item` keeps the shape: only the `Item` payloads change. */
  lemma {:induction false} MapItemShape<I, T>(e: Evalput<I>, f: I -> T)
    ensures Shape(MapItem(e, f)) == Shape(e)
    decreases e, 1, 0
  {
    match e
    case All(these) => MapAllShape(these, f);
    case OneOf(weighted) => MapWeightedShape(weighted, 0, f);
    case Amount(_, body) => MapItemShape(body, f);
    case Chance(_, body) => MapItemShape(body, f);
    case Xp(_) =>
    case Item(_) =>
  }

  lemma {:induction false} MapAllShape<I, T>(these: seq<Evalput<I>>, f: I -> T)
    ensures MapAll(MapAll(these, f), Unit) == MapAll(these, Unit)
    decreases these, 0, 0
  {
    if these != [] {
      MapItemShape(these[0], f);
      MapAllShape(these[1..], f);
      assert MapAll(these, f)[1..] == MapAll(these[1..], f);
    }
  }

  lemma {:induction false} MapWeightedShape<I, T>(these: seq<(real, Evalput<I>)>, i: nat, f: I -> T)
    requires i <= |these|
    ensures MapWeighted(MapWeighted(these, i, f), 0, Unit) == MapWeighted(these, i, Unit)
    decreases OneOf(these), 0, |these| - i
  {
    if i < |these| {
      MapItemShape(these[i].1, f);
      MapWeightedShape(these, i + 1, f);
      MapWeightedShift(MapWeighted(these, i, f), Unit);
    }
  }

  /** Mapping a weighted list from index 1 maps its tail. */
  lemma MapWeightedShift<I, T>(these: seq<(real, Evalput<I>)>, f: I -> T)
    requires these != []
    ensures MapWeighted(these, 0, f) == [(these[0].0, MapItem(these[0].1, f))] + MapWeighted(these[1..], 0, f)
  {
    MapWeightedDrop(these, 1, f);
  }

  lemma {:induction false} MapWeightedDrop<I, T>(these: seq<(real, Evalput<I>)>, i: nat, f: I -> T)
    requires 1 <= i <= |these|
    ensures MapWeighted(these, i, f) == MapWeighted(these[1..], i - 1, f)
    decreases |these| - i
  {
    if i < |these| {
      MapWeightedDrop(these, i + 1, f);
    }
  }

  /** `map_item` maps the leaves one by one, in order. */
  lemma {:induction false} MapItemLeaves<I, T>(e: Evalput<I>, f: I -> T)
    ensures Leaves(MapItem(e, f)) == MapSeq(Leaves(e), f)
    decreases e, 1, 0
  {
    match e
    case All(these) => MapAllLeaves(these, f);
    case OneOf(weighted) => MapWeightedLeaves(weighted, 0, f);
    case Amount(_, body) => MapItemLeaves(body, f);
    case Chance(_, body) => MapItemLeaves(body, f);
    case Xp(_) =>
    case Item(_) =>
  }

  lemma {:induction false} MapAllLeaves<I, T>(these: seq<Evalput<I>>, f: I -> T)
    ensures LeavesAll(MapAll(these, f)) == MapSeq(LeavesAll(these), f)
    decreases these, 0, 0
  {
    if these != [] {
      MapItemLeaves(these[0], f);
      MapAllLeaves(these[1..], f);
      assert MapAll(these, f)[1..] == MapAll(these[1..], f);
    }
  }

  lemma {:induction false} MapWeightedLeaves<I, T>(these: seq<(real, Evalput<I>)>, i: nat, f: I -> T)
    requires i <= |these|
    ensures LeavesWeighted(MapWeighted(these, i, f), 0) == MapSeq(LeavesWeighted(these, i), f)
    decreases OneOf(these), 0, |these| - i
  {
    if i < |these| {
      MapItemLeaves(these[i].1, f);
      MapWeightedLeaves(these, i + 1, f);
      LeavesWeightedShift(MapWeighted(these, i, f));
    }
  }

  /** The leaves of a weighted list are those of its head followed by those of its tail. */
  lemma LeavesWeightedShift<I>(these: seq<(real, Evalput<I>)>)
    requires these != []
    ensures LeavesWeighted(these, 0) == Leaves(these[0].1) + LeavesWeighted(these[1..], 0)
  {
    LeavesWeightedDrop(these, 1);
  }

  lemma {:induction false} LeavesWeightedDrop<I>(these: seq<(real, Evalput<I>)>, i: nat)
    requires 1 <= i <= |these|
    ensures LeavesWeighted(these, i) == LeavesWeighted(these[1..], i - 1)
    decreases |these| - i
  {
    if i < |these| {
      LeavesWeightedDrop(these, i + 1);
    }
  }

  /**
   * `Evalput::ok_or_item`: maps the payloads through a fallible `f`, visiting
   * the leaves left to right and stopping at the first error.
   */
  function OkOrItem<I, T, E>(e: Evalput<I>, f: I -> Result<T, E>): Result<Evalput<T>, E>
    decreases e, 1, 0
  {
    match e
    case All(these) =>
      (match OkOrAll(these, f)
       case Ok(vs) => Ok(All(vs))
       case Err(err) => Err(err))
    case OneOf(weighted) =>
      (match OkOrWeighted(weighted, 0, f)
       case Ok(vs) => Ok(OneOf(vs))
       case Err(err) => Err(err))
    case Amount(m, body) =>
      (match OkOrItem(body, f)
       case Ok(v) => Ok(Amount(m, v))
       case Err(err) => Err(err))
    case Chance(c, body) =>
      (match OkOrItem(body, f)
       case Ok(v) => Ok(Chance(c, v))
       case Err(err) => Err(err))
    case Xp(xp) => Ok(Xp(xp))
    case Item(i) =>
      (match f(i)
       case Ok(t) => Ok(Item(t))
       case Err(err) => Err(err))
  }

  function OkOrAll<I, T, E>(these: seq<Evalput<I>>, f: I -> Result<T, E>): Result<seq<Evalput<T>>, E>
    decreases these, 0, 0
  {
    if these == [] then Ok([])
    else match OkOrItem(these[0], f)
      case Err(err) => Err(err)
      case Ok(v) =>
        match OkOrAll(these[1..], f)
        case Err(err) => Err(err)
        case Ok(vs) => Ok([v] + vs)
  }

  function OkOrWeighted<I, T, E>(these: seq<(real, Evalput<I>)>, i: nat, f: I -> Result<T, E>): Result<seq<(real, Evalput<T>)>, E>
    requires i <= |these|
    decreases OneOf(these), 0, |these| - i
  {
    if i == |these| then Ok([])
    else match OkOrItem(these[i].1, f)
      case Err(err) => Err(err)
      case Ok(v) =>
        match OkOrWeighted(these, i + 1, f)
        case Err(err) => Err(err)
        case Ok(vs) => Ok([(these[i].0, v)] + vs)
  }

  function LeafResult<T, E>(r: Result<Evalput<T>, E>): Result<seq<T>, E>
  {
    match r
    case Ok(v) => Ok(Leaves(v))
    case Err(err) => Err(err)
  }

  /**
   * `ok_or_item` succeeds exactly when `f` succeeds on every leaf, and then
   * keeps the shape and puts `f`'s results at the leaves in order; otherwise
   * it returns the error of the leftmost leaf on which `f` fails.
   */
  lemma {:induction false} OkOrItemSpec<I, T, E>(e: Evalput<I>, f: I -> Result<T, E>)
    ensures Agrees(Leaves(e), f, LeafResult(OkOrItem(e, f)))
    ensures OkOrItem(e, f).Ok? ==> Shape(OkOrItem(e, f).value) == Shape(e)
    decreases e, 1, 0
  {
    match e
    case All(these) =>
      OkOrAllSpec(these, f);
    case OneOf(weighted) =>
      OkOrWeightedSpec(weighted, 0, f);
    case Amount(_, body) =>
      OkOrItemSpec(body, f);
    case Chance(_, body) =>
      OkOrItemSpec(body, f);
    case Xp(_) =>
    case Item(i) =>
      if f(i).Err? {
        assert FirstFailure([i], f, 0);
      }
  }

  lemma {:induction false} OkOrAllSpec<I, T, E>(these: seq<Evalput<I>>, f: I -> Result<T, E>)
    ensures Agrees(LeavesAll(these), f, match OkOrAll(these, f) case Ok(vs) => Ok(LeavesAll(vs)) case Err(err) => Err(err))
    ensures OkOrAll(these, f).Ok? ==> MapAll(OkOrAll(these, f).value, Unit) == MapAll(these, Unit)
    decreases these, 0, 0
  {
    if these != [] {
      OkOrItemSpec(these[0], f);
      OkOrAllSpec(these[1..], f);
      var head := LeafResult(OkOrItem(these[0], f));
      var tail := match OkOrAll(these[1..], f) case Ok(vs) => Ok(LeavesAll(vs)) case Err(err) => Err(err);
      AgreesConcat(Leaves(these[0]), LeavesAll(these[1..]), f, head, tail);
      if OkOrAll(these, f).Ok? {
        var vs := OkOrAll(these, f).value;
        assert vs[0] == OkOrItem(these[0], f).value;
        assert vs[1..] == OkOrAll(these[1..], f).value;
      }
    }
  }

  lemma {:induction false} OkOrWeightedSpec<I, T, E>(these: seq<(real, Evalput<I>)>, i: nat, f: I -> Result<T, E>)
    requires i <= |these|
    ensures Agrees(LeavesWeighted(these, i), f, match OkOrWeighted(these, i, f) case Ok(vs) => Ok(LeavesWeighted(vs, 0)) case Err(err) => Err(err))
    ensures OkOrWeighted(these, i, f).Ok? ==> MapWeighted(OkOrWeighted(these, i, f).value, 0, Unit) == MapWeighted(these, i, Unit)
    decreases OneOf(these), 0, |these| - i
  {
    if i < |these| {
      OkOrItemSpec(these[i].1, f);
      OkOrWeightedSpec(these, i + 1, f);
      var head := LeafResult(OkOrItem(these[i].1, f));
      var tail := match OkOrWeighted(these, i + 1, f) case Ok(vs) => Ok(LeavesWeighted(vs, 0)) case Err(err) => Err(err);
      AgreesConcat(Leaves(these[i].1), LeavesWeighted(these, i + 1), f, head, tail);
      if OkOrWeighted(these, i, f).Ok? {
        var vs := OkOrWeighted(these, i, f).value;
        assert vs[0] == (these[i].0, OkOrItem(these[i].1, f).value);
        assert vs[1..] == OkOrWeighted(these, i + 1, f).value;
        LeavesWeightedShift(vs);
        MapWeightedShift(vs, Unit);
      }
    }
  }

  /** The leaves of one weighted child are among the leaves of the list. */
  lemma {:induction false} LeavesOfWeightedChild<I>(these: seq<(real, Evalput<I>)>, i: nat, p: nat, x: I)
    requires i <= p < |these| && x in Leaves(these[p].1)
    ensures x in LeavesWeighted(these, i)
    decreases p - i
  {
    if i < p {
      LeavesOfWeightedChild(these, i + 1, p, x);
    }
  }

  /** A tree of `All` and `Item` nodes only, whose evaluation draws nothing at random. */
  predicate Plain<I>(e: Evalput<I>)
  {
    match e
    case All(these) => forall k :: 0 <= k < |these| ==> Plain(these[k])
    case Item(_) => true
    case _ => false
  }

  /** `evalput::Output`: the xp and items gathered by evaluating loot tables. */
  class Output<I> {
    var xp: nat
    var items: seq<I>

    /** `Output::new`: no xp and no items. */
    constructor ()
      ensures xp == 0 && items == []
    {
      xp := 0;
      items := [];
    }
  }

  /** `after` is `before` with items from `leaves` appended. */
  ghost predicate Extends<I>(before: seq<I>, after: seq<I>, leaves: seq<I>)
  {
    && |before| <= |after| && after[..|before|] == before
    && forall k :: |before| <= k < |after| ==> after[k] in leaves
  }

  lemma ExtendsTrans<I>(a: seq<I>, b: seq<I>, c: seq<I>, leaves: seq<I>)
    requires Extends(a, b, leaves) && Extends(b, c, leaves)
    ensures Extends(a, c, leaves)
  {
    assert c[..|a|] == c[..|b|][..|a|];
  }

  /**
   * `Evalput::eval`: adds the tree's rewards to `output`. The random draws
   * (which `OneOf` child, whether a `Chance` hits, how many times an `Amount`
   * repeats and how much an `Xp` node gives) are nondeterministic choices.
   */
  method Eval<I>(e: Evalput<I>, output: Output<I>)
    modifies output
    ensures old(output.xp) <= output.xp
    ensures Extends(old(output.items), output.items, Leaves(e))
    ensures Plain(e) ==> output.items == old(output.items) + Leaves(e) && output.xp == old(output.xp)
    decreases e, 1, 0
  {
    match e
    case All(these) =>
      EvalAll(e, these, output);
    case OneOf(weighted) =>
      // the child whose cumulative weight first exceeds the random draw, if any
      var pick: int := *;
      if 0 <= pick < |weighted| {
        Eval(weighted[pick].1, output);
        forall k | |old(output.items)| <= k < |output.items| ensures output.items[k] in Leaves(e) {
          LeavesOfWeightedChild(weighted, 0, pick, output.items[k]);
        }
      }
    case Amount(_, body) =>
      // `Repeats::eval`
      var times: int := *;
      var j := 0;
      while j < times
        invariant old(output.xp) <= output.xp
        invariant Extends(old(output.items), output.items, Leaves(body))
      {
        ghost var before := output.items;
        Eval(body, output);
        ExtendsTrans(old(output.items), before, output.items, Leaves(body));
        j := j + 1;
      }
    case Chance(_, body) =>
      var hit: bool := *;
      if hit {
        Eval(body, output);
      }
    case Xp(_) =>
      // `Repeats::eval`
      var amount: int := *;
      if amount > 0 {
        output.xp := output.xp + amount;
      }
    case Item(s) =>
      output.items := output.items + [s];
  }

  /** The `All` case of `eval`: every child in list order. */
  method EvalAll<I>(ghost e: Evalput<I>, these: seq<Evalput<I>>, output: Output<I>)
    requires e == All(these)
    modifies output
    ensures old(output.xp) <= output.xp
    ensures Extends(old(output.items), output.items, Leaves(e))
    ensures Plain(e) ==> output.items == old(output.items) + Leaves(e) && output.xp == old(output.xp)
    decreases e, 0, 0
  {
    var i := 0;
    while i < |these|
      invariant 0 <= i <= |these|
      invariant old(output.xp) <= output.xp
      invariant Extends(old(output.items), output.items, LeavesAll(these))
      invariant Plain(e) ==> output.items == old(output.items) + LeavesAll(these[..i]) && output.xp == old(output.xp)
    {
      ghost var before := output.items;
      Eval(these[i], output);
      forall k | |before| <= k < |output.items| ensures output.items[k] in LeavesAll(these) {
        LeavesOfChild(these, i, output.items[k]);
      }
      ExtendsTrans(old(output.items), before, output.items, LeavesAll(these));
      LeavesAllAppend(these[..i], [these[i]]);
      assert these[..i + 1] == these[..i] + [these[i]];
      assert LeavesAll([these[i]]) == Leaves(these[i]);
      i := i + 1;
    }
    assert these[..i] == these;
  }

  /** `Evalput::evaluated`: evaluates the tree into a fresh, empty output. */
  method Evaluated<I>(e: Evalput<I>) returns (output: Output<I>)
    ensures fresh(output)
    ensures forall k :: 0 <= k < |output.items| ==> output.items[k] in Leaves(e)
    ensures Plain(e) ==> output.items == Leaves(e) && output.xp == 0
  {
    output := new Output();
    Eval(e, output);
  }
}
