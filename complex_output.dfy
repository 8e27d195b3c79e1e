// The older loot-table tree `ComplexOutput` and its compilation into a
// `CompiledOutput` of xp and items. `OneOf` and `Chance` draw from a random
// number generator in the program; here they are nondeterministic choices.
module ComplexOutputs {
  import opened Seqs

  datatype ComplexOutput<I> =
    | All(these: seq<ComplexOutput<I>>)
    | OneOf(weighted: seq<(real, ComplexOutput<I>)>)
    | Times(times: nat, body: ComplexOutput<I>)
    | Chance(chance: real, body: ComplexOutput<I>)
    | Xp(amount: nat)
    | Item(item: I)

  /** `ComplexOutput::map_item`: replaces every `Item` payload by its image under `f`. */
  function MapItem<I, T>(e: ComplexOutput<I>, f: I -> T): ComplexOutput<T>
    decreases e, 1, 0
  {
    match e
    case All(these) => All(MapAll(these, f))
    case OneOf(weighted) => OneOf(MapWeighted(weighted, 0, f))
    case Times(m, body) => Times(m, MapItem(body, f))
    case Chance(c, body) => Chance(c, MapItem(body, f))
    case Xp(xp) => Xp(xp)
    case Item(i) => Item(f(i))
  }

  function MapAll<I, T>(these: seq<ComplexOutput<I>>, f: I -> T): (r: seq<ComplexOutput<T>>)
    ensures |r| == |these|
    decreases these, 0, 0
  {
    if these == [] then [] else [MapItem(these[0], f)] + MapAll(these[1..], f)
  }

  function MapWeighted<I, T>(these: seq<(real, ComplexOutput<I>)>, i: nat, f: I -> T): (r: seq<(real, ComplexOutput<T>)>)
    requires i <= |these|
    ensures |r| == |these| - i
    decreases OneOf(these), 0, |these| - i
  {
    if i == |these| then [] else [(these[i].0, MapItem(these[i].1, f))] + MapWeighted(these, i + 1, f)
  }

  function Unit<I>(i: I): () { () }

  /** The shape of a tree: every constructor and parameter, with the item payloads forgotten. */
  function Shape<I>(e: ComplexOutput<I>): ComplexOutput<()>
  {
    MapItem(e, Unit)
  }

  /** `map_item` keeps the structure and every non-item parameter. */
  lemma {:induction false} MapItemShape<I, T>(e: ComplexOutput<I>, f: I -> T)
    ensures Shape(MapItem(e, f)) == Shape(e)
    decreases e, 1, 0
  {
    match e
    case All(these) => MapAllShape(these, f);
    case OneOf(weighted) => MapWeightedShape(weighted, 0, f);
    case Times(_, body) => MapItemShape(body, f);
    case Chance(_, body) => MapItemShape(body, f);
    case Xp(_) =>
    case Item(_) =>
  }

  lemma {:induction false} MapAllShape<I, T>(these: seq<ComplexOutput<I>>, f: I -> T)
    ensures MapAll(MapAll(these, f), Unit) == MapAll(these, Unit)
    decreases these, 0, 0
  {
    if these != [] {
      MapItemShape(these[0], f);
      MapAllShape(these[1..], f);
      assert MapAll(these, f)[1..] == MapAll(these[1..], f);
    }
  }

  lemma {:induction false} MapWeightedShape<I, T>(these: seq<(real, ComplexOutput<I>)>, i: nat, f: I -> T)
    requires i <= |these|
    ensures MapWeighted(MapWeighted(these, i, f), 0, Unit) == MapWeighted(these, i, Unit)
    decreases OneOf(these), 0, |these| - i
  {
    if i < |these| {
      MapItemShape(these[i].1, f);
      MapWeightedShape(these, i + 1, f);
      MapWeightedDrop(MapWeighted(these, i, f), 1, Unit);
    }
  }

  lemma {:induction false} MapWeightedDrop<I, T>(these: seq<(real, ComplexOutput<I>)>, i: nat, f: I -> T)
    requires 1 <= i <= |these|
    ensures MapWeighted(these, i, f) == MapWeighted(these[1..], i - 1, f)
    decreases |these| - i
  {
    if i < |these| {
      MapWeightedDrop(these, i + 1, f);
    }
  }

  /** A tree without `OneOf` or `Chance` nodes, whose compilation draws nothing at random. */
  predicate Predictable<I>(e: ComplexOutput<I>)
  {
    match e
    case All(these) => forall k :: 0 <= k < |these| ==> Predictable(these[k])
    case OneOf(_) => false
    case Times(_, body) => Predictable(body)
    case Chance(_, _) => false
    case Xp(_) => true
    case Item(_) => true
  }

  /** `s` repeated `n` times. */
  function Repeat<T>(s: seq<T>, n: nat): (r: seq<T>)
  {
    if n == 0 then [] else Repeat(s, n - 1) + s
  }

  /** The items a predictable tree yields: its leaves, each `Times` body repeated. */
  function Items<I>(e: ComplexOutput<I>): seq<I>
    requires Predictable(e)
    decreases e, 1
  {
    match e
    case All(these) => ItemsAll(these)
    case Times(n, body) => Repeat(Items(body), n)
    case Xp(_) => []
    case Item(i) => [i]
  }

  function ItemsAll<I>(these: seq<ComplexOutput<I>>): seq<I>
    requires forall k :: 0 <= k < |these| ==> Predictable(these[k])
    decreases these, 0
  {
    if these == [] then [] else Items(these[0]) + ItemsAll(these[1..])
  }

  /** The xp a predictable tree yields: its `Xp` leaves, weighted by the enclosing `Times`. */
  function XpTotal<I>(e: ComplexOutput<I>): nat
    requires Predictable(e)
    decreases e, 1
  {
    match e
    case All(these) => XpTotalAll(these)
    case Times(n, body) => n * XpTotal(body)
    case Xp(amount) => amount
    case Item(_) => 0
  }

  function XpTotalAll<I>(these: seq<ComplexOutput<I>>): nat
    requires forall k :: 0 <= k < |these| ==> Predictable(these[k])
    decreases these, 0
  {
    if these == [] then 0 else XpTotal(these[0]) + XpTotalAll(these[1..])
  }

  lemma {:induction false} ItemsAllAppend<I>(a: seq<ComplexOutput<I>>, b: seq<ComplexOutput<I>>)
    requires forall k :: 0 <= k < |a| ==> Predictable(a[k])
    requires forall k :: 0 <= k < |b| ==> Predictable(b[k])
    ensures ItemsAll(a + b) == ItemsAll(a) + ItemsAll(b)
    ensures XpTotalAll(a + b) == XpTotalAll(a) + XpTotalAll(b)
  {
    if a == [] {
      assert a + b == b;
    } else {
      assert (a + b)[0] == a[0];
      assert (a + b)[1..] == a[1..] + b;
      ItemsAllAppend(a[1..], b);
    }
  }

  /**
   * `Times(n, body)` yields `n` copies of what `body` yields: its k-th item is
   * the body's item at k modulo the body's item count.
   */
  lemma {:induction false} TimesCount<I>(n: nat, body: ComplexOutput<I>)
    requires Predictable(body)
    ensures |Items(Times(n, body))| == n * |Items(body)|
    ensures forall k :: 0 <= k < n * |Items(body)| ==>
      Items(Times(n, body))[k] == Items(body)[k % |Items(body)|]
    ensures XpTotal(Times(n, body)) == n * XpTotal(body)
  {
    RepeatContents(Items(body), n);
  }

  /** `Repeat(s, n)` is `n * |s|` long and cycles through `s`. */
  lemma {:induction false} RepeatContents<T>(s: seq<T>, n: nat)
    ensures |Repeat(s, n)| == n * |s|
    ensures forall k :: 0 <= k < n * |s| ==> Repeat(s, n)[k] == s[k % |s|]
  {
    RepeatLength(s, n);
    if n > 0 {
      RepeatContents(s, n - 1);
      var base := (n - 1) * |s|;
      assert n * |s| == base + |s|;
      forall k | base <= k < n * |s|
        ensures Repeat(s, n)[k] == s[k % |s|]
      {
        ModAfterMultiple(n - 1, |s|, k - base);
      }
    }
  }

  /** Adding a multiple of `m` to a remainder below `m` leaves that remainder. */
  lemma ModAfterMultiple(q: nat, m: nat, r: nat)
    requires r < m
    ensures (q * m + r) % m == r
  {
    var x := q * m + r;
    var d := x / m - q;
    assert x == m * (x / m) + x % m;
    assert m * d == r - x % m by {
      assert m * (x / m) == m * d + m * q;
    }
    if d >= 1 {
      MulAtLeast(m, d);
    }
  }

  lemma {:induction false} MulAtLeast(m: nat, d: int)
    requires d >= 1
    ensures m * d >= m
  {
    if d > 1 {
      MulAtLeast(m, d - 1);
      assert m * d == m * (d - 1) + m;
    }
  }

  lemma {:induction false} RepeatLength<T>(s: seq<T>, n: nat)
    ensures |Repeat(s, n)| == n * |s|
  {
    if n > 0 {
      RepeatLength(s, n - 1);
    }
  }

  /** Mapping the payloads maps the yielded items one by one and leaves the xp alone. */
  lemma {:induction false} MapItemItems<I, T>(e: ComplexOutput<I>, f: I -> T)
    requires Predictable(e)
    ensures Predictable(MapItem(e, f))
    ensures Items(MapItem(e, f)) == MapSeq(Items(e), f)
    ensures XpTotal(MapItem(e, f)) == XpTotal(e)
    decreases e, 1
  {
    match e
    case All(these) => MapAllItems(these, f);
    case Times(n, body) =>
      MapItemItems(body, f);
      RepeatMap(Items(body), n, f);
    case Xp(_) =>
    case Item(_) =>
  }

  lemma {:induction false} MapAllItems<I, T>(these: seq<ComplexOutput<I>>, f: I -> T)
    requires forall k :: 0 <= k < |these| ==> Predictable(these[k])
    ensures forall k :: 0 <= k < |MapAll(these, f)| ==> Predictable(MapAll(these, f)[k])
    ensures ItemsAll(MapAll(these, f)) == MapSeq(ItemsAll(these), f)
    ensures XpTotalAll(MapAll(these, f)) == XpTotalAll(these)
    decreases these, 0
  {
    if these != [] {
      MapItemItems(these[0], f);
      MapAllItems(these[1..], f);
      assert MapAll(these, f)[1..] == MapAll(these[1..], f);
    }
  }

  lemma {:induction false} RepeatMap<T, U>(s: seq<T>, n: nat, f: T -> U)
    ensures Repeat(MapSeq(s, f), n) == MapSeq(Repeat(s, n), f)
  {
    if n > 0 {
      RepeatMap(s, n - 1, f);
    }
  }

  /** `CompiledOutput`: the xp and items gathered by compiling loot tables. */
  class CompiledOutput<I> {
    var xp: nat
    var items: seq<I>

    /** `CompiledOutput::new`: no xp and no items. */
    constructor ()
      ensures xp == 0 && items == []
    {
      xp := 0;
      items := [];
    }
  }

  /**
   * `ComplexOutput::compile`: adds the tree's rewards to `compiled`. Which
   * `OneOf` child is taken and whether a `Chance` hits are nondeterministic.
   */
  method Compile<I>(e: ComplexOutput<I>, compiled: CompiledOutput<I>)
    modifies compiled
    ensures old(compiled.xp) <= compiled.xp
    ensures |old(compiled.items)| <= |compiled.items| && compiled.items[..|old(compiled.items)|] == old(compiled.items)
    ensures Predictable(e) ==> compiled.items == old(compiled.items) + Items(e)
    ensures Predictable(e) ==> compiled.xp == old(compiled.xp) + XpTotal(e)
    decreases e, 1, 0
  {
    match e
    case All(these) =>
      CompileAll(e, these, compiled);
    case OneOf(weighted) =>
      // the child whose cumulative weight first exceeds the random draw, if any
      var pick: int := *;
      if 0 <= pick < |weighted| {
        Compile(weighted[pick].1, compiled);
      }
    case Times(times, body) =>
      var j := 0;
      while j < times
        invariant j <= times
        invariant old(compiled.xp) <= compiled.xp
        invariant |old(compiled.items)| <= |compiled.items| && compiled.items[..|old(compiled.items)|] == old(compiled.items)
        invariant Predictable(e) ==> compiled.items == old(compiled.items) + Repeat(Items(body), j)
        invariant Predictable(e) ==> compiled.xp == old(compiled.xp) + j * XpTotal(body)
      {
        Compile(body, compiled);
        j := j + 1;
      }
    case Chance(_, body) =>
      var hit: bool := *;
      if hit {
        Compile(body, compiled);
      }
    case Xp(amount) =>
      compiled.xp := compiled.xp + amount;
    case Item(s) =>
      compiled.items := compiled.items + [s];
  }

  /** The `All` case of `compile`: every child in list order. */
  method CompileAll<I>(ghost e: ComplexOutput<I>, these: seq<ComplexOutput<I>>, compiled: CompiledOutput<I>)
    requires e == All(these)
    modifies compiled
    ensures old(compiled.xp) <= compiled.xp
    ensures |old(compiled.items)| <= |compiled.items| && compiled.items[..|old(compiled.items)|] == old(compiled.items)
    ensures Predictable(e) ==> compiled.items == old(compiled.items) + Items(e)
    ensures Predictable(e) ==> compiled.xp == old(compiled.xp) + XpTotal(e)
    decreases e, 0, 0
  {
    var i := 0;
    while i < |these|
      invariant 0 <= i <= |these|
      invariant old(compiled.xp) <= compiled.xp
      invariant |old(compiled.items)| <= |compiled.items| && compiled.items[..|old(compiled.items)|] == old(compiled.items)
      invariant Predictable(e) ==> compiled.items == old(compiled.items) + ItemsAll(these[..i])
      invariant Predictable(e) ==> compiled.xp == old(compiled.xp) + XpTotalAll(these[..i])
    {
      Compile(these[i], compiled);
      if Predictable(e) {
        ItemsAllAppend(these[..i], [these[i]]);
        assert these[..i + 1] == these[..i] + [these[i]];
      }
      i := i + 1;
    }
    assert these[..i] == these;
  }

  /** `ComplexOutput::compiled`: compiles the tree into a fresh, empty output. */
  method Compiled<I>(e: ComplexOutput<I>) returns (compiled: CompiledOutput<I>)
    ensures fresh(compiled)
    ensures Predictable(e) ==> compiled.items == Items(e) && compiled.xp == XpTotal(e)
  {
    compiled := new CompiledOutput();
    Compile(e, compiled);
  }
}
