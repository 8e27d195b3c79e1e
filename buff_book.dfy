// The buff book (tile/plant/buff.rs): every plant's buffs, and the spreading
// of `Neighbor` buffs from the plant that has them to every other plant.
module BuffBooks {
  import opened Wrappers
  import opened Seqs
  import opened Confs
  import Identifiers
  import Buffs

  /** Where a buff came from; a spread buff remembers the source it was spread from. */
  datatype Source =
    | Neighbor(inner: Source)
    | PassiveItemEffect(passive: ItemConf)
    | RubbedItemEffect(rubbed: ItemConf)
    | SkillUnlock(skill: SkillConf)

  type Entry = (Buffs.Buff, Source)

  /** One plant's buffs, keyed by the tile the plant grows on. */
  datatype PlantPage = PlantPage(buffs: seq<Entry>, tile: Identifiers.TileId)

  /** A `Neighbor` buff on its way out: the tile it was on, the buff it wraps and its source. */
  datatype TrackedBuff = TrackedBuff(tile: Identifiers.TileId, buff: Buffs.Buff, source: Source)

  /** An entry of the neighbor knife: a position within its own page, and the buff found there. */
  type KnifeEntry = (nat, TrackedBuff)

  /** Tile ids of distinct plants differ. */
  predicate TilesDistinct(pages: seq<PlantPage>)
  {
    forall p, p' :: 0 <= p < p' < |pages| ==> pages[p].tile != pages[p'].tile
  }

  /** No page holds a `Neighbor` buff. */
  predicate NoNeighbors(pages: seq<PlantPage>)
  {
    forall q, k :: 0 <= q < |pages| && 0 <= k < |pages[q].buffs| ==> !pages[q].buffs[k].0.Neighbor?
  }

  /** How many `Neighbor` wrappers a buff sits under. */
  function Depth(b: Buffs.Buff): nat
  {
    if b.Neighbor? then 1 + Depth(b.neighbor) else 0
  }

  /** The deepest buff on one page. */
  function PageDepth(buffs: seq<Entry>): (d: nat)
    ensures forall k :: 0 <= k < |buffs| ==> Depth(buffs[k].0) <= d
    ensures d == 0 || exists k :: 0 <= k < |buffs| && Depth(buffs[k].0) == d
  {
    if buffs == [] then 0
    else
      var init := PageDepth(buffs[..|buffs| - 1]);
      var last := Depth(buffs[|buffs| - 1].0);
      assert forall k :: 0 <= k < |buffs| - 1 ==> buffs[..|buffs| - 1][k] == buffs[k];
      if init < last then last else init
  }

  /** The deepest buff in the whole book: the measure that each spreading round lowers. */
  function MaxDepth(pages: seq<PlantPage>): (d: nat)
    ensures forall q, k :: 0 <= q < |pages| && 0 <= k < |pages[q].buffs| ==> Depth(pages[q].buffs[k].0) <= d
    ensures d == 0 || exists q :: 0 <= q < |pages| && PageDepth(pages[q].buffs) == d
  {
    if pages == [] then 0
    else
      var init := MaxDepth(pages[..|pages| - 1]);
      var last := PageDepth(pages[|pages| - 1].buffs);
      assert forall q :: 0 <= q < |pages| - 1 ==> pages[..|pages| - 1][q] == pages[q];
      if init < last then last else init
  }

  /** A book whose buffs all lie under fewer than `d` wrappers, with `d` positive, has a smaller measure. */
  lemma MaxDepthBelow(pages: seq<PlantPage>, d: nat)
    requires d > 0
    requires forall q, k :: 0 <= q < |pages| && 0 <= k < |pages[q].buffs| ==> Depth(pages[q].buffs[k].0) < d
    ensures MaxDepth(pages) < d
  {
    var m := MaxDepth(pages);
    if m != 0 {
      var q :| 0 <= q < |pages| && PageDepth(pages[q].buffs) == m;
      var k :| 0 <= k < |pages[q].buffs| && Depth(pages[q].buffs[k].0) == m;
    }
  }

  /**
   * The `Neighbor` buffs among a page's first `n` buffs, as `indexed_buffs`
   * numbers them: by position within the page, in increasing order.
   */
  function NeighborsBelow(page: PlantPage, n: nat): seq<KnifeEntry>
    requires n <= |page.buffs|
  {
    if n == 0 then [] else NeighborsBelow(page, n - 1) + NeighborAt(page, n - 1)
  }

  /**
   * The entries gathered from a page's first `n` buffs are exactly its
   * `Neighbor` buffs there: each names the position of a `Neighbor` buff
   * wrapping the entry's buff, with its source and the page's tile; positions
   * strictly increase; and no `Neighbor` buff is missed.
   */
  lemma NeighborsBelowSpec(page: PlantPage, n: nat)
    requires n <= |page.buffs|
    ensures forall t :: 0 <= t < |NeighborsBelow(page, n)| ==>
      && NeighborsBelow(page, n)[t].0 < n
      && page.buffs[NeighborsBelow(page, n)[t].0].0 == Buffs.Neighbor(NeighborsBelow(page, n)[t].1.buff)
      && NeighborsBelow(page, n)[t].1.source == page.buffs[NeighborsBelow(page, n)[t].0].1
      && NeighborsBelow(page, n)[t].1.tile == page.tile
    ensures forall t, u :: 0 <= t < u < |NeighborsBelow(page, n)| ==> NeighborsBelow(page, n)[t].0 < NeighborsBelow(page, n)[u].0
    ensures forall i :: 0 <= i < n && page.buffs[i].0.Neighbor? ==> exists t :: 0 <= t < |NeighborsBelow(page, n)| && NeighborsBelow(page, n)[t].0 == i
  {
    NeighborsBelowSound(page, n);
    NeighborsBelowComplete(page, n);
  }

  /** The first `n` buffs' entries keep the earlier buffs' entries in front, and add one for buff `n - 1` if it is a `Neighbor` buff. */
  lemma NeighborsBelowStep(page: PlantPage, n: nat)
    requires 0 < n <= |page.buffs|
    ensures var prev, r := NeighborsBelow(page, n - 1), NeighborsBelow(page, n);
      && (forall t :: 0 <= t < |prev| ==> r[t] == prev[t])
      && (page.buffs[n - 1].0.Neighbor? ==>
            |r| == |prev| + 1 && r[|prev|] == (n - 1, TrackedBuff(page.tile, page.buffs[n - 1].0.neighbor, page.buffs[n - 1].1)))
      && (!page.buffs[n - 1].0.Neighbor? ==> |r| == |prev|)
  {
    assert NeighborsBelow(page, n) == NeighborsBelow(page, n - 1) + NeighborAt(page, n - 1);
  }

  /** Each entry names a `Neighbor` buff below `n` on its page, and positions increase. */
  lemma {:induction false} NeighborsBelowSound(page: PlantPage, n: nat)
    requires n <= |page.buffs|
    ensures forall t :: 0 <= t < |NeighborsBelow(page, n)| ==>
      && NeighborsBelow(page, n)[t].0 < n
      && page.buffs[NeighborsBelow(page, n)[t].0].0 == Buffs.Neighbor(NeighborsBelow(page, n)[t].1.buff)
      && NeighborsBelow(page, n)[t].1.source == page.buffs[NeighborsBelow(page, n)[t].0].1
      && NeighborsBelow(page, n)[t].1.tile == page.tile
    ensures forall t, u :: 0 <= t < u < |NeighborsBelow(page, n)| ==> NeighborsBelow(page, n)[t].0 < NeighborsBelow(page, n)[u].0
  {
    if n > 0 {
      NeighborsBelowSound(page, n - 1);
      NeighborsBelowStep(page, n);
    }
  }

  /** No `Neighbor` buff below `n` is missed. */
  lemma {:induction false} NeighborsBelowComplete(page: PlantPage, n: nat)
    requires n <= |page.buffs|
    ensures forall i :: 0 <= i < n && page.buffs[i].0.Neighbor? ==> exists t :: 0 <= t < |NeighborsBelow(page, n)| && NeighborsBelow(page, n)[t].0 == i
  {
    if n > 0 {
      NeighborsBelowComplete(page, n - 1);
      NeighborsBelowStep(page, n);
      var prev, r := NeighborsBelow(page, n - 1), NeighborsBelow(page, n);
      forall i | 0 <= i < n && page.buffs[i].0.Neighbor?
        ensures exists t :: 0 <= t < |r| && r[t].0 == i
      {
        if i == n - 1 {
          assert r[|prev|].0 == i;
        } else {
          var t :| 0 <= t < |prev| && prev[t].0 == i;
          assert r[t].0 == i;
        }
      }
    }
  }

  /** The knife entry for the buff at position `i`, if it is a `Neighbor` buff. */
  function NeighborAt(page: PlantPage, i: nat): seq<KnifeEntry>
    requires i < |page.buffs|
  {
    var (b, s) := page.buffs[i];
    if b.Neighbor? then [(i, TrackedBuff(page.tile, b.neighbor, s))] else []
  }

  function PageNeighbors(page: PlantPage): seq<KnifeEntry>
  {
    NeighborsBelow(page, |page.buffs|)
  }

  /** What the first loop of `spread_neighbors` puts on the knife: every page's `Neighbor` buffs, page by page. */
  function IndexedNeighbors(pages: seq<PlantPage>): seq<KnifeEntry>
  {
    if pages == [] then [] else IndexedNeighbors(pages[..|pages| - 1]) + PageNeighbors(pages[|pages| - 1])
  }

  lemma {:induction false} IndexedNeighborsAppend(xs: seq<PlantPage>, ys: seq<PlantPage>)
    ensures IndexedNeighbors(xs + ys) == IndexedNeighbors(xs) + IndexedNeighbors(ys)
    decreases |ys|
  {
    if ys == [] {
      assert xs + ys == xs;
    } else {
      var ys' := ys[..|ys| - 1];
      var y := ys[|ys| - 1];
      assert xs + ys == (xs + ys') + [y];
      assert ys == ys' + [y];
      IndexedNeighborsSnoc(xs + ys', y);
      IndexedNeighborsSnoc(ys', y);
      IndexedNeighborsAppend(xs, ys');
    }
  }

  /** Knife entry `e` points at a `Neighbor` buff on page `p`, whose tile it records. */
  predicate PointsAt(pages: seq<PlantPage>, p: int, e: KnifeEntry)
  {
    && 0 <= p < |pages|
    && e.1.tile == pages[p].tile
    && e.0 < |pages[p].buffs|
    && pages[p].buffs[e.0].0 == Buffs.Neighbor(e.1.buff)
  }

  ghost predicate FromSomePage(pages: seq<PlantPage>, e: KnifeEntry)
  {
    exists p :: PointsAt(pages, p, e)
  }

  /** Every knife entry points at a `Neighbor` buff, on the page whose tile it records. */
  lemma {:induction false} EntryOrigins(pages: seq<PlantPage>)
    ensures forall t :: 0 <= t < |IndexedNeighbors(pages)| ==> FromSomePage(pages, IndexedNeighbors(pages)[t])
  {
    if pages != [] {
      var init := pages[..|pages| - 1];
      var last := |pages| - 1;
      EntryOrigins(init);
      var knife := IndexedNeighbors(pages);
      var pre := IndexedNeighbors(init);
      var own := PageNeighbors(pages[last]);
      assert knife == pre + own;
      forall t | 0 <= t < |IndexedNeighbors(pages)|
        ensures FromSomePage(pages, IndexedNeighbors(pages)[t])
      {
        if t < |pre| {
          assert FromSomePage(init, pre[t]);
          var p :| PointsAt(init, p, pre[t]);
          assert init[p] == pages[p];
          assert PointsAt(pages, p, knife[t]);
        } else {
          NeighborsBelowSpec(pages[last], |pages[last].buffs|);
          assert knife[t] == own[t - |pre|];
          assert PointsAt(pages, last, knife[t]);
        }
      }
    } else {
      assert IndexedNeighbors(pages) == [];
    }
  }

  /** A book with an empty knife has no `Neighbor` buff left. */
  lemma {:induction false} EmptyKnife(pages: seq<PlantPage>)
    ensures IndexedNeighbors(pages) == [] <==> NoNeighbors(pages)
  {
    if IndexedNeighbors(pages) != [] {
      EntryOrigins(pages);
      var e := IndexedNeighbors(pages)[0];
      var p :| PointsAt(pages, p, e);
    } else if pages != [] {
      var init := pages[..|pages| - 1];
      var last := pages[|pages| - 1];
      EmptyKnife(init);
      assert PageNeighbors(last) == [];
      NeighborsBelowSpec(last, |last.buffs|);
      forall q, k | 0 <= q < |pages| && 0 <= k < |pages[q].buffs|
        ensures !pages[q].buffs[k].0.Neighbor?
      {
        if q < |pages| - 1 {
          assert pages[q] == init[q];
        }
      }
    }
  }

  /** The buff a knife entry appends to every other page. */
  function Pushed(e: KnifeEntry): Entry
  {
    (e.1.buff, Neighbor(e.1.source))
  }

  /**
   * What one knife entry does to one page: the page it came from loses the
   * buff at the recorded position by `swap_remove` (`None` where that
   * panics, the position being past the end), every other page gets the
   * wrapped buff appended.
   */
  function PageStep(page: PlantPage, e: KnifeEntry): (r: Option<PlantPage>)
    ensures r.None? <==> page.tile == e.1.tile && e.0 >= |page.buffs|
  {
    if page.tile == e.1.tile then
      if e.0 < |page.buffs| then Some(page.(buffs := SwapRemove(page.buffs, e.0))) else None
    else
      Some(page.(buffs := page.buffs + [Pushed(e)]))
  }

  /** A page after a run of knife entries; `None` once one of them panics. */
  function PageAfter(page: PlantPage, es: seq<KnifeEntry>): (r: Option<PlantPage>)
    ensures r.Some? ==> r.value.tile == page.tile
    decreases |es|
  {
    if es == [] then Some(page)
    else
      match PageStep(page, es[0])
      case None => None
      case Some(p) => PageAfter(p, es[1..])
  }

  function Then(o: Option<PlantPage>, es: seq<KnifeEntry>): Option<PlantPage>
  {
    if o.None? then None else PageAfter(o.value, es)
  }

  /** Running two runs of entries one after the other is running their concatenation. */
  lemma {:induction false} PageAfterAppend(page: PlantPage, xs: seq<KnifeEntry>, ys: seq<KnifeEntry>)
    ensures PageAfter(page, xs + ys) == Then(PageAfter(page, xs), ys)
    decreases |xs|
  {
    if xs == [] {
      assert xs + ys == ys;
    } else {
      assert (xs + ys)[0] == xs[0];
      assert (xs + ys)[1..] == xs[1..] + ys;
      match PageStep(page, xs[0])
      case None =>
      case Some(p) => PageAfterAppend(p, xs[1..], ys);
    }
  }

  /** The buffs a run of entries appends to a page none of them came from. */
  function PushesOf(es: seq<KnifeEntry>): (r: seq<Entry>)
    ensures |r| == |es|
    ensures forall t :: 0 <= t < |es| ==> r[t] == Pushed(es[t])
  {
    if es == [] then [] else [Pushed(es[0])] + PushesOf(es[1..])
  }

  /** Entries from other tiles only append, in order. */
  lemma {:induction false} OffTileAppends(page: PlantPage, es: seq<KnifeEntry>)
    requires forall t :: 0 <= t < |es| ==> es[t].1.tile != page.tile
    ensures PageAfter(page, es) == Some(page.(buffs := page.buffs + PushesOf(es)))
    decreases |es|
  {
    if es != [] {
      var next := page.(buffs := page.buffs + [Pushed(es[0])]);
      assert PageStep(page, es[0]) == Some(next);
      assert PageAfter(page, es) == PageAfter(next, es[1..]);
      OffTileAppends(next, es[1..]);
      assert PushesOf(es) == [Pushed(es[0])] + PushesOf(es[1..]);
      ConcatAssoc(page.buffs, [Pushed(es[0])], PushesOf(es[1..]));
    } else {
      assert page.buffs + PushesOf(es) == page.buffs;
    }
  }

  /** The positions a run of a page's own knife entries will `swap_remove`. */
  function Pending(own: seq<KnifeEntry>): set<nat>
  {
    set t | 0 <= t < |own| :: own[t].0
  }

  /**
   * Every pending position is still inside the page, and every buff outside
   * the pending positions lies under fewer than `d` wrappers.
   */
  ghost predicate Good(buffs: seq<Entry>, pending: set<nat>, d: nat)
  {
    && (forall i :: i in pending ==> i < |buffs|)
    && (forall k :: 0 <= k < |buffs| && k !in pending ==> Depth(buffs[k].0) < d)
  }

  /** Some pending position has fallen off the end: its `swap_remove` will panic. */
  ghost predicate Doomed(buffs: seq<Entry>, pending: set<nat>)
  {
    exists j :: j in pending && j >= |buffs|
  }

  /**
   * A page's own removals, in increasing position order: if they all succeed,
   * every buff left lies under fewer than `d` wrappers. A `swap_remove` that
   * moves a still-pending buff out of its slot dooms a later removal.
   */
  lemma {:induction false} OwnRemovals(cur: PlantPage, own: seq<KnifeEntry>, d: nat)
    requires forall t :: 0 <= t < |own| ==> own[t].1.tile == cur.tile
    requires forall t, u :: 0 <= t < u < |own| ==> own[t].0 < own[u].0
    requires Good(cur.buffs, Pending(own), d) || Doomed(cur.buffs, Pending(own))
    ensures PageAfter(cur, own).Some? ==> forall k :: 0 <= k < |PageAfter(cur, own).value.buffs| ==> Depth(PageAfter(cur, own).value.buffs[k].0) < d
    decreases |own|
  {
    if own == [] {
      assert Pending(own) == {};
    } else {
      var e := own[0];
      PendingTail(own);
      if e.0 < |cur.buffs| {
        var next := cur.(buffs := SwapRemove(cur.buffs, e.0));
        assert PageStep(cur, e) == Some(next);
        assert PageAfter(cur, own) == PageAfter(next, own[1..]);
        RemovalKeepsGood(cur.buffs, e.0, Pending(own), d);
        OwnRemovals(next, own[1..], d);
      } else {
        assert PageStep(cur, e) == None;
      }
    }
  }

  /** The run's tail leaves exactly its head's position pending no more. */
  lemma PendingTail(own: seq<KnifeEntry>)
    requires own != []
    requires forall u :: 0 < u < |own| ==> own[u].0 != own[0].0
    ensures own[0].0 in Pending(own)
    ensures Pending(own[1..]) == Pending(own) - {own[0].0}
  {
    var pending := Pending(own);
    var pending' := Pending(own[1..]);
    assert own[0].0 in pending;
    forall x | x in pending'
      ensures x in pending && x != own[0].0
    {
      var u :| 0 <= u < |own[1..]| && own[1..][u].0 == x;
      assert own[u + 1].0 == x;
    }
    forall x | x in pending && x != own[0].0
      ensures x in pending'
    {
      var t :| 0 <= t < |own| && own[t].0 == x;
      assert own[1..][t - 1].0 == x;
    }
  }

  /**
   * One `swap_remove` at a pending position `i` keeps the buffs good for
   * the positions still pending, or dooms one of them.
   */
  lemma RemovalKeepsGood(buffs: seq<Entry>, i: nat, pending: set<nat>, d: nat)
    requires i < |buffs| && i in pending
    requires Good(buffs, pending, d) || Doomed(buffs, pending)
    ensures Good(SwapRemove(buffs, i), pending - {i}, d) || Doomed(SwapRemove(buffs, i), pending - {i})
  {
    var next := SwapRemove(buffs, i);
    var pending' := pending - {i};
    var last := |buffs| - 1;
    if Doomed(buffs, pending) {
      var j :| j in pending && j >= |buffs|;
      assert j in pending' && j >= |next|;
    } else if last in pending' {
      assert Doomed(next, pending');
    } else {
      forall k | 0 <= k < |next| && k !in pending'
        ensures Depth(next[k].0) < d
      {
        if k == i {
          assert next[k] == buffs[last];
        } else {
          assert next[k] == buffs[k];
        }
      }
    }
  }

  /** The positions of a page's own `Neighbor` buffs are exactly the pending ones. */
  lemma PendingOfPage(page: PlantPage)
    ensures forall i: nat :: i in Pending(PageNeighbors(page)) <==> i < |page.buffs| && page.buffs[i].0.Neighbor?
  {
    var own := PageNeighbors(page);
    NeighborsBelowSpec(page, |page.buffs|);
    forall i: nat | i < |page.buffs| && page.buffs[i].0.Neighbor?
      ensures i in Pending(own)
    {
      var t :| 0 <= t < |own| && own[t].0 == i;
    }
  }

  /** The knife entries gathered from a run of pages other than `q` push buffs shallower than the book's measure onto page `q`. */
  lemma OtherPagesPush(pages: seq<PlantPage>, lo: nat, hi: nat, q: nat)
    requires TilesDistinct(pages)
    requires lo <= hi <= |pages| && q < |pages| && !(lo <= q < hi)
    ensures forall t :: 0 <= t < |IndexedNeighbors(pages[lo..hi])| ==>
      && IndexedNeighbors(pages[lo..hi])[t].1.tile != pages[q].tile
      && Depth(IndexedNeighbors(pages[lo..hi])[t].1.buff) < MaxDepth(pages)
  {
    var part := pages[lo..hi];
    EntryOrigins(part);
    forall t | 0 <= t < |IndexedNeighbors(part)|
      ensures IndexedNeighbors(part)[t].1.tile != pages[q].tile
      ensures Depth(IndexedNeighbors(part)[t].1.buff) < MaxDepth(pages)
    {
      var e := IndexedNeighbors(part)[t];
      assert FromSomePage(part, e);
      var p :| PointsAt(part, p, e);
      assert part[p] == pages[lo + p];
      assert Depth(pages[lo + p].buffs[e.0].0) <= MaxDepth(pages);
    }
  }

  lemma IndexedNeighborsSnoc(xs: seq<PlantPage>, x: PlantPage)
    ensures IndexedNeighbors(xs + [x]) == IndexedNeighbors(xs) + PageNeighbors(x)
  {
    assert (xs + [x])[..|xs|] == xs;
  }

  /** The knife splits into the entries of the pages before `q`, those of page `q`, and those of the pages after it. */
  lemma KnifeSplit(pages: seq<PlantPage>, q: nat)
    requires q < |pages|
    ensures IndexedNeighbors(pages) ==
      IndexedNeighbors(pages[0..q]) + (PageNeighbors(pages[q]) + IndexedNeighbors(pages[q + 1..|pages|]))
  {
    SplitAround(pages, q);
    KnifeOfThree(pages[0..q], pages[q], pages[q + 1..|pages|]);
  }

  lemma KnifeOfThree(before: seq<PlantPage>, page: PlantPage, after: seq<PlantPage>)
    ensures IndexedNeighbors((before + [page]) + after) ==
      IndexedNeighbors(before) + (PageNeighbors(page) + IndexedNeighbors(after))
  {
    IndexedNeighborsAppend(before + [page], after);
    IndexedNeighborsSnoc(before, page);
    ConcatAssoc(IndexedNeighbors(before), PageNeighbors(page), IndexedNeighbors(after));
  }

  /**
   * When a page's own entries come up, it holds its original buffs followed
   * by buffs pushed from earlier pages: the good state, with its own
   * `Neighbor` positions pending.
   */
  lemma GoodBeforeOwn(page: PlantPage, a: seq<KnifeEntry>, d: nat)
    requires d > 0
    requires forall t :: 0 <= t < |a| ==> Depth(a[t].1.buff) < d
    ensures Good(page.buffs + PushesOf(a), Pending(PageNeighbors(page)), d)
  {
    var buffs := page.buffs + PushesOf(a);
    PendingOfPage(page);
  }

  /**
   * A page's round in three phases: entries from earlier pages append, its
   * own entries remove, entries from later pages append.
   */
  lemma ThreePhases(page: PlantPage, a: seq<KnifeEntry>, own: seq<KnifeEntry>, b: seq<KnifeEntry>, d: nat)
    requires forall t :: 0 <= t < |a| ==> a[t].1.tile != page.tile
    requires forall t :: 0 <= t < |b| ==> b[t].1.tile != page.tile && Depth(b[t].1.buff) < d
    requires forall t :: 0 <= t < |own| ==> own[t].1.tile == page.tile
    requires forall t, u :: 0 <= t < u < |own| ==> own[t].0 < own[u].0
    requires Good(page.buffs + PushesOf(a), Pending(own), d)
    requires PageAfter(page, a + (own + b)).Some?
    ensures forall k :: 0 <= k < |PageAfter(page, a + (own + b)).value.buffs| ==> Depth(PageAfter(page, a + (own + b)).value.buffs[k].0) < d
  {
    OffTileAppends(page, a);
    var cur := page.(buffs := page.buffs + PushesOf(a));
    PageAfterAppend(page, a, own + b);
    assert PageAfter(page, a + (own + b)) == PageAfter(cur, own + b);
    PageAfterAppend(cur, own, b);
    OwnRemovals(cur, own, d);
    var mid := PageAfter(cur, own).value;
    assert PageAfter(page, a + (own + b)) == PageAfter(mid, b);
    AppendsShallow(mid, b, d);
  }

  /** Entries from other tiles, each shallower than `d`, keep a page's buffs shallower than `d`. */
  lemma AppendsShallow(page: PlantPage, es: seq<KnifeEntry>, d: nat)
    requires forall t :: 0 <= t < |es| ==> es[t].1.tile != page.tile && Depth(es[t].1.buff) < d
    requires forall k :: 0 <= k < |page.buffs| ==> Depth(page.buffs[k].0) < d
    ensures PageAfter(page, es).Some?
    ensures forall k :: 0 <= k < |PageAfter(page, es).value.buffs| ==> Depth(PageAfter(page, es).value.buffs[k].0) < d
  {
    OffTileAppends(page, es);
    var pushes := PushesOf(es);
    var fin := page.buffs + pushes;
    assert PageAfter(page, es).value.buffs == fin;
    forall k | 0 <= k < |fin| ensures Depth(fin[k].0) < d {
      if k < |page.buffs| {
        assert fin[k] == page.buffs[k];
      } else {
        var t := k - |page.buffs|;
        assert fin[k] == pushes[t] == Pushed(es[t]);
      }
    }
  }

  /** After a whole round of the knife, a page holds only buffs shallower than the book's measure. */
  lemma PageShallower(pages: seq<PlantPage>, q: nat)
    requires TilesDistinct(pages) && q < |pages| && MaxDepth(pages) > 0
    requires PageAfter(pages[q], IndexedNeighbors(pages)).Some?
    ensures forall k :: 0 <= k < |PageAfter(pages[q], IndexedNeighbors(pages)).value.buffs| ==>
      Depth(PageAfter(pages[q], IndexedNeighbors(pages)).value.buffs[k].0) < MaxDepth(pages)
  {
    var a := IndexedNeighbors(pages[0..q]);
    var own := PageNeighbors(pages[q]);
    var b := IndexedNeighbors(pages[q + 1..|pages|]);
    KnifeSplit(pages, q);
    NeighborsBelowSpec(pages[q], |pages[q].buffs|);
    OtherPagesPush(pages, 0, q, q);
    OtherPagesPush(pages, q + 1, |pages|, q);
    GoodBeforeOwn(pages[q], a, MaxDepth(pages));
    ThreePhases(pages[q], a, own, b, MaxDepth(pages));
  }

  /**
   * One round of the knife over the whole book: in the source each entry
   * visits every page in turn, and as each page only ever sees the entries
   * in order, a page ends up as `PageAfter` of the whole knife. `None` if
   * any page panics.
   */
  function Round(pages: seq<PlantPage>, knife: seq<KnifeEntry>): (r: Option<seq<PlantPage>>)
    ensures r.Some? <==> forall q :: 0 <= q < |pages| ==> PageAfter(pages[q], knife).Some?
    ensures r.Some? ==> |r.value| == |pages| && forall q :: 0 <= q < |pages| ==> PageAfter(pages[q], knife) == Some(r.value[q])
  {
    if pages == [] then Some([])
    else
      var init := Round(pages[..|pages| - 1], knife);
      var last := PageAfter(pages[|pages| - 1], knife);
      assert forall q :: 0 <= q < |pages| - 1 ==> pages[..|pages| - 1][q] == pages[q];
      if init.Some? && last.Some? then Some(init.value + [last.value]) else None
  }

  /** A round that does not panic keeps every page's tile and lowers the book's measure. */
  lemma RoundShrinks(pages: seq<PlantPage>, next: seq<PlantPage>)
    requires TilesDistinct(pages) && IndexedNeighbors(pages) != []
    requires Round(pages, IndexedNeighbors(pages)) == Some(next)
    ensures |next| == |pages| && forall q :: 0 <= q < |pages| ==> next[q].tile == pages[q].tile
    ensures TilesDistinct(next)
    ensures MaxDepth(next) < MaxDepth(pages)
  {
    var knife := IndexedNeighbors(pages);
    EntryOrigins(pages);
    assert FromSomePage(pages, knife[0]);
    var p :| PointsAt(pages, p, knife[0]);
    assert Depth(pages[p].buffs[knife[0].0].0) <= MaxDepth(pages);
    forall q, k | 0 <= q < |next| && 0 <= k < |next[q].buffs|
      ensures Depth(next[q].buffs[k].0) < MaxDepth(pages)
    {
      PageShallower(pages, q);
    }
    MaxDepthBelow(next, MaxDepth(pages));
  }

  /**
   * `spread_neighbors` on a book whose knife starts empty: gather the
   * `Neighbor` buffs, stop if there are none, otherwise run the round and
   * start again. `None` where a round panics.
   */
  function Spread(pages: seq<PlantPage>): Option<seq<PlantPage>>
    requires TilesDistinct(pages)
    decreases MaxDepth(pages)
  {
    var knife := IndexedNeighbors(pages);
    if knife == [] then Some(pages)
    else
      var next := Round(pages, knife);
      if next.None? then None
      else
        RoundShrinks(pages, next.value);
        Spread(next.value)
  }

  /** Spreading ends only once no page holds a `Neighbor` buff, with every page still on its tile. */
  lemma {:induction false} SpreadClears(pages: seq<PlantPage>)
    requires TilesDistinct(pages)
    ensures Spread(pages).Some? ==>
      && NoNeighbors(Spread(pages).value)
      && |Spread(pages).value| == |pages|
      && forall q :: 0 <= q < |pages| ==> Spread(pages).value[q].tile == pages[q].tile
    decreases MaxDepth(pages)
  {
    var knife := IndexedNeighbors(pages);
    if knife == [] {
      EmptyKnife(pages);
      assert Spread(pages) == Some(pages);
    } else {
      var next := Round(pages, knife);
      if next.Some? {
        RoundShrinks(pages, next.value);
        assert Spread(pages) == Spread(next.value);
        SpreadClears(next.value);
        if Spread(pages).Some? {
          var fin := Spread(pages).value;
          forall q | 0 <= q < |pages| ensures fin[q].tile == pages[q].tile {
            assert fin[q].tile == next.value[q].tile;
          }
        }
      } else {
        assert Spread(pages) == None;
      }
    }
  }

  /** A book with no `Neighbor` buff is left as it is; in particular spreading twice is spreading once. */
  lemma SpreadIdempotent(pages: seq<PlantPage>)
    requires TilesDistinct(pages)
    ensures NoNeighbors(pages) ==> Spread(pages) == Some(pages)
    ensures Spread(pages).Some? ==> TilesDistinct(Spread(pages).value) && Spread(Spread(pages).value) == Spread(pages)
  {
    EmptyKnife(pages);
    SpreadClears(pages);
    if Spread(pages).Some? {
      EmptyKnife(Spread(pages).value);
    }
  }

  /** Running one more entry is one more `PageStep`. */
  lemma PageAfterSnoc(page: PlantPage, es: seq<KnifeEntry>, k: nat)
    requires k < |es|
    ensures PageAfter(page, es[..k + 1]) ==
      if PageAfter(page, es[..k]).None? then None else PageStep(PageAfter(page, es[..k]).value, es[k])
  {
    assert es[..k + 1] == es[..k] + [es[k]];
    PageAfterAppend(page, es[..k], [es[k]]);
    if PageAfter(page, es[..k]).Some? {
      var mid := PageAfter(page, es[..k]).value;
      var step := PageStep(mid, es[k]);
      assert [es[k]][1..] == es[..0];
      if step.Some? {
        assert PageAfter(step.value, es[..0]) == step;
      }
      assert PageAfter(mid, [es[k]]) == step;
    }
  }

  /** Once a page has panicked, the rest of the knife cannot undo it. */
  lemma PanicPersists(page: PlantPage, es: seq<KnifeEntry>, k: nat)
    requires k <= |es| && PageAfter(page, es[..k]).None?
    ensures PageAfter(page, es).None?
  {
    assert es == es[..k] + es[k..];
    PageAfterAppend(page, es[..k], es[k..]);
  }

  /** `BuffBook`: a page of buffs per plant, and the knife that carries `Neighbor` buffs between them. */
  class BuffBook {
    var plants: seq<PlantPage>
    var neighborKnife: seq<KnifeEntry>

    /** One page's share of the first loop of `spread_neighbors`. */
    method CollectPage(page: PlantPage)
      modifies this
      ensures plants == old(plants)
      ensures neighborKnife == old(neighborKnife) + PageNeighbors(page)
    {
      var i := 0;
      while i < |page.buffs|
        invariant i <= |page.buffs| && plants == old(plants)
        invariant neighborKnife == old(neighborKnife) + NeighborsBelow(page, i)
      {
        var (buff, source) := page.buffs[i];
        match buff {
          case Neighbor(b) =>
            neighborKnife := neighborKnife + [(i, TrackedBuff(page.tile, b, source))];
          case _ =>
        }
        assert neighborKnife == old(neighborKnife) + NeighborsBelow(page, i) + NeighborAt(page, i);
        i := i + 1;
      }
    }

    /** The first loop of `spread_neighbors`: push every `Neighbor` buff of every page onto the knife. */
    method CollectNeighbors()
      modifies this
      ensures plants == old(plants)
      ensures neighborKnife == old(neighborKnife) + IndexedNeighbors(plants)
    {
      var p := 0;
      while p < |plants|
        invariant p <= |plants| && plants == old(plants)
        invariant neighborKnife == old(neighborKnife) + IndexedNeighbors(plants[..p])
      {
        var page := plants[p];
        CollectPage(page);
        assert plants[..p + 1] == plants[..p] + [page];
        IndexedNeighborsSnoc(plants[..p], page);
        p := p + 1;
      }
      assert plants[..p] == plants;
    }

    /**
     * The drain of `spread_neighbors`: each knife entry in turn visits every
     * page, removing its buff from its own page and appending the wrapped buff
     * to every other. `false` where a `swap_remove` would panic.
     */
    method ApplyKnife() returns (ok: bool)
      modifies this
      ensures neighborKnife == []
      ensures ok <==> Round(old(plants), old(neighborKnife)).Some?
      ensures ok ==> plants == Round(old(plants), old(neighborKnife)).value
    {
      var knife := neighborKnife;
      neighborKnife := [];
      ghost var start := plants;
      var k := 0;
      while k < |knife|
        invariant k <= |knife| && |plants| == |start| && neighborKnife == []
        invariant forall q :: 0 <= q < |plants| ==> PageAfter(start[q], knife[..k]) == Some(plants[q])
      {
        var e := knife[k];
        var r := 0;
        while r < |plants|
          invariant r <= |plants| && |plants| == |start| && neighborKnife == []
          invariant forall q :: 0 <= q < r ==> PageAfter(start[q], knife[..k + 1]) == Some(plants[q])
          invariant forall q :: r <= q < |plants| ==> PageAfter(start[q], knife[..k]) == Some(plants[q])
        {
          PageAfterSnoc(start[r], knife, k);
          var page := plants[r];
          if page.tile == e.1.tile {
            if e.0 >= |page.buffs| {
              PanicPersists(start[r], knife, k + 1);
              return false;
            }
            page := page.(buffs := SwapRemove(page.buffs, e.0));
          } else {
            page := page.(buffs := page.buffs + [Pushed(e)]);
          }
          plants := plants[r := page];
          r := r + 1;
        }
        k := k + 1;
      }
      assert knife[..k] == knife;
      ok := true;
    }

    /**
     * `spread_neighbors`: gather the `Neighbor` buffs and, while there are
     * any, spread them and start over. `false` where the source panics.
     */
    method SpreadNeighbors() returns (ok: bool)
      requires TilesDistinct(plants) && neighborKnife == []
      modifies this
      ensures ok <==> Spread(old(plants)).Some?
      ensures ok ==> plants == Spread(old(plants)).value && neighborKnife == []
      decreases MaxDepth(plants)
    {
      CollectNeighbors();
      if |neighborKnife| > 0 {
        ghost var before := plants;
        assert neighborKnife == IndexedNeighbors(before);
        ok := ApplyKnife();
        if !ok {
          return;
        }
        RoundShrinks(before, plants);
        ok := SpreadNeighbors();
      } else {
        ok := true;
      }
    }
  }

  /**
   * As written, a page's own removals run in increasing position order, so a
   * first page ending in two `Neighbor` buffs panics: the first `swap_remove`
   * moves the second buff down and the second finds its position past the end.
   */
  lemma TwoNeighborsPanic(x: Buffs.Buff, y: Buffs.Buff, src: Source, tile: Identifiers.TileId)
    ensures Spread([PlantPage([(Buffs.Neighbor(x), src), (Buffs.Neighbor(y), src)], tile)]) == None
  {
    var page := PlantPage([(Buffs.Neighbor(x), src), (Buffs.Neighbor(y), src)], tile);
    var e0 := (0, TrackedBuff(tile, x, src));
    var e1 := (1, TrackedBuff(tile, y, src));
    assert NeighborsBelow(page, 1) == [e0];
    assert PageNeighbors(page) == [e0, e1];
    assert [page][..0] == [];
    assert IndexedNeighbors([page]) == [e0, e1];
    var after0 := page.(buffs := [(Buffs.Neighbor(y), src)]);
    assert SwapRemove(page.buffs, 0) == after0.buffs;
    assert PageStep(page, e0) == Some(after0);
    assert PageStep(after0, e1) == None;
    assert [e0, e1][1..] == [e1];
    assert PageAfter(page, [e0, e1]) == None;
  }

  lemma ReverseAppend<T>(xs: seq<T>, ys: seq<T>)
    ensures Reverse(xs + ys) == Reverse(ys) + Reverse(xs)
  {
    var l := Reverse(xs + ys);
    var r := Reverse(ys) + Reverse(xs);
    forall i | 0 <= i < |l|
      ensures l[i] == r[i]
    {
      if i < |ys| {
        assert r[i] == Reverse(ys)[i];
      } else {
        assert r[i] == Reverse(xs)[i - |ys|];
      }
    }
  }

  /**
   * A page's own removals in decreasing position order, from the good state:
   * none panics, and every buff left lies under fewer than `d` wrappers.
   */
  lemma {:induction false} OwnRemovalsDescending(cur: PlantPage, own: seq<KnifeEntry>, d: nat)
    requires forall t :: 0 <= t < |own| ==> own[t].1.tile == cur.tile
    requires forall t, u :: 0 <= t < u < |own| ==> own[t].0 > own[u].0
    requires Good(cur.buffs, Pending(own), d)
    ensures PageAfter(cur, own).Some?
    ensures forall k :: 0 <= k < |PageAfter(cur, own).value.buffs| ==> Depth(PageAfter(cur, own).value.buffs[k].0) < d
    decreases |own|
  {
    if own == [] {
      assert Pending(own) == {};
    } else {
      var e := own[0];
      PendingTail(own);
      forall x | x in Pending(own) ensures x <= e.0 {
        var t :| 0 <= t < |own| && own[t].0 == x;
      }
      var next := cur.(buffs := SwapRemove(cur.buffs, e.0));
      assert PageStep(cur, e) == Some(next);
      assert PageAfter(cur, own) == PageAfter(next, own[1..]);
      TopRemovalKeepsGood(cur.buffs, e.0, Pending(own), d);
      OwnRemovalsDescending(next, own[1..], d);
    }
  }

  /** Removing the highest pending position by `swap_remove` keeps the buffs good for the rest. */
  lemma TopRemovalKeepsGood(buffs: seq<Entry>, i: nat, pending: set<nat>, d: nat)
    requires i in pending && Good(buffs, pending, d)
    requires forall x :: x in pending ==> x <= i
    ensures i < |buffs|
    ensures Good(SwapRemove(buffs, i), pending - {i}, d)
  {
    var next := SwapRemove(buffs, i);
    var last := |buffs| - 1;
    forall k | 0 <= k < |next| && k !in pending - {i}
      ensures Depth(next[k].0) < d
    {
      if k == i {
        assert next[k] == buffs[last] && last !in pending;
      } else {
        assert next[k] == buffs[k];
      }
    }
  }

  /** A page's round with the knife drained back to front: later pages' buffs appended, own buffs removed, earlier pages' appended. */
  lemma ThreePhasesReversed(page: PlantPage, z: seq<KnifeEntry>, own: seq<KnifeEntry>, a: seq<KnifeEntry>, d: nat)
    requires forall t :: 0 <= t < |z| ==> z[t].1.tile != page.tile
    requires forall t :: 0 <= t < |a| ==> a[t].1.tile != page.tile && Depth(a[t].1.buff) < d
    requires forall t :: 0 <= t < |own| ==> own[t].1.tile == page.tile
    requires forall t, u :: 0 <= t < u < |own| ==> own[t].0 > own[u].0
    requires Good(page.buffs + PushesOf(z), Pending(own), d)
    ensures PageAfter(page, z + (own + a)).Some?
    ensures forall k :: 0 <= k < |PageAfter(page, z + (own + a)).value.buffs| ==> Depth(PageAfter(page, z + (own + a)).value.buffs[k].0) < d
  {
    OffTileAppends(page, z);
    var cur := page.(buffs := page.buffs + PushesOf(z));
    PageAfterAppend(page, z, own + a);
    assert PageAfter(page, z + (own + a)) == PageAfter(cur, own + a);
    PageAfterAppend(cur, own, a);
    OwnRemovalsDescending(cur, own, d);
    var mid := PageAfter(cur, own).value;
    assert PageAfter(page, z + (own + a)) == PageAfter(mid, a);
    AppendsShallow(mid, a, d);
  }

  /** Reversing a run of own entries keeps their tile, reverses their order and keeps the pending set. */
  lemma OwnReversed(own: seq<KnifeEntry>, tile: Identifiers.TileId)
    requires forall t :: 0 <= t < |own| ==> own[t].1.tile == tile
    requires forall t, u :: 0 <= t < u < |own| ==> own[t].0 < own[u].0
    ensures forall t :: 0 <= t < |Reverse(own)| ==> Reverse(own)[t].1.tile == tile
    ensures forall t, u :: 0 <= t < u < |Reverse(own)| ==> Reverse(own)[t].0 > Reverse(own)[u].0
    ensures Pending(Reverse(own)) == Pending(own)
  {
    var rown := Reverse(own);
    forall t, u | 0 <= t < u < |rown|
      ensures rown[t].0 > rown[u].0
    {
      assert rown[t] == own[|own| - 1 - t] && rown[u] == own[|own| - 1 - u];
    }
    forall x | x in Pending(own)
      ensures x in Pending(rown)
    {
      var t :| 0 <= t < |own| && own[t].0 == x;
      assert rown[|own| - 1 - t] == own[t];
    }
    forall x | x in Pending(rown)
      ensures x in Pending(own)
    {
      var t :| 0 <= t < |rown| && rown[t].0 == x;
      assert own[|own| - 1 - t] == rown[t];
    }
  }

  /** Reversing a run of entries from other tiles keeps them off the tile and shallow. */
  lemma OthersReversed(es: seq<KnifeEntry>, tile: Identifiers.TileId, d: nat)
    requires forall t :: 0 <= t < |es| ==> es[t].1.tile != tile && Depth(es[t].1.buff) < d
    ensures forall t :: 0 <= t < |Reverse(es)| ==> Reverse(es)[t].1.tile != tile && Depth(Reverse(es)[t].1.buff) < d
  {
    forall t | 0 <= t < |Reverse(es)|
      ensures Reverse(es)[t].1.tile != tile && Depth(Reverse(es)[t].1.buff) < d
    {
      assert Reverse(es)[t] == es[|es| - 1 - t];
    }
  }

  /** The reversed knife: later pages' entries reversed, then the page's own reversed, then earlier pages' reversed. */
  lemma ReversedSplit(pages: seq<PlantPage>, q: nat)
    requires q < |pages|
    ensures Reverse(IndexedNeighbors(pages)) ==
      Reverse(IndexedNeighbors(pages[q + 1..|pages|])) + (Reverse(PageNeighbors(pages[q])) + Reverse(IndexedNeighbors(pages[0..q])))
  {
    KnifeSplit(pages, q);
    ReverseAppend3(IndexedNeighbors(pages[0..q]), PageNeighbors(pages[q]), IndexedNeighbors(pages[q + 1..|pages|]));
  }

  lemma ReverseAppend3<T>(a: seq<T>, own: seq<T>, b: seq<T>)
    ensures Reverse(a + (own + b)) == Reverse(b) + (Reverse(own) + Reverse(a))
  {
    ReverseAppend(a, own + b);
    ReverseAppend(own, b);
  }

  /** One page's reversed round, from the properties of the three runs of entries in knife order. */
  lemma PagePhasesReversed(page: PlantPage, a: seq<KnifeEntry>, b: seq<KnifeEntry>, d: nat)
    requires d > 0
    requires forall t :: 0 <= t < |a| ==> a[t].1.tile != page.tile && Depth(a[t].1.buff) < d
    requires forall t :: 0 <= t < |b| ==> b[t].1.tile != page.tile && Depth(b[t].1.buff) < d
    ensures PageAfter(page, Reverse(b) + (Reverse(PageNeighbors(page)) + Reverse(a))).Some?
    ensures forall k :: 0 <= k < |PageAfter(page, Reverse(b) + (Reverse(PageNeighbors(page)) + Reverse(a))).value.buffs| ==>
      Depth(PageAfter(page, Reverse(b) + (Reverse(PageNeighbors(page)) + Reverse(a))).value.buffs[k].0) < d
  {
    var own := PageNeighbors(page);
    NeighborsBelowSpec(page, |page.buffs|);
    OwnReversed(own, page.tile);
    OthersReversed(a, page.tile, d);
    OthersReversed(b, page.tile, d);
    GoodBeforeOwn(page, Reverse(b), d);
    ThreePhasesReversed(page, Reverse(b), Reverse(own), Reverse(a), d);
  }

  /** With the knife drained back to front, no page panics and each ends shallower than the book's measure. */
  lemma PageReversed(pages: seq<PlantPage>, q: nat)
    requires TilesDistinct(pages) && q < |pages| && MaxDepth(pages) > 0
    ensures PageAfter(pages[q], Reverse(IndexedNeighbors(pages))).Some?
    ensures forall k :: 0 <= k < |PageAfter(pages[q], Reverse(IndexedNeighbors(pages))).value.buffs| ==>
      Depth(PageAfter(pages[q], Reverse(IndexedNeighbors(pages))).value.buffs[k].0) < MaxDepth(pages)
  {
    ReversedSplit(pages, q);
    OtherPagesPush(pages, 0, q, q);
    OtherPagesPush(pages, q + 1, |pages|, q);
    PagePhasesReversed(pages[q], IndexedNeighbors(pages[0..q]), IndexedNeighbors(pages[q + 1..|pages|]), MaxDepth(pages));
  }

  /** A round that drains the knife back to front never panics, keeps every tile, and lowers the book's measure. */
  lemma RoundReversed(pages: seq<PlantPage>)
    requires TilesDistinct(pages) && IndexedNeighbors(pages) != []
    ensures Round(pages, Reverse(IndexedNeighbors(pages))).Some?
    ensures var next := Round(pages, Reverse(IndexedNeighbors(pages))).value;
      && |next| == |pages|
      && (forall q :: 0 <= q < |pages| ==> next[q].tile == pages[q].tile)
      && TilesDistinct(next)
      && MaxDepth(next) < MaxDepth(pages)
  {
    var knife := IndexedNeighbors(pages);
    EntryOrigins(pages);
    assert FromSomePage(pages, knife[0]);
    var p :| PointsAt(pages, p, knife[0]);
    assert Depth(pages[p].buffs[knife[0].0].0) <= MaxDepth(pages);
    forall q | 0 <= q < |pages|
      ensures PageAfter(pages[q], Reverse(knife)).Some?
    {
      PageReversed(pages, q);
    }
    var next := Round(pages, Reverse(knife)).value;
    forall q, k | 0 <= q < |next| && 0 <= k < |next[q].buffs|
      ensures Depth(next[q].buffs[k].0) < MaxDepth(pages)
    {
      PageReversed(pages, q);
    }
    MaxDepthBelow(next, MaxDepth(pages));
  }

  /**
   * `spread_neighbors` with the knife drained back to front, so that each
   * page's own `swap_remove`s run from the highest position down and never
   * disturb a position still to come.
   */
  function SpreadReversed(pages: seq<PlantPage>): seq<PlantPage>
    requires TilesDistinct(pages)
    decreases MaxDepth(pages)
  {
    var knife := IndexedNeighbors(pages);
    if knife == [] then pages
    else
      RoundReversed(pages);
      SpreadReversed(Round(pages, Reverse(knife)).value)
  }

  /** The corrected spreading always finishes, with no `Neighbor` buff left and every page still on its tile. */
  lemma {:induction false} SpreadReversedClears(pages: seq<PlantPage>)
    requires TilesDistinct(pages)
    ensures NoNeighbors(SpreadReversed(pages))
    ensures |SpreadReversed(pages)| == |pages|
    ensures forall q :: 0 <= q < |pages| ==> SpreadReversed(pages)[q].tile == pages[q].tile
    decreases MaxDepth(pages)
  {
    var knife := IndexedNeighbors(pages);
    EmptyKnife(pages);
    if knife != [] {
      RoundReversed(pages);
      SpreadReversedClears(Round(pages, Reverse(knife)).value);
    }
  }

  /** The buff a knife entry stands for on its own page: the `Neighbor` wrapper around its buff, with its source. */
  function Wrapped(e: KnifeEntry): Entry
  {
    (Buffs.Neighbor(e.1.buff), e.1.source)
  }

  function WrappedOf(es: seq<KnifeEntry>): (r: seq<Entry>)
    ensures |r| == |es|
    ensures forall t :: 0 <= t < |es| ==> r[t] == Wrapped(es[t])
  {
    if es == [] then [] else [Wrapped(es[0])] + WrappedOf(es[1..])
  }

  /** The buffs among a page's first `n` that are not `Neighbor` buffs, in order. */
  function PlainBelow(page: PlantPage, n: nat): seq<Entry>
    requires n <= |page.buffs|
  {
    if n == 0 then [] else PlainBelow(page, n - 1) + PlainAt(page, n - 1)
  }

  /** The buff at position `i`, unless it is a `Neighbor` buff. */
  function PlainAt(page: PlantPage, i: nat): seq<Entry>
    requires i < |page.buffs|
  {
    if page.buffs[i].0.Neighbor? then [] else [page.buffs[i]]
  }

  /** The buffs a page keeps through a round: those that are not `Neighbor` buffs. */
  function PlainBuffs(page: PlantPage): seq<Entry>
  {
    PlainBelow(page, |page.buffs|)
  }

  /** The knife entries that come from pages other than page `q`. */
  function OthersOf(pages: seq<PlantPage>, q: nat): seq<KnifeEntry>
    requires q < |pages|
  {
    IndexedNeighbors(pages[0..q]) + IndexedNeighbors(pages[q + 1..|pages|])
  }

  lemma WrappedAppend(xs: seq<KnifeEntry>, ys: seq<KnifeEntry>)
    ensures WrappedOf(xs + ys) == WrappedOf(xs) + WrappedOf(ys)
  {
    var l, r := WrappedOf(xs + ys), WrappedOf(xs) + WrappedOf(ys);
    forall t | 0 <= t < |l|
      ensures l[t] == r[t]
    {
      if t < |xs| {
        assert (xs + ys)[t] == xs[t];
      } else {
        assert (xs + ys)[t] == ys[t - |xs|];
      }
    }
  }

  lemma PushesAppend(xs: seq<KnifeEntry>, ys: seq<KnifeEntry>)
    ensures PushesOf(xs + ys) == PushesOf(xs) + PushesOf(ys)
  {
    var l, r := PushesOf(xs + ys), PushesOf(xs) + PushesOf(ys);
    forall t | 0 <= t < |l|
      ensures l[t] == r[t]
    {
      if t < |xs| {
        assert (xs + ys)[t] == xs[t];
      } else {
        assert (xs + ys)[t] == ys[t - |xs|];
      }
    }
  }

  /** Reversing a run of entries reverses what they push. */
  lemma PushesReversed(es: seq<KnifeEntry>)
    ensures PushesOf(Reverse(es)) == Reverse(PushesOf(es))
  {
    ReverseMapped(es, PushesOf(es), PushesOf(Reverse(es)), Pushed);
  }

  /** Reversing a run of entries reverses what they stand for. */
  lemma WrappedReversed(es: seq<KnifeEntry>)
    ensures WrappedOf(Reverse(es)) == Reverse(WrappedOf(es))
  {
    ReverseMapped(es, WrappedOf(es), WrappedOf(Reverse(es)), Wrapped);
  }

  /**
   * A page's first `n` buffs are, counted with multiplicity, its plain buffs
   * among them together with the buffs its knife entries there stand for.
   */
  lemma {:induction false} PageSplits(page: PlantPage, n: nat)
    requires n <= |page.buffs|
    ensures multiset(page.buffs[..n]) == multiset(PlainBelow(page, n)) + multiset(WrappedOf(NeighborsBelow(page, n)))
  {
    if n > 0 {
      var i := n - 1;
      PageSplits(page, i);
      TakeSnoc(page.buffs, n);
      MultisetAppend(PlainBelow(page, i), PlainAt(page, i));
      WrappedAppend(NeighborsBelow(page, i), NeighborAt(page, i));
      MultisetAppend(WrappedOf(NeighborsBelow(page, i)), WrappedOf(NeighborAt(page, i)));
      PositionSplits(page, i);
      SplitStep(multiset(page.buffs[..i]), multiset(PlainBelow(page, i)), multiset(WrappedOf(NeighborsBelow(page, i))),
                multiset{page.buffs[i]}, multiset(PlainAt(page, i)), multiset(WrappedOf(NeighborAt(page, i))));
    } else {
      assert page.buffs[..0] == [];
    }
  }

  /** The buff at one position is either kept as plain or stood for by its knife entry. */
  lemma PositionSplits(page: PlantPage, i: nat)
    requires i < |page.buffs|
    ensures multiset(PlainAt(page, i)) + multiset(WrappedOf(NeighborAt(page, i))) == multiset{page.buffs[i]}
  {
    if page.buffs[i].0.Neighbor? {
      assert WrappedOf(NeighborAt(page, i)) == [page.buffs[i]];
    } else {
      assert WrappedOf(NeighborAt(page, i)) == [];
    }
  }

  lemma SplitStep<T>(whole: multiset<T>, plain: multiset<T>, wrapped: multiset<T>, x: multiset<T>, px: multiset<T>, wx: multiset<T>)
    requires whole == plain + wrapped && px + wx == x
    ensures whole + x == (plain + px) + (wrapped + wx)
  {
  }

  /**
   * A page's own entries taken from the highest position down, each standing
   * for the buff at its position: none panics, and together they take away
   * exactly the buffs they stand for.
   */
  lemma {:induction false} OwnRemovalsTake(cur: PlantPage, own: seq<KnifeEntry>)
    requires forall t :: 0 <= t < |own| ==> own[t].1.tile == cur.tile
    requires forall t, u :: 0 <= t < u < |own| ==> own[t].0 > own[u].0
    requires forall t :: 0 <= t < |own| ==> own[t].0 < |cur.buffs| && cur.buffs[own[t].0] == Wrapped(own[t])
    ensures PageAfter(cur, own).Some?
    ensures multiset(PageAfter(cur, own).value.buffs) == multiset(cur.buffs) - multiset(WrappedOf(own))
    decreases |own|
  {
    if own == [] {
      assert WrappedOf(own) == [];
    } else {
      var e := own[0];
      var next := cur.(buffs := SwapRemove(cur.buffs, e.0));
      assert PageStep(cur, e) == Some(next);
      assert PageAfter(cur, own) == PageAfter(next, own[1..]);
      forall t | 0 <= t < |own[1..]|
        ensures own[1..][t].0 < |next.buffs| && next.buffs[own[1..][t].0] == Wrapped(own[1..][t])
      {
        assert own[1..][t] == own[t + 1];
        assert own[t + 1].0 < e.0;
      }
      OwnRemovalsTake(next, own[1..]);
      SwapRemoveMultiset(cur.buffs, e.0);
      assert WrappedOf(own) == [Wrapped(e)] + WrappedOf(own[1..]);
    }
  }

  /** Taking away what was added on top of a kept part leaves the kept part with the rest. */
  lemma MultisetDelivery<T>(kept: multiset<T>, taken: multiset<T>, before: multiset<T>, after: multiset<T>)
    ensures ((kept + taken) + before - taken) + after == kept + (after + before)
  {
  }

  /**
   * A page's round in three phases, drained back to front: entries from other
   * pages push, its own entries take away what they stand for from the
   * highest position down, and more entries from other pages push.
   */
  lemma ThreePhasesDelivered(page: PlantPage, z: seq<KnifeEntry>, own: seq<KnifeEntry>, a: seq<KnifeEntry>)
    requires forall t :: 0 <= t < |z| ==> z[t].1.tile != page.tile
    requires forall t :: 0 <= t < |a| ==> a[t].1.tile != page.tile
    requires forall t :: 0 <= t < |own| ==> own[t].1.tile == page.tile
    requires forall t, u :: 0 <= t < u < |own| ==> own[t].0 > own[u].0
    requires forall t :: 0 <= t < |own| ==> own[t].0 < |page.buffs| && page.buffs[own[t].0] == Wrapped(own[t])
    ensures PageAfter(page, z + (own + a)).Some?
    ensures multiset(PageAfter(page, z + (own + a)).value.buffs)
      == (multiset(page.buffs) + multiset(PushesOf(z)) - multiset(WrappedOf(own))) + multiset(PushesOf(a))
  {
    OffTileAppends(page, z);
    var cur := page.(buffs := page.buffs + PushesOf(z));
    PageAfterAppend(page, z, own + a);
    PageAfterAppend(cur, own, a);
    OwnRemovalsTake(cur, own);
    var mid := PageAfter(cur, own).value;
    OffTileAppends(mid, a);
    MultisetAppend(page.buffs, PushesOf(z));
    MultisetAppend(mid.buffs, PushesOf(a));
  }

  /** One page's round drained back to front, from the two runs of entries of the other pages in knife order. */
  lemma PagePhasesDelivered(page: PlantPage, a: seq<KnifeEntry>, b: seq<KnifeEntry>)
    requires forall t :: 0 <= t < |a| ==> a[t].1.tile != page.tile
    requires forall t :: 0 <= t < |b| ==> b[t].1.tile != page.tile
    ensures PageAfter(page, Reverse(b) + (Reverse(PageNeighbors(page)) + Reverse(a))).Some?
    ensures multiset(PageAfter(page, Reverse(b) + (Reverse(PageNeighbors(page)) + Reverse(a))).value.buffs)
      == multiset(PlainBuffs(page)) + multiset(PushesOf(a + b))
  {
    var own := PageNeighbors(page);
    var r := PageAfter(page, Reverse(b) + (Reverse(own) + Reverse(a)));
    assert r.Some? && multiset(r.value.buffs) ==
      (multiset(page.buffs) + multiset(PushesOf(Reverse(b))) - multiset(WrappedOf(Reverse(own)))) + multiset(PushesOf(Reverse(a))) by {
      OffTileReversed(a, page.tile);
      OffTileReversed(b, page.tile);
      OwnPointsReversed(page);
      ThreePhasesDelivered(page, Reverse(b), Reverse(own), Reverse(a));
    }
    PageSplitsAll(page);
    ReversedCounts(own, a, b);
    MultisetDelivery(multiset(PlainBuffs(page)), multiset(WrappedOf(own)), multiset(PushesOf(b)), multiset(PushesOf(a)));
  }

  /** A page's buffs are, counted with multiplicity, its plain buffs together with the buffs its knife entries stand for. */
  lemma PageSplitsAll(page: PlantPage)
    ensures multiset(page.buffs) == multiset(PlainBuffs(page)) + multiset(WrappedOf(PageNeighbors(page)))
  {
    PageSplits(page, |page.buffs|);
    assert page.buffs[..|page.buffs|] == page.buffs;
  }

  lemma OffTileReversed(es: seq<KnifeEntry>, tile: Identifiers.TileId)
    requires forall t :: 0 <= t < |es| ==> es[t].1.tile != tile
    ensures forall t :: 0 <= t < |Reverse(es)| ==> Reverse(es)[t].1.tile != tile
  {
    assert forall t :: 0 <= t < |Reverse(es)| ==> Reverse(es)[t] == es[|es| - 1 - t];
  }

  /** A page's own entries, reversed: on its tile, positions decreasing, each standing for the buff at its position. */
  lemma OwnPointsReversed(page: PlantPage)
    ensures forall t :: 0 <= t < |Reverse(PageNeighbors(page))| ==> Reverse(PageNeighbors(page))[t].1.tile == page.tile
    ensures forall t, u :: 0 <= t < u < |Reverse(PageNeighbors(page))| ==>
      Reverse(PageNeighbors(page))[t].0 > Reverse(PageNeighbors(page))[u].0
    ensures forall t :: 0 <= t < |Reverse(PageNeighbors(page))| ==>
      && Reverse(PageNeighbors(page))[t].0 < |page.buffs|
      && page.buffs[Reverse(PageNeighbors(page))[t].0] == Wrapped(Reverse(PageNeighbors(page))[t])
  {
    var own := PageNeighbors(page);
    var rown := Reverse(own);
    NeighborsBelowSpec(page, |page.buffs|);
    OwnReversed(own, page.tile);
    forall t | 0 <= t < |rown|
      ensures rown[t].0 < |page.buffs| && page.buffs[rown[t].0] == Wrapped(rown[t])
    {
      var e := own[|own| - 1 - t];
      assert rown[t] == e;
      assert page.buffs[e.0].0 == Buffs.Neighbor(e.1.buff) && e.1.source == page.buffs[e.0].1;
    }
  }

  /** Draining runs of entries back to front changes none of the counts. */
  lemma ReversedCounts(own: seq<KnifeEntry>, a: seq<KnifeEntry>, b: seq<KnifeEntry>)
    ensures multiset(WrappedOf(Reverse(own))) == multiset(WrappedOf(own))
    ensures multiset(PushesOf(Reverse(a))) == multiset(PushesOf(a))
    ensures multiset(PushesOf(Reverse(b))) == multiset(PushesOf(b))
    ensures multiset(PushesOf(a + b)) == multiset(PushesOf(a)) + multiset(PushesOf(b))
  {
    WrappedReversed(own);
    PushesReversed(a);
    PushesReversed(b);
    MultisetReverse(WrappedOf(own));
    MultisetReverse(PushesOf(a));
    MultisetReverse(PushesOf(b));
    PushesAppend(a, b);
    MultisetAppend(PushesOf(a), PushesOf(b));
  }

  /**
   * With the knife drained back to front, page `q` does not panic and ends
   * with, counted with multiplicity, exactly its plain buffs and one pushed
   * buff for every knife entry from another page.
   */
  lemma PageDelivered(pages: seq<PlantPage>, q: nat)
    requires TilesDistinct(pages) && q < |pages|
    ensures PageAfter(pages[q], Reverse(IndexedNeighbors(pages))).Some?
    ensures multiset(PageAfter(pages[q], Reverse(IndexedNeighbors(pages))).value.buffs)
      == multiset(PlainBuffs(pages[q])) + multiset(PushesOf(OthersOf(pages, q)))
  {
    var a, b := IndexedNeighbors(pages[0..q]), IndexedNeighbors(pages[q + 1..|pages|]);
    assert forall t :: 0 <= t < |a| ==> a[t].1.tile != pages[q].tile by {
      OtherPagesPush(pages, 0, q, q);
    }
    assert forall t :: 0 <= t < |b| ==> b[t].1.tile != pages[q].tile by {
      OtherPagesPush(pages, q + 1, |pages|, q);
    }
    ReversedSplit(pages, q);
    PagePhasesDelivered(pages[q], a, b);
  }

  /**
   * The corrected round delivers: with the knife drained back to front, every
   * page loses exactly its `Neighbor` buffs and gains, once each, the buff
   * pushed by every `Neighbor` buff of every other page.
   */
  lemma RoundDelivers(pages: seq<PlantPage>)
    requires TilesDistinct(pages)
    ensures Round(pages, Reverse(IndexedNeighbors(pages))).Some?
    ensures forall q :: 0 <= q < |pages| ==>
      multiset(Round(pages, Reverse(IndexedNeighbors(pages))).value[q].buffs)
        == multiset(PlainBuffs(pages[q])) + multiset(PushesOf(OthersOf(pages, q)))
  {
    forall q | 0 <= q < |pages|
      ensures PageAfter(pages[q], Reverse(IndexedNeighbors(pages))).Some?
    {
      PageDelivered(pages, q);
    }
    forall q | 0 <= q < |pages|
      ensures multiset(Round(pages, Reverse(IndexedNeighbors(pages))).value[q].buffs)
        == multiset(PlainBuffs(pages[q])) + multiset(PushesOf(OthersOf(pages, q)))
    {
      PageDelivered(pages, q);
    }
  }
}
