// Sequence and text helpers shared by the modules: the iterator adaptors
// (`position`, `filter`, `filter_map`), `Vec::swap_remove`, `join` and
// decimal formatting of unsigned integers.
module Seqs {
  import opened Wrappers

  /** `Iterator::position`: the index of the first element satisfying `p`. */
  function FirstIndex<T>(s: seq<T>, p: T -> bool): (r: Option<nat>)
    ensures r.Some? ==> r.value < |s| && p(s[r.value])
    ensures r.Some? ==> forall j :: 0 <= j < r.value ==> !p(s[j])
    ensures r.None? ==> forall j :: 0 <= j < |s| ==> !p(s[j])
  {
    if s == [] then None
    else if p(s[0]) then Some(0)
    else match FirstIndex(s[1..], p)
      case None => None
      case Some(k) => Some(k + 1)
  }

  /** `Iterator::filter`, keeping the order of `s`. */
  function Filter<T(!new)>(s: seq<T>, p: T -> bool): (r: seq<T>)
    ensures |r| <= |s|
    ensures forall x :: x in r <==> x in s && p(x)
  {
    if s == [] then []
    else if p(s[0]) then [s[0]] + Filter(s[1..], p)
    else Filter(s[1..], p)
  }

  /** `Iterator::filter_map`, keeping the order of `s`. */
  function FilterMap<T(!new), U(!new)>(s: seq<T>, f: T -> Option<U>): (r: seq<U>)
    ensures |r| <= |s|
    ensures forall y :: y in r <==> exists x :: x in s && f(x) == Some(y)
  {
    if s == [] then []
    else match f(s[0])
      case Some(y) => [y] + FilterMap(s[1..], f)
      case None => FilterMap(s[1..], f)
  }

  /** Filtering a concatenation filters each part in turn. */
  lemma {:induction false} FilterAppend<T(!new)>(a: seq<T>, b: seq<T>, p: T -> bool)
    ensures Filter(a + b, p) == Filter(a, p) + Filter(b, p)
  {
    if a == [] {
      assert a + b == b;
    } else {
      var ab := a + b;
      assert ab[0] == a[0] && ab[1..] == a[1..] + b;
      FilterAppend(a[1..], b, p);
      if p(a[0]) {
        assert Filter(ab, p) == [a[0]] + Filter(ab[1..], p);
        assert Filter(a, p) == [a[0]] + Filter(a[1..], p);
        ConcatAssoc([a[0]], Filter(a[1..], p), Filter(b, p));
      } else {
        assert Filter(ab, p) == Filter(ab[1..], p);
        assert Filter(a, p) == Filter(a[1..], p);
      }
    }
  }

  /** `filter_map` over a concatenation maps each part in turn. */
  lemma {:induction false} FilterMapAppend<T(!new), U(!new)>(a: seq<T>, b: seq<T>, f: T -> Option<U>)
    ensures FilterMap(a + b, f) == FilterMap(a, f) + FilterMap(b, f)
  {
    if a == [] {
      assert a + b == b;
    } else {
      var ab := a + b;
      assert ab[0] == a[0] && ab[1..] == a[1..] + b;
      FilterMapAppend(a[1..], b, f);
      match f(a[0])
      case None =>
        assert FilterMap(ab, f) == FilterMap(ab[1..], f);
        assert FilterMap(a, f) == FilterMap(a[1..], f);
      case Some(y) =>
        assert FilterMap(ab, f) == [y] + FilterMap(ab[1..], f);
        assert FilterMap(a, f) == [y] + FilterMap(a[1..], f);
        ConcatAssoc([y], FilterMap(a[1..], f), FilterMap(b, f));
    }
  }

  /** `Iterator::map` followed by `collect`. */
  function MapSeq<T, U>(s: seq<T>, f: T -> U): (r: seq<U>)
    ensures |r| == |s|
    ensures forall i :: 0 <= i < |s| ==> r[i] == f(s[i])
  {
    seq(|s|, i requires 0 <= i < |s| => f(s[i]))
  }

  /** `Iterator::enumerate`: each element paired with its position. */
  function Enumerate<T>(s: seq<T>): (r: seq<(nat, T)>)
    ensures |r| == |s|
    ensures forall i :: 0 <= i < |s| ==> r[i] == (i, s[i])
  {
    seq(|s|, i requires 0 <= i < |s| => (i, s[i]))
  }

  /**
   * `Vec::swap_remove(i)`: the element at `i` is removed and the last
   * element takes its place.
   */
  function SwapRemove<T>(s: seq<T>, i: nat): (r: seq<T>)
    requires i < |s|
    ensures |r| == |s| - 1
    ensures i < |r| ==> r[i] == s[|s| - 1]
    ensures forall j :: 0 <= j < |r| && j != i ==> r[j] == s[j]
  {
    if i == |s| - 1 then s[..i] else s[..i] + [s[|s| - 1]] + s[i + 1..|s| - 1]
  }

  /** `swap_remove` removes exactly one occurrence of the element at `i`. */
  lemma SwapRemoveMultiset<T>(s: seq<T>, i: nat)
    requires i < |s|
    ensures multiset(SwapRemove(s, i)) == multiset(s) - multiset{s[i]}
  {
    var last := |s| - 1;
    if i == last {
      assert s == s[..i] + [s[i]];
    } else {
      var a, mid := s[..i], s[i + 1..last];
      assert SwapRemove(s, i) == a + [s[last]] + mid;
      assert s == a + [s[i]] + mid + [s[last]];
      MultisetSwap(a, s[i], mid, s[last]);
    }
  }

  /** Moving the last element into the place of `x` and dropping `x` loses just `x`. */
  lemma MultisetSwap<T>(a: seq<T>, x: T, mid: seq<T>, y: T)
    ensures multiset(a + [y] + mid) == multiset(a + [x] + mid + [y]) - multiset{x}
  {
    calc {
      multiset(a + [x] + mid + [y]) - multiset{x};
      multiset(a) + multiset{x} + multiset(mid) + multiset{y} - multiset{x};
      multiset(a) + multiset{y} + multiset(mid);
      multiset(a + [y] + mid);
    }
  }

  /** A sequence is what lies before position `q`, the element there, and what lies after. */
  lemma SplitAround<T>(s: seq<T>, q: nat)
    requires q < |s|
    ensures s == (s[0..q] + [s[q]]) + s[q + 1..|s|]
  {
    assert s[0..q] == s[..q] && s[q + 1..|s|] == s[q + 1..];
  }

  lemma ConcatAssoc<T>(a: seq<T>, b: seq<T>, c: seq<T>)
    ensures (a + b) + c == a + (b + c)
  {
  }

  /** Appending `[y]` to `xs + [x]` appends the pair `[x, y]` to `xs`. */
  lemma AppendPair<T>(xs: seq<T>, x: T, y: T)
    ensures xs + [x] + [y] == xs + [x, y]
  {
  }

  function Sum(s: seq<nat>): nat
  {
    if s == [] then 0 else Sum(s[..|s| - 1]) + s[|s| - 1]
  }

  /** Extending a prefix by one element adds that element to its sum. */
  lemma SumPrefixStep(s: seq<nat>, i: nat)
    requires i < |s|
    ensures Sum(s[..i + 1]) == Sum(s[..i]) + s[i]
  {
    assert s[..i + 1][..i] == s[..i];
  }

  /** Sums of prefixes grow with the prefix, since the elements are naturals. */
  lemma {:induction false} SumPrefixMonotone(s: seq<nat>, i: nat, j: nat)
    requires i <= j <= |s|
    ensures Sum(s[..i]) <= Sum(s[..j])
  {
    if i < j {
      SumPrefixMonotone(s, i, j - 1);
      SumPrefixStep(s, j - 1);
    }
  }

  /** Iterator `join`: the parts with `sep` between each neighbouring pair. */
  function Join(parts: seq<string>, sep: string): string
  {
    if parts == [] then ""
    else if |parts| == 1 then parts[0]
    else parts[0] + sep + Join(parts[1..], sep)
  }

  /** The three runs of `a + b + c` sit where they were put. */
  lemma ThreeParts<T>(a: seq<T>, b: seq<T>, c: seq<T>)
    ensures var r := a + b + c;
      && |r| == |a| + |b| + |c|
      && r[..|a|] == a && r[|a|..|a| + |b|] == b && r[|a| + |b|..] == c
  {
  }

  /** `t` occurs in `s` as a run of consecutive elements. */
  ghost predicate Contains<T>(s: seq<T>, t: seq<T>)
  {
    exists i :: 0 <= i <= |s| - |t| && s[i..][..|t|] == t
  }

  /** An occurrence survives putting text before and after it. */
  lemma ContainsWithin<T>(a: seq<T>, s: seq<T>, b: seq<T>, t: seq<T>)
    requires Contains(s, t)
    ensures Contains(a + s + b, t)
  {
    var i :| 0 <= i <= |s| - |t| && s[i..][..|t|] == t;
    assert (a + s + b)[|a| + i..][..|t|] == s[i..][..|t|];
  }

  /** Every part shows up in the joined text. */
  lemma {:induction false} JoinContains(parts: seq<string>, sep: string, k: nat)
    requires k < |parts|
    ensures Contains(Join(parts, sep), parts[k])
  {
    if |parts| == 1 {
      assert Join(parts, sep)[0..][..|parts[0]|] == parts[0];
    } else if k == 0 {
      ContainsWithin([], parts[0], sep + Join(parts[1..], sep), parts[0]) by {
        assert parts[0][0..][..|parts[0]|] == parts[0];
      }
      assert [] + parts[0] + (sep + Join(parts[1..], sep)) == Join(parts, sep);
    } else {
      JoinContains(parts[1..], sep, k - 1);
      ContainsWithin(parts[0] + sep, Join(parts[1..], sep), [], parts[k]);
      assert parts[0] + sep + Join(parts[1..], sep) + [] == Join(parts, sep);
    }
  }

  function Reverse<T>(s: seq<T>): (r: seq<T>)
    ensures |r| == |s|
    ensures forall i :: 0 <= i < |s| ==> r[i] == s[|s| - 1 - i]
  {
    if s == [] then [] else [s[|s| - 1]] + Reverse(s[..|s| - 1])
  }

  /** The first `n` elements count as the first `n - 1` and the `n`-th. */
  lemma TakeSnoc<T>(s: seq<T>, n: nat)
    requires 0 < n <= |s|
    ensures multiset(s[..n]) == multiset(s[..n - 1]) + multiset{s[n - 1]}
  {
    assert s[..n] == s[..n - 1] + [s[n - 1]];
  }

  lemma MultisetAppend<T>(a: seq<T>, b: seq<T>)
    ensures multiset(a + b) == multiset(a) + multiset(b)
  {
  }

  /** If `r` maps `s` element by element, then `m`, mapping `Reverse(s)` the same way, is `Reverse(r)`. */
  lemma ReverseMapped<T, U>(s: seq<T>, r: seq<U>, m: seq<U>, f: T -> U)
    requires |r| == |s| && forall t :: 0 <= t < |s| ==> r[t] == f(s[t])
    requires |m| == |s| && forall t :: 0 <= t < |s| ==> m[t] == f(Reverse(s)[t])
    ensures m == Reverse(r)
  {
    forall t | 0 <= t < |s|
      ensures m[t] == Reverse(r)[t]
    {
      assert Reverse(s)[t] == s[|s| - 1 - t];
    }
  }

  /** Reversing keeps every element and how often it occurs. */
  lemma {:induction false} MultisetReverse<T>(s: seq<T>)
    ensures multiset(Reverse(s)) == multiset(s)
    decreases |s|
  {
    if s != [] {
      var init := s[..|s| - 1];
      MultisetReverse(init);
      assert s == init + [s[|s| - 1]];
    }
  }

  function Digit(d: nat): char
    requires d < 10
  {
    "0123456789"[d]
  }

  /** Decimal formatting of an unsigned integer (Rust's `{}` for `usize`/`u64`). */
  function NatToString(n: nat): (r: string)
    ensures 1 <= |r|
    ensures forall i :: 0 <= i < |r| ==> '0' <= r[i] <= '9'
    ensures n >= 10 <==> |r| > 1
  {
    if n < 10 then [Digit(n)] else NatToString(n / 10) + [Digit(n % 10)]
  }

  lemma DigitInjective(a: nat, b: nat)
    requires a < 10 && b < 10 && Digit(a) == Digit(b)
    ensures a == b
  {
  }

  /** Different numbers are formatted differently. */
  lemma {:induction false} NatToStringInjective(a: nat, b: nat)
    requires NatToString(a) == NatToString(b)
    ensures a == b
  {
    var s := NatToString(a);
    if a < 10 {
      DigitInjective(a, b);
    } else {
      assert s[..|s| - 1] == NatToString(a / 10) && s[|s| - 1] == Digit(a % 10);
      assert s[..|s| - 1] == NatToString(b / 10) && s[|s| - 1] == Digit(b % 10);
      NatToStringInjective(a / 10, b / 10);
      DigitInjective(a % 10, b % 10);
    }
  }

  /** Element `k` of `leaves` is the first one on which `f` fails. */
  ghost predicate FirstFailure<I, T, E>(leaves: seq<I>, f: I -> Result<T, E>, k: nat)
  {
    k < |leaves| && f(leaves[k]).Err? && forall j :: 0 <= j < k ==> f(leaves[j]).Ok?
  }

  /**
   * `r` is what mapping `src` through `f` with first-error short-circuiting
   * gives: the images in order when every call succeeds, else the first error.
   */
  ghost predicate Agrees<I, T, E>(src: seq<I>, f: I -> Result<T, E>, r: Result<seq<T>, E>)
  {
    && (r.Ok? ==> |r.value| == |src| && forall k :: 0 <= k < |src| ==> f(src[k]) == Ok(r.value[k]))
    && (r.Err? ==> exists k: nat :: FirstFailure(src, f, k) && r.error == f(src[k]).error)
  }

  function Combine<T, E>(a: Result<seq<T>, E>, b: Result<seq<T>, E>): Result<seq<T>, E>
  {
    if a.Err? then a else if b.Err? then b else Ok(a.value + b.value)
  }

  /** Short-circuiting over two parts in turn short-circuits over their concatenation. */
  lemma AgreesConcat<I, T, E>(a: seq<I>, b: seq<I>, f: I -> Result<T, E>, ra: Result<seq<T>, E>, rb: Result<seq<T>, E>)
    requires Agrees(a, f, ra) && Agrees(b, f, rb)
    ensures Agrees(a + b, f, Combine(ra, rb))
  {
    var r := Combine(ra, rb);
    if ra.Err? {
      var k: nat :| FirstFailure(a, f, k) && ra.error == f(a[k]).error;
      assert FirstFailure(a + b, f, k);
    } else if rb.Err? {
      var k: nat :| FirstFailure(b, f, k) && rb.error == f(b[k]).error;
      assert (a + b)[|a| + k] == b[k];
      forall j | 0 <= j < |a| + k ensures f((a + b)[j]).Ok? {
        if j < |a| {
          assert f(a[j]) == Ok(ra.value[j]);
        } else {
          assert (a + b)[j] == b[j - |a|];
        }
      }
      assert FirstFailure(a + b, f, |a| + k);
    } else {
      assert forall k :: 0 <= k < |a + b| ==> f((a + b)[k]) == Ok(r.value[k]) by {
        forall k | 0 <= k < |a + b| ensures f((a + b)[k]) == Ok(r.value[k]) {
          if k >= |a| {
            assert (a + b)[k] == b[k - |a|];
          }
        }
      }
    }
  }

  /**
   * `collect::<Result<Vec<_>, _>>()` over `xs.map(f)`: every image in order,
   * or the first error.
   */
  function Collect<T, U, E>(xs: seq<T>, f: T -> Result<U, E>): (r: Result<seq<U>, E>)
    ensures Agrees(xs, f, r)
  {
    if xs == [] then Ok([])
    else
      var head := match f(xs[0]) case Ok(v) => Ok([v]) case Err(err) => Err(err);
      var tail := Collect(xs[1..], f);
      assert Agrees([xs[0]], f, head) by {
        if head.Err? {
          assert FirstFailure([xs[0]], f, 0);
        }
      }
      AgreesConcat([xs[0]], xs[1..], f, head, tail);
      assert [xs[0]] + xs[1..] == xs;
      match f(xs[0])
      case Err(err) => Err(err)
      case Ok(v) =>
        match tail
        case Err(err) => Err(err)
        case Ok(vs) => Ok([v] + vs)
  }

  /** `Agrees` decides success: Ok exactly when `f` succeeds on every element. */
  lemma AgreesOk<I, T, E>(src: seq<I>, f: I -> Result<T, E>, r: Result<seq<T>, E>)
    requires Agrees(src, f, r)
    ensures r.Ok? <==> forall k :: 0 <= k < |src| ==> f(src[k]).Ok?
  {
    if r.Err? {
      var k: nat :| FirstFailure(src, f, k);
      assert !f(src[k]).Ok?;
    }
  }

  /** `Agrees` over an enumeration, read back position by position. */
  lemma AgreesEnumerated<T, U, E>(xs: seq<T>, f: ((nat, T)) -> Result<U, E>, r: Result<seq<U>, E>)
    requires Agrees(Enumerate(xs), f, r)
    ensures r.Ok? <==> forall k :: 0 <= k < |xs| ==> f((k, xs[k])).Ok?
    ensures r.Ok? ==> (|r.value| == |xs| && forall k :: 0 <= k < |xs| ==> f((k, xs[k])) == Ok(r.value[k]))
    ensures r.Err? ==> exists k: nat :: FirstFailure(Enumerate(xs), f, k) && k < |xs| && r.error == f((k, xs[k])).error
  {
    var en := Enumerate(xs);
    AgreesOk(en, f, r);
    assert forall k :: 0 <= k < |xs| ==> en[k] == (k, xs[k]);
  }
}
