/** List operations the front end performs on arrays: `filter`, the length of
    a filter, `reduce` as a sum, `slice` with JavaScript's clamping rules, and
    page slicing. */
module Seqs {
  import opened Wrappers

  /** `xs.findIndex(p)`, as an option: the first index whose element satisfies `p`. */
  function FirstIndex<T>(xs: seq<T>, p: T -> bool): (r: Option<nat>)
    ensures r.Some? ==> r.value < |xs| && p(xs[r.value])
    ensures r.Some? ==> forall k :: 0 <= k < r.value ==> !p(xs[k])
    ensures r.None? ==> forall k :: 0 <= k < |xs| ==> !p(xs[k])
  {
    if xs == [] then None
    else if p(xs[0]) then Some(0)
    else match FirstIndex(xs[1..], p)
      case None => None
      case Some(k) => Some(k + 1)
  }

  /** A first match that sits in a prefix stays the first match once the list grows. */
  lemma FirstIndexAppend<T>(xs: seq<T>, ys: seq<T>, p: T -> bool)
    ensures FirstIndex(xs, p).Some? ==> FirstIndex(xs + ys, p) == FirstIndex(xs, p)
    ensures FirstIndex(xs, p).None? ==>
      FirstIndex(xs + ys, p) == match FirstIndex(ys, p) case None => None case Some(k) => Some(|xs| + k)
  {
    match FirstIndex(xs, p)
    case Some(k) =>
      assert (xs + ys)[k] == xs[k];
    case None =>
      match FirstIndex(ys, p)
      case Some(k) =>
        assert (xs + ys)[|xs| + k] == ys[k];
      case None =>
  }

  /** `xs` can be obtained from `ys` by deleting elements. */
  ghost predicate IsSubseq<T>(xs: seq<T>, ys: seq<T>)
    decreases |ys|
  {
    if ys == [] then xs == []
    else (xs != [] && xs[0] == ys[0] && IsSubseq(xs[1..], ys[1..])) || IsSubseq(xs, ys[1..])
  }

  lemma {:induction false} IsSubseqRefl<T>(xs: seq<T>)
    ensures IsSubseq(xs, xs)
  {
    if xs != [] {
      IsSubseqRefl(xs[1..]);
    }
  }

  lemma {:induction false} IsSubseqTrans<T>(xs: seq<T>, ys: seq<T>, zs: seq<T>)
    requires IsSubseq(xs, ys) && IsSubseq(ys, zs)
    ensures IsSubseq(xs, zs)
    decreases |zs|
  {
    if zs != [] {
      if ys != [] && ys[0] == zs[0] && IsSubseq(ys[1..], zs[1..]) {
        if xs != [] && xs[0] == ys[0] && IsSubseq(xs[1..], ys[1..]) {
          IsSubseqTrans(xs[1..], ys[1..], zs[1..]);
        } else {
          IsSubseqTrans(xs, ys[1..], zs[1..]);
        }
      } else {
        IsSubseqTrans(xs, ys, zs[1..]);
      }
    }
  }

  /** `xs.filter(p)`: the elements satisfying `p`, in their order. */
  function Filter<T(!new)>(xs: seq<T>, p: T -> bool): (r: seq<T>)
    ensures |r| <= |xs|
    ensures forall x :: x in r <==> x in xs && p(x)
  {
    if xs == [] then []
    else if p(xs[0]) then [xs[0]] + Filter(xs[1..], p)
    else Filter(xs[1..], p)
  }

  /** A filter keeps the input order: its result is a subsequence of the input. */
  lemma {:induction false} FilterIsSubseq<T(!new)>(xs: seq<T>, p: T -> bool)
    ensures IsSubseq(Filter(xs, p), xs)
  {
    if xs != [] {
      FilterIsSubseq(xs[1..], p);
      if p(xs[0]) {
        assert Filter(xs, p)[1..] == Filter(xs[1..], p);
      }
    }
  }

  /** Filtering by the conjunction of two predicates is filtering twice. */
  lemma {:induction false} FilterFilter<T(!new)>(xs: seq<T>, p: T -> bool, q: T -> bool)
    ensures Filter(Filter(xs, p), q) == Filter(xs, x => p(x) && q(x))
  {
    if xs != [] {
      FilterFilter(xs[1..], p, q);
    }
  }

  /** Filtering a concatenation filters each part. */
  lemma {:induction false} FilterAppend<T(!new)>(xs: seq<T>, ys: seq<T>, p: T -> bool)
    ensures Filter(xs + ys, p) == Filter(xs, p) + Filter(ys, p)
  {
    if xs == [] {
      assert xs + ys == ys;
    } else {
      assert (xs + ys)[1..] == xs[1..] + ys;
      FilterAppend(xs[1..], ys, p);
    }
  }

  /** A predicate that holds nowhere keeps nothing. */
  lemma {:induction false} FilterNone<T(!new)>(xs: seq<T>, p: T -> bool)
    requires forall x :: x in xs ==> !p(x)
    ensures Filter(xs, p) == []
  {
    if xs != [] {
      FilterNone(xs[1..], p);
    }
  }

  /** A predicate that holds everywhere filters nothing out. */
  lemma {:induction false} FilterAll<T(!new)>(xs: seq<T>, p: T -> bool)
    requires forall x :: x in xs ==> p(x)
    ensures Filter(xs, p) == xs
  {
    if xs != [] {
      FilterAll(xs[1..], p);
    }
  }

  /** Two predicates that agree on the elements filter alike. */
  lemma {:induction false} FilterCongruent<T(!new)>(xs: seq<T>, p: T -> bool, q: T -> bool)
    requires forall x :: x in xs ==> p(x) == q(x)
    ensures Filter(xs, p) == Filter(xs, q)
  {
    if xs != [] {
      FilterCongruent(xs[1..], p, q);
    }
  }

  /** A predicate and its negation split a list: together their filters keep
      every element once. */
  lemma {:induction false} FilterComplement<T(!new)>(xs: seq<T>, p: T -> bool, q: T -> bool)
    requires forall x :: x in xs ==> q(x) == !p(x)
    ensures |Filter(xs, p)| + |Filter(xs, q)| == |xs|
  {
    if xs != [] {
      FilterComplement(xs[1..], p, q);
    }
  }

  /** `xs.filter(p).length`. */
  function Count<T(!new)>(xs: seq<T>, p: T -> bool): (n: nat)
    ensures n <= |xs|
  {
    |Filter(xs, p)|
  }

  /** `xs.reduce((s, x) => s + f(x), 0)`. */
  function Sum<T>(xs: seq<T>, f: T -> real): real {
    if xs == [] then 0.0 else Sum(xs[..|xs| - 1], f) + f(xs[|xs| - 1])
  }

  /** The sum of a concatenation is the sum of the sums. */
  lemma {:induction false} SumAppend<T>(xs: seq<T>, ys: seq<T>, f: T -> real)
    ensures Sum(xs + ys, f) == Sum(xs, f) + Sum(ys, f)
    decreases |ys|
  {
    if ys == [] {
      assert xs + ys == xs;
    } else {
      var zs := xs + ys;
      assert zs[..|zs| - 1] == xs + ys[..|ys| - 1];
      assert zs[|zs| - 1] == ys[|ys| - 1];
      SumAppend(xs, ys[..|ys| - 1], f);
    }
  }

  /** A sum of non-negative terms is non-negative. */
  lemma {:induction false} SumNonNegative<T>(xs: seq<T>, f: T -> real)
    requires forall x :: x in xs ==> f(x) >= 0.0
    ensures Sum(xs, f) >= 0.0
  {
    if xs != [] {
      SumNonNegative(xs[..|xs| - 1], f);
    }
  }

  /** The index a `slice` argument stands for: negative counts from the end,
      then clamped to `[0, len]`. */
  function SliceIndex(i: int, len: nat): (r: nat)
    ensures r <= len
    ensures 0 <= i <= len ==> r == i
    ensures i > len ==> r == len
    ensures i < 0 ==> r == if len + i < 0 then 0 else len + i
  {
    if i < 0 then (if len + i < 0 then 0 else len + i)
    else if i > len then len
    else i
  }

  /** `xs.slice(start, end)`. */
  function Slice<T>(xs: seq<T>, start: int, end: int): (r: seq<T>)
    ensures var a, b := SliceIndex(start, |xs|), SliceIndex(end, |xs|);
      r == if a < b then xs[a..b] else []
  {
    var a, b := SliceIndex(start, |xs|), SliceIndex(end, |xs|);
    if a < b then xs[a..b] else []
  }

  /** Every element of a prefix is an element of the whole. */
  lemma PrefixMembers<T>(xs: seq<T>, n: nat)
    requires n <= |xs|
    ensures forall x :: x in xs[..n] ==> x in xs
  {
    forall x | x in xs[..n]
      ensures x in xs
    {
      var k :| 0 <= k < n && xs[..n][k] == x;
      assert xs[k] == x;
    }
  }

  /** `Math.ceil(n / per)` for a positive page size. */
  function TotalPages(n: nat, per: nat): (pages: nat)
    requires per > 0
    ensures pages * per >= n
    ensures pages == 0 || (pages - 1) * per < n
    ensures pages == 0 <==> n == 0
  {
    (n + per - 1) / per
  }

  /** The items page `page` (counted from 1) shows:
      `xs.slice((page - 1) * per, page * per)`. */
  function Page<T>(xs: seq<T>, page: int, per: nat): (r: seq<T>)
    ensures |r| <= per
    ensures 1 <= page && (page - 1) * per <= |xs| ==>
      r == xs[(page - 1) * per..if page * per <= |xs| then page * per else |xs|]
  {
    Slice(xs, (page - 1) * per, page * per)
  }

  lemma MulMonotone(a: nat, b: nat, c: nat)
    requires a <= b
    ensures a * c <= b * c
  {
  }

  /** The page index of position `i` is one of the pages. */
  lemma PageNumberInRange(n: nat, per: nat, i: nat)
    requires per > 0 && i < n
    ensures i / per < TotalPages(n, per)
  {
    var q := i / per;
    var pages := TotalPages(n, per);
    assert q * per <= i;
    if pages <= q {
      MulMonotone(pages, q, per);
    }
  }

  lemma SliceAt<T>(xs: seq<T>, a: nat, b: int, m: nat)
    requires a + m < |xs| && a + m < b
    ensures m < |Slice(xs, a, b)| && Slice(xs, a, b)[m] == xs[a + m]
  {
  }

  lemma DivMod(i: nat, per: nat)
    requires per > 0
    ensures i == (i / per) * per + i % per && i % per < per
  {
  }

  /** An item at position `i` sits on page `i / per + 1`, which is a real page,
      at offset `i % per`. */
  lemma PageOfIndex<T>(xs: seq<T>, per: nat, i: nat)
    requires per > 0 && i < |xs|
    ensures 1 <= i / per + 1 <= TotalPages(|xs|, per)
    ensures var p := Page(xs, i / per + 1, per); i % per < |p| && p[i % per] == xs[i]
  {
    PageNumberInRange(|xs|, per, i);
    DivMod(i, per);
    var q, m := i / per, i % per;
    PageBounds(q, per);
    SliceAt(xs, q * per, q * per + per, m);
  }

  lemma PageBounds(q: nat, per: nat)
    ensures (q + 1 - 1) * per == q * per && (q + 1) * per == q * per + per
  {
  }
}
