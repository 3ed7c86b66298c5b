/** Sequence helpers shared by the services and converters: order-keeping
    filtering (`Array.prototype.filter`, Python comprehensions), subsequences,
    de-duplication (`new Set(...)` keeps first occurrences), flattening and
    JavaScript's `slice`. */
module Seqs {
  import opened Base

  /** The elements of `s` that satisfy `p`, in their original order. */
  function Filter<T>(s: seq<T>, p: T -> bool): (r: seq<T>)
    ensures |r| <= |s|
    ensures forall i :: 0 <= i < |r| ==> p(r[i])
    decreases |s|
  {
    if |s| == 0 then []
    else Filter(s[..|s| - 1], p) + (if p(s[|s| - 1]) then [s[|s| - 1]] else [])
  }

  lemma {:induction false} FilterAppend<T>(s: seq<T>, t: seq<T>, p: T -> bool)
    ensures Filter(s + t, p) == Filter(s, p) + Filter(t, p)
    decreases |t|
  {
    if |t| == 0 {
      assert s + t == s;
    } else {
      var t0 := t[..|t| - 1];
      assert (s + t)[..|s + t| - 1] == s + t0;
      FilterAppend(s, t0, p);
    }
  }

  lemma {:induction false} FilterMembership<T>(s: seq<T>, p: T -> bool, x: T)
    ensures x in Filter(s, p) <==> x in s && p(x)
    decreases |s|
  {
    if |s| > 0 {
      var s0 := s[..|s| - 1];
      assert s == s0 + [s[|s| - 1]];
      FilterMembership(s0, p, x);
    }
  }

  /** Filtering keeps as many copies of each element as `s` has, or none. */
  lemma {:induction false} FilterMultiset<T>(s: seq<T>, p: T -> bool, x: T)
    ensures multiset(Filter(s, p))[x] == if p(x) then multiset(s)[x] else 0
    decreases |s|
  {
    if |s| > 0 {
      var s0 := s[..|s| - 1];
      assert s == s0 + [s[|s| - 1]];
      FilterMultiset(s0, p, x);
    }
  }

  /** A filter whose predicate holds everywhere returns its input unchanged. */
  lemma {:induction false} FilterAll<T>(s: seq<T>, p: T -> bool)
    requires forall i :: 0 <= i < |s| ==> p(s[i])
    ensures Filter(s, p) == s
    decreases |s|
  {
    if |s| > 0 {
      FilterAll(s[..|s| - 1], p);
    }
  }

  /** A filter whose predicate holds nowhere returns nothing. */
  lemma {:induction false} FilterNone<T>(s: seq<T>, p: T -> bool)
    requires forall i :: 0 <= i < |s| ==> !p(s[i])
    ensures Filter(s, p) == []
    decreases |s|
  {
    if |s| > 0 {
      FilterNone(s[..|s| - 1], p);
    }
  }

  /** Filtering twice with the same predicate is filtering once. */
  lemma FilterIdempotent<T>(s: seq<T>, p: T -> bool)
    ensures Filter(Filter(s, p), p) == Filter(s, p)
  {
    FilterAll(Filter(s, p), p);
  }

  /** Two chained filters are one filter on the conjunction. */
  lemma {:induction false} FilterFilter<T>(s: seq<T>, p: T -> bool, q: T -> bool)
    ensures Filter(Filter(s, p), q) == Filter(s, x => p(x) && q(x))
    decreases |s|
  {
    if |s| > 0 {
      var s0 := s[..|s| - 1];
      var x := s[|s| - 1];
      FilterFilter(s0, p, q);
      FilterAppend(Filter(s0, p), if p(x) then [x] else [], q);
    }
  }

  /** Filters whose predicates agree on the elements of `s` agree on `s`. */
  lemma {:induction false} FilterExt<T>(s: seq<T>, p: T -> bool, q: T -> bool)
    requires forall i :: 0 <= i < |s| ==> p(s[i]) == q(s[i])
    ensures Filter(s, p) == Filter(s, q)
    decreases |s|
  {
    if |s| > 0 {
      FilterExt(s[..|s| - 1], p, q);
    }
  }

  /** One optional filter step (`if (active) result = result.filter(p)`);
      `None` is a step that is switched off. */
  function Stage<T>(s: seq<T>, stage: Option<T -> bool>): seq<T> {
    match stage
    case None => s
    case Some(p) => Filter(s, p)
  }

  /** The step `p`, switched on when `active` holds. */
  function Gate<T>(active: bool, p: T -> bool): Option<T -> bool> {
    if active then Some(p) else None
  }

  lemma GatePasses<T>(active: bool, p: T -> bool, x: T)
    ensures Passes(Gate(active, p), x) == (active ==> p(x))
  {
  }

  /** `x` passes the step, or the step is switched off. */
  predicate Passes<T>(stage: Option<T -> bool>, x: T) {
    stage.Some? ==> stage.value(x)
  }

  lemma StageMembership<T>(s: seq<T>, stage: Option<T -> bool>, x: T)
    ensures x in Stage(s, stage) <==> x in s && Passes(stage, x)
  {
    if stage.Some? {
      FilterMembership(s, stage.value, x);
    }
  }

  /** A step every element passes leaves the sequence as it is. */
  lemma StageAll<T>(s: seq<T>, stage: Option<T -> bool>)
    requires forall x :: x in s ==> Passes(stage, x)
    ensures Stage(s, stage) == s
  {
    if stage.Some? {
      forall i | 0 <= i < |s| ensures stage.value(s[i]) {
        assert s[i] in s;
      }
      FilterAll(s, stage.value);
    }
  }

  lemma StageIsSubseq<T>(s: seq<T>, stage: Option<T -> bool>)
    ensures IsSubseq(Stage(s, stage), s)
  {
    if stage.Some? {
      FilterIsSubseq(s, stage.value);
    } else {
      IsSubseqRefl(s);
    }
  }

  /** Holds of every element. */
  function Always<T>(): T -> bool {
    (x: T) => true
  }

  /** Passes `p`, then passes `stage`. */
  function Then<T>(p: T -> bool, stage: Option<T -> bool>): T -> bool {
    (x: T) => p(x) && Passes(stage, x)
  }

  lemma FilterAlways<T>(s: seq<T>)
    ensures Filter(s, Always()) == s
  {
    FilterAll(s, Always());
  }

  /** A step after a filter is one filter by both conditions, so a chain of
      steps keeps each element exactly once if it passes them all. */
  lemma StageOfFilter<T>(s: seq<T>, p: T -> bool, stage: Option<T -> bool>)
    ensures Stage(Filter(s, p), stage) == Filter(s, Then(p, stage))
  {
    match stage
    case None =>
      FilterExt(s, p, Then(p, stage));
    case Some(q) =>
      FilterFilter(s, p, q);
      FilterExt(s, x => p(x) && q(x), Then(p, stage));
  }

  /** `f` applied to each element of `s`, in order. */
  function Map<T, U>(s: seq<T>, f: T -> U): (r: seq<U>)
    ensures |r| == |s|
    ensures forall i :: 0 <= i < |s| ==> r[i] == f(s[i])
    decreases |s|
  {
    if |s| == 0 then [] else Map(s[..|s| - 1], f) + [f(s[|s| - 1])]
  }

  /** The prefix one element longer maps to one more image. */
  lemma MapSnoc<T, U>(s: seq<T>, j: nat, f: T -> U)
    requires j < |s|
    ensures Map(s[..j + 1], f) == Map(s[..j], f) + [f(s[j])]
  {
    assert s[..j + 1][..j] == s[..j];
  }

  /** Concatenation is associative. */
  lemma AppendAssoc<T>(a: seq<T>, b: seq<T>, c: seq<T>)
    ensures a + b + c == a + (b + c)
  {
  }

  /** Appending three runs one after another is appending their concatenation. */
  lemma AppendRuns<T>(a: seq<T>, b: seq<T>, c: seq<T>, d: seq<T>)
    ensures a + b + c + d == a + (b + c + d)
  {
  }

  /** Filtering and mapping one more element of `s`: the result grows by
      that element's image exactly when it passes the filter. */
  lemma FilterMapStep<T, U>(s: seq<T>, k: nat, p: T -> bool, f: T -> U)
    requires k < |s|
    ensures Map(Filter(s[..k + 1], p), f)
         == Map(Filter(s[..k], p), f) + (if p(s[k]) then [f(s[k])] else [])
  {
    var t := s[..k + 1];
    assert t[..k] == s[..k] && t[k] == s[k];
    var a := Filter(s[..k], p);
    if p(s[k]) {
      assert Filter(t, p) == a + [s[k]];
      assert (a + [s[k]])[..|a|] == a;
    } else {
      assert Filter(t, p) == a;
    }
  }

  /** `a` is `b` with some elements removed and the rest kept in order. */
  ghost predicate IsSubseq<T>(a: seq<T>, b: seq<T>)
    decreases |b|
  {
    |a| <= |b| &&
    (|a| == 0
     || (a[|a| - 1] == b[|b| - 1] && IsSubseq(a[..|a| - 1], b[..|b| - 1]))
     || IsSubseq(a, b[..|b| - 1]))
  }

  lemma {:induction false} IsSubseqRefl<T>(s: seq<T>)
    ensures IsSubseq(s, s)
    decreases |s|
  {
    if |s| > 0 {
      IsSubseqRefl(s[..|s| - 1]);
    }
  }

  /** Removing elements twice is removing elements once. */
  lemma {:induction false} IsSubseqTrans<T>(a: seq<T>, b: seq<T>, c: seq<T>)
    requires IsSubseq(a, b) && IsSubseq(b, c)
    ensures IsSubseq(a, c)
    decreases |c|
  {
    if |a| > 0 {
      var c0 := c[..|c| - 1];
      if IsSubseq(b, c0) {
        IsSubseqTrans(a, b, c0);
      } else {
        var b0 := b[..|b| - 1];
        assert b[|b| - 1] == c[|c| - 1] && IsSubseq(b0, c0);
        if IsSubseq(a, b0) {
          IsSubseqTrans(a, b0, c0);
        } else {
          assert a[|a| - 1] == b[|b| - 1] && IsSubseq(a[..|a| - 1], b0);
          IsSubseqTrans(a[..|a| - 1], b0, c0);
        }
      }
    }
  }

  lemma {:induction false} FilterIsSubseq<T>(s: seq<T>, p: T -> bool)
    ensures IsSubseq(Filter(s, p), s)
    decreases |s|
  {
    if |s| > 0 {
      var s0 := s[..|s| - 1];
      FilterIsSubseq(s0, p);
      var a := Filter(s, p);
      if p(s[|s| - 1]) {
        assert a[..|a| - 1] == Filter(s0, p);
      } else {
        assert a == Filter(s0, p);
      }
    }
  }

  /** No element occurs twice. */
  predicate NoDup<T(==)>(s: seq<T>) {
    forall i, j :: 0 <= i < j < |s| ==> s[i] != s[j]
  }

  lemma {:induction false} NoDupOccursOnce<T>(s: seq<T>, x: T)
    requires NoDup(s) && x in s
    ensures multiset(s)[x] == 1
    decreases |s|
  {
    var s0 := s[..|s| - 1];
    assert s == s0 + [s[|s| - 1]];
    if x == s[|s| - 1] {
      assert x !in s0;
    } else {
      NoDupOccursOnce(s0, x);
    }
  }

  /** A rearrangement of a sequence without repeats has none either. */
  lemma NoDupPermutation<T>(s: seq<T>, r: seq<T>)
    requires NoDup(s) && multiset(r) == multiset(s)
    ensures NoDup(r)
  {
    forall i, j | 0 <= i < j < |r| ensures r[i] != r[j] {
      if r[i] == r[j] {
        var x := r[i];
        assert r == r[..i + 1] + r[i + 1..];
        assert x in r[..i + 1] && x in r[i + 1..] by {
          assert r[..i + 1][i] == x && r[i + 1..][j - i - 1] == x;
        }
        assert multiset(r)[x] == multiset(r[..i + 1])[x] + multiset(r[i + 1..])[x];
        assert x in multiset(s);
        NoDupOccursOnce(s, x);
      }
    }
  }

  /** The distinct elements of `s`, each at its first position
      (`[...new Set(s)]`, or the keys of an object literal). */
  function Dedup<T(==,!new)>(s: seq<T>): (r: seq<T>)
    ensures NoDup(r)
    ensures forall x :: x in r <==> x in s
    decreases |s|
  {
    if |s| == 0 then []
    else
      var s0 := s[..|s| - 1];
      assert s == s0 + [s[|s| - 1]];
      if s[|s| - 1] in s0 then Dedup(s0) else Dedup(s0) + [s[|s| - 1]]
  }

  /** The set of the values `f` picks out of the elements of `s` (a `Set`
      filled by `forEach`, skipping the elements `f` maps to `None`). */
  function Collect<T, U>(s: seq<T>, f: T -> Option<U>): set<U>
    decreases |s|
  {
    if |s| == 0 then {}
    else Collect(s[..|s| - 1], f) + (match f(s[|s| - 1]) case Some(u) => {u} case None => {})
  }

  lemma {:induction false} CollectMembership<T, U>(s: seq<T>, f: T -> Option<U>, u: U)
    ensures u in Collect(s, f) <==> exists i :: 0 <= i < |s| && f(s[i]) == Some(u)
    decreases |s|
  {
    if |s| > 0 {
      var s0 := s[..|s| - 1];
      CollectMembership(s0, f, u);
      if exists i :: 0 <= i < |s0| && f(s0[i]) == Some(u) {
        var i :| 0 <= i < |s0| && f(s0[i]) == Some(u);
        assert s[i] == s0[i];
      }
      if exists i :: 0 <= i < |s| && f(s[i]) == Some(u) {
        var i :| 0 <= i < |s| && f(s[i]) == Some(u);
        if i < |s0| {
          assert s0[i] == s[i];
        }
      }
    }
  }

  /** The prefix one element longer adds that element's value. */
  lemma CollectSnoc<T, U>(s: seq<T>, i: nat, f: T -> Option<U>)
    requires i < |s|
    ensures Collect(s[..i + 1], f) == Collect(s[..i], f) + (match f(s[i]) case Some(u) => {u} case None => {})
  {
    assert s[..i + 1][..i] == s[..i];
  }

  /** Each element adds at most one value. */
  lemma {:induction false} CollectSize<T, U>(s: seq<T>, f: T -> Option<U>)
    ensures |Collect(s, f)| <= |s|
    decreases |s|
  {
    if |s| > 0 {
      CollectSize(s[..|s| - 1], f);
    }
  }

  /** Concatenation of a sequence of sequences. */
  function Flatten<T>(ss: seq<seq<T>>): seq<T>
    decreases |ss|
  {
    if |ss| == 0 then [] else Flatten(ss[..|ss| - 1]) + ss[|ss| - 1]
  }

  /** Flattening one more sequence appends it. */
  lemma FlattenSnoc<T>(ss: seq<seq<T>>, e: seq<T>)
    ensures Flatten(ss + [e]) == Flatten(ss) + e
  {
    assert (ss + [e])[..|ss|] == ss;
  }

  function SumLengths<T>(ss: seq<seq<T>>): nat
    decreases |ss|
  {
    if |ss| == 0 then 0 else SumLengths(ss[..|ss| - 1]) + |ss[|ss| - 1]|
  }

  lemma {:induction false} FlattenLength<T>(ss: seq<seq<T>>)
    ensures |Flatten(ss)| == SumLengths(ss)
    decreases |ss|
  {
    if |ss| > 0 {
      FlattenLength(ss[..|ss| - 1]);
    }
  }

  /** Pieces of at most `k` elements flatten to at most `k` per piece. */
  lemma {:induction false} FlattenLimite<T>(ss: seq<seq<T>>, k: nat)
    requires forall i :: 0 <= i < |ss| ==> |ss[i]| <= k
    ensures |Flatten(ss)| <= k * |ss|
    decreases |ss|
  {
    if |ss| > 0 {
      var antes := ss[..|ss| - 1];
      assert forall i :: 0 <= i < |antes| ==> antes[i] == ss[i];
      FlattenLimite(antes, k);
      assert k * |ss| == k * |antes| + k;
    }
  }

  function Sum(s: seq<real>): real
    decreases |s|
  {
    if |s| == 0 then 0.0 else Sum(s[..|s| - 1]) + s[|s| - 1]
  }

  /** Resolves a `slice` bound against a length: a negative bound counts
      from the end, and the result is clamped to `0..n`. */
  function SliceBound(i: int, n: nat): (b: nat)
    ensures b <= n
    ensures 0 <= i <= n ==> b == i
    ensures i > n ==> b == n
    ensures i < 0 ==> b == if n + i < 0 then 0 else n + i
  {
    if i < 0 then (if n + i < 0 then 0 else n + i) else if i > n then n else i
  }

  /** `Array.prototype.slice(start, end)`. */
  function JsSlice<T>(s: seq<T>, start: int, end: int): (r: seq<T>)
    ensures |r| <= |s|
    ensures 0 <= start <= end <= |s| ==> r == s[start..end]
    ensures 0 <= start <= |s| <= end ==> r == s[start..]
    ensures end <= start && (0 <= end || start < 0) ==> r == []
  {
    var a := SliceBound(start, |s|);
    var b := SliceBound(end, |s|);
    if a < b then s[a..b] else []
  }

  /** The first `n` elements, or all of them when there are fewer
      (`slice(0, n)` and Python's `[:n]` for `n >= 0`). */
  function Take<T>(s: seq<T>, n: nat): (r: seq<T>)
    ensures |r| == if n < |s| then n else |s|
    ensures r == s[..|r|]
  {
    if n < |s| then s[..n] else s
  }

  /** Extending a prefix by the next element gives the next prefix. */
  lemma PrefixSnoc<T>(s: seq<T>, k: nat)
    requires k < |s|
    ensures s[..k] + [s[k]] == s[..k + 1]
  {
  }

  /** The first part of a concatenation is its prefix. */
  lemma PrefixOfAppend<T>(a: seq<T>, b: seq<T>, c: seq<T>)
    requires c == a + b
    ensures |a| <= |c| && c[..|a|] == a
  {
  }

  /** A prefix holds no more of any element than the whole. */
  lemma TakeMultiset<T>(s: seq<T>, n: nat)
    ensures multiset(Take(s, n)) <= multiset(s)
    ensures forall x :: x in Take(s, n) ==> x in s
  {
    var r := Take(s, n);
    assert s == r + s[|r|..];
    assert multiset(s) == multiset(r) + multiset(s[|r|..]);
  }
}
