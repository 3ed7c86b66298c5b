/** The orderings the services rely on: JavaScript's default `sort()` on
    strings (modelled as lexicographic code-point order), the numeric comparator sorts
    `(a, b) => a - b` and `(a, b) => b - a`, and Python's stable
    `sorted(..., reverse=True)`.  The library sorts are modelled by insertion
    sorts that have the same observable result: sorted, a permutation, and
    (for the keyed sort) stable. */
module Ordenacao {
  import Seqs

  // ---------------------------------------------------------------------
  // Lexicographic order on strings

  /** `a` sorts strictly before `b` under `Array.prototype.sort()`. */
  predicate LexLess(a: string, b: string)
    decreases |a|
  {
    |b| > 0 && (|a| == 0 || a[0] < b[0] || (a[0] == b[0] && LexLess(a[1..], b[1..])))
  }

  lemma {:induction false} LexIrreflexive(a: string)
    ensures !LexLess(a, a)
    decreases |a|
  {
    if |a| > 0 {
      LexIrreflexive(a[1..]);
    }
  }

  lemma {:induction false} LexTransitive(a: string, b: string, c: string)
    requires LexLess(a, b) && LexLess(b, c)
    ensures LexLess(a, c)
    decreases |a|
  {
    if |a| > 0 && a[0] == b[0] && b[0] == c[0] {
      LexTransitive(a[1..], b[1..], c[1..]);
    }
  }

  lemma {:induction false} LexTotal(a: string, b: string)
    requires a != b
    ensures LexLess(a, b) || LexLess(b, a)
    decreases |a|
  {
    if |a| > 0 && |b| > 0 && a[0] == b[0] {
      assert a == [a[0]] + a[1..] && b == [b[0]] + b[1..];
      LexTotal(a[1..], b[1..]);
    }
  }

  /** Strictly increasing in lexicographic order (so also free of repeats). */
  predicate StrictlySortedLex(s: seq<string>) {
    forall i, j :: 0 <= i < j < |s| ==> LexLess(s[i], s[j])
  }

  /** Non-decreasing in lexicographic order. */
  predicate SortedLex(s: seq<string>) {
    forall i, j :: 0 <= i < j < |s| ==> s[i] == s[j] || LexLess(s[i], s[j])
  }

  /** Inserts `x` after every element that does not sort after it. */
  function InsertLex(r: seq<string>, x: string): (t: seq<string>)
    ensures multiset(t) == multiset(r) + multiset{x}
    decreases |r|
  {
    if |r| == 0 then [x]
    else if r[|r| - 1] == x || LexLess(r[|r| - 1], x) then r + [x]
    else
      assert r == r[..|r| - 1] + [r[|r| - 1]];
      InsertLex(r[..|r| - 1], x) + [r[|r| - 1]]
  }

  /** Every element of a sorted `r` is at most its last one. */
  lemma SortedLexLast(r: seq<string>, i: int)
    requires SortedLex(r) && 0 <= i < |r|
    ensures r[i] == r[|r| - 1] || LexLess(r[i], r[|r| - 1])
  {
    if i < |r| - 1 {
      assert r[i] == r[|r| - 1] || LexLess(r[i], r[|r| - 1]);
    }
  }

  /** Appending an upper bound of a sorted sequence keeps it sorted. */
  lemma SortedLexSnoc(t: seq<string>, y: string)
    requires SortedLex(t)
    requires forall i :: 0 <= i < |t| ==> t[i] == y || LexLess(t[i], y)
    ensures SortedLex(t + [y])
  {
    var u := t + [y];
    forall i, j | 0 <= i < j < |u| ensures u[i] == u[j] || LexLess(u[i], u[j]) {
      if j < |t| {
        assert u[i] == t[i] && u[j] == t[j];
      } else {
        assert u[i] == t[i] && u[j] == y;
      }
    }
  }

  /** An `x` not below the last element of a sorted `r` bounds all of `r`. */
  lemma LexAcimaDoUltimo(r: seq<string>, x: string)
    requires SortedLex(r) && |r| > 0
    requires r[|r| - 1] == x || LexLess(r[|r| - 1], x)
    ensures forall i :: 0 <= i < |r| ==> r[i] == x || LexLess(r[i], x)
  {
    forall i | 0 <= i < |r| ensures r[i] == x || LexLess(r[i], x) {
      SortedLexLast(r, i);
      if r[i] != r[|r| - 1] && r[|r| - 1] != x {
        LexTransitive(r[i], r[|r| - 1], x);
      }
    }
  }

  /** Inserting `x` below `last` into a prefix bounded by `last` keeps the bound. */
  lemma InsertLexAbaixo(r: seq<string>, x: string, last: string)
    requires SortedLex(r + [last]) && LexLess(x, last)
    ensures forall i :: 0 <= i < |InsertLex(r, x)| ==> InsertLex(r, x)[i] == last || LexLess(InsertLex(r, x)[i], last)
  {
    var t := InsertLex(r, x);
    forall i | 0 <= i < |t| ensures t[i] == last || LexLess(t[i], last) {
      var y := t[i];
      assert y in multiset(t);
      if y != x {
        assert y in multiset(r);
        var k :| 0 <= k < |r| && r[k] == y;
        SortedLexLast(r + [last], k);
      }
    }
  }

  lemma {:induction false} InsertLexSorted(r: seq<string>, x: string)
    requires SortedLex(r)
    ensures SortedLex(InsertLex(r, x))
    decreases |r|
  {
    if |r| == 0 {
    } else if r[|r| - 1] == x || LexLess(r[|r| - 1], x) {
      LexAcimaDoUltimo(r, x);
      SortedLexSnoc(r, x);
    } else {
      var r0 := r[..|r| - 1];
      var last := r[|r| - 1];
      assert r == r0 + [last];
      assert SortedLex(r0);
      InsertLexSorted(r0, x);
      LexTotal(x, last);
      InsertLexAbaixo(r0, x, last);
      SortedLexSnoc(InsertLex(r0, x), last);
    }
  }

  /** `Array.prototype.sort()` on strings. */
  function SortLex(s: seq<string>): (r: seq<string>)
    ensures SortedLex(r)
    ensures multiset(r) == multiset(s)
    decreases |s|
  {
    if |s| == 0 then []
    else
      assert s == s[..|s| - 1] + [s[|s| - 1]];
      InsertLexSorted(SortLex(s[..|s| - 1]), s[|s| - 1]);
      InsertLex(SortLex(s[..|s| - 1]), s[|s| - 1])
  }

  /** Sorting strings that are all different gives a strictly increasing
      sequence holding exactly those strings. */
  lemma SortLexDistinct(s: seq<string>)
    requires Seqs.NoDup(s)
    ensures StrictlySortedLex(SortLex(s))
    ensures forall x :: x in SortLex(s) <==> x in s
  {
    var r := SortLex(s);
    assert forall x :: x in r <==> x in multiset(r);
    assert forall x :: x in s <==> x in multiset(s);
    Seqs.NoDupPermutation(s, r);
    forall i, j | 0 <= i < j < |r| ensures LexLess(r[i], r[j]) {
      assert r[i] != r[j];
    }
  }

  /** `[...new Set(s)].sort()` after dropping empty values: the distinct
      non-empty strings of `s`, in increasing order. */
  function DistintosOrdenados(s: seq<string>): (r: seq<string>)
    ensures StrictlySortedLex(r)
    ensures forall x :: x in r <==> x != "" && x in s
  {
    var presente := (x: string) => x != "";
    var presentes := Seqs.Filter(s, presente);
    var unicas := Seqs.Dedup(presentes);
    SortLexDistinct(unicas);
    forall x ensures x in presentes <==> x != "" && x in s {
      Seqs.FilterMembership(s, presente, x);
    }
    SortLex(unicas)
  }

  // ---------------------------------------------------------------------
  // Stable sort by a numeric key, largest first

  /** Non-increasing in `key`. */
  predicate SortedDesc<T>(s: seq<T>, key: T -> real) {
    forall i, j :: 0 <= i < j < |s| ==> key(s[i]) >= key(s[j])
  }

  /** Inserts `x` after every element whose key is at least `key(x)`. */
  function InsertDesc<T>(r: seq<T>, x: T, key: T -> real): (t: seq<T>)
    ensures multiset(t) == multiset(r) + multiset{x}
    ensures |t| == |r| + 1
    decreases |r|
  {
    if |r| == 0 then [x]
    else if key(r[|r| - 1]) >= key(x) then r + [x]
    else
      assert r == r[..|r| - 1] + [r[|r| - 1]];
      InsertDesc(r[..|r| - 1], x, key) + [r[|r| - 1]]
  }

  /** Insertion keeps the order. */
  lemma {:induction false} InsertDescSorted<T>(r: seq<T>, x: T, key: T -> real)
    requires SortedDesc(r, key)
    ensures SortedDesc(InsertDesc(r, x, key), key)
    decreases |r|
  {
    if |r| > 0 && key(r[|r| - 1]) < key(x) {
      var r0 := r[..|r| - 1];
      var last := r[|r| - 1];
      assert r == r0 + [last];
      InsertDescSorted(r0, x, key);
      var t0 := InsertDesc(r0, x, key);
      var t := t0 + [last];
      assert InsertDesc(r, x, key) == t;
      assert forall i :: 0 <= i < |r0| ==> key(r0[i]) >= key(last) by {
        forall i | 0 <= i < |r0| ensures key(r0[i]) >= key(last) {
          assert r[i] == r0[i];
        }
      }
      InsertDescAcima(r0, x, key, key(last));
      forall i, j | 0 <= i < j < |t| ensures key(t[i]) >= key(t[j]) {
        if j == |t0| {
          assert t[i] == t0[i];
        } else {
          assert t[i] == t0[i] && t[j] == t0[j];
        }
      }
    }
  }

  /** A bound every element and `x` respect holds after the insertion. */
  lemma InsertDescAcima<T>(r: seq<T>, x: T, key: T -> real, b: real)
    requires forall i :: 0 <= i < |r| ==> key(r[i]) >= b
    requires key(x) >= b
    ensures forall i :: 0 <= i < |InsertDesc(r, x, key)| ==> key(InsertDesc(r, x, key)[i]) >= b
  {
    var t := InsertDesc(r, x, key);
    forall i | 0 <= i < |t| ensures key(t[i]) >= b {
      assert t[i] in multiset(t);
      if t[i] != x {
        assert t[i] in multiset(r);
        var k :| 0 <= k < |r| && r[k] == t[i];
      }
    }
  }

  /** A stable sort, largest key first: `sort((a, b) => key(b) - key(a))`
      and Python's `sorted(key=key, reverse=True)`. */
  function SortDesc<T>(s: seq<T>, key: T -> real): (r: seq<T>)
    ensures SortedDesc(r, key)
    ensures multiset(r) == multiset(s)
    ensures |r| == |s|
    decreases |s|
  {
    if |s| == 0 then []
    else
      assert s == s[..|s| - 1] + [s[|s| - 1]];
      InsertDescSorted(SortDesc(s[..|s| - 1], key), s[|s| - 1], key);
      InsertDesc(SortDesc(s[..|s| - 1], key), s[|s| - 1], key)
  }

  /** The elements whose key is `v`, in order. */
  function WithKey<T>(s: seq<T>, key: T -> real, v: real): seq<T> {
    Seqs.Filter(s, x => key(x) == v)
  }

  lemma WithKeyAppend<T>(a: seq<T>, b: seq<T>, key: T -> real, v: real)
    ensures WithKey(a + b, key, v) == WithKey(a, key, v) + WithKey(b, key, v)
  {
    Seqs.FilterAppend(a, b, x => key(x) == v);
  }

  /** One more element: it joins the run of its key and no other. */
  lemma WithKeySnoc<T>(s: seq<T>, y: T, key: T -> real, v: real)
    ensures WithKey(s + [y], key, v) == WithKey(s, key, v) + (if key(y) == v then [y] else [])
  {
    assert (s + [y])[..|s|] == s;
  }

  /** Inserting `x` puts it at the end of the run of its key. */
  lemma {:induction false} InsertDescStable<T>(r: seq<T>, x: T, key: T -> real, v: real)
    ensures WithKey(InsertDesc(r, x, key), key, v)
         == WithKey(r, key, v) + (if key(x) == v then [x] else [])
    decreases |r|
  {
    if |r| == 0 {
      assert InsertDesc(r, x, key) == [] + [x];
      WithKeySnoc([], x, key, v);
    } else if key(r[|r| - 1]) >= key(x) {
      assert InsertDesc(r, x, key) == r + [x];
      WithKeySnoc(r, x, key, v);
    } else {
      var r0 := r[..|r| - 1];
      var last := r[|r| - 1];
      var t0 := InsertDesc(r0, x, key);
      assert r == r0 + [last];
      assert InsertDesc(r, x, key) == t0 + [last];
      var ex := if key(x) == v then [x] else [];
      var el := if key(last) == v then [last] else [];
      assert WithKey(t0, key, v) == WithKey(r0, key, v) + ex by {
        InsertDescStable(r0, x, key, v);
      }
      WithKeySnoc(t0, last, key, v);
      WithKeySnoc(r0, last, key, v);
      assert ex == [] || el == [];
      Seqs.AppendAssoc(WithKey(r0, key, v), ex, el);
      Seqs.AppendAssoc(WithKey(r0, key, v), el, ex);
    }
  }

  /** Stability: elements with equal keys keep their input order. */
  lemma {:induction false} SortDescStable<T>(s: seq<T>, key: T -> real, v: real)
    ensures WithKey(SortDesc(s, key), key, v) == WithKey(s, key, v)
    decreases |s|
  {
    if |s| > 0 {
      var s0 := s[..|s| - 1];
      SortDescStable(s0, key, v);
      InsertDescStable(SortDesc(s0, key), s[|s| - 1], key, v);
    }
  }

  // ---------------------------------------------------------------------
  // Ascending numeric sort

  /** Non-decreasing. */
  predicate SortedAsc(s: seq<real>) {
    forall i, j :: 0 <= i < j < |s| ==> s[i] <= s[j]
  }

  /** Two ascending lists holding the same values are the same list. */
  lemma {:induction false} SortedAscUnico(a: seq<real>, b: seq<real>)
    requires SortedAsc(a) && SortedAsc(b)
    requires multiset(a) == multiset(b)
    ensures a == b
    decreases |a|
  {
    assert |a| == |b| by {
      assert |multiset(a)| == |multiset(b)|;
    }
    if |a| > 0 {
      var n := |a| - 1;
      var a0, b0 := a[..n], b[..n];
      assert a[n] == b[n] by {
        MaioresIguais(a, b);
      }
      assert multiset(a0) == multiset(b0) by {
        SemUltimo(a);
        SemUltimo(b);
      }
      assert SortedAsc(a0) && SortedAsc(b0) by {
        PrefixoOrdenado(a);
        PrefixoOrdenado(b);
      }
      SortedAscUnico(a0, b0);
      assert a == a0 + [a[n]];
      assert b == b0 + [b[n]];
    }
  }

  lemma PrefixoOrdenado(s: seq<real>)
    requires SortedAsc(s) && |s| > 0
    ensures SortedAsc(s[..|s| - 1])
  {
  }

  /** Ascending lists holding the same values end in the same value. */
  lemma MaioresIguais(a: seq<real>, b: seq<real>)
    requires SortedAsc(a) && SortedAsc(b)
    requires multiset(a) == multiset(b) && |a| == |b| > 0
    ensures a[|a| - 1] == b[|b| - 1]
  {
    var x, y := a[|a| - 1], b[|b| - 1];
    assert x in multiset(b);
    var j :| 0 <= j < |b| && b[j] == x;
    assert y in multiset(a);
    var i :| 0 <= i < |a| && a[i] == y;
  }

  lemma SemUltimo(s: seq<real>)
    requires |s| > 0
    ensures multiset(s[..|s| - 1]) == multiset(s) - multiset{s[|s| - 1]}
  {
    assert s == s[..|s| - 1] + [s[|s| - 1]];
  }

  /** `values.sort((a, b) => a - b)`: the descending sort on the negated value. */
  function SortAsc(s: seq<real>): (r: seq<real>)
    ensures SortedAsc(r)
    ensures multiset(r) == multiset(s)
    ensures |r| == |s|
  {
    SortDesc(s, x => -x)
  }
}
