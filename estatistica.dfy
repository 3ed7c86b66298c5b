/** The numeric summaries both services compute the same way: totals that
    leave out values above the outlier bound, the median, largest and
    smallest of the positive in-range values, the top-N selection and the
    sorted distinct values of a field. */
module Estatistica {
  import Seqs
  import Ordenacao
  import opened Registros

  /** A value the median, maximum and minimum are taken over: in (0, MaxValor]. */
  predicate NaFaixa(v: real) {
    0.0 < v <= MaxValor
  }

  /** Sum of the values that do not exceed the outlier bound. */
  function SomaLimitada(valores: seq<real>): real {
    Seqs.Sum(Seqs.Filter(valores, (v: real) => v <= MaxValor))
  }

  /** A value above the bound leaves the limited sum as it is; any other
      value is added to it. */
  lemma SomaLimitadaPasso(valores: seq<real>, v: real)
    ensures SomaLimitada(valores + [v]) == SomaLimitada(valores) + (if v <= MaxValor then v else 0.0)
  {
    var p := (x: real) => x <= MaxValor;
    var s := valores + [v];
    assert s[..|valores|] == valores;
    var a := Seqs.Filter(valores, p);
    if v <= MaxValor {
      assert Seqs.Filter(s, p) == a + [v];
      assert (a + [v])[..|a|] == a;
    } else {
      assert Seqs.Filter(s, p) == a;
    }
  }

  /** Limited sums of two consecutive runs of values add up. */
  lemma SomaLimitadaConcat(a: seq<real>, b: seq<real>)
    ensures SomaLimitada(a + b) == SomaLimitada(a) + SomaLimitada(b)
  {
    var p := (v: real) => v <= MaxValor;
    Seqs.FilterAppend(a, b, p);
    SomaConcat(Seqs.Filter(a, p), Seqs.Filter(b, p));
  }

  lemma {:induction false} SomaConcat(a: seq<real>, b: seq<real>)
    ensures Seqs.Sum(a + b) == Seqs.Sum(a) + Seqs.Sum(b)
    decreases |b|
  {
    if |b| == 0 {
      assert a + b == a;
    } else {
      var b0 := b[..|b| - 1];
      assert (a + b)[..|a + b| - 1] == a + b0;
      SomaConcat(a, b0);
    }
  }

  /** The middle element of an odd-length list, the mean of the two middle
      elements of an even-length one. */
  function Mediana(s: seq<real>): real
    requires |s| > 0
  {
    var meio := |s| / 2;
    if |s| % 2 == 0 then (s[meio - 1] + s[meio]) / 2.0 else s[meio]
  }

  /** Median, largest and smallest value. */
  datatype Posicao = Posicao(mediana: real, maior: real, menor: real)

  /** Median, largest and smallest of an ascending list; all 0 for an
      empty one. */
  function PosicoesOrdenadas(o: seq<real>): (p: Posicao)
    requires Ordenacao.SortedAsc(o)
    ensures |o| == 0 ==> p == Posicao(0.0, 0.0, 0.0)
    ensures |o| > 0 ==> p.menor == o[0] && p.maior == o[|o| - 1] && o[0] <= p.mediana <= o[|o| - 1]
    ensures |o| % 2 == 1 ==> p.mediana == o[|o| / 2]
    ensures |o| > 0 && |o| % 2 == 0 ==> p.mediana == (o[|o| / 2 - 1] + o[|o| / 2]) / 2.0
  {
    if |o| == 0 then Posicao(0.0, 0.0, 0.0)
    else
      var n := |o|;
      assert o[0] <= o[n / 2] <= o[n - 1];
      assert n % 2 == 0 ==> o[0] <= o[n / 2 - 1] <= o[n - 1];
      Posicao(Mediana(o), o[n - 1], o[0])
  }

  /** `medianaLiquido`, `maiorLiquido` and `menorLiquido`: taken over the
      ascending-sorted values in (0, MaxValor]; all three are 0 when no
      value qualifies. */
  function Posicoes(valores: seq<real>): (p: Posicao)
    ensures (forall v :: v in valores ==> !NaFaixa(v)) ==> p == Posicao(0.0, 0.0, 0.0)
    ensures (exists v :: v in valores && NaFaixa(v)) ==>
              p.menor in valores && p.maior in valores
              && 0.0 < p.menor <= p.mediana <= p.maior <= MaxValor
              && (forall v :: v in valores && NaFaixa(v) ==> p.menor <= v <= p.maior)
  {
    var o := Ordenacao.SortAsc(Seqs.Filter(valores, NaFaixa));
    OrdenadosNaFaixa(valores);
    OrdenadosExtremos(o);
    PosicoesOrdenadas(o)
  }

  /** The summary does not depend on how the in-range values were put in
      ascending order: any ascending arrangement of them gives the same
      median, largest and smallest value. */
  lemma PosicoesPorOrdenacao(valores: seq<real>, o: seq<real>)
    requires Ordenacao.SortedAsc(o)
    requires multiset(o) == multiset(Seqs.Filter(valores, NaFaixa))
    ensures Posicoes(valores) == PosicoesOrdenadas(o)
  {
    Ordenacao.SortedAscUnico(o, Ordenacao.SortAsc(Seqs.Filter(valores, NaFaixa)));
  }

  /** On values already ascending and in range, the summary is read off
      the list itself. */
  lemma PosicoesDeOrdenados(v: seq<real>)
    requires Ordenacao.SortedAsc(v)
    requires forall i :: 0 <= i < |v| ==> NaFaixa(v[i])
    ensures Posicoes(v) == PosicoesOrdenadas(v)
  {
    Seqs.FilterAll(v, NaFaixa);
    PosicoesPorOrdenacao(v, v);
  }

  /** Three values in range: the median is the middle one. */
  lemma TresValores(x: real, y: real, z: real)
    requires NaFaixa(x) && NaFaixa(y) && NaFaixa(z) && x <= y <= z
    ensures Posicoes([x, y, z]) == Posicao(y, z, x)
  {
    PosicoesDeOrdenados([x, y, z]);
  }

  /** Two values in range, larger first: the median is their mean. */
  lemma DoisValores(x: real, y: real)
    requires NaFaixa(x) && NaFaixa(y) && y <= x
    ensures Posicoes([x, y]) == Posicao((x + y) / 2.0, x, y)
  {
    PosicoesDeDois([x, y]);
  }

  lemma PosicoesDeDois(v: seq<real>)
    requires |v| == 2 && NaFaixa(v[0]) && NaFaixa(v[1]) && v[1] <= v[0]
    ensures Posicoes(v) == Posicao((v[0] + v[1]) / 2.0, v[0], v[1])
  {
    Seqs.FilterAll(v, NaFaixa);
    var o := [v[1], v[0]];
    Trocados(v, o);
    assert PosicoesOrdenadas(o) == Posicao((v[0] + v[1]) / 2.0, v[0], v[1]);
    PosicoesPorOrdenacao(v, o);
  }

  lemma Trocados(v: seq<real>, o: seq<real>)
    requires |v| == 2 && o == [v[1], v[0]]
    ensures multiset(v) == multiset(o)
  {
    assert v == [v[0]] + [v[1]];
    assert o == [v[1]] + [v[0]];
  }

  /** Three salaries: the median is the middle one. */
  lemma MedianaImpar()
    ensures Posicoes([100.0, 200.0, 300.0]) == Posicao(200.0, 300.0, 100.0)
  {
    TresValores(100.0, 200.0, 300.0);
  }

  /** Two salaries: the median is their mean. */
  lemma MedianaPar()
    ensures Posicoes([200.0, 100.0]) == Posicao(150.0, 200.0, 100.0)
  {
    DoisValores(200.0, 100.0);
  }

  /** Every element of an ascending list lies between its ends. */
  lemma OrdenadosExtremos(o: seq<real>)
    requires Ordenacao.SortedAsc(o)
    ensures |o| > 0 ==> o[0] in o && o[|o| - 1] in o
    ensures forall v :: v in o ==> o[0] <= v <= o[|o| - 1]
  {
    forall v | v in o ensures o[0] <= v <= o[|o| - 1] {
      var i :| 0 <= i < |o| && o[i] == v;
    }
  }

  /** The sorted values are exactly the values in (0, MaxValor]. */
  lemma OrdenadosNaFaixa(valores: seq<real>)
    ensures forall v :: v in Ordenacao.SortAsc(Seqs.Filter(valores, NaFaixa)) <==> v in valores && NaFaixa(v)
  {
    var validos := Seqs.Filter(valores, NaFaixa);
    var ordenados := Ordenacao.SortAsc(validos);
    forall v ensures v in ordenados <==> v in valores && NaFaixa(v) {
      assert v in ordenados <==> v in multiset(ordenados);
      assert v in validos <==> v in multiset(validos);
      Seqs.FilterMembership(valores, NaFaixa, v);
    }
  }

  // ---------------------------------------------------------------------
  // Top N

  /** The first `n` of `s` after a stable sort by `key`, largest first. */
  function Melhores<T>(s: seq<T>, key: T -> real, n: nat): (r: seq<T>)
    ensures |r| == if n < |s| then n else |s|
    ensures Ordenacao.SortedDesc(r, key)
    ensures multiset(r) <= multiset(s)
    ensures forall x :: x in r ==> x in s
  {
    var ordenados := Ordenacao.SortDesc(s, key);
    Seqs.TakeMultiset(ordenados, n);
    assert forall x :: x in ordenados ==> x in s by {
      forall x | x in ordenados ensures x in s {
        assert x in multiset(ordenados);
      }
    }
    Seqs.Take(ordenados, n)
  }

  /** `s.filter(p).sort(by key, largest first).slice(0, n)`. */
  function TopFiltrado<T>(s: seq<T>, p: T -> bool, key: T -> real, n: int): (r: seq<T>)
    ensures |r| == Seqs.SliceBound(n, |Seqs.Filter(s, p)|)
    ensures forall x :: x in r ==> x in s && p(x)
    ensures Ordenacao.SortedDesc(r, key)
  {
    var candidatos := Seqs.Filter(s, p);
    var r := Melhores(candidatos, key, Seqs.SliceBound(n, |candidatos|));
    assert forall x :: x in r ==> x in s && p(x) by {
      forall x | x in r ensures x in s && p(x) {
        Seqs.FilterMembership(s, p, x);
      }
    }
    r
  }

  /** Nothing left out of the selection beats anything in it. */
  lemma MelhoresDominam<T>(s: seq<T>, key: T -> real, n: nat, x: T)
    requires x in s && x !in Melhores(s, key, n)
    ensures forall y :: y in Melhores(s, key, n) ==> key(y) >= key(x)
  {
    var ordenados := Ordenacao.SortDesc(s, key);
    var r := Melhores(s, key, n);
    assert x in multiset(ordenados) by {
      assert x in multiset(s);
    }
    var j :| 0 <= j < |ordenados| && ordenados[j] == x;
    assert j >= |r|;
  }

  /** Ties keep their input order: the selected elements with key `v` are
      the first ones with key `v` in the input. */
  lemma MelhoresEstavel<T>(s: seq<T>, key: T -> real, n: nat, v: real)
    ensures var w := Ordenacao.WithKey(Melhores(s, key, n), key, v);
            |w| <= |Ordenacao.WithKey(s, key, v)| && w == Ordenacao.WithKey(s, key, v)[..|w|]
  {
    var ordenados := Ordenacao.SortDesc(s, key);
    var r := Seqs.Take(ordenados, n);
    assert r == Melhores(s, key, n);
    var resto := ordenados[|r|..];
    var w := Ordenacao.WithKey(r, key, v);
    var todos := Ordenacao.WithKey(s, key, v);
    assert todos == w + Ordenacao.WithKey(resto, key, v) by {
      assert ordenados == r + resto;
      Ordenacao.SortDescStable(s, key, v);
      Ordenacao.WithKeyAppend(r, resto, key, v);
    }
    Seqs.PrefixOfAppend(w, Ordenacao.WithKey(resto, key, v), todos);
  }
}
