/** The order in which a JavaScript object lists its own string keys
    (`Object.keys`, `Object.entries`, `for … in`), as section 10.1.11.1 of
    ECMA-262 (OrdinaryOwnPropertyKeys) lays it down: first every key that is
    an array index, in ascending numeric order, then every other key in the
    order it was first added.  A year such as `"2025"` is an array index and
    `"NÃO INFORMADO"` or `"2025-01"` is not, so an object keyed by year lists
    its years in ascending order whatever order they were added in. */
module ChavesObjeto {
  import Seqs
  import Texto
  import Ordenacao

  /** An array index: the canonical decimal form of an integer below
      2^32 - 1 (no sign, no leading zero except in `"0"`). */
  predicate IndiceDeArray(k: string) {
    |k| > 0 && Texto.AllDigits(k) && (k[0] != '0' || |k| == 1) && Texto.DigitsValue(k) < 0xFFFF_FFFF
  }

  /** The number an array index stands for. */
  function ValorIndice(k: string): real {
    if Texto.AllDigits(k) then Texto.DigitsValue(k) as real else 0.0
  }

  function Indices(): string -> bool { (k: string) => IndiceDeArray(k) }
  function NaoIndices(): string -> bool { (k: string) => !IndiceDeArray(k) }
  function ValorNegado(): string -> real { (k: string) => -ValorIndice(k) }

  /** The keys of an object whose keys were added in the order `ordem`, in
      the order the object lists them: the array indices ascending, then the
      other keys as added. */
  function OrdemDeEnumeracao(ordem: seq<string>): (r: seq<string>)
    ensures multiset(r) == multiset(ordem)
    ensures forall i, j :: 0 <= i < j < |r| && IndiceDeArray(r[j]) ==>
              IndiceDeArray(r[i]) && ValorIndice(r[i]) <= ValorIndice(r[j])
    ensures Seqs.Filter(r, NaoIndices()) == Seqs.Filter(ordem, NaoIndices())
    ensures (forall i :: 0 <= i < |ordem| ==> !IndiceDeArray(ordem[i])) ==> r == ordem
  {
    Particao(ordem);
    IndicesPrimeiro(ordem);
    Ordenacao.SortDesc(Seqs.Filter(ordem, Indices()), ValorNegado()) + Seqs.Filter(ordem, NaoIndices())
  }

  /** The sorted indices followed by the other keys hold the same keys, and
      without indices they are the keys as added. */
  lemma Particao(ordem: seq<string>)
    ensures var a := Ordenacao.SortDesc(Seqs.Filter(ordem, Indices()), ValorNegado());
            var outras := Seqs.Filter(ordem, NaoIndices());
            multiset(a + outras) == multiset(ordem)
            && Seqs.Filter(a + outras, NaoIndices()) == outras
            && ((forall i :: 0 <= i < |ordem| ==> !IndiceDeArray(ordem[i])) ==> a + outras == ordem)
  {
    var a := Ordenacao.SortDesc(Seqs.Filter(ordem, Indices()), ValorNegado());
    var outras := Seqs.Filter(ordem, NaoIndices());
    ParticaoMultiset(ordem);
    assert multiset(a + outras) == multiset(a) + multiset(outras);
    OutrasDepois(ordem);
    if forall i :: 0 <= i < |ordem| ==> !IndiceDeArray(ordem[i]) {
      Seqs.FilterNone(ordem, Indices());
      Seqs.FilterAll(ordem, NaoIndices());
      assert a == [];
      assert [] + ordem == ordem;
    }
  }

  /** Keeping the keys that are not indices drops the whole sorted part. */
  lemma OutrasDepois(ordem: seq<string>)
    ensures var a := Ordenacao.SortDesc(Seqs.Filter(ordem, Indices()), ValorNegado());
            var outras := Seqs.Filter(ordem, NaoIndices());
            Seqs.Filter(a + outras, NaoIndices()) == outras
  {
    SoIndices(ordem);
    SoOutras(Ordenacao.SortDesc(Seqs.Filter(ordem, Indices()), ValorNegado()), Seqs.Filter(ordem, NaoIndices()));
  }

  lemma SoOutras(a: seq<string>, outras: seq<string>)
    requires forall i :: 0 <= i < |a| ==> IndiceDeArray(a[i])
    requires forall i :: 0 <= i < |outras| ==> !IndiceDeArray(outras[i])
    ensures Seqs.Filter(a + outras, NaoIndices()) == outras
  {
    Seqs.FilterAppend(a, outras, NaoIndices());
    Seqs.FilterNone(a, NaoIndices());
    Seqs.FilterAll(outras, NaoIndices());
    assert [] + outras == outras;
  }

  /** The sorted part holds only array indices. */
  lemma SoIndices(ordem: seq<string>)
    ensures var a := Ordenacao.SortDesc(Seqs.Filter(ordem, Indices()), ValorNegado());
            forall i :: 0 <= i < |a| ==> IndiceDeArray(a[i])
  {
    var indices := Seqs.Filter(ordem, Indices());
    var a := Ordenacao.SortDesc(indices, ValorNegado());
    forall i | 0 <= i < |a| ensures IndiceDeArray(a[i]) {
      assert a[i] in multiset(indices);
      var j :| 0 <= j < |indices| && indices[j] == a[i];
    }
  }

  /** Every array index comes before every other key, in ascending order. */
  lemma IndicesPrimeiro(ordem: seq<string>)
    ensures var r := Ordenacao.SortDesc(Seqs.Filter(ordem, Indices()), ValorNegado()) + Seqs.Filter(ordem, NaoIndices());
            forall i, j :: 0 <= i < j < |r| && IndiceDeArray(r[j]) ==>
              IndiceDeArray(r[i]) && ValorIndice(r[i]) <= ValorIndice(r[j])
  {
    var a := Ordenacao.SortDesc(Seqs.Filter(ordem, Indices()), ValorNegado());
    var outras := Seqs.Filter(ordem, NaoIndices());
    var r := a + outras;
    SoIndices(ordem);
    forall i, j | 0 <= i < j < |r| && IndiceDeArray(r[j])
      ensures IndiceDeArray(r[i]) && ValorIndice(r[i]) <= ValorIndice(r[j])
    {
      assert r[i] == a[i] && r[j] == a[j];
      assert ValorNegado()(a[i]) >= ValorNegado()(a[j]);
    }
  }

  /** Splitting by a predicate and its negation loses and adds nothing. */
  lemma ParticaoMultiset(s: seq<string>)
    ensures multiset(Seqs.Filter(s, Indices())) + multiset(Seqs.Filter(s, NaoIndices())) == multiset(s)
  {
    forall x ensures (multiset(Seqs.Filter(s, Indices())) + multiset(Seqs.Filter(s, NaoIndices())))[x] == multiset(s)[x] {
      Seqs.FilterMultiset(s, Indices(), x);
      Seqs.FilterMultiset(s, NaoIndices(), x);
    }
  }

  /** Two array indices are listed smaller first, whatever order they were
      added in. */
  lemma DoisIndices(x: string, y: string)
    requires IndiceDeArray(x) && IndiceDeArray(y) && ValorIndice(y) < ValorIndice(x)
    ensures OrdemDeEnumeracao([x, y]) == [y, x]
  {
    var r := OrdemDeEnumeracao([x, y]);
    DoisElementos(r, x, y);
    assert IndiceDeArray(r[1]);
    assert ValorIndice(r[0]) <= ValorIndice(r[1]);
  }

  /** An array index is listed before a key that is not one, whatever order
      they were added in. */
  lemma IndiceAntes(x: string, y: string)
    requires !IndiceDeArray(x) && IndiceDeArray(y)
    ensures OrdemDeEnumeracao([x, y]) == [y, x]
  {
    var r := OrdemDeEnumeracao([x, y]);
    DoisElementos(r, x, y);
  }

  /** A list holding the same keys as `[x, y]`, `x != y`, is that list or
      its reverse. */
  lemma DoisElementos(r: seq<string>, x: string, y: string)
    requires x != y && multiset(r) == multiset([x, y])
    ensures r == [x, y] || r == [y, x]
  {
    assert |r| == |multiset(r)| == 2;
    assert r[0] in multiset(r) && r[1] in multiset(r);
    assert multiset(r) == multiset{r[0], r[1]} by {
      assert r == [r[0], r[1]];
    }
  }

  /** Years added latest first are listed earliest first. */
  lemma AnosEmOrdem()
    ensures OrdemDeEnumeracao(["2026", "2025"]) == ["2025", "2026"]
  {
    Valores();
    DoisIndices("2026", "2025");
  }

  /** A year is listed before a key that is not a number, whichever came
      first. */
  lemma AnoAntesDeTexto()
    ensures OrdemDeEnumeracao(["NÃO INFORMADO", "2025"]) == ["2025", "NÃO INFORMADO"]
  {
    Valores();
    assert !Texto.IsDigit("NÃO INFORMADO"[0]);
    IndiceAntes("NÃO INFORMADO", "2025");
  }

  lemma Valores()
    ensures IndiceDeArray("2025") && ValorIndice("2025") == 2025.0
    ensures IndiceDeArray("2026") && ValorIndice("2026") == 2026.0
  {
    assert Texto.AllDigits("2025") && Texto.AllDigits("2026");
    assert "2025"[..3] == "202" && "2026"[..3] == "202";
    assert "202"[..2] == "20" && "20"[..1] == "2" && "2"[..0] == "";
    assert Texto.DigitsValue("202") == 202;
  }
}
