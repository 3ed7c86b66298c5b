/** The bucket reduction behind every `agregarPor*` reducer of the two
    services and behind the dashboard-summary script.  Records are folded in
    order into buckets keyed by a string.  Each bucket sums the amounts,
    counts its records and collects people, names, competências and leave
    reasons.  `ordem` records the order in which the keys first appeared:
    the order a Python dict lists them in.  A JavaScript object lists them
    in `ChavesObjeto.OrdemDeEnumeracao(ordem)`, which differs only when
    some keys are array indices such as years.

    What a single record adds is a `Contribuicao`; each reducer is a function
    from a record to an optional contribution (`None`: the record is skipped),
    so the reduction itself is written and proved once. */
module Agregacao {
  import opened Base
  import Seqs

  /** An entry of `motivosAfastamento`: `{nome, motivo}`. */
  datatype Motivo = Motivo(nome: string, motivo: string)

  /** What one accepted record adds to the bucket of `chave`. */
  datatype Contribuicao = Contribuicao(
    chave: string,
    rotulo: seq<string>,           // label fields a new bucket is created with
    liquido: real,
    vantagem: real,
    desconto: real,
    pessoa: Option<string>,        // added to `funcionariosUnicos`
    nome: Option<string>,          // pushed onto `funcionarios`
    competencia: Option<string>,   // added to `competencias`
    motivo: Option<Motivo>)        // pushed onto `motivosAfastamento`

  /** A bucket.  A reducer whose buckets lack one of the collections never
      contributes to it, so that collection stays empty. */
  datatype Bucket = Bucket(
    rotulo: seq<string>,
    liquido: real,
    vantagem: real,
    desconto: real,
    count: nat,
    unicos: set<string>,
    funcionarios: seq<string>,
    competencias: seq<string>,     // a JavaScript `Set`: insertion order, no repeats
    motivos: seq<Motivo>)

  /** The accumulator: keys in insertion order and the bucket of each key. */
  datatype Grupos = Grupos(ordem: seq<string>, buckets: map<string, Bucket>)

  ghost predicate Valido(g: Grupos) {
    Seqs.NoDup(g.ordem) && forall k :: k in g.ordem <==> k in g.buckets
  }

  /** The bucket created the first time a key is seen. */
  function Novo(rotulo: seq<string>): Bucket {
    Bucket(rotulo, 0.0, 0.0, 0.0, 0, {}, [], [], [])
  }

  /** Adds one contribution to a bucket; `limite` caps the number of names
      kept (the summary script keeps the first five). */
  function Incluir(b: Bucket, c: Contribuicao, limite: Option<nat>): Bucket {
    b.(liquido := b.liquido + c.liquido,
       vantagem := b.vantagem + c.vantagem,
       desconto := b.desconto + c.desconto,
       count := b.count + 1,
       unicos := if c.pessoa.Some? then b.unicos + {c.pessoa.value} else b.unicos,
       funcionarios :=
         if c.nome.Some? && (limite.None? || |b.funcionarios| < limite.value)
         then b.funcionarios + [c.nome.value] else b.funcionarios,
       competencias :=
         if c.competencia.Some? && c.competencia.value !in b.competencias
         then b.competencias + [c.competencia.value] else b.competencias,
       motivos := if c.motivo.Some? then b.motivos + [c.motivo.value] else b.motivos)
  }

  /** One step of the reduction: create the bucket if absent, then add. */
  function Somar(g: Grupos, c: Contribuicao, limite: Option<nat>): Grupos {
    if c.chave in g.buckets then
      Grupos(g.ordem, g.buckets[c.chave := Incluir(g.buckets[c.chave], c, limite)])
    else
      Grupos(g.ordem + [c.chave], g.buckets[c.chave := Incluir(Novo(c.rotulo), c, limite)])
  }

  /** The reduction of `dados` by the reducer `f`, as a left fold. */
  function Dobrar<R>(dados: seq<R>, f: R -> Option<Contribuicao>, limite: Option<nat>): (g: Grupos)
    ensures Valido(g)
    decreases |dados|
  {
    if |dados| == 0 then Grupos([], map[])
    else
      var g := Dobrar(dados[..|dados| - 1], f, limite);
      match f(dados[|dados| - 1])
      case None => g
      case Some(c) =>
        assert c.chave !in g.buckets ==> c.chave !in g.ordem;
        Somar(g, c, limite)
  }

  /** `dados.reduce(..., {})`, mutating the accumulator in place. */
  method Agregar<R>(dados: seq<R>, f: R -> Option<Contribuicao>, limite: Option<nat>) returns (g: Grupos)
    ensures g == Dobrar(dados, f, limite)
    ensures Valido(g)
  {
    var ordem: seq<string> := [];
    var buckets: map<string, Bucket> := map[];
    for i := 0 to |dados|
      invariant Grupos(ordem, buckets) == Dobrar(dados[..i], f, limite)
    {
      assert dados[..i + 1][..i] == dados[..i];
      match f(dados[i]) {
        case None =>
        case Some(c) =>
          if c.chave !in buckets {
            ordem := ordem + [c.chave];
            buckets := buckets[c.chave := Novo(c.rotulo)];
          }
          buckets := buckets[c.chave := Incluir(buckets[c.chave], c, limite)];
      }
    }
    assert dados[..|dados|] == dados;
    g := Grupos(ordem, buckets);
  }

  // ---------------------------------------------------------------------
  // What each bucket holds

  /** The contributions of the records of `dados` that land in bucket `k`. */
  function Contribuidas<R>(dados: seq<R>, f: R -> Option<Contribuicao>, k: string): seq<Contribuicao>
    decreases |dados|
  {
    if |dados| == 0 then []
    else
      Contribuidas(dados[..|dados| - 1], f, k) +
      (match f(dados[|dados| - 1])
       case Some(c) => if c.chave == k then [c] else []
       case None => [])
  }

  function Liq(c: Contribuicao): real { c.liquido }
  function Vant(c: Contribuicao): real { c.vantagem }
  function Desc(c: Contribuicao): real { c.desconto }

  /** Sum of `campo` over a list of contributions. */
  function SomaDe(cs: seq<Contribuicao>, campo: Contribuicao -> real): real
    decreases |cs|
  {
    if |cs| == 0 then 0.0 else SomaDe(cs[..|cs| - 1], campo) + campo(cs[|cs| - 1])
  }

  /** The people the contributions name. */
  function Pessoas(cs: seq<Contribuicao>): set<string>
    decreases |cs|
  {
    if |cs| == 0 then {}
    else Pessoas(cs[..|cs| - 1]) + (if cs[|cs| - 1].pessoa.Some? then {cs[|cs| - 1].pessoa.value} else {})
  }

  /** The names the contributions push, in order. */
  function Nomes(cs: seq<Contribuicao>): seq<string>
    decreases |cs|
  {
    if |cs| == 0 then []
    else Nomes(cs[..|cs| - 1]) + (if cs[|cs| - 1].nome.Some? then [cs[|cs| - 1].nome.value] else [])
  }

  /** The competências the contributions add, in order, repeats included. */
  function Competencias(cs: seq<Contribuicao>): seq<string>
    decreases |cs|
  {
    if |cs| == 0 then []
    else Competencias(cs[..|cs| - 1])
         + (if cs[|cs| - 1].competencia.Some? then [cs[|cs| - 1].competencia.value] else [])
  }

  /** The leave reasons the contributions push, in order. */
  function Motivos(cs: seq<Contribuicao>): seq<Motivo>
    decreases |cs|
  {
    if |cs| == 0 then []
    else Motivos(cs[..|cs| - 1]) + (if cs[|cs| - 1].motivo.Some? then [cs[|cs| - 1].motivo.value] else [])
  }

  /** All of `s`, or its first `n` elements under a cap of `n`. */
  function Limitar(s: seq<string>, limite: Option<nat>): seq<string> {
    match limite
    case None => s
    case Some(n) => Seqs.Take(s, n)
  }

  lemma TakeSnoc(s: seq<string>, x: string, n: nat)
    ensures Seqs.Take(s + [x], n) == if |Seqs.Take(s, n)| < n then Seqs.Take(s, n) + [x] else Seqs.Take(s, n)
  {
    if n <= |s| {
      assert (s + [x])[..n] == s[..n];
    }
  }

  /** `b` after adding the contributions `cs` one by one. */
  function Acumular(b: Bucket, cs: seq<Contribuicao>, limite: Option<nat>): Bucket
    decreases |cs|
  {
    if |cs| == 0 then b else Incluir(Acumular(b, cs[..|cs| - 1], limite), cs[|cs| - 1], limite)
  }

  /** Bucket `k` exists iff some record has key `k`, and it is the fresh
      bucket of the first such record with all their contributions added. */
  lemma {:induction false} BucketAcumulado<R>(dados: seq<R>, f: R -> Option<Contribuicao>, limite: Option<nat>, k: string)
    ensures var g := Dobrar(dados, f, limite);
            var cs := Contribuidas(dados, f, k);
            (k in g.buckets <==> |cs| > 0)
            && (k in g.buckets ==> g.buckets[k] == Acumular(Novo(cs[0].rotulo), cs, limite))
    decreases |dados|
  {
    if |dados| > 0 {
      var d0 := dados[..|dados| - 1];
      BucketAcumulado(d0, f, limite, k);
      var g0 := Dobrar(d0, f, limite);
      var cs0 := Contribuidas(d0, f, k);
      match f(dados[|dados| - 1]) {
        case None =>
          assert Dobrar(dados, f, limite) == g0;
          assert Contribuidas(dados, f, k) == cs0 + [] == cs0;
        case Some(c) =>
          assert Dobrar(dados, f, limite) == Somar(g0, c, limite);
          assert Contribuidas(dados, f, k) == cs0 + (if c.chave == k then [c] else []);
          BucketSomar(g0, cs0, c, limite, k);
      }
    }
  }

  /** One reduction step keeps bucket `k` equal to the accumulation of the
      contributions with key `k`. */
  lemma BucketSomar(g0: Grupos, cs0: seq<Contribuicao>, c: Contribuicao, limite: Option<nat>, k: string)
    requires k in g0.buckets <==> |cs0| > 0
    requires k in g0.buckets ==> g0.buckets[k] == Acumular(Novo(cs0[0].rotulo), cs0, limite)
    ensures var g := Somar(g0, c, limite);
            var cs := cs0 + (if c.chave == k then [c] else []);
            (k in g.buckets <==> |cs| > 0)
            && (k in g.buckets ==> g.buckets[k] == Acumular(Novo(cs[0].rotulo), cs, limite))
  {
    var g := Somar(g0, c, limite);
    if c.chave != k {
      assert cs0 + [] == cs0;
    } else {
      var cs := cs0 + [c];
      assert cs[..|cs0|] == cs0;
      if k in g0.buckets {
        assert cs[0] == cs0[0];
        assert g.buckets[k] == Incluir(g0.buckets[k], c, limite);
      } else {
        assert cs0 == [];
        assert g.buckets[k] == Incluir(Novo(c.rotulo), c, limite);
      }
      assert Acumular(Novo(cs[0].rotulo), cs, limite)
          == Incluir(Acumular(Novo(cs[0].rotulo), cs0, limite), c, limite);
    }
  }

  /** Label, count and amounts of an accumulated bucket. */
  lemma {:induction false} AcumularSomas(rotulo: seq<string>, cs: seq<Contribuicao>, limite: Option<nat>)
    ensures var b := Acumular(Novo(rotulo), cs, limite);
            b.rotulo == rotulo && b.count == |cs|
            && b.liquido == SomaDe(cs, Liq) && b.vantagem == SomaDe(cs, Vant) && b.desconto == SomaDe(cs, Desc)
    decreases |cs|
  {
    if |cs| > 0 {
      AcumularSomas(rotulo, cs[..|cs| - 1], limite);
    }
  }

  /** Person set and leave reasons of an accumulated bucket. */
  lemma {:induction false} AcumularPessoas(rotulo: seq<string>, cs: seq<Contribuicao>, limite: Option<nat>)
    ensures var b := Acumular(Novo(rotulo), cs, limite);
            b.unicos == Pessoas(cs) && b.motivos == Motivos(cs)
    decreases |cs|
  {
    if |cs| > 0 {
      AcumularPessoas(rotulo, cs[..|cs| - 1], limite);
    }
  }

  /** Names of an accumulated bucket: all of them, or the first ones under a cap. */
  lemma {:induction false} AcumularNomes(rotulo: seq<string>, cs: seq<Contribuicao>, limite: Option<nat>)
    ensures Acumular(Novo(rotulo), cs, limite).funcionarios == Limitar(Nomes(cs), limite)
    decreases |cs|
  {
    if |cs| > 0 {
      var cs0 := cs[..|cs| - 1];
      var c := cs[|cs| - 1];
      AcumularNomes(rotulo, cs0, limite);
      if c.nome.Some? && limite.Some? {
        TakeSnoc(Nomes(cs0), c.nome.value, limite.value);
      }
    }
  }

  /** Competências of an accumulated bucket: the distinct ones, first seen first. */
  lemma {:induction false} AcumularCompetencias(rotulo: seq<string>, cs: seq<Contribuicao>, limite: Option<nat>)
    ensures Acumular(Novo(rotulo), cs, limite).competencias == Seqs.Dedup(Competencias(cs))
    decreases |cs|
  {
    if |cs| > 0 {
      var cs0 := cs[..|cs| - 1];
      var c := cs[|cs| - 1];
      AcumularCompetencias(rotulo, cs0, limite);
      var b0 := Acumular(Novo(rotulo), cs0, limite);
      assert Acumular(Novo(rotulo), cs, limite) == Incluir(b0, c, limite);
      var s0 := Competencias(cs0);
      if c.competencia.Some? {
        var x := c.competencia.value;
        var s := s0 + [x];
        assert Competencias(cs) == s;
        assert s[..|s0|] == s0;
        assert x in b0.competencias <==> x in s0;
      } else {
        assert Competencias(cs) == s0;
      }
    }
  }

  /** Each bucket holds exactly what the records of its key contributed:
      it exists iff some record has its key, its label is the first such
      record's, its count is the number of those records, its amounts are
      their sums, its person set is the people they name, its names are the
      names they push (the first ones only, under a cap), its competências
      are the distinct ones they add, in first-seen order, and its leave
      reasons are theirs, in order. */
  lemma BucketExato<R>(dados: seq<R>, f: R -> Option<Contribuicao>, limite: Option<nat>, k: string)
    ensures var g := Dobrar(dados, f, limite);
            var cs := Contribuidas(dados, f, k);
            (k in g.buckets <==> |cs| > 0)
            && (k in g.buckets ==>
                  var b := g.buckets[k];
                  b.rotulo == cs[0].rotulo
                  && b.count == |cs|
                  && b.liquido == SomaDe(cs, Liq)
                  && b.vantagem == SomaDe(cs, Vant)
                  && b.desconto == SomaDe(cs, Desc)
                  && b.unicos == Pessoas(cs)
                  && b.funcionarios == Limitar(Nomes(cs), limite)
                  && b.competencias == Seqs.Dedup(Competencias(cs))
                  && b.motivos == Motivos(cs))
  {
    BucketAcumulado(dados, f, limite, k);
    var cs := Contribuidas(dados, f, k);
    if |cs| > 0 {
      AcumularSomas(cs[0].rotulo, cs, limite);
      AcumularPessoas(cs[0].rotulo, cs, limite);
      AcumularNomes(cs[0].rotulo, cs, limite);
      AcumularCompetencias(cs[0].rotulo, cs, limite);
    }
  }

  /** A bucket's person set is never larger than its record count: each
      record adds at most one person. */
  lemma {:induction false} PessoasLimitadas(cs: seq<Contribuicao>)
    ensures |Pessoas(cs)| <= |cs|
    decreases |cs|
  {
    if |cs| > 0 {
      PessoasLimitadas(cs[..|cs| - 1]);
    }
  }

  /** `funcionariosUnicos.size <= count` in every bucket. */
  lemma UnicosLimitados<R>(dados: seq<R>, f: R -> Option<Contribuicao>, limite: Option<nat>, k: string)
    requires k in Dobrar(dados, f, limite).buckets
    ensures |Dobrar(dados, f, limite).buckets[k].unicos| <= Dobrar(dados, f, limite).buckets[k].count
  {
    BucketExato(dados, f, limite, k);
    PessoasLimitadas(Contribuidas(dados, f, k));
  }

  /** The contributions of bucket `k` carry key `k` and come from records of `dados`. */
  lemma {:induction false} ContribuidasOrigem<R>(dados: seq<R>, f: R -> Option<Contribuicao>, k: string, c: Contribuicao)
    requires c in Contribuidas(dados, f, k)
    ensures c.chave == k && exists i :: 0 <= i < |dados| && f(dados[i]) == Some(c)
    decreases |dados|
  {
    var d0 := dados[..|dados| - 1];
    if c in Contribuidas(d0, f, k) {
      ContribuidasOrigem(d0, f, k, c);
      var i :| 0 <= i < |d0| && f(d0[i]) == Some(c);
      assert dados[i] == d0[i];
    } else {
      assert f(dados[|dados| - 1]) == Some(c);
    }
  }

  /** A record the reducer sends to bucket `k` is among its contributions. */
  lemma {:induction false} ContribuidasDe<R>(dados: seq<R>, f: R -> Option<Contribuicao>, k: string, i: nat)
    requires i < |dados| && f(dados[i]).Some? && f(dados[i]).value.chave == k
    ensures |Contribuidas(dados, f, k)| > 0
    decreases |dados|
  {
    if i < |dados| - 1 {
      ContribuidasDe(dados[..|dados| - 1], f, k, i);
    }
  }

  /** A competência collected from some contributions was added by one of them. */
  lemma {:induction false} CompetenciasOrigem(cs: seq<Contribuicao>, x: string)
    requires x in Competencias(cs)
    ensures exists c :: c in cs && c.competencia == Some(x)
    decreases |cs|
  {
    var c0 := cs[..|cs| - 1];
    if x in Competencias(c0) {
      CompetenciasOrigem(c0, x);
      var c :| c in c0 && c.competencia == Some(x);
      assert c in cs;
    } else {
      assert cs[|cs| - 1] in cs;
    }
  }

  // ---------------------------------------------------------------------
  // Order of the buckets

  /** The keys of the accepted records, in order, repeats included. */
  function Chaves<R>(dados: seq<R>, f: R -> Option<Contribuicao>): seq<string>
    decreases |dados|
  {
    if |dados| == 0 then []
    else
      Chaves(dados[..|dados| - 1], f) +
      (match f(dados[|dados| - 1]) case Some(c) => [c.chave] case None => [])
  }

  /** The buckets appear in the order their keys were first seen. */
  lemma {:induction false} OrdemDeInsercao<R>(dados: seq<R>, f: R -> Option<Contribuicao>, limite: Option<nat>)
    ensures Dobrar(dados, f, limite).ordem == Seqs.Dedup(Chaves(dados, f))
    decreases |dados|
  {
    if |dados| > 0 {
      var d0 := dados[..|dados| - 1];
      OrdemDeInsercao(d0, f, limite);
      match f(dados[|dados| - 1]) {
        case None =>
          assert Chaves(dados, f) == Chaves(d0, f);
        case Some(c) =>
          var s0 := Chaves(d0, f);
          var s := s0 + [c.chave];
          assert s[..|s0|] == s0;
      }
    }
  }

  // ---------------------------------------------------------------------
  // Totals over all buckets

  /** Sum of `campo` over the buckets of the keys `ks`. */
  function SomaEm(ks: seq<string>, m: map<string, Bucket>, campo: Bucket -> real): real
    decreases |ks|
  {
    if |ks| == 0 then 0.0
    else SomaEm(ks[..|ks| - 1], m, campo) + (if ks[|ks| - 1] in m then campo(m[ks[|ks| - 1]]) else 0.0)
  }

  /** Sum of `campo` over all the contributions of the accepted records. */
  function TotalAceito<R>(dados: seq<R>, f: R -> Option<Contribuicao>, campo: Contribuicao -> real): real
    decreases |dados|
  {
    if |dados| == 0 then 0.0
    else
      TotalAceito(dados[..|dados| - 1], f, campo) +
      (match f(dados[|dados| - 1]) case Some(c) => campo(c) case None => 0.0)
  }

  lemma {:induction false} SomaEmFora(ks: seq<string>, m: map<string, Bucket>, k: string, b: Bucket, campo: Bucket -> real)
    requires k !in ks
    ensures SomaEm(ks, m[k := b], campo) == SomaEm(ks, m, campo)
    decreases |ks|
  {
    if |ks| > 0 {
      SomaEmFora(ks[..|ks| - 1], m, k, b, campo);
    }
  }

  lemma {:induction false} SomaEmTroca(ks: seq<string>, m: map<string, Bucket>, k: string, b: Bucket, campo: Bucket -> real)
    requires Seqs.NoDup(ks) && k in ks && k in m
    ensures SomaEm(ks, m[k := b], campo) == SomaEm(ks, m, campo) - campo(m[k]) + campo(b)
    decreases |ks|
  {
    var k0 := ks[..|ks| - 1];
    if ks[|ks| - 1] == k {
      assert k !in k0;
      SomaEmFora(k0, m, k, b, campo);
    } else {
      SomaEmTroca(k0, m, k, b, campo);
    }
  }

  /** One reduction step adds the contribution's field to the sum over
      the buckets, whether it opens a bucket or adds to one. */
  lemma SomarConserva(g: Grupos, c: Contribuicao, limite: Option<nat>, cb: Bucket -> real, cc: Contribuicao -> real)
    requires Valido(g)
    requires forall rotulo :: cb(Novo(rotulo)) == 0.0
    requires forall b, c :: cb(Incluir(b, c, limite)) == cb(b) + cc(c)
    ensures var h := Somar(g, c, limite); SomaEm(h.ordem, h.buckets, cb) == SomaEm(g.ordem, g.buckets, cb) + cc(c)
  {
    var k := c.chave;
    if k in g.buckets {
      SomaEmTroca(g.ordem, g.buckets, k, Incluir(g.buckets[k], c, limite), cb);
    } else {
      var nb := Incluir(Novo(c.rotulo), c, limite);
      var ks := g.ordem + [k];
      assert ks[..|g.ordem|] == g.ordem;
      assert cb(nb) == cc(c) by {
        assert cb(Novo(c.rotulo)) == 0.0;
      }
      SomaEmFora(g.ordem, g.buckets, k, nb, cb);
    }
  }

  /** Conservation: for any bucket field that starts at 0 and grows by a
      contribution field at each record, the field summed over all buckets
      is the contribution field summed over all accepted records. */
  lemma {:induction false} Conservacao<R>(dados: seq<R>, f: R -> Option<Contribuicao>, limite: Option<nat>,
                                          cb: Bucket -> real, cc: Contribuicao -> real)
    requires forall rotulo :: cb(Novo(rotulo)) == 0.0
    requires forall b, c :: cb(Incluir(b, c, limite)) == cb(b) + cc(c)
    ensures var g := Dobrar(dados, f, limite); SomaEm(g.ordem, g.buckets, cb) == TotalAceito(dados, f, cc)
    decreases |dados|
  {
    if |dados| > 0 {
      var d0 := dados[..|dados| - 1];
      Conservacao(d0, f, limite, cb, cc);
      match f(dados[|dados| - 1]) {
        case None =>
        case Some(c) =>
          SomarConserva(Dobrar(d0, f, limite), c, limite, cb, cc);
      }
    }
  }

  function Contagem(b: Bucket): real { b.count as real }
  function LiquidoDe(b: Bucket): real { b.liquido }
  function VantagemDe(b: Bucket): real { b.vantagem }
  function DescontoDe(b: Bucket): real { b.desconto }
  function Um(c: Contribuicao): real { 1.0 }

  /** The reducer does not skip the record. */
  function Aceita<R>(f: R -> Option<Contribuicao>): R -> bool {
    (r: R) => f(r).Some?
  }

  /** The records the reducer does not skip. */
  function Aceitos<R>(dados: seq<R>, f: R -> Option<Contribuicao>): seq<R> {
    Seqs.Filter(dados, Aceita(f))
  }

  lemma {:induction false} TotalUm<R>(dados: seq<R>, f: R -> Option<Contribuicao>)
    ensures TotalAceito(dados, f, Um) == |Aceitos(dados, f)| as real
    decreases |dados|
  {
    if |dados| > 0 {
      TotalUm(dados[..|dados| - 1], f);
    }
  }

  /** Every record that is not skipped adds exactly one to exactly one
      bucket's count, so the counts add up to the number of those records. */
  lemma TotalContagens<R>(dados: seq<R>, f: R -> Option<Contribuicao>, limite: Option<nat>)
    ensures var g := Dobrar(dados, f, limite);
            SomaEm(g.ordem, g.buckets, Contagem) == |Aceitos(dados, f)| as real
  {
    Conservacao(dados, f, limite, Contagem, Um);
    TotalUm(dados, f);
  }

  /** No amount is lost or counted twice: each amount summed over the
      buckets is that amount summed over the records that are not skipped. */
  lemma TotaisConservados<R>(dados: seq<R>, f: R -> Option<Contribuicao>, limite: Option<nat>)
    ensures var g := Dobrar(dados, f, limite);
            SomaEm(g.ordem, g.buckets, LiquidoDe) == TotalAceito(dados, f, Liq)
            && SomaEm(g.ordem, g.buckets, VantagemDe) == TotalAceito(dados, f, Vant)
            && SomaEm(g.ordem, g.buckets, DescontoDe) == TotalAceito(dados, f, Desc)
  {
    Conservacao(dados, f, limite, LiquidoDe, Liq);
    Conservacao(dados, f, limite, VantagemDe, Vant);
    Conservacao(dados, f, limite, DescontoDe, Desc);
  }

  /** When the reducer skips exactly the records failing `p`, the counts
      add up to the number of records satisfying `p`. */
  lemma ContagensPorFiltro<R>(dados: seq<R>, f: R -> Option<Contribuicao>, limite: Option<nat>, p: R -> bool)
    requires forall r :: f(r).Some? == p(r)
    ensures var g := Dobrar(dados, f, limite);
            SomaEm(g.ordem, g.buckets, Contagem) == |Seqs.Filter(dados, p)| as real
  {
    TotalContagens(dados, f, limite);
    Seqs.FilterExt(dados, Aceita(f), p);
  }

  /** Every bucket key is the key of some record the reducer accepts. */
  lemma ChaveDeOrigem<R>(dados: seq<R>, f: R -> Option<Contribuicao>, limite: Option<nat>, k: string)
    requires k in Dobrar(dados, f, limite).buckets
    ensures exists i :: 0 <= i < |dados| && f(dados[i]).Some? && f(dados[i]).value.chave == k
  {
    BucketExato(dados, f, limite, k);
    var cs := Contribuidas(dados, f, k);
    assert cs[0] in cs;
    ContribuidasOrigem(dados, f, k, cs[0]);
  }

  /** Every competência listed in a bucket was added by a record of that key. */
  lemma CompetenciaDeOrigem<R>(dados: seq<R>, f: R -> Option<Contribuicao>, limite: Option<nat>, k: string, x: string)
    requires k in Dobrar(dados, f, limite).buckets
    requires x in Dobrar(dados, f, limite).buckets[k].competencias
    ensures exists i :: 0 <= i < |dados| && f(dados[i]).Some? && f(dados[i]).value.chave == k
                        && f(dados[i]).value.competencia == Some(x)
  {
    BucketExato(dados, f, limite, k);
    var cs := Contribuidas(dados, f, k);
    CompetenciasOrigem(cs, x);
    var c :| c in cs && c.competencia == Some(x);
    ContribuidasOrigem(dados, f, k, c);
  }
}
