/** The dashboard-summary script (generate_dashboard_dataset.py): merging the
    converted month files, the three bucket summaries keyed by one field, the
    função/nível summary, the per-competência summary and the top-N lists. */
module Resumo {
  import opened Base
  import Seqs
  import Texto
  import Agregacao
  import Estatistica
  import Ordenacao

  const NaoInformado: string := "NÃO INFORMADO"
  const SemCompetencia: string := "0000-00"
  /** The number of names a bucket of `aggregate` keeps. */
  const MaxNomes: nat := 5

  /** A record as `json.load` gives it: its text fields and its amounts by
      key.  A key that is missing or holds `None` is absent from the maps. */
  datatype Linha = Linha(textos: map<string, string>, valores: map<string, real>)

  /** `registro.get(k)` on a text field, with `""` for an absent one. */
  function Campo(r: Linha, k: string): string {
    if k in r.textos then r.textos[k] else ""
  }

  /** `registro.get(k)` on a text field, `None` included. */
  function Obter(r: Linha, k: string): Option<string> {
    if k in r.textos then Some(r.textos[k]) else None
  }

  /** `registro.get(k) or padrao`: an absent or empty value gives way. */
  function OuPadrao(r: Linha, k: string, padrao: string): string {
    if Campo(r, k) != "" then Campo(r, k) else padrao
  }

  /** `registro.get(k, 0.0) or 0.0`: a missing amount counts as zero. */
  function Quantia(r: Linha, k: string): real {
    if k in r.valores then r.valores[k] else 0.0
  }

  // ---------------------------------------------------------------------
  // load_records: merging the parsed files

  /** A parsed summary file: its `competencia` (`None` when missing) and its
      `registros` (empty when missing). */
  datatype Arquivo = Arquivo(competencia: Option<string>, registros: seq<Linha>)

  /** `registro["competencia"] = competencia`: the file's value replaces
      whatever the record had. */
  function Estampar(r: Linha, competencia: Option<string>): Linha {
    match competencia
    case Some(c) => r.(textos := r.textos["competencia" := c])
    case None => r.(textos := r.textos - {"competencia"})
  }

  /** Stamping sets the competência to the file's and changes nothing else. */
  lemma EstamparCorreto(r: Linha, competencia: Option<string>)
    ensures Obter(Estampar(r, competencia), "competencia") == competencia
    ensures Estampar(r, competencia).valores == r.valores
    ensures forall k :: k != "competencia" ==> Obter(Estampar(r, competencia), k) == Obter(r, k)
  {
  }

  /** The records of one file, stamped, in order. */
  function Estampados(rs: seq<Linha>, competencia: Option<string>): (r: seq<Linha>)
    ensures |r| == |rs|
    ensures forall i :: 0 <= i < |rs| ==> r[i] == Estampar(rs[i], competencia)
    decreases |rs|
  {
    if |rs| == 0 then [] else Estampados(rs[..|rs| - 1], competencia) + [Estampar(rs[|rs| - 1], competencia)]
  }

  /** The stamped records of all the files, in file order. */
  function Carregados(arquivos: seq<Arquivo>): seq<Linha>
    decreases |arquivos|
  {
    if |arquivos| == 0 then []
    else
      var a := arquivos[|arquivos| - 1];
      Carregados(arquivos[..|arquivos| - 1]) + Estampados(a.registros, a.competencia)
  }

  /** The summed lengths of the files' `registros`. */
  function TotalDeRegistros(arquivos: seq<Arquivo>): nat
    decreases |arquivos|
  {
    if |arquivos| == 0 then 0
    else TotalDeRegistros(arquivos[..|arquivos| - 1]) + |arquivos[|arquivos| - 1].registros|
  }

  lemma CarregadosSnoc(arquivos: seq<Arquivo>, a: Arquivo)
    ensures Carregados(arquivos + [a]) == Carregados(arquivos) + Estampados(a.registros, a.competencia)
  {
    var s := arquivos + [a];
    assert s[..|s| - 1] == arquivos && s[|s| - 1] == a;
  }

  /** No record is lost or added by the merge. */
  lemma {:induction false} CarregadosTamanho(arquivos: seq<Arquivo>)
    ensures |Carregados(arquivos)| == TotalDeRegistros(arquivos)
    decreases |arquivos|
  {
    if |arquivos| > 0 {
      CarregadosTamanho(arquivos[..|arquivos| - 1]);
    }
  }

  /** Every merged record carries the competência of the file it came from:
      the merge is file after file, each record replaced by its stamped copy. */
  lemma {:induction false} CarregadosCompetencia(arquivos: seq<Arquivo>, r: Linha)
    requires r in Carregados(arquivos)
    ensures exists i, j :: 0 <= i < |arquivos| && 0 <= j < |arquivos[i].registros|
                           && r == Estampar(arquivos[i].registros[j], arquivos[i].competencia)
                           && Obter(r, "competencia") == arquivos[i].competencia
    decreases |arquivos|
  {
    var n := |arquivos| - 1;
    var a0 := arquivos[..n];
    var e := Estampados(arquivos[n].registros, arquivos[n].competencia);
    if r in Carregados(a0) {
      CarregadosCompetencia(a0, r);
      var i, j :| 0 <= i < |a0| && 0 <= j < |a0[i].registros|
                  && r == Estampar(a0[i].registros[j], a0[i].competencia)
                  && Obter(r, "competencia") == a0[i].competencia;
      assert arquivos[i] == a0[i];
    } else {
      assert r in e;
      var j :| 0 <= j < |e| && e[j] == r;
      EstamparCorreto(arquivos[n].registros[j], arquivos[n].competencia);
    }
  }

  /** The inner loop of `load_records` over one file's `registros`. */
  method AcrescentarEstampados(combinados: seq<Linha>, rs: seq<Linha>, competencia: Option<string>)
    returns (depois: seq<Linha>)
    ensures depois == combinados + Estampados(rs, competencia)
  {
    depois := combinados;
    for j := 0 to |rs|
      invariant depois == combinados + Estampados(rs[..j], competencia)
    {
      assert rs[..j + 1][..j] == rs[..j];
      depois := depois + [Estampar(rs[j], competencia)];
    }
    assert rs[..|rs|] == rs;
  }

  /** `load_records` over files already read: the stamped records of every
      file, in order, as many as the files hold together. */
  method LoadRecords(arquivos: seq<Arquivo>) returns (combinados: seq<Linha>)
    ensures combinados == Carregados(arquivos)
    ensures |combinados| == TotalDeRegistros(arquivos)
  {
    combinados := [];
    for i := 0 to |arquivos|
      invariant combinados == Carregados(arquivos[..i])
    {
      var a := arquivos[i];
      combinados := AcrescentarEstampados(combinados, a.registros, a.competencia);
      CarregadosSnoc(arquivos[..i], a);
      Seqs.PrefixSnoc(arquivos, i);
    }
    assert arquivos[..|arquivos|] == arquivos;
    CarregadosTamanho(arquivos);
  }

  // ---------------------------------------------------------------------
  // aggregate: buckets keyed by one field

  /** The bucket key of `aggregate(records, key, label)`: the field, or
      `SEM <LABEL>` when it is missing or empty. */
  function ChaveAgregada(r: Linha, key: string, rotulo: string): string {
    OuPadrao(r, key, "SEM " + Texto.Upper(rotulo))
  }

  function NomeDe(r: Linha): string { Campo(r, "nome") }

  /** What one record adds to its bucket: the three amounts and its name. */
  function ContribuicaoDe(r: Linha, key: string, rotulo: string): Agregacao.Contribuicao {
    var k := ChaveAgregada(r, key, rotulo);
    Agregacao.Contribuicao(k, [k], Quantia(r, "liquido"), Quantia(r, "vantagem"), Quantia(r, "desconto"),
                           None, Some(NomeDe(r)), None, None)
  }

  /** The reducer of `aggregate`: no record is skipped. */
  function PorChave(key: string, rotulo: string): Linha -> Option<Agregacao.Contribuicao> {
    (r: Linha) => Some(ContribuicaoDe(r, key, rotulo))
  }

  /** The records that land in bucket `k`. */
  function DaChave(key: string, rotulo: string, k: string): Linha -> bool {
    (r: Linha) => ChaveAgregada(r, key, rotulo) == k
  }

  /** A bucket's contributions are those of the records with its key, in
      order: as many, and with their names. */
  lemma {:induction false} ContribuidasPorChave(records: seq<Linha>, key: string, rotulo: string, k: string)
    ensures var cs := Agregacao.Contribuidas(records, PorChave(key, rotulo), k);
            var rs := Seqs.Filter(records, DaChave(key, rotulo, k));
            |cs| == |rs|
            && Agregacao.Nomes(cs) == Seqs.Map(rs, NomeDe)
    decreases |records|
  {
    if |records| > 0 {
      var r0 := records[..|records| - 1];
      var x := records[|records| - 1];
      ContribuidasPorChave(r0, key, rotulo, k);
      var rs0 := Seqs.Filter(r0, DaChave(key, rotulo, k));
      var cs0 := Agregacao.Contribuidas(r0, PorChave(key, rotulo), k);
      if ChaveAgregada(x, key, rotulo) == k {
        var c := ContribuicaoDe(x, key, rotulo);
        var cs := cs0 + [c];
        var rs := rs0 + [x];
        assert rs[..|rs| - 1] == rs0;
        assert cs[..|cs| - 1] == cs0;
        assert Agregacao.Nomes(cs) == Agregacao.Nomes(cs0) + [NomeDe(x)];
        assert Seqs.Map(rs, NomeDe) == Seqs.Map(rs0, NomeDe) + [NomeDe(x)];
        assert Agregacao.Contribuidas(records, PorChave(key, rotulo), k) == cs;
        assert Seqs.Filter(records, DaChave(key, rotulo, k)) == rs;
      } else {
        assert Agregacao.Contribuidas(records, PorChave(key, rotulo), k) == cs0;
        assert Seqs.Filter(records, DaChave(key, rotulo, k)) == rs0;
      }
    }
  }

  /** `aggregate(records, key, label)`. */
  method Aggregate(records: seq<Linha>, key: string, rotulo: string) returns (g: Agregacao.Grupos)
    ensures g == Agregacao.Dobrar(records, PorChave(key, rotulo), Some(MaxNomes))
  {
    g := Agregacao.Agregar(records, PorChave(key, rotulo), Some(MaxNomes));
  }

  /** The buckets of `aggregate` are exactly the keys of the records; each
      counts the records with its key and keeps the names of the first five
      of them, in order. */
  lemma AggregateBucket(records: seq<Linha>, key: string, rotulo: string, k: string)
    ensures var g := Agregacao.Dobrar(records, PorChave(key, rotulo), Some(MaxNomes));
            var rs := Seqs.Filter(records, DaChave(key, rotulo, k));
            (k in g.buckets <==> |rs| > 0)
            && (k in g.buckets ==>
                  g.buckets[k].rotulo == [k]
                  && g.buckets[k].count == |rs|
                  && g.buckets[k].funcionarios == Seqs.Take(Seqs.Map(rs, NomeDe), MaxNomes))
  {
    var f := PorChave(key, rotulo);
    Agregacao.BucketExato(records, f, Some(MaxNomes), k);
    ContribuidasPorChave(records, key, rotulo, k);
    var cs := Agregacao.Contribuidas(records, f, k);
    if |cs| > 0 {
      assert cs[0] in cs;
      Agregacao.ContribuidasOrigem(records, f, k, cs[0]);
    }
  }

  /** A missing or empty field puts the record under `SEM <LABEL>`; any
      other value is the key itself. */
  lemma ChaveAgregadaCorreta(r: Linha, key: string, rotulo: string)
    ensures Campo(r, key) == "" ==> ChaveAgregada(r, key, rotulo) == "SEM " + Texto.Upper(rotulo)
    ensures Campo(r, key) != "" ==> ChaveAgregada(r, key, rotulo) == r.textos[key]
  {
  }

  /** Every record adds one to exactly one count: the counts of `aggregate`
      sum to the number of records. */
  lemma AggregateContagens(records: seq<Linha>, key: string, rotulo: string)
    ensures var g := Agregacao.Dobrar(records, PorChave(key, rotulo), Some(MaxNomes));
            Agregacao.SomaEm(g.ordem, g.buckets, Agregacao.Contagem) == |records| as real
  {
    var f := PorChave(key, rotulo);
    Agregacao.TotalContagens(records, f, Some(MaxNomes));
    Seqs.FilterAll(records, Agregacao.Aceita(f));
  }

  /** No amount is lost or counted twice: each amount summed over the
      buckets is that amount summed over the records, a missing one adding zero. */
  lemma AggregateTotais(records: seq<Linha>, key: string, rotulo: string)
    ensures var g := Agregacao.Dobrar(records, PorChave(key, rotulo), Some(MaxNomes));
            Agregacao.SomaEm(g.ordem, g.buckets, Agregacao.LiquidoDe) == SomaDeQuantias(records, "liquido")
            && Agregacao.SomaEm(g.ordem, g.buckets, Agregacao.VantagemDe) == SomaDeQuantias(records, "vantagem")
            && Agregacao.SomaEm(g.ordem, g.buckets, Agregacao.DescontoDe) == SomaDeQuantias(records, "desconto")
  {
    var f := PorChave(key, rotulo);
    Agregacao.TotaisConservados(records, f, Some(MaxNomes));
    TotalAceitoQuantias(records, f, Agregacao.Liq, "liquido");
    TotalAceitoQuantias(records, f, Agregacao.Vant, "vantagem");
    TotalAceitoQuantias(records, f, Agregacao.Desc, "desconto");
  }

  /** The sum of an amount over some records, a missing one counting as zero. */
  function SomaDeQuantias(records: seq<Linha>, campo: string): real
    decreases |records|
  {
    if |records| == 0 then 0.0
    else SomaDeQuantias(records[..|records| - 1], campo) + Quantia(records[|records| - 1], campo)
  }

  /** A reducer that accepts every record and contributes its amount `campo`
      as `cc` sums that amount over the records. */
  lemma {:induction false} TotalAceitoQuantias(records: seq<Linha>, f: Linha -> Option<Agregacao.Contribuicao>,
                                               cc: Agregacao.Contribuicao -> real, campo: string)
    requires forall r :: f(r).Some? && cc(f(r).value) == Quantia(r, campo)
    ensures Agregacao.TotalAceito(records, f, cc) == SomaDeQuantias(records, campo)
    decreases |records|
  {
    if |records| > 0 {
      TotalAceitoQuantias(records[..|records| - 1], f, cc, campo);
    }
  }

  /** The rotulo used in the summary for records without a lotação. */
  lemma SemLotacao()
    ensures "SEM " + Texto.Upper("lotação") == "SEM LOTAÇÃO"
  {
  }

  // ---------------------------------------------------------------------
  // aggregate_funcao_nivel

  /** The função and the nível of a record, `NÃO INFORMADO` when missing or empty. */
  function FuncaoDe(r: Linha): string { OuPadrao(r, "funcao", NaoInformado) }
  function NivelDe(r: Linha): string { OuPadrao(r, "nivel", NaoInformado) }

  /** The bucket key `funcao||nivel`. */
  function ChaveFuncaoNivel(r: Linha): string { FuncaoDe(r) + "||" + NivelDe(r) }

  function ContribuicaoFuncaoNivel(r: Linha): Agregacao.Contribuicao {
    Agregacao.Contribuicao(ChaveFuncaoNivel(r), [FuncaoDe(r), NivelDe(r)],
                           Quantia(r, "liquido"), Quantia(r, "vantagem"), Quantia(r, "desconto"),
                           None, None, None, None)
  }

  function PorFuncaoNivel(): Linha -> Option<Agregacao.Contribuicao> {
    (r: Linha) => Some(ContribuicaoFuncaoNivel(r))
  }

  /** `aggregate_funcao_nivel(records)`. */
  method AggregateFuncaoNivel(records: seq<Linha>) returns (g: Agregacao.Grupos)
    ensures g == Agregacao.Dobrar(records, PorFuncaoNivel(), None)
  {
    g := Agregacao.Agregar(records, PorFuncaoNivel(), None);
  }

  /** Each bucket of `aggregate_funcao_nivel` is keyed `funcao||nivel` by the
      função and nível it is labelled with, which are those of a record and
      never empty. */
  lemma FuncaoNivelBucket(records: seq<Linha>, k: string)
    requires k in Agregacao.Dobrar(records, PorFuncaoNivel(), None).buckets
    ensures var b := Agregacao.Dobrar(records, PorFuncaoNivel(), None).buckets[k];
            |b.rotulo| == 2 && k == b.rotulo[0] + "||" + b.rotulo[1]
            && b.rotulo[0] != "" && b.rotulo[1] != ""
            && exists i :: 0 <= i < |records| && b.rotulo == [FuncaoDe(records[i]), NivelDe(records[i])]
  {
    var f := PorFuncaoNivel();
    Agregacao.BucketExato(records, f, None, k);
    var cs := Agregacao.Contribuidas(records, f, k);
    assert cs[0] in cs;
    Agregacao.ContribuidasOrigem(records, f, k, cs[0]);
  }

  /** The counts of `aggregate_funcao_nivel` sum to the number of records. */
  lemma FuncaoNivelContagens(records: seq<Linha>)
    ensures var g := Agregacao.Dobrar(records, PorFuncaoNivel(), None);
            Agregacao.SomaEm(g.ordem, g.buckets, Agregacao.Contagem) == |records| as real
  {
    var f := PorFuncaoNivel();
    Agregacao.TotalContagens(records, f, None);
    Seqs.FilterAll(records, Agregacao.Aceita(f));
  }

  // ---------------------------------------------------------------------
  // summarize_competencias

  /** The bucket key: the record's competência, `0000-00` when missing or empty. */
  function CompetenciaDe(r: Linha): string { OuPadrao(r, "competencia", SemCompetencia) }

  function PorCompetencia(): Linha -> Option<Agregacao.Contribuicao> {
    (r: Linha) =>
      Some(Agregacao.Contribuicao(CompetenciaDe(r), [CompetenciaDe(r)],
                                  Quantia(r, "liquido"), Quantia(r, "vantagem"), Quantia(r, "desconto"),
                                  None, None, None, None))
  }

  /** `summarize_competencias(records)`. */
  method SummarizeCompetencias(records: seq<Linha>) returns (g: Agregacao.Grupos)
    ensures g == Agregacao.Dobrar(records, PorCompetencia(), None)
  {
    g := Agregacao.Agregar(records, PorCompetencia(), None);
  }

  /** Records without a competência share the `0000-00` bucket; the counts
      sum to the number of records and every bucket is labelled by its key. */
  lemma CompetenciasResumidas(records: seq<Linha>, k: string)
    ensures var g := Agregacao.Dobrar(records, PorCompetencia(), None);
            Agregacao.SomaEm(g.ordem, g.buckets, Agregacao.Contagem) == |records| as real
            && (k in g.buckets <==> exists i :: 0 <= i < |records| && CompetenciaDe(records[i]) == k)
            && (k in g.buckets ==> g.buckets[k].rotulo == [k])
  {
    var f := PorCompetencia();
    Agregacao.TotalContagens(records, f, None);
    Seqs.FilterAll(records, Agregacao.Aceita(f));
    Agregacao.BucketExato(records, f, None, k);
    var cs := Agregacao.Contribuidas(records, f, k);
    if k in Agregacao.Dobrar(records, f, None).buckets {
      assert cs[0] in cs;
      Agregacao.ContribuidasOrigem(records, f, k, cs[0]);
    } else if i :| 0 <= i < |records| && CompetenciaDe(records[i]) == k {
      Agregacao.ContribuidasDe(records, f, k, i);
      assert false;
    }
  }

  /** A record without a competência lands in the `0000-00` bucket. */
  lemma SemCompetenciaAgrupada(records: seq<Linha>, i: nat)
    requires i < |records| && Campo(records[i], "competencia") == ""
    ensures SemCompetencia in Agregacao.Dobrar(records, PorCompetencia(), None).buckets
  {
    Agregacao.BucketExato(records, PorCompetencia(), None, SemCompetencia);
    Agregacao.ContribuidasDe(records, PorCompetencia(), SemCompetencia, i);
  }

  // ---------------------------------------------------------------------
  // top_n

  /** One entry of a top-N list: the six identifying fields, `None` when
      missing, and the ranked amount under its own key. */
  datatype Topo = Topo(nome: Option<string>, cpf: Option<string>, lotacaoNormalizada: Option<string>,
                       vinculo: Option<string>, situacao: Option<string>, competencia: Option<string>,
                       campo: string, valor: real)

  /** The sort key `r.get(key, 0) or 0.0`. */
  function ValorDe(key: string): Linha -> real {
    (r: Linha) => Quantia(r, key)
  }

  function Projetar(r: Linha, key: string): Topo {
    Topo(Obter(r, "nome"), Obter(r, "cpf"), Obter(r, "lotacao_normalizada"), Obter(r, "vinculo"),
         Obter(r, "situacao"), Obter(r, "competencia"), key, Quantia(r, key))
  }

  function Projetor(key: string): Linha -> Topo {
    (r: Linha) => Projetar(r, key)
  }

  /** `sorted(records, key=…, reverse=True)[:n]`: a stable sort, largest
      first, then Python's slice (a negative `n` drops from the end). */
  function Selecionados(records: seq<Linha>, key: string, n: int): (s: seq<Linha>)
    ensures |s| == Seqs.SliceBound(n, |records|)
    ensures Ordenacao.SortedDesc(s, ValorDe(key))
    ensures forall x :: x in s ==> x in records
  {
    Estatistica.Melhores(records, ValorDe(key), Seqs.SliceBound(n, |records|))
  }

  /** `top_n(records, key, n)`. */
  function TopN(records: seq<Linha>, key: string, n: int): (t: seq<Topo>)
    ensures |t| == Seqs.SliceBound(n, |records|)
    ensures forall i, j :: 0 <= i < j < |t| ==> t[i].valor >= t[j].valor
  {
    Seqs.Map(Selecionados(records, key, n), Projetor(key))
  }

  /** For `n >= 0` the list has `min(n, len(records))` entries, each one a
      record's fields with its amount under `key`, missing amounts being zero. */
  lemma TopNEntradas(records: seq<Linha>, key: string, n: int, i: nat)
    requires i < |TopN(records, key, n)|
    ensures n >= 0 ==> |TopN(records, key, n)| == if n < |records| then n else |records|
    ensures exists r :: r in records && TopN(records, key, n)[i] == Projetar(r, key)
                        && TopN(records, key, n)[i].valor == Quantia(r, key)
  {
    var s := Selecionados(records, key, n);
    assert s[i] in s;
  }

  /** A record left out of the list has an amount no larger than any listed one. */
  lemma TopNDominam(records: seq<Linha>, key: string, n: int, x: Linha)
    requires x in records && x !in Selecionados(records, key, n)
    ensures forall i :: 0 <= i < |TopN(records, key, n)| ==> TopN(records, key, n)[i].valor >= Quantia(x, key)
  {
    var s := Selecionados(records, key, n);
    Estatistica.MelhoresDominam(records, ValorDe(key), Seqs.SliceBound(n, |records|), x);
    forall i | 0 <= i < |s|
      ensures Quantia(s[i], key) >= Quantia(x, key)
    {
      assert s[i] in s;
    }
  }

  /** Ties keep their input order: the listed records of amount `v` are the
      first records of amount `v` in the input. */
  lemma TopNEstavel(records: seq<Linha>, key: string, n: int, v: real)
    ensures var w := Ordenacao.WithKey(Selecionados(records, key, n), ValorDe(key), v);
            var todos := Ordenacao.WithKey(records, ValorDe(key), v);
            |w| <= |todos| && w == todos[..|w|]
  {
    Estatistica.MelhoresEstavel(records, ValorDe(key), Seqs.SliceBound(n, |records|), v);
  }

  /** No row is filtered out: with `n` at least the number of records every
      record is listed, the `*Totais*` rows of a sheet included. */
  lemma TopNCompleto(records: seq<Linha>, key: string, n: int)
    requires n >= |records|
    ensures multiset(Selecionados(records, key, n)) == multiset(records)
  {
  }
}
