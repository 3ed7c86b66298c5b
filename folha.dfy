/** The payroll service (services/folha-pagamento.js): merging the monthly
    files, filtering, the seven `agregarPor*` reducers, the general and the
    yearly statistics, the top-N ranking and the distinct values of a field. */
module Folha {
  import opened Base
  import opened Registros
  import Seqs
  import Texto
  import Ordenacao
  import Lotacao
  import Agregacao
  import Estatistica
  import ChavesObjeto

  const NaoInformado: string := "NÃO INFORMADO"
  const LinhaDeTotais: string := "*Totais*"

  // ---------------------------------------------------------------------
  // carregarTodasFolhas: merging the parsed month files

  /** A parsed month file: its competência and its `registros`, `None` when
      that field is missing or is not an array. */
  datatype ArquivoFolha = ArquivoFolha(competencia: string, registros: Option<seq<Registro>>)

  /** A record without a competência takes the file's. */
  function Carimbar(r: Registro, competencia: string): Registro {
    if r.competencia == "" then r.(competencia := competencia) else r
  }

  /** The records of one file, stamped. */
  function Carimbados(rs: seq<Registro>, competencia: string): (r: seq<Registro>)
    ensures |r| == |rs|
    ensures forall i :: 0 <= i < |rs| ==> r[i] == Carimbar(rs[i], competencia)
    decreases |rs|
  {
    if |rs| == 0 then [] else Carimbados(rs[..|rs| - 1], competencia) + [Carimbar(rs[|rs| - 1], competencia)]
  }

  /** The records of the files whose `registros` is an array, in file order. */
  function Mesclados(arquivos: seq<ArquivoFolha>): seq<Registro>
    decreases |arquivos|
  {
    if |arquivos| == 0 then []
    else
      Mesclados(arquivos[..|arquivos| - 1]) + DoArquivo(arquivos[|arquivos| - 1])
  }

  /** The stamped records of one file; none when `registros` is not an array. */
  function DoArquivo(a: ArquivoFolha): seq<Registro> {
    match a.registros
    case Some(rs) => Carimbados(rs, a.competencia)
    case None => []
  }

  /** One more file appends its stamped records, if it has any. */
  lemma MescladosSnoc(arquivos: seq<ArquivoFolha>, a: ArquivoFolha)
    ensures Mesclados(arquivos + [a]) == Mesclados(arquivos) + DoArquivo(a)
  {
    var s := arquivos + [a];
    assert s[..|s| - 1] == arquivos && s[|s| - 1] == a;
  }

  /** `totalRegistrosJSON`: the summed lengths of the accepted files' `registros`. */
  function TotalNosArquivos(arquivos: seq<ArquivoFolha>): nat
    decreases |arquivos|
  {
    if |arquivos| == 0 then 0
    else
      TotalNosArquivos(arquivos[..|arquivos| - 1]) + QuantosNoArquivo(arquivos[|arquivos| - 1])
  }

  /** `data.registros.length` for a file whose `registros` is an array. */
  function QuantosNoArquivo(a: ArquivoFolha): nat {
    match a.registros
    case Some(rs) => |rs|
    case None => 0
  }

  lemma TotalNosArquivosSnoc(arquivos: seq<ArquivoFolha>, a: ArquivoFolha)
    ensures TotalNosArquivos(arquivos + [a]) == TotalNosArquivos(arquivos) + QuantosNoArquivo(a)
  {
    var s := arquivos + [a];
    assert s[..|s| - 1] == arquivos && s[|s| - 1] == a;
  }

  /** No record is lost or added by the merge. */
  lemma {:induction false} MescladosTamanho(arquivos: seq<ArquivoFolha>)
    ensures |Mesclados(arquivos)| == TotalNosArquivos(arquivos)
    decreases |arquivos|
  {
    if |arquivos| > 0 {
      MescladosTamanho(arquivos[..|arquivos| - 1]);
    }
  }

  /** When every file names its competência, every merged record has one. */
  lemma {:induction false} MescladosComCompetencia(arquivos: seq<ArquivoFolha>)
    requires forall i :: 0 <= i < |arquivos| ==> arquivos[i].competencia != ""
    ensures forall r :: r in Mesclados(arquivos) ==> r.competencia != ""
    decreases |arquivos|
  {
    if |arquivos| > 0 {
      MescladosComCompetencia(arquivos[..|arquivos| - 1]);
    }
  }

  /** The `forEach` of `carregarTodasFolhas` over one file: each record,
      stamped with the file's competência when it has none, is pushed. */
  method AcrescentarCarimbados(todas: seq<Registro>, rs: seq<Registro>, competencia: string)
    returns (depois: seq<Registro>)
    ensures depois == todas + Carimbados(rs, competencia)
  {
    depois := todas;
    for j := 0 to |rs|
      invariant depois == todas + Carimbados(rs[..j], competencia)
    {
      assert rs[..j + 1][..j] == rs[..j];
      depois := depois + [Carimbar(rs[j], competencia)];
    }
    assert rs[..|rs|] == rs;
  }

  /** One pass of that loop: a file without a `registros` array is skipped,
      any other one has its records counted and pushed. */
  method AcrescentarArquivo(todas: seq<Registro>, total: nat, a: ArquivoFolha)
    returns (depois: seq<Registro>, totalDepois: nat)
    ensures depois == todas + DoArquivo(a)
    ensures totalDepois == total + QuantosNoArquivo(a)
  {
    match a.registros {
      case None =>
        assert todas + [] == todas;
        depois, totalDepois := todas, total;
      case Some(rs) =>
        totalDepois := total + |rs|;
        depois := AcrescentarCarimbados(todas, rs, a.competencia);
    }
  }

  /** The loop of `carregarTodasFolhas` over files already read, with its
      `totalRegistrosJSON` counter: the count it checks at the end always
      equals the number of records merged. */
  method CarregarTodasFolhas(arquivos: seq<ArquivoFolha>) returns (todas: seq<Registro>, total: nat)
    ensures todas == Mesclados(arquivos)
    ensures total == TotalNosArquivos(arquivos) == |todas|
  {
    todas, total := [], 0;
    ghost var vistos: seq<ArquivoFolha> := [];
    for i := 0 to |arquivos|
      invariant vistos == arquivos[..i]
      invariant todas == Mesclados(vistos)
      invariant total == TotalNosArquivos(vistos)
    {
      var a := arquivos[i];
      todas, total := AcrescentarArquivo(todas, total, a);
      assert todas == Mesclados(vistos + [a]) by {
        MescladosSnoc(vistos, a);
      }
      assert total == TotalNosArquivos(vistos + [a]) by {
        TotalNosArquivosSnoc(vistos, a);
      }
      Seqs.PrefixSnoc(arquivos, i);
      vistos := vistos + [a];
    }
    assert arquivos[..|arquivos|] == arquivos;
    MescladosTamanho(arquivos);
  }

  // ---------------------------------------------------------------------
  // filtrarFolha

  /** The filter keys the page passes; `""` for a key that is not set. */
  datatype FiltrosFolha = FiltrosFolha(
    ano: string,
    competencia: string,
    lotacao: string,
    funcao: string,
    vinculo: string,
    nivel: string,
    situacao: string,
    motivoAfastamento: string,
    buscaNome: string)

  predicate SemFiltros(f: FiltrosFolha) {
    f == FiltrosFolha("", "", "", "", "", "", "", "", "")
  }

  /** The year of a competência: its text before the first `-`. */
  function AnoDe(competencia: string): string {
    Texto.FirstField(competencia, '-')
  }

  /** The situação as both the filter and the reducer compare it: trimmed
      and upper-cased, a blank one counting as `'NÃO INFORMADO'`. */
  function SituacaoNormalizada(s: string): string {
    if Texto.Trim(s) != "" then Texto.Upper(Texto.Trim(s)) else NaoInformado
  }

  /** The chosen lotação and its sub-units. */
  function LotacoesCorretas(lotacao: string): seq<string> {
    [lotacao] + Lotacao.ObterSublotacoes(lotacao)
  }

  /** Every original label that maps to one of `corretas`. */
  function LotacoesOriginais(corretas: seq<string>): seq<string>
    decreases |corretas|
  {
    if |corretas| == 0 then []
    else LotacoesOriginais(corretas[..|corretas| - 1]) + Lotacao.ObterLotacoesOriginais(corretas[|corretas| - 1])
  }

  /** The lotação condition of `filtrarFolha`. */
  predicate PassaLotacao(r: Registro, lotacao: string) {
    var corretas := LotacoesCorretas(lotacao);
    (match Lotacao.MapearLotacao(r.lotacaoNormalizada, r.lotacaoOriginal)
     case Some(l) => l in corretas
     case None => false)
    || r.lotacaoNormalizada in LotacoesOriginais(corretas)
  }

  predicate PassaAno(r: Registro, ano: string) {
    r.competencia != "" && AnoDe(r.competencia) == Texto.Trim(ano)
  }

  predicate PassaSituacao(r: Registro, situacao: string) {
    SituacaoNormalizada(r.situacao) == Texto.Upper(Texto.Trim(situacao))
  }

  predicate PassaNome(r: Registro, busca: string) {
    Texto.Contains(Texto.Lower(r.nome), Texto.Lower(busca))
  }

  function PorAno(ano: string): Registro -> bool { (r: Registro) => PassaAno(r, ano) }
  function PorCompetencia(c: string): Registro -> bool { (r: Registro) => r.competencia == c }
  function PorLotacao(l: string): Registro -> bool { (r: Registro) => PassaLotacao(r, l) }
  function PorFuncao(v: string): Registro -> bool { (r: Registro) => r.funcao == v }
  function PorVinculo(v: string): Registro -> bool { (r: Registro) => r.vinculo == v }
  function PorNivel(v: string): Registro -> bool { (r: Registro) => r.nivel == v }
  function PorSituacao(s: string): Registro -> bool { (r: Registro) => PassaSituacao(r, s) }
  function PorMotivo(m: string): Registro -> bool { (r: Registro) => Texto.Trim(r.motivoAfastamento) == Texto.Trim(m) }
  function PorNome(b: string): Registro -> bool { (r: Registro) => PassaNome(r, b) }

  function EtapaAno(f: FiltrosFolha): Option<Registro -> bool> {
    if Texto.Trim(f.ano) != "" then Some(PorAno(f.ano)) else None
  }
  function EtapaCompetencia(f: FiltrosFolha): Option<Registro -> bool> {
    if f.competencia != "" then Some(PorCompetencia(f.competencia)) else None
  }
  function EtapaLotacao(f: FiltrosFolha): Option<Registro -> bool> {
    if f.lotacao != "" then Some(PorLotacao(f.lotacao)) else None
  }
  function EtapaFuncao(f: FiltrosFolha): Option<Registro -> bool> {
    if f.funcao != "" then Some(PorFuncao(f.funcao)) else None
  }
  function EtapaVinculo(f: FiltrosFolha): Option<Registro -> bool> {
    if f.vinculo != "" then Some(PorVinculo(f.vinculo)) else None
  }
  function EtapaNivel(f: FiltrosFolha): Option<Registro -> bool> {
    if f.nivel != "" then Some(PorNivel(f.nivel)) else None
  }
  function EtapaSituacao(f: FiltrosFolha): Option<Registro -> bool> {
    if f.situacao != "" then Some(PorSituacao(f.situacao)) else None
  }
  function EtapaMotivo(f: FiltrosFolha): Option<Registro -> bool> {
    if Texto.Trim(f.motivoAfastamento) != "" then Some(PorMotivo(f.motivoAfastamento)) else None
  }
  function EtapaNome(f: FiltrosFolha): Option<Registro -> bool> {
    if f.buscaNome != "" then Some(PorNome(f.buscaNome)) else None
  }

  /** A record passes every filter whose key is set. */
  predicate Aceita(r: Registro, f: FiltrosFolha) {
    (Texto.Trim(f.ano) != "" ==> PassaAno(r, f.ano))
    && (f.competencia != "" ==> r.competencia == f.competencia)
    && (f.lotacao != "" ==> PassaLotacao(r, f.lotacao))
    && (f.funcao != "" ==> r.funcao == f.funcao)
    && (f.vinculo != "" ==> r.vinculo == f.vinculo)
    && (f.nivel != "" ==> r.nivel == f.nivel)
    && (f.situacao != "" ==> PassaSituacao(r, f.situacao))
    && (Texto.Trim(f.motivoAfastamento) != "" ==> Texto.Trim(r.motivoAfastamento) == Texto.Trim(f.motivoAfastamento))
    && (f.buscaNome != "" ==> PassaNome(r, f.buscaNome))
  }

  function Aceitos(f: FiltrosFolha): Registro -> bool { (r: Registro) => Aceita(r, f) }

  /** `filtrarFolha(dados, filtros)`: the records passing every filter that
      is set, in their original order and each as often as in `dados`; with
      no key set, the input itself. */
  function FiltrarFolha(dados: seq<Registro>, f: FiltrosFolha): (r: seq<Registro>)
    ensures r == Seqs.Filter(dados, Aceitos(f))
    ensures Seqs.IsSubseq(r, dados)
    ensures forall x :: x in r <==> x in dados && Aceita(x, f)
    ensures SemFiltros(f) ==> r == dados
  {
    var r1 := Seqs.Stage(dados, EtapaAno(f));
    var r2 := Seqs.Stage(r1, EtapaCompetencia(f));
    var r3 := Seqs.Stage(r2, EtapaLotacao(f));
    var r4 := Seqs.Stage(r3, EtapaFuncao(f));
    var r5 := Seqs.Stage(r4, EtapaVinculo(f));
    var r6 := Seqs.Stage(r5, EtapaNivel(f));
    var r7 := Seqs.Stage(r6, EtapaSituacao(f));
    var r8 := Seqs.Stage(r7, EtapaMotivo(f));
    var r9 := Seqs.Stage(r8, EtapaNome(f));
    assert r9 == Seqs.Filter(dados, Aceitos(f)) by {
      Seqs.FilterAlways(dados);
      var p1 := Seqs.Then(Seqs.Always(), EtapaAno(f));
      var p2 := Seqs.Then(p1, EtapaCompetencia(f));
      var p3 := Seqs.Then(p2, EtapaLotacao(f));
      var p4 := Seqs.Then(p3, EtapaFuncao(f));
      var p5 := Seqs.Then(p4, EtapaVinculo(f));
      var p6 := Seqs.Then(p5, EtapaNivel(f));
      var p7 := Seqs.Then(p6, EtapaSituacao(f));
      var p8 := Seqs.Then(p7, EtapaMotivo(f));
      var p9 := Seqs.Then(p8, EtapaNome(f));
      Seqs.StageOfFilter(dados, Seqs.Always(), EtapaAno(f));
      Seqs.StageOfFilter(dados, p1, EtapaCompetencia(f));
      Seqs.StageOfFilter(dados, p2, EtapaLotacao(f));
      Seqs.StageOfFilter(dados, p3, EtapaFuncao(f));
      Seqs.StageOfFilter(dados, p4, EtapaVinculo(f));
      Seqs.StageOfFilter(dados, p5, EtapaNivel(f));
      Seqs.StageOfFilter(dados, p6, EtapaSituacao(f));
      Seqs.StageOfFilter(dados, p7, EtapaMotivo(f));
      Seqs.StageOfFilter(dados, p8, EtapaNome(f));
      forall i | 0 <= i < |dados| ensures p9(dados[i]) == Aceitos(f)(dados[i]) {
        AceitaPorEtapas(f, dados[i]);
      }
      Seqs.FilterExt(dados, p9, Aceitos(f));
    }
    Seqs.FilterIsSubseq(dados, Aceitos(f));
    assert forall x :: x in r9 <==> x in dados && Aceita(x, f) by {
      forall x ensures x in r9 <==> x in dados && Aceita(x, f) {
        Seqs.FilterMembership(dados, Aceitos(f), x);
      }
    }
    assert SemFiltros(f) ==> r9 == dados by {
      if SemFiltros(f) {
        assert Texto.Trim("") == "";
      }
    }
    r9
  }

  /** A record is accepted exactly when it passes each step. */
  lemma AceitaPorEtapas(f: FiltrosFolha, x: Registro)
    ensures Aceita(x, f)
        == (Seqs.Passes(EtapaAno(f), x) && Seqs.Passes(EtapaCompetencia(f), x) && Seqs.Passes(EtapaLotacao(f), x)
            && Seqs.Passes(EtapaFuncao(f), x) && Seqs.Passes(EtapaVinculo(f), x) && Seqs.Passes(EtapaNivel(f), x)
            && Seqs.Passes(EtapaSituacao(f), x) && Seqs.Passes(EtapaMotivo(f), x) && Seqs.Passes(EtapaNome(f), x))
  {
    assert Seqs.Passes(EtapaAno(f), x) == (Texto.Trim(f.ano) != "" ==> PassaAno(x, f.ano));
    assert Seqs.Passes(EtapaCompetencia(f), x) == (f.competencia != "" ==> x.competencia == f.competencia);
    EtapaLotacaoPassa(f, x);
    assert Seqs.Passes(EtapaFuncao(f), x) == (f.funcao != "" ==> x.funcao == f.funcao);
    assert Seqs.Passes(EtapaVinculo(f), x) == (f.vinculo != "" ==> x.vinculo == f.vinculo);
    assert Seqs.Passes(EtapaNivel(f), x) == (f.nivel != "" ==> x.nivel == f.nivel);
    assert Seqs.Passes(EtapaSituacao(f), x) == (f.situacao != "" ==> PassaSituacao(x, f.situacao));
    EtapaMotivoPassa(f, x);
    assert Seqs.Passes(EtapaNome(f), x) == (f.buscaNome != "" ==> PassaNome(x, f.buscaNome));
  }

  lemma EtapaLotacaoPassa(f: FiltrosFolha, x: Registro)
    ensures Seqs.Passes(EtapaLotacao(f), x) == (f.lotacao != "" ==> PassaLotacao(x, f.lotacao))
  {
  }

  lemma EtapaMotivoPassa(f: FiltrosFolha, x: Registro)
    ensures Seqs.Passes(EtapaMotivo(f), x)
         == (Texto.Trim(f.motivoAfastamento) != "" ==> Texto.Trim(x.motivoAfastamento) == Texto.Trim(f.motivoAfastamento))
  {
  }

  /** The year filter keeps exactly the records with a competência whose text
      before the first `-` is the trimmed year. */
  lemma FiltroAno(dados: seq<Registro>, ano: string, r: Registro)
    requires Texto.Trim(ano) != ""
    ensures r in FiltrarFolha(dados, FiltrosFolha(ano, "", "", "", "", "", "", "", ""))
        <==> r in dados && r.competencia != "" && AnoDe(r.competencia) == Texto.Trim(ano)
  {
  }

  /** The situação filter compares both sides trimmed and upper-cased, a
      blank situação counting as `'NÃO INFORMADO'`. */
  lemma FiltroSituacao(dados: seq<Registro>, situacao: string, r: Registro)
    requires situacao != ""
    ensures r in FiltrarFolha(dados, FiltrosFolha("", "", "", "", "", "", situacao, "", ""))
        <==> r in dados && SituacaoNormalizada(r.situacao) == Texto.Upper(Texto.Trim(situacao))
  {
  }

  /** The lotação filter keeps a record iff its mapped lotação is the chosen
      one or one of its sub-units, or its raw label is one of the originals
      that map to them. */
  lemma FiltroLotacao(dados: seq<Registro>, lotacao: string, r: Registro)
    requires lotacao != ""
    ensures r in FiltrarFolha(dados, FiltrosFolha("", "", lotacao, "", "", "", "", "", ""))
        <==> r in dados
             && ((exists l :: Lotacao.MapearLotacao(r.lotacaoNormalizada, r.lotacaoOriginal) == Some(l)
                             && (l == lotacao || l in Lotacao.ObterSublotacoes(lotacao)))
                 || r.lotacaoNormalizada in LotacoesOriginais(LotacoesCorretas(lotacao)))
  {
    var f := FiltrosFolha("", "", lotacao, "", "", "", "", "", "");
    assert Texto.Trim("") == "";
    assert Aceita(r, f) == PassaLotacao(r, lotacao);
    match Lotacao.MapearLotacao(r.lotacaoNormalizada, r.lotacaoOriginal)
    case None =>
    case Some(l) =>
      assert l in LotacoesCorretas(lotacao) <==> l == lotacao || l in Lotacao.ObterSublotacoes(lotacao);
  }

  // ---------------------------------------------------------------------
  // agregarPorCompetencia, agregarPorAno, agregarPorLotacao,
  // agregarPorVinculo, agregarPorSituacao, agregarPorFuncaoNivel,
  // agregarPorFuncao

  /** None of the three amounts (`NaN` read as 0) exceeds the outlier bound;
      every reducer skips the records that fail this. */
  predicate DentroDoLimite(r: Registro) {
    OrZero(r.liquido) <= MaxValor && OrZero(r.vantagem) <= MaxValor && OrZero(r.desconto) <= MaxValor
  }

  /** The key a record adds to `funcionariosUnicos`: the trimmed CPF, else
      the trimmed name unless the row is the totals line. */
  function PessoaFolha(r: Registro): (p: Option<string>)
    ensures p.Some? ==> p.value != ""
    ensures Texto.Trim(r.cpf) != "" ==> p == Some(Texto.Trim(r.cpf))
    ensures Texto.Trim(r.cpf) == "" && (Texto.Trim(r.nome) == "" || r.nome == LinhaDeTotais) ==> p.None?
  {
    if Texto.Trim(r.cpf) != "" then Some(Texto.Trim(r.cpf))
    else if Texto.Trim(r.nome) != "" && r.nome != LinhaDeTotais then Some(Texto.Trim(r.nome))
    else None
  }

  /** The name pushed onto `funcionarios` by most reducers. */
  function NomeListado(r: Registro): Option<string> {
    if r.nome != "" && r.nome != LinhaDeTotais then Some(r.nome) else None
  }

  /** A contribution of the record's three amounts. */
  function Contribuir(r: Registro, chave: string, rotulo: seq<string>, pessoa: Option<string>,
                      nome: Option<string>, competencia: Option<string>, motivo: Option<Agregacao.Motivo>): Agregacao.Contribuicao {
    Agregacao.Contribuicao(chave, rotulo, OrZero(r.liquido), OrZero(r.vantagem), OrZero(r.desconto),
                           pessoa, nome, competencia, motivo)
  }

  /** `agregarPorCompetencia`: keyed by the raw competência. */
  function ContribuicaoCompetencia(r: Registro): Option<Agregacao.Contribuicao> {
    if !DentroDoLimite(r) then None
    else Some(Contribuir(r, r.competencia, [r.competencia], PessoaFolha(r), NomeListado(r), None, None))
  }

  /** The year key: the text before the first `-` of the competência, or
      `'NÃO INFORMADO'` when that is empty or there is no competência. */
  function ChaveAno(competencia: string): (k: string)
    ensures k != ""
    ensures '-' !in k
  {
    if competencia == "" || AnoDe(competencia) == "" then NaoInformado else AnoDe(competencia)
  }

  /** `agregarPorAno`: keyed by the year, also collecting the competências. */
  function ContribuicaoAno(r: Registro): Option<Agregacao.Contribuicao> {
    if !DentroDoLimite(r) then None
    else
      var k := ChaveAno(r.competencia);
      Some(Contribuir(r, k, [k], PessoaFolha(r), NomeListado(r),
                      if r.competencia != "" then Some(r.competencia) else None, None))
  }

  /** `lotacao_normalizada || lotacao || 'SEM LOTAÇÃO'`. */
  function LotacaoInformada(r: Registro): string {
    if r.lotacaoNormalizada != "" then r.lotacaoNormalizada
    else if r.lotacao != "" then r.lotacao
    else "SEM LOTAÇÃO"
  }

  /** The lotação key: the resolved unit, `None` when it resolves to `null`. */
  function ChaveLotacao(r: Registro): Option<string> {
    Lotacao.MapearLotacao(LotacaoInformada(r), r.lotacaoOriginal)
  }

  /** `agregarPorLotacao`: keyed by the resolved unit; a record whose unit
      resolves to `null` is skipped too. */
  function ContribuicaoLotacao(r: Registro): Option<Agregacao.Contribuicao> {
    if !DentroDoLimite(r) then None
    else
      match ChaveLotacao(r)
      case None => None
      case Some(k) => Some(Contribuir(r, k, [k], PessoaFolha(r), NomeListado(r), None, None))
  }

  predicate AgregavelPorLotacao(r: Registro) {
    DentroDoLimite(r) && ChaveLotacao(r).Some?
  }

  /** The vínculo key: trimmed, a blank one counting as `'NÃO INFORMADO'`. */
  function ChaveVinculo(v: string): (k: string)
    ensures k != ""
  {
    if Texto.Trim(v) != "" then Texto.Trim(v) else NaoInformado
  }

  /** `agregarPorVinculo`: keyed by the vínculo; any non-empty name is listed. */
  function ContribuicaoVinculo(r: Registro): Option<Agregacao.Contribuicao> {
    if !DentroDoLimite(r) then None
    else
      var k := ChaveVinculo(r.vinculo);
      Some(Contribuir(r, k, [k], PessoaFolha(r), if r.nome != "" then Some(r.nome) else None, None, None))
  }

  /** `agregarPorSituacao`: keyed by the normalised situação; non-blank
      names other than the totals line are listed, and an `'AFASTADO'`
      record with a leave reason adds `{nome, motivo}`. */
  function ContribuicaoSituacao(r: Registro): Option<Agregacao.Contribuicao> {
    if !DentroDoLimite(r) then None
    else
      var k := SituacaoNormalizada(r.situacao);
      Some(Contribuir(r, k, [k], PessoaFolha(r),
                      if Texto.Trim(r.nome) != "" && r.nome != LinhaDeTotais then Some(r.nome) else None,
                      None,
                      if k == "AFASTADO" && r.motivoAfastamento != ""
                      then Some(Agregacao.Motivo(r.nome, r.motivoAfastamento)) else None))
  }

  /** `x || 'NÃO INFORMADO'`. */
  function OuNaoInformado(x: string): string {
    if x != "" then x else NaoInformado
  }

  /** `agregarPorFuncaoNivel`: keyed by `` `${funcao}_${nivel}` ``, with
      both parts as the bucket's label; no person set. */
  function ContribuicaoFuncaoNivel(r: Registro): Option<Agregacao.Contribuicao> {
    if !DentroDoLimite(r) then None
    else
      var funcao := OuNaoInformado(r.funcao);
      var nivel := OuNaoInformado(r.nivel);
      Some(Contribuir(r, funcao + "_" + nivel, [funcao, nivel], None, NomeListado(r), None, None))
  }

  /** `agregarPorFuncao`: keyed by the função; amounts and counts only. */
  function ContribuicaoFuncao(r: Registro): Option<Agregacao.Contribuicao> {
    if !DentroDoLimite(r) then None
    else
      var funcao := OuNaoInformado(r.funcao);
      Some(Contribuir(r, funcao, [funcao], None, None, None, None))
  }

  /** The guarantees every payroll reducer shares: the counts add up to the
      number of records it does not skip, and no bucket names more people
      than it has records. */
  ghost predicate Contabilizado(dados: seq<Registro>, g: Agregacao.Grupos, aceito: Registro -> bool) {
    Agregacao.SomaEm(g.ordem, g.buckets, Agregacao.Contagem) == |Seqs.Filter(dados, aceito)| as real
    && forall k :: k in g.buckets ==> |g.buckets[k].unicos| <= g.buckets[k].count
  }

  lemma Contabiliza(dados: seq<Registro>, f: Registro -> Option<Agregacao.Contribuicao>, aceito: Registro -> bool)
    requires forall r :: f(r).Some? == aceito(r)
    ensures Contabilizado(dados, Agregacao.Dobrar(dados, f, None), aceito)
  {
    Agregacao.ContagensPorFiltro(dados, f, None, aceito);
    forall k | k in Agregacao.Dobrar(dados, f, None).buckets
      ensures |Agregacao.Dobrar(dados, f, None).buckets[k].unicos| <= Agregacao.Dobrar(dados, f, None).buckets[k].count
    {
      Agregacao.UnicosLimitados(dados, f, None, k);
    }
  }

  method AgregarPorCompetencia(dados: seq<Registro>) returns (g: Agregacao.Grupos)
    ensures g == Agregacao.Dobrar(dados, ContribuicaoCompetencia, None)
    ensures Contabilizado(dados, g, DentroDoLimite)
  {
    g := Agregacao.Agregar(dados, ContribuicaoCompetencia, None);
    Contabiliza(dados, ContribuicaoCompetencia, DentroDoLimite);
  }

  method AgregarPorAno(dados: seq<Registro>) returns (g: Agregacao.Grupos)
    ensures g == Agregacao.Dobrar(dados, ContribuicaoAno, None)
    ensures Contabilizado(dados, g, DentroDoLimite)
  {
    g := Agregacao.Agregar(dados, ContribuicaoAno, None);
    Contabiliza(dados, ContribuicaoAno, DentroDoLimite);
  }

  method AgregarPorLotacao(dados: seq<Registro>) returns (g: Agregacao.Grupos)
    ensures g == Agregacao.Dobrar(dados, ContribuicaoLotacao, None)
    ensures Contabilizado(dados, g, AgregavelPorLotacao)
  {
    g := Agregacao.Agregar(dados, ContribuicaoLotacao, None);
    Contabiliza(dados, ContribuicaoLotacao, AgregavelPorLotacao);
  }

  method AgregarPorVinculo(dados: seq<Registro>) returns (g: Agregacao.Grupos)
    ensures g == Agregacao.Dobrar(dados, ContribuicaoVinculo, None)
    ensures Contabilizado(dados, g, DentroDoLimite)
  {
    g := Agregacao.Agregar(dados, ContribuicaoVinculo, None);
    Contabiliza(dados, ContribuicaoVinculo, DentroDoLimite);
  }

  method AgregarPorSituacao(dados: seq<Registro>) returns (g: Agregacao.Grupos)
    ensures g == Agregacao.Dobrar(dados, ContribuicaoSituacao, None)
    ensures Contabilizado(dados, g, DentroDoLimite)
  {
    g := Agregacao.Agregar(dados, ContribuicaoSituacao, None);
    Contabiliza(dados, ContribuicaoSituacao, DentroDoLimite);
  }

  method AgregarPorFuncaoNivel(dados: seq<Registro>) returns (g: Agregacao.Grupos)
    ensures g == Agregacao.Dobrar(dados, ContribuicaoFuncaoNivel, None)
    ensures Contabilizado(dados, g, DentroDoLimite)
  {
    g := Agregacao.Agregar(dados, ContribuicaoFuncaoNivel, None);
    Contabiliza(dados, ContribuicaoFuncaoNivel, DentroDoLimite);
  }

  method AgregarPorFuncao(dados: seq<Registro>) returns (g: Agregacao.Grupos)
    ensures g == Agregacao.Dobrar(dados, ContribuicaoFuncao, None)
    ensures Contabilizado(dados, g, DentroDoLimite)
  {
    g := Agregacao.Agregar(dados, ContribuicaoFuncao, None);
    Contabiliza(dados, ContribuicaoFuncao, DentroDoLimite);
  }

  /** Every competência listed under a year bucket belongs to that year. */
  lemma CompetenciasDoAno(dados: seq<Registro>, k: string, x: string)
    requires k in Agregacao.Dobrar(dados, ContribuicaoAno, None).buckets
    requires x in Agregacao.Dobrar(dados, ContribuicaoAno, None).buckets[k].competencias
    ensures x != "" && ChaveAno(x) == k
  {
    Agregacao.CompetenciaDeOrigem(dados, ContribuicaoAno, None, k, x);
    var i :| 0 <= i < |dados| && ContribuicaoAno(dados[i]).Some? && ContribuicaoAno(dados[i]).value.chave == k
             && ContribuicaoAno(dados[i]).value.competencia == Some(x);
    var r := dados[i];
    assert x == r.competencia && k == ChaveAno(r.competencia);
  }

  /** The normalised situação is already trimmed and upper-cased, so
      normalising again, or filtering by it, changes nothing. */
  lemma SituacaoIdempotente(s: string)
    ensures Texto.Upper(Texto.Trim(SituacaoNormalizada(s))) == SituacaoNormalizada(s)
    ensures SituacaoNormalizada(SituacaoNormalizada(s)) == SituacaoNormalizada(s)
  {
    if Texto.Trim(s) != "" {
      var u := Texto.Trim(s);
      Texto.UpperTrimmed(u);
      Texto.UpperIdempotent(u);
    } else {
      NaoInformadoNormal();
    }
  }

  lemma NaoInformadoNormal()
    ensures Texto.Trim(NaoInformado) == NaoInformado
    ensures Texto.Upper(NaoInformado) == NaoInformado
  {
    NaoInformadoAparado();
    NaoInformadoMaiusculo();
  }

  lemma NaoInformadoAparado()
    ensures Texto.Trim(NaoInformado) == NaoInformado
  {
    Texto.TrimOfTrimmed(NaoInformado);
  }

  lemma NaoInformadoMaiusculo()
    ensures Texto.Upper(NaoInformado) == NaoInformado
  {
    var u := Texto.Upper(NaoInformado);
    forall i | 0 <= i < |NaoInformado| ensures u[i] == NaoInformado[i] {
    }
  }

  /** Every situação bucket is keyed by the normalised situação of some
      record that was not skipped. */
  lemma ChavesSituacao(dados: seq<Registro>, k: string)
    requires k in Agregacao.Dobrar(dados, ContribuicaoSituacao, None).buckets
    ensures exists i :: 0 <= i < |dados| && DentroDoLimite(dados[i]) && k == SituacaoNormalizada(dados[i].situacao)
  {
    Agregacao.ChaveDeOrigem(dados, ContribuicaoSituacao, None, k);
    var i :| 0 <= i < |dados| && ContribuicaoSituacao(dados[i]).Some? && ContribuicaoSituacao(dados[i]).value.chave == k;
    assert DentroDoLimite(dados[i]) && k == SituacaoNormalizada(dados[i].situacao);
  }

  /** Filtering by a situação bucket's key selects exactly the records the
      reducer puts in that bucket's key. */
  lemma FiltroPorSituacaoNormalizada(s: string, r: Registro)
    ensures PassaSituacao(r, SituacaoNormalizada(s)) <==> SituacaoNormalizada(r.situacao) == SituacaoNormalizada(s)
  {
    SituacaoIdempotente(s);
  }

  // ---------------------------------------------------------------------
  // calcularEstatisticas

  /** The object `calcularEstatisticas` returns. */
  datatype Estatisticas = Estatisticas(
    totalFuncionarios: nat,
    totalRegistros: nat,
    totalLiquido: real,
    totalVantagem: real,
    totalDesconto: real,
    mediaLiquido: real,
    medianaLiquido: real,
    maiorLiquido: real,
    menorLiquido: real)

  /** The distinct people of `dados` by the rule of `PessoaFolha`. */
  function Pessoas(dados: seq<Registro>): set<string> {
    Seqs.Collect(dados, PessoaFolha)
  }

  function LiquidoOuZero(r: Registro): real { OrZero(r.liquido) }
  function VantagemOuZero(r: Registro): real { OrZero(r.vantagem) }

  /** `dados.map(r => Number(r.liquido) || 0)`. */
  function Liquidos(dados: seq<Registro>): seq<real> {
    Seqs.Map(dados, LiquidoOuZero)
  }

  function Vantagens(dados: seq<Registro>): seq<real> {
    Seqs.Map(dados, VantagemOuZero)
  }

  /** A totals row: its name mentions `'*Totais*'` or `'TOTAL'`. */
  predicate LinhaDeTotal(nome: string) {
    Texto.Contains(nome, LinhaDeTotais) || Texto.Contains(nome, "TOTAL") || Texto.Contains(nome, "TOTAL GERAL")
  }

  /** What the discount loop adds for one record: nothing for a totals row
      or a `NaN`, a negative value as it is, nothing above the bound, and
      the value otherwise. */
  function ParcelaDesconto(r: Registro): Option<real> {
    if LinhaDeTotal(r.nome) then None
    else
      match r.desconto
      case NaN => None
      case Val(v) => if v < 0.0 then Some(v) else if v > MaxValor then None else Some(v)
  }

  /** `totalDesconto` as the loop accumulates it. */
  function TotalDesconto(dados: seq<Registro>): real
    decreases |dados|
  {
    if |dados| == 0 then 0.0
    else
      TotalDesconto(dados[..|dados| - 1])
      + (match ParcelaDesconto(dados[|dados| - 1]) case Some(v) => v case None => 0.0)
  }

  /** The numeric discounts of the rows that are not totals rows. */
  function DescontosNumericos(dados: seq<Registro>): seq<real>
    decreases |dados|
  {
    if |dados| == 0 then []
    else
      var r := dados[|dados| - 1];
      DescontosNumericos(dados[..|dados| - 1])
      + (if !LinhaDeTotal(r.nome) && r.desconto.Val? then [r.desconto.v] else [])
  }

  /** The discount total is the bounded sum of the numeric discounts of the
      ordinary rows: negative values count, values above the bound do not. */
  lemma {:induction false} TotalDescontoLimitado(dados: seq<Registro>)
    ensures TotalDesconto(dados) == Estatistica.SomaLimitada(DescontosNumericos(dados))
    decreases |dados|
  {
    if |dados| > 0 {
      var d0 := dados[..|dados| - 1];
      var r := dados[|dados| - 1];
      TotalDescontoLimitado(d0);
      if !LinhaDeTotal(r.nome) && r.desconto.Val? {
        Estatistica.SomaLimitadaPasso(DescontosNumericos(d0), r.desconto.v);
      } else {
        assert DescontosNumericos(dados) == DescontosNumericos(d0);
      }
    }
  }

  /** The `forEach` that fills `funcionariosUnicos`. */
  method ContarPessoas(dados: seq<Registro>) returns (unicos: set<string>)
    ensures unicos == Pessoas(dados)
    ensures |unicos| <= |dados|
    ensures forall p :: p in unicos <==> exists i :: 0 <= i < |dados| && PessoaFolha(dados[i]) == Some(p)
  {
    unicos := {};
    for i := 0 to |dados|
      invariant unicos == Seqs.Collect(dados[..i], PessoaFolha)
    {
      assert dados[..i + 1][..i] == dados[..i];
      match PessoaFolha(dados[i]) {
        case Some(p) => unicos := unicos + {p};
        case None =>
      }
    }
    assert dados[..|dados|] == dados;
    Seqs.CollectSize(dados, PessoaFolha);
    forall p ensures p in unicos <==> exists i :: 0 <= i < |dados| && PessoaFolha(dados[i]) == Some(p) {
      Seqs.CollectMembership(dados, PessoaFolha, p);
    }
  }

  /** The `forEach` that accumulates `totalDesconto`. */
  method SomarDescontos(dados: seq<Registro>) returns (total: real)
    ensures total == TotalDesconto(dados)
    ensures total == Estatistica.SomaLimitada(DescontosNumericos(dados))
  {
    total := 0.0;
    for i := 0 to |dados|
      invariant total == TotalDesconto(dados[..i])
    {
      assert dados[..i + 1][..i] == dados[..i];
      var r := dados[i];
      if !LinhaDeTotal(r.nome) {
        match r.desconto {
          case NaN =>
          case Val(v) =>
            if v < 0.0 {
              total := total + v;
            } else if v <= MaxValor {
              total := total + v;
            }
        }
      }
    }
    assert dados[..|dados|] == dados;
    TotalDescontoLimitado(dados);
  }

  /** `calcularEstatisticas(dados)`. */
  method CalcularEstatisticas(dados: seq<Registro>) returns (e: Estatisticas)
    ensures |dados| == 0 ==> e == Estatisticas(0, 0, 0.0, 0.0, 0.0, 0.0, 0.0, 0.0, 0.0)
    ensures |dados| > 0 ==>
      e.totalFuncionarios == |Pessoas(dados)|
      && e.totalRegistros == |dados|
      && e.totalLiquido == Estatistica.SomaLimitada(Liquidos(dados))
      && e.totalVantagem == Estatistica.SomaLimitada(Vantagens(dados))
      && e.totalDesconto == TotalDesconto(dados)
      && e.mediaLiquido == e.totalLiquido / (|dados| as real)
      && Estatistica.Posicao(e.medianaLiquido, e.maiorLiquido, e.menorLiquido)
         == Estatistica.Posicoes(Liquidos(dados))
    ensures e.totalFuncionarios <= e.totalRegistros
  {
    if |dados| == 0 {
      return Estatisticas(0, 0, 0.0, 0.0, 0.0, 0.0, 0.0, 0.0, 0.0);
    }
    var unicos := ContarPessoas(dados);
    var totalLiquido := Estatistica.SomaLimitada(Liquidos(dados));
    var totalVantagem := Estatistica.SomaLimitada(Vantagens(dados));
    var totalDesconto := SomarDescontos(dados);
    var pos := Estatistica.Posicoes(Liquidos(dados));
    e := Estatisticas(|unicos|, |dados|, totalLiquido, totalVantagem, totalDesconto,
                      totalLiquido / (|dados| as real), pos.mediana, pos.maior, pos.menor);
  }

  // ---------------------------------------------------------------------
  // calcularEstatisticasAnuais

  /** One year's entry of `calcularEstatisticasAnuais`. */
  datatype ResumoAno = ResumoAno(
    ano: string,
    totalFuncionarios: nat,
    totalRegistros: nat,
    totalLiquido: real,
    totalVantagem: real,
    totalDesconto: real,
    mediaLiquido: real,
    mediaVantagem: real,
    mediaDesconto: real,
    mesesComDados: nat,
    competencias: seq<string>)

  function Media(total: real, count: nat): real {
    if count > 0 then total / (count as real) else 0.0
  }

  /** The summary of one year bucket. */
  function Resumir(ano: string, b: Agregacao.Bucket): ResumoAno {
    var ordenadas := Ordenacao.SortLex(b.competencias);
    ResumoAno(ano, |b.unicos|, b.count, b.liquido, b.vantagem, b.desconto,
              Media(b.liquido, b.count), Media(b.vantagem, b.count), Media(b.desconto, b.count),
              |b.competencias|, ordenadas)
  }

  /** The summary lists the bucket's competências in order, and counts one
      month per listed competência when they are distinct. */
  lemma ResumirForma(ano: string, b: Agregacao.Bucket)
    ensures var r := Resumir(ano, b);
            (Seqs.NoDup(b.competencias) ==>
               r.mesesComDados == |r.competencias| && Ordenacao.StrictlySortedLex(r.competencias))
            && forall c :: c in r.competencias <==> c in b.competencias
  {
    var ordenadas := Ordenacao.SortLex(b.competencias);
    forall c ensures c in ordenadas <==> c in b.competencias {
      assert c in ordenadas <==> c in multiset(ordenadas);
      assert c in b.competencias <==> c in multiset(b.competencias);
    }
    assert |ordenadas| == |b.competencias| by {
      assert |multiset(ordenadas)| == |multiset(b.competencias)|;
    }
    if Seqs.NoDup(b.competencias) {
      Ordenacao.SortLexDistinct(b.competencias);
    }
  }

  /** `calcularEstatisticasAnuais(dados)`: one summary per year bucket.
      `anos` is the order `Object.keys` lists the result in: the years
      ascending, then the other keys (`'NÃO INFORMADO'`, a year with a
      leading zero) in the order they were first seen. */
  method CalcularEstatisticasAnuais(dados: seq<Registro>) returns (anos: seq<string>, resumos: map<string, ResumoAno>)
    ensures var g := Agregacao.Dobrar(dados, ContribuicaoAno, None);
            anos == ChavesObjeto.OrdemDeEnumeracao(g.ordem)
            && resumos.Keys == g.buckets.Keys
            && forall k :: k in resumos ==> resumos[k] == Resumir(k, g.buckets[k])
  {
    var g := Agregacao.Agregar(dados, ContribuicaoAno, None);
    anos := ChavesObjeto.OrdemDeEnumeracao(g.ordem);
    resumos := ResumirGrupos(g);
  }

  /** The summary of every bucket, keyed by the bucket's key, built in the
      buckets' order. */
  method ResumirGrupos(g: Agregacao.Grupos) returns (resumos: map<string, ResumoAno>)
    requires Agregacao.Valido(g)
    ensures resumos.Keys == g.buckets.Keys
    ensures forall k :: k in resumos ==> resumos[k] == Resumir(k, g.buckets[k])
  {
    resumos := map[];
    for i := 0 to |g.ordem|
      invariant forall k :: k in resumos <==> k in g.ordem[..i]
      invariant forall k :: k in resumos ==> k in g.buckets && resumos[k] == Resumir(k, g.buckets[k])
    {
      var k := g.ordem[i];
      assert g.ordem[..i + 1] == g.ordem[..i] + [k];
      resumos := resumos[k := Resumir(k, g.buckets[k])];
    }
    assert g.ordem[..|g.ordem|] == g.ordem;
  }

  /** Each year summary has at most one person per record, one month per
      distinct competência, listed in order, and every listed competência
      belongs to that year. */
  lemma ResumoAnoCorreto(dados: seq<Registro>, k: string)
    requires k in Agregacao.Dobrar(dados, ContribuicaoAno, None).buckets
    ensures var r := Resumir(k, Agregacao.Dobrar(dados, ContribuicaoAno, None).buckets[k]);
            r.totalFuncionarios <= r.totalRegistros
            && r.mesesComDados == |r.competencias|
            && Ordenacao.StrictlySortedLex(r.competencias)
            && forall c :: c in r.competencias ==> c != "" && ChaveAno(c) == k
  {
    var g := Agregacao.Dobrar(dados, ContribuicaoAno, None);
    ResumirForma(k, g.buckets[k]);
    Agregacao.UnicosLimitados(dados, ContribuicaoAno, None, k);
    Agregacao.BucketExato(dados, ContribuicaoAno, None, k);
    forall c | c in g.buckets[k].competencias ensures c != "" && ChaveAno(c) == k {
      CompetenciasDoAno(dados, k, c);
    }
  }

  // ---------------------------------------------------------------------
  // topN

  /** A record `topN` may rank by `campo`: a non-blank name other than the
      totals line and a numeric `campo`. */
  predicate Individual(r: Registro, campo: Campo) {
    Texto.Trim(r.nome) != "" && r.nome != LinhaDeTotais && Valor(r, campo).Val?
  }

  function Individuais(campo: Campo): Registro -> bool {
    (r: Registro) => Individual(r, campo)
  }

  /** The ranking key `Number(r[campo]) || 0`. */
  function ChaveTop(campo: Campo): Registro -> real {
    (r: Registro) => OrZero(Valor(r, campo))
  }

  /** The records `topN(dados, campo, n)` keeps, before the projection:
      `slice(0, n)` of the ranked individual records. */
  function TopRegistros(dados: seq<Registro>, campo: Campo, n: int): (r: seq<Registro>)
    ensures |r| == Seqs.SliceBound(n, |Seqs.Filter(dados, Individuais(campo))|)
    ensures forall x :: x in r ==> x in dados && Individual(x, campo)
    ensures Ordenacao.SortedDesc(r, ChaveTop(campo))
  {
    if |dados| == 0 then []
    else Estatistica.TopFiltrado(dados, Individuais(campo), ChaveTop(campo), n)
  }

  /** Ties keep their input order: among the kept records with a given
      key, they are the first such individual records of the input. */
  lemma TopRegistrosEstavel(dados: seq<Registro>, campo: Campo, n: int, v: real)
    ensures var cands := Seqs.Filter(dados, Individuais(campo));
            var w := Ordenacao.WithKey(TopRegistros(dados, campo, n), ChaveTop(campo), v);
            |w| <= |Ordenacao.WithKey(cands, ChaveTop(campo), v)|
            && w == Ordenacao.WithKey(cands, ChaveTop(campo), v)[..|w|]
  {
    var cands := Seqs.Filter(dados, Individuais(campo));
    if |dados| > 0 {
      Estatistica.MelhoresEstavel(cands, ChaveTop(campo), Seqs.SliceBound(n, |cands|), v);
    } else {
      assert cands == [];
    }
  }

  /** No individual record left out ranks above one kept. */
  lemma TopRegistrosDominam(dados: seq<Registro>, campo: Campo, n: int, x: Registro)
    requires x in dados && Individual(x, campo) && x !in TopRegistros(dados, campo, n)
    ensures forall y :: y in TopRegistros(dados, campo, n) ==> OrZero(Valor(y, campo)) >= OrZero(Valor(x, campo))
  {
    var cands := Seqs.Filter(dados, Individuais(campo));
    Seqs.FilterMembership(dados, Individuais(campo), x);
    Estatistica.MelhoresDominam(cands, ChaveTop(campo), Seqs.SliceBound(n, |cands|), x);
  }

  /** A row of the `topN` result. */
  datatype LinhaTop = LinhaTop(
    nome: string,
    cpf: string,
    lotacaoNormalizada: string,
    vinculo: string,
    funcao: string,
    situacao: string,
    valor: real)

  function Projetar(r: Registro, campo: Campo): LinhaTop {
    LinhaTop(if r.nome != "" then r.nome else "N/A",
             r.cpf,
             if r.lotacaoNormalizada != "" then r.lotacaoNormalizada else if r.lotacao != "" then r.lotacao else "N/A",
             r.vinculo, r.funcao, r.situacao, OrZero(Valor(r, campo)))
  }

  function Projecao(campo: Campo): Registro -> LinhaTop {
    (r: Registro) => Projetar(r, campo)
  }

  /** `topN(dados, campo, n)`: the kept records projected to their display
      fields, in non-increasing order of the value. */
  function TopN(dados: seq<Registro>, campo: Campo, n: int): (linhas: seq<LinhaTop>)
    ensures |linhas| == Seqs.SliceBound(n, |Seqs.Filter(dados, Individuais(campo))|)
    ensures forall i :: 0 <= i < |linhas| ==> linhas[i] == Projetar(TopRegistros(dados, campo, n)[i], campo)
    ensures forall i :: 0 <= i < |linhas| ==> linhas[i].nome != "" && linhas[i].nome != LinhaDeTotais
    ensures forall i, j :: 0 <= i < j < |linhas| ==> linhas[i].valor >= linhas[j].valor
  {
    var r := TopRegistros(dados, campo, n);
    Projetados(r, campo)
  }

  /** The rows of already ranked individual records. */
  function Projetados(r: seq<Registro>, campo: Campo): (linhas: seq<LinhaTop>)
    requires forall x :: x in r ==> Individual(x, campo)
    requires Ordenacao.SortedDesc(r, ChaveTop(campo))
    ensures |linhas| == |r|
    ensures forall i :: 0 <= i < |linhas| ==> linhas[i] == Projetar(r[i], campo)
    ensures forall i :: 0 <= i < |linhas| ==> linhas[i].nome == r[i].nome && linhas[i].valor == ChaveTop(campo)(r[i])
    ensures forall i :: 0 <= i < |linhas| ==> linhas[i].nome != "" && linhas[i].nome != LinhaDeTotais
    ensures forall i, j :: 0 <= i < j < |linhas| ==> linhas[i].valor >= linhas[j].valor
  {
    var linhas := Seqs.Map(r, Projecao(campo));
    assert forall i :: 0 <= i < |r| ==> r[i].nome != "" && r[i].nome != LinhaDeTotais by {
      forall i | 0 <= i < |r| ensures r[i].nome != "" && r[i].nome != LinhaDeTotais {
        assert r[i] in r;
        assert Individual(r[i], campo);
        assert Texto.Trim(r[i].nome) != "";
      }
    }
    assert forall i :: 0 <= i < |linhas| ==> linhas[i].nome == r[i].nome && linhas[i].valor == ChaveTop(campo)(r[i]) by {
      forall i | 0 <= i < |linhas| ensures linhas[i].nome == r[i].nome && linhas[i].valor == ChaveTop(campo)(r[i]) {
        assert linhas[i] == Projetar(r[i], campo);
      }
    }
    linhas
  }

  // ---------------------------------------------------------------------
  // valoresUnicos

  /** `valoresUnicos(dados, campo)`: the distinct non-empty values of a text
      field, sorted. */
  function ValoresUnicos(dados: seq<Registro>, campo: Registro -> string): (r: seq<string>)
    ensures Ordenacao.StrictlySortedLex(r)
    ensures forall v :: v in r <==> v != "" && exists i :: 0 <= i < |dados| && campo(dados[i]) == v
  {
    var valores := Seqs.Map(dados, campo);
    assert forall v :: v in valores <==> exists i :: 0 <= i < |dados| && campo(dados[i]) == v by {
      forall v ensures v in valores <==> exists i :: 0 <= i < |dados| && campo(dados[i]) == v {
        if v in valores {
          var i :| 0 <= i < |valores| && valores[i] == v;
        }
      }
    }
    Ordenacao.DistintosOrdenados(valores)
  }
}
