/** The lotação resolver: the static alias table `LOTACAO_MAPPING`, the
    derived reverse map, the two-level `SUBLOTACOES` table and the lookups
    over them (utils/lotacao-mapping.js).

    A JavaScript object literal is modelled by two views of the same table:
    `Tabela` answers a lookup (`None` when the label is not a key,
    `Some(None)` for the `null` entry) and `Chaves` lists the keys in
    `Object.keys` order.  `ChavesDaTabela` proves that the two agree.  The
    table is written in four blocks of thirteen consecutive entries so that
    each proof about it stays small. */
module Lotacao {
  import opened Base
  import Seqs
  import Texto

  // ---------------------------------------------------------------------
  // LOTACAO_MAPPING

  /** Entries on lines 7-20 of the table. */
  function Bloco1(s: string): Option<Option<string>> {
    if |s| == 13 && s == "PROFA VALERIA" then Some(Some("ETSAL")) else
    if |s| == 16 && s == "PORTUGAL RAMALHO" then Some(Some("HEPR")) else
    if |s| == 15 && s == "CHEFIA GABINETE" then Some(Some("REITORIA")) else
    if |s| == 19 && s == "MATERN ESCOLA SANTA" then Some(Some("MESM")) else
    if |s| == 21 && s == "MOVIMENTACAO FUNCIONA" then Some(Some("SUMOF")) else
    if |s| == 7 && s == "- SAUDE" then Some(Some("SERVIDORES CEDIDOS - SAUDE")) else
    if |s| == 8 && s == "REITORIA" then Some(Some("REITORIA")) else
    if |s| == 16 && s == "CHEF GES PESSOAS" then Some(Some("PROGESP")) else
    if |s| == 27 && s == "CHEFIA DE GESTAO DE PESSOAS" then Some(Some("PROGESP")) else
    if |s| == 11 && s == "HELVIO AUTO" then Some(Some("HEHA")) else
    if |s| == 27 && s == "CENTRO DE CIENCIAS DA SAUDE" then Some(Some("CCS")) else
    if |s| == 26 && s == "SERVICO VERIFICACAO OBITOS" then Some(Some("SVO")) else
    if |s| == 31 && s == "CENTRO DE CIENCIAS INTEGRADORAS" then Some(Some("CCI")) else
    None
  }

  /** Entries on lines 21-33 of the table. */
  function Bloco2(s: string): Option<Option<string>> {
    if |s| == 25 && s == "SUPERVISAO ADMINISTRATIVA" then Some(Some("PROGAD")) else
    if |s| == 26 && s == "AMBULATORIO ESPECIALIDADES" then Some(Some("AMBESP")) else
    if |s| == 21 && s == "CENTRO PATOL MEDICINA" then Some(Some("CPML")) else
    if |s| == 12 && s == "CONTAS PAGAR" then Some(Some("GEPOF")) else
    if |s| == 11 && s == "MATERNIDADE" then Some(Some("MESM")) else
    if |s| == 16 && s == "MATERN ESC SANTA" then Some(Some("MESM")) else
    if |s| == 20 && s == "CENTRO DE TECNOLOGIA" then Some(Some("CTEC")) else
    if |s| == 17 && s == "TECNOLOGIA INFORM" then Some(Some("SUTIN")) else
    if |s| == 13 && s == "SAUDE BEM-EST" then Some(Some("SASBEM")) else
    if |s| == 20 && s == "SUPERVISAO LOGISTICA" then Some(Some("PROGAD")) else
    if |s| == 19 && s == "COORDENADORIA CURSO" then Some(Some("COORDENADORIA CURSO")) else
    if |s| == 18 && s == "DESENVOLVIMENTO PE" then Some(Some("SUDES")) else
    if |s| == 32 && s == "CENTRO ESPECIALIZADO REABILITACA" then Some(Some("CER")) else
    None
  }

  /** Entries on lines 34-46 of the table. */
  function Bloco3(s: string): Option<Option<string>> {
    if |s| == 25 && s == "CENTRO EDUCACAO DISTANCIA" then Some(Some("CED")) else
    if |s| == 21 && s == "RELACOES COMUNITARIAS" then Some(Some("PROEX")) else
    if |s| == 17 && s == "CHEFIA BIBLIOTECA" then Some(Some("PROEG")) else
    if |s| == 22 && s == "ASSESSORIA COMUNICACAO" then Some(Some("ASCOM")) else
    if |s| == 13 && s == "GESTAO ACADEM" then Some(Some("PROEG")) else
    if |s| == 19 && s == "FINANCAS CONTABILID" then Some(Some("GEPOF")) else
    if |s| == 21 && s == "PROCEDIMENTOS LICITAT" then Some(Some("REITORIA")) else
    if |s| == 12 && s == "PESSOAS ACAD" then Some(Some("CGPA")) else
    if |s| == 10 && s == "- EDUCACAO" then Some(Some("EDUCAÇÃO")) else
    if |s| == 19 && s == "GOVERNANCA TRANSPAR" then Some(Some("AGT")) else
    if |s| == 10 && s == "FORCA TRAB" then Some(Some("SUPLAF")) else
    if |s| == 21 && s == "ASSESSORIA CERIMONIAL" then Some(Some("CERIMONIAL")) else
    if |s| == 21 && s == "CONTROLADORIA INTERNA" then Some(Some("CONTROLADORIA INTERNA")) else
    None
  }

  /** Entries on lines 47-59 of the table. */
  function Bloco4(s: string): Option<Option<string>> {
    if |s| == 19 && s == "PLANEJAMENTO ORCAME" then Some(Some("GEPOF")) else
    if |s| == 9 && s == "OUVIDORIA" then Some(Some("OUVIDORIA")) else
    if |s| == 17 && s == "ASSIST PSICOPEDAG" then Some(Some("PROEST")) else
    if |s| == 20 && s == "POLITICAS ESTUDANTIS" then Some(Some("PROEST")) else
    if |s| == 21 && s == "CONTROLADORIA ACADEMI" then Some(Some("CONTROLADORIA ACADEMICA")) else
    if |s| == 8 && s == "FIN CONT" then Some(Some("GEPOF")) else
    if |s| == 18 && s == "ASSESSORIA TECNICA" then Some(Some("REITORIA")) else
    if |s| == 7 && s == "LATO SE" then Some(Some("PROEX")) else
    if |s| == 22 && s == "COORDENADORIA JURIDICA" then Some(Some("COJUR")) else
    if |s| == 19 && s == "SUPERVISAO EXTENSAO" then Some(Some("PROEX")) else
    if |s| == 21 && s == "ASSISTENCIA ESTUDANTI" then Some(Some("PROEST")) else
    if |s| == 11 && s == "SEM LOTAÇÃO" then Some(None) else
    if |s| == 19 && s == "SUPERVISAO PESQUISA" then Some(Some("SUPE")) else
    None
  }

  /** `LOTACAO_MAPPING[s]`. */
  function Tabela(s: string): Option<Option<string>> {
    if Bloco1(s).Some? then Bloco1(s)
    else if Bloco2(s).Some? then Bloco2(s)
    else if Bloco3(s).Some? then Bloco3(s)
    else Bloco4(s)
  }

  /** The keys of each block, in the order they are written. */
  const ChavesBloco1: seq<string> := [
    "PROFA VALERIA", "PORTUGAL RAMALHO", "CHEFIA GABINETE", "MATERN ESCOLA SANTA",
    "MOVIMENTACAO FUNCIONA", "- SAUDE", "REITORIA", "CHEF GES PESSOAS",
    "CHEFIA DE GESTAO DE PESSOAS", "HELVIO AUTO", "CENTRO DE CIENCIAS DA SAUDE",
    "SERVICO VERIFICACAO OBITOS", "CENTRO DE CIENCIAS INTEGRADORAS"
  ]

  const ChavesBloco2: seq<string> := [
    "SUPERVISAO ADMINISTRATIVA", "AMBULATORIO ESPECIALIDADES", "CENTRO PATOL MEDICINA",
    "CONTAS PAGAR", "MATERNIDADE", "MATERN ESC SANTA", "CENTRO DE TECNOLOGIA",
    "TECNOLOGIA INFORM", "SAUDE BEM-EST", "SUPERVISAO LOGISTICA", "COORDENADORIA CURSO",
    "DESENVOLVIMENTO PE", "CENTRO ESPECIALIZADO REABILITACA"
  ]

  const ChavesBloco3: seq<string> := [
    "CENTRO EDUCACAO DISTANCIA", "RELACOES COMUNITARIAS", "CHEFIA BIBLIOTECA",
    "ASSESSORIA COMUNICACAO", "GESTAO ACADEM", "FINANCAS CONTABILID",
    "PROCEDIMENTOS LICITAT", "PESSOAS ACAD", "- EDUCACAO", "GOVERNANCA TRANSPAR",
    "FORCA TRAB", "ASSESSORIA CERIMONIAL", "CONTROLADORIA INTERNA"
  ]

  const ChavesBloco4: seq<string> := [
    "PLANEJAMENTO ORCAME", "OUVIDORIA", "ASSIST PSICOPEDAG", "POLITICAS ESTUDANTIS",
    "CONTROLADORIA ACADEMI", "FIN CONT", "ASSESSORIA TECNICA", "LATO SE",
    "COORDENADORIA JURIDICA", "SUPERVISAO EXTENSAO", "ASSISTENCIA ESTUDANTI",
    "SEM LOTAÇÃO", "SUPERVISAO PESQUISA"
  ]

  /** `Object.keys(LOTACAO_MAPPING)`: the keys in order of first appearance
      (an object literal keeps one property per key). */
  function Chaves(): (r: seq<string>)
    ensures Seqs.NoDup(r)
  {
    Seqs.Dedup(ChavesBloco1 + ChavesBloco2 + ChavesBloco3 + ChavesBloco4)
  }

  lemma ChavesBloco1Exatas(k: string)
    ensures k in ChavesBloco1 <==> Bloco1(k).Some?
  {
  }

  lemma ChavesBloco2Exatas(k: string)
    ensures k in ChavesBloco2 <==> Bloco2(k).Some?
  {
  }

  lemma ChavesBloco3Exatas(k: string)
    ensures k in ChavesBloco3 <==> Bloco3(k).Some?
  {
  }

  lemma ChavesBloco4Exatas(k: string)
    ensures k in ChavesBloco4 <==> Bloco4(k).Some?
  {
  }

  /** The key list and the lookup describe the same table: a label is listed
      among the keys exactly when looking it up finds an entry. */
  lemma ChavesDaTabela(k: string)
    ensures k in Chaves() <==> Tabela(k).Some?
  {
    ChavesBloco1Exatas(k);
    ChavesBloco2Exatas(k);
    ChavesBloco3Exatas(k);
    ChavesBloco4Exatas(k);
    assert k in ChavesBloco1 + ChavesBloco2 + ChavesBloco3 + ChavesBloco4
      <==> k in ChavesBloco1 || k in ChavesBloco2 || k in ChavesBloco3 || k in ChavesBloco4;
  }

  // ---------------------------------------------------------------------
  // mapearLotacao

  /** The upper-cased original label names the people-management unit. */
  predicate GestaoDePessoas(original: string) {
    var u := Texto.Upper(original);
    Texto.Contains(u, "GESTAO DE PESSOAS") || Texto.Contains(u, "GES PESSOAS")
  }

  /** `mapearLotacao(normalizada, original)`: the corrected unit name, or
      `None` for the JavaScript `null`.  An absent original label is `""`. */
  function MapearLotacao(normalizada: string, original: string): Option<string> {
    if normalizada == "" then None
    else if normalizada == "PRO-REITORIA" && original != "" && GestaoDePessoas(original) then
      Some("PROGESP")
    else if normalizada == "REITORIA" && original != ""
         && Texto.Contains(Texto.Upper(original), "PRO-REITORIA") && GestaoDePessoas(original) then
      Some("PROGESP")
    else if normalizada == "PESSOAS ACAD" && original != ""
         && Texto.Contains(Texto.Upper(original), "PRO-REITORIA")
         && Texto.Contains(Texto.Upper(original), "GESTAO DE PESSOAS") then
      Some("PROGESP")
    else
      Consultar(normalizada)
  }

  /** `LOTACAO_MAPPING[s]` when `s` is a key (possibly `null`), else `s`. */
  function Consultar(s: string): Option<string> {
    match Tabela(s)
    case Some(mapeada) => mapeada
    case None => Some(s)
  }

  /** Without an original label no override applies. */
  lemma MapearSemOriginal(normalizada: string)
    requires normalizada != ""
    ensures MapearLotacao(normalizada, "") == Consultar(normalizada)
  {
  }

  /** An empty label and the `'SEM LOTAÇÃO'` entry both map to `null`. */
  lemma MapearNulo(original: string)
    ensures MapearLotacao("", original) == None
    ensures MapearLotacao("SEM LOTAÇÃO", original) == None
  {
  }

  /** A table key without an applicable override resolves to its entry,
      e.g. `'PORTUGAL RAMALHO'` to `'HEPR'`. */
  lemma MapearPelaTabela(normalizada: string, original: string, v: string)
    requires Tabela(normalizada) == Some(Some(v))
    requires normalizada != "REITORIA" && normalizada != "PESSOAS ACAD"
    ensures MapearLotacao(normalizada, original) == Some(v)
  {
    assert Tabela("") == None && Tabela("PRO-REITORIA") == None;
    assert Consultar(normalizada) == Some(v);
  }

  lemma MapearExemplo()
    ensures Consultar("PORTUGAL RAMALHO") == Some("HEPR")
    ensures MapearLotacao("PORTUGAL RAMALHO", "PORTUGAL RAMALHO") == Some("HEPR")
  {
    MapearPelaTabela("PORTUGAL RAMALHO", "", "HEPR");
    MapearPelaTabela("PORTUGAL RAMALHO", "PORTUGAL RAMALHO", "HEPR");
  }

  /** A non-empty label that is not a key passes through unchanged, except
      the `'PRO-REITORIA'` override. */
  lemma MapearDesconhecida(normalizada: string, original: string)
    requires normalizada != "" && Tabela(normalizada) == None
    requires normalizada != "PRO-REITORIA" || original == "" || !GestaoDePessoas(original)
    ensures MapearLotacao(normalizada, original) == Some(normalizada)
  {
    assert normalizada != "REITORIA" && normalizada != "PESSOAS ACAD";
  }

  /** `'PRO-REITORIA'` becomes `'PROGESP'` exactly when the original label
      names people management, and otherwise stays as it is. */
  lemma MapearProReitoria(original: string)
    ensures MapearLotacao("PRO-REITORIA", original)
         == if original != "" && GestaoDePessoas(original) then Some("PROGESP") else Some("PRO-REITORIA")
  {
    assert Tabela("PRO-REITORIA") == None;
  }

  /** `'REITORIA'` goes to `'PROGESP'` exactly when the original label is a
      pró-reitoria of people management, and otherwise stays `'REITORIA'`. */
  lemma MapearReitoria(original: string)
    ensures MapearLotacao("REITORIA", original)
         == if original != "" && Texto.Contains(Texto.Upper(original), "PRO-REITORIA") && GestaoDePessoas(original)
            then Some("PROGESP") else Some("REITORIA")
  {
    assert Tabela("REITORIA") == Some(Some("REITORIA"));
  }

  /** `'PESSOAS ACAD'` goes to `'PROGESP'` when the original label is the
      pró-reitoria of people management, and otherwise to `'CGPA'`. */
  lemma MapearPessoasAcad(original: string)
    ensures MapearLotacao("PESSOAS ACAD", original)
         == if original != "" && Texto.Contains(Texto.Upper(original), "PRO-REITORIA")
               && Texto.Contains(Texto.Upper(original), "GESTAO DE PESSOAS")
            then Some("PROGESP") else Some("CGPA")
  {
    assert Tabela("PESSOAS ACAD") == Some(Some("CGPA"));
  }

  // Fixed points.  Each block's values are checked by evaluation, so that
  // no single proof has to look at the whole table.

  lemma ValoresFixos1()
    ensures Consultar("ETSAL") == Some("ETSAL")
    ensures Consultar("HEPR") == Some("HEPR")
    ensures Consultar("REITORIA") == Some("REITORIA")
  {
  }

  lemma ValoresFixos2()
    ensures Consultar("MESM") == Some("MESM")
    ensures Consultar("SUMOF") == Some("SUMOF")
    ensures Consultar("SERVIDORES CEDIDOS - SAUDE") == Some("SERVIDORES CEDIDOS - SAUDE")
  {
  }

  lemma ValoresFixos3()
    ensures Consultar("PROGESP") == Some("PROGESP")
    ensures Consultar("HEHA") == Some("HEHA")
    ensures Consultar("CCS") == Some("CCS")
  {
  }

  lemma ValoresFixos4()
    ensures Consultar("SVO") == Some("SVO")
    ensures Consultar("CCI") == Some("CCI")
    ensures Consultar("PROGAD") == Some("PROGAD")
  {
  }

  lemma ValoresFixos5()
    ensures Consultar("AMBESP") == Some("AMBESP")
    ensures Consultar("CPML") == Some("CPML")
    ensures Consultar("GEPOF") == Some("GEPOF")
  {
  }

  lemma ValoresFixos6()
    ensures Consultar("CTEC") == Some("CTEC")
    ensures Consultar("SUTIN") == Some("SUTIN")
    ensures Consultar("SASBEM") == Some("SASBEM")
  {
  }

  lemma ValoresFixos7()
    ensures Consultar("COORDENADORIA CURSO") == Some("COORDENADORIA CURSO")
    ensures Consultar("SUDES") == Some("SUDES")
    ensures Consultar("CER") == Some("CER")
  {
  }

  lemma ValoresFixos8()
    ensures Consultar("CED") == Some("CED")
    ensures Consultar("PROEX") == Some("PROEX")
    ensures Consultar("PROEG") == Some("PROEG")
  {
  }

  lemma ValoresFixos9()
    ensures Consultar("ASCOM") == Some("ASCOM")
    ensures Consultar("CGPA") == Some("CGPA")
    ensures Consultar("EDUCAÇÃO") == Some("EDUCAÇÃO")
  {
  }

  lemma ValoresFixos10()
    ensures Consultar("AGT") == Some("AGT")
    ensures Consultar("SUPLAF") == Some("SUPLAF")
    ensures Consultar("CERIMONIAL") == Some("CERIMONIAL")
  {
  }

  lemma ValoresFixos11()
    ensures Consultar("CONTROLADORIA INTERNA") == Some("CONTROLADORIA INTERNA")
    ensures Consultar("OUVIDORIA") == Some("OUVIDORIA")
    ensures Consultar("PROEST") == Some("PROEST")
  {
  }

  lemma ValoresFixos12()
    ensures Consultar("CONTROLADORIA ACADEMICA") == Some("CONTROLADORIA ACADEMICA")
    ensures Consultar("COJUR") == Some("COJUR")
    ensures Consultar("SUPE") == Some("SUPE")
  {
  }

  lemma Bloco1PontoFixo(k: string, v: string)
    requires Bloco1(k) == Some(Some(v))
    ensures MapearLotacao(v, "") == Some(v)
  {
    assert v == "ETSAL" || v == "HEPR" || v == "REITORIA" || v == "MESM" || v == "SUMOF"
        || v == "SERVIDORES CEDIDOS - SAUDE" || v == "PROGESP" || v == "HEHA" || v == "CCS"
        || v == "SVO" || v == "CCI";
    ValoresFixos1();
    ValoresFixos2();
    ValoresFixos3();
    ValoresFixos4();
    MapearSemOriginal(v);
  }

  lemma Bloco2PontoFixo(k: string, v: string)
    requires Bloco2(k) == Some(Some(v))
    ensures MapearLotacao(v, "") == Some(v)
  {
    assert v == "PROGAD" || v == "AMBESP" || v == "CPML" || v == "GEPOF" || v == "MESM"
        || v == "CTEC" || v == "SUTIN" || v == "SASBEM" || v == "COORDENADORIA CURSO"
        || v == "SUDES" || v == "CER";
    ValoresFixos4();
    ValoresFixos5();
    ValoresFixos2();
    ValoresFixos6();
    ValoresFixos7();
    MapearSemOriginal(v);
  }

  lemma Bloco3PontoFixo(k: string, v: string)
    requires Bloco3(k) == Some(Some(v))
    ensures MapearLotacao(v, "") == Some(v)
  {
    assert v == "CED" || v == "PROEX" || v == "PROEG" || v == "ASCOM" || v == "GEPOF"
        || v == "REITORIA" || v == "CGPA" || v == "EDUCAÇÃO" || v == "AGT" || v == "SUPLAF"
        || v == "CERIMONIAL" || v == "CONTROLADORIA INTERNA";
    ValoresFixos8();
    ValoresFixos9();
    ValoresFixos5();
    ValoresFixos1();
    ValoresFixos10();
    ValoresFixos11();
    MapearSemOriginal(v);
  }

  lemma Bloco4PontoFixo(k: string, v: string)
    requires Bloco4(k) == Some(Some(v))
    ensures MapearLotacao(v, "") == Some(v)
  {
    assert v == "GEPOF" || v == "OUVIDORIA" || v == "PROEST" || v == "CONTROLADORIA ACADEMICA"
        || v == "REITORIA" || v == "PROEX" || v == "COJUR" || v == "SUPE";
    ValoresFixos5();
    ValoresFixos11();
    ValoresFixos12();
    ValoresFixos1();
    ValoresFixos8();
    MapearSemOriginal(v);
  }

  /** Without an original label every non-null table value is a fixed point:
      mapping it again returns it unchanged. */
  lemma TabelaPontoFixo(k: string, v: string)
    requires Tabela(k) == Some(Some(v))
    ensures MapearLotacao(v, "") == Some(v)
  {
    if Bloco1(k).Some? {
      Bloco1PontoFixo(k, v);
    } else if Bloco2(k).Some? {
      Bloco2PontoFixo(k, v);
    } else if Bloco3(k).Some? {
      Bloco3PontoFixo(k, v);
    } else {
      Bloco4PontoFixo(k, v);
    }
  }

  // ---------------------------------------------------------------------
  // LOTACAO_REVERSE_MAPPING and obterLotacoesOriginais

  /** `LOTACAO_REVERSE_MAPPING[v]`: the keys whose entry is `v`, in key
      order (empty when `v` has no entry, i.e. the property is absent). */
  function Reverso(v: string): seq<string> {
    Seqs.Filter(Chaves(), k => Tabela(k) == Some(Some(v)))
  }

  /** Every key listed under `v` maps to `v`, and every key with a non-null
      entry `v` is listed under `v` exactly once. */
  lemma ReversoExato(v: string, k: string)
    ensures k in Reverso(v) ==> Tabela(k) == Some(Some(v))
    ensures Tabela(k) == Some(Some(v)) ==> multiset(Reverso(v))[k] == 1
  {
    var p := (c: string) => Tabela(c) == Some(Some(v));
    Seqs.FilterMembership(Chaves(), p, k);
    if Tabela(k) == Some(Some(v)) {
      ChavesDaTabela(k);
      Seqs.FilterMultiset(Chaves(), p, k);
      Seqs.NoDupOccursOnce(Chaves(), k);
    }
  }

  /** `obterLotacoesOriginais(v)`: the reverse-map entry, or `[v]`. */
  function ObterLotacoesOriginais(v: string): (r: seq<string>)
    ensures |r| > 0
  {
    var rev := Reverso(v);
    if |rev| > 0 then rev else [v]
  }

  /** A corrected name with table keys gets exactly those keys back (so each
      such key is among them); any other name gets itself. */
  lemma OriginaisExatas(v: string, k: string)
    ensures Tabela(k) == Some(Some(v)) ==> ObterLotacoesOriginais(v) == Reverso(v) && k in ObterLotacoesOriginais(v)
    ensures (forall j :: Tabela(j) != Some(Some(v))) ==> ObterLotacoesOriginais(v) == [v]
  {
    ReversoExato(v, k);
    if |Reverso(v)| > 0 {
      ReversoExato(v, Reverso(v)[0]);
    }
  }

  // ---------------------------------------------------------------------
  // SUBLOTACOES, obterLotacaoPrincipal, obterSublotacoes

  /** The parent units of `SUBLOTACOES`, in `Object.entries` order. */
  const Principais: seq<string> := ["PROGESP", "REITORIA"]

  /** `SUBLOTACOES[p]`, `None` when `p` is not a parent. */
  function Sublotacoes(p: string): Option<seq<string>> {
    if p == "PROGESP" then Some(["SUMOF", "SASBEM", "CGPA", "SUPLAF", "SUDES"])
    else if p == "REITORIA" then
      Some(["CONTROLADORIA INTERNA", "CONTROLADORIA ACADEMICA", "ASSESSORIA TECNICA",
            "PROCEDIMENTOS LICITAT", "CHEFIA GABINETE"])
    else None
  }

  /** The first parent among `principais` whose children include `s`. */
  function PrimeiroPrincipal(principais: seq<string>, s: string): (r: Option<string>)
    ensures r.Some? ==> r.value in principais && Sublotacoes(r.value).Some? && s in Sublotacoes(r.value).value
    ensures r.None? ==> forall p :: p in principais && Sublotacoes(p).Some? ==> s !in Sublotacoes(p).value
  {
    if |principais| == 0 then None
    else
      var p := principais[0];
      if Sublotacoes(p).Some? && s in Sublotacoes(p).value then Some(p)
      else PrimeiroPrincipal(principais[1..], s)
  }

  /** `obterLotacaoPrincipal(s)`. */
  function ObterLotacaoPrincipal(s: string): Option<string> {
    PrimeiroPrincipal(Principais, s)
  }

  /** `obterLotacaoPrincipal(s)` is `p` exactly when `s` is one of `p`'s
      sub-units, and `null` when `s` is nobody's sub-unit. */
  lemma PrincipalExato(s: string, p: string)
    ensures ObterLotacaoPrincipal(s) == Some(p) <==> Sublotacoes(p).Some? && s in Sublotacoes(p).value
    ensures ObterLotacaoPrincipal(s) == None <==> forall q :: Sublotacoes(q).Some? ==> s !in Sublotacoes(q).value
  {
    assert forall q :: Sublotacoes(q).Some? ==> q in Principais;
  }

  /** `obterSublotacoes(p)`: `SUBLOTACOES[p] || []`. */
  function ObterSublotacoes(p: string): (r: seq<string>)
    ensures p != "PROGESP" && p != "REITORIA" ==> r == []
    ensures p == "PROGESP" ==> |r| == 5 && "CGPA" in r && "SUDES" in r
  {
    match Sublotacoes(p)
    case Some(filhas) => filhas
    case None => []
  }
}
