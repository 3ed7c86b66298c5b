/** The expenditure service (services/empenho.js): flattening and
    normalising the month entries of the consolidated file, filtering (with
    the multiple-contract pass), the three `agregarPor*` reducers and the
    general statistics and `topN`.  Its `valoresUnicos` is the payroll
    service's code line for line and is modelled once, by
    `Folha.ValoresUnicos`; its `topN` ranks the same records as the payroll
    one and differs only in the lotação fallback of the projection. */
module Empenho {
  import opened Base
  import opened Registros
  import Seqs
  import Texto
  import Agregacao
  import Estatistica
  import Folha

  // ---------------------------------------------------------------------
  // carregarTodosEmpenhos: flattening the parsed file

  /** A row of the consolidated file as parsed.  Absent text fields are
      `""`; `salario` is `parseFloat(reg.salario)`; `mesReferencia` is
      `String(reg.mes_referencia)`, `""` when that field is falsy. */
  datatype EmpenhoBruto = EmpenhoBruto(
    nome: string,
    cpf: string,
    matricula: string,
    situacao: string,
    vinculo: string,
    lotacao: string,
    cargo: string,
    area: string,
    salario: Num,
    mesReferencia: string)

  /** One key of the parsed file and its value; `None` when the value is not
      an array. */
  datatype MesEmpenho = MesEmpenho(mes: string, registros: Option<seq<EmpenhoBruto>>)

  /** `x || padrao`. */
  function OuPadrao(x: string, padrao: string): string {
    if x != "" then x else padrao
  }

  /** `` `2025-${String(mes).padStart(2, '0')}` ``, or no competência. */
  function CompetenciaDe(mesReferencia: string): (c: string)
    ensures mesReferencia == "" ==> c == ""
    ensures mesReferencia != "" ==>
      |c| == 5 + (if |mesReferencia| >= 2 then |mesReferencia| else 2)
      && c[..5] == "2025-" && Texto.FirstField(c, '-') == "2025"
      && c[|c| - |mesReferencia|..] == mesReferencia
      && (|mesReferencia| == 1 ==> c == "2025-0" + mesReferencia)
  {
    if mesReferencia == "" then ""
    else
      var c := "2025-" + Texto.PadStart(mesReferencia, 2, '0');
      AnoDaCompetencia(Texto.PadStart(mesReferencia, 2, '0'));
      c
  }

  /** The year field of any `2025-…` competência is `2025`. */
  lemma AnoDaCompetencia(mes: string)
    ensures Texto.FirstField("2025-" + mes, '-') == "2025"
  {
    var c := "2025-" + mes;
    var i := Texto.IndexOf(c, '-');
    assert c[4] == '-' && c[..4] == "2025";
    assert forall k :: 0 <= k < 4 ==> c[k] != '-';
    assert i == 4;
  }

  /** The record the dashboard works with for one row. */
  function Normalizar(b: EmpenhoBruto): Registro {
    var salario := Val(OrZero(b.salario));
    Registro(b.nome, b.cpf, b.matricula, CompetenciaDe(b.mesReferencia),
             b.lotacao, b.lotacao, "", b.cargo, "",
             OuPadrao(b.vinculo, "EMPENHO"), OuPadrao(b.situacao, "ATIVO"), "", b.area,
             salario, salario, Val(0.0), None)
  }

  /** The salary becomes both `liquido` and `vantagem` (`NaN` read as 0),
      there is no discount, situação and vínculo default to `'ATIVO'` and
      `'EMPENHO'`, the raw lotação fills both labels and the cargo is the
      função. */
  lemma NormalizarCampos(b: EmpenhoBruto)
    ensures var r := Normalizar(b);
      r.liquido == r.vantagem == Val(OrZero(b.salario)) && r.desconto == Val(0.0)
      && r.situacao == (if b.situacao != "" then b.situacao else "ATIVO")
      && r.vinculo == (if b.vinculo != "" then b.vinculo else "EMPENHO")
      && r.lotacaoNormalizada == b.lotacao && r.lotacaoOriginal == b.lotacao && r.funcao == b.cargo
      && r.nome == b.nome && r.cpf == b.cpf && r.matricula == b.matricula && r.area == b.area
      && r.competencia == CompetenciaDe(b.mesReferencia)
      && Normalizado(r)
  {
  }

  /** The normalised rows of the array-valued months, in key order. */
  function Achatados(meses: seq<MesEmpenho>): seq<Registro>
    decreases |meses|
  {
    if |meses| == 0 then []
    else
      Achatados(meses[..|meses| - 1]) + DoMes(meses[|meses| - 1])
  }

  /** The normalised rows of one month; none when its value is not an array. */
  function DoMes(m: MesEmpenho): seq<Registro> {
    match m.registros
    case Some(bs) => Seqs.Map(bs, Normalizar)
    case None => []
  }

  /** One more month appends its normalised records, if it has any. */
  lemma AchatadosSnoc(meses: seq<MesEmpenho>, m: MesEmpenho)
    ensures Achatados(meses + [m]) == Achatados(meses) + DoMes(m)
  {
    var s := meses + [m];
    assert s[..|s| - 1] == meses && s[|s| - 1] == m;
  }

  /** The summed lengths of the array-valued months. */
  function TotalNosMeses(meses: seq<MesEmpenho>): nat
    decreases |meses|
  {
    if |meses| == 0 then 0
    else
      TotalNosMeses(meses[..|meses| - 1])
      + (match meses[|meses| - 1].registros case Some(bs) => |bs| case None => 0)
  }

  /** Every row of an array-valued month yields exactly one record. */
  lemma {:induction false} AchatadosTamanho(meses: seq<MesEmpenho>)
    ensures |Achatados(meses)| == TotalNosMeses(meses)
    decreases |meses|
  {
    if |meses| > 0 {
      AchatadosTamanho(meses[..|meses| - 1]);
    }
  }

  /** What every loaded record looks like. */
  predicate Normalizado(r: Registro) {
    r.desconto == Val(0.0) && r.liquido.Val? && r.liquido == r.vantagem
    && r.situacao != "" && r.vinculo != ""
    && r.lotacaoNormalizada == r.lotacaoOriginal
    && (r.competencia == "" || (|r.competencia| >= 7 && r.competencia[..5] == "2025-"))
  }

  lemma {:induction false} AchatadosNormalizados(meses: seq<MesEmpenho>)
    ensures forall r :: r in Achatados(meses) ==> Normalizado(r)
    decreases |meses|
  {
    if |meses| > 0 {
      AchatadosNormalizados(meses[..|meses| - 1]);
      match meses[|meses| - 1].registros {
        case None =>
        case Some(bs) =>
          var novos := Seqs.Map(bs, Normalizar);
          forall r | r in novos ensures Normalizado(r) {
            var i :| 0 <= i < |novos| && novos[i] == r;
            NormalizarCampos(bs[i]);
          }
      }
    }
  }

  /** The inner `forEach` of `carregarTodosEmpenhos`: pushes each record
      of one month, normalised, onto the list. */
  method AcrescentarNormalizados(todos: seq<Registro>, bs: seq<EmpenhoBruto>) returns (depois: seq<Registro>)
    ensures depois == todos + Seqs.Map(bs, Normalizar)
  {
    depois := todos;
    for j := 0 to |bs|
      invariant depois == todos + Seqs.Map(bs[..j], Normalizar)
    {
      Seqs.MapSnoc(bs, j, Normalizar);
      depois := depois + [Normalizar(bs[j])];
    }
    assert bs[..|bs|] == bs;
  }

  /** The loop of `carregarTodosEmpenhos` over the parsed file. */
  method CarregarTodosEmpenhos(meses: seq<MesEmpenho>) returns (todos: seq<Registro>)
    ensures todos == Achatados(meses)
    ensures |todos| == TotalNosMeses(meses)
  {
    todos := [];
    ghost var vistos: seq<MesEmpenho> := [];
    for i := 0 to |meses|
      invariant vistos == meses[..i]
      invariant todos == Achatados(vistos)
    {
      AchatadosSnoc(vistos, meses[i]);
      match meses[i].registros {
        case None =>
          assert DoMes(meses[i]) == [];
          assert todos + [] == todos;
        case Some(bs) =>
          todos := AcrescentarNormalizados(todos, bs);
      }
      Seqs.PrefixSnoc(meses, i);
      vistos := vistos + [meses[i]];
    }
    assert meses[..|meses|] == meses;
    AchatadosTamanho(meses);
  }

  // ---------------------------------------------------------------------
  // filtrarEmpenho

  /** The filter keys the page passes; `""` for a key that is not set. */
  datatype FiltrosEmpenho = FiltrosEmpenho(
    ano: string,
    competencia: string,
    lotacao: string,
    funcao: string,
    vinculo: string,
    situacao: string,
    area: string,
    buscaNome: string,
    multiplosVinculos: bool)

  /** `lotacao_normalizada || lotacao_original || ''`. */
  function LotacaoDoRegistro(r: Registro): string {
    if r.lotacaoNormalizada != "" then r.lotacaoNormalizada else r.lotacaoOriginal
  }

  function PorLotacao(l: string): Registro -> bool { (r: Registro) => LotacaoDoRegistro(r) == l }
  function PorArea(a: string): Registro -> bool { (r: Registro) => r.area == a }

  function EtapaAno(f: FiltrosEmpenho): Option<Registro -> bool> {
    Seqs.Gate(Texto.Trim(f.ano) != "", Folha.PorAno(f.ano))
  }
  function EtapaCompetencia(f: FiltrosEmpenho): Option<Registro -> bool> {
    Seqs.Gate(f.competencia != "", Folha.PorCompetencia(f.competencia))
  }
  function EtapaLotacao(f: FiltrosEmpenho): Option<Registro -> bool> {
    Seqs.Gate(f.lotacao != "", PorLotacao(f.lotacao))
  }
  function EtapaFuncao(f: FiltrosEmpenho): Option<Registro -> bool> {
    Seqs.Gate(f.funcao != "", Folha.PorFuncao(f.funcao))
  }
  function EtapaVinculo(f: FiltrosEmpenho): Option<Registro -> bool> {
    Seqs.Gate(f.vinculo != "", Folha.PorVinculo(f.vinculo))
  }
  function EtapaSituacao(f: FiltrosEmpenho): Option<Registro -> bool> {
    Seqs.Gate(f.situacao != "", Folha.PorSituacao(f.situacao))
  }
  function EtapaArea(f: FiltrosEmpenho): Option<Registro -> bool> {
    Seqs.Gate(f.area != "", PorArea(f.area))
  }
  function EtapaNome(f: FiltrosEmpenho): Option<Registro -> bool> {
    Seqs.Gate(f.buscaNome != "", Folha.PorNome(f.buscaNome))
  }

  /** A record passes every field filter whose key is set. */
  predicate AceitaCampos(r: Registro, f: FiltrosEmpenho) {
    (Texto.Trim(f.ano) != "" ==> Folha.PassaAno(r, f.ano))
    && (f.competencia != "" ==> r.competencia == f.competencia)
    && (f.lotacao != "" ==> LotacaoDoRegistro(r) == f.lotacao)
    && (f.funcao != "" ==> r.funcao == f.funcao)
    && (f.vinculo != "" ==> r.vinculo == f.vinculo)
    && (f.situacao != "" ==> Folha.PassaSituacao(r, f.situacao))
    && (f.area != "" ==> r.area == f.area)
    && (f.buscaNome != "" ==> Folha.PassaNome(r, f.buscaNome))
  }

  function AceitosCampos(f: FiltrosEmpenho): Registro -> bool { (r: Registro) => AceitaCampos(r, f) }

  /** The eight field filters of `filtrarEmpenho`, applied in order: the
      records passing all of them, in order and each as often as in
      `dados`. */
  function FiltrarCampos(dados: seq<Registro>, f: FiltrosEmpenho): (r: seq<Registro>)
    ensures r == Seqs.Filter(dados, AceitosCampos(f))
    ensures Seqs.IsSubseq(r, dados)
    ensures forall x :: x in r <==> x in dados && AceitaCampos(x, f)
  {
    var r1 := Seqs.Stage(dados, EtapaAno(f));
    var r2 := Seqs.Stage(r1, EtapaCompetencia(f));
    var r3 := Seqs.Stage(r2, EtapaLotacao(f));
    var r4 := Seqs.Stage(r3, EtapaFuncao(f));
    var r5 := Seqs.Stage(r4, EtapaVinculo(f));
    var r6 := Seqs.Stage(r5, EtapaSituacao(f));
    var r7 := Seqs.Stage(r6, EtapaArea(f));
    var r8 := Seqs.Stage(r7, EtapaNome(f));
    assert r8 == Seqs.Filter(dados, AceitosCampos(f)) by {
      Seqs.FilterAlways(dados);
      var p1 := Seqs.Then(Seqs.Always(), EtapaAno(f));
      var p2 := Seqs.Then(p1, EtapaCompetencia(f));
      var p3 := Seqs.Then(p2, EtapaLotacao(f));
      var p4 := Seqs.Then(p3, EtapaFuncao(f));
      var p5 := Seqs.Then(p4, EtapaVinculo(f));
      var p6 := Seqs.Then(p5, EtapaSituacao(f));
      var p7 := Seqs.Then(p6, EtapaArea(f));
      var p8 := Seqs.Then(p7, EtapaNome(f));
      Seqs.StageOfFilter(dados, Seqs.Always(), EtapaAno(f));
      Seqs.StageOfFilter(dados, p1, EtapaCompetencia(f));
      Seqs.StageOfFilter(dados, p2, EtapaLotacao(f));
      Seqs.StageOfFilter(dados, p3, EtapaFuncao(f));
      Seqs.StageOfFilter(dados, p4, EtapaVinculo(f));
      Seqs.StageOfFilter(dados, p5, EtapaSituacao(f));
      Seqs.StageOfFilter(dados, p6, EtapaArea(f));
      Seqs.StageOfFilter(dados, p7, EtapaNome(f));
      forall i | 0 <= i < |dados| ensures p8(dados[i]) == AceitosCampos(f)(dados[i]) {
        AceitaPorEtapas(f, dados[i]);
      }
      Seqs.FilterExt(dados, p8, AceitosCampos(f));
    }
    Seqs.FilterIsSubseq(dados, AceitosCampos(f));
    assert forall x :: x in r8 <==> x in dados && AceitaCampos(x, f) by {
      forall x ensures x in r8 <==> x in dados && AceitaCampos(x, f) {
        Seqs.FilterMembership(dados, AceitosCampos(f), x);
      }
    }
    r8
  }

  /** A record passes the field filters exactly when it passes each step. */
  lemma AceitaPorEtapas(f: FiltrosEmpenho, x: Registro)
    ensures AceitaCampos(x, f)
        == (Seqs.Passes(EtapaAno(f), x) && Seqs.Passes(EtapaCompetencia(f), x) && Seqs.Passes(EtapaLotacao(f), x)
            && Seqs.Passes(EtapaFuncao(f), x) && Seqs.Passes(EtapaVinculo(f), x) && Seqs.Passes(EtapaSituacao(f), x)
            && Seqs.Passes(EtapaArea(f), x) && Seqs.Passes(EtapaNome(f), x))
  {
    Seqs.GatePasses(Texto.Trim(f.ano) != "", Folha.PorAno(f.ano), x);
    Seqs.GatePasses(f.competencia != "", Folha.PorCompetencia(f.competencia), x);
    Seqs.GatePasses(f.lotacao != "", PorLotacao(f.lotacao), x);
    Seqs.GatePasses(f.funcao != "", Folha.PorFuncao(f.funcao), x);
    Seqs.GatePasses(f.vinculo != "", Folha.PorVinculo(f.vinculo), x);
    Seqs.GatePasses(f.situacao != "", Folha.PorSituacao(f.situacao), x);
    Seqs.GatePasses(f.area != "", PorArea(f.area), x);
    Seqs.GatePasses(f.buscaNome != "", Folha.PorNome(f.buscaNome), x);
  }

  /** Records that already pass every field filter go through unchanged. */
  lemma CamposJaFiltrados(s: seq<Registro>, f: FiltrosEmpenho)
    requires forall x :: x in s ==> AceitaCampos(x, f)
    ensures FiltrarCampos(s, f) == s
  {
    forall x | x in s
      ensures Seqs.Passes(EtapaAno(f), x) && Seqs.Passes(EtapaCompetencia(f), x) && Seqs.Passes(EtapaLotacao(f), x)
           && Seqs.Passes(EtapaFuncao(f), x) && Seqs.Passes(EtapaVinculo(f), x) && Seqs.Passes(EtapaSituacao(f), x)
           && Seqs.Passes(EtapaArea(f), x) && Seqs.Passes(EtapaNome(f), x)
    {
      AceitaPorEtapas(f, x);
    }
    Seqs.StageAll(s, EtapaAno(f));
    Seqs.StageAll(s, EtapaCompetencia(f));
    Seqs.StageAll(s, EtapaLotacao(f));
    Seqs.StageAll(s, EtapaFuncao(f));
    Seqs.StageAll(s, EtapaVinculo(f));
    Seqs.StageAll(s, EtapaSituacao(f));
    Seqs.StageAll(s, EtapaArea(f));
    Seqs.StageAll(s, EtapaNome(f));
  }

  // The multiple-contract pass

  /** The person key of the pass: the trimmed CPF, else the trimmed name,
      else none (the record is dropped). */
  function ChavePessoa(r: Registro): (k: Option<string>)
    ensures k.Some? ==> k.value != ""
    ensures Texto.Trim(r.cpf) != "" ==> k == Some(Texto.Trim(r.cpf))
    ensures Texto.Trim(r.cpf) == "" ==> k == (if Texto.Trim(r.nome) != "" then Some(Texto.Trim(r.nome)) else None)
  {
    if Texto.Trim(r.cpf) != "" then Some(Texto.Trim(r.cpf))
    else if Texto.Trim(r.nome) != "" then Some(Texto.Trim(r.nome))
    else None
  }

  /** A contract: `` `${matricula}_${vinculo}` ``. */
  function Par(r: Registro): string {
    r.matricula + "_" + r.vinculo
  }

  /** The distinct contracts of person `k` among the records of `s`. */
  function Pares(s: seq<Registro>, k: string): set<string> {
    set x | x in s && ChavePessoa(x) == Some(k) :: Par(x)
  }

  /** `x` belongs to a person with more than one contract in `s`. */
  predicate ComVariosVinculos(s: seq<Registro>, x: Registro) {
    ChavePessoa(x).Some? && |Pares(s, ChavePessoa(x).value)| > 1
  }

  function VariosVinculos(s: seq<Registro>): Registro -> bool {
    (x: Registro) => ComVariosVinculos(s, x)
  }

  /** The multiple-contract pass over the already filtered records `s`. */
  function MultiplosVinculos(s: seq<Registro>): (r: seq<Registro>)
    ensures Seqs.IsSubseq(r, s)
    ensures forall x :: x in r <==> x in s && ComVariosVinculos(s, x)
  {
    Seqs.FilterIsSubseq(s, VariosVinculos(s));
    assert forall x :: x in Seqs.Filter(s, VariosVinculos(s)) <==> x in s && ComVariosVinculos(s, x) by {
      forall x ensures x in Seqs.Filter(s, VariosVinculos(s)) <==> x in s && ComVariosVinculos(s, x) {
        Seqs.FilterMembership(s, VariosVinculos(s), x);
      }
    }
    Seqs.Filter(s, VariosVinculos(s))
  }

  /** The pass keeps every record of a person it keeps, so that person's
      contracts are the same afterwards. */
  lemma ParesPreservados(s: seq<Registro>, k: string)
    requires |Pares(s, k)| > 1
    ensures Pares(MultiplosVinculos(s), k) == Pares(s, k)
  {
    var r := MultiplosVinculos(s);
    forall x | x in s && ChavePessoa(x) == Some(k) ensures x in r {
      assert ComVariosVinculos(s, x);
    }
  }

  /** A second pass changes nothing. */
  lemma MultiplosIdempotente(s: seq<Registro>)
    ensures MultiplosVinculos(MultiplosVinculos(s)) == MultiplosVinculos(s)
  {
    var r := MultiplosVinculos(s);
    forall i | 0 <= i < |r| ensures VariosVinculos(r)(r[i]) {
      assert r[i] in r;
      ParesPreservados(s, ChavePessoa(r[i]).value);
    }
    Seqs.FilterAll(r, VariosVinculos(r));
  }

  /** `filtrarEmpenho(dados, filtros)`: the field filters, then, when
      `multiplosVinculos` is set, the multiple-contract pass over their
      result. */
  function FiltrarEmpenho(dados: seq<Registro>, f: FiltrosEmpenho): (r: seq<Registro>)
    ensures !f.multiplosVinculos ==> r == Seqs.Filter(dados, AceitosCampos(f))
    ensures f.multiplosVinculos ==>
      var campos := Seqs.Filter(dados, AceitosCampos(f));
      r == Seqs.Filter(campos, VariosVinculos(campos))
    ensures Seqs.IsSubseq(r, dados)
    ensures !f.multiplosVinculos ==> forall x :: x in r <==> x in dados && AceitaCampos(x, f)
    ensures f.multiplosVinculos ==>
      forall x :: x in r <==> x in dados && AceitaCampos(x, f) && ComVariosVinculos(FiltrarCampos(dados, f), x)
  {
    var campos := FiltrarCampos(dados, f);
    if f.multiplosVinculos then
      var r := MultiplosVinculos(campos);
      Seqs.IsSubseqTrans(r, campos, dados);
      r
    else campos
  }

  /** Filtering twice with the same keys is filtering once. */
  lemma FiltrarEmpenhoIdempotente(dados: seq<Registro>, f: FiltrosEmpenho)
    ensures FiltrarEmpenho(FiltrarEmpenho(dados, f), f) == FiltrarEmpenho(dados, f)
  {
    var r := FiltrarEmpenho(dados, f);
    CamposJaFiltrados(r, f);
    if f.multiplosVinculos {
      MultiplosIdempotente(FiltrarCampos(dados, f));
    }
  }

  /** The lotação filter is plain equality on the record's lotação. */
  lemma FiltroLotacao(dados: seq<Registro>, lotacao: string, x: Registro)
    requires lotacao != ""
    ensures x in FiltrarEmpenho(dados, FiltrosEmpenho("", "", lotacao, "", "", "", "", "", false))
        <==> x in dados && LotacaoDoRegistro(x) == lotacao
  {
    assert Texto.Trim("") == "";
  }

  /** The `pessoasPorCpf` map: each person key and its distinct contracts. */
  function ChavesDe(s: seq<Registro>): set<string> {
    set x | x in s && ChavePessoa(x).Some? :: ChavePessoa(x).value
  }

  function ParesPorPessoa(s: seq<Registro>): map<string, set<string>>
    decreases |s|
  {
    if |s| == 0 then map[]
    else
      var m := ParesPorPessoa(s[..|s| - 1]);
      var reg := s[|s| - 1];
      match ChavePessoa(reg)
      case None => m
      case Some(k) => m[k := (if k in m then m[k] else {}) + {Par(reg)}]
  }

  lemma ParesPasso(s: seq<Registro>, reg: Registro, k: string)
    ensures Pares(s + [reg], k) == Pares(s, k) + (if ChavePessoa(reg) == Some(k) then {Par(reg)} else {})
  {
    forall x ensures x in s + [reg] <==> x in s || x == reg {}
  }

  lemma ChavesPasso(s: seq<Registro>, reg: Registro)
    ensures ChavesDe(s + [reg]) == ChavesDe(s) + (if ChavePessoa(reg).Some? then {ChavePessoa(reg).value} else {})
  {
    forall x ensures x in s + [reg] <==> x in s || x == reg {}
  }

  /** A person with a contract has a key among the keys seen. */
  lemma ParesComChave(s: seq<Registro>, k: string)
    ensures Pares(s, k) != {} ==> k in ChavesDe(s)
  {
    if Pares(s, k) != {} {
      var u :| u in Pares(s, k);
      var x :| x in s && ChavePessoa(x) == Some(k) && Par(x) == u;
      assert ChavePessoa(x).value in ChavesDe(s);
    }
  }

  /** The map holds exactly the person keys of `s`, each with its
      distinct contracts. */
  lemma {:induction false} ParesPorPessoaCorreto(s: seq<Registro>, k: string)
    ensures k in ParesPorPessoa(s) <==> k in ChavesDe(s)
    ensures k in ParesPorPessoa(s) ==> ParesPorPessoa(s)[k] == Pares(s, k)
    decreases |s|
  {
    if |s| == 0 {
      assert ChavesDe(s) == {};
    } else {
      var s0 := s[..|s| - 1];
      var reg := s[|s| - 1];
      assert s == s0 + [reg];
      ParesPorPessoaCorreto(s0, k);
      ChavesPasso(s0, reg);
      ParesPasso(s0, reg, k);
      ParesComChave(s0, k);
    }
  }

  /** The first `forEach` of the pass, filling `pessoasPorCpf`. */
  method AgruparVinculos(dados: seq<Registro>) returns (m: map<string, set<string>>)
    ensures m == ParesPorPessoa(dados)
  {
    m := map[];
    for i := 0 to |dados|
      invariant m == ParesPorPessoa(dados[..i])
    {
      var reg := dados[i];
      assert dados[..i + 1][..i] == dados[..i];
      assert dados[..i + 1][i] == reg;
      match ChavePessoa(reg) {
        case None =>
        case Some(k) =>
          var vinculos := if k in m then m[k] else {};
          m := m[k := vinculos + {Par(reg)}];
      }
    }
    assert dados[..|dados|] == dados;
  }

  /** `chave && cpfsComMultiplosVinculos.has(chave)`. */
  function NoConjunto(ks: set<string>): Registro -> bool {
    (x: Registro) => ChavePessoa(x).Some? && ChavePessoa(x).value in ks
  }

  /** The multiple-contract pass as the service runs it: the map, the keys
      with more than one contract, then the filter. */
  method FiltrarMultiplosVinculos(resultado: seq<Registro>) returns (r: seq<Registro>)
    ensures r == MultiplosVinculos(resultado)
  {
    var m := AgruparVinculos(resultado);
    var multiplos := set k | k in m && |m[k]| > 1;
    r := Seqs.Filter(resultado, NoConjunto(multiplos));
    forall i | 0 <= i < |resultado|
      ensures NoConjunto(multiplos)(resultado[i]) == VariosVinculos(resultado)(resultado[i])
    {
      var x := resultado[i];
      if ChavePessoa(x).Some? {
        assert ChavePessoa(x).value in ChavesDe(resultado);
        ParesPorPessoaCorreto(resultado, ChavePessoa(x).value);
      }
    }
    Seqs.FilterExt(resultado, NoConjunto(multiplos), VariosVinculos(resultado));
  }

  // ---------------------------------------------------------------------
  // agregarPorCompetencia, agregarPorLotacao, agregarPorVinculo

  /** The only outlier check of these reducers: `liquido` (`NaN` read as 0)
      must not exceed the bound. */
  predicate LiquidoNoLimite(r: Registro) {
    OrZero(r.liquido) <= MaxValor
  }

  /** A name that identifies a person: non-blank and not the totals line. */
  predicate NomeDePessoa(r: Registro) {
    Texto.Trim(r.nome) != "" && r.nome != Folha.LinhaDeTotais
  }

  /** The key added to `funcionariosUnicos`: the CPF's digits when a
      non-blank CPF has exactly eleven of them, else the trimmed name of a
      person, else nothing. */
  function PessoaEmpenho(r: Registro): (p: Option<string>)
    ensures p.Some? ==> p.value != ""
    ensures Texto.Trim(r.cpf) != "" && |Texto.Digits(r.cpf)| == 11 ==> p == Some(Texto.Digits(r.cpf))
    ensures !(Texto.Trim(r.cpf) != "" && |Texto.Digits(r.cpf)| == 11) ==>
              p == (if NomeDePessoa(r) then Some(Texto.Trim(r.nome)) else None)
    ensures p.Some? ==> (|p.value| == 11 && Texto.AllDigits(p.value)) || p.value == Texto.Trim(r.nome)
  {
    if Texto.Trim(r.cpf) != "" then
      var cpf := Texto.Digits(r.cpf);
      if |cpf| == 11 then Some(cpf)
      else if NomeDePessoa(r) then Some(Texto.Trim(r.nome))
      else None
    else if NomeDePessoa(r) then Some(Texto.Trim(r.nome))
    else None
  }

  /** `agregarPorCompetencia`: keyed by the competência, a missing one
      grouping under `'NÃO INFORMADO'`. */
  function ContribuicaoCompetencia(r: Registro): Option<Agregacao.Contribuicao> {
    if !LiquidoNoLimite(r) then None
    else
      var k := Folha.OuNaoInformado(r.competencia);
      Some(Folha.Contribuir(r, k, [k], PessoaEmpenho(r), Folha.NomeListado(r), None, None))
  }

  /** `lotacao_normalizada || lotacao_original || 'SEM LOTAÇÃO'`. */
  function ChaveLotacao(r: Registro): (k: string)
    ensures k != ""
  {
    if r.lotacaoNormalizada != "" then r.lotacaoNormalizada
    else if r.lotacaoOriginal != "" then r.lotacaoOriginal
    else "SEM LOTAÇÃO"
  }

  /** `agregarPorLotacao`: keyed by the record's own lotação, unmapped. */
  function ContribuicaoLotacao(r: Registro): Option<Agregacao.Contribuicao> {
    if !LiquidoNoLimite(r) then None
    else
      var k := ChaveLotacao(r);
      Some(Folha.Contribuir(r, k, [k], PessoaEmpenho(r), Folha.NomeListado(r), None, None))
  }

  /** `agregarPorVinculo`: keyed by the trimmed vínculo; any non-empty name
      is listed, the totals line included. */
  function ContribuicaoVinculo(r: Registro): Option<Agregacao.Contribuicao> {
    if !LiquidoNoLimite(r) then None
    else
      var k := Folha.ChaveVinculo(r.vinculo);
      Some(Folha.Contribuir(r, k, [k], PessoaEmpenho(r), if r.nome != "" then Some(r.nome) else None, None, None))
  }

  method AgregarPorCompetencia(dados: seq<Registro>) returns (g: Agregacao.Grupos)
    ensures g == Agregacao.Dobrar(dados, ContribuicaoCompetencia, None)
    ensures Folha.Contabilizado(dados, g, LiquidoNoLimite)
  {
    g := Agregacao.Agregar(dados, ContribuicaoCompetencia, None);
    Folha.Contabiliza(dados, ContribuicaoCompetencia, LiquidoNoLimite);
  }

  method AgregarPorLotacao(dados: seq<Registro>) returns (g: Agregacao.Grupos)
    ensures g == Agregacao.Dobrar(dados, ContribuicaoLotacao, None)
    ensures Folha.Contabilizado(dados, g, LiquidoNoLimite)
  {
    g := Agregacao.Agregar(dados, ContribuicaoLotacao, None);
    Folha.Contabiliza(dados, ContribuicaoLotacao, LiquidoNoLimite);
  }

  method AgregarPorVinculo(dados: seq<Registro>) returns (g: Agregacao.Grupos)
    ensures g == Agregacao.Dobrar(dados, ContribuicaoVinculo, None)
    ensures Folha.Contabilizado(dados, g, LiquidoNoLimite)
  {
    g := Agregacao.Agregar(dados, ContribuicaoVinculo, None);
    Folha.Contabiliza(dados, ContribuicaoVinculo, LiquidoNoLimite);
  }

  /** Every competência bucket is the competência of some record kept, or
      `'NÃO INFORMADO'` standing for a missing one. */
  lemma ChavesCompetencia(dados: seq<Registro>, k: string)
    requires k in Agregacao.Dobrar(dados, ContribuicaoCompetencia, None).buckets
    ensures exists i :: 0 <= i < |dados| && LiquidoNoLimite(dados[i])
                        && (dados[i].competencia == k || (dados[i].competencia == "" && k == Folha.NaoInformado))
  {
    Agregacao.ChaveDeOrigem(dados, ContribuicaoCompetencia, None, k);
    var i :| 0 <= i < |dados| && ContribuicaoCompetencia(dados[i]).Some?
             && ContribuicaoCompetencia(dados[i]).value.chave == k;
    var r := dados[i];
    assert LiquidoNoLimite(r) && Folha.OuNaoInformado(r.competencia) == k;
    assert r.competencia == k || (r.competencia == "" && k == Folha.NaoInformado);
  }

  // ---------------------------------------------------------------------
  // calcularEstatisticas

  /** The object `calcularEstatisticas` returns. */
  datatype EstatisticasEmpenho = EstatisticasEmpenho(
    totalFuncionarios: nat,
    totalVinculos: nat,
    totalRegistros: nat,
    totalLiquido: real,
    totalVantagem: real,
    totalDesconto: real,
    mediaLiquido: real,
    medianaLiquido: real,
    maiorLiquido: real,
    menorLiquido: real)

  /** A totals row: its name mentions `'*Totais*'` or `'TOTAL'`. */
  predicate LinhaDeTotal(nome: string) {
    Texto.Contains(nome, Folha.LinhaDeTotais) || Texto.Contains(nome, "TOTAL")
  }

  /** The person a record counts as, totals rows counting as nobody. */
  function PessoaContada(r: Registro): Option<string> {
    if LinhaDeTotal(r.nome) then None else PessoaEmpenho(r)
  }

  /** The contract a record counts as: its trimmed, non-blank matrícula,
      totals rows counting as none. */
  function VinculoContado(r: Registro): (m: Option<string>)
    ensures m.Some? <==> !LinhaDeTotal(r.nome) && Texto.Trim(r.matricula) != ""
    ensures m.Some? ==> m.value == Texto.Trim(r.matricula)
  {
    if LinhaDeTotal(r.nome) then None
    else if Texto.Trim(r.matricula) != "" then Some(Texto.Trim(r.matricula))
    else None
  }

  function DescontoOuZero(r: Registro): real { OrZero(r.desconto) }

  function Descontos(dados: seq<Registro>): seq<real> {
    Seqs.Map(dados, DescontoOuZero)
  }

  /** The `forEach` filling `funcionariosUnicos` and `vinculosUnicos`. */
  method ContarPessoasEVinculos(dados: seq<Registro>) returns (pessoas: set<string>, vinculos: set<string>)
    ensures pessoas == Seqs.Collect(dados, PessoaContada)
    ensures vinculos == Seqs.Collect(dados, VinculoContado)
    ensures |pessoas| <= |dados| && |vinculos| <= |dados|
    ensures forall v :: v in vinculos <==>
              exists i :: 0 <= i < |dados| && !LinhaDeTotal(dados[i].nome)
                          && Texto.Trim(dados[i].matricula) != "" && Texto.Trim(dados[i].matricula) == v
  {
    pessoas := {};
    vinculos := {};
    for i := 0 to |dados|
      invariant pessoas == Seqs.Collect(dados[..i], PessoaContada)
      invariant vinculos == Seqs.Collect(dados[..i], VinculoContado)
    {
      Seqs.CollectSnoc(dados, i, PessoaContada);
      Seqs.CollectSnoc(dados, i, VinculoContado);
      var r := dados[i];
      if !LinhaDeTotal(r.nome) {
        assert PessoaContada(r) == PessoaEmpenho(r);
        match PessoaEmpenho(r) {
          case Some(p) => pessoas := pessoas + {p};
          case None =>
        }
        if Texto.Trim(r.matricula) != "" {
          vinculos := vinculos + {Texto.Trim(r.matricula)};
        }
      }
    }
    assert dados[..|dados|] == dados;
    Seqs.CollectSize(dados, PessoaContada);
    Seqs.CollectSize(dados, VinculoContado);
    forall v ensures v in vinculos <==>
              exists i :: 0 <= i < |dados| && !LinhaDeTotal(dados[i].nome)
                          && Texto.Trim(dados[i].matricula) != "" && Texto.Trim(dados[i].matricula) == v
    {
      Seqs.CollectMembership(dados, VinculoContado, v);
    }
  }

  /** `calcularEstatisticas(dados)`: every total leaves out its own values
      above the bound, and the median, largest and smallest are over the
      `liquido` values in (0, bound]. */
  method CalcularEstatisticas(dados: seq<Registro>) returns (e: EstatisticasEmpenho)
    ensures |dados| == 0 ==> e == EstatisticasEmpenho(0, 0, 0, 0.0, 0.0, 0.0, 0.0, 0.0, 0.0, 0.0)
    ensures |dados| > 0 ==>
      e.totalFuncionarios == |Seqs.Collect(dados, PessoaContada)|
      && e.totalVinculos == |Seqs.Collect(dados, VinculoContado)|
      && e.totalRegistros == |dados|
      && e.totalLiquido == Estatistica.SomaLimitada(Folha.Liquidos(dados))
      && e.totalVantagem == Estatistica.SomaLimitada(Folha.Vantagens(dados))
      && e.totalDesconto == Estatistica.SomaLimitada(Descontos(dados))
      && e.mediaLiquido == e.totalLiquido / (|dados| as real)
      && Estatistica.Posicao(e.medianaLiquido, e.maiorLiquido, e.menorLiquido)
         == Estatistica.Posicoes(Folha.Liquidos(dados))
    ensures e.totalFuncionarios <= e.totalRegistros && e.totalVinculos <= e.totalRegistros
  {
    if |dados| == 0 {
      return EstatisticasEmpenho(0, 0, 0, 0.0, 0.0, 0.0, 0.0, 0.0, 0.0, 0.0);
    }
    var pessoas, vinculos := ContarPessoasEVinculos(dados);
    var totalLiquido := Estatistica.SomaLimitada(Folha.Liquidos(dados));
    var totalVantagem := Estatistica.SomaLimitada(Folha.Vantagens(dados));
    var totalDesconto := Estatistica.SomaLimitada(Descontos(dados));
    var pos := Estatistica.Posicoes(Folha.Liquidos(dados));
    e := EstatisticasEmpenho(|pessoas|, |vinculos|, |dados|, totalLiquido, totalVantagem, totalDesconto,
                             totalLiquido / (|dados| as real), pos.mediana, pos.maior, pos.menor);
  }

  // ---------------------------------------------------------------------
  // topN

  /** A row of the expenditure `topN`: the lotação falls back on
      `lotacao_original` rather than on `lotacao`. */
  function Projetar(r: Registro, campo: Campo): Folha.LinhaTop {
    Folha.LinhaTop(if r.nome != "" then r.nome else "N/A",
                   r.cpf,
                   if r.lotacaoNormalizada != "" then r.lotacaoNormalizada
                   else if r.lotacaoOriginal != "" then r.lotacaoOriginal else "N/A",
                   r.vinculo, r.funcao, r.situacao, OrZero(Valor(r, campo)))
  }

  function Projecao(campo: Campo): Registro -> Folha.LinhaTop {
    (r: Registro) => Projetar(r, campo)
  }

  /** `topN(dados, campo, n)`: the individual records with a numeric
      `campo`, largest first, cut by `slice(0, n)`, each as its display row. */
  function TopN(dados: seq<Registro>, campo: Campo, n: int): (linhas: seq<Folha.LinhaTop>)
    ensures |linhas| == Seqs.SliceBound(n, |Seqs.Filter(dados, Folha.Individuais(campo))|)
    ensures forall i :: 0 <= i < |linhas| ==> linhas[i] == Projetar(Folha.TopRegistros(dados, campo, n)[i], campo)
    ensures forall i :: 0 <= i < |linhas| ==> linhas[i].nome != "" && linhas[i].nome != Folha.LinhaDeTotais
    ensures forall i, j :: 0 <= i < j < |linhas| ==> linhas[i].valor >= linhas[j].valor
  {
    var r := Folha.TopRegistros(dados, campo, n);
    var linhas := Seqs.Map(r, Projecao(campo));
    forall i | 0 <= i < |r|
      ensures linhas[i].nome == r[i].nome != "" && r[i].nome != Folha.LinhaDeTotais
      ensures linhas[i].valor == Folha.ChaveTop(campo)(r[i])
    {
      assert r[i] in r;
      assert Texto.Trim(r[i].nome) != "";
    }
    linhas
  }
}
