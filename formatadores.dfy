/** Display formatting of CPFs and competências (utils/formatters.js). */
module Formatadores {
  import opened Base
  import opened Registros
  import Seqs
  import Texto
  import Ordenacao

  // ---------------------------------------------------------------------
  // formatarCPF

  /** `formatarCPF(cpf)`: an eleven-digit string gets the `ddd.ddd.ddd-dd`
      mask; anything else (including `""` for an absent CPF) is returned as
      it is, since the mask pattern needs eleven consecutive digits. */
  function FormatarCPF(cpf: string): (r: string)
    ensures !(|cpf| == 11 && Texto.AllDigits(cpf)) ==> r == cpf
    ensures |cpf| == 11 && Texto.AllDigits(cpf) ==>
      |r| == 14 && r[3] == '.' && r[7] == '.' && r[11] == '-'
  {
    if |cpf| != 11 then cpf
    else if Texto.AllDigits(cpf) then
      cpf[..3] + "." + cpf[3..6] + "." + cpf[6..9] + "-" + cpf[9..]
    else cpf
  }

  /** Stripping the mask gives the digits back, so masking loses nothing. */
  lemma FormatarCPFDigitos(cpf: string)
    requires |cpf| == 11 && Texto.AllDigits(cpf)
    ensures Texto.Digits(FormatarCPF(cpf)) == cpf
  {
    var a, b, c, d := cpf[..3], cpf[3..6], cpf[6..9], cpf[9..];
    var p1 := a + ".";
    var p2 := p1 + b;
    var p3 := p2 + ".";
    var p4 := p3 + c;
    var p5 := p4 + "-";
    assert FormatarCPF(cpf) == p5 + d;
    assert Texto.Digits(p1) == a by {
      Texto.DigitsSeparador(a, '.');
      Texto.DigitsOfDigits(a);
    }
    Texto.DigitsMaisDigitos(p1, b);
    Texto.DigitsSeparador(p2, '.');
    Texto.DigitsMaisDigitos(p3, c);
    Texto.DigitsSeparador(p4, '-');
    Texto.DigitsMaisDigitos(p5, d);
    assert a + b + c + d == cpf;
  }

  // ---------------------------------------------------------------------
  // formatarCompetencia, formatarCompetenciaCurta

  const Meses: seq<string> := ["Janeiro", "Fevereiro", "Março", "Abril", "Maio", "Junho",
                               "Julho", "Agosto", "Setembro", "Outubro", "Novembro", "Dezembro"]

  const MesesCurtos: seq<string> := ["Jan", "Fev", "Mar", "Abr", "Mai", "Jun",
                                     "Jul", "Ago", "Set", "Out", "Nov", "Dez"]

  /** `nomes[parseInt(mes) - 1] || mes`: the month's name, or the raw month
      text when it does not parse to 1..12. */
  function NomeMes(mes: string, nomes: seq<string>): string
    requires |nomes| == 12
  {
    match Texto.ParseInt(mes)
    case Some(n) => if 1 <= n <= 12 then nomes[n - 1] else mes
    case None => mes
  }

  /** `formatarCompetencia(c)`: `'<month name>/<year>'` for `'YYYY-MM'`;
      text without a `-` is returned as it is. */
  function FormatarCompetencia(c: string): (r: string)
    ensures '-' !in c ==> r == c
    ensures '-' in c ==> '/' in r
  {
    if '-' !in c then c
    else
      var ano := Texto.FirstField(c, '-');
      var mes := Texto.SecondField(c, '-');
      var r := NomeMes(mes, Meses) + "/" + ano;
      assert r[|NomeMes(mes, Meses)|] == '/';
      r
  }

  /** `formatarCompetenciaCurta(c)`: `'<3-letter month>/<year without its
      first two characters>'`; text without a `-` is returned as it is. */
  function FormatarCompetenciaCurta(c: string): (r: string)
    ensures '-' !in c ==> r == c
    ensures '-' in c ==> '/' in r
  {
    if '-' !in c then c
    else
      var ano := Texto.FirstField(c, '-');
      var mes := Texto.SecondField(c, '-');
      var r := NomeMes(mes, MesesCurtos) + "/" + (if |ano| >= 2 then ano[2..] else "");
      assert r[|NomeMes(mes, MesesCurtos)|] == '/';
      r
  }

  /** Splitting `ano + "-" + mes` at its first `-` gives back both parts. */
  lemma Campos(ano: string, mes: string)
    requires '-' !in ano && '-' !in mes
    ensures Texto.FirstField(ano + "-" + mes, '-') == ano
    ensures '-' in ano + "-" + mes && Texto.SecondField(ano + "-" + mes, '-') == mes
  {
    var s := ano + "-" + mes;
    assert s[|ano|] == '-';
    var i := Texto.IndexOf(s, '-');
    assert i == |ano|;
    assert s[i + 1..] == mes;
  }

  /** A month written with digits only names month 1..12 by its value. */
  lemma NomeMesValido(mes: string, nomes: seq<string>)
    requires |nomes| == 12 && |mes| > 0 && Texto.AllDigits(mes)
    requires 1 <= Texto.DigitsValue(mes) <= 12
    ensures NomeMes(mes, nomes) == nomes[Texto.DigitsValue(mes) - 1]
  {
    var n := Texto.DigitsValue(mes) as int;
    assert Texto.ParseInt(mes) == Some(n);
    NomeDoNumero(mes, nomes, n);
  }

  lemma NomeDoNumero(mes: string, nomes: seq<string>, n: int)
    requires |nomes| == 12 && Texto.ParseInt(mes) == Some(n) && 1 <= n <= 12
    ensures NomeMes(mes, nomes) == nomes[n - 1]
  {
  }

  /** `'YYYY-MM'` with a numeric month in 1..12 formats as the month's
      name, a slash and the year, e.g. `'2025-04'` as `'Abril/2025'`. */
  lemma CompetenciaFormatada(ano: string, mes: string)
    requires '-' !in ano && |mes| > 0 && Texto.AllDigits(mes)
    requires 1 <= Texto.DigitsValue(mes) <= 12
    ensures FormatarCompetencia(ano + "-" + mes) == Meses[Texto.DigitsValue(mes) - 1] + "/" + ano
  {
    SemHifen(mes);
    Campos(ano, mes);
    NomeMesValido(mes, Meses);
  }

  /** The short form: the three-letter month and the year without its
      first two characters, e.g. `'2025-04'` as `'Abr/25'`. */
  lemma CompetenciaCurtaFormatada(ano: string, mes: string)
    requires '-' !in ano && |mes| > 0 && Texto.AllDigits(mes)
    requires 1 <= Texto.DigitsValue(mes) <= 12
    ensures FormatarCompetenciaCurta(ano + "-" + mes)
         == MesesCurtos[Texto.DigitsValue(mes) - 1] + "/" + (if |ano| >= 2 then ano[2..] else "")
  {
    SemHifen(mes);
    Campos(ano, mes);
    NomeMesValido(mes, MesesCurtos);
  }

  lemma SemHifen(s: string)
    requires Texto.AllDigits(s)
    ensures '-' !in s
  {
  }

  /** A month that does not parse to 1..12 falls back to the raw month text. */
  lemma CompetenciaMesInvalido(ano: string, mes: string)
    requires '-' !in ano && '-' !in mes
    requires Texto.ParseInt(mes).None? || !(1 <= Texto.ParseInt(mes).value <= 12)
    ensures FormatarCompetencia(ano + "-" + mes) == mes + "/" + ano
  {
    Campos(ano, mes);
  }

  // ---------------------------------------------------------------------
  // extrairPeriodoDados

  /** The distinct non-empty competências of the records, sorted:
      `Array.from(new Set(...)).sort()`. */
  function CompetenciasOrdenadas(dados: seq<Registro>): (r: seq<string>)
    ensures Ordenacao.StrictlySortedLex(r)
    ensures forall c :: c in r <==> c != "" && exists i :: 0 <= i < |dados| && dados[i].competencia == c
  {
    var todas := Seqs.Map(dados, (x: Registro) => x.competencia);
    forall c ensures c in todas <==> exists i :: 0 <= i < |dados| && dados[i].competencia == c {
      if c in todas {
        var i :| 0 <= i < |todas| && todas[i] == c;
        assert dados[i].competencia == c;
      }
      if exists i :: 0 <= i < |dados| && dados[i].competencia == c {
        var i :| 0 <= i < |dados| && dados[i].competencia == c;
        assert todas[i] == c;
      }
    }
    Ordenacao.DistintosOrdenados(todas)
  }

  /** `extrairPeriodoDados(dados)`: when every record with a competência
      has the same one, the period is that single month, formatted. */
  function ExtrairPeriodoDados(dados: seq<Registro>): (r: string)
    ensures forall i :: 0 <= i < |dados| && UnicaCompetencia(dados, dados[i].competencia) ==>
              r == FormatarCompetencia(dados[i].competencia)
  {
    var cs := CompetenciasOrdenadas(dados);
    assert forall i :: 0 <= i < |dados| && UnicaCompetencia(dados, dados[i].competencia) ==>
             |cs| == 1 && cs[0] == dados[i].competencia by {
      forall i | 0 <= i < |dados| && UnicaCompetencia(dados, dados[i].competencia)
        ensures |cs| == 1 && cs[0] == dados[i].competencia
      {
        var c := dados[i].competencia;
        assert c in cs;
        forall k | 0 <= k < |cs| ensures cs[k] == c {
          assert cs[k] in cs;
          var j :| 0 <= j < |dados| && dados[j].competencia == cs[k];
        }
        if |cs| >= 2 {
          assert Ordenacao.LexLess(cs[0], cs[1]);
          Ordenacao.LexIrreflexive(c);
        }
      }
    }
    if |dados| == 0 || |cs| == 0 then ""
    else if |cs| == 1 then FormatarCompetencia(cs[0])
    else FormatarCompetencia(cs[0]) + " - " + FormatarCompetencia(cs[|cs| - 1])
  }

  /** `c` is a competência and no record has another one. */
  predicate UnicaCompetencia(dados: seq<Registro>, c: string) {
    c != "" && forall j :: 0 <= j < |dados| ==> dados[j].competencia == "" || dados[j].competencia == c
  }

  /** A single month: records from `2025-03` only give `Março/2025`. */
  lemma PeriodoUnico(dados: seq<Registro>)
    ensures var cs := CompetenciasOrdenadas(dados);
      |cs| == 1 ==> ExtrairPeriodoDados(dados) == FormatarCompetencia(cs[0])
  {
    var cs := CompetenciasOrdenadas(dados);
    if |cs| == 1 {
      assert cs[0] in cs;
      var i :| 0 <= i < |dados| && dados[i].competencia == cs[0];
      forall j | 0 <= j < |dados| && dados[j].competencia != "" ensures dados[j].competencia == cs[0] {
        assert dados[j].competencia in cs;
      }
      assert UnicaCompetencia(dados, dados[i].competencia);
    }
  }

  /** The period is empty exactly when no record has a competência. */
  lemma PeriodoVazio(dados: seq<Registro>)
    ensures ExtrairPeriodoDados(dados) == "" <==> forall i :: 0 <= i < |dados| ==> dados[i].competencia == ""
  {
    var cs := CompetenciasOrdenadas(dados);
    if |cs| > 0 {
      assert cs[0] in cs;
      var i :| 0 <= i < |dados| && dados[i].competencia == cs[0];
      if '-' in cs[0] {
        assert '/' in FormatarCompetencia(cs[0]);
      }
      if |cs| >= 2 {
        var f := FormatarCompetencia(cs[0]) + " - " + FormatarCompetencia(cs[|cs| - 1]);
        assert f[|FormatarCompetencia(cs[0])|] == ' ';
      }
    } else {
      forall i | 0 <= i < |dados| ensures dados[i].competencia == "" {
        var c := dados[i].competencia;
        assert c in cs <==> c != "";
      }
    }
  }

  /** With several distinct competências the period runs from the smallest
      to the largest of them. */
  lemma PeriodoIntervalo(dados: seq<Registro>)
    ensures var cs := CompetenciasOrdenadas(dados);
      |cs| >= 2 ==>
        ExtrairPeriodoDados(dados) == FormatarCompetencia(cs[0]) + " - " + FormatarCompetencia(cs[|cs| - 1])
        && (forall c :: c in cs && c != cs[0] ==> Ordenacao.LexLess(cs[0], c))
        && (forall c :: c in cs && c != cs[|cs| - 1] ==> Ordenacao.LexLess(c, cs[|cs| - 1]))
  {
    var cs := CompetenciasOrdenadas(dados);
    if |cs| >= 2 {
      assert |dados| > 0 by {
        assert cs[0] in cs;
      }
      forall c | c in cs && c != cs[0] ensures Ordenacao.LexLess(cs[0], c) {
        var j :| 0 <= j < |cs| && cs[j] == c;
      }
      forall c | c in cs && c != cs[|cs| - 1] ensures Ordenacao.LexLess(c, cs[|cs| - 1]) {
        var j :| 0 <= j < |cs| && cs[j] == c;
      }
    }
  }
}
