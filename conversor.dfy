/** The CSV-to-JSON converter of the payroll reports: whitespace
    normalisation, CPF digits, pt-BR money strings, the lotação label
    normaliser with its ordered pattern table, competência detection and the
    row logic of the CSV parser over rows already split into cells.

    Python's `\s`, `strip()` and `split()` see the whitespace set of
    `Texto.IsSpace`; on text that has been through `NormalizarTexto` every
    whitespace run is a single space, so the regular expressions of the
    pattern table become plain substring checks. */
module Conversor {
  import opened Base
  import Seqs
  import Texto

  // ---------------------------------------------------------------------
  // normalize_text

  /** `value.replace("\xa0", " ")`. */
  function SemNbsp(s: string): string
  {
    if |s| == 0 then ""
    else SemNbsp(s[..|s| - 1]) + [if s[|s| - 1] == '\U{A0}' then ' ' else s[|s| - 1]]
  }

  /** No no-break space is left, and text without one is unchanged. */
  lemma {:induction false} SemNbspForma(s: string)
    ensures '\U{A0}' !in SemNbsp(s)
    ensures '\U{A0}' !in s ==> SemNbsp(s) == s
  {
    if |s| > 0 {
      SemNbspForma(s[..|s| - 1]);
      assert s[..|s| - 1] + [s[|s| - 1]] == s;
    }
  }

  /** `re.sub(r"\s+", " ", s)`: every maximal whitespace run becomes one space. */
  function Colapsar(s: string): string
    decreases |s|
  {
    if |s| == 0 then ""
    else
      var c := s[|s| - 1];
      var antes := Colapsar(s[..|s| - 1]);
      if !Texto.IsSpace(c) then antes + [c]
      else if |s| >= 2 && Texto.IsSpace(s[|s| - 2]) then antes
      else antes + [' ']
  }

  /** The only whitespace is the plain space, and never two in a row. */
  predicate Compacto(s: string) {
    forall i :: 0 <= i < |s| && Texto.IsSpace(s[i]) ==>
      s[i] == ' ' && (i + 1 < |s| ==> !Texto.IsSpace(s[i + 1]))
  }

  /** Neither leading nor trailing whitespace. */
  predicate Aparado(s: string) {
    |s| > 0 ==> !Texto.IsSpace(s[0]) && !Texto.IsSpace(s[|s| - 1])
  }

  /** Collapsing yields a compact string that ends in whitespace exactly
      when the input does. */
  lemma {:induction false} ColapsarCompacto(s: string)
    ensures Compacto(Colapsar(s))
    ensures |Colapsar(s)| == 0 <==> |s| == 0
    ensures |s| > 0 ==> (Texto.IsSpace(Colapsar(s)[|Colapsar(s)| - 1]) <==> Texto.IsSpace(s[|s| - 1]))
    decreases |s|
  {
    if |s| > 0 {
      var p := s[..|s| - 1];
      ColapsarCompacto(p);
      var antes := Colapsar(p);
      if |s| >= 2 {
        assert p[|p| - 1] == s[|s| - 2];
      }
    }
  }

  /** A compact string is left as it is by collapsing. */
  lemma {:induction false} ColapsarFixo(s: string)
    requires Compacto(s)
    ensures Colapsar(s) == s
    decreases |s|
  {
    if |s| > 0 {
      var p := s[..|s| - 1];
      CompactoFatia(s, 0, |s| - 1);
      assert s[0..|s| - 1] == p;
      ColapsarFixo(p);
      var n := |s| - 1;
      assert Texto.IsSpace(s[n]) ==> s[n] == ' ';
      assert n >= 1 && Texto.IsSpace(s[n - 1]) ==> !Texto.IsSpace(s[n]);
      ColapsarFixoPasso(s);
    }
  }

  /** The last step of `ColapsarFixo`: a last character that is a lone
      plain space, or not whitespace at all, is kept as it is. */
  lemma ColapsarFixoPasso(s: string)
    requires |s| > 0 && Colapsar(s[..|s| - 1]) == s[..|s| - 1]
    requires Texto.IsSpace(s[|s| - 1]) ==> s[|s| - 1] == ' ' && (|s| >= 2 ==> !Texto.IsSpace(s[|s| - 2]))
    ensures Colapsar(s) == s
  {
    var p := s[..|s| - 1];
    var c := s[|s| - 1];
    assert p + [c] == s;
  }

  /** A slice of a compact string is compact. */
  lemma CompactoFatia(s: string, a: nat, b: nat)
    requires Compacto(s) && a <= b <= |s|
    ensures Compacto(s[a..b])
  {
    var t := s[a..b];
    forall i | 0 <= i < |t| && Texto.IsSpace(t[i])
      ensures t[i] == ' ' && (i + 1 < |t| ==> !Texto.IsSpace(t[i + 1]))
    {
      assert t[i] == s[a + i];
      if i + 1 < |t| {
        assert t[i + 1] == s[a + i + 1];
      }
    }
  }

  /** Trimming keeps a compact string compact. */
  lemma TrimCompacto(s: string)
    requires Compacto(s)
    ensures Compacto(Texto.Trim(s))
  {
    var u := Texto.TrimStart(s);
    Texto.TrimStartForma(s);
    Texto.TrimEndForma(u);
    CompactoFatia(s, |s| - |u|, |s|);
    CompactoFatia(u, 0, |Texto.TrimEnd(u)|);
  }

  /** `normalize_text`: `None` gives `""`; otherwise no-break spaces become
      spaces, whitespace runs collapse to one space and the ends are stripped. */
  function NormalizarTexto(value: Option<string>): string {
    match value
    case None => ""
    case Some(s) => Texto.Trim(Colapsar(SemNbsp(s)))
  }

  /** The normalised text has no no-break space, no leading or trailing
      whitespace and no run of two whitespace characters. */
  lemma NormalizarTextoForma(value: Option<string>)
    ensures var r := NormalizarTexto(value);
            (value.None? ==> r == "") && '\U{A0}' !in r && Aparado(r) && Compacto(r)
  {
    if value.Some? {
      var c := Colapsar(SemNbsp(value.value));
      ColapsarCompacto(SemNbsp(value.value));
      TrimCompacto(c);
    }
  }

  /** Normalising twice is normalising once. */
  lemma NormalizarTextoIdempotente(value: Option<string>)
    ensures NormalizarTexto(Some(NormalizarTexto(value))) == NormalizarTexto(value)
  {
    var t := NormalizarTexto(value);
    NormalizarTextoForma(value);
    SemNbspForma(t);
    ColapsarFixo(t);
    Texto.TrimOfTrimmed(t);
  }

  // ---------------------------------------------------------------------
  // normalize_cpf

  /** Python `str.zfill(w)`: zeros on the left up to width `w`, after a
      leading sign. */
  function ZFill(s: string, w: nat): string {
    if |s| > 0 && (s[0] == '+' || s[0] == '-') then
      [s[0]] + Texto.PadStart(s[1..], if w > 0 then w - 1 else 0, '0')
    else Texto.PadStart(s, w, '0')
  }

  /** `normalize_cpf`: the digits of the input, `""` for `None` or no digits. */
  function NormalizarCpf(value: Option<string>): (r: string)
    ensures r == Texto.Digits(value.GetOr(""))
    ensures Texto.AllDigits(r)
  {
    var digitos := Texto.Digits(value.GetOr(""));
    if digitos != "" then
      assert digitos[0] != '+' && digitos[0] != '-';
      ZFill(digitos, |digitos|)
    else ""
  }

  /** A normalised CPF normalises to itself. */
  lemma NormalizarCpfIdempotente(value: Option<string>)
    ensures NormalizarCpf(Some(NormalizarCpf(value))) == NormalizarCpf(value)
  {
    Texto.DigitsOfDigits(NormalizarCpf(value));
  }

  /** `normalize_vinculo`: normalised, accents removed, upper-cased.
      `removerAcentos` stands for the NFD-based `remove_accents`. */
  function NormalizarVinculo(value: Option<string>, removerAcentos: string -> string): string {
    Texto.Upper(removerAcentos(NormalizarTexto(value)))
  }

  // ---------------------------------------------------------------------
  // parse_monetary

  /** `replace(".", "").replace(",", ".")`: thousands separators dropped,
      the decimal comma turned into a point. */
  function Padronizar(s: string): string
    decreases |s|
  {
    if |s| == 0 then ""
    else
      var c := s[|s| - 1];
      Padronizar(s[..|s| - 1]) + (if c == '.' then "" else if c == ',' then "." else [c])
  }

  /** No comma survives, and a text with neither separator is unchanged. */
  lemma {:induction false} PadronizarForma(s: string)
    ensures ',' !in Padronizar(s)
    ensures '.' !in s && ',' !in s ==> Padronizar(s) == s
    decreases |s|
  {
    if |s| > 0 {
      var p := s[..|s| - 1];
      PadronizarForma(p);
      assert s == p + [s[|s| - 1]];
    }
  }

  /** A pt-BR amount with thousands separators becomes a plain decimal. */
  lemma PadronizarExemplo()
    ensures Padronizar("1.234,56") == "1234.56"
  {
    assert "" + ['1'] == "1";
    PadronizarSnoc("", '1');
    assert "1" + ['.'] == "1.";
    PadronizarSnoc("1", '.');
    assert "1." + ['2'] == "1.2";
    PadronizarSnoc("1.", '2');
    assert "1.2" + ['3'] == "1.23";
    PadronizarSnoc("1.2", '3');
    assert "1.23" + ['4'] == "1.234";
    PadronizarSnoc("1.23", '4');
    assert "1.234" + [','] == "1.234,";
    PadronizarSnoc("1.234", ',');
    assert "1.234," + ['5'] == "1.234,5";
    PadronizarSnoc("1.234,", '5');
    assert "1.234,5" + ['6'] == "1.234,56";
    PadronizarSnoc("1.234,5", '6');
  }

  /** One more character: a point is dropped, a comma becomes a point. */
  lemma PadronizarSnoc(s: string, c: char)
    ensures Padronizar(s + [c]) == Padronizar(s) + (if c == '.' then "" else if c == ',' then "." else [c])
  {
    assert (s + [c])[..|s|] == s;
  }

  /** What `parse_monetary` computes: `None` when `float()` rejects the
      standardised text (`paraFloat` stands for Python's `float`). */
  function ValorMonetario(value: string, paraFloat: string -> Option<real>): Option<real>
  {
    var limpo := NormalizarTexto(Some(value));
    if limpo == "" || limpo == "-" then Some(0.0)
    else paraFloat(Padronizar(limpo))
  }

  /** An empty or `'-'` cell (after normalisation) is 0 without error; any
      other cell fails exactly when `float()` rejects its standardised text. */
  lemma ValorMonetarioCasos(value: string, paraFloat: string -> Option<real>)
    ensures var limpo := NormalizarTexto(Some(value));
            (limpo == "" || limpo == "-" ==> ValorMonetario(value, paraFloat) == Some(0.0))
            && (limpo != "" && limpo != "-" ==> ValorMonetario(value, paraFloat) == paraFloat(Padronizar(limpo)))
  {
  }

  /** An entry `parse_monetary` appends to `erros`, kept as its parts: the
      file line, the field and the raw cell that could not be read. */
  datatype Erro = ValorInvalido(linha: nat, campo: string, valor: string)

  /** The text of the entry, `f"Linha {linha}: valor inválido em {field} ({value})"`. */
  function Mensagem(e: Erro): string {
    "Linha " + Texto.NatToString(e.linha) + ": valor inválido em " + e.campo + " (" + e.valor + ")"
  }

  /** The errors one amount adds. */
  function ErroMonetario(value: string, linha: nat, campo: string, paraFloat: string -> Option<real>): seq<Erro> {
    if ValorMonetario(value, paraFloat).None? then [ValorInvalido(linha, campo, value)] else []
  }

  /** An amount adds exactly one error when it cannot be parsed, none
      otherwise, and the error names its line, field and raw cell. */
  lemma ErroMonetarioUnico(value: string, linha: nat, campo: string, paraFloat: string -> Option<real>)
    ensures var e := ErroMonetario(value, linha, campo, paraFloat);
            |e| <= 1 && (|e| == 1 <==> ValorMonetario(value, paraFloat).None?)
            && (|e| == 1 ==> e[0] == ValorInvalido(linha, campo, value))
  {
  }

  /** The texts of the entries, as the script writes them out. */
  function Mensagens(erros: seq<Erro>): (r: seq<string>)
    ensures |r| == |erros| && forall i :: 0 <= i < |erros| ==> r[i] == Mensagem(erros[i])
  {
    Seqs.Map(erros, Mensagem)
  }

  /** `parse_monetary(value, linha, field, erros)`: the amount, 0 for an
      empty or `'-'` cell and for one that cannot be parsed, in which case
      exactly one message is appended to `erros`. */
  method ParseMonetary(value: string, linha: nat, campo: string, erros: seq<Erro>, paraFloat: string -> Option<real>)
    returns (v: real, depois: seq<Erro>)
    ensures v == ValorMonetario(value, paraFloat).GetOr(0.0)
    ensures depois == erros + ErroMonetario(value, linha, campo, paraFloat)
  {
    depois := erros;
    var limpo := NormalizarTexto(Some(value));
    if limpo == "" || limpo == "-" {
      return 0.0, depois;
    }
    var padronizado := Padronizar(limpo);
    match paraFloat(padronizado) {
      case Some(x) =>
        v := x;
      case None =>
        depois := depois + [ValorInvalido(linha, campo, value)];
        v := 0.0;
    }
  }

  // ---------------------------------------------------------------------
  // normalize_lotacao

  /** An entry of `LOTACAO_PATTERNS`: the alternatives of the regular
      expression, written out for compact upper-case text (`\s+` is one
      space there, `\s*` none or one), and the label it yields. */
  datatype Padrao = Padrao(alternativas: seq<string>, normalizado: string)

  /** `LOTACAO_PATTERNS`, in order: the first pattern found in the text wins. */
  const Padroes: seq<Padrao> := [
    Padrao(["PORTUGAL RAMALHO", "PORTUGAL RA"], "PORTUGAL RAMALHO"),
    Padrao(["DR HELVIO", "HELVIO"], "HELVIO AUTO"),
    Padrao(["UNCISAL"], "UNCISAL ADMINISTRATIVO"),
    Padrao(["HOSPITAL ESCOLA", "HOSP ESC", "HOSPITALF"], "HOSPITAL ESCOLA"),
    Padrao(["MATERNIDADE"], "MATERNIDADE"),
    Padrao(["REITORIA"], "REITORIA"),
    Padrao(["CENTRO DE CIENCIAS INTEGRADORAS"], "CENTRO DE CIENCIAS INTEGRADORAS"),
    Padrao(["CENTRO DE CIENCIAS DA SAUDE"], "CENTRO DE CIENCIAS DA SAUDE"),
    Padrao(["CENTRO DE BIOLOGIA", "CENTRO DE TECNOLOGIA"], "CENTRO DE TECNOLOGIA"),
    Padrao(["PRO-REITORIA", "PRO REITORIA", "PROREITORIA"], "PRO-REITORIA")
  ]

  /** Position of the `REITORIA` pattern and of the `PRO-REITORIA` one. */
  const IndiceReitoria := 5
  const IndiceProReitoria := 9

  /** `pattern.search(text)`: one of the alternatives occurs in the text. */
  predicate Casa(text: string, p: Padrao) {
    exists j :: 0 <= j < |p.alternativas| && Texto.Contains(text, p.alternativas[j])
  }

  /** Index of the first pattern of `ps` from `i` on that occurs in the text. */
  function PrimeiroEm(text: string, ps: seq<Padrao>, i: nat): (r: Option<nat>)
    requires i <= |ps|
    ensures r.Some? ==> i <= r.value < |ps|
    decreases |ps| - i
  {
    if i == |ps| then None
    else if Casa(text, ps[i]) then Some(i)
    else PrimeiroEm(text, ps, i + 1)
  }

  /** The pattern found matches and none before it does; when none is
      found, no pattern from `i` on matches. */
  lemma {:induction false} PrimeiroEmCorreto(text: string, ps: seq<Padrao>, i: nat)
    requires i <= |ps|
    ensures var r := PrimeiroEm(text, ps, i);
            (r.Some? ==> Casa(text, ps[r.value]) && forall j :: i <= j < r.value ==> !Casa(text, ps[j]))
            && (r.None? ==> forall j :: i <= j < |ps| ==> !Casa(text, ps[j]))
    decreases |ps| - i
  {
    if i < |ps| && !Casa(text, ps[i]) {
      PrimeiroEmCorreto(text, ps, i + 1);
    }
  }

  /** Index of the first pattern of `LOTACAO_PATTERNS` from `i` on that
      occurs in the text. */
  function PrimeiroPadrao(text: string, i: nat): (r: Option<nat>)
    requires i <= |Padroes|
    ensures r.Some? ==> i <= r.value < |Padroes|
  {
    PrimeiroEm(text, Padroes, i)
  }

  /** The same for `LOTACAO_PATTERNS`. */
  lemma PrimeiroPadraoCorreto(text: string, i: nat)
    requires i <= |Padroes|
    ensures var r := PrimeiroPadrao(text, i);
            (r.Some? ==> Casa(text, Padroes[r.value]) && forall j :: i <= j < r.value ==> !Casa(text, Padroes[j]))
            && (r.None? ==> forall j :: i <= j < |Padroes| ==> !Casa(text, Padroes[j]))
  {
    PrimeiroEmCorreto(text, Padroes, i);
  }

  /** `STOPWORDS`. */
  const Stopwords: set<string> := {"DE", "DA", "DO", "DOS", "DAS", "E", "EM", "A", "O", "POR", "PARA", "COM", "NO", "NA"}

  /** The keywords that mark the token a label is built from. */
  const PalavrasChave: seq<string> := ["HOSP", "HOSPITAL", "DR", "UNIDADE", "DEPARTAMENTO", "CENTRO", "MATERN", "AMBULATORIO", "SERVICO"]

  /** A non-empty run of non-whitespace characters. */
  predicate Palavra(w: string) {
    |w| > 0 && forall k :: 0 <= k < |w| ==> !Texto.IsSpace(w[k])
  }

  /** Index of the first whitespace character, or `|s|`. */
  function PrimeiroEspaco(s: string): (i: nat)
    ensures i <= |s|
    ensures forall k :: 0 <= k < i ==> !Texto.IsSpace(s[k])
    ensures i < |s| ==> Texto.IsSpace(s[i])
    decreases |s|
  {
    if |s| == 0 then 0 else if Texto.IsSpace(s[0]) then 0 else 1 + PrimeiroEspaco(s[1..])
  }

  /** `text.split()`: the maximal runs of non-whitespace characters. */
  function Palavras(s: string): seq<string>
    decreases |s|
  {
    if |s| == 0 then []
    else
      var i := PrimeiroEspaco(s);
      if i == 0 then Palavras(s[1..])
      else if i == |s| then [s]
      else [s[..i]] + Palavras(s[i + 1..])
  }

  /** Every one of `ws` is a non-empty run without whitespace found in `s`. */
  predicate PalavrasDe(s: string, ws: seq<string>) {
    forall w :: w in ws ==> Palavra(w) && Texto.Contains(s, w)
  }

  /** Every word is a non-empty run without whitespace taken from the text. */
  lemma {:induction false} PalavrasForma(s: string)
    ensures PalavrasDe(s, Palavras(s))
    decreases |s|
  {
    if |s| > 0 {
      var i := PrimeiroEspaco(s);
      if i == 0 {
        PalavrasForma(s[1..]);
        PalavrasEspacoInicial(s);
      } else if i == |s| {
        PalavrasSemEspaco(s);
      } else {
        PalavrasForma(s[i + 1..]);
        PalavrasPrimeiroEspaco(s, i);
      }
    }
  }

  /** A leading space is skipped. */
  lemma PalavrasEspacoInicial(s: string)
    requires |s| > 0 && PrimeiroEspaco(s) == 0
    requires PalavrasDe(s[1..], Palavras(s[1..]))
    ensures PalavrasDe(s, Palavras(s))
  {
    assert Palavras(s) == Palavras(s[1..]);
    PalavrasDoSufixo(s, 1);
  }

  /** A text without whitespace is one word. */
  lemma PalavrasSemEspaco(s: string)
    requires |s| > 0 && PrimeiroEspaco(s) == |s|
    ensures PalavrasDe(s, Palavras(s))
  {
    assert Palavras(s) == [s];
    PalavraInicial(s, |s|);
    assert s[..|s|] == s;
  }

  /** The run before the first space is a word, and the rest is split in
      turn. */
  lemma PalavrasPrimeiroEspaco(s: string, i: nat)
    requires 0 < i < |s| && PrimeiroEspaco(s) == i
    requires PalavrasDe(s[i + 1..], Palavras(s[i + 1..]))
    ensures PalavrasDe(s, Palavras(s))
  {
    assert Palavras(s) == [s[..i]] + Palavras(s[i + 1..]);
    PalavrasDoSufixo(s, i + 1);
    PalavraInicial(s, i);
    PalavrasDeCons(s, s[..i], Palavras(s[i + 1..]));
  }

  lemma PalavrasDeCons(s: string, w: string, ws: seq<string>)
    requires Palavra(w) && Texto.Contains(s, w) && PalavrasDe(s, ws)
    ensures PalavrasDe(s, [w] + ws)
  {
  }

  /** A non-empty run without whitespace at the start of the text is a
      word found in it. */
  lemma PalavraInicial(s: string, i: nat)
    requires 0 < i <= |s|
    requires forall k :: 0 <= k < i ==> !Texto.IsSpace(s[k])
    ensures Palavra(s[..i]) && Texto.Contains(s, s[..i])
  {
    Texto.ContainsSlice(s, 0, i);
    assert s[0..i] == s[..i];
  }

  /** Words found in a suffix of the text are found in the text. */
  lemma PalavrasDoSufixo(s: string, k: nat)
    requires k <= |s|
    requires PalavrasDe(s[k..], Palavras(s[k..]))
    ensures PalavrasDe(s, Palavras(s[k..]))
  {
    Texto.ContainsSlice(s, k, |s|);
    assert s[k..|s|] == s[k..];
    forall w | w in Palavras(s[k..]) ensures Texto.Contains(s, w) {
      Texto.ContainsTrans(s, s[k..], w);
    }
  }

  /** A token survives unless it is a stopword or made of digits only
      (`re.fullmatch(r"[0-9]+", token)`). */
  predicate Mantido(token: string) {
    token !in Stopwords && !(|token| > 0 && Texto.AllDigits(token))
  }

  /** The words that are kept, in order. */
  function Mantidos(palavras: seq<string>): seq<string> {
    if |palavras| == 0 then []
    else
      var w := palavras[|palavras| - 1];
      Mantidos(palavras[..|palavras| - 1]) + (if Mantido(w) then [w] else [])
  }

  /** A kept word is one of the words, and is not dropped. */
  lemma {:induction false} MantidosMembro(palavras: seq<string>, w: string)
    requires w in Mantidos(palavras)
    ensures w in palavras && Mantido(w)
  {
    var n := |palavras|;
    if n > 0 {
      var ultima := palavras[n - 1];
      if w in Mantidos(palavras[..n - 1]) {
        MantidosMembro(palavras[..n - 1], w);
      } else {
        assert w == ultima;
      }
    }
  }

  /** The tokens kept from the text. */
  function Tokens(text: string): seq<string> {
    Mantidos(Palavras(text))
  }

  /** `any(keyword in token for keyword in keywords)`. */
  predicate TemPalavraChave(token: string) {
    exists k :: 0 <= k < |PalavrasChave| && Texto.Contains(token, PalavrasChave[k])
  }

  /** Index of the first token from `i` on that holds a keyword. */
  function PrimeiraChave(tokens: seq<string>, i: nat): (r: Option<nat>)
    requires i <= |tokens|
    ensures r.Some? ==> i <= r.value < |tokens|
    decreases |tokens| - i
  {
    if i == |tokens| then None
    else if TemPalavraChave(tokens[i]) then Some(i)
    else PrimeiraChave(tokens, i + 1)
  }

  /** The token found holds a keyword and none before it does; when none is
      found, no token from `i` on holds one. */
  lemma {:induction false} PrimeiraChaveCorreta(tokens: seq<string>, i: nat)
    requires i <= |tokens|
    ensures var r := PrimeiraChave(tokens, i);
            (r.Some? ==> TemPalavraChave(tokens[r.value]) && forall j :: i <= j < r.value ==> !TemPalavraChave(tokens[j]))
            && (r.None? ==> forall j :: i <= j < |tokens| ==> !TemPalavraChave(tokens[j]))
    decreases |tokens| - i
  {
    if i < |tokens| && !TemPalavraChave(tokens[i]) {
      PrimeiraChaveCorreta(tokens, i + 1);
    }
  }

  /** `" ".join(ts)`. */
  function Juntar(ts: seq<string>): string
    decreases |ts|
  {
    if |ts| == 0 then ""
    else if |ts| == 1 then ts[0]
    else Juntar(ts[..|ts| - 1]) + " " + ts[|ts| - 1]
  }

  /** Joining words gives a trimmed text; it is the word itself for one
      word and holds a space for two or more. */
  lemma {:induction false} JuntarForma(ts: seq<string>)
    requires forall j :: 0 <= j < |ts| ==> Palavra(ts[j])
    ensures Aparado(Juntar(ts))
    ensures |ts| > 0 ==> |Juntar(ts)| > 0
    ensures |ts| == 1 ==> Juntar(ts) == ts[0]
    ensures |ts| >= 2 ==> ' ' in Juntar(ts)
    decreases |ts|
  {
    if |ts| >= 2 {
      var a := Juntar(ts[..|ts| - 1]);
      JuntarForma(ts[..|ts| - 1]);
      var b := ts[|ts| - 1];
      assert Palavra(b);
      var r := a + " " + b;
      assert r[|a|] == ' ';
      assert r[0] == a[0];
      assert r[|r| - 1] == b[|b| - 1];
    }
  }

  /** The label built from the kept tokens when no pattern matched; the
      whole text when no token was kept. */
  function PorTokens(text: string): string {
    var tokens := Tokens(text);
    if |tokens| == 0 then text else Escolha(tokens)
  }

  /** The first keyword token and up to two after it; else the last two
      tokens; else the only one. */
  function Escolha(tokens: seq<string>): string
    requires |tokens| > 0
  {
    match PrimeiraChave(tokens, 0)
    case Some(idx) =>
      var fim := if idx + 3 < |tokens| then idx + 3 else |tokens|;
      Texto.Trim(Juntar(tokens[idx..fim]))
    case None =>
      if |tokens| >= 2 then Juntar(tokens[|tokens| - 2..]) else tokens[0]
  }

  /** `normalize_lotacao`: `""` for empty text; otherwise the label of the
      first pattern found in the upper-cased text, or else the label built
      from its tokens. */
  function LotacaoNormalizada(value: Option<string>): string {
    var text := Texto.Upper(NormalizarTexto(value));
    if text == "" then ""
    else
      LotacaoDesde(text, 0)
  }

  /** The pattern loop from pattern `i` on, falling through to the tokens. */
  function LotacaoDesde(text: string, i: nat): string
    requires i <= |Padroes|
    decreases |Padroes| - i
  {
    if i == |Padroes| then PorTokens(text)
    else if Casa(text, Padroes[i]) then Padroes[i].normalizado
    else LotacaoDesde(text, i + 1)
  }

  /** The loop returns the label of the first pattern found from `i` on,
      or the token-built label when there is none. */
  lemma {:induction false} LotacaoPeloPadrao(text: string, i: nat)
    requires i <= |Padroes|
    ensures var p := PrimeiroPadrao(text, i);
            LotacaoDesde(text, i) == if p.Some? then Padroes[p.value].normalizado else PorTokens(text)
    decreases |Padroes| - i
  {
    if i < |Padroes| && !Casa(text, Padroes[i]) {
      LotacaoPeloPadrao(text, i + 1);
    }
  }

  /** The kept tokens, one word at a time. */
  lemma TokensPasso(palavras: seq<string>, j: nat)
    requires j < |palavras|
    ensures Mantidos(palavras[..j + 1])
         == Mantidos(palavras[..j]) + (if Mantido(palavras[j]) then [palavras[j]] else [])
  {
    assert palavras[..j + 1][..j] == palavras[..j];
  }

  /** `normalize_lotacao`: the pattern loop with its early return, then the
      token selection. */
  method NormalizarLotacao(value: Option<string>) returns (r: string)
    ensures r == LotacaoNormalizada(value)
  {
    var text := Texto.Upper(NormalizarTexto(value));
    if text == "" {
      return "";
    }
    for i := 0 to |Padroes|
      invariant LotacaoDesde(text, 0) == LotacaoDesde(text, i)
    {
      if Casa(text, Padroes[i]) {
        return Padroes[i].normalizado;
      }
    }
    r := RotuloPorTokens(text);
  }

  /** The token loop of `normalize_lotacao`: stopwords and all-digit
      tokens are skipped, the others appended in order. */
  method ManterTokens(palavras: seq<string>) returns (tokens: seq<string>)
    ensures tokens == Mantidos(palavras)
  {
    tokens := [];
    for j := 0 to |palavras|
      invariant tokens == Mantidos(palavras[..j])
    {
      TokensPasso(palavras, j);
      var token := palavras[j];
      if token in Stopwords || (|token| > 0 && Texto.AllDigits(token)) {
        continue;
      }
      tokens := tokens + [token];
    }
    assert palavras[..|palavras|] == palavras;
  }

  /** The tail of `normalize_lotacao` once no pattern matched: the keyword
      loop with its early return, then the last two tokens or the only one. */
  method RotuloPorTokens(text: string) returns (r: string)
    ensures r == PorTokens(text)
  {
    var tokens := ManterTokens(Palavras(text));
    if |tokens| == 0 {
      return text;
    }
    for idx := 0 to |tokens|
      invariant PrimeiraChave(tokens, 0) == PrimeiraChave(tokens, idx)
    {
      if TemPalavraChave(tokens[idx]) {
        var fim := if idx + 3 < |tokens| then idx + 3 else |tokens|;
        return Texto.Trim(Juntar(tokens[idx..fim]));
      }
    }
    if |tokens| >= 2 {
      return Juntar(tokens[|tokens| - 2..]);
    }
    return tokens[0];
  }

  /** The kept tokens are words of the text. */
  lemma TokensForma(text: string)
    ensures forall w :: w in Tokens(text) ==> Palavra(w) && Texto.Contains(text, w)
  {
    PalavrasForma(text);
    forall w | w in Tokens(text) ensures Palavra(w) && Texto.Contains(text, w) {
      MantidosMembro(Palavras(text), w);
    }
  }

  /** The first pattern found decides the label, whatever comes after it. */
  lemma PrimeiroPadraoVence(value: Option<string>, i: nat)
    requires i < |Padroes|
    requires Texto.Upper(NormalizarTexto(value)) != ""
    requires Casa(Texto.Upper(NormalizarTexto(value)), Padroes[i])
    requires forall j :: 0 <= j < i ==> !Casa(Texto.Upper(NormalizarTexto(value)), Padroes[j])
    ensures LotacaoNormalizada(value) == Padroes[i].normalizado
  {
    var text := Texto.Upper(NormalizarTexto(value));
    PrimeiroPadraoCorreto(text, 0);
    LotacaoPeloPadrao(text, 0);
    match PrimeiroPadrao(text, 0)
    case None =>
      assert false;
    case Some(k) =>
      assert k == i;
  }

  /** A text holding `PRO-REITORIA` (or any spelling the last pattern
      accepts) already matches the `REITORIA` pattern. */
  lemma ProReitoriaContemReitoria(text: string)
    requires Casa(text, Padroes[IndiceProReitoria])
    ensures Casa(text, Padroes[IndiceReitoria])
  {
    var alts := Padroes[IndiceProReitoria].alternativas;
    var j :| 0 <= j < |alts| && Texto.Contains(text, alts[j]);
    AlternativaContemReitoria(j);
    Texto.ContainsTrans(text, alts[j], "REITORIA");
    assert Padroes[IndiceReitoria].alternativas[0] == "REITORIA";
  }

  /** Each spelling of `PRO-REITORIA` holds `REITORIA`. */
  lemma AlternativaContemReitoria(j: nat)
    requires j < |Padroes[IndiceProReitoria].alternativas|
    ensures Texto.Contains(Padroes[IndiceProReitoria].alternativas[j], "REITORIA")
  {
    var alt := Padroes[IndiceProReitoria].alternativas[j];
    if j == 2 {
      assert alt == "PROREITORIA";
      Texto.ContainsSlice(alt, 3, 11);
      assert alt[3..11] == "REITORIA";
    } else {
      assert alt == "PRO-REITORIA" || alt == "PRO REITORIA";
      Texto.ContainsSlice(alt, 4, 12);
      assert alt[4..12] == "REITORIA";
    }
  }

  /** The `PRO-REITORIA` pattern can never be the first one found: the
      `REITORIA` pattern before it matches every text it matches. */
  lemma ProReitoriaNuncaDispara(text: string)
    ensures PrimeiroPadrao(text, 0) != Some(IndiceProReitoria)
  {
    if PrimeiroPadrao(text, 0) == Some(IndiceProReitoria) {
      PrimeiroPadraoCorreto(text, 0);
      ProReitoriaContemReitoria(text);
      assert false;
    }
  }

  /** A label that reaches the `REITORIA` pattern, `PRO-REITORIA` ones
      included, becomes `'REITORIA'`. */
  lemma ReitoriaAbsorve(value: Option<string>)
    requires Texto.Contains(Texto.Upper(NormalizarTexto(value)), "REITORIA")
    requires forall j :: 0 <= j < IndiceReitoria ==> !Casa(Texto.Upper(NormalizarTexto(value)), Padroes[j])
    ensures LotacaoNormalizada(value) == "REITORIA"
  {
    var text := Texto.Upper(NormalizarTexto(value));
    assert Padroes[IndiceReitoria].alternativas[0] == "REITORIA";
    assert Casa(text, Padroes[IndiceReitoria]);
    PrimeiroPadraoVence(value, IndiceReitoria);
  }

  /** A label read whole from the text cannot be `PRO-REITORIA` once no
      pattern matched. */
  lemma NaoEhProReitoria(text: string, w: string)
    requires PrimeiroPadrao(text, 0).None?
    requires Texto.Contains(text, w)
    ensures w != "PRO-REITORIA"
  {
    if w == "PRO-REITORIA" {
      PrimeiroPadraoCorreto(text, 0);
      assert Padroes[IndiceProReitoria].alternativas[0] == w;
      assert Casa(text, Padroes[IndiceProReitoria]);
      ProReitoriaContemReitoria(text);
      assert false;
    }
  }

  /** `normalize_lotacao` never returns `'PRO-REITORIA'`: neither the
      pattern table nor the token selection can produce it. */
  lemma LotacaoNuncaProReitoria(value: Option<string>)
    ensures LotacaoNormalizada(value) != "PRO-REITORIA"
  {
    var text := Texto.Upper(NormalizarTexto(value));
    if text != "" {
      var p := PrimeiroPadrao(text, 0);
      LotacaoPeloPadrao(text, 0);
      if p.Some? {
        ProReitoriaNuncaDispara(text);
        NormalizadoAntesDaProReitoria(p.value);
      } else {
        PorTokensNuncaProReitoria(text);
      }
    }
  }

  /** Only the last pattern normalises to `'PRO-REITORIA'`. */
  lemma NormalizadoAntesDaProReitoria(i: nat)
    requires i < IndiceProReitoria
    ensures Padroes[i].normalizado != "PRO-REITORIA"
  {
    assert |Padroes[i].normalizado| != 12;
  }

  /** Joining a run of words. */
  lemma JuntarPalavras(ts: seq<string>)
    requires |ts| > 0 && forall j :: 0 <= j < |ts| ==> Palavra(ts[j])
    ensures var r := Juntar(ts);
            Texto.Trim(r) == r && |r| > 0 && (|ts| == 1 ==> r == ts[0]) && (|ts| >= 2 ==> ' ' in r)
  {
    JuntarForma(ts);
    Texto.TrimOfTrimmed(Juntar(ts));
  }

  /** The chosen label is one of the tokens or a join of several (which
      holds a space), and never empty. */
  lemma EscolhaOrigem(tokens: seq<string>)
    requires |tokens| > 0 && forall j :: 0 <= j < |tokens| ==> Palavra(tokens[j])
    ensures var r := Escolha(tokens);
            |r| > 0 && (r in tokens || ' ' in r)
  {
    match PrimeiraChave(tokens, 0)
    case Some(idx) =>
      var fim := if idx + 3 < |tokens| then idx + 3 else |tokens|;
      var ts := tokens[idx..fim];
      JuntarPalavras(ts);
      assert |ts| == 1 ==> ts[0] == tokens[idx];
    case None =>
      if |tokens| >= 2 {
        JuntarPalavras(tokens[|tokens| - 2..]);
      }
  }

  /** Where the token-built label comes from: the whole text, a word of the
      text, or a join of several words (which holds a space). */
  lemma PorTokensOrigem(text: string)
    requires text != ""
    ensures var r := PorTokens(text);
            |r| > 0 && (r == text || Texto.Contains(text, r) || ' ' in r)
  {
    var tokens := Tokens(text);
    if |tokens| > 0 {
      TokensForma(text);
      assert forall j :: 0 <= j < |tokens| ==> Palavra(tokens[j]) by {
        forall j | 0 <= j < |tokens| ensures Palavra(tokens[j]) {
          assert tokens[j] in tokens;
        }
      }
      EscolhaOrigem(tokens);
    }
  }

  lemma PorTokensNuncaProReitoria(text: string)
    requires text != ""
    requires PrimeiroPadrao(text, 0).None?
    ensures PorTokens(text) != "PRO-REITORIA"
  {
    var r := PorTokens(text);
    PorTokensOrigem(text);
    assert ' ' !in "PRO-REITORIA";
    if r == text {
      Texto.ContainsSlice(text, 0, |text|);
      assert text[0..|text|] == text;
    }
    if Texto.Contains(text, r) {
      NaoEhProReitoria(text, r);
    }
  }

  /** The label is empty exactly when the normalised text is. */
  lemma LotacaoVazia(value: Option<string>)
    ensures LotacaoNormalizada(value) == "" <==> Texto.Upper(NormalizarTexto(value)) == ""
  {
    var text := Texto.Upper(NormalizarTexto(value));
    if text != "" {
      LotacaoPeloPadrao(text, 0);
      match PrimeiroPadrao(text, 0)
      case Some(i) =>
        assert Padroes[i].normalizado != "";
      case None =>
        PorTokensOrigem(text);
    }
  }

  // ---------------------------------------------------------------------
  // detect_competencia

  /** `(\d{2})/(\d{4})` matches at position `i` of the line. */
  predicate DataEm(line: string, i: nat) {
    i + 7 <= |line| && Texto.AllDigits(line[i..i + 2]) && line[i + 2] == '/' && Texto.AllDigits(line[i + 3..i + 7])
  }

  /** `re.search`: the leftmost match from position `i` on. */
  function PrimeiraData(line: string, i: nat): (r: Option<nat>)
    ensures r.Some? ==> i <= r.value && DataEm(line, r.value)
                        && forall k :: i <= k < r.value ==> !DataEm(line, k)
    ensures r.None? ==> forall k: nat :: i <= k ==> !DataEm(line, k)
    decreases |line| - i
  {
    if i + 7 > |line| then None
    else if DataEm(line, i) then Some(i)
    else PrimeiraData(line, i + 1)
  }

  /** `f"{ano}-{mes}"` from the match at `i`. */
  function CompetenciaEm(line: string, i: nat): (c: string)
    requires DataEm(line, i)
    ensures |c| == 7 && Texto.AllDigits(c[..4]) && c[4] == '-' && Texto.AllDigits(c[5..])
  {
    var c := line[i + 3..i + 7] + "-" + line[i..i + 2];
    assert c[..4] == line[i + 3..i + 7] && c[5..] == line[i..i + 2];
    c
  }

  /** The competência of the first line holding a date, `'0000-00'` if none does. */
  function Procurar(lines: seq<string>): (c: string)
    ensures c == "0000-00" || (|c| == 7 && Texto.AllDigits(c[..4]) && c[4] == '-' && Texto.AllDigits(c[5..]))
    decreases |lines|
  {
    if |lines| == 0 then "0000-00"
    else
      match PrimeiraData(lines[0], 0)
      case Some(i) => CompetenciaEm(lines[0], i)
      case None => Procurar(lines[1..])
  }

  /** `detect_competencia`: only the first ten lines are searched. */
  function DetectarCompetencia(lines: seq<string>): (c: string)
    ensures c == "0000-00" || (|c| == 7 && Texto.AllDigits(c[..4]) && c[4] == '-' && Texto.AllDigits(c[5..]))
  {
    Procurar(Seqs.Take(lines, 10))
  }

  lemma {:induction false} ProcurarSemData(lines: seq<string>)
    requires forall k, i: nat :: 0 <= k < |lines| ==> !DataEm(lines[k], i)
    ensures Procurar(lines) == "0000-00"
    decreases |lines|
  {
    if |lines| > 0 {
      assert forall i: nat :: !DataEm(lines[0], i);
      ProcurarSemData(lines[1..]);
    }
  }

  /** With no `MM/YYYY` in the first ten lines the result is `'0000-00'`. */
  lemma SemDataPadrao(lines: seq<string>)
    requires forall k, i: nat :: 0 <= k < |lines| && k < 10 ==> !DataEm(lines[k], i)
    ensures DetectarCompetencia(lines) == "0000-00"
  {
    ProcurarSemData(Seqs.Take(lines, 10));
  }

  lemma {:induction false} ProcurarAcha(lines: seq<string>, k: nat, i: nat)
    requires k < |lines| && DataEm(lines[k], i)
    requires forall k': nat, i': nat :: k' < k ==> !DataEm(lines[k'], i')
    requires forall i': nat :: i' < i ==> !DataEm(lines[k], i')
    ensures Procurar(lines) == lines[k][i + 3..i + 7] + "-" + lines[k][i..i + 2]
    decreases k
  {
    if k == 0 {
      match PrimeiraData(lines[0], 0)
      case None =>
        assert false;
      case Some(j) =>
        assert !(j < i) && !(i < j);
    } else {
      assert forall i: nat :: !DataEm(lines[0], i);
      var resto := lines[1..];
      assert resto[k - 1] == lines[k];
      assert forall k': nat, i': nat :: k' < k - 1 ==> !DataEm(resto[k'], i') by {
        forall k': nat, i': nat | k' < k - 1 ensures !DataEm(resto[k'], i') {
          assert resto[k'] == lines[k' + 1];
        }
      }
      ProcurarAcha(resto, k - 1, i);
    }
  }

  /** The first `MM/YYYY` of the first line among the first ten that holds
      one gives `'YYYY-MM'`. */
  lemma PrimeiraDataVence(lines: seq<string>, k: nat, i: nat)
    requires k < |lines| && k < 10 && DataEm(lines[k], i)
    requires forall k': nat, i': nat :: k' < k ==> !DataEm(lines[k'], i')
    requires forall i': nat :: i' < i ==> !DataEm(lines[k], i')
    ensures DetectarCompetencia(lines) == lines[k][i + 3..i + 7] + "-" + lines[k][i..i + 2]
  {
    var primeiras := Seqs.Take(lines, 10);
    assert primeiras[k] == lines[k];
    assert forall k': nat, i': nat :: k' < k ==> !DataEm(primeiras[k'], i') by {
      forall k': nat, i': nat | k' < k ensures !DataEm(primeiras[k'], i') {
        assert primeiras[k'] == lines[k'];
      }
    }
    ProcurarAcha(primeiras, k, i);
  }

  // ---------------------------------------------------------------------
  // parse_csv, from the rows the CSV reader produced

  /** The dictionary `parse_csv` builds for a data row (amounts before `round`). */
  datatype RegistroCsv = RegistroCsv(
    nome: string,
    cpf: string,
    situacao: string,
    motivoAfastamento: string,
    vinculo: string,
    matricula: string,
    nivel: string,
    lotacaoOriginal: string,
    lotacaoNormalizada: string,
    funcao: string,
    vantagem: real,
    desconto: real,
    liquido: real)

  /** The `ValueError` raised when no header row exists (the file path it
      names is not modelled). */
  const CabecalhoAusente := "Cabeçalho não encontrado"

  /** `row and row[0].strip().upper() == "NOME"`. */
  predicate EhCabecalho(row: seq<string>) {
    |row| > 0 && Texto.Upper(Texto.Trim(row[0])) == "NOME"
  }

  /** `next(idx for idx, row in enumerate(rows) if ...)`, searching from `i`. */
  function IndiceCabecalho(rows: seq<seq<string>>, i: nat): (r: Option<nat>)
    requires i <= |rows|
    ensures r.Some? ==> i <= r.value < |rows|
    decreases |rows| - i
  {
    if i == |rows| then None
    else if EhCabecalho(rows[i]) then Some(i)
    else IndiceCabecalho(rows, i + 1)
  }

  /** The row found is a header row and none before it is; when none is
      found, no row from `i` on is one. */
  lemma {:induction false} IndiceCabecalhoCorreto(rows: seq<seq<string>>, i: nat)
    requires i <= |rows|
    ensures var r := IndiceCabecalho(rows, i);
            (r.Some? ==> EhCabecalho(rows[r.value]) && forall j :: i <= j < r.value ==> !EhCabecalho(rows[j]))
            && (r.None? ==> forall j :: i <= j < |rows| ==> !EhCabecalho(rows[j]))
    decreases |rows| - i
  {
    if i < |rows| && !EhCabecalho(rows[i]) {
      IndiceCabecalhoCorreto(rows, i + 1);
    }
  }

  /** One column name: normalised, accents removed, stripped. */
  function NomeDaColuna(cell: string, removerAcentos: string -> string): string {
    Texto.Trim(removerAcentos(NormalizarTexto(Some(cell))))
  }

  /** The column names of the header row, cell by cell. */
  function Cabecalho(row: seq<string>, removerAcentos: string -> string): (h: seq<string>)
    ensures |h| == |row|
    decreases |row|
  {
    if |row| == 0 then []
    else Cabecalho(row[..|row| - 1], removerAcentos) + [NomeDaColuna(row[|row| - 1], removerAcentos)]
  }

  /** Column `j` is the name of header cell `j`. */
  lemma {:induction false} CabecalhoCelula(row: seq<string>, removerAcentos: string -> string, j: nat)
    requires j < |row|
    ensures Cabecalho(row, removerAcentos)[j] == NomeDaColuna(row[j], removerAcentos)
    decreases |row|
  {
    if j < |row| - 1 {
      var antes := row[..|row| - 1];
      CabecalhoCelula(antes, removerAcentos, j);
      assert antes[j] == row[j];
    }
  }

  /** `not any(cell.strip() for cell in row)`. */
  predicate EmBranco(row: seq<string>) {
    forall j :: 0 <= j < |row| ==> Texto.Trim(row[j]) == ""
  }

  predicate NaoEmBranco(row: seq<string>) {
    !EmBranco(row)
  }

  /** `row + [""] * (n - len(row))`: a short row is padded with empty cells. */
  function Preenchida(row: seq<string>, n: nat): (p: seq<string>)
    ensures |p| == if |row| < n then n else |row|
    decreases n - |row|
  {
    if |row| < n then Preenchida(row + [""], n) else row
  }

  /** The padded row is at least `n` long, starts with the row and is empty
      past it. */
  lemma {:induction false} PreenchidaForma(row: seq<string>, n: nat)
    ensures var p := Preenchida(row, n);
            |p| == (if |row| < n then n else |row|) && p[..|row|] == row
            && forall j :: |row| <= j < |p| ==> p[j] == ""
    decreases n - |row|
  {
    if |row| < n {
      var mais := row + [""];
      PreenchidaForma(mais, n);
      assert mais[..|row|] == row;
    }
  }

  /** `dict(zip(header, valores)).get(nome, padrao)`. */
  function Coluna(header: seq<string>, valores: seq<string>, nome: string, padrao: string): string
    requires |valores| >= |header|
    decreases |header|
  {
    if |header| == 0 then padrao
    else if header[|header| - 1] == nome then valores[|header| - 1]
    else Coluna(header[..|header| - 1], valores, nome, padrao)
  }

  /** The lookup yields the value under the last column called `nome`, or
      the default when there is none: later duplicates of a column name
      overwrite earlier ones in the dictionary. */
  lemma {:induction false} ColunaUltima(header: seq<string>, valores: seq<string>, nome: string, padrao: string)
    requires |valores| >= |header|
    ensures nome !in header ==> Coluna(header, valores, nome, padrao) == padrao
    ensures nome in header ==> exists j :: 0 <= j < |header| && header[j] == nome
                                           && Coluna(header, valores, nome, padrao) == valores[j]
                                           && forall k :: j < k < |header| ==> header[k] != nome
    decreases |header|
  {
    if |header| > 0 && header[|header| - 1] != nome {
      var antes := header[..|header| - 1];
      ColunaUltima(antes, valores, nome, padrao);
      if nome in header {
        var j :| 0 <= j < |header| && header[j] == nome;
        assert antes[j] == nome;
        var i :| 0 <= i < |antes| && antes[i] == nome && Coluna(antes, valores, nome, padrao) == valores[i]
                 && forall k :: i < k < |antes| ==> antes[k] != nome;
        assert header[i] == nome;
      } else {
        assert nome !in antes;
      }
    }
  }

  /** A column the row is too short to reach reads as `''`. */
  lemma ColunaAlemDaLinha(header: seq<string>, row: seq<string>, nome: string, padrao: string, j: nat)
    requires j < |header| && header[j] == nome && j >= |row|
    requires forall k :: j < k < |header| ==> header[k] != nome
    ensures Coluna(header, Preenchida(row, |header|), nome, padrao) == ""
  {
    var valores := Preenchida(row, |header|);
    PreenchidaForma(row, |header|);
    assert nome in header;
    ColunaUltima(header, valores, nome, padrao);
    var i :| 0 <= i < |header| && header[i] == nome && Coluna(header, valores, nome, padrao) == valores[i]
             && forall k :: i < k < |header| ==> header[k] != nome;
    assert i == j;
  }

  /** The record `parse_csv` builds from a data row. */
  function ConverterLinha(header: seq<string>, row: seq<string>, removerAcentos: string -> string,
                          paraFloat: string -> Option<real>): RegistroCsv
  {
    var v := Preenchida(row, |header|);
    var lotacaoOriginal := NormalizarTexto(Some(Coluna(header, v, "Lotacao", "")));
    RegistroCsv(
      NormalizarTexto(Some(Coluna(header, v, "Nome", ""))),
      NormalizarCpf(Some(Coluna(header, v, "CPF", ""))),
      NormalizarTexto(Some(Coluna(header, v, "Situacao", ""))),
      NormalizarTexto(Some(Coluna(header, v, "Motivo Afastamento", ""))),
      NormalizarVinculo(Some(Coluna(header, v, "Vinculo", "")), removerAcentos),
      NormalizarTexto(Some(Coluna(header, v, "Matricula", ""))),
      NormalizarTexto(Some(Coluna(header, v, "Nivel", ""))),
      lotacaoOriginal,
      LotacaoNormalizada(Some(lotacaoOriginal)),
      NormalizarTexto(Some(Coluna(header, v, "Funcao", ""))),
      ValorMonetario(Coluna(header, v, "Vantagem", "0"), paraFloat).GetOr(0.0),
      ValorMonetario(Coluna(header, v, "Desconto", "0"), paraFloat).GetOr(0.0),
      ValorMonetario(Coluna(header, v, "Liquido", "0"), paraFloat).GetOr(0.0))
  }

  /** The messages a data row adds, amount by amount. */
  function ErrosDaLinha(header: seq<string>, row: seq<string>, linha: nat, paraFloat: string -> Option<real>): seq<Erro>
  {
    var v := Preenchida(row, |header|);
    ErrosDosValores(Coluna(header, v, "Vantagem", "0"), Coluna(header, v, "Desconto", "0"),
                    Coluna(header, v, "Liquido", "0"), linha, paraFloat)
  }

  /** The errors of the three amount cells, in the order they are parsed. */
  function ErrosDosValores(vantagem: string, desconto: string, liquido: string, linha: nat,
                           paraFloat: string -> Option<real>): seq<Erro>
  {
    ErroMonetario(vantagem, linha, "Vantagem", paraFloat)
    + ErroMonetario(desconto, linha, "Desconto", paraFloat)
    + ErroMonetario(liquido, linha, "Liquido", paraFloat)
  }

  /** The records of the data rows: one per row that is not blank, in order. */
  function Convertidos(header: seq<string>, rows: seq<seq<string>>, removerAcentos: string -> string,
                       paraFloat: string -> Option<real>): seq<RegistroCsv>
    decreases |rows|
  {
    if |rows| == 0 then []
    else
      var ultima := rows[|rows| - 1];
      Convertidos(header, rows[..|rows| - 1], removerAcentos, paraFloat)
      + (if EmBranco(ultima) then [] else [ConverterLinha(header, ultima, removerAcentos, paraFloat)])
  }

  /** One more row: a blank one adds no record, any other one adds its own. */
  lemma ConvertidosSnoc(header: seq<string>, rows: seq<seq<string>>, row: seq<string>,
                        removerAcentos: string -> string, paraFloat: string -> Option<real>)
    ensures Convertidos(header, rows + [row], removerAcentos, paraFloat)
         == Convertidos(header, rows, removerAcentos, paraFloat)
            + (if EmBranco(row) then [] else [ConverterLinha(header, row, removerAcentos, paraFloat)])
  {
    assert (rows + [row])[..|rows|] == rows;
  }

  /** The errors of each row that is not blank, one list per row, the
      first row being file line `primeira`. */
  function ErrosPorLinha(header: seq<string>, rows: seq<seq<string>>, primeira: nat,
                         paraFloat: string -> Option<real>): seq<seq<Erro>>
    decreases |rows|
  {
    if |rows| == 0 then []
    else
      var ultima := rows[|rows| - 1];
      ErrosPorLinha(header, rows[..|rows| - 1], primeira, paraFloat)
      + (if EmBranco(ultima) then [] else [ErrosDaLinha(header, ultima, primeira + |rows| - 1, paraFloat)])
  }

  /** The errors of the rows that are not blank, in order. */
  function ErrosConvertidos(header: seq<string>, rows: seq<seq<string>>, primeira: nat,
                            paraFloat: string -> Option<real>): seq<Erro>
  {
    Seqs.Flatten(ErrosPorLinha(header, rows, primeira, paraFloat))
  }

  /** One more row: a blank one adds no error list, any other one adds its
      own, numbered after the rows before it. */
  lemma ErrosPorLinhaSnoc(header: seq<string>, rows: seq<seq<string>>, row: seq<string>, primeira: nat,
                          paraFloat: string -> Option<real>)
    ensures ErrosPorLinha(header, rows + [row], primeira, paraFloat)
         == ErrosPorLinha(header, rows, primeira, paraFloat)
            + (if EmBranco(row) then [] else [ErrosDaLinha(header, row, primeira + |rows|, paraFloat)])
  {
    var s := rows + [row];
    assert s[..|s| - 1] == rows && s[|s| - 1] == row;
    var antes := ErrosPorLinha(header, rows, primeira, paraFloat);
    if EmBranco(row) {
      assert ErrosPorLinha(header, s, primeira, paraFloat) == antes + [];
    } else {
      assert ErrosPorLinha(header, s, primeira, paraFloat)
          == antes + [ErrosDaLinha(header, row, primeira + |rows|, paraFloat)];
    }
  }

  /** A blank row adds no error. */
  lemma ErrosConvertidosEmBranco(header: seq<string>, rows: seq<seq<string>>, row: seq<string>, primeira: nat,
                                 paraFloat: string -> Option<real>)
    requires EmBranco(row)
    ensures ErrosConvertidos(header, rows + [row], primeira, paraFloat) == ErrosConvertidos(header, rows, primeira, paraFloat)
  {
    ErrosPorLinhaSnoc(header, rows, row, primeira, paraFloat);
    assert ErrosPorLinha(header, rows, primeira, paraFloat) + [] == ErrosPorLinha(header, rows, primeira, paraFloat);
  }

  /** Any other row appends its own errors, numbered `linha`, to the error
      list built so far. */
  lemma ErrosConvertidosPasso(header: seq<string>, rows: seq<seq<string>>, row: seq<string>, primeira: nat, linha: nat,
                              paraFloat: string -> Option<real>, erros: seq<Erro>, antes: seq<Erro>, depois: seq<Erro>)
    requires linha == primeira + |rows| && !EmBranco(row)
    requires antes == erros + ErrosConvertidos(header, rows, primeira, paraFloat)
    requires depois == antes + ErrosDaLinha(header, row, linha, paraFloat)
    ensures depois == erros + ErrosConvertidos(header, rows + [row], primeira, paraFloat)
  {
    var porLinha := ErrosPorLinha(header, rows, primeira, paraFloat);
    var e := ErrosDaLinha(header, row, linha, paraFloat);
    assert ErrosPorLinha(header, rows + [row], primeira, paraFloat) == porLinha + [e] by {
      ErrosPorLinhaSnoc(header, rows, row, primeira, paraFloat);
    }
    assert ErrosConvertidos(header, rows + [row], primeira, paraFloat) == Seqs.Flatten(porLinha) + e by {
      Seqs.FlattenSnoc(porLinha, e);
    }
    Seqs.AppendAssoc(erros, Seqs.Flatten(porLinha), e);
  }

  /** The rows split at the header: its column names, the data rows after
      it and the 1-based file line of the first of them. */
  datatype Divisao = Divisao(header: seq<string>, dados: seq<seq<string>>, primeira: nat)

  /** The split at the first header row, or none without one. */
  function Dividir(rows: seq<seq<string>>, removerAcentos: string -> string): (d: Option<Divisao>)
    ensures d.None? <==> IndiceCabecalho(rows, 0).None?
  {
    match IndiceCabecalho(rows, 0)
    case None => None
    case Some(h) => Some(Divisao(Cabecalho(rows[h], removerAcentos), rows[h + 1..], h + 2))
  }

  /** What `parse_csv` returns: the `ValueError` without a header row, else
      the records of the rows after it. */
  function Csv(rows: seq<seq<string>>, removerAcentos: string -> string,
               paraFloat: string -> Option<real>): Result<seq<RegistroCsv>, string>
  {
    match Dividir(rows, removerAcentos)
    case None => Failure(CabecalhoAusente)
    case Some(d) => Success(Convertidos(d.header, d.dados, removerAcentos, paraFloat))
  }

  /** What `parse_csv` appends to `erros`; data rows are numbered from the
      header's 1-based line plus one. */
  function ErrosCsv(rows: seq<seq<string>>, removerAcentos: string -> string,
                    paraFloat: string -> Option<real>): seq<Erro>
  {
    match Dividir(rows, removerAcentos)
    case None => []
    case Some(d) => ErrosConvertidos(d.header, d.dados, d.primeira, paraFloat)
  }

  /** The split happens at the first header row. */
  lemma DividirNoPrimeiroCabecalho(rows: seq<seq<string>>, removerAcentos: string -> string, h: nat)
    requires h < |rows| && EhCabecalho(rows[h])
    requires forall j :: 0 <= j < h ==> !EhCabecalho(rows[j])
    ensures Dividir(rows, removerAcentos) == Some(Divisao(Cabecalho(rows[h], removerAcentos), rows[h + 1..], h + 2))
  {
    IndiceCabecalhoCorreto(rows, 0);
    var r := IndiceCabecalho(rows, 0);
    assert r.Some?;
    assert r.value == h;
  }

  /** `parse_csv` raises its `ValueError` exactly when no row is a header
      row, and then appends no error. */
  lemma CsvFalhaSemCabecalho(rows: seq<seq<string>>, removerAcentos: string -> string,
                             paraFloat: string -> Option<real>)
    ensures Csv(rows, removerAcentos, paraFloat).Failure?
        <==> forall j :: 0 <= j < |rows| ==> !EhCabecalho(rows[j])
    ensures Csv(rows, removerAcentos, paraFloat).Failure? ==> ErrosCsv(rows, removerAcentos, paraFloat) == []
  {
    IndiceCabecalhoCorreto(rows, 0);
  }

  /** Every row that is not blank gives one record and every blank row
      none, so there are at most as many records as data rows. */
  lemma {:induction false} ConvertidosPorLinha(header: seq<string>, rows: seq<seq<string>>,
                                               removerAcentos: string -> string, paraFloat: string -> Option<real>)
    ensures |Convertidos(header, rows, removerAcentos, paraFloat)| == |Seqs.Filter(rows, NaoEmBranco)|
    ensures |Convertidos(header, rows, removerAcentos, paraFloat)| <= |rows|
    decreases |rows|
  {
    if |rows| > 0 {
      var antes := rows[..|rows| - 1];
      var row := rows[|rows| - 1];
      assert rows == antes + [row];
      ConvertidosPorLinha(header, antes, removerAcentos, paraFloat);
      ConvertidosSnoc(header, antes, row, removerAcentos, paraFloat);
    }
  }

  /** A data row adds at most three errors, one per amount. */
  lemma ErrosDaLinhaNoMaximoTres(header: seq<string>, row: seq<string>, linha: nat,
                                 paraFloat: string -> Option<real>)
    ensures |ErrosDaLinha(header, row, linha, paraFloat)| <= 3
  {
    var v := Preenchida(row, |header|);
    ErroMonetarioUnico(Coluna(header, v, "Vantagem", "0"), linha, "Vantagem", paraFloat);
    ErroMonetarioUnico(Coluna(header, v, "Desconto", "0"), linha, "Desconto", paraFloat);
    ErroMonetarioUnico(Coluna(header, v, "Liquido", "0"), linha, "Liquido", paraFloat);
  }

  /** One error list per row that is not blank, each of at most three
      errors. */
  lemma {:induction false} ErrosPorLinhaForma(header: seq<string>, rows: seq<seq<string>>, primeira: nat,
                                              paraFloat: string -> Option<real>)
    ensures var porLinha := ErrosPorLinha(header, rows, primeira, paraFloat);
            |porLinha| == |Seqs.Filter(rows, NaoEmBranco)|
            && forall i :: 0 <= i < |porLinha| ==> |porLinha[i]| <= 3
    decreases |rows|
  {
    if |rows| > 0 {
      var antes := rows[..|rows| - 1];
      var row := rows[|rows| - 1];
      assert rows == antes + [row];
      ErrosPorLinhaForma(header, antes, primeira, paraFloat);
      ErrosPorLinhaSnoc(header, antes, row, primeira, paraFloat);
      ErrosDaLinhaNoMaximoTres(header, row, primeira + |antes|, paraFloat);
    }
  }

  /** The rows add at most three errors per row that is not blank. */
  lemma ErrosNoMaximoTres(header: seq<string>, rows: seq<seq<string>>, primeira: nat,
                          paraFloat: string -> Option<real>)
    ensures |ErrosConvertidos(header, rows, primeira, paraFloat)| <= 3 * |Seqs.Filter(rows, NaoEmBranco)|
  {
    ErrosPorLinhaForma(header, rows, primeira, paraFloat);
    Seqs.FlattenLimite(ErrosPorLinha(header, rows, primeira, paraFloat), 3);
  }

  /** `parse_csv` as a whole: the records are at most the data rows after
      the header, and the errors at most three per record. */
  lemma CsvLimites(rows: seq<seq<string>>, removerAcentos: string -> string, paraFloat: string -> Option<real>)
    ensures Csv(rows, removerAcentos, paraFloat).Success? ==>
      var d := Dividir(rows, removerAcentos).value;
      var registros := Csv(rows, removerAcentos, paraFloat).value;
      |registros| <= |d.dados| < |rows|
      && |ErrosCsv(rows, removerAcentos, paraFloat)| <= 3 * |registros|
  {
    match Dividir(rows, removerAcentos)
    case None =>
    case Some(d) =>
      ConvertidosPorLinha(d.header, d.dados, removerAcentos, paraFloat);
      ErrosNoMaximoTres(d.header, d.dados, d.primeira, paraFloat);
  }

  /** One data row of `parse_csv`: the fields in the source's order, the
      three amounts appending their messages as they are read. */
  method ConverterRegistro(header: seq<string>, row: seq<string>, linha: nat, erros: seq<Erro>,
                           removerAcentos: string -> string, paraFloat: string -> Option<real>)
    returns (reg: RegistroCsv, depois: seq<Erro>)
    ensures reg == ConverterLinha(header, row, removerAcentos, paraFloat)
    ensures depois == erros + ErrosDaLinha(header, row, linha, paraFloat)
  {
    var colunas := Preenchida(row, |header|);
    var lotacaoOriginal := NormalizarTexto(Some(Coluna(header, colunas, "Lotacao", "")));
    var lotacaoNormalizada := NormalizarLotacao(Some(lotacaoOriginal));
    var vantagem, desconto, liquido;
    vantagem, desconto, liquido, depois := LerValores(Coluna(header, colunas, "Vantagem", "0"),
      Coluna(header, colunas, "Desconto", "0"), Coluna(header, colunas, "Liquido", "0"), linha, erros, paraFloat);
    reg := RegistroCsv(
      NormalizarTexto(Some(Coluna(header, colunas, "Nome", ""))),
      NormalizarCpf(Some(Coluna(header, colunas, "CPF", ""))),
      NormalizarTexto(Some(Coluna(header, colunas, "Situacao", ""))),
      NormalizarTexto(Some(Coluna(header, colunas, "Motivo Afastamento", ""))),
      NormalizarVinculo(Some(Coluna(header, colunas, "Vinculo", "")), removerAcentos),
      NormalizarTexto(Some(Coluna(header, colunas, "Matricula", ""))),
      NormalizarTexto(Some(Coluna(header, colunas, "Nivel", ""))),
      lotacaoOriginal, lotacaoNormalizada,
      NormalizarTexto(Some(Coluna(header, colunas, "Funcao", ""))),
      vantagem, desconto, liquido);
  }

  /** The three amounts of a row, parsed in the source's order, each
      appending its error when it cannot be parsed. */
  method LerValores(cV: string, cD: string, cL: string, linha: nat, erros: seq<Erro>,
                    paraFloat: string -> Option<real>)
    returns (vantagem: real, desconto: real, liquido: real, depois: seq<Erro>)
    ensures vantagem == ValorMonetario(cV, paraFloat).GetOr(0.0)
    ensures desconto == ValorMonetario(cD, paraFloat).GetOr(0.0)
    ensures liquido == ValorMonetario(cL, paraFloat).GetOr(0.0)
    ensures depois == erros + ErrosDosValores(cV, cD, cL, linha, paraFloat)
  {
    var m1, m2;
    vantagem, m1 := ParseMonetary(cV, linha, "Vantagem", erros, paraFloat);
    desconto, m2 := ParseMonetary(cD, linha, "Desconto", m1, paraFloat);
    liquido, depois := ParseMonetary(cL, linha, "Liquido", m2, paraFloat);
    Seqs.AppendRuns(erros, ErroMonetario(cV, linha, "Vantagem", paraFloat),
                    ErroMonetario(cD, linha, "Desconto", paraFloat), ErroMonetario(cL, linha, "Liquido", paraFloat));
  }

  /** `parse_csv` over the rows the CSV reader produced, `erros` being the
      list it appends to. */
  method ParseCsv(rows: seq<seq<string>>, erros: seq<Erro>, removerAcentos: string -> string,
                  paraFloat: string -> Option<real>)
    returns (r: Result<seq<RegistroCsv>, string>, depois: seq<Erro>)
    ensures r == Csv(rows, removerAcentos, paraFloat)
    ensures depois == erros + ErrosCsv(rows, removerAcentos, paraFloat)
  {
    var indice := IndiceCabecalho(rows, 0);
    if indice.None? {
      assert erros + [] == erros;
      return Failure(CabecalhoAusente), erros;
    }
    var h := indice.value;
    var header := Cabecalho(rows[h], removerAcentos);
    ghost var d := Divisao(header, rows[h + 1..], h + 2);
    assert Dividir(rows, removerAcentos) == Some(d);
    var registros;
    registros, depois := ConverterDados(header, rows[h + 1..], h + 2, erros, removerAcentos, paraFloat);
    r := Success(registros);
  }

  /** One pass of that loop: a blank row is skipped, any other row is
      converted, its record appended and its errors, numbered `linha`,
      appended to the error list. */
  method ConverterPasso(header: seq<string>, ghost anteriores: seq<seq<string>>, row: seq<string>, ghost primeira: nat,
                        linha: nat, ghost erros: seq<Erro>, feitos: seq<RegistroCsv>, antes: seq<Erro>,
                        removerAcentos: string -> string, paraFloat: string -> Option<real>)
    returns (registros: seq<RegistroCsv>, depois: seq<Erro>)
    requires linha == primeira + |anteriores|
    requires feitos == Convertidos(header, anteriores, removerAcentos, paraFloat)
    requires antes == erros + ErrosConvertidos(header, anteriores, primeira, paraFloat)
    ensures registros == Convertidos(header, anteriores + [row], removerAcentos, paraFloat)
    ensures depois == erros + ErrosConvertidos(header, anteriores + [row], primeira, paraFloat)
  {
    ConvertidosSnoc(header, anteriores, row, removerAcentos, paraFloat);
    if EmBranco(row) {
      ErrosConvertidosEmBranco(header, anteriores, row, primeira, paraFloat);
      registros, depois := feitos, antes;
    } else {
      var reg;
      reg, depois := ConverterRegistro(header, row, linha, antes, removerAcentos, paraFloat);
      registros := feitos + [reg];
      ErrosConvertidosPasso(header, anteriores, row, primeira, linha, paraFloat, erros, antes, depois);
    }
  }

  /** The loop of `parse_csv` over the data rows, the first of them being
      file line `primeira`: blank rows are skipped, every other row gives
      one record and its amount errors. */
  method ConverterDados(header: seq<string>, dados: seq<seq<string>>, primeira: nat, erros: seq<Erro>,
                        removerAcentos: string -> string, paraFloat: string -> Option<real>)
    returns (registros: seq<RegistroCsv>, depois: seq<Erro>)
    ensures registros == Convertidos(header, dados, removerAcentos, paraFloat)
    ensures depois == erros + ErrosConvertidos(header, dados, primeira, paraFloat)
  {
    registros, depois := [], erros;
    ghost var vistos: seq<seq<string>> := [];
    for k := 0 to |dados|
      invariant vistos == dados[..k]
      invariant registros == Convertidos(header, vistos, removerAcentos, paraFloat)
      invariant depois == erros + ErrosConvertidos(header, vistos, primeira, paraFloat)
    {
      registros, depois := ConverterPasso(header, vistos, dados[k], primeira, primeira + k, erros,
                                          registros, depois, removerAcentos, paraFloat);
      Seqs.PrefixSnoc(dados, k);
      vistos := vistos + [dados[k]];
    }
    assert vistos == dados;
  }
}
