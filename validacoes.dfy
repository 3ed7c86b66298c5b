/** Record validation (utils/validations.js): the Brazilian CPF check-digit
    algorithm, the ordered error list of a record and the error flag. */
module Validacoes {
  import opened Base
  import opened Registros
  import Seqs
  import Texto

  // ---------------------------------------------------------------------
  // validarCPF

  /** Σ_{i=1..n} d_i · (peso − i) over the first `n` digits of `d`. */
  function SomaPonderada(d: string, n: nat, peso: int): int
    requires Texto.AllDigits(d) && n <= |d|
  {
    if n == 0 then 0
    else SomaPonderada(d, n - 1, peso) + Texto.DigitValue(d[n - 1]) * (peso - n)
  }

  /** The check digit for a weighted sum: (soma · 10) mod 11, with 10 and 11
      read as 0. */
  function DigitoVerificador(soma: int): (r: int)
    ensures 0 <= r <= 9
  {
    var resto := (soma * 10) % 11;
    if resto == 10 || resto == 11 then 0 else resto
  }

  /** At least two characters, all the same (`/^(\d)\1+$/` on digits). */
  predicate Repetido(d: string) {
    |d| >= 2 && forall i :: 0 <= i < |d| ==> d[i] == d[0]
  }

  /** A digit string is a valid CPF: eleven digits, not all equal, and both
      check digits right (weights 10..2 over digits 1-9 for the tenth digit,
      11..2 over digits 1-10 for the eleventh). */
  predicate CpfValido(d: string)
    requires Texto.AllDigits(d)
  {
    |d| == 11 && !Repetido(d)
    && DigitoVerificador(SomaPonderada(d, 9, 11)) == Texto.DigitValue(d[9])
    && DigitoVerificador(SomaPonderada(d, 10, 12)) == Texto.DigitValue(d[10])
  }

  /** `validarCPF(cpf)`: the check runs on the digits of `cpf` only. */
  method ValidarCPF(cpf: string) returns (ok: bool)
    ensures ok == CpfValido(Texto.Digits(cpf))
  {
    var d := Texto.Digits(cpf);
    if |d| != 11 || Repetido(d) {
      return false;
    }
    var soma := 0;
    var i := 1;
    while i <= 9
      invariant 1 <= i <= 10
      invariant soma == SomaPonderada(d, i - 1, 11)
    {
      soma := soma + Texto.DigitValue(d[i - 1]) * (11 - i);
      i := i + 1;
    }
    var resto := (soma * 10) % 11;
    if resto == 10 || resto == 11 {
      resto := 0;
    }
    if resto != Texto.DigitValue(d[9]) {
      return false;
    }
    soma := 0;
    i := 1;
    while i <= 10
      invariant 1 <= i <= 11
      invariant soma == SomaPonderada(d, i - 1, 12)
    {
      soma := soma + Texto.DigitValue(d[i - 1]) * (12 - i);
      i := i + 1;
    }
    resto := (soma * 10) % 11;
    if resto == 10 || resto == 11 {
      resto := 0;
    }
    if resto != Texto.DigitValue(d[10]) {
      return false;
    }
    return true;
  }

  /** Punctuation is ignored: a text and its digit string get the same
      verdict, so `123.456.789-09` and `12345678909` agree. */
  lemma CpfIgnoraPontuacao(cpf: string)
    ensures CpfValido(Texto.Digits(Texto.Digits(cpf))) == CpfValido(Texto.Digits(cpf))
  {
    Texto.DigitsOfDigits(Texto.Digits(cpf));
  }

  /** Any digit string of a length other than 11, and any eleven equal
      digits, is rejected. */
  lemma CpfRejeitado(d: string)
    requires Texto.AllDigits(d)
    requires |d| != 11 || forall i :: 0 <= i < |d| ==> d[i] == d[0]
    ensures !CpfValido(d)
  {
  }

  /** A valid number. */
  lemma CpfValidoExemplo()
    ensures CpfValido("52998224725")
  {
    var d := "52998224725";
    assert SomaPonderada(d, 9, 11) == 295;
    assert SomaPonderada(d, 10, 12) == 347;
  }

  /** The same number with its last check digit changed. */
  lemma CpfInvalidoExemplo()
    ensures !CpfValido("52998224724")
  {
    var e := "52998224724";
    assert SomaPonderada(e, 10, 12) == 347;
  }

  // ---------------------------------------------------------------------
  // validarRegistro

  /** The six checks, in the order their messages are pushed. */
  datatype Verificacao = Nome | Cpf | LiquidoInvalido | VantagemInvalida | DescontoInvalido | Consistencia

  /** `isNaN(x) || x < 0`. */
  predicate Invalido(n: Num) {
    n.NaN? || n.v < 0.0
  }

  /** `Math.abs(l - (v - d)) > 0.01`; any `NaN` makes the comparison false. */
  predicate Inconsistente(r: Registro) {
    r.liquido.Val? && r.vantagem.Val? && r.desconto.Val?
    && var dif := r.liquido.v - (r.vantagem.v - r.desconto.v);
       dif > 0.01 || -dif > 0.01
  }

  /** The record fails check `c`. */
  predicate Falha(r: Registro, c: Verificacao) {
    match c
    case Nome => Texto.Trim(r.nome) == ""
    case Cpf => !(|r.cpf| == 11 && Texto.AllDigits(r.cpf))
    case LiquidoInvalido => Invalido(r.liquido)
    case VantagemInvalida => Invalido(r.vantagem)
    case DescontoInvalido => Invalido(r.desconto)
    case Consistencia => Inconsistente(r)
  }

  const Ordem: seq<Verificacao> :=
    [Nome, Cpf, LiquidoInvalido, VantagemInvalida, DescontoInvalido, Consistencia]

  lemma OrdemCompleta(c: Verificacao)
    ensures c in Ordem && multiset(Ordem)[c] == 1
  {
    assert Seqs.NoDup(Ordem);
    Seqs.NoDupOccursOnce(Ordem, c);
  }

  /** The failed checks, in push order. */
  function Falhas(r: Registro): seq<Verificacao> {
    Seqs.Filter(Ordem, c => Falha(r, c))
  }

  /** The message for a failed check.  The inconsistency message embeds the
      three amounts as JavaScript prints them, which `numero` renders. */
  function Mensagem(r: Registro, c: Verificacao, numero: Num -> string): string {
    match c
    case Nome => "Nome vazio ou inválido"
    case Cpf => "CPF inválido"
    case LiquidoInvalido => "Valor líquido inválido"
    case VantagemInvalida => "Valor de vantagem inválido"
    case DescontoInvalido => "Valor de desconto inválido"
    case Consistencia =>
      "Inconsistência: líquido (" + numero(r.liquido) + ") ≠ vantagem (" + numero(r.vantagem)
      + ") - desconto (" + numero(r.desconto) + ")"
  }

  /** The messages of a list of failed checks. */
  function Mensagens(r: Registro, cs: seq<Verificacao>, numero: Num -> string): seq<string> {
    Seqs.Map(cs, c => Mensagem(r, c, numero))
  }

  /** The messages of the failed checks among the first `k`. */
  function MensagensAte(r: Registro, k: nat, numero: Num -> string): seq<string>
    requires k <= |Ordem|
  {
    if k == 0 then []
    else MensagensAte(r, k - 1, numero)
         + (if Falha(r, Ordem[k - 1]) then [Mensagem(r, Ordem[k - 1], numero)] else [])
  }

  lemma {:induction false} MensagensAteFalhas(r: Registro, k: nat, numero: Num -> string)
    requires k <= |Ordem|
    ensures MensagensAte(r, k, numero) == Mensagens(r, Seqs.Filter(Ordem[..k], c => Falha(r, c)), numero)
  {
    if k > 0 {
      MensagensAteFalhas(r, k - 1, numero);
      Seqs.FilterMapStep(Ordem, k - 1, c => Falha(r, c), c => Mensagem(r, c, numero));
    }
  }

  /** One step of `validarRegistro`: pushes the message of check
      `Ordem[k]` when the record fails it. */
  method Verificar(r: Registro, k: nat, erros: seq<string>, numero: Num -> string) returns (e: seq<string>)
    requires k < |Ordem| && erros == MensagensAte(r, k, numero)
    ensures e == MensagensAte(r, k + 1, numero)
  {
    e := erros;
    if Falha(r, Ordem[k]) {
      e := e + [Mensagem(r, Ordem[k], numero)];
    }
  }

  /** `validarRegistro(registro)`: one message per failed check, in the
      fixed order nome, CPF, líquido, vantagem, desconto, consistência. */
  method ValidarRegistro(r: Registro, numero: Num -> string) returns (erros: seq<string>)
    ensures erros == Mensagens(r, Falhas(r), numero)
  {
    erros := [];
    erros := Verificar(r, 0, erros, numero);
    erros := Verificar(r, 1, erros, numero);
    erros := Verificar(r, 2, erros, numero);
    erros := Verificar(r, 3, erros, numero);
    erros := Verificar(r, 4, erros, numero);
    erros := Verificar(r, 5, erros, numero);
    MensagensAteFalhas(r, 6, numero);
    assert Ordem[..6] == Ordem;
  }

  /** A record is valid: non-blank name, an eleven-digit CPF, three
      non-negative numeric amounts and líquido = vantagem − desconto within
      one centavo. */
  predicate RegistroValido(r: Registro) {
    Texto.Trim(r.nome) != ""
    && |r.cpf| == 11 && Texto.AllDigits(r.cpf)
    && r.liquido.Val? && r.liquido.v >= 0.0
    && r.vantagem.Val? && r.vantagem.v >= 0.0
    && r.desconto.Val? && r.desconto.v >= 0.0
    && -0.01 <= r.liquido.v - (r.vantagem.v - r.desconto.v) <= 0.01
  }

  /** Each check appears in the error list exactly when it fails. */
  lemma FalhaListada(r: Registro, c: Verificacao)
    ensures c in Falhas(r) <==> Falha(r, c)
  {
    OrdemCompleta(c);
    Seqs.FilterMembership(Ordem, k => Falha(r, k), c);
  }

  /** No check appears twice. */
  lemma FalhaUnica(r: Registro, c: Verificacao)
    ensures multiset(Falhas(r))[c] <= 1
  {
    OrdemCompleta(c);
    Seqs.FilterMultiset(Ordem, k => Falha(r, k), c);
  }

  /** The error list is empty exactly when the record is valid. */
  lemma FalhasVazias(r: Registro)
    ensures Falhas(r) == [] <==> RegistroValido(r)
  {
    if RegistroValido(r) {
      forall i | 0 <= i < |Ordem| ensures !Falha(r, Ordem[i]) {
      }
      Seqs.FilterNone(Ordem, c => Falha(r, c));
    } else {
      var c :| Falha(r, c);
      FalhaListada(r, c);
    }
  }

  // ---------------------------------------------------------------------
  // temErros

  /** `temErros(registro)`: `erros` is present and non-empty. */
  predicate TemErros(r: Registro) {
    r.erros.Some? && |r.erros.value| > 0
  }

  /** A record stamped with its own validation result is flagged exactly
      when it is not valid. */
  lemma TemErrosAposValidar(r: Registro, erros: seq<string>, numero: Num -> string)
    requires |erros| == |Falhas(r)|
    ensures TemErros(r.(erros := Some(erros))) <==> !RegistroValido(r)
  {
    FalhasVazias(r);
  }
}
