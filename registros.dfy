/** The payroll record as the browser services see it (one element of a
    month file's `registros`, or a normalised expenditure row), and
    JavaScript's numeric coercions on its amounts. */
module Registros {
  import opened Base

  /** A JavaScript number as `Number(x)` or `parseFloat(x)` leaves it:
      a finite value or `NaN`. */
  datatype Num = Val(v: real) | NaN

  /** `Number(x) || 0` and `isNaN(x) ? 0 : x`: `NaN` (and zero) become 0. */
  function OrZero(n: Num): (r: real)
    ensures n.Val? ==> r == n.v
    ensures n.NaN? ==> r == 0.0
  {
    match n
    case Val(x) => x
    case NaN => 0.0
  }

  /** The outlier bound: amounts above it are treated as bad data. */
  const MaxValor: real := 10000000.0

  /** A record.  Absent text fields (`null`, `undefined`) are `""`, which
      every check in the services treats like an empty string. */
  datatype Registro = Registro(
    nome: string,
    cpf: string,
    matricula: string,
    competencia: string,
    lotacaoNormalizada: string,
    lotacaoOriginal: string,
    lotacao: string,
    funcao: string,
    nivel: string,
    vinculo: string,
    situacao: string,
    motivoAfastamento: string,
    area: string,
    liquido: Num,
    vantagem: Num,
    desconto: Num,
    erros: Option<seq<string>>)

  /** The numeric fields a caller may rank or sum by. */
  datatype Campo = Liquido | Vantagem | Desconto

  function Valor(r: Registro, campo: Campo): Num {
    match campo
    case Liquido => r.liquido
    case Vantagem => r.vantagem
    case Desconto => r.desconto
  }
}
