/**
 * The values a registry lookup hands back (a Python dict of str, int, bool,
 * None, lists and nested dicts), the cells of the output tables, and the
 * Python operations the extraction code applies to them: `dict.get`,
 * subscripting, `str()` inside an f-string and iteration in a `for` loop.
 */
module Registro {
  import opened Wrappers

  /** A Python value as found in the registry record. */
  datatype Json =
    | Null
    | Bool(b: bool)
    | Num(n: int)
    | Text(s: string)
    | List(items: seq<Json>)
    | Dict(fields: map<string, Json>)

  /** A calendar date as `datetime.date` holds it. */
  datatype Date = Date(year: int, month: int, day: int)

  /** A cell of an output table: a raw value, a parsed date or a clock reading. */
  datatype Cell = Value(json: Json) | Day(date: Date) | Moment(time: int)

  /** The columns of the two output tables. */
  datatype Coluna =
    | ColCnpj | ColDataProcessamento | ColResultado
    | ColRazaoSocial | ColNomeFantasia | ColNaturezaJuridica | ColPorte | ColDataInicio
    | ColSituacaoCadastral | ColDataSituacao | ColEnderecoCompleto
    | ColCnaePrincipalCodigo | ColCnaePrincipalNome
    | ColCnaeSecundarioCodigo | ColCnaeSecundarioNome

  /** The header text of each column, as the dict keys of the source spell it. */
  function Titulo(c: Coluna): string {
    match c
    case ColCnpj => "CNPJ"
    case ColDataProcessamento => "Data Processamento"
    case ColResultado => "Resultado"
    case ColRazaoSocial => "Razão Social"
    case ColNomeFantasia => "Nome Fantasia"
    case ColNaturezaJuridica => "Natureza Jurídica"
    case ColPorte => "Porte"
    case ColDataInicio => "Data de início das atividades"
    case ColSituacaoCadastral => "Situação Cadastral"
    case ColDataSituacao => "Data Situação Cadastral"
    case ColEnderecoCompleto => "Endereco Completo"
    case ColCnaePrincipalCodigo => "CNAE Principal - Código"
    case ColCnaePrincipalNome => "CNAE Principal - Nome"
    case ColCnaeSecundarioCodigo => "CNAE Secundário - Código"
    case ColCnaeSecundarioNome => "CNAE Secundário - Nome"
  }

  /**
   * No two columns share a header text, so keying rows by column loses
   * nothing against the source's string-keyed dicts.
   */
  lemma TituloInjective(c: Coluna, d: Coluna)
    ensures Titulo(c) == Titulo(d) ==> c == d
  {
  }

  /** One row of an output table, keyed by column. */
  type Row = map<Coluna, Cell>

  /**
   * The exceptions the extraction code does not catch: `KeyError` for a
   * missing key and `TypeError` for subscripting, iterating or parsing a
   * value of the wrong kind. `key` names the key or field being read.
   */
  datatype ExtractError = KeyError(key: string) | TypeError(key: string)

  /** `rec.get(key)`: the value, or None when the key is absent. */
  function Get(rec: map<string, Json>, key: string): (v: Json)
    ensures key in rec ==> v == rec[key]
    ensures key !in rec ==> v == Null
  {
    if key in rec then rec[key] else Null
  }

  /** `v[key]`: only a dict with that key yields a value. */
  function Subscript(v: Json, key: string): (r: Result<Json, ExtractError>)
    ensures r.Ok? <==> v.Dict? && key in v.fields
    ensures r.Ok? ==> r.value == v.fields[key]
    ensures v.Dict? && key !in v.fields ==> r == Err(KeyError(key))
    ensures !v.Dict? ==> r == Err(TypeError(key))
  {
    match v
    case Dict(m) => if key in m then Ok(m[key]) else Err(KeyError(key))
    case _ => Err(TypeError(key))
  }

  /**
   * `for x in v` over a value whose elements are then subscripted with
   * `key`: a list yields its items; an empty str or dict yields nothing; a
   * non-empty str or dict yields strings, and subscripting the first of them
   * raises; None, a bool or an int is not iterable.
   */
  function Elements(v: Json, key: string): (r: Result<seq<Json>, ExtractError>)
    ensures v.List? ==> r == Ok(v.items)
    ensures r.Ok? ==> v.List? || v == Text("") || v == Dict(map[])
    ensures r.Err? ==> r.error.TypeError?
  {
    match v
    case List(items) => Ok(items)
    case Text(s) => if s == "" then Ok([]) else Err(TypeError(key))
    case Dict(m) => if m == map[] then Ok([]) else Err(TypeError(key))
    case _ => Err(TypeError(key))
  }

  function DigitChar(d: nat): (c: char)
    requires d < 10
    ensures '0' <= c <= '9'
  {
    ('0' as int + d) as char
  }

  /** Decimal notation of a natural number, as `str(n)` prints it. */
  function NatToDecimal(n: nat): (s: string)
    ensures |s| > 0
    ensures forall i | 0 <= i < |s| :: '0' <= s[i] <= '9'
    decreases n
  {
    if n < 10 then [DigitChar(n)] else NatToDecimal(n / 10) + [DigitChar(n % 10)]
  }

  /** The number a string of decimal digits denotes. */
  function DecimalValue(s: string): nat
    requires forall i | 0 <= i < |s| :: '0' <= s[i] <= '9'
  {
    if s == [] then 0
    else 10 * DecimalValue(s[..|s| - 1]) + (s[|s| - 1] as int - '0' as int)
  }

  lemma {:induction false} DecimalRoundTrip(n: nat)
    ensures DecimalValue(NatToDecimal(n)) == n
    decreases n
  {
    var s := NatToDecimal(n);
    if n >= 10 {
      DecimalRoundTrip(n / 10);
      assert s[..|s| - 1] == NatToDecimal(n / 10);
    }
  }

  /**
   * `str(v)` as an f-string renders it. A nested list or dict is rendered
   * as a fixed placeholder rather than Python's repr.
   */
  function Show(v: Json): (r: string)
    ensures v.Text? ==> r == v.s
    ensures v == Null ==> r == "None"
    ensures v.Num? && v.n >= 0 ==> (forall i | 0 <= i < |r| :: '0' <= r[i] <= '9') && DecimalValue(r) == v.n
    ensures v.Num? && v.n < 0 ==>
      && |r| > 1 && r[0] == '-'
      && (forall i | 1 <= i < |r| :: '0' <= r[i] <= '9') && DecimalValue(r[1..]) == -v.n
  {
    match v
    case Null => "None"
    case Bool(b) => if b then "True" else "False"
    case Num(n) =>
      if n < 0 then
        DecimalRoundTrip(-n);
        var digits := NatToDecimal(-n);
        assert ("-" + digits)[1..] == digits;
        "-" + digits
      else
        DecimalRoundTrip(n);
        NatToDecimal(n)
    case Text(s) => s
    case List(_) => "[...]"
    case Dict(_) => "{...}"
  }
}
