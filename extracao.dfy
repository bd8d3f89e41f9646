/**
 * Classification and flattening of a consultation outcome
 * (`processar_consulta`, `extrair_dados`, `extrair_cnaes_secundarios`).
 */
module Extracao {
  import opened Wrappers
  import opened Registro
  import opened Cnpj

  /** Status labels of a result row. */
  const Invalido: string := "CNPJ inválido"
  const NaoRealizada: string := "Consulta Não Realizada"
  const Realizada: string := "Consulta Realizada"

  /** `processar_consulta`: one label per outcome, no two outcomes sharing one. */
  function ProcessarConsulta(o: Outcome): (status: string)
    ensures status == Invalido <==> o.Invalid?
    ensures status == NaoRealizada <==> o.Failed?
    ensures status == Realizada <==> o.Success?
  {
    match o
    case Invalid => Invalido
    case Failed(_) => NaoRealizada
    case Success(_) => Realizada
  }

  /** The columns `extrair_dados` fills. */
  const DadosKeys: set<Coluna> := {
    ColRazaoSocial, ColNomeFantasia, ColNaturezaJuridica, ColPorte, ColDataInicio,
    ColSituacaoCadastral, ColDataSituacao, ColEnderecoCompleto, ColCnaePrincipalCodigo, ColCnaePrincipalNome
  }

  /** The keys of the nested address, in the order the address string shows them. */
  const AddressKeys: seq<string> := ["tipo_logradouro", "logradouro", "numero", "bairro", "municipio", "uf", "cep"]

  /** The key of the optional list of secondary CNAE entries. */
  const SecundariaKey: string := "cnae_fiscal_secundaria"

  /**
   * `converter_data`: a parsed date or None when `parse` (the strptime
   * "%Y-%m-%d" call) rejects the text; anything but a str raises TypeError.
   */
  function ConverterData(field: string, v: Json, parse: string -> Option<Date>): (r: Result<Cell, ExtractError>)
    ensures r.Ok? <==> v.Text?
    ensures r.Err? ==> r.error == TypeError(field)
    ensures v.Text? && parse(v.s).None? ==> r == Ok(Value(Null))
    ensures v.Text? && parse(v.s).Some? ==> r == Ok(Day(parse(v.s).value))
  {
    match v
    case Text(s) => Ok(match parse(s) case Some(d) => Day(d) case None => Value(Null))
    case _ => Err(TypeError(field))
  }

  /** The "Endereco Completo" text, from the seven address values in order. */
  function FormatEndereco(tipo: Json, logradouro: Json, numero: Json, bairro: Json,
                          municipio: Json, uf: Json, cep: Json): (r: string)
    ensures |r| == |Show(tipo)| + |Show(logradouro)| + |Show(numero)| + |Show(bairro)|
                   + |Show(municipio)| + |Show(uf)| + |Show(cep)| + 14
    ensures r[..|Show(tipo)| + 1] == Show(tipo) + " "
    ensures r[|r| - |Show(cep)| - 6..] == ", CEP " + Show(cep)
  {
    var head := Show(tipo) + " ";
    var middle := Show(logradouro) + ", " + Show(numero) + ", " + Show(bairro) + ", "
                  + Show(municipio) + "-" + Show(uf);
    var tail := ", CEP " + Show(cep);
    assert (head + middle + tail)[..|head|] == head;
    assert (head + middle + tail)[|head| + |middle|..] == tail;
    head + middle + tail
  }

  /** The address is a dict holding every key the address string reads. */
  predicate AddressReadable(rec: map<string, Json>) {
    "endereco" in rec && rec["endereco"].Dict? && (forall k | k in AddressKeys :: k in rec["endereco"].fields)
  }

  /** The principal CNAE is a dict holding "codigo" and "nome". */
  predicate CnaeReadable(rec: map<string, Json>) {
    && "cnae_fiscal_principal" in rec && rec["cnae_fiscal_principal"].Dict?
    && "codigo" in rec["cnae_fiscal_principal"].fields
    && "nome" in rec["cnae_fiscal_principal"].fields
  }

  /**
   * A record `extrair_dados` can flatten without raising: both dates are
   * strings, and the address and principal CNAE are dicts with every key read.
   */
  predicate Extractable(rec: map<string, Json>) {
    && Get(rec, "data_inicio_atividade").Text?
    && Get(rec, "data_situacao_cadastral").Text?
    && AddressReadable(rec)
    && CnaeReadable(rec)
  }

  /** The address string of a record whose address is readable. */
  function EnderecoOf(rec: map<string, Json>): string
    requires AddressReadable(rec)
  {
    var e := rec["endereco"].fields;
    FormatEndereco(e["tipo_logradouro"], e["logradouro"], e["numero"], e["bairro"],
                   e["municipio"], e["uf"], e["cep"])
  }

  /**
   * The "Endereco Completo" expression: the address dict subscripted key
   * by key, in the order the string shows them, or the first error raised.
   */
  function LerEndereco(rec: map<string, Json>): (r: Result<string, ExtractError>)
    ensures r.Ok? <==> AddressReadable(rec)
    ensures r.Ok? ==> r.value == EnderecoOf(rec)
    ensures "endereco" !in rec ==> r == Err(KeyError("endereco"))
  {
    var endereco :- Subscript(Dict(rec), "endereco");
    var tipo :- Subscript(endereco, "tipo_logradouro");
    var logradouro :- Subscript(endereco, "logradouro");
    var numero :- Subscript(endereco, "numero");
    var bairro :- Subscript(endereco, "bairro");
    var municipio :- Subscript(endereco, "municipio");
    var uf :- Subscript(endereco, "uf");
    var cep :- Subscript(endereco, "cep");
    Ok(FormatEndereco(tipo, logradouro, numero, bairro, municipio, uf, cep))
  }

  /** The two principal-CNAE subscripts: the code and the name, or the first error raised. */
  function LerCnaePrincipal(rec: map<string, Json>): (r: Result<(Json, Json), ExtractError>)
    ensures r.Ok? <==> CnaeReadable(rec)
    ensures r.Ok? ==> r.value == (rec["cnae_fiscal_principal"].fields["codigo"], rec["cnae_fiscal_principal"].fields["nome"])
  {
    var cnae :- Subscript(Dict(rec), "cnae_fiscal_principal");
    var codigo :- Subscript(cnae, "codigo");
    var nome :- Subscript(cnae, "nome");
    Ok((codigo, nome))
  }

  /**
   * `extrair_dados`: nothing for Invalid or Failed; for a record, its ten
   * flattened fields, with the first exception raised while reading it.
   */
  function ExtrairDados(o: Outcome, parse: string -> Option<Date>): (r: Result<Row, ExtractError>)
    ensures !o.Success? ==> r == Ok(map[])
    ensures r.Ok? ==> r.value.Keys <= DadosKeys
    ensures o.Success? ==> (r.Ok? <==> Extractable(o.record))
    ensures o.Success? && r.Ok? ==> r.value.Keys == DadosKeys
    ensures o.Success? && r.Ok? ==> r.value[ColEnderecoCompleto] == Value(Text(EnderecoOf(o.record)))
  {
    if !o.Success? then Ok(map[])
    else
      var rec := o.record;
      var inicio :- ConverterData("data_inicio_atividade", Get(rec, "data_inicio_atividade"), parse);
      var situacao :- ConverterData("data_situacao_cadastral", Get(rec, "data_situacao_cadastral"), parse);
      var endereco :- LerEndereco(rec);
      var cnae :- LerCnaePrincipal(rec);
      Ok(Dados(rec, inicio, situacao, endereco, cnae))
  }

  /** The ten columns of a flattened record, once its dates, address and principal CNAE are read. */
  function Dados(rec: map<string, Json>, inicio: Cell, situacao: Cell, endereco: string, cnae: (Json, Json)): Row {
    map[
      ColRazaoSocial := Value(Get(rec, "razao_social")),
      ColNomeFantasia := Value(Get(rec, "nome_fantasia")),
      ColNaturezaJuridica := Value(Get(rec, "natureza_juridica")),
      ColPorte := Value(Get(rec, "porte")),
      ColDataInicio := inicio,
      ColSituacaoCadastral := Value(Get(rec, "situacao_cadastral")),
      ColDataSituacao := situacao,
      ColEnderecoCompleto := Value(Text(endereco)),
      ColCnaePrincipalCodigo := Value(cnae.0),
      ColCnaePrincipalNome := Value(cnae.1)
    ]
  }

  /**
   * A flattenable record is flattened into the ten columns from its copied
   * values, its two dates as `converter_data` reads them, its address
   * string and its principal CNAE's code and name.
   */
  lemma ExtrairDadosOfReads(rec: map<string, Json>, parse: string -> Option<Date>)
    requires Extractable(rec)
    ensures ExtrairDados(Success(rec), parse) == Ok(Dados(rec,
      ConverterData("data_inicio_atividade", rec["data_inicio_atividade"], parse).value,
      ConverterData("data_situacao_cadastral", rec["data_situacao_cadastral"], parse).value,
      EnderecoOf(rec),
      (rec["cnae_fiscal_principal"].fields["codigo"], rec["cnae_fiscal_principal"].fields["nome"])))
  {
  }

  /** A record without an address raises KeyError('endereco') once its dates are strings. */
  lemma MissingAddressRaises(rec: map<string, Json>, parse: string -> Option<Date>)
    requires Get(rec, "data_inicio_atividade").Text? && Get(rec, "data_situacao_cadastral").Text?
    requires "endereco" !in rec
    ensures ExtrairDados(Success(rec), parse) == Err(KeyError("endereco"))
  {
  }

  /** A record without an activity-start date raises TypeError inside strptime. */
  lemma MissingDateRaises(rec: map<string, Json>, parse: string -> Option<Date>)
    requires "data_inicio_atividade" !in rec
    ensures ExtrairDados(Success(rec), parse) == Err(TypeError("data_inicio_atividade"))
  {
  }

  /**
   * `extrair_cnaes_secundarios`: [] unless the lookup returned a record that
   * has the secondary key, whose value is then returned as it is.
   */
  function ExtrairCnaesSecundarios(o: Outcome): (r: Json)
    ensures !o.Success? ==> r == List([])
    ensures o.Success? && SecundariaKey !in o.record ==> r == List([])
    ensures o.Success? && SecundariaKey in o.record ==> r == o.record[SecundariaKey]
  {
    if !o.Success? || SecundariaKey !in o.record then List([])
    else o.record[SecundariaKey]
  }

  /** Whatever is not labelled "Consulta Realizada" contributes no fields and no secondary entries. */
  lemma NotRealizadaIsEmpty(o: Outcome, parse: string -> Option<Date>)
    ensures ProcessarConsulta(o) != Realizada <==> ExtrairDados(o, parse) == Ok(map[]) && !o.Success?
    ensures ProcessarConsulta(o) != Realizada ==> ExtrairCnaesSecundarios(o) == List([])
  {
  }
}
