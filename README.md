# CNPJ validation and batch consultation, in Dafny

This project models the core of a small desktop tool that checks Brazilian
company identifiers (CNPJ), looks them up in a registry, and flattens the
results into two tables. The model covers three parts.

- **Validation** (`Cnpj`, from `consultar_cnpj.py`):
  - `calcular_digito` computes a check digit. It multiplies the leading digits
    by a weight list and sums them. A sum whose remainder mod 11 is below 2
    gives `'0'`; any other remainder `r` gives `11 - r`.
  - `validar_cnpj` requires 14 characters whose positions 12 and 13 hold the
    two check digits.
  - `consultar_cnpj` strips `.`, `-` and `/` and validates the result. Only a
    valid identifier is handed to the registry client. The client either
    returns a record or raises `CNPJError`.
- **Extraction** (`Extracao`, from `consultar_cnpj.py`):
  - `processar_consulta` labels each outcome with one of
    "CNPJ inválido", "Consulta Não Realizada" or "Consulta Realizada".
  - `converter_data` parses dates.
  - `extrair_dados` flattens a record into ten columns. It raises `KeyError`
    or `TypeError` when the nested address, the principal CNAE or a date has
    the wrong shape.
  - `extrair_cnaes_secundarios` returns the list of secondary activities.
- **Batch consultation** (`Lote`, from `main.py`):
  - `validar_planilha` refuses a sheet without a "CNPJ" column.
  - The duration estimate is 5 seconds per row, split by `divmod` into hours,
    minutes and seconds.
  - The loop handles every row in turn. It looks the row up and appends one
    result row plus one secondary row per secondary activity. It then advances
    the progress bar and sleeps 5 seconds.
  - After the loop, both tables are handed to the writer and the bar is reset.
  - An extraction exception escapes the loop. Nothing is then written and the
    bar keeps the value it had reached.

Outside effects are abstract parameters or events.

- The registry client is a function `string -> Reply`.
- `strptime` is a function `string -> Option<Date>`.
- `datetime.now()` is a `clock: nat -> int`. Reading 0 is taken before the
  loop and reading `j + 1` while building row `j`.
- The information dialog, every client call, every progress update and every
  sleep are recorded as an `Event`.
- The progress bar is a class whose `value` and `maximum` are updated in place.

The batch loop (`Lote.Percorrer`) is proved against `Lote.Batch`, a
row-by-row specification function. The lemmas about `Batch` state what the
loop guarantees:
- one result row per identifier, in order;
- the secondary-row count;
- stopping at the first exception;
- progress values `1, 2, …`;
- one sleep per completed row;
- only valid identifiers are handed to the client.

Three behaviours of the code are worth noting:
- The status labels are the Portuguese strings "CNPJ inválido",
  "Consulta Não Realizada" and "Consulta Realizada".
- `"00000000000000"` passes validation. Both weighted sums are 0, so both
  check digits are `'0'` (`Cnpj.AllZerosValidate`). The client is therefore
  called for it.
- After a completed batch, the bar is reset to 0 (main.py line 82).

## Model

| member | source | states |
|---|---|---|
| Cnpj.CalcularDigito | consultar_cnpj.py:40-45 | the loop's sum is the weighted sum of the leading digits; the result is a digit, equal to `CheckDigit` (remainder below 2 gives '0', otherwise 11 minus the remainder) |
| Cnpj.CheckDigitCompletesModulus | consultar_cnpj.py:44-45 | a digit is the check digit exactly when adding it makes the weighted sum a multiple of 11, or when it is 0 and the remainder is 1 |
| Cnpj.ValidarCnpj | consultar_cnpj.py:20-38 | false for any length other than 14; true exactly when positions 12 and 13 equal the check digits for the two weight lists |
| Cnpj.Complete | consultar_cnpj.py:20-45 | appending the two check digits to a 12-digit base gives 14 digits that begin with the base |
| Cnpj.CompleteIsValid | consultar_cnpj.py:20-45 | every 12-digit base completed with its two check digits validates |
| Cnpj.ValidIsComplete | consultar_cnpj.py:20-45 | every valid identifier is all digits and equals the completion of its first twelve |
| Cnpj.WrongFirstDigitInvalid | consultar_cnpj.py:29-31 | replacing the first check digit of a valid identifier by any other digit makes it invalid |
| Cnpj.WrongSecondDigitInvalid | consultar_cnpj.py:34-36 | replacing the second check digit of a valid identifier by any other digit makes it invalid |
| Cnpj.AllZerosValidate | consultar_cnpj.py:20-45 | fourteen zeros validate as the code is written |
| Cnpj.ExampleFirstSum | consultar_cnpj.py:42-43 | the first weighted sum of 11222333000181 is 102 |
| Cnpj.ExampleSecondSum | consultar_cnpj.py:42-43 | the second weighted sum of 11222333000181 is 120 |
| Cnpj.WorkedExample | consultar_cnpj.py:20-45 | 11222333000181 validates, its sums being 102 and 120 |
| Cnpj.WorkedExampleWrongDigit | consultar_cnpj.py:34-36 | 11222333000180 and 11222333000182 do not validate |
| Cnpj.Strip | consultar_cnpj.py:7 | no '.', '-' or '/' remains and the result is never longer |
| Cnpj.StripAppend | consultar_cnpj.py:7 | stripping a concatenation concatenates the stripped parts |
| Cnpj.StripFixesClean | consultar_cnpj.py:7 | a string is unchanged by stripping exactly when it holds no separator |
| Cnpj.StripIdempotent | consultar_cnpj.py:7 | stripping twice is stripping once |
| Cnpj.StripKeepsOthers | consultar_cnpj.py:7 | every other character occurs as often after stripping as before |
| Cnpj.Consult | consultar_cnpj.py:6-18 | the outcome is Invalid exactly when the stripped identifier fails validation; a Success carries the record the client returned for the stripped identifier, a Failed the message it raised |
| Cnpj.ConsultarCnpj | consultar_cnpj.py:6-18 | the outcome is Invalid exactly when the stripped identifier fails validation; otherwise it is the client's record or its error; the client is called once, with the stripped identifier, exactly when it is valid |
| Cnpj.InvalidIgnoresClient | consultar_cnpj.py:9-10 | an invalid identifier gives Invalid whatever the client would answer |
| Cnpj.PunctuatedExample | consultar_cnpj.py:6-18 | any input that strips to 11222333000181 reaches the client, and its reply decides Success or Failed |
| Registro.TituloInjective | consultar_cnpj.py:71-80 | no two columns share a header text, so keying rows by column loses no entry of the source's string-keyed dicts |
| Registro.Get | consultar_cnpj.py:67-77 | `dict.get`: the stored value for a present key, None for an absent one |
| Registro.Subscript | consultar_cnpj.py:78-80 | subscripting yields a value exactly for a dict holding the key; KeyError for a dict without it, TypeError for anything else |
| Registro.Elements | main.py:62 | a list iterates as its items; a successful iteration is over a list or an empty str or dict; failures are TypeError |
| Registro.NatToDecimal | consultar_cnpj.py:78 | `str()` of a number is a non-empty string of decimal digits |
| Registro.DecimalRoundTrip | consultar_cnpj.py:78 | reading back the decimal text of a number gives the number |
| Registro.Show | consultar_cnpj.py:78 | `str()` in the f-string: a string is shown as it is, None as "None", and an integer as decimal digits that read back to it, after a '-' when negative |
| Extracao.ProcessarConsulta | consultar_cnpj.py:47-53 | each of the three labels is produced by exactly one kind of outcome |
| Extracao.ConverterData | consultar_cnpj.py:57-61 | a string gives the parsed date, or None when parsing fails; anything else raises TypeError |
| Extracao.FormatEndereco | consultar_cnpj.py:78 | the address text is the seven shown values plus 14 characters of separators; it begins with the street type and a space and ends with ", CEP " and the postal code |
| Extracao.LerEndereco | consultar_cnpj.py:78 | the address string is built exactly when the address is a dict with all seven keys; a missing address raises KeyError('endereco') |
| Extracao.LerCnaePrincipal | consultar_cnpj.py:79-80 | the code and name are read exactly when the principal CNAE is a dict holding both |
| Extracao.ExtrairDados | consultar_cnpj.py:63-82 | nothing for Invalid or Failed; for a record, success exactly when both dates are strings and the address and principal CNAE are readable; the ten columns and the address text on success |
| Extracao.ExtrairDadosOfReads | consultar_cnpj.py:67-81 | a readable record flattens into its copied values, its parsed dates, its address string and its principal CNAE |
| Extracao.MissingAddressRaises | consultar_cnpj.py:78 | a record without an address raises KeyError('endereco') once its dates are strings |
| Extracao.MissingDateRaises | consultar_cnpj.py:57-68 | a record without an activity-start date raises TypeError, which `converter_data` does not catch |
| Extracao.ExtrairCnaesSecundarios | consultar_cnpj.py:85-90 | [] for Invalid, Failed or a record without the key; otherwise the stored value as it is |
| Extracao.NotRealizadaIsEmpty | consultar_cnpj.py:47-87 | an outcome not labelled "Consulta Realizada" is exactly one with no fields that is not a record, and it has no secondary entries |
| Lote.ValidarPlanilha | main.py:13-16 | a sheet is kept exactly when it has a "CNPJ" column, and is then unchanged |
| Lote.CnpjColumn | main.py:48-49 | the identifiers are the rows' "CNPJ" cells, in row order |
| Lote.Estimativa | main.py:28-35 | the end is 5 seconds per row after the start; hours, minutes and seconds add back to the total, with minutes and seconds below 60 |
| Lote.EstimativaUnique | main.py:34-35 | the displayed split is the only one with minutes and seconds below 60 |
| Lote.SecondaryRow | main.py:63-67 | a secondary row exists exactly when the entry is a dict with "codigo" and "nome"; it holds the CNPJ as typed and those two values |
| Lote.SecondaryRowsShape | main.py:62-67 | the inner loop succeeds exactly when every entry does, giving one row per entry in order |
| Lote.SecondaryRowsErrPrefix | main.py:62-67 | once an entry raises, the inner loop ends with that error |
| Lote.LinhasSecundarias | main.py:62-67 | the inner loop's result is `SecondaryRows` of the entries |
| Lote.AssembleFields | main.py:54-67 | a built row has the CNPJ as typed, the clock reading, the status label and exactly the fields of `dados`; one secondary row per entry, each tagged with the CNPJ |
| Lote.HeaderTitlesDistinct | main.py:54-59 | the titles "CNPJ", "Data Processamento" and "Resultado" differ from all ten titles `extrair_dados` fills, so `**dados` overwrites no header entry |
| Lote.HeaderDadosDisjoint | main.py:54-59 | the three header columns and the ten extracted columns are disjoint sets |
| Lote.RowOfFields | main.py:50-67 | the same facts for the row built from a lookup's own `extrair_dados` and `extrair_cnaes_secundarios` |
| Lote.RowOf | main.py:50-67 | the loop body after the lookup; only a lookup that returned a record can make it raise |
| Lote.NonSuccessRowCompletes | main.py:50-67 | an Invalid or Failed lookup never raises and gives a bare header row and no secondary rows |
| Lote.ProcessarLinha | main.py:49-67 | the loop body's outputs are `RowOf` for the row's lookup; the client calls are those of `consultar_cnpj` |
| Lote.Passo | main.py:49-71 | one pass of the loop body takes the run over `i` rows to the run over `i + 1` rows |
| Lote.Step | main.py:49-71 | once an exception has escaped nothing changes; both tables and the events only grow; the pass completes exactly when the row's body does, adding one result row then |
| Lote.RunRows | main.py:48-71 | the loop over the first k rows: a run that did not stop completed all k rows, one that stopped completed fewer |
| Lote.Batch | main.py:48-71 | the loop over the whole column: never more result rows than identifiers, and exactly one per identifier when it completes |
| Lote.BatchStep | main.py:48-71 | the run over `i + 1` rows is one `Step` after the run over `i` rows, with row `i`'s outputs and client calls |
| Lote.RunStops | main.py:48-71 | after an exception, later rows change nothing |
| Lote.RunResults | main.py:48-60 | the result table holds row j's result at position j; the run stops exactly when some row raises, at the first such row, with its exception |
| Lote.RunSecondary | main.py:62-67 | the secondary table is the completed rows' groups, in row order |
| Lote.StepSecondary | main.py:62-67 | one pass appends exactly the row's secondary group, when the row completes |
| Lote.StepTallies | main.py:48-71 | one pass adds the row's client calls, plus one progress value and one sleep exactly when the row completes |
| Lote.RunProgress | main.py:69-71 | the bar is set to `p0 + 1, p0 + 2, …`, once per completed row, and there is one sleep per completed row |
| Lote.RunQueries | main.py:50 | the client calls are those of the rows reached, in row order |
| Lote.SecondaryCount | main.py:62-67 | the secondary rows of completed rows number the sum of the rows' counts |
| Lote.RowAtFields | main.py:48-67 | a completed row of a batch carries its CNPJ, its own status label and its own extracted fields, and has one secondary row per secondary activity |
| Lote.BatchTables | main.py:45-71 | a batch completes exactly when no row raises; then it has one result row per identifier in input order, and as many secondary rows as all secondary activities together |
| Lote.AllUnsuccessfulComplete | main.py:48-71 | when no lookup succeeds, the batch completes with a bare row per identifier and no secondary rows |
| Lote.AsksUpToValid | main.py:50 | every identifier handed to the client is the stripped form of a valid identifier of the sheet |
| Lote.BatchEffects | main.py:43-71 | only valid stripped identifiers reach the client; the bar moves 1, 2, … and never past the row count; one sleep per completed row |
| Lote.ProgressBar.constructor | main.py:137 | a new bar has value 0 and maximum 100 |
| Lote.Percorrer | main.py:45-82 | the loop's events and tables are those of `Batch`; when it completes, both tables are written and the bar is reset to 0; after an exception, nothing is written and the bar stays advanced by the completed rows |
| Lote.ConsultaLote | main.py:24-82 | a sheet without the column changes nothing; otherwise the estimate is announced, the bar maximum is the row count, and the loop behaves as `Percorrer` |

## Left out

- The window, dialogs and file picker (`filedialog`, `messagebox`, `root.update_idletasks`), and the single-lookup screen (`consulta_individual`, `exibir_resultado`) are not modelled. They are presentation code.
- Reading the spreadsheet is not modelled. The sheet is given as already read, so `pd.read_excel` failures and their error dialog are outside the model. Writing the two tables (`pd.ExcelWriter`, the `_resultado.xlsx` file name, `to_excel`) is modelled only as the `Written` outcome that carries both tables.
- "main copy.py" is an older copy of main.py and is not part of this model.
- The registry client, its network access, `strptime` and `datetime.now()` are function parameters. `time.sleep` is recorded as an event, not waited for.
- The formatting of dates and times by `strftime` in the information dialog is not modelled. The `Announced` event carries the clock values and the h:m:s split.
- Cnpj.ValidarCnpj: requires the first twelve characters of a 14-character string to be ASCII digits. On any other character `int()` raises `ValueError`, which nothing in the source catches. Batch callers carry the same requirement (`Lote.Consultable`). Non-ASCII Unicode digits, which `int()` accepts, are not modelled.
- Lote.CnpjColumn: spreadsheet cells are taken to be strings. A numeric "CNPJ" cell, which `re.sub` would reject with `TypeError`, is not modelled.
- Lote.Estimativa: works on whole seconds. The source's `total_seconds()` is a float, but for this integer total it holds the same whole number, so `divmod` returns the same quotients and remainders.
- Registro.Show: renders a nested list or dict as a fixed placeholder rather than Python's `repr`. Integers, strings, booleans and None are rendered as Python renders them.
- Floating-point values in the registry record are not modelled. `Json` represents integers only.
- The client is a pure function of the identifier, so two rows with the same CNPJ always get the same reply. The real lookup goes over the network and can answer differently from one call to the next.
- The client's results are limited to a returned dict or a raised `CNPJError`, the only exception caught at consultar_cnpj.py:17. Any other exception the client raises would escape the loop and abort the batch, as an extraction error does. The `Reply` type does not model that case, nor a client that returns something other than a dict.
- Python's `datetime.date` validation inside `strptime` is part of the `parse` parameter. The model does not constrain which strings parse.
