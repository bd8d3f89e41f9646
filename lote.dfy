/**
 * The batch consultation of main.py: the "CNPJ" column check, the duration
 * estimate, and the loop that looks up every row and accumulates the two
 * output tables while advancing a progress bar.
 */
module Lote {
  import opened Wrappers
  import opened Registro
  import opened Cnpj
  import opened Extracao

  /** Seconds slept after each row; also the per-row figure of the estimate. */
  const Pausa: nat := 5

  /** A spreadsheet as read: its column names and one map per row. */
  datatype Sheet = Sheet(columns: set<string>, rows: seq<map<string, string>>)

  /** Every row has a cell for every column, as a data frame does. */
  predicate Rectangular(sheet: Sheet) {
    forall i | 0 <= i < |sheet.rows| :: sheet.rows[i].Keys == sheet.columns
  }

  /** `validar_planilha` after the file is read: no table without a "CNPJ" column. */
  function ValidarPlanilha(sheet: Sheet): (r: Option<Sheet>)
    ensures r.Some? <==> "CNPJ" in sheet.columns
    ensures r.Some? ==> r.value == sheet
  {
    if "CNPJ" in sheet.columns then Some(sheet) else None
  }

  /** The "CNPJ" cell of every row, in row order. */
  function CnpjColumn(sheet: Sheet): (cnpjs: seq<string>)
    requires Rectangular(sheet) && "CNPJ" in sheet.columns
    ensures |cnpjs| == |sheet.rows|
    ensures forall i | 0 <= i < |cnpjs| :: cnpjs[i] == sheet.rows[i]["CNPJ"]
  {
    seq(|sheet.rows|, i requires 0 <= i < |sheet.rows| && Rectangular(sheet) && "CNPJ" in sheet.columns
                        => sheet.rows[i]["CNPJ"])
  }

  /** Start, predicted end (both in seconds) and the total split into h:m:s. */
  datatype Estimate = Estimate(start: int, end: int, hours: int, minutes: int, seconds: int)

  /** The estimate shown before the loop: `Pausa` seconds per row, split with divmod. */
  function Estimativa(start: int, numCnpjs: nat): (e: Estimate)
    ensures e.start == start && e.end == start + Pausa * numCnpjs
    ensures e.hours * 3600 + e.minutes * 60 + e.seconds == e.end - e.start
    ensures e.hours >= 0 && 0 <= e.minutes < 60 && 0 <= e.seconds < 60
  {
    var fim := start + Pausa * numCnpjs;
    var total := fim - start;
    var horas, resto := total / 3600, total % 3600;
    Estimate(start, fim, horas, resto / 60, resto % 60)
  }

  lemma DivModUnique3600(t: int, q: int, r: int)
    requires t == q * 3600 + r && 0 <= r < 3600
    ensures q == t / 3600 && r == t % 3600
  {
  }

  lemma DivModUnique60(t: int, q: int, r: int)
    requires t == q * 60 + r && 0 <= r < 60
    ensures q == t / 60 && r == t % 60
  {
  }

  /** The hours, minutes and seconds shown are the only split of the total with both remainders below 60. */
  lemma EstimativaUnique(start: int, numCnpjs: nat, h: int, m: int, s: int)
    requires h * 3600 + m * 60 + s == Pausa * numCnpjs && 0 <= m < 60 && 0 <= s < 60
    ensures var e := Estimativa(start, numCnpjs); e.hours == h && e.minutes == m && e.seconds == s
  {
    var t := Pausa * numCnpjs;
    DivModUnique3600(t, h, m * 60 + s);
    DivModUnique60(m * 60 + s, m, s);
  }

  /** What the batch does that can be observed besides its tables. */
  datatype Event =
    | Announced(estimate: Estimate)  // the information dialog before the loop
    | Queried(cnpj: string)          // one call of the registry client
    | Advanced(value: int)           // the progress bar's new value
    | Slept(seconds: nat)            // `time.sleep`

  /** One row of the secondary table, tagged with the row's CNPJ as typed. */
  function SecondaryRow(cnpj: string, cnae: Json): (r: Result<Row, ExtractError>)
    ensures r.Ok? <==> cnae.Dict? && "codigo" in cnae.fields && "nome" in cnae.fields
    ensures r.Ok? ==> r.value.Keys == {ColCnpj, ColCnaeSecundarioCodigo, ColCnaeSecundarioNome}
    ensures r.Ok? ==> r.value[ColCnpj] == Value(Text(cnpj))
    ensures r.Ok? ==> r.value[ColCnaeSecundarioCodigo] == Value(cnae.fields["codigo"]) && r.value[ColCnaeSecundarioNome] == Value(cnae.fields["nome"])
  {
    var codigo :- Subscript(cnae, "codigo");
    var nome :- Subscript(cnae, "nome");
    Ok(map[ColCnpj := Value(Text(cnpj)), ColCnaeSecundarioCodigo := Value(codigo), ColCnaeSecundarioNome := Value(nome)])
  }

  /** The inner `for cnae in cnaes` loop: one row per entry, stopping at the first that raises. */
  function SecondaryRows(cnpj: string, cnaes: seq<Json>): Result<seq<Row>, ExtractError>
    decreases |cnaes|
  {
    if cnaes == [] then Ok([])
    else
      var before :- SecondaryRows(cnpj, cnaes[..|cnaes| - 1]);
      var row :- SecondaryRow(cnpj, cnaes[|cnaes| - 1]);
      Ok(before + [row])
  }

  /** The inner loop succeeds exactly when every entry does, giving one row per entry in order. */
  lemma {:induction false} SecondaryRowsShape(cnpj: string, cnaes: seq<Json>)
    ensures SecondaryRows(cnpj, cnaes).Ok? <==> forall j | 0 <= j < |cnaes| :: SecondaryRow(cnpj, cnaes[j]).Ok?
    ensures SecondaryRows(cnpj, cnaes).Ok? ==>
      && |SecondaryRows(cnpj, cnaes).value| == |cnaes|
      && forall j | 0 <= j < |cnaes| :: SecondaryRow(cnpj, cnaes[j]) == Ok(SecondaryRows(cnpj, cnaes).value[j])
    decreases |cnaes|
  {
    if cnaes != [] {
      var init := cnaes[..|cnaes| - 1];
      SecondaryRowsShape(cnpj, init);
      assert forall j | 0 <= j < |init| :: init[j] == cnaes[j];
    }
  }

  /** Once a prefix of the entries raises, the whole inner loop raises that error. */
  lemma {:induction false} SecondaryRowsErrPrefix(cnpj: string, cnaes: seq<Json>, j: nat)
    requires j <= |cnaes| && SecondaryRows(cnpj, cnaes[..j]).Err?
    ensures SecondaryRows(cnpj, cnaes) == SecondaryRows(cnpj, cnaes[..j])
    decreases |cnaes| - j
  {
    if j < |cnaes| {
      var next := cnaes[..j + 1];
      assert next[..j] == cnaes[..j];
      SecondaryRowsErrPrefix(cnpj, cnaes, j + 1);
    } else {
      assert cnaes[..j] == cnaes;
    }
  }

  /** Every row carries `cnpj` in its CNPJ column. */
  predicate TaggedWith(rows: seq<Row>, cnpj: string) {
    forall j | 0 <= j < |rows| :: ColCnpj in rows[j] && rows[j][ColCnpj] == Value(Text(cnpj))
  }

  /** The two outputs of one row: its result row and its secondary rows. */
  datatype RowOutput = RowOutput(result: Row, secondary: seq<Row>)

  const HeaderKeys: set<Coluna> := {ColCnpj, ColDataProcessamento, ColResultado}

  /** The first three columns of a result row. */
  function Header(cnpj: string, at: int, o: Outcome): Row {
    map[ColCnpj := Value(Text(cnpj)), ColDataProcessamento := Moment(at),
        ColResultado := Value(Text(ProcessarConsulta(o)))]
  }

  /**
   * The loop body once `dados` and the secondary entries are known: the
   * header merged with `dados` (`{..., **dados}`) and the inner loop's rows.
   */
  function Assemble(cnpj: string, at: int, o: Outcome, dados: Result<Row, ExtractError>,
                    cnaes: Result<seq<Json>, ExtractError>): Result<RowOutput, ExtractError>
  {
    var d :- dados;
    var items :- cnaes;
    var secondary :- SecondaryRows(cnpj, items);
    Ok(RowOutput(Header(cnpj, at, o) + d, secondary))
  }

  /** One pass of the loop body after the lookup, or the exception that stops the batch. */
  function RowOf(cnpj: string, o: Outcome, parse: string -> Option<Date>, at: int): (r: Result<RowOutput, ExtractError>)
    ensures r.Err? ==> o.Success?
  {
    Assemble(cnpj, at, o, ExtrairDados(o, parse), Elements(ExtrairCnaesSecundarios(o), "codigo"))
  }

  lemma AssembleFields(cnpj: string, at: int, o: Outcome, dados: Result<Row, ExtractError>,
                       cnaes: Result<seq<Json>, ExtractError>)
    requires dados.Ok? ==> dados.value.Keys <= DadosKeys
    requires Assemble(cnpj, at, o, dados, cnaes).Ok?
    ensures var out := Assemble(cnpj, at, o, dados, cnaes).value;
      && dados.Ok? && cnaes.Ok?
      && out.result.Keys == HeaderKeys + dados.value.Keys
      && out.result[ColCnpj] == Value(Text(cnpj))
      && out.result[ColDataProcessamento] == Moment(at)
      && out.result[ColResultado] == Value(Text(ProcessarConsulta(o)))
      && (forall k | k in dados.value :: out.result[k] == dados.value[k])
      && |out.secondary| == |cnaes.value|
      && TaggedWith(out.secondary, cnpj)
  {
    HeaderDadosDisjoint();
    SecondaryRowsShape(cnpj, cnaes.value);
  }

  /**
   * The header titles "CNPJ", "Data Processamento" and "Resultado" differ
   * from every title `extrair_dados` fills, so `**dados` overwrites no
   * header entry.
   */
  lemma HeaderTitlesDistinct()
    ensures forall c | c in HeaderKeys :: forall d | d in DadosKeys :: Titulo(c) != Titulo(d)
  {
    HeaderDadosDisjoint();
    forall c, d | c in HeaderKeys && d in DadosKeys
      ensures Titulo(c) != Titulo(d)
    {
      TituloInjective(c, d);
    }
  }

  /** Hence the header columns and the `extrair_dados` columns are disjoint. */
  lemma HeaderDadosDisjoint()
    ensures HeaderKeys !! DadosKeys
  {
    forall c | c in HeaderKeys
      ensures c !in DadosKeys
    {
    }
  }

  /**
   * A completed row carries its CNPJ as typed, its status label and exactly
   * the fields `extrair_dados` gave; it has one secondary row per entry of
   * `extrair_cnaes_secundarios`, each tagged with the same CNPJ.
   */
  lemma RowOfFields(cnpj: string, o: Outcome, parse: string -> Option<Date>, at: int)
    requires RowOf(cnpj, o, parse, at).Ok?
    ensures var out := RowOf(cnpj, o, parse, at).value;
      var dados := ExtrairDados(o, parse);
      var cnaes := Elements(ExtrairCnaesSecundarios(o), "codigo");
      && dados.Ok? && cnaes.Ok?
      && out.result.Keys == HeaderKeys + dados.value.Keys
      && out.result[ColCnpj] == Value(Text(cnpj))
      && out.result[ColDataProcessamento] == Moment(at)
      && out.result[ColResultado] == Value(Text(ProcessarConsulta(o)))
      && (forall k | k in dados.value :: out.result[k] == dados.value[k])
      && |out.secondary| == |cnaes.value|
      && TaggedWith(out.secondary, cnpj)
  {
    AssembleFields(cnpj, at, o, ExtrairDados(o, parse), Elements(ExtrairCnaesSecundarios(o), "codigo"));
  }

  /** An Invalid or Failed lookup never stops the batch: it yields a bare row and no secondary rows. */
  lemma NonSuccessRowCompletes(cnpj: string, o: Outcome, parse: string -> Option<Date>, at: int)
    requires !o.Success?
    ensures RowOf(cnpj, o, parse, at) == Ok(RowOutput(Header(cnpj, at, o), []))
  {
    assert Header(cnpj, at, o) + map[] == Header(cnpj, at, o);
  }

  /** The client calls made for one raw identifier. */
  function QueriedFor(cnpj: string): seq<string>
    requires Checkable(Strip(cnpj))
  {
    if IsValidCnpj(Strip(cnpj)) then [Strip(cnpj)] else []
  }

  function Asked(queried: seq<string>): seq<Event> {
    if queried == [] then [] else [Queried(queried[0])] + Asked(queried[1..])
  }

  /** The state of a run: both tables so far, the events so far, and the exception if one stopped it. */
  datatype Run = Run(results: seq<Row>, secondary: seq<Row>, events: seq<Event>, failure: Option<ExtractError>)

  /**
   * The loop over the first `k` rows, given each row's client calls
   * `asks[j]` and each row's outputs `outs[j]`, starting from progress
   * value `p0`.
   */
  function RunRows(outs: seq<Result<RowOutput, ExtractError>>, asks: seq<seq<string>>, p0: int, k: nat): (run: Run)
    requires k <= |outs| && k <= |asks|
    ensures if run.failure.None? then |run.results| == k else |run.results| < k
  {
    if k == 0 then Run([], [], [], None)
    else Step(RunRows(outs, asks, p0, k - 1), outs[k - 1], asks[k - 1], p0 + k)
  }

  /**
   * One pass of the loop body: nothing once an exception has escaped;
   * otherwise the row's client calls, then either the exception or the
   * row's output appended, the bar set to `v` and a pause.
   */
  function Step(prev: Run, out: Result<RowOutput, ExtractError>, queried: seq<string>, v: int): (next: Run)
    ensures prev.failure.Some? ==> next == prev
    ensures prev.results <= next.results && prev.secondary <= next.secondary && prev.events <= next.events
    ensures prev.failure.None? ==> (next.failure.None? <==> out.Ok?)
    ensures |next.results| == |prev.results| + (if prev.failure.None? && out.Ok? then 1 else 0)
  {
    if prev.failure.Some? then prev
    else
      var events := prev.events + Asked(queried);
      match out
      case Err(e) => Run(prev.results, prev.secondary, events, Some(e))
      case Ok(row) => Run(prev.results + [row.result], prev.secondary + row.secondary,
                          events + [Advanced(v), Slept(Pausa)], None)
  }

  /** After an exception the loop is over: later rows change nothing. */
  lemma {:induction false} RunStops(outs: seq<Result<RowOutput, ExtractError>>, asks: seq<seq<string>>,
                                    p0: int, k: nat, n: nat)
    requires k <= n <= |outs| && n <= |asks|
    requires RunRows(outs, asks, p0, k).failure.Some?
    ensures RunRows(outs, asks, p0, n) == RunRows(outs, asks, p0, k)
    decreases n
  {
    if n > k {
      RunStops(outs, asks, p0, k, n - 1);
    }
  }

  /**
   * The result table holds row j's result at position j for every row
   * completed; the run stops only at a row whose body raised, with that
   * row's exception, and otherwise completes all k rows.
   */
  lemma {:induction false} RunResults(outs: seq<Result<RowOutput, ExtractError>>, asks: seq<seq<string>>,
                                      p0: int, k: nat)
    requires k <= |outs| && k <= |asks|
    ensures var run := RunRows(outs, asks, p0, k);
      && |run.results| <= k
      && (run.failure.None? <==> forall j | 0 <= j < k :: outs[j].Ok?)
      && (run.failure.None? ==> |run.results| == k)
      && (forall j | 0 <= j < |run.results| :: outs[j].Ok? && run.results[j] == outs[j].value.result)
      && (run.failure.Some? ==> |run.results| < k && outs[|run.results|] == Err(run.failure.value))
    decreases k
  {
    if k > 0 {
      RunResults(outs, asks, p0, k - 1);
    }
  }

  /** The secondary rows of the first `m` rows, grouped by row in row order. */
  function SecondaryUpTo(outs: seq<Result<RowOutput, ExtractError>>, m: nat): seq<Row>
    requires m <= |outs|
  {
    if m == 0 then []
    else
      SecondaryUpTo(outs, m - 1)
        + match outs[m - 1]
          case Ok(out) => out.secondary
          case Err(_) => []
  }

  /** The secondary table is the completed rows' groups, in row order. */
  lemma {:induction false} RunSecondary(outs: seq<Result<RowOutput, ExtractError>>, asks: seq<seq<string>>,
                                        p0: int, k: nat)
    requires k <= |outs| && k <= |asks|
    ensures var run := RunRows(outs, asks, p0, k);
      |run.results| <= k && run.secondary == SecondaryUpTo(outs, |run.results|)
    decreases k
  {
    if k > 0 {
      var prev := RunRows(outs, asks, p0, k - 1);
      RunSecondary(outs, asks, p0, k - 1);
      if prev.failure.None? {
        StepSecondary(prev, outs, asks[k - 1], p0 + k, k);
      }
    }
  }

  lemma StepSecondary(prev: Run, outs: seq<Result<RowOutput, ExtractError>>, queried: seq<string>, v: int, k: nat)
    requires 0 < k <= |outs| && prev.failure.None? && |prev.results| + 1 == k
    requires prev.secondary == SecondaryUpTo(outs, k - 1)
    ensures var next := Step(prev, outs[k - 1], queried, v);
      next.secondary == SecondaryUpTo(outs, if outs[k - 1].Ok? then k else k - 1)
  {
  }

  /** The values the progress bar is set to, in order. */
  function ProgressValues(events: seq<Event>): seq<int> {
    if events == [] then []
    else
      ProgressValues(events[..|events| - 1])
        + match events[|events| - 1] case Advanced(v) => [v] case _ => []
  }

  /** The number of sleeps. */
  function SleepCount(events: seq<Event>): nat {
    if events == [] then 0
    else SleepCount(events[..|events| - 1]) + (if events[|events| - 1].Slept? then 1 else 0)
  }

  /** The identifiers handed to the registry client, in order. */
  function QueriedCnpjs(events: seq<Event>): seq<string> {
    if events == [] then []
    else
      QueriedCnpjs(events[..|events| - 1])
        + match events[|events| - 1] case Queried(c) => [c] case _ => []
  }

  lemma {:induction false} TalliesAppend(a: seq<Event>, b: seq<Event>)
    ensures ProgressValues(a + b) == ProgressValues(a) + ProgressValues(b)
    ensures SleepCount(a + b) == SleepCount(a) + SleepCount(b)
    ensures QueriedCnpjs(a + b) == QueriedCnpjs(a) + QueriedCnpjs(b)
    decreases |b|
  {
    if b == [] {
      assert a + b == a;
    } else {
      var b' := b[..|b| - 1];
      assert (a + b)[..|a + b| - 1] == a + b';
      TalliesAppend(a, b');
    }
  }

  lemma {:induction false} AskedTallies(queried: seq<string>)
    ensures ProgressValues(Asked(queried)) == [] && SleepCount(Asked(queried)) == 0
    ensures QueriedCnpjs(Asked(queried)) == queried
    decreases |queried|
  {
    if queried != [] {
      AskedTallies(queried[1..]);
      TalliesAppend([Queried(queried[0])], Asked(queried[1..]));
      assert [Queried(queried[0])][..0] == [];
      assert queried == [queried[0]] + queried[1..];
    }
  }

  /** The events of a completed row add one progress value, one sleep and the row's client calls. */
  lemma CompletedRowTallies(events: seq<Event>, queried: seq<string>, v: int)
    ensures var after := events + Asked(queried) + [Advanced(v), Slept(Pausa)];
      && ProgressValues(after) == ProgressValues(events) + [v]
      && SleepCount(after) == SleepCount(events) + 1
      && QueriedCnpjs(after) == QueriedCnpjs(events) + queried
  {
    var asked := Asked(queried);
    AskedTallies(queried);
    TalliesAppend(events, asked);
    var tail: seq<Event> := [Advanced(v), Slept(Pausa)];
    PauseTallies(v);
    TalliesAppend(events + asked, tail);
  }

  lemma PauseTallies(v: int)
    ensures var tail: seq<Event> := [Advanced(v), Slept(Pausa)];
      ProgressValues(tail) == [v] && SleepCount(tail) == 1 && QueriedCnpjs(tail) == []
  {
    var tail: seq<Event> := [Advanced(v), Slept(Pausa)];
    var head: seq<Event> := [Advanced(v)];
    assert tail[..1] == head && head[..0] == [];
    assert ProgressValues(head) == [v] && SleepCount(head) == 0 && QueriedCnpjs(head) == [];
  }

  /** The events of a row that raised add only the row's client calls. */
  lemma RaisedRowTallies(events: seq<Event>, queried: seq<string>)
    ensures var after := events + Asked(queried);
      && ProgressValues(after) == ProgressValues(events)
      && SleepCount(after) == SleepCount(events)
      && QueriedCnpjs(after) == QueriedCnpjs(events) + queried
  {
    AskedTallies(queried);
    TalliesAppend(events, Asked(queried));
  }

  /** What one pass of the loop body adds to the tallies of the events. */
  lemma StepTallies(prev: Run, out: Result<RowOutput, ExtractError>, queried: seq<string>, v: int)
    requires prev.failure.None?
    ensures var next := Step(prev, out, queried, v);
      && ProgressValues(next.events) == ProgressValues(prev.events) + (if out.Ok? then [v] else [])
      && SleepCount(next.events) == SleepCount(prev.events) + (if out.Ok? then 1 else 0)
      && QueriedCnpjs(next.events) == QueriedCnpjs(prev.events) + queried
      && (next.failure.None? <==> out.Ok?)
      && |next.results| == |prev.results| + (if out.Ok? then 1 else 0)
  {
    if out.Ok? {
      CompletedRowTallies(prev.events, queried, v);
    } else {
      RaisedRowTallies(prev.events, queried);
    }
  }

  /** `1, 2, ..., m` shifted by `p0`. */
  function Counting(p0: int, m: nat): (r: seq<int>)
    ensures |r| == m
    ensures forall j | 0 <= j < m :: r[j] == p0 + j + 1
  {
    if m == 0 then [] else Counting(p0, m - 1) + [p0 + m]
  }

  /** The client calls of the first `m` rows, in order. */
  function AsksUpTo(asks: seq<seq<string>>, m: nat): seq<string>
    requires m <= |asks|
  {
    if m == 0 then [] else AsksUpTo(asks, m - 1) + asks[m - 1]
  }

  /** The bar was set to `p0 + 1, ..., p0 + n` and there were `n` sleeps, for `n` completed rows. */
  predicate Tallied(run: Run, p0: int) {
    && ProgressValues(run.events) == Counting(p0, |run.results|)
    && SleepCount(run.events) == |run.results|
  }

  lemma StepKeepsTallied(prev: Run, out: Result<RowOutput, ExtractError>, queried: seq<string>, p0: int, k: nat)
    requires Tallied(prev, p0)
    requires prev.failure.None? ==> |prev.results| + 1 == k
    ensures Tallied(Step(prev, out, queried, p0 + k), p0)
  {
    if prev.failure.None? {
      StepTallies(prev, out, queried, p0 + k);
      assert Counting(p0, k) == Counting(p0, k - 1) + [p0 + k];
    }
  }

  /**
   * The progress bar is advanced by exactly one per completed row, to
   * `p0 + 1, p0 + 2, ...`, and there is one sleep per completed row.
   */
  lemma {:induction false} RunProgress(outs: seq<Result<RowOutput, ExtractError>>, asks: seq<seq<string>>,
                                       p0: int, k: nat)
    requires k <= |outs| && k <= |asks|
    ensures Tallied(RunRows(outs, asks, p0, k), p0)
    decreases k
  {
    if k > 0 {
      RunProgress(outs, asks, p0, k - 1);
      StepKeepsTallied(RunRows(outs, asks, p0, k - 1), outs[k - 1], asks[k - 1], p0, k);
    }
  }

  /** The number of rows a run reached: those completed, and the one that raised. */
  function Reached(run: Run): nat {
    if run.failure.Some? then |run.results| + 1 else |run.results|
  }

  /** The client calls were those of the rows reached, at most `k`, in row order. */
  predicate AskedUpTo(run: Run, asks: seq<seq<string>>, k: nat) {
    Reached(run) <= k <= |asks| && QueriedCnpjs(run.events) == AsksUpTo(asks, Reached(run))
  }

  lemma StepKeepsAskedUpTo(prev: Run, out: Result<RowOutput, ExtractError>, asks: seq<seq<string>>, v: int, k: nat)
    requires 0 < k <= |asks| && AskedUpTo(prev, asks, k - 1)
    requires prev.failure.None? ==> |prev.results| + 1 == k
    ensures AskedUpTo(Step(prev, out, asks[k - 1], v), asks, k)
  {
    if prev.failure.None? {
      StepTallies(prev, out, asks[k - 1], v);
    }
  }

  /**
   * The client calls are those of the rows reached (the completed ones and
   * the one that raised), in row order.
   */
  lemma {:induction false} RunQueries(outs: seq<Result<RowOutput, ExtractError>>, asks: seq<seq<string>>,
                                      p0: int, k: nat)
    requires k <= |outs| && k <= |asks|
    ensures AskedUpTo(RunRows(outs, asks, p0, k), asks, k)
    decreases k
  {
    if k == 0 {
      assert QueriedCnpjs([]) == [];
    } else {
      RunQueries(outs, asks, p0, k - 1);
      StepKeepsAskedUpTo(RunRows(outs, asks, p0, k - 1), outs[k - 1], asks, p0 + k, k);
    }
  }

  /** Every CNPJ can be validated without `int()` raising. */
  predicate Consultable(cnpjs: seq<string>) {
    forall i | 0 <= i < |cnpjs| :: Checkable(Strip(cnpjs[i]))
  }

  /** The loop body for row `j` of the sheet: its lookup, then its outputs at clock reading `j + 1`. */
  function RowAt(cnpjs: seq<string>, client: string -> Reply, parse: string -> Option<Date>,
                 clock: nat -> int, j: nat): Result<RowOutput, ExtractError>
    requires j < |cnpjs| && Consultable(cnpjs)
  {
    RowOf(cnpjs[j], Consult(cnpjs[j], client), parse, clock(j + 1))
  }

  /** Every row's outputs. */
  function Outs(cnpjs: seq<string>, client: string -> Reply, parse: string -> Option<Date>,
                clock: nat -> int): (r: seq<Result<RowOutput, ExtractError>>)
    requires Consultable(cnpjs)
    ensures |r| == |cnpjs|
  {
    OutsUpTo(cnpjs, client, parse, clock, |cnpjs|)
  }

  /** The outputs of the first `m` rows. */
  function OutsUpTo(cnpjs: seq<string>, client: string -> Reply, parse: string -> Option<Date>,
                    clock: nat -> int, m: nat): (r: seq<Result<RowOutput, ExtractError>>)
    requires m <= |cnpjs| && Consultable(cnpjs)
    ensures |r| == m
  {
    if m == 0 then [] else OutsUpTo(cnpjs, client, parse, clock, m - 1) + [RowAt(cnpjs, client, parse, clock, m - 1)]
  }

  lemma {:induction false} OutsUpToAt(cnpjs: seq<string>, client: string -> Reply, parse: string -> Option<Date>,
                                      clock: nat -> int, m: nat, j: nat)
    requires j < m <= |cnpjs| && Consultable(cnpjs)
    ensures OutsUpTo(cnpjs, client, parse, clock, m)[j] == RowAt(cnpjs, client, parse, clock, j)
    decreases m
  {
    if j < m - 1 {
      OutsUpToAt(cnpjs, client, parse, clock, m - 1, j);
    }
  }

  /** Row `j`'s outputs are what the loop body computes for row `j`. */
  lemma OutsAt(cnpjs: seq<string>, client: string -> Reply, parse: string -> Option<Date>,
               clock: nat -> int, j: nat)
    requires j < |cnpjs| && Consultable(cnpjs)
    ensures Outs(cnpjs, client, parse, clock)[j] == RowAt(cnpjs, client, parse, clock, j)
  {
    OutsUpToAt(cnpjs, client, parse, clock, |cnpjs|, j);
  }

  /** Every row's client calls. */
  function Asks(cnpjs: seq<string>): (r: seq<seq<string>>)
    requires Consultable(cnpjs)
    ensures |r| == |cnpjs|
  {
    AsksFor(cnpjs, |cnpjs|)
  }

  /** The client calls of each of the first `m` rows, row by row. */
  function AsksFor(cnpjs: seq<string>, m: nat): (r: seq<seq<string>>)
    requires m <= |cnpjs| && Consultable(cnpjs)
    ensures |r| == m
  {
    if m == 0 then [] else AsksFor(cnpjs, m - 1) + [QueriedFor(cnpjs[m - 1])]
  }

  lemma {:induction false} AsksForAt(cnpjs: seq<string>, m: nat, j: nat)
    requires j < m <= |cnpjs| && Consultable(cnpjs)
    ensures AsksFor(cnpjs, m)[j] == QueriedFor(cnpjs[j])
    decreases m
  {
    if j < m - 1 {
      AsksForAt(cnpjs, m - 1, j);
    }
  }

  /** Row `j`'s client calls are those the lookup of row `j` makes. */
  lemma AsksAt(cnpjs: seq<string>, j: nat)
    requires j < |cnpjs| && Consultable(cnpjs)
    ensures Asks(cnpjs)[j] == QueriedFor(cnpjs[j])
  {
    AsksForAt(cnpjs, |cnpjs|, j);
  }

  /** The batch over a CNPJ column, starting from progress value `p0`. */
  function Batch(cnpjs: seq<string>, client: string -> Reply, parse: string -> Option<Date>,
                 clock: nat -> int, p0: int): (run: Run)
    requires Consultable(cnpjs)
    ensures |run.results| <= |cnpjs|
    ensures run.failure.None? ==> |run.results| == |cnpjs|
  {
    RunRows(Outs(cnpjs, client, parse, clock), Asks(cnpjs), p0, |cnpjs|)
  }

  /** `len(extrair_cnaes_secundarios(result))` for one lookup, when it can be iterated. */
  function CnaesOf(o: Outcome): nat {
    match Elements(ExtrairCnaesSecundarios(o), "codigo")
    case Ok(items) => |items|
    case Err(_) => 0
  }

  /** Each row's number of secondary activities. */
  function CnaesCounts(cnpjs: seq<string>, client: string -> Reply): (r: seq<nat>)
    requires Consultable(cnpjs)
    ensures |r| == |cnpjs|
    ensures forall j | 0 <= j < |cnpjs| :: r[j] == CnaesOf(Consult(cnpjs[j], client))
  {
    seq(|cnpjs|, j requires 0 <= j < |cnpjs| && Consultable(cnpjs) => CnaesOf(Consult(cnpjs[j], client)))
  }

  /** The sum of the first `m` counts. */
  function Total(counts: seq<nat>, m: nat): nat
    requires m <= |counts|
  {
    if m == 0 then 0 else Total(counts, m - 1) + counts[m - 1]
  }

  /** The secondary rows of the first `m` rows number the sum of the rows' own counts. */
  lemma {:induction false} SecondaryCount(outs: seq<Result<RowOutput, ExtractError>>, counts: seq<nat>, m: nat)
    requires m <= |outs| && m <= |counts|
    requires forall j | 0 <= j < m :: outs[j].Ok? && |outs[j].value.secondary| == counts[j]
    ensures |SecondaryUpTo(outs, m)| == Total(counts, m)
    decreases m
  {
    if m > 0 {
      SecondaryCount(outs, counts, m - 1);
    }
  }

  /**
   * A completed row of a batch carries its CNPJ as typed, the status label
   * of its own lookup and exactly that lookup's `extrair_dados` fields, and
   * contributes one secondary row per secondary activity.
   */
  lemma RowAtFields(cnpjs: seq<string>, client: string -> Reply, parse: string -> Option<Date>,
                    clock: nat -> int, j: nat)
    requires j < |cnpjs| && Consultable(cnpjs)
    requires RowAt(cnpjs, client, parse, clock, j).Ok?
    ensures var row := RowAt(cnpjs, client, parse, clock, j).value;
      var o := Consult(cnpjs[j], client);
      && row.result[ColCnpj] == Value(Text(cnpjs[j]))
      && row.result[ColResultado] == Value(Text(ProcessarConsulta(o)))
      && ExtrairDados(o, parse).Ok?
      && row.result.Keys == HeaderKeys + ExtrairDados(o, parse).value.Keys
      && (forall k | k in ExtrairDados(o, parse).value :: row.result[k] == ExtrairDados(o, parse).value[k])
      && |row.secondary| == CnaesOf(o)
  {
    RowOfFields(cnpjs[j], Consult(cnpjs[j], client), parse, clock(j + 1));
  }

  /**
   * A batch completes exactly when no row raises; a completed batch has one
   * result row per CNPJ, in input order, each being that row's own result,
   * and as many secondary rows as the rows' secondary activities together.
   */
  lemma BatchTables(cnpjs: seq<string>, client: string -> Reply, parse: string -> Option<Date>,
                    clock: nat -> int, p0: int)
    requires Consultable(cnpjs)
    ensures var run := Batch(cnpjs, client, parse, clock, p0);
      && (run.failure.None? <==> forall j | 0 <= j < |cnpjs| :: RowAt(cnpjs, client, parse, clock, j).Ok?)
      && (run.failure.None? ==>
          && |run.results| == |cnpjs|
          && (forall j | 0 <= j < |cnpjs| :: run.results[j] == RowAt(cnpjs, client, parse, clock, j).value.result)
          && |run.secondary| == Total(CnaesCounts(cnpjs, client), |cnpjs|))
  {
    var outs, asks := Outs(cnpjs, client, parse, clock), Asks(cnpjs);
    var run := Batch(cnpjs, client, parse, clock, p0);
    forall j | 0 <= j < |cnpjs|
      ensures outs[j] == RowAt(cnpjs, client, parse, clock, j)
    {
      OutsAt(cnpjs, client, parse, clock, j);
    }
    RunResults(outs, asks, p0, |cnpjs|);
    RunSecondary(outs, asks, p0, |cnpjs|);
    if run.failure.None? {
      var counts := CnaesCounts(cnpjs, client);
      forall j | 0 <= j < |cnpjs|
        ensures outs[j].Ok? && |outs[j].value.secondary| == counts[j]
      {
        RowAtFields(cnpjs, client, parse, clock, j);
      }
      SecondaryCount(outs, counts, |cnpjs|);
    }
  }

  /** When no lookup succeeds, the batch completes with a bare row per CNPJ and no secondary rows. */
  lemma AllUnsuccessfulComplete(cnpjs: seq<string>, client: string -> Reply, parse: string -> Option<Date>,
                                clock: nat -> int, p0: int)
    requires Consultable(cnpjs)
    requires forall j | 0 <= j < |cnpjs| :: !Consult(cnpjs[j], client).Success?
    ensures var run := Batch(cnpjs, client, parse, clock, p0);
      && run.failure.None?
      && |run.results| == |cnpjs|
      && (forall j | 0 <= j < |cnpjs| :: run.results[j] == Header(cnpjs[j], clock(j + 1), Consult(cnpjs[j], client)))
      && run.secondary == []
  {
    var outs, asks := Outs(cnpjs, client, parse, clock), Asks(cnpjs);
    forall j | 0 <= j < |cnpjs|
      ensures outs[j] == Ok(RowOutput(Header(cnpjs[j], clock(j + 1), Consult(cnpjs[j], client)), []))
    {
      OutsAt(cnpjs, client, parse, clock, j);
      NonSuccessRowCompletes(cnpjs[j], Consult(cnpjs[j], client), parse, clock(j + 1));
    }
    RunResults(outs, asks, p0, |cnpjs|);
    RunSecondary(outs, asks, p0, |cnpjs|);
    NoSecondary(outs, |cnpjs|);
  }

  lemma {:induction false} NoSecondary(outs: seq<Result<RowOutput, ExtractError>>, m: nat)
    requires m <= |outs|
    requires forall j | 0 <= j < m :: outs[j].Ok? && |outs[j].value.secondary| == 0
    ensures |SecondaryUpTo(outs, m)| == 0
    decreases m
  {
    if m > 0 {
      NoSecondary(outs, m - 1);
    }
  }

  lemma {:induction false} AsksUpToValid(cnpjs: seq<string>, m: nat, q: string)
    requires Consultable(cnpjs) && m <= |cnpjs|
    requires q in AsksUpTo(Asks(cnpjs), m)
    ensures exists j | 0 <= j < m :: q == Strip(cnpjs[j]) && IsValidCnpj(Strip(cnpjs[j]))
    decreases m
  {
    var asks := Asks(cnpjs);
    if q in AsksUpTo(asks, m - 1) {
      AsksUpToValid(cnpjs, m - 1, q);
    } else {
      AsksAt(cnpjs, m - 1);
      assert q in asks[m - 1];
    }
  }

  /**
   * Only valid identifiers, after stripping, are handed to the client; the
   * bar moves 1, 2, ... from an empty start, never past the number of rows,
   * and there is one sleep per completed row.
   */
  lemma BatchEffects(cnpjs: seq<string>, client: string -> Reply, parse: string -> Option<Date>,
                     clock: nat -> int)
    requires Consultable(cnpjs)
    ensures var run := Batch(cnpjs, client, parse, clock, 0);
      && (forall q | q in QueriedCnpjs(run.events) ::
            exists j | 0 <= j < |cnpjs| :: q == Strip(cnpjs[j]) && IsValidCnpj(Strip(cnpjs[j])))
      && ProgressValues(run.events) == Counting(0, |run.results|)
      && (forall j | 0 <= j < |ProgressValues(run.events)| :: ProgressValues(run.events)[j] == j + 1 <= |cnpjs|)
      && SleepCount(run.events) == |run.results|
  {
    var outs, asks := Outs(cnpjs, client, parse, clock), Asks(cnpjs);
    var run := Batch(cnpjs, client, parse, clock, 0);
    RunProgress(outs, asks, 0, |cnpjs|);
    RunQueries(outs, asks, 0, |cnpjs|);
    forall q | q in QueriedCnpjs(run.events)
      ensures exists j | 0 <= j < |cnpjs| :: q == Strip(cnpjs[j]) && IsValidCnpj(Strip(cnpjs[j]))
    {
      AsksUpToValid(cnpjs, Reached(run), q);
    }
  }

  /** The progress bar widget: its value and maximum are set in place. */
  class ProgressBar {
    var value: int
    var maximum: int

    constructor ()
      ensures value == 0 && maximum == 100
    {
      value := 0;
      maximum := 100;
    }
  }

  /** What a batch leaves behind. */
  datatype BatchOutcome =
    | NoCnpjColumn                                    // the sheet was refused before anything ran
    | Aborted(error: ExtractError)                    // an exception escaped; nothing was written
    | Written(resultados: seq<Row>, cnaes: seq<Row>)  // both tables, handed to the writer

  /**
   * `consulta_lote` once the file is chosen and read: check the column,
   * announce the estimate, then for every row look it up, append its result
   * row and its secondary rows, advance the bar and sleep; reset the bar once
   * both tables are written.
   */
  method ConsultaLote(sheet: Sheet, client: string -> Reply, parse: string -> Option<Date>,
                      clock: nat -> int, progress: ProgressBar)
    returns (out: BatchOutcome, events: seq<Event>)
    requires Rectangular(sheet)
    requires "CNPJ" in sheet.columns ==> Consultable(CnpjColumn(sheet))
    modifies progress
    ensures ValidarPlanilha(sheet).None? ==>
      out == NoCnpjColumn && events == [] && progress.value == old(progress.value) && progress.maximum == old(progress.maximum)
    ensures ValidarPlanilha(sheet).Some? ==>
      var cnpjs := CnpjColumn(sheet);
      var run := Batch(cnpjs, client, parse, clock, old(progress.value));
      && events == [Announced(Estimativa(clock(0), |cnpjs|))] + run.events
      && progress.maximum == |cnpjs|
      && (run.failure.None? ==> out == Written(run.results, run.secondary) && progress.value == 0)
      && (run.failure.Some? ==> out == Aborted(run.failure.value) && progress.value == old(progress.value) + |run.results|)
  {
    var df := ValidarPlanilha(sheet);
    if df.None? {
      return NoCnpjColumn, [];
    }
    var cnpjs := CnpjColumn(sheet);
    var previsao := Estimativa(clock(0), |cnpjs|);
    progress.maximum := |cnpjs|;
    var rest;
    out, rest := Percorrer(cnpjs, client, parse, clock, progress);
    events := [Announced(previsao)] + rest;
  }

  /** Row `i`'s pass of the loop body takes the run over `i` rows to the run over `i + 1` rows. */
  lemma BatchStep(cnpjs: seq<string>, client: string -> Reply, parse: string -> Option<Date>,
                  clock: nat -> int, p0: int, i: nat, linha: Result<RowOutput, ExtractError>, queried: seq<string>)
    requires i < |cnpjs| && Consultable(cnpjs)
    requires linha == RowOf(cnpjs[i], Consult(cnpjs[i], client), parse, clock(i + 1))
    requires queried == QueriedFor(cnpjs[i])
    ensures var outs, asks := Outs(cnpjs, client, parse, clock), Asks(cnpjs);
      RunRows(outs, asks, p0, i + 1) == Step(RunRows(outs, asks, p0, i), linha, queried, p0 + i + 1)
  {
    OutsAt(cnpjs, client, parse, clock, i);
    AsksAt(cnpjs, i);
  }

  /**
   * The loop of `consulta_lote` over the CNPJ column, from the bar's current
   * value; the bar is reset once both tables are written, and left where
   * the loop stopped when a row raised.
   */
  method Percorrer(cnpjs: seq<string>, client: string -> Reply, parse: string -> Option<Date>,
                   clock: nat -> int, progress: ProgressBar)
    returns (out: BatchOutcome, events: seq<Event>)
    requires Consultable(cnpjs)
    modifies progress
    ensures var run := Batch(cnpjs, client, parse, clock, old(progress.value));
      && events == run.events
      && progress.maximum == old(progress.maximum)
      && (run.failure.None? ==> out == Written(run.results, run.secondary) && progress.value == 0)
      && (run.failure.Some? ==> out == Aborted(run.failure.value) && progress.value == old(progress.value) + |run.results|)
  {
    ghost var p0 := progress.value;
    ghost var outs, asks := Outs(cnpjs, client, parse, clock), Asks(cnpjs);
    var resultados: seq<Row> := [];
    var cnaesSecundarios: seq<Row> := [];
    var erro: Option<ExtractError> := None;
    events := [];
    var i := 0;
    while i < |cnpjs| && erro.None?
      invariant 0 <= i <= |cnpjs|
      invariant RunRows(outs, asks, p0, i) == Run(resultados, cnaesSecundarios, events, erro)
      invariant progress.value == p0 + |resultados| && progress.maximum == old(progress.maximum)
      invariant erro.None? ==> |resultados| == i
    {
      resultados, cnaesSecundarios, events, erro :=
        Passo(cnpjs, client, parse, clock, p0, i, progress.value + 1, resultados, cnaesSecundarios, events);
      if erro.None? {
        progress.value := progress.value + 1;
      }
      i := i + 1;
    }
    if erro.Some? {
      RunStops(outs, asks, p0, i, |cnpjs|);
      out := Aborted(erro.value);
    } else {
      progress.value := 0;
      out := Written(resultados, cnaesSecundarios);
    }
  }

  /**
   * One pass of the loop body over row `i`: the lookup and the client calls
   * it makes, then the row's result and secondary rows appended and the bar
   * value `valor` announced, or the exception that ends the loop.
   */
  method Passo(cnpjs: seq<string>, client: string -> Reply, parse: string -> Option<Date>, clock: nat -> int,
               ghost p0: int, i: nat, valor: int, resultados: seq<Row>, cnaesSecundarios: seq<Row>, events: seq<Event>)
    returns (resultados': seq<Row>, cnaesSecundarios': seq<Row>, events': seq<Event>, erro: Option<ExtractError>)
    requires i < |cnpjs| && Consultable(cnpjs) && valor == p0 + i + 1
    requires RunRows(Outs(cnpjs, client, parse, clock), Asks(cnpjs), p0, i)
      == Run(resultados, cnaesSecundarios, events, None)
    ensures RunRows(Outs(cnpjs, client, parse, clock), Asks(cnpjs), p0, i + 1)
      == Run(resultados', cnaesSecundarios', events', erro)
  {
    var linha, queried := ProcessarLinha(cnpjs[i], client, parse, clock(i + 1));
    BatchStep(cnpjs, client, parse, clock, p0, i, linha, queried);
    events' := events + Asked(queried);
    if linha.Err? {
      return resultados, cnaesSecundarios, events', Some(linha.error);
    }
    resultados' := resultados + [linha.value.result];
    cnaesSecundarios' := cnaesSecundarios + linha.value.secondary;
    events' := events' + [Advanced(valor), Slept(Pausa)];
    erro := None;
  }

  /**
   * The loop body for one row (main.py lines 49-67): look it up, build its
   * result row, then collect its secondary rows; an exception from the
   * extraction or the secondary loop is returned as an error.
   */
  method ProcessarLinha(cnpj: string, client: string -> Reply, parse: string -> Option<Date>, at: int)
    returns (linha: Result<RowOutput, ExtractError>, queried: seq<string>)
    requires Checkable(Strip(cnpj))
    ensures linha == RowOf(cnpj, Consult(cnpj, client), parse, at)
    ensures queried == QueriedFor(cnpj)
  {
    var resultado;
    resultado, queried := ConsultarCnpj(cnpj, client);
    var dados := ExtrairDados(resultado, parse);
    if dados.Err? {
      return Err(dados.error), queried;
    }
    var rowResult := map[ColCnpj := Value(Text(cnpj)), ColDataProcessamento := Moment(at),
                         ColResultado := Value(Text(ProcessarConsulta(resultado)))] + dados.value;
    var cnaes := Elements(ExtrairCnaesSecundarios(resultado), "codigo");
    if cnaes.Err? {
      return Err(cnaes.error), queried;
    }
    var secundarias := LinhasSecundarias(cnpj, cnaes.value);
    if secundarias.Err? {
      return Err(secundarias.error), queried;
    }
    linha := Ok(RowOutput(rowResult, secundarias.value));
  }

  /** The inner loop over `extrair_cnaes_secundarios`: one row per entry, or the first exception. */
  method LinhasSecundarias(cnpj: string, items: seq<Json>) returns (r: Result<seq<Row>, ExtractError>)
    ensures r == SecondaryRows(cnpj, items)
  {
    var linhas: seq<Row> := [];
    var j := 0;
    while j < |items|
      invariant 0 <= j <= |items|
      invariant SecondaryRows(cnpj, items[..j]) == Ok(linhas)
    {
      var linha := SecondaryRow(cnpj, items[j]);
      assert items[..j + 1][..j] == items[..j];
      if linha.Err? {
        SecondaryRowsErrPrefix(cnpj, items, j + 1);
        return Err(linha.error);
      }
      linhas := linhas + [linha.value];
      j := j + 1;
    }
    assert items[..j] == items;
    return Ok(linhas);
  }
}
