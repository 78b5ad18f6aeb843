/** The payment statement (demonstrativo de análise de contas) once the
    spreadsheet has been read (app.py `ler_demonstrativo_pagto_xlsx`), and
    the bank of statements accumulated across uploads (`_agg_demo`,
    `_add_to_demo_bank`, `_clear_demo_bank`). A statement reduces to rows
    keyed by (normalised lot, competência) holding the presented, approved
    and disallowed amounts and a line count. */
module Statement {
  import opened Wrappers
  import opened Text
  import opened Decimals
  import opened Accumulation
  import opened Grouping
  import opened Lote

  /** A spreadsheet cell as pandas holds it: empty (NaN), or a value kept
      as its text `str(v)`. */
  datatype Cell = Empty | Value(text: string)

  /** `str(v)`: an empty cell prints as "nan". */
  function CellText(c: Cell): string {
    if c.Empty? then "nan" else c.text
  }

  datatype StatementError =
    | HeaderNotFound                      // no row starts with "CPF/CNPJ"
    | MissingColumns(columns: seq<string>) // the required columns absent, in order

  /** (numero_lote, competencia). */
  type DemoKey = (Option<string>, string)

  datatype DemoTotals = DemoTotals(apresentado: real, apurado: real, glosa: real, linhas: nat)

  /** One row of the statement table, or of the bank. */
  type DemoRow = (DemoKey, DemoTotals)

  const HeaderMarker: string := "CPF/CNPJ"
  const ColLote: string := "Lote"
  const ColCompetencia: string := "Compet\U{EA}ncia"
  const ColApresentado: string := "Valor Apresentado"
  const ColApurado: string := "Valor Apurado"
  const ColGlosa: string := "Valor Glosa"

  /** The columns a statement must have, in the order they are reported. */
  const Need: seq<string> := [ColLote, ColCompetencia, ColApresentado, ColApurado, ColGlosa]

  // ---- reading the sheet ----

  /** The cell in column `j`; a short row reads as empty cells. */
  function At(row: seq<Cell>, j: nat): Cell {
    if j < |row| then row[j] else Empty
  }

  /** The first column, as text and stripped, is "CPF/CNPJ". */
  predicate IsHeaderRow(row: seq<Cell>) {
    Strip(CellText(At(row, 0))) == HeaderMarker
  }

  /** Position of column `name` in the header row, `|header|` if absent. */
  function ColumnIndex(header: seq<Cell>, name: string): nat {
    FirstWhere(header, (c: Cell) => c == Value(name))
  }

  function MissingIn(header: seq<Cell>): string -> bool {
    name => ColumnIndex(header, name) == |header|
  }

  /** `faltando`: the required columns the header lacks, in order. */
  function Missing(header: seq<Cell>): seq<string> {
    Filter(Need, MissingIn(header))
  }

  datatype Columns = Columns(lote: nat, competencia: nat, apresentado: nat, apurado: nat, glosa: nat)

  function ColumnsOf(header: seq<Cell>): Columns {
    Columns(ColumnIndex(header, ColLote), ColumnIndex(header, ColCompetencia),
            ColumnIndex(header, ColApresentado), ColumnIndex(header, ColApurado),
            ColumnIndex(header, ColGlosa))
  }

  /** `pd.to_numeric(errors='coerce').fillna(0.0)` on one cell. */
  function Coerce(c: Cell): real {
    match c
    case Empty => 0.0
    case Value(s) => match ParseDecimal(s) case Some(v) => v case None => 0.0
  }

  /** The lot cell, normalised by `_norm_lote`. */
  function LoteOf(c: Cell): Option<string> {
    NormLote(if c.Empty? then None else Some(c.text))
  }

  /** One data row reduced to its key and amounts; it counts as a line when
      its lot cell is not empty (`LinhasOfRow`: exactly when it has a lot). */
  function DemoRowOf(row: seq<Cell>, cols: Columns): DemoRow {
    var c := At(row, cols.lote);
    ((LoteOf(c), Strip(CellText(At(row, cols.competencia)))),
     DemoTotals(Coerce(At(row, cols.apresentado)), Coerce(At(row, cols.apurado)),
                Coerce(At(row, cols.glosa)), if c.Empty? then 0 else 1))
  }

  function DemoRowFn(cols: Columns): seq<Cell> -> DemoRow {
    row => DemoRowOf(row, cols)
  }

  function AddTotals(a: DemoTotals, b: DemoTotals): DemoTotals {
    DemoTotals(a.apresentado + b.apresentado, a.apurado + b.apurado, a.glosa + b.glosa, a.linhas + b.linhas)
  }

  /** The group-by-sum on (numero_lote, competencia) that both the statement
      reader and `_agg_demo` perform; an empty table stays empty. */
  function AggDemo(xs: seq<DemoRow>): (r: seq<DemoRow>)
    ensures xs == [] ==> r == []
  {
    GroupBy(xs, AddTotals)
  }

  /** `ler_demonstrativo_pagto_xlsx` after `read_excel`: `raw` are the rows
      pandas returns. The header is the first row whose first cell reads
      "CPF/CNPJ". */
  function ReadStatement(raw: seq<seq<Cell>>): Result<seq<DemoRow>, StatementError> {
    var h := FirstWhere(raw, IsHeaderRow);
    if h == |raw| then Err(HeaderNotFound) else FromHeader(raw[h], raw[h + 1..])
  }

  /** The rows after the header are grouped once the five required columns
      are known to exist. */
  function FromHeader(header: seq<Cell>, data: seq<seq<Cell>>): Result<seq<DemoRow>, StatementError> {
    var missing := Missing(header);
    if missing != [] then Err(MissingColumns(missing)) else Ok(Grouped(data, ColumnsOf(header)))
  }

  /** The data rows reduced and grouped by (lot, competência), one row at a
      time; `GroupedSpec` shows this is `AggDemo` of the reduced rows. */
  function Grouped(data: seq<seq<Cell>>, cols: Columns): seq<DemoRow> {
    GroupMap(data, DemoRowFn(cols), AddTotals)
  }

  // ---- the bank ----

  /** The statements accumulated in the session. */
  class DemoBank {
    var rows: seq<DemoRow>

    /** At most one row per (lot, competência). */
    ghost predicate Valid()
      reads this
    {
      UniqueKeys(rows)
    }

    constructor ()
      ensures rows == [] && Valid()
    {
      rows := [];
    }

    /** `_add_to_demo_bank`: append the new rows and regroup. */
    method Add(demoNew: seq<DemoRow>)
      modifies this
      ensures rows == AggDemo(old(rows) + demoNew)
      ensures Valid()
    {
      rows := AggDemo(rows + demoNew);
      AggDemoUnique(old(rows) + demoNew);
    }

    /** `demo_bank.copy()`: the statement rows the reconciliation joins
        against, at most one per (lot, competência). */
    method Snapshot() returns (r: seq<DemoRow>)
      requires Valid()
      ensures r == rows && UniqueKeys(r)
    {
      r := rows;
    }

    /** `_clear_demo_bank`. */
    method Clear()
      modifies this
      ensures rows == [] && Valid()
    {
      rows := [];
    }
  }

  // ---- properties ----

  /** Grouped rows have one row per (lot, competência), holding the sum of
      the rows with that key, and a key appears exactly when some row has
      it. */
  lemma {:induction false} AggDemoUnique(xs: seq<DemoRow>)
    ensures UniqueKeys(AggDemo(xs))
    ensures GroupsOf(AggDemo(xs), xs, AddTotals)
  {
    GroupBySpec(xs, AddTotals);
  }

  /** Adding statement A and then statement B leaves the bank as adding
      A ++ B at once. */
  lemma {:induction false} AddTwice(bank: seq<DemoRow>, a: seq<DemoRow>, b: seq<DemoRow>)
    ensures AggDemo(AggDemo(bank + a) + b) == AggDemo(bank + (a + b))
  {
    GroupByAppend(bank + a, b, AddTotals);
    assert bank + a + b == bank + (a + b);
  }

  /** Regrouping a grouped table changes nothing, so adding nothing leaves
      the bank as it is. */
  lemma {:induction false} AggDemoIdempotent(xs: seq<DemoRow>)
    ensures AggDemo(AggDemo(xs)) == AggDemo(xs)
  {
    GroupBySpec(xs, AddTotals);
    GroupByUnique(AggDemo(xs), AddTotals);
  }

  function Apresentado(t: DemoTotals): real { t.apresentado }
  function Apurado(t: DemoTotals): real { t.apurado }
  function Glosa(t: DemoTotals): real { t.glosa }
  function Linhas(t: DemoTotals): real { t.linhas as real }

  /** Grouping loses no amount and no line: every column of the grouped
      table adds up to the same column of the rows. */
  lemma {:induction false} AggDemoTotals(xs: seq<DemoRow>)
    ensures SumBy(AggDemo(xs), Apresentado) == SumBy(xs, Apresentado)
    ensures SumBy(AggDemo(xs), Apurado) == SumBy(xs, Apurado)
    ensures SumBy(AggDemo(xs), Glosa) == SumBy(xs, Glosa)
    ensures SumBy(AggDemo(xs), Linhas) == SumBy(xs, Linhas)
  {
    GroupBySum(xs, AddTotals, Apresentado);
    GroupBySum(xs, AddTotals, Apurado);
    GroupBySum(xs, AddTotals, Glosa);
    GroupBySum(xs, AddTotals, Linhas);
  }

  /** The statement is rejected for want of a header exactly when no row's
      first cell reads "CPF/CNPJ"; otherwise it is read from the first such
      row on, and rejected exactly when a required column is missing, naming
      the missing columns in the required order. */
  lemma {:induction false} ReadStatementErrors(raw: seq<seq<Cell>>)
    ensures ReadStatement(raw) == Err(HeaderNotFound) <==> forall i :: 0 <= i < |raw| ==> !IsHeaderRow(raw[i])
    ensures var h := FirstWhere(raw, IsHeaderRow);
      h < |raw| ==> ReadStatement(raw) == FromHeader(raw[h], raw[h + 1..])
  {
    HeaderNotFoundIff(raw);
    ReadFromHeader(raw);
  }

  lemma {:induction false} HeaderNotFoundIff(raw: seq<seq<Cell>>)
    ensures ReadStatement(raw) == Err(HeaderNotFound) <==> forall i :: 0 <= i < |raw| ==> !IsHeaderRow(raw[i])
  {
    var h := FirstWhere(raw, IsHeaderRow);
    FirstWhereFirst(raw, IsHeaderRow);
    if h < |raw| {
      ReadFromHeader(raw);
      FromHeaderFindsHeader(raw[h], raw[h + 1..]);
      assert IsHeaderRow(raw[h]);
    }
  }

  lemma {:induction false} ReadFromHeader(raw: seq<seq<Cell>>)
    ensures var h := FirstWhere(raw, IsHeaderRow);
      h < |raw| ==> ReadStatement(raw) == FromHeader(raw[h], raw[h + 1..])
  {
  }

  /** Past the header, the only failure is a missing column. */
  lemma {:induction false} FromHeaderFindsHeader(header: seq<Cell>, data: seq<seq<Cell>>)
    ensures FromHeader(header, data) != Err(HeaderNotFound)
  {
  }

  /** The columns reported missing are all the required columns the header
      lacks and nothing else. */
  lemma {:induction false} MissingSpec(header: seq<Cell>)
    ensures forall name :: name in Need && ColumnIndex(header, name) == |header| ==> name in Missing(header)
    ensures forall name :: name in Missing(header) ==> name in Need && ColumnIndex(header, name) == |header|
  {
    var ms := Missing(header);
    forall name | name in Need && ColumnIndex(header, name) == |header| ensures name in ms {
      var k :| 0 <= k < |Need| && Need[k] == name;
      assert MissingIn(header)(Need[k]);
    }
    forall name | name in ms ensures name in Need && ColumnIndex(header, name) == |header| {
      var k :| 0 <= k < |ms| && ms[k] == name;
      assert MissingIn(header)(ms[k]);
    }
  }

  /** Past its header, a statement is read exactly when it has every
      required column, and then it is the groups of the rows after the
      header. */
  lemma {:induction false} FromHeaderOk(header: seq<Cell>, data: seq<seq<Cell>>)
    ensures FromHeader(header, data).Ok? <==> forall name :: name in Need ==> ColumnIndex(header, name) < |header|
    ensures FromHeader(header, data).Ok? ==> FromHeader(header, data).value == Grouped(data, ColumnsOf(header))
    ensures FromHeader(header, data).Err? ==> FromHeader(header, data) == Err(MissingColumns(Missing(header)))
  {
    MissingSpec(header);
    if Missing(header) != [] {
      assert Missing(header)[0] in Missing(header);
    }
  }

  /** The sum of column `j` over the data rows, each cell coerced. */
  function ColumnSum(rows: seq<seq<Cell>>, j: nat): real {
    if rows == [] then 0.0 else ColumnSum(rows[..|rows| - 1], j) + Coerce(At(rows[|rows| - 1], j))
  }

  /** The number of data rows whose lot cell is not empty. */
  function CountLote(rows: seq<seq<Cell>>, j: nat): nat {
    if rows == [] then 0 else CountLote(rows[..|rows| - 1], j) + (if At(rows[|rows| - 1], j).Empty? then 0 else 1)
  }

  /** Every amount of a statement that is read is accounted for: each
      column of the table sums to the coerced column of the data rows, and
      the lines add up to the number of rows with a lot. */
  lemma {:induction false} FromHeaderTotals(header: seq<Cell>, data: seq<seq<Cell>>)
    requires FromHeader(header, data).Ok?
    ensures var cols := ColumnsOf(header);
      && SumBy(FromHeader(header, data).value, Apresentado) == ColumnSum(data, cols.apresentado)
      && SumBy(FromHeader(header, data).value, Apurado) == ColumnSum(data, cols.apurado)
      && SumBy(FromHeader(header, data).value, Glosa) == ColumnSum(data, cols.glosa)
      && SumBy(FromHeader(header, data).value, Linhas) == CountLote(data, cols.lote) as real
  {
    GroupedTotals(data, ColumnsOf(header));
  }

  /** The statement table is the group-by-sum of its reduced rows, so it has
      one row per (lot, competência) holding the sum of that key's rows. */
  lemma {:induction false} GroupedSpec(data: seq<seq<Cell>>, cols: Columns)
    ensures Grouped(data, cols) == AggDemo(MapSeq(data, DemoRowFn(cols)))
    ensures GroupsOf(Grouped(data, cols), MapSeq(data, DemoRowFn(cols)), AddTotals)
  {
    GroupMapSpec(data, DemoRowFn(cols), AddTotals);
    AggDemoUnique(MapSeq(data, DemoRowFn(cols)));
  }

  lemma {:induction false} GroupedTotals(data: seq<seq<Cell>>, cols: Columns)
    ensures var gs := Grouped(data, cols);
      && SumBy(gs, Apresentado) == ColumnSum(data, cols.apresentado)
      && SumBy(gs, Apurado) == ColumnSum(data, cols.apurado)
      && SumBy(gs, Glosa) == ColumnSum(data, cols.glosa)
      && SumBy(gs, Linhas) == CountLote(data, cols.lote) as real
  {
    var f := DemoRowFn(cols);
    GroupMapSum(data, f, AddTotals, Apresentado);
    GroupMapSum(data, f, AddTotals, Apurado);
    GroupMapSum(data, f, AddTotals, Glosa);
    GroupMapSum(data, f, AddTotals, Linhas);
    RowSums(data, cols);
  }

  /** The columns of the reduced rows are the coerced cells, and the line
      counts are the rows with a lot cell. */
  lemma {:induction false} RowSums(data: seq<seq<Cell>>, cols: Columns)
    ensures var f := DemoRowFn(cols);
      && SumMap(data, f, Apresentado) == ColumnSum(data, cols.apresentado)
      && SumMap(data, f, Apurado) == ColumnSum(data, cols.apurado)
      && SumMap(data, f, Glosa) == ColumnSum(data, cols.glosa)
      && SumMap(data, f, Linhas) == CountLote(data, cols.lote) as real
  {
    RowApresentado(data, cols);
    RowApurado(data, cols);
    RowGlosa(data, cols);
    RowLinhas(data, cols);
  }

  lemma {:induction false} RowApresentado(data: seq<seq<Cell>>, cols: Columns)
    ensures SumMap(data, DemoRowFn(cols), Apresentado) == ColumnSum(data, cols.apresentado)
  {
    if data != [] {
      RowApresentado(data[..|data| - 1], cols);
    }
  }

  lemma {:induction false} RowApurado(data: seq<seq<Cell>>, cols: Columns)
    ensures SumMap(data, DemoRowFn(cols), Apurado) == ColumnSum(data, cols.apurado)
  {
    if data != [] {
      RowApurado(data[..|data| - 1], cols);
    }
  }

  lemma {:induction false} RowGlosa(data: seq<seq<Cell>>, cols: Columns)
    ensures SumMap(data, DemoRowFn(cols), Glosa) == ColumnSum(data, cols.glosa)
  {
    if data != [] {
      RowGlosa(data[..|data| - 1], cols);
    }
  }

  lemma {:induction false} RowLinhas(data: seq<seq<Cell>>, cols: Columns)
    ensures SumMap(data, DemoRowFn(cols), Linhas) == CountLote(data, cols.lote) as real
  {
    if data != [] {
      RowLinhas(data[..|data| - 1], cols);
    }
  }

  /** A row counts as a line exactly when it has a lot: `count` skips the
      rows whose normalised lot is missing. */
  lemma {:induction false} LinhasOfRow(row: seq<Cell>, cols: Columns)
    ensures DemoRowOf(row, cols).1.linhas == 1 <==> DemoRowOf(row, cols).0.0.Some?
    ensures DemoRowOf(row, cols).1.linhas == 0 <==> DemoRowOf(row, cols).0.0.None?
  {
    var c := At(row, cols.lote);
    NormLoteNone(if c.Empty? then None else Some(c.text));
  }
}
