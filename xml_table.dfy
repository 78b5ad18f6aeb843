/** The table of parsed XML files as the reconciliation screen builds it
    (app.py): one record per file, the columns `_df_format` derives from it
    in place, and the per-(lot, kind) aggregate of `_make_agg`. */
module XmlTable {
  import opened Wrappers
  import opened Text
  import opened Accumulation
  import opened Grouping
  import opened Lote
  import opened TissParser

  /** One formatted row, reduced to the columns the reconciliation reads. */
  datatype XmlRow = XmlRow(
    arquivo: string,
    tipo: string,
    numeroLote: string,
    qtdeGuias: nat,
    valorTotal: real,
    loteArquivo: Option<string>)

  /** `suspeito`: guides were counted but they add up to nothing. */
  predicate Suspeito(r: Record) {
    r.qtdeGuias > 0 && r.valorTotal == 0.0
  }

  /** `lote_arquivo`: the lot in the file's name. */
  function LoteArquivoOf(r: Record): Option<string> {
    ExtractLoteFromFilename(Some(r.arquivo))
  }

  /** `lote_confere`: the lot in the file's name, missing read as '', is the
      lot inside the file. */
  predicate LoteConfere(r: Record) {
    LoteArquivoOf(r).GetOr("") == r.numeroLote
  }

  /** The DataFrame of parsed files, column by column. */
  class XmlFrame {
    var records: seq<Record>
    var loteArquivo: seq<Option<string>>
    var suspeito: seq<bool>
    var loteConfere: seq<bool>

    /** `pd.DataFrame(resultados)`: the records, no derived column yet. */
    constructor (rs: seq<Record>)
      ensures records == rs && loteArquivo == [] && suspeito == [] && loteConfere == []
    {
      records := rs;
      loteArquivo := [];
      suspeito := [];
      loteConfere := [];
    }

    /** Every derived column has a value per record. */
    predicate Formatted()
      reads this
    {
      |loteArquivo| == |records| && |suspeito| == |records| && |loteConfere| == |records|
    }

    /** `_df_format`: assigns the derived columns. A row is suspect exactly
        when it counted guides but totals zero; its lot check holds exactly
        when the name's lot, or '' without one, equals its lot. */
    method Format()
      modifies this
      ensures records == old(records) && Formatted()
      ensures forall i :: 0 <= i < |records| ==>
        && loteArquivo[i] == ExtractLoteFromFilename(Some(records[i].arquivo))
        && (suspeito[i] <==> records[i].qtdeGuias > 0 && records[i].valorTotal == 0.0)
        && (loteConfere[i] <==> loteArquivo[i].GetOr("") == records[i].numeroLote)
    {
      suspeito := MapSeq(records, Suspeito);
      loteArquivo := MapSeq(records, LoteArquivoOf);
      loteConfere := MapSeq(records, LoteConfere);
    }

    /** The rows handed to `_make_agg` and `_make_baixa_por_lote`. */
    function Rows(): (rows: seq<XmlRow>)
      reads this
      requires Formatted()
      ensures |rows| == |records|
      ensures forall i :: 0 <= i < |records| ==> rows[i] == RowOf(records[i], loteArquivo[i])
    {
      var rs, la := records, loteArquivo;
      seq(|rs|, i requires 0 <= i < |rs| => RowOf(rs[i], la[i]))
    }
  }

  function RowOf(r: Record, loteArquivo: Option<string>): XmlRow {
    XmlRow(r.arquivo, KindName(r.tipo), r.numeroLote, r.qtdeGuias, r.valorTotal, loteArquivo)
  }

  /** The order `_df_format` leaves the rows in: by lot, then kind, then
      file name, each compared as Python compares strings. */
  predicate RowLess(a: XmlRow, b: XmlRow) {
    || StringLess(a.numeroLote, b.numeroLote)
    || (a.numeroLote == b.numeroLote && StringLess(a.tipo, b.tipo))
    || (a.numeroLote == b.numeroLote && a.tipo == b.tipo && StringLess(a.arquivo, b.arquivo))
  }

  /** No row sorts before a row ahead of it. */
  predicate SortedRows(rows: seq<XmlRow>) {
    forall i, j :: 0 <= i < j < |rows| ==> !RowLess(rows[j], rows[i])
  }

  /** Keeping some of the rows keeps them in order. */
  lemma {:induction false} SortedFilter(rows: seq<XmlRow>, p: XmlRow -> bool)
    requires SortedRows(rows)
    ensures SortedRows(Filter(rows, p))
  {
    if rows != [] {
      var tail := rows[1..];
      assert SortedRows(tail) by {
        forall i, j | 0 <= i < j < |tail| ensures !RowLess(tail[j], tail[i]) {
          assert tail[j] == rows[j + 1] && tail[i] == rows[i + 1];
        }
      }
      SortedFilter(tail, p);
      var ft := Filter(tail, p);
      if p(rows[0]) {
        var out := [rows[0]] + ft;
        forall i, j | 0 <= i < j < |out| ensures !RowLess(out[j], out[i]) {
          if i == 0 {
            assert out[j] == ft[j - 1] && ft[j - 1] in tail;
            var m :| 0 <= m < |tail| && tail[m] == ft[j - 1];
            assert tail[m] == rows[m + 1];
          } else {
            assert out[j] == ft[j - 1] && out[i] == ft[i - 1];
          }
        }
      }
    }
  }

  // ---- _make_agg ----

  datatype AggTotals = AggTotals(qtdeArquivos: nat, qtdeGuiasTotal: nat, valorTotal: real)

  /** (numero_lote, tipo). */
  type AggKey = (string, string)

  function AggRowOf(r: XmlRow): (AggKey, AggTotals) {
    ((r.numeroLote, r.tipo), AggTotals(1, r.qtdeGuias, r.valorTotal))
  }

  function AddAgg(a: AggTotals, b: AggTotals): AggTotals {
    AggTotals(a.qtdeArquivos + b.qtdeArquivos, a.qtdeGuiasTotal + b.qtdeGuiasTotal, a.valorTotal + b.valorTotal)
  }

  /** `_make_agg`: one row per (lot, kind) with its file count and its sums
      of guides and of totals; no row for an empty table. */
  function MakeAgg(rows: seq<XmlRow>): (r: seq<(AggKey, AggTotals)>)
    ensures rows == [] ==> r == []
  {
    GroupMap(rows, AggRowOf, AddAgg)
  }

  function Arquivos(t: AggTotals): real { t.qtdeArquivos as real }
  function Guias(t: AggTotals): real { t.qtdeGuiasTotal as real }
  function Valor(t: AggTotals): real { t.valorTotal }

  /** The sum of the files' guide counts. */
  function GuidesOf(rows: seq<XmlRow>): nat {
    if rows == [] then 0 else GuidesOf(rows[..|rows| - 1]) + rows[|rows| - 1].qtdeGuias
  }

  /** The sum of the files' totals. */
  function ValueOf(rows: seq<XmlRow>): real {
    if rows == [] then 0.0 else ValueOf(rows[..|rows| - 1]) + rows[|rows| - 1].valorTotal
  }

  /** One row per (lot, kind) that occurs, holding the combination of the
      rows with that key. */
  lemma {:induction false} MakeAggGroups(rows: seq<XmlRow>)
    ensures GroupsOf(MakeAgg(rows), MapSeq(rows, AggRowOf), AddAgg)
  {
    GroupMapSpec(rows, AggRowOf, AddAgg);
    GroupBySpec(MapSeq(rows, AggRowOf), AddAgg);
  }

  /** Aggregation loses no file, guide or value: the file counts add up to
      the number of rows, and the sums to the sums over the rows. */
  lemma {:induction false} MakeAggTotals(rows: seq<XmlRow>)
    ensures SumBy(MakeAgg(rows), Arquivos) == |rows| as real
    ensures SumBy(MakeAgg(rows), Guias) == GuidesOf(rows) as real
    ensures SumBy(MakeAgg(rows), Valor) == ValueOf(rows)
  {
    GroupMapSum(rows, AggRowOf, AddAgg, Arquivos);
    GroupMapSum(rows, AggRowOf, AddAgg, Guias);
    GroupMapSum(rows, AggRowOf, AddAgg, Valor);
    AggRowSums(rows);
  }

  lemma {:induction false} AggRowSums(rows: seq<XmlRow>)
    ensures SumMap(rows, AggRowOf, Arquivos) == |rows| as real
    ensures SumMap(rows, AggRowOf, Guias) == GuidesOf(rows) as real
    ensures SumMap(rows, AggRowOf, Valor) == ValueOf(rows)
  {
    if rows != [] {
      AggRowSums(rows[..|rows| - 1]);
    }
  }
}
