/** The summary of one TISS XML file (tiss_parser.py): what kind of message it
    is, its lot number, how many guides it carries and their total, and the
    error record that replaces the summary when the file cannot be read. */
module TissParser {
  import opened Wrappers
  import opened Text
  import opened Decimals
  import opened Accumulation
  import opened Strategies
  import opened TissDocument

  const ParserVersion: string := "2026.01.15-ptbr-07"

  /** Why a file yields an error record instead of a summary. */
  datatype ParseError =
    | MalformedXml                 // the bytes are not well-formed XML
    | LoteNotFound                 // no non-blank numeroLote in either place
    | InvalidNumber(text: string)  // `Decimal` refused this text
    | TextMissing                  // `.text.strip()` on an element without text

  datatype Kind = Recurso | Consulta | Sadt | Desconhecido

  function KindName(k: Kind): string {
    match k
    case Recurso => "RECURSO"
    case Consulta => "CONSULTA"
    case Sadt => "SADT"
    case Desconhecido => "DESCONHECIDO"
  }

  /** The dictionary `_parse_root` returns, or the one `parse_many_xmls`
      builds for a file that failed. `protocolo` is present only for a
      RECURSO with a non-empty protocol number; `erro` only on failure. */
  datatype Record = Record(
    arquivo: string,
    numeroLote: string,
    tipo: Kind,
    qtdeGuias: nat,
    valorTotal: real,
    valorGlosado: real,
    valorLiberado: real,
    estrategia: string,
    parserVersion: string,
    protocolo: Option<string>,
    erro: Option<ParseError>)

  // ---- element text ----

  /** `_dec(el.text if el is not None else None)`. */
  function DecField(f: Field): Result<real, ParseError> {
    match f
    case Text(s) => DecText(s)
    case _ => Ok(0.0)
  }

  /** `_dec(s)` on a string. */
  function DecText(s: string): Result<real, ParseError> {
    match Dec(Some(s))
    case Some(v) => Ok(v)
    case None => Err(InvalidNumber(s))
  }

  /** `_get_text`: the stripped text of the element, or "" when there is no
      element or no text. */
  function GetText(f: Field): string {
    if f.Text? && f.text != "" then Strip(f.text) else ""
  }

  lemma {:induction false} GetTextStripped(f: Field)
    ensures Strip(GetText(f)) == GetText(f)
  {
    if f.Text? {
      StripIdempotent(f.text);
    }
  }

  // ---- classification ----

  /** `_is_recurso`: the transaction type says RECURSO_GLOSA, ignoring case
      and surrounding whitespace, or there is an appeal block. */
  predicate IsRecurso(d: Document) {
    Upper(GetText(d.tipoTransacao)) == "RECURSO_GLOSA" || d.recurso.Some?
  }

  /** `_is_consulta`: a guiaConsulta anywhere. */
  predicate IsConsulta(d: Document) {
    d.consultas != []
  }

  /** `_is_sadt`: a guiaSP-SADT anywhere. */
  predicate IsSadt(d: Document) {
    d.sadts != []
  }

  /** The kind `_parse_root` reports: the first test that holds, in the order
      RECURSO, CONSULTA, SADT. */
  function Classify(d: Document): Kind {
    if IsRecurso(d) then Recurso
    else if IsConsulta(d) then Consulta
    else if IsSadt(d) then Sadt
    else Desconhecido
  }

  /** The kinds are tried in a fixed order, so an appeal wins over any guide
      and a consultation over SP-SADT; a document is DESCONHECIDO exactly when
      it has neither an appeal nor any guide. */
  lemma {:induction false} ClassifyPrecedence(d: Document)
    ensures Classify(d) == Recurso <==> IsRecurso(d)
    ensures Classify(d) == Consulta <==> !IsRecurso(d) && d.consultas != []
    ensures Classify(d) == Sadt <==> !IsRecurso(d) && d.consultas == [] && d.sadts != []
    ensures Classify(d) == Desconhecido <==> !IsRecurso(d) && d.consultas == [] && d.sadts == []
  {
  }

  // ---- lot number ----

  lemma {:induction false} LoteTextsStripped(d: Document)
    ensures Strip(GetText(d.loteNumeroLote)) == GetText(d.loteNumeroLote)
    ensures d.recurso.Some? ==> Strip(GetText(d.recurso.value.numeroLote)) == GetText(d.recurso.value.numeroLote)
  {
    GetTextStripped(d.loteNumeroLote);
    if d.recurso.Some? {
      GetTextStripped(d.recurso.value.numeroLote);
    }
  }

  /** `_get_numero_lote`: the lot of the guide batch when it is not blank,
      else the lot of the appeal block when that is not blank, else an
      error. The number is returned stripped. */
  function GetNumeroLote(d: Document): (r: Result<string, ParseError>)
    ensures r.Ok? ==> r.value != "" && Strip(r.value) == r.value
    ensures r.Ok? ==> r.value == GetText(d.loteNumeroLote)
                      || (d.recurso.Some? && r.value == GetText(d.recurso.value.numeroLote))
    ensures GetText(d.loteNumeroLote) != "" ==> r == Ok(GetText(d.loteNumeroLote))
    ensures r.Err? <==> GetText(d.loteNumeroLote) == ""
                        && (d.recurso.None? || GetText(d.recurso.value.numeroLote) == "")
    ensures r.Err? ==> r.error == LoteNotFound
  {
    LoteTextsStripped(d);
    if GetText(d.loteNumeroLote) != "" then Ok(GetText(d.loteNumeroLote))
    else if d.recurso.Some? && GetText(d.recurso.value.numeroLote) != "" then
      Ok(GetText(d.recurso.value.numeroLote))
    else Err(LoteNotFound)
  }

  // ---- CONSULTA ----

  predicate ConsultaInLote(c: ConsultaGuide) { c.inLote }

  /** The consultations `_sum_consulta` finds: those of the guide batch. */
  function LoteConsultas(d: Document): seq<ConsultaGuide> {
    Filter(d.consultas, ConsultaInLote)
  }

  /** One consultation's procedure value. */
  function ConsultaValue(c: ConsultaGuide): Result<real, ParseError> {
    DecField(c.valorProcedimento)
  }

  /** `_sum_consulta`: the number of batch consultations and the sum of their
      procedure values. */
  function ConsultaSummary(d: Document): Result<(nat, real), ParseError> {
    match SumOf(LoteConsultas(d), ConsultaValue)
    case Err(e) => Err(e)
    case Ok(t) => Ok((|LoteConsultas(d)|, t))
  }

  method SumConsulta(d: Document) returns (r: Result<(nat, real), ParseError>)
    ensures r == ConsultaSummary(d)
  {
    var guias := LoteConsultas(d);
    var total := Accumulate(guias, ConsultaValue);
    if total.Err? {
      return Err(total.error);
    }
    r := Ok((|guias|, total.value));
  }

  /** When every consultation is in the guide batch and every value parses,
      the summary counts them all and adds all their values. */
  lemma {:induction false} ConsultaSummaryOfBatch(d: Document)
    requires forall k :: 0 <= k < |d.consultas| ==> d.consultas[k].inLote
    requires forall k :: 0 <= k < |d.consultas| ==> ConsultaValue(d.consultas[k]).Ok?
    ensures ConsultaSummary(d) == Ok((|d.consultas|, Total(d.consultas, ConsultaValue)))
  {
    FilterAll(d.consultas, ConsultaInLote);
    assert LoteConsultas(d) == d.consultas;
    SumOfSpec(d.consultas, ConsultaValue);
  }

  // ---- SP-SADT, one guide ----

  /** The value of one executed procedure: its valorTotal when that has
      non-blank text; else unit value times quantity when both have text;
      else nothing. */
  function ItemValue(it: ProcedureItem): Result<real, ParseError> {
    if GetText(it.valorTotal) != "" then DecField(it.valorTotal)
    else if it.valorUnitario.Text? && it.valorUnitario.text != ""
         && it.quantidadeExecutada.Text? && it.quantidadeExecutada.text != "" then
      match DecField(it.valorUnitario)
      case Err(e) => Err(e)
      case Ok(u) =>
        match DecField(it.quantidadeExecutada)
        case Err(e) => Err(e)
        case Ok(q) => Ok(u * q)
    else Ok(0.0)
  }

  /** The value of one other expense: the valorTotal under its
      servicosExecutados, nothing when there is no servicosExecutados. */
  function DespesaValue(x: Despesa): Result<real, ParseError> {
    match x.servicosExecutados
    case None => Ok(0.0)
    case Some(f) => DecField(f)
  }

  function ProcTotal(g: SadtGuide): Result<real, ParseError> {
    SumOf(g.procedimentos, ItemValue)
  }

  function OutrasTotal(g: SadtGuide): Result<real, ParseError> {
    SumOf(g.despesas, DespesaValue)
  }

  /** The six components of the valorTotal block, in the order they are
      added. */
  function ComponentFields(b: ValorTotalBlock): seq<Field> {
    [b.valorProcedimentos, b.valorDiarias, b.valorTaxasAlugueis,
     b.valorMateriais, b.valorMedicamentos, b.valorGasesMedicinais]
  }

  function ComponentsTotal(g: SadtGuide): Result<real, ParseError> {
    match g.valorTotal
    case None => Ok(0.0)
    case Some(b) => SumOf(ComponentFields(b), DecField)
  }

  /** The declared grand total of the guide, zero when there is no block or
      no valorTotalGeral. */
  function GrandTotal(g: SadtGuide): Result<real, ParseError> {
    match g.valorTotal
    case None => Ok(0.0)
    case Some(b) => DecField(b.valorTotalGeral)
  }

  /** `_sum_sadt_guia`: the first positive figure among the declared grand
      total, the sum of the items and the sum of the block's components,
      with the strategy that produced it; zero when none is positive. A
      figure that does not parse is an error once it is reached. The value
      is positive exactly when the strategy is not `Zero`, so it is never
      negative. */
  function SadtGuideTotal(g: SadtGuide): (r: Result<(real, Strategy), ParseError>)
    ensures r.Ok? ==> (r.value.0 > 0.0 <==> r.value.1 != Zero)
    ensures r.Ok? ==> r.value.0 >= 0.0
  {
    match GrandTotal(g)
    case Err(e) => Err(e)
    case Ok(vtg) => if vtg > 0.0 then Ok((vtg, ValorTotalGeral)) else ItemsOrComponents(g)
  }

  /** Tiers 2 and 3 of `_sum_sadt_guia`. */
  function ItemsOrComponents(g: SadtGuide): (r: Result<(real, Strategy), ParseError>)
    ensures r.Ok? ==> (r.value.0 > 0.0 <==> r.value.1 != Zero)
    ensures r.Ok? ==> r.value.0 >= 0.0 && r.value.1 != ValorTotalGeral
  {
    match ProcTotal(g)
    case Err(e) => Err(e)
    case Ok(p) =>
      match OutrasTotal(g)
      case Err(e) => Err(e)
      case Ok(o) => if p + o > 0.0 then Ok((p + o, Itens)) else ComponentsOrZero(g)
  }

  /** Tier 3 of `_sum_sadt_guia`, and the final zero. */
  function ComponentsOrZero(g: SadtGuide): (r: Result<(real, Strategy), ParseError>)
    ensures r.Ok? ==> (r.value.1 == Componentes && r.value.0 > 0.0) || r.value == (0.0, Zero)
  {
    match ComponentsTotal(g)
    case Err(e) => Err(e)
    case Ok(c) => if c > 0.0 then Ok((c, Componentes)) else Ok((0.0, Zero))
  }

  method SumItensProcedimentos(g: SadtGuide) returns (r: Result<real, ParseError>)
    ensures r == ProcTotal(g)
  {
    r := Accumulate(g.procedimentos, ItemValue);
  }

  method SumItensOutrasDesp(g: SadtGuide) returns (r: Result<real, ParseError>)
    ensures r == OutrasTotal(g)
  {
    r := Accumulate(g.despesas, DespesaValue);
  }

  method SumComponentesValorTotal(g: SadtGuide) returns (r: Result<real, ParseError>)
    ensures r == ComponentsTotal(g)
  {
    if g.valorTotal.None? {
      return Ok(0.0);
    }
    r := Accumulate(ComponentFields(g.valorTotal.value), DecField);
  }

  method SumSadtGuia(g: SadtGuide) returns (r: Result<(real, Strategy), ParseError>)
    ensures r == SadtGuideTotal(g)
  {
    if g.valorTotal.Some? {
      var vtg := DecField(g.valorTotal.value.valorTotalGeral);
      if vtg.Err? {
        return Err(vtg.error);
      }
      if vtg.value > 0.0 {
        return Ok((vtg.value, ValorTotalGeral));
      }
    }
    var proc := SumItensProcedimentos(g);
    if proc.Err? {
      return Err(proc.error);
    }
    var outras := SumItensOutrasDesp(g);
    if outras.Err? {
      return Err(outras.error);
    }
    var itens := proc.value + outras.value;
    if itens > 0.0 {
      return Ok((itens, Itens));
    }
    var comp := SumComponentesValorTotal(g);
    if comp.Err? {
      return Err(comp.error);
    }
    if comp.value > 0.0 {
      return Ok((comp.value, Componentes));
    }
    r := Ok((0.0, Zero));
  }

  /** A positive declared grand total decides the guide, whatever its items
      hold, even items that would not parse. */
  lemma {:induction false} GrandTotalWins(g: SadtGuide, v: real)
    requires GrandTotal(g) == Ok(v) && v > 0.0
    ensures SadtGuideTotal(g) == Ok((v, ValorTotalGeral))
  {
  }

  /** A grand total that is absent, zero or negative is passed over: the
      items decide when their sum is positive. */
  lemma {:induction false} ItemsWhenNoGrandTotal(g: SadtGuide, p: real, o: real)
    requires GrandTotal(g).Ok? && GrandTotal(g).value <= 0.0
    requires ProcTotal(g) == Ok(p) && OutrasTotal(g) == Ok(o) && p + o > 0.0
    ensures SadtGuideTotal(g) == Ok((p + o, Itens))
  {
    assert ItemsOrComponents(g) == Ok((p + o, Itens));
  }

  /** With no positive grand total and no positive item sum, the block's
      components decide; a guide whose three figures are all zero or less
      counts as zero. */
  lemma {:induction false} ComponentsWhenNothingElse(g: SadtGuide, c: real)
    requires GrandTotal(g).Ok? && GrandTotal(g).value <= 0.0
    requires ProcTotal(g).Ok? && OutrasTotal(g).Ok? && ProcTotal(g).value + OutrasTotal(g).value <= 0.0
    requires ComponentsTotal(g) == Ok(c)
    ensures SadtGuideTotal(g) == (if c > 0.0 then Ok((c, Componentes)) else Ok((0.0, Zero)))
  {
    assert ItemsOrComponents(g) == ComponentsOrZero(g);
  }

  /** An unparsable grand total makes the guide fail, even when its items
      would have given a value. */
  lemma {:induction false} BadGrandTotalFails(g: SadtGuide, s: string)
    requires g.valorTotal.Some? && g.valorTotal.value.valorTotalGeral == Text(s)
    requires Dec(Some(s)).None?
    ensures SadtGuideTotal(g) == Err(InvalidNumber(s))
  {
  }

  /** Reading the values of a guide fails only on a number that does not
      parse. */
  lemma {:induction false} DecFieldErr(f: Field)
    ensures DecField(f).Err? ==> DecField(f).error.InvalidNumber?
  {
  }

  lemma {:induction false} ItemValueErr(it: ProcedureItem)
    ensures ItemValue(it).Err? ==> ItemValue(it).error.InvalidNumber?
  {
    DecFieldErr(it.valorTotal);
    DecFieldErr(it.valorUnitario);
    DecFieldErr(it.quantidadeExecutada);
  }

  lemma {:induction false} SadtValuesErr(g: SadtGuide)
    ensures GrandTotal(g).Err? ==> GrandTotal(g).error.InvalidNumber?
    ensures ProcTotal(g).Err? ==> ProcTotal(g).error.InvalidNumber?
    ensures OutrasTotal(g).Err? ==> OutrasTotal(g).error.InvalidNumber?
  {
    if g.valorTotal.Some? {
      DecFieldErr(g.valorTotal.value.valorTotalGeral);
    }
    SumOfSpec(g.procedimentos, ItemValue);
    if ProcTotal(g).Err? {
      var i :| 0 <= i < |g.procedimentos| && ItemValue(g.procedimentos[i]) == Err(ProcTotal(g).error);
      ItemValueErr(g.procedimentos[i]);
    }
    SumOfSpec(g.despesas, DespesaValue);
    if OutrasTotal(g).Err? {
      var i :| 0 <= i < |g.despesas| && DespesaValue(g.despesas[i]) == Err(OutrasTotal(g).error);
      if g.despesas[i].servicosExecutados.Some? {
        DecFieldErr(g.despesas[i].servicosExecutados.value);
      }
    }
  }

  // ---- SP-SADT, the document ----

  predicate SadtInLote(g: SadtGuide) { g.inLote }

  /** The SP-SADT guides `_sum_sadt` finds: those of the guide batch. */
  function LoteSadts(d: Document): seq<SadtGuide> {
    Filter(d.sadts, SadtInLote)
  }

  /** `_sum_sadt` over the batch guides `gs`. */
  function SadtSummary(gs: seq<SadtGuide>): Result<(nat, real, string), ParseError> {
    Summary(MapSeq(gs, SadtGuideTotal))
  }

  method SumSadt(d: Document) returns (r: Result<(nat, real, string), ParseError>)
    ensures r == SadtSummary(LoteSadts(d))
  {
    r := SummarizeEach(LoteSadts(d), SadtGuideTotal);
  }

  /** The SP-SADT total is the sum of guide values, none of them negative:
      it is never negative, and it is zero exactly when the label is "zero". */
  lemma {:induction false} SadtSummaryZeroIff(gs: seq<SadtGuide>)
    requires SadtSummary(gs).Ok?
    ensures SadtSummary(gs).value.1 >= 0.0
    ensures SadtSummary(gs).value.1 == 0.0 <==> SadtSummary(gs).value.2 == "zero"
  {
    var rs := MapSeq(gs, SadtGuideTotal);
    forall k | 0 <= k < |rs| && rs[k].Ok? ensures Consistent(rs[k].value) {
      assert rs[k] == SadtGuideTotal(gs[k]);
    }
    SummaryZeroIff(rs);
  }

  /** A summary counts every batch guide, and the per-strategy counts add
      up to that number. */
  lemma {:induction false} SadtSummaryCount(gs: seq<SadtGuide>)
    requires SadtSummary(gs).Ok?
    ensures SadtSummary(gs).value.0 == |gs|
    ensures gs != [] ==> CountSum(Fold(MapSeq(gs, SadtGuideTotal)).value.1) == |gs|
  {
    var rs := MapSeq(gs, SadtGuideTotal);
    assert Fold(rs).Ok?;
    FoldCountsAddUp(rs);
  }

  // ---- RECURSO ----

  /** `_sum_recurso`: the number of recursoGuia entries, the stripped
      valorTotalRecursado read as a number (blank reads as zero) and the
      stripped protocol number; all empty when there is no appeal block. */
  function RecursoSummary(d: Document): Result<(nat, real, string), ParseError> {
    match d.recurso
    case None => Ok((0, 0.0, ""))
    case Some(b) =>
      match DecText(GetText(b.valorTotalRecursado))
      case Err(e) => Err(e)
      case Ok(v) => Ok((|b.guias|, v, GetText(b.numeroProtocolo)))
  }

  /** The three figures `_sum_recurso` promises: the number of recursoGuia
      entries, valorTotalRecursado read as a number (blank reads as zero,
      anything else that is not a numeral fails) and numeroProtocolo as
      stripped text; zero, zero and "" when there is no appeal block. */
  lemma {:induction false} RecursoSummarySpec(d: Document)
    ensures d.recurso.None? ==> RecursoSummary(d) == Ok((0, 0.0, ""))
    ensures d.recurso.Some? ==>
      var b := d.recurso.value;
      var t := GetText(b.valorTotalRecursado);
      && (RecursoSummary(d).Err? <==> t != "" && ParseDecimal(ReplaceChar(t, ',', '.')).None?)
      && (RecursoSummary(d).Err? ==> RecursoSummary(d).error == InvalidNumber(t))
      && (RecursoSummary(d).Ok? ==>
            RecursoSummary(d).value
            == (|b.guias|, (if t == "" then 0.0 else ParseDecimal(ReplaceChar(t, ',', '.')).value),
                GetText(b.numeroProtocolo)))
  {
    if d.recurso.Some? {
      GetTextStripped(d.recurso.value.valorTotalRecursado);
    }
  }

  // ---- the record ----

  /** `_parse_root`: the lot number first (its absence is an error whatever
      the kind), then the totals of the kind. */
  function Parse(d: Document, arquivo: string): Result<Record, ParseError> {
    match GetNumeroLote(d)
    case Err(e) => Err(e)
    case Ok(lote) =>
      match Classify(d)
      case Recurso => RecursoRecord(d, arquivo, lote)
      case Consulta => ConsultaRecord(d, arquivo, lote)
      case Sadt => SadtRecord(d, arquivo, lote)
      case Desconhecido => Ok(UnknownRecord(arquivo, lote))
  }

  function RecursoRecord(d: Document, arquivo: string, lote: string): Result<Record, ParseError> {
    match RecursoSummary(d)
    case Err(e) => Err(e)
    case Ok(s) =>
      Ok(Record(arquivo, lote, Recurso, s.0, s.1, 0.0, 0.0, "recurso_valorTotalRecursado",
                ParserVersion, if s.2 != "" then Some(s.2) else None, None))
  }

  function ConsultaRecord(d: Document, arquivo: string, lote: string): Result<Record, ParseError> {
    match ConsultaSummary(d)
    case Err(e) => Err(e)
    case Ok(s) =>
      Ok(Record(arquivo, lote, Consulta, s.0, s.1, 0.0, 0.0, "consulta_valorProcedimento",
                ParserVersion, None, None))
  }

  function SadtRecord(d: Document, arquivo: string, lote: string): Result<Record, ParseError> {
    match SadtSummary(LoteSadts(d))
    case Err(e) => Err(e)
    case Ok(s) => Ok(Record(arquivo, lote, Sadt, s.0, s.1, 0.0, 0.0, s.2, ParserVersion, None, None))
  }

  function UnknownRecord(arquivo: string, lote: string): Record {
    Record(arquivo, lote, Desconhecido, 0, 0.0, 0.0, 0.0, "zero", ParserVersion, None, None)
  }

  method ParseRoot(d: Document, arquivo: string) returns (r: Result<Record, ParseError>)
    ensures r == Parse(d, arquivo)
  {
    var lote := GetNumeroLote(d);
    if lote.Err? {
      return Err(lote.error);
    }
    var kind := Classify(d);
    match kind
    case Recurso =>
      r := RecursoRoot(d, arquivo, lote.value);
    case Consulta =>
      r := ConsultaRoot(d, arquivo, lote.value);
    case Sadt =>
      r := SadtRoot(d, arquivo, lote.value);
    case Desconhecido =>
      r := Ok(UnknownRecord(arquivo, lote.value));
  }

  method RecursoRoot(d: Document, arquivo: string, lote: string) returns (r: Result<Record, ParseError>)
    ensures r == RecursoRecord(d, arquivo, lote)
  {
    var rec := RecursoSummary(d);
    if rec.Err? {
      return Err(rec.error);
    }
    var (n, v, p) := rec.value;
    var protocolo := if p != "" then Some(p) else None;
    r := Ok(Record(arquivo, lote, Recurso, n, v, 0.0, 0.0, "recurso_valorTotalRecursado",
                   ParserVersion, protocolo, None));
  }

  method ConsultaRoot(d: Document, arquivo: string, lote: string) returns (r: Result<Record, ParseError>)
    ensures r == ConsultaRecord(d, arquivo, lote)
  {
    var c := SumConsulta(d);
    if c.Err? {
      return Err(c.error);
    }
    r := Ok(Record(arquivo, lote, Consulta, c.value.0, c.value.1, 0.0, 0.0,
                   "consulta_valorProcedimento", ParserVersion, None, None));
  }

  method SadtRoot(d: Document, arquivo: string, lote: string) returns (r: Result<Record, ParseError>)
    ensures r == SadtRecord(d, arquivo, lote)
  {
    var s := SumSadt(d);
    if s.Err? {
      return Err(s.error);
    }
    r := Ok(Record(arquivo, lote, Sadt, s.value.0, s.value.1, 0.0, 0.0, s.value.2,
                   ParserVersion, None, None));
  }

  /** `parse_tiss_xml`: read the tree, then summarise it. */
  function ParseXml(x: XmlInput): Result<Record, ParseError> {
    match x.tree
    case None => Err(MalformedXml)
    case Some(d) => Parse(d, RecordName(x.source))
  }

  /** The record `parse_many_xmls` stores for a file that raised. */
  function ErrorRecord(arquivo: string, e: ParseError): Record {
    Record(arquivo, "", Desconhecido, 0, 0.0, 0.0, 0.0, "erro", ParserVersion, None, Some(e))
  }

  /** The record `parse_many_xmls` stores for one file. */
  function ParseFile(x: PathInput): Record {
    match ParseXml(x)
    case Ok(rec) => rec
    case Err(e) => ErrorRecord(ErrorName(x.source), e)
  }

  method ParseTissXml(x: XmlInput) returns (r: Result<Record, ParseError>)
    ensures r == ParseXml(x)
  {
    if x.tree.None? {
      return Err(MalformedXml);
    }
    r := ParseRoot(x.tree.value, RecordName(x.source));
  }

  /** One turn of `parse_many_xmls`: the file's summary, or its error record
      when reading or summarising it raised. */
  method ParseOne(x: PathInput) returns (rec: Record)
    ensures rec == ParseFile(x)
  {
    var r := ParseTissXml(x);
    rec := if r.Ok? then r.value else ErrorRecord(ErrorName(x.source), r.error);
  }

  /** The records of `xs`, in order. */
  function ParseAll(xs: seq<PathInput>): seq<Record> {
    MapSeq(xs, ParseFile)
  }

  /** `parse_many_xmls`: one record per file, in order; a failure in one file
      becomes that file's error record and does not stop the others. */
  method ParseMany(xs: seq<PathInput>) returns (rs: seq<Record>)
    ensures rs == ParseAll(xs)
  {
    ghost var all := MapSeq(xs, ParseFile);
    rs := [];
    var i := 0;
    while i < |xs|
      invariant 0 <= i <= |xs|
      invariant rs == all[..i]
    {
      var rec := ParseOne(xs[i]);
      MapSeqSnoc(xs, ParseFile, i);
      rs := rs + [rec];
      i := i + 1;
    }
    assert all[..i] == all;
  }

  // ---- properties of the record ----

  /** An appeal summary: the guides counted are the recursoGuia entries, the
      total is valorTotalRecursado, the strategy text is fixed, and the
      protocol is present exactly when numeroProtocolo is not empty, and is
      then that number. */
  lemma {:induction false} RecursoRecordShape(d: Document, arquivo: string, lote: string)
    requires RecursoRecord(d, arquivo, lote).Ok?
    ensures var rec := RecursoRecord(d, arquivo, lote).value;
      && rec == rec.(tipo := Recurso, arquivo := arquivo, numeroLote := lote, valorGlosado := 0.0,
                     valorLiberado := 0.0, estrategia := "recurso_valorTotalRecursado",
                     parserVersion := ParserVersion, erro := None)
      && (d.recurso.None? ==> rec.qtdeGuias == 0 && rec.valorTotal == 0.0 && rec.protocolo == None)
    ensures d.recurso.Some? ==>
      var rec := RecursoRecord(d, arquivo, lote).value;
      var b := d.recurso.value;
      var t := GetText(b.valorTotalRecursado);
      && rec.qtdeGuias == |b.guias|
      && (t == "" ==> rec.valorTotal == 0.0)
      && (t != "" ==> ParseDecimal(ReplaceChar(t, ',', '.')) == Some(rec.valorTotal))
      && (rec.protocolo.Some? <==> GetText(b.numeroProtocolo) != "")
      && (rec.protocolo.Some? ==> rec.protocolo.value == GetText(b.numeroProtocolo))
  {
    RecursoSummarySpec(d);
  }

  /** A consultation summary: fixed strategy text and no protocol. */
  lemma {:induction false} ConsultaRecordShape(d: Document, arquivo: string, lote: string)
    requires ConsultaRecord(d, arquivo, lote).Ok?
    ensures var rec := ConsultaRecord(d, arquivo, lote).value;
      rec == rec.(tipo := Consulta, arquivo := arquivo, numeroLote := lote, valorGlosado := 0.0,
                  valorLiberado := 0.0, estrategia := "consulta_valorProcedimento",
                  parserVersion := ParserVersion, protocolo := None, erro := None)
  {
  }

  /** An SP-SADT summary: one count per batch guide, and the total and label
      of the guide fold. */
  lemma {:induction false} SadtRecordShape(d: Document, arquivo: string, lote: string)
    requires SadtRecord(d, arquivo, lote).Ok?
    ensures var rec := SadtRecord(d, arquivo, lote).value;
      && rec == rec.(tipo := Sadt, arquivo := arquivo, numeroLote := lote, valorGlosado := 0.0,
                     valorLiberado := 0.0, parserVersion := ParserVersion, protocolo := None, erro := None)
      && rec.qtdeGuias == |LoteSadts(d)|
      && rec.valorTotal == SadtSummary(LoteSadts(d)).value.1
      && rec.estrategia == SadtSummary(LoteSadts(d)).value.2
  {
    SadtSummaryCount(LoteSadts(d));
  }

  /** A summary always names its file, carries a stripped non-empty lot
      number, the kind the classifier chose, zero glosa and liberated values
      (those come from the payment statement), no error, and a protocol only
      for an appeal, never an empty one. */
  lemma {:induction false} ParsedRecordShape(d: Document, arquivo: string)
    requires Parse(d, arquivo).Ok?
    ensures var rec := Parse(d, arquivo).value;
      && rec.arquivo == arquivo
      && rec.numeroLote != "" && Strip(rec.numeroLote) == rec.numeroLote
      && rec.tipo == Classify(d)
      && rec.valorGlosado == 0.0 && rec.valorLiberado == 0.0
      && rec.erro.None?
      && rec.parserVersion == ParserVersion
      && (rec.protocolo.Some? ==> rec.tipo == Recurso && rec.protocolo.value != "")
  {
    var lote := GetNumeroLote(d).value;
    match Classify(d)
    case Recurso =>
      assert Parse(d, arquivo) == RecursoRecord(d, arquivo, lote);
      RecursoRecordShape(d, arquivo, lote);
    case Consulta =>
      assert Parse(d, arquivo) == ConsultaRecord(d, arquivo, lote);
      ConsultaRecordShape(d, arquivo, lote);
    case Sadt =>
      assert Parse(d, arquivo) == SadtRecord(d, arquivo, lote);
      SadtRecordShape(d, arquivo, lote);
    case Desconhecido => assert Parse(d, arquivo) == Ok(UnknownRecord(arquivo, lote));
  }

  /** The strategy text is fixed by the kind, except for SP-SADT where it
      labels the guides' strategies; a DESCONHECIDO document counts nothing. */
  lemma {:induction false} ParsedStrategy(d: Document, arquivo: string)
    requires Parse(d, arquivo).Ok?
    ensures var rec := Parse(d, arquivo).value;
      && (rec.tipo == Recurso ==> rec.estrategia == "recurso_valorTotalRecursado")
      && (rec.tipo == Consulta ==> rec.estrategia == "consulta_valorProcedimento")
      && (rec.tipo == Desconhecido ==> rec.estrategia == "zero" && rec.qtdeGuias == 0 && rec.valorTotal == 0.0)
      && (rec.tipo == Sadt ==> rec.qtdeGuias == |LoteSadts(d)|)
  {
    var lote := GetNumeroLote(d).value;
    match Classify(d)
    case Recurso =>
      assert Parse(d, arquivo) == RecursoRecord(d, arquivo, lote);
      RecursoRecordShape(d, arquivo, lote);
    case Consulta =>
      assert Parse(d, arquivo) == ConsultaRecord(d, arquivo, lote);
      ConsultaRecordShape(d, arquivo, lote);
    case Sadt =>
      assert Parse(d, arquivo) == SadtRecord(d, arquivo, lote);
      SadtRecordShape(d, arquivo, lote);
    case Desconhecido => assert Parse(d, arquivo) == Ok(UnknownRecord(arquivo, lote));
  }

  /** An SP-SADT summary's total is never negative and is zero exactly when
      its strategy is "zero". */
  lemma {:induction false} SadtRecordZeroIff(d: Document, arquivo: string)
    requires Parse(d, arquivo).Ok? && Parse(d, arquivo).value.tipo == Sadt
    ensures Parse(d, arquivo).value.valorTotal >= 0.0
    ensures Parse(d, arquivo).value.valorTotal == 0.0 <==> Parse(d, arquivo).value.estrategia == "zero"
  {
    ParsedRecordShape(d, arquivo);
    var lote := GetNumeroLote(d).value;
    assert Parse(d, arquivo) == SadtRecord(d, arquivo, lote);
    SadtRecordShape(d, arquivo, lote);
    SadtSummaryZeroIff(LoteSadts(d));
  }

  /** The classifier looks at guides anywhere, the totals only at the guide
      batch: a consultation document whose consultations all lie outside the
      batch is a CONSULTA with no guide and a zero total. */
  lemma {:induction false} ConsultaOutsideBatch(d: Document, arquivo: string)
    requires GetNumeroLote(d).Ok? && !IsRecurso(d) && d.consultas != []
    requires forall k :: 0 <= k < |d.consultas| ==> !d.consultas[k].inLote
    ensures Parse(d, arquivo).Ok?
    ensures Parse(d, arquivo).value.tipo == Consulta
    ensures Parse(d, arquivo).value.qtdeGuias == 0 && Parse(d, arquivo).value.valorTotal == 0.0
  {
    FilterNone(d.consultas, ConsultaInLote);
    assert Parse(d, arquivo) == ConsultaRecord(d, arquivo, GetNumeroLote(d).value);
  }

  /** Every file yields exactly one record; it carries an error exactly when
      the file failed, and then it is the error record: no lot, kind
      DESCONHECIDO, nothing counted, strategy "erro". A summary names its
      file by base name; an error record names a `Path` by base name too,
      but a `str` path by the whole text. */
  lemma {:induction false} ParseFileSpec(x: PathInput)
    ensures ParseFile(x).erro.Some? <==> ParseXml(x).Err?
    ensures ParseXml(x).Ok? ==> ParseFile(x).arquivo == RecordName(x.source)
    ensures ParseXml(x).Err? ==> ParseFile(x) == ErrorRecord(ErrorName(x.source), ParseXml(x).error)
    ensures ParseXml(x).Err? && x.source.PathText? ==> ParseFile(x).arquivo == x.source.path
    ensures x.source.PathObject? ==> ParseFile(x).arquivo == RecordName(x.source)
    ensures ParseXml(x).Ok? ==> ParseFile(x).numeroLote != ""
    ensures x.tree.None? ==> ParseFile(x).erro == Some(MalformedXml)
  {
    if x.tree.Some? && ParseXml(x).Ok? {
      ParsedRecordShape(x.tree.value, RecordName(x.source));
    }
  }

  /** The same `str` path names its summary "x.xml" but its error record
      "dir/x.xml" (see `ParseFileSpec` for which name each record takes). */
  lemma {:induction false} FileNameDependsOnOutcome()
    ensures RecordName(PathText("dir/x.xml")) == "x.xml"
    ensures ErrorName(PathText("dir/x.xml")) == "dir/x.xml"
  {
    assert "dir/x.xml" == "dir" + "/" + "x.xml";
    BaseNameAfterSlash("dir", "x.xml");
  }

  /** The name of a path is what follows its last separator. */
  lemma {:induction false} BaseNameAfterSlash(d: string, n: string)
    requires forall k :: 0 <= k < |n| ==> n[k] != '/'
    ensures BaseName(d + "/" + n) == n
  {
    var p := d + "/" + n;
    if n == [] {
      assert p[|p| - 1] == '/';
    } else {
      var m := n[..|n| - 1];
      BaseNameAfterSlash(d, m);
      assert p[..|p| - 1] == d + "/" + m;
      assert n == m + [n[|n| - 1]];
    }
  }
}
