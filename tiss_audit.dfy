/** `audit_por_guia`: one row per guide of a TISS file, for checking the
    file's summary guide by guide. Two variants exist: tiss_parser.py
    (version -07) and teste.py (version -08). They differ in the RECURSO
    columns and in how a consultation's guide number is looked up. Unlike
    the summary, the audit looks at every guide of the document, not only
    those of the guide batch, and a missing lot number does not stop it. */
module TissAudit {
  import opened Wrappers
  import opened Text
  import opened Accumulation
  import opened TissDocument
  import opened TissParser
  import opened Strategies

  /** tiss_parser.py (-07) or teste.py (-08). */
  datatype Variant = V07 | V08

  function VersionOf(v: Variant): string {
    match v
    case V07 => ParserVersion
    case V08 => "2026.01.15-ptbr-08"
  }

  /** The appeal columns only the -07 audit has. */
  datatype GlosaDetalhe = GlosaDetalhe(senha: string, codGlosaGuia: string, justificativaPrefix: string)

  /** One audit row: an appeal entry, or a consultation or SP-SADT guide with
      its declared total and its item subtotals. */
  datatype AuditRow =
    | RecursoRow(
        arquivo: string,
        numeroLote: string,
        protocolo: string,
        numeroGuiaOrigem: string,
        numeroGuiaOperadora: string,
        glosa: Option<GlosaDetalhe>,
        parserVersion: string)
    | ValorRow(
        arquivo: string,
        tipo: Kind,
        numeroGuiaPrestador: string,
        totalTag: real,
        subtotalItensProc: real,
        subtotalItensOutras: real,
        subtotalItens: real,
        numeroLote: string,
        parserVersion: string)

  const JustificativaMax: nat := 250
  const Ellipsis: char := '\U{2026}'

  /** `(just[:250] + '…') if just else ''`: at most 250 characters of the
      justification, always followed by an ellipsis, even when nothing was
      cut; nothing at all for an empty justification. */
  function JustificativaPrefix(just: string): (r: string)
    ensures r == "" <==> just == ""
    ensures just != "" ==>
      && |r| == (if |just| < JustificativaMax then |just| else JustificativaMax) + 1
      && r[|r| - 1] == Ellipsis
      && r[..|r| - 1] == just[..|r| - 1]
  {
    if just == "" then ""
    else if |just| < JustificativaMax then just + [Ellipsis]
    else just[..JustificativaMax] + [Ellipsis]
  }

  /** `numero_lote_for_audit`: the lot number, or "" where the summary would
      have failed for want of one. */
  function AuditLote(d: Document): string {
    match GetNumeroLote(d)
    case Ok(lote) => lote
    case Err(_) => ""
  }

  /** `el.text.strip()` on the first element found: "" when there is none,
      and the `AttributeError` of `None.strip()` when it has no text. */
  function StrippedText(f: Field): Result<string, ParseError> {
    match f
    case Missing => Ok("")
    case Bare => Err(TextMissing)
    case Text(s) => Ok(Strip(s))
  }

  // ---- RECURSO ----

  /** The lot an appeal row carries: the block's own lot when it is not
      blank, else the document's. */
  function RecursoLote(d: Document): string {
    if d.recurso.Some? && GetText(d.recurso.value.numeroLote) != "" then GetText(d.recurso.value.numeroLote)
    else AuditLote(d)
  }

  function RecursoRowOf(rg: RecursoGuia, arquivo: string, lote: string, protocolo: string, v: Variant): AuditRow {
    RecursoRow(arquivo, lote, protocolo, GetText(rg.numeroGuiaOrigem), GetText(rg.numeroGuiaOperadora),
               if v == V07 then Some(GlosaDetalhe(GetText(rg.senha), GetText(rg.codGlosaGuia),
                                                  JustificativaPrefix(GetText(rg.justificativaGuia))))
               else None,
               VersionOf(v))
  }

  function RecursoRowFn(d: Document, arquivo: string, v: Variant): RecursoGuia -> AuditRow {
    rg => RecursoRowOf(rg, arquivo, RecursoLote(d), RecursoProtocolo(d), v)
  }

  function RecursoProtocolo(d: Document): string {
    if d.recurso.Some? then GetText(d.recurso.value.numeroProtocolo) else ""
  }

  /** The appeal entries of the block; none when the document is an appeal
      only by its transaction type. */
  function RecursoGuias(d: Document): seq<RecursoGuia> {
    if d.recurso.Some? then d.recurso.value.guias else []
  }

  // ---- CONSULTA and SP-SADT ----

  /** The guide number of a consultation: the -07 audit takes the first one
      at any depth and fails when it has no text; the -08 audit takes a
      direct child through `_get_text`, which cannot fail. */
  function ConsultaNumero(c: ConsultaGuide, v: Variant): Result<string, ParseError> {
    match v
    case V07 => StrippedText(c.numeroGuiaPrestador)
    case V08 => Ok(GetText(c.numeroGuiaPrestadorFilho))
  }

  function ConsultaRowOf(c: ConsultaGuide, arquivo: string, lote: string, v: Variant): Result<AuditRow, ParseError> {
    match ConsultaValue(c)
    case Err(e) => Err(e)
    case Ok(val) =>
      match ConsultaNumero(c, v)
      case Err(e) => Err(e)
      case Ok(num) => Ok(ValorRow(arquivo, Consulta, num, val, val, 0.0, val, lote, VersionOf(v)))
  }

  function ConsultaRowFn(arquivo: string, lote: string, v: Variant): ConsultaGuide -> Result<AuditRow, ParseError> {
    c => ConsultaRowOf(c, arquivo, lote, v)
  }

  /** An SP-SADT row: the header's guide number, the declared grand total
      (zero without one) and the two item subtotals, computed in that order,
      the first failure ending the audit. */
  function SadtRowOf(g: SadtGuide, arquivo: string, lote: string, v: Variant): Result<AuditRow, ParseError> {
    match StrippedText(g.numeroGuiaPrestador)
    case Err(e) => Err(e)
    case Ok(num) =>
      match GrandTotal(g)
      case Err(e) => Err(e)
      case Ok(vtg) =>
        match ProcTotal(g)
        case Err(e) => Err(e)
        case Ok(p) =>
          match OutrasTotal(g)
          case Err(e) => Err(e)
          case Ok(o) => Ok(ValorRow(arquivo, Sadt, num, vtg, p, o, p + o, lote, VersionOf(v)))
  }

  function SadtRowFn(arquivo: string, lote: string, v: Variant): SadtGuide -> Result<AuditRow, ParseError> {
    g => SadtRowOf(g, arquivo, lote, v)
  }

  /** The rows of a list of consultations, or the first failure. */
  function ConsultaRows(cs: seq<ConsultaGuide>, arquivo: string, lote: string, v: Variant): Result<seq<AuditRow>, ParseError> {
    MapAll(cs, ConsultaRowFn(arquivo, lote, v))
  }

  /** The rows of a list of SP-SADT guides, or the first failure. */
  function SadtRows(gs: seq<SadtGuide>, arquivo: string, lote: string, v: Variant): Result<seq<AuditRow>, ParseError> {
    MapAll(gs, SadtRowFn(arquivo, lote, v))
  }

  /** The rows of the appeal entries. */
  function RecursoRows(d: Document, arquivo: string, v: Variant): seq<AuditRow> {
    MapSeq(RecursoGuias(d), RecursoRowFn(d, arquivo, v))
  }

  // ---- the audit ----

  /** The rows of one document: appeal entries for an appeal, otherwise every
      consultation when there is one, otherwise every SP-SADT guide. */
  function Audit(d: Document, arquivo: string, v: Variant): Result<seq<AuditRow>, ParseError> {
    if IsRecurso(d) then Ok(RecursoRows(d, arquivo, v))
    else if IsConsulta(d) then ConsultaRows(d.consultas, arquivo, AuditLote(d), v)
    else SadtRows(d.sadts, arquivo, AuditLote(d), v)
  }

  function AuditXml(x: XmlInput, v: Variant): Result<seq<AuditRow>, ParseError> {
    match x.tree
    case None => Err(MalformedXml)
    case Some(d) => Audit(d, AuditName(x.source), v)
  }

  /** The appeal loop: one row appended per appeal entry. */
  method AppendRecursoRows(d: Document, arquivo: string, v: Variant) returns (out: seq<AuditRow>)
    ensures out == RecursoRows(d, arquivo, v)
  {
    var guias := RecursoGuias(d);
    var f := RecursoRowFn(d, arquivo, v);
    out := [];
    var i := 0;
    while i < |guias|
      invariant 0 <= i <= |guias|
      invariant out == MapSeq(guias[..i], f)
    {
      assert guias[..i + 1][..i] == guias[..i];
      out := out + [f(guias[i])];
      i := i + 1;
    }
    assert guias[..i] == guias;
  }

  method AuditPorGuia(x: XmlInput, v: Variant) returns (r: Result<seq<AuditRow>, ParseError>)
    ensures r == AuditXml(x, v)
  {
    if x.tree.None? {
      return Err(MalformedXml);
    }
    var d := x.tree.value;
    var arquivo := AuditName(x.source);
    if IsRecurso(d) {
      var rows := AppendRecursoRows(d, arquivo, v);
      return Ok(rows);
    }
    var lote := AuditLote(d);
    if IsConsulta(d) {
      r := Collect(d.consultas, ConsultaRowFn(arquivo, lote, v));
    } else {
      r := Collect(d.sadts, SadtRowFn(arquivo, lote, v));
    }
  }

  // ---- properties ----

  /** An appeal yields one row per appeal entry, never fails, carries the
      block's lot (else the document's, else "") and protocol, and the
      justification columns exactly in the -07 variant. */
  lemma {:induction false} AuditRecursoRows(d: Document, arquivo: string, v: Variant)
    requires IsRecurso(d)
    ensures Audit(d, arquivo, v).Ok?
    ensures var rows := Audit(d, arquivo, v).value;
      && |rows| == |RecursoGuias(d)|
      && forall k :: 0 <= k < |rows| ==>
           && rows[k].RecursoRow?
           && rows[k].arquivo == arquivo
           && rows[k].numeroGuiaOrigem == GetText(RecursoGuias(d)[k].numeroGuiaOrigem)
           && rows[k].numeroGuiaOperadora == GetText(RecursoGuias(d)[k].numeroGuiaOperadora)
           && rows[k].numeroLote == RecursoLote(d)
           && rows[k].protocolo == RecursoProtocolo(d)
           && (rows[k].glosa.Some? <==> v == V07)
  {
    assert Audit(d, arquivo, v) == Ok(RecursoRows(d, arquivo, v));
  }

  /** The lot of an appeal row: the block's when not blank; else the
      document's as the summary would find it; "" exactly when the summary
      would fail for want of a lot number. */
  lemma {:induction false} RecursoLoteSpec(d: Document)
    ensures d.recurso.Some? && GetText(d.recurso.value.numeroLote) != "" ==>
              RecursoLote(d) == GetText(d.recurso.value.numeroLote)
    ensures (d.recurso.None? || GetText(d.recurso.value.numeroLote) == "") ==>
              RecursoLote(d) == GetText(d.loteNumeroLote)
    ensures RecursoLote(d) == "" <==> GetNumeroLote(d).Err?
  {
  }

  /** One consultation row: its procedure value as declared total, procedure
      subtotal and item subtotal, and no other expenses. */
  lemma {:induction false} ConsultaRowSpec(c: ConsultaGuide, arquivo: string, lote: string, v: Variant)
    ensures ConsultaRowOf(c, arquivo, lote, v).Ok? <==> ConsultaValue(c).Ok? && ConsultaNumero(c, v).Ok?
    ensures ConsultaRowOf(c, arquivo, lote, v).Ok? ==>
      ConsultaRowOf(c, arquivo, lote, v).value ==
        ValorRow(arquivo, Consulta, ConsultaNumero(c, v).value, ConsultaValue(c).value,
                 ConsultaValue(c).value, 0.0, ConsultaValue(c).value, lote, VersionOf(v))
  {
  }

  /** The consultation rows are one per consultation, in order. */
  lemma {:induction false} ConsultaRowsSpec(cs: seq<ConsultaGuide>, arquivo: string, lote: string, v: Variant)
    ensures ConsultaRows(cs, arquivo, lote, v).Ok? <==>
      forall k :: 0 <= k < |cs| ==> ConsultaValue(cs[k]).Ok? && ConsultaNumero(cs[k], v).Ok?
    ensures ConsultaRows(cs, arquivo, lote, v).Ok? ==>
      var rows := ConsultaRows(cs, arquivo, lote, v).value;
      && |rows| == |cs|
      && forall k :: 0 <= k < |rows| ==>
           rows[k] == ValorRow(arquivo, Consulta, ConsultaNumero(cs[k], v).value, ConsultaValue(cs[k]).value,
                               ConsultaValue(cs[k]).value, 0.0, ConsultaValue(cs[k]).value, lote, VersionOf(v))
  {
    var f := ConsultaRowFn(arquivo, lote, v);
    MapAllSpec(cs, f);
    forall k | 0 <= k < |cs| ensures f(cs[k]) == ConsultaRowOf(cs[k], arquivo, lote, v) {
    }
    forall k | 0 <= k < |cs| {
      ConsultaRowSpec(cs[k], arquivo, lote, v);
    }
  }

  /** A consultation document yields one row per consultation anywhere in
      the document, not only in the guide batch, each with its procedure
      value as declared total, procedure subtotal and item subtotal, no
      other expenses, and the document's lot or "". */
  lemma {:induction false} AuditConsultaRows(d: Document, arquivo: string, v: Variant)
    requires Classify(d) == Consulta
    ensures Audit(d, arquivo, v).Ok? <==>
      forall k :: 0 <= k < |d.consultas| ==> ConsultaValue(d.consultas[k]).Ok? && ConsultaNumero(d.consultas[k], v).Ok?
    ensures Audit(d, arquivo, v).Ok? ==>
      var rows := Audit(d, arquivo, v).value;
      && |rows| == |d.consultas|
      && forall k :: 0 <= k < |rows| ==>
           && rows[k].ValorRow? && rows[k].tipo == Consulta
           && rows[k].totalTag == ConsultaValue(d.consultas[k]).value
           && rows[k].subtotalItensProc == rows[k].totalTag
           && rows[k].subtotalItens == rows[k].totalTag
           && rows[k].subtotalItensOutras == 0.0
           && rows[k].numeroLote == AuditLote(d)
  {
    assert Audit(d, arquivo, v) == ConsultaRows(d.consultas, arquivo, AuditLote(d), v);
    ConsultaRowsSpec(d.consultas, arquivo, AuditLote(d), v);
  }

  /** The -08 lookup of a consultation's guide number cannot fail, while the
      -07 one fails on an element without text. */
  lemma {:induction false} ConsultaNumeroVariants(c: ConsultaGuide)
    ensures ConsultaNumero(c, V08).Ok?
    ensures ConsultaNumero(c, V07).Err? <==> c.numeroGuiaPrestador == Bare
  {
  }

  /** One SP-SADT row: the declared grand total whatever its sign, zero when
      absent, the two item subtotals and their sum. */
  lemma {:induction false} SadtRowSpec(g: SadtGuide, arquivo: string, lote: string, v: Variant)
    ensures SadtRowOf(g, arquivo, lote, v).Ok? <==>
      StrippedText(g.numeroGuiaPrestador).Ok? && GrandTotal(g).Ok? && ProcTotal(g).Ok? && OutrasTotal(g).Ok?
    ensures SadtRowOf(g, arquivo, lote, v).Ok? ==>
      SadtRowOf(g, arquivo, lote, v).value ==
        ValorRow(arquivo, Sadt, StrippedText(g.numeroGuiaPrestador).value, GrandTotal(g).value,
                 ProcTotal(g).value, OutrasTotal(g).value, ProcTotal(g).value + OutrasTotal(g).value,
                 lote, VersionOf(v))
  {
  }

  lemma {:induction false} SadtRowsSpec(gs: seq<SadtGuide>, arquivo: string, lote: string, v: Variant)
    ensures SadtRows(gs, arquivo, lote, v).Ok? <==>
      forall k :: 0 <= k < |gs| ==> SadtRowOf(gs[k], arquivo, lote, v).Ok?
    ensures SadtRows(gs, arquivo, lote, v).Ok? ==>
      var rows := SadtRows(gs, arquivo, lote, v).value;
      && |rows| == |gs|
      && forall k :: 0 <= k < |rows| ==> rows[k] == SadtRowOf(gs[k], arquivo, lote, v).value
  {
    var f := SadtRowFn(arquivo, lote, v);
    MapAllSpec(gs, f);
    forall k | 0 <= k < |gs| ensures f(gs[k]) == SadtRowOf(gs[k], arquivo, lote, v) {
    }
  }

  /** A document with neither appeal nor consultation yields one row per
      SP-SADT guide anywhere in it, with the declared grand total whatever
      its sign, zero when absent, and the item subtotal as the sum of the
      procedure and other-expense subtotals. */
  lemma {:induction false} AuditSadtRows(d: Document, arquivo: string, v: Variant)
    requires !IsRecurso(d) && !IsConsulta(d) && Audit(d, arquivo, v).Ok?
    ensures var rows := Audit(d, arquivo, v).value;
      && |rows| == |d.sadts|
      && forall k :: 0 <= k < |rows| ==>
           && GrandTotal(d.sadts[k]).Ok? && ProcTotal(d.sadts[k]).Ok? && OutrasTotal(d.sadts[k]).Ok?
           && rows[k].ValorRow? && rows[k].tipo == Sadt
           && rows[k].totalTag == GrandTotal(d.sadts[k]).value
           && rows[k].subtotalItensProc == ProcTotal(d.sadts[k]).value
           && rows[k].subtotalItensOutras == OutrasTotal(d.sadts[k]).value
           && rows[k].subtotalItens == rows[k].subtotalItensProc + rows[k].subtotalItensOutras
           && rows[k].numeroLote == AuditLote(d)
  {
    var lote := AuditLote(d);
    assert Audit(d, arquivo, v) == SadtRows(d.sadts, arquivo, lote, v);
    SadtRowsSpec(d.sadts, arquivo, lote, v);
    forall k | 0 <= k < |d.sadts| {
      SadtRowSpec(d.sadts[k], arquivo, lote, v);
    }
  }

  /** The audit row of an SP-SADT guide agrees with the tier the summary
      picks for it: a positive declared total is the guide's value; failing
      that, a positive item subtotal is. */
  lemma {:induction false} SadtRowAgreesWithSummary(g: SadtGuide, arquivo: string, lote: string, v: Variant)
    requires SadtRowOf(g, arquivo, lote, v).Ok?
    ensures var row := SadtRowOf(g, arquivo, lote, v).value;
      && (row.totalTag > 0.0 ==> SadtGuideTotal(g) == Ok((row.totalTag, ValorTotalGeral)))
      && (row.totalTag <= 0.0 && row.subtotalItens > 0.0 ==> SadtGuideTotal(g) == Ok((row.subtotalItens, Itens)))
  {
    SadtRowSpec(g, arquivo, lote, v);
  }

  /** The audit of a consultation document whose consultations all lie in the
      guide batch lists exactly the summands of the summary's total. */
  lemma {:induction false} ConsultaAuditAgreesWithSummary(d: Document, arquivo: string, v: Variant)
    requires Classify(d) == Consulta && Audit(d, arquivo, v).Ok?
    requires forall k :: 0 <= k < |d.consultas| ==> d.consultas[k].inLote
    ensures forall k :: 0 <= k < |d.consultas| ==> ConsultaValue(d.consultas[k]).Ok?
    ensures ConsultaSummary(d) == Ok((|Audit(d, arquivo, v).value|, Total(d.consultas, ConsultaValue)))
  {
    AuditConsultaRows(d, arquivo, v);
    assert forall k :: 0 <= k < |d.consultas| ==> ConsultaValue(d.consultas[k]).Ok?;
    ConsultaSummaryOfBatch(d);
  }

  /** A missing lot number never makes the audit fail, unlike the summary. */
  lemma {:induction false} AuditIgnoresMissingLote(d: Document, arquivo: string, v: Variant)
    ensures Audit(d, arquivo, v).Err? ==> Audit(d, arquivo, v).error != LoteNotFound
  {
    if !IsRecurso(d) {
      var lote := AuditLote(d);
      if IsConsulta(d) {
        var f := ConsultaRowFn(arquivo, lote, v);
        MapAllSpec(d.consultas, f);
        assert Audit(d, arquivo, v) == MapAll(d.consultas, f);
        if MapAll(d.consultas, f).Err? {
          var i :| 0 <= i < |d.consultas| && f(d.consultas[i]) == Err(MapAll(d.consultas, f).error);
          ConsultaRowErr(d.consultas[i], arquivo, lote, v);
        }
      } else {
        var f := SadtRowFn(arquivo, lote, v);
        MapAllSpec(d.sadts, f);
        assert Audit(d, arquivo, v) == MapAll(d.sadts, f);
        if MapAll(d.sadts, f).Err? {
          var i :| 0 <= i < |d.sadts| && f(d.sadts[i]) == Err(MapAll(d.sadts, f).error);
          SadtRowErr(d.sadts[i], arquivo, lote, v);
        }
      }
    }
  }

  /** A row fails only on a number that does not parse or a guide number
      without text. */
  lemma {:induction false} ConsultaRowErr(c: ConsultaGuide, arquivo: string, lote: string, v: Variant)
    ensures ConsultaRowOf(c, arquivo, lote, v).Err? ==>
      ConsultaRowOf(c, arquivo, lote, v).error.InvalidNumber? || ConsultaRowOf(c, arquivo, lote, v).error == TextMissing
  {
    DecFieldErr(c.valorProcedimento);
  }

  lemma {:induction false} SadtRowErr(g: SadtGuide, arquivo: string, lote: string, v: Variant)
    ensures SadtRowOf(g, arquivo, lote, v).Err? ==>
      SadtRowOf(g, arquivo, lote, v).error.InvalidNumber? || SadtRowOf(g, arquivo, lote, v).error == TextMissing
  {
    SadtValuesErr(g);
  }
}
