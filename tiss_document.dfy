/** The part of a TISS XML message (namespace
    http://www.ans.gov.br/padroes/tiss/schemas) that the parser reads, as
    datatypes instead of an element tree searched by XPath. Each field is
    the first element found at the path its comment names. */
module TissDocument {
  import opened Wrappers

  /** The text of an element as ElementTree reports it: no element, an
      element without text (`el.text is None`), or an element with text. */
  datatype Field = Missing | Bare | Text(text: string) {
    /** `el.text if el is not None else None`. */
    function Raw(): Option<string> {
      if Text? then Some(text) else None
    }
  }

  /** procedimentosExecutados/procedimentoExecutado: its valorTotal,
      valorUnitario and quantidadeExecutada children. */
  datatype ProcedureItem = ProcedureItem(valorTotal: Field, valorUnitario: Field, quantidadeExecutada: Field)

  /** outrasDespesas/despesa, with its servicosExecutados child (absent or
      holding a valorTotal). */
  datatype Despesa = Despesa(servicosExecutados: Option<Field>)

  /** The valorTotal block that is a direct child of a guiaSP-SADT. */
  datatype ValorTotalBlock = ValorTotalBlock(
    valorTotalGeral: Field,
    valorProcedimentos: Field,
    valorDiarias: Field,
    valorTaxasAlugueis: Field,
    valorMateriais: Field,
    valorMedicamentos: Field,
    valorGasesMedicinais: Field)

  /** A guiaSP-SADT element anywhere in the document. `inLote` says whether it
      sits at prestadorParaOperadora/loteGuias/guiasTISS, the only place the
      totals count; the classifier and the audit find it wherever it is.
      `procedimentos` and `despesas` are the items found under it, in
      document order. */
  datatype SadtGuide = SadtGuide(
    inLote: bool,
    numeroGuiaPrestador: Field,     // cabecalhoGuia/numeroGuiaPrestador
    valorTotal: Option<ValorTotalBlock>,
    procedimentos: seq<ProcedureItem>,
    despesas: seq<Despesa>)

  /** A guiaConsulta element anywhere in the document (`inLote` as for SADT).
      Its guide number is looked up two ways: as the first numeroGuiaPrestador
      at any depth (inside cabecalhoConsulta in a schema-valid message) and as
      a direct child. */
  datatype ConsultaGuide = ConsultaGuide(
    inLote: bool,
    numeroGuiaPrestador: Field,       // .//numeroGuiaPrestador
    numeroGuiaPrestadorFilho: Field,  // numeroGuiaPrestador, direct child
    valorProcedimento: Field)         // procedimento/valorProcedimento

  /** opcaoRecurso/recursoGuia inside the appeal block. */
  datatype RecursoGuia = RecursoGuia(
    numeroGuiaOrigem: Field,
    numeroGuiaOperadora: Field,
    senha: Field,
    codGlosaGuia: Field,            // recursoGuiaCompleta/codGlosaGuia
    justificativaGuia: Field)       // recursoGuiaCompleta/justificativaGuia

  /** prestadorParaOperadora/recursoGlosa/guiaRecursoGlosa. */
  datatype RecursoBlock = RecursoBlock(
    numeroLote: Field,
    valorTotalRecursado: Field,
    numeroProtocolo: Field,
    guias: seq<RecursoGuia>)

  datatype Document = Document(
    tipoTransacao: Field,           // cabecalho/identificacaoTransacao/tipoTransacao
    loteNumeroLote: Field,          // prestadorParaOperadora/loteGuias/numeroLote
    recurso: Option<RecursoBlock>,
    consultas: seq<ConsultaGuide>,  // every guiaConsulta, in document order
    sadts: seq<SadtGuide>)          // every guiaSP-SADT, in document order

  /** How a file reaches the parser: a path given as a `str`, a `Path`
      object, or an uploaded file object with its `name` attribute (the
      caller supplies "upload.xml" when it has none). */
  datatype Source = PathText(path: string) | PathObject(path: string) | Upload(name: string)

  /** One file handed to the parser: where it came from and its element
      tree, or `None` when the bytes are not well-formed XML. */
  datatype XmlInput = XmlInput(source: Source, tree: Option<Document>)

  /** What `parse_many_xmls` accepts: files named by a `str` or a `Path`. */
  type PathInput = x: XmlInput | !x.source.Upload? witness XmlInput(PathText(""), None)

  /** `Path(p).name` for a POSIX path: the part after the last "/". */
  function BaseName(p: string): (r: string)
    ensures |r| <= |p| && r == p[|p| - |r|..]
    ensures '/' !in r
    ensures |r| < |p| ==> p[|p| - |r| - 1] == '/'
  {
    if p == [] || p[|p| - 1] == '/' then [] else BaseName(p[..|p| - 1]) + [p[|p| - 1]]
  }

  /** The `arquivo` of a record `parse_tiss_xml` returns: the base name of
      the path, or of the upload's name. */
  function RecordName(s: Source): string {
    match s
    case PathText(p) => BaseName(p)
    case PathObject(p) => BaseName(p)
    case Upload(n) => BaseName(n)
  }

  /** The `arquivo` of the error record `parse_many_xmls` builds:
      `Path(p).name` for a `Path`, but the whole `str(p)` for a string,
      which has no `name` attribute. Uploads are not among the inputs its
      signature accepts. */
  function ErrorName(s: Source): string
    requires !s.Upload?
  {
    match s
    case PathText(p) => p
    case PathObject(p) => BaseName(p)
  }

  /** The `arquivo` of every row `audit_por_guia` builds: the upload's name
      as given, or the base name of a path. */
  function AuditName(s: Source): string {
    match s
    case Upload(n) => n
    case PathText(p) => BaseName(p)
    case PathObject(p) => BaseName(p)
  }
}
