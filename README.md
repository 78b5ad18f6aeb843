# TISS billing reconciliation, modelled in Dafny

The system reads TISS XML files that a healthcare provider sends to a health
insurer. There are three kinds of file: consultation guides (CONSULTA),
SP-SADT guides (SADT) and disallowance appeals (RECURSO_GLOSA).

- **Summary per file.** The system summarises each file as one record: its lot number, its kind, the number of guides and the presented total. It also records which strategy produced that total.
- **Audit per guide.** It lists every guide of a file with the figures it declares.
- **Reconciliation screen.**
  - It derives, from the file name, the lot each file claims.
  - It reads the insurer's payment statement (an xlsx table; it models only the rows that `read_excel` returns) and keeps the statements of a session in a bank.
  - It chooses which statement lot each file belongs to and builds a reconciliation key.
  - It joins the files, grouped by key, with the statement, and flags disagreements to the cent.
  - It finds guides that one file repeats from others and removes them from the base document.

The model covers the parser `tiss_parser.py`, its variant `teste.py` and the
reconciliation logic of `app.py`. `tiss_parser3.py` holds earlier copies of both.

Modules, in dependency order:

- `Wrappers`: `Option` and `Result`.
- `Text`: Python's `strip`, `upper`, `isdigit`, `str(int)` and `join`, over ASCII.
- `Decimals`: exact decimal reading of value texts (`_dec`).
- `Accumulation`: sums and maps that stop at the first failure, filters, and the loops that compute them.
- `Grouping`: a generic group-by with merge, as pandas `groupby().sum()` / `agg` do it.
- `TissDocument`: the parsed XML tree as a value. It holds the header, the guide batch, the guides found anywhere, and the appeal block.
- `Strategies`: the per-guide strategies of SP-SADT totals, their counter and the document label.
- `TissParser`: `_get_text`, `_get_numero_lote`, the classification, the per-kind totals, `_parse_root`, `parse_tiss_xml` and `parse_many_xmls`.
- `TissAudit`: `audit_por_guia`, in its `tiss_parser.py` form (`V07`) and its `teste.py` form (`V08`).
- `Lote`: `extract_lote_from_filename` (the regular expression as a greedy matcher, proved against the pattern) and `_norm_lote`.
- `Statement`: `ler_demonstrativo_pagto_xlsx` after `read_excel`, `_agg_demo`, and the session's statement bank as a class.
- `XmlTable`: the table of parsed files as a class whose `_df_format` columns are assigned in place, and `_make_agg`.
- `Reconcile`: `choose_demo_lote`, `chave_concil` and `_make_baixa_por_lote`.
- `Duplicates`: the duplicate-guide comparison loop and `remover_guias`.

Amounts are Dafny `real`s: sums are exact, as Python's `Decimal` is in this
range. The statement columns pandas holds as floats are modelled exactly too;
see "Left out".

## Model

| member | source | states |
|---|---|---|
| Decimals.DecBlankFails | tiss_parser.py:24-31 | a value text made only of whitespace is not read as zero; it fails |
| Decimals.DecCommaNumeral | tiss_parser.py:24-31 | a numeral written with a decimal comma reads as its exact value |
| Decimals.DecCommaAsPeriod | tiss_parser.py:24-31 | the same text with '.' in place of ',' reads the same |
| Decimals.DecThousandsSeparatorFails | tiss_parser.py:24-31 | "1.234,56" is a failure, not a number |
| Decimals.DecUnpadded | tiss_parser.py:24-31 | text without surrounding whitespace is read after replacing ',' by '.' |
| Text.StripSpec | tiss_parser.py:34-40 | stripping yields an infix of the text with only whitespace outside it, and neither starts nor ends with whitespace |
| Text.StripIdempotent | tiss_parser.py:34-40 | stripping twice is stripping once |
| Text.StripEmptyIff | tiss_parser.py:34-40 | stripping leaves the empty text exactly when the text is all whitespace |
| Text.DigitsOfSpec | app.py:155-156 | the digits of a text: a digit run is kept as is; empty exactly when the text has no digit |
| Text.CanonicalRoundTrip | app.py:150-152 | a canonical digit run is the rendering of its own integer value |
| Accumulation.SumOfSpec | tiss_parser.py:86-96 | a sum of parsed values succeeds exactly when every value parses, is then the plain sum, and otherwise fails with the first failing value's error |
| Accumulation.Accumulate | tiss_parser.py:102-113 | the `total += _dec(...)` loop computes that sum, stopping at the first failure |
| Accumulation.MapAllSpec | tiss_parser.py:376-391 | collecting per-element results succeeds exactly when each does, with one result per element in order, else the first error |
| Accumulation.Collect | tiss_parser.py:394-413 | the `out.append(...)` loop computes that collection |
| Grouping.GroupBySpec | app.py:184-192 | grouping gives one row per key that occurs, holding the merge of that key's rows, and no other |
| Grouping.GroupBySum | app.py:184-192 | a group-by with an additive merge keeps every column's total |
| TissParser.GetNumeroLote | tiss_parser.py:64-80 | the batch lot when not blank, else the appeal block's lot when not blank, else an error; the result is stripped and never empty |
| TissParser.ClassifyPrecedence | tiss_parser.py:217-266 | an appeal wins over any guide and a consultation over SP-SADT; DESCONHECIDO exactly when there is neither an appeal nor any guide |
| TissParser.SumConsulta | tiss_parser.py:86-96 | the loop returns the number of batch consultations and the sum of their procedure values, or the first value's error |
| TissParser.ConsultaSummaryOfBatch | tiss_parser.py:86-96 | when every consultation is in the batch and parses, all are counted and all their values added |
| TissParser.SumItensProcedimentos | tiss_parser.py:102-113 | the item loop sums each item's valorTotal, else unit value times quantity, else nothing |
| TissParser.SumItensOutrasDesp | tiss_parser.py:116-124 | the other-expense loop sums the valorTotal under each servicosExecutados |
| TissParser.SumComponentesValorTotal | tiss_parser.py:127-141 | the six components of the valorTotal block are summed in order |
| TissParser.SumSadtGuia | tiss_parser.py:144-171 | the guide value is the first positive of grand total, items, components, with its strategy; zero otherwise; positive exactly when the strategy is not zero |
| TissParser.GrandTotalWins | tiss_parser.py:151-157 | a positive declared grand total decides, even when the items would not parse |
| TissParser.ItemsWhenNoGrandTotal | tiss_parser.py:159-164 | an absent, zero or negative grand total is passed over for a positive item sum |
| TissParser.ComponentsWhenNothingElse | tiss_parser.py:166-171 | otherwise the block's components decide, and three non-positive figures give zero |
| TissParser.BadGrandTotalFails | tiss_parser.py:151-157 | an unparsable grand total makes the guide fail even when its items would give a value |
| TissParser.SumSadt | tiss_parser.py:174-193 | the document loop sums the batch guides' values and labels their strategies |
| TissParser.SadtSummaryZeroIff | tiss_parser.py:174-193 | the SP-SADT total is never negative and is zero exactly when the label is "zero" |
| TissParser.SadtSummaryCount | tiss_parser.py:174-193 | every batch guide is counted once and the per-strategy counts add up to that number |
| TissParser.ParseRoot | tiss_parser.py:217-266 | the record: lot first (its absence is an error for every kind), then the totals of the classified kind |
| TissParser.RecursoSummarySpec | tiss_parser.py:199-211 | the appeal summary counts the recursoGuia entries, reads valorTotalRecursado as a number (blank is zero, fails exactly on a non-blank non-numeral) and takes numeroProtocolo as stripped text; zero, zero and "" without an appeal block |
| TissParser.RecursoRecordShape | tiss_parser.py:221-236 | an appeal record counts the recursoGuia entries, totals valorTotalRecursado, has the fixed strategy text, and carries numeroProtocolo as its protocol exactly when that number is not empty |
| TissParser.ParsedRecordShape | tiss_parser.py:217-266 | a record names its file, carries a stripped non-empty lot, the classified kind, zero glosa and liberated values, no error, and a protocol only for an appeal |
| TissParser.ParsedStrategy | tiss_parser.py:254-255 | the strategy text is fixed by the kind except for SP-SADT; a DESCONHECIDO file counts nothing |
| TissParser.SadtRecordZeroIff | tiss_parser.py:254-255 | an SP-SADT record's total is never negative and zero exactly when its strategy is "zero" |
| TissParser.ConsultaOutsideBatch | tiss_parser.py:239-251 | a consultation document whose consultations all lie outside the batch is a CONSULTA with no guide and a zero total |
| TissParser.ParseTissXml | tiss_parser.py:269-286 | a file is read and then summarised; a tree that cannot be read is an error |
| TissParser.ParseMany | tiss_parser.py:289-311 | one record per file, in order; a failing file gets an error record and does not stop the others |
| TissParser.ParseFileSpec | tiss_parser.py:295-310 | a file's record carries an error exactly when the file failed, and is then the error record with no lot, kind DESCONHECIDO, nothing counted, strategy "erro"; a summary is named by the path's base name, an error record by the base name of a `Path` but by the whole text of a `str` path |
| TissParser.BaseNameAfterSlash | tiss_parser.py:284-285 | a path's name (`Path(p).name`) is exactly what follows its last "/" |
| TissParser.FileNameDependsOnOutcome | tiss_parser.py:284-285 | the `str` path "dir/x.xml" names a summary "x.xml" but an error record "dir/x.xml" (line 300) |
| Strategies.RankIsNameOrder | tiss_parser.py:190-192 | the strategies' rank is Python's order on their names |
| Strategies.TallyIsMultiset | tiss_parser.py:177-182 | the counter holds exactly the strategies used, each with its number of guides |
| Strategies.LabelUniform | tiss_parser.py:187-188 | when every guide used one strategy, the label is its name |
| Strategies.LabelMixed | tiss_parser.py:189-192 | when guides disagree the label is "misto: " and every strategy used, each once with its count, by descending count then name |
| Strategies.LabelZeroIff | tiss_parser.py:187-192 | the label is "zero" exactly when every guide's strategy was zero |
| Strategies.LabelTieExample | tiss_parser.py:189-192 | a tie on count is broken by name |
| Strategies.FoldSpec | tiss_parser.py:175-182 | the document fold is the sum of guide values plus the tally of strategies, failing exactly when that sum fails, with the first error |
| Strategies.SummarizeEach | tiss_parser.py:174-193 | the `_sum_sadt` loop computes that summary |
| Strategies.FoldCountsAddUp | tiss_parser.py:177-182 | the per-strategy counts add up to the number of guides |
| TissAudit.AuditPorGuia | tiss_parser.py:317-414 | the audit loop returns the rows of the file's kind, or the error of the tree or of the first failing value |
| TissAudit.AppendRecursoRows | tiss_parser.py:354-371 | one row appended per appeal entry |
| TissAudit.AuditRecursoRows | tiss_parser.py:350-372 | an appeal gives one row per entry, never fails, with the block's lot, its protocol, the entry's numbers, and justification columns only in the `tiss_parser.py` form |
| TissAudit.RecursoLoteSpec | tiss_parser.py:343-364 | an appeal row's lot is the block's, else the document's; it is empty exactly when the summary would fail for want of a lot |
| TissAudit.AuditConsultaRows | tiss_parser.py:375-391 | a consultation file gives one row per consultation anywhere in it, with its procedure value as total and subtotals and no other expenses |
| TissAudit.ConsultaNumeroVariants | teste.py:308-314 | the `teste.py` number lookup cannot fail, while the `tiss_parser.py` one fails exactly on an element without text |
| TissAudit.AuditSadtRows | tiss_parser.py:394-413 | an SP-SADT file gives one row per guide anywhere, with the declared grand total whatever its sign and the item subtotal as the sum of the two subtotals |
| TissAudit.SadtRowAgreesWithSummary | tiss_parser.py:394-413 | an audit row agrees with the tier the summary picks: a positive declared total, else a positive item subtotal |
| TissAudit.ConsultaAuditAgreesWithSummary | tiss_parser.py:375-391 | with every consultation in the batch, the audit lists exactly the summands of the summary total |
| TissAudit.AuditIgnoresMissingLote | tiss_parser.py:343-347 | a missing lot never makes the audit fail |
| Lote.ExtractLoteSpec | app.py:65-76 | the lot read from a file name is the digit group of the leftmost match of the pattern; none exactly when no position matches |
| Lote.ExtractLoteExample | app.py:65-76 | "Lote_0481.xml" gives "0481" |
| Lote.NormLoteDigits | app.py:144-156 | a digit run, with or without ".0", normalises to its number without leading zeros |
| Lote.NormLoteLeadingZeros | app.py:144-156 | leading zeros do not change a lot |
| Lote.NormLoteCanonical | app.py:144-156 | a canonical lot number is its own normal form |
| Lote.NormLoteNone | app.py:144-156 | no lot comes only from a missing cell; the normal form is empty only for blank text |
| Lote.NormLoteNotIdempotent | app.py:148-156 | normalising twice can differ from once: a code such as "A07" keeps "07", which then loses its zero |
| Statement.AggDemoUnique | app.py:376-385 | grouped statement rows have one row per (lot, competência) holding the sum of that key's rows |
| Statement.AggDemoTotals | app.py:376-385 | grouping loses no amount and no line |
| Statement.AggDemoIdempotent | app.py:376-385 | regrouping a grouped table changes nothing |
| Statement.AddTwice | app.py:387-390 | adding statement A then B leaves the bank as adding both at once |
| Statement.DemoBank.constructor | app.py:371-374 | the session starts with an empty bank |
| Statement.DemoBank.Add | app.py:387-390 | the bank becomes the regrouped old rows plus the new ones, still one row per key |
| Statement.DemoBank.Clear | app.py:392-393 | the bank becomes empty |
| Statement.DemoBank.Snapshot | app.py:427 | the copy handed to the reconciliation is the bank's rows, with at most one row per (lot, competência) |
| Statement.ReadStatementErrors | app.py:158-178 | rejected for want of a header exactly when no first cell reads "CPF/CNPJ"; else rejected exactly when a required column is missing, naming them in order |
| Statement.MissingSpec | app.py:175-178 | the columns reported missing are exactly the required columns the header lacks |
| Statement.FromHeaderOk | app.py:175-192 | past the header, a statement is read exactly when every required column exists, and is then the groups of the data rows |
| Statement.FromHeaderTotals | app.py:180-192 | each amount column sums to the coerced cells of the data rows, and the lines to the rows with a lot |
| Statement.GroupedSpec | app.py:184-192 | the statement table is the group-by-sum of its reduced rows |
| Statement.LinhasOfRow | app.py:184-192 | a row counts as a line exactly when it has a lot |
| XmlTable.XmlFrame.Format | app.py:87-129 | assigns per record the name's lot, `suspeito` exactly when guides were counted but total zero, and `lote_confere` exactly when the name's lot (or '') equals the file's |
| XmlTable.SortedFilter | app.py:128 | keeping some rows of a table in `_df_format`'s (lot, kind, file name) order keeps them in that order |
| XmlTable.MakeAgg | app.py:131-139 | no aggregate rows for an empty table |
| XmlTable.MakeAggGroups | app.py:131-139 | one aggregate row per (lot, kind) that occurs, combining that key's files |
| XmlTable.MakeAggTotals | app.py:131-139 | the aggregate's file counts add up to the number of files, its guides and values to theirs |
| Grouping.SelectMapSeq | app.py:261-272 | the values a group collects are those of exactly the rows with its key, in the rows' order |
| Reconcile.ChooseDemoLoteReference | app.py:216-237 | the prefix tests never change the choice: it equals the choice without them |
| Reconcile.ChooseDemoLoteRange | app.py:216-237 | the chosen lot is the file's lot, the name's lot or nothing, nothing exactly when both are empty, and never empty text |
| Reconcile.ChooseRecursoIgnoresStatement | app.py:221-228 | for an appeal the statement is not consulted: the name's lot wins whenever there is one |
| Reconcile.ChooseOtherPrefersKnown | app.py:229-237 | for other kinds a lot the statement knows is preferred, the file's before the name's, and an unknown lot only when neither is known |
| Reconcile.ChaveLote | app.py:239-243 | the key's lot is the chosen lot when there is one, else the file's, else the name's, else '' |
| Reconcile.ChaveInjective | app.py:239-243 | keys on digit lots are equal exactly when both lot and kind are |
| Reconcile.Baixa | app.py:249-297 | no rows exactly when there are no files |
| Reconcile.BaixaSpec | app.py:249-297 | the table holds, for every group of files by (key, lot, kind), the rows of its left join with the statement, and no other row |
| Reconcile.BaixaFirsts | app.py:261-272 | every group has files; its `numero_lote_xml` is the lot of its first file and its `lote_arquivo` the first lot read from a name among its files; when the table is in `_df_format`'s (lot, kind, file name) order, so are each group's files, so both are the firsts in that order |
| Reconcile.CombineFirsts | app.py:270-271 | pandas `first` over the merged contributions of some files keeps the first file's lot and the first name lot present |
| Reconcile.JoinGroupSpec | app.py:276-281 | a group with no statement row of its lot gives one row without statement columns; otherwise its rows are exactly the joins with the statement rows of its lot |
| Reconcile.JoinGroupCount | app.py:276-281 | a group with statement rows of its lot gets one joined row per such row, in order, each statement row as often as it occurs in the statement |
| Reconcile.MatchedFlags | app.py:283-287 | the difference is total minus presented; `apresentado_confere` exactly when it is within 0.01, `demonstrativo_confere` exactly when presented is within 0.01 of approved plus disallowed |
| Reconcile.UnmatchedReadsAsAgreeing | app.py:283-287 | a group without a statement row has zero difference and both flags set, since missing amounts are filled with 0 |
| Reconcile.XmlGroupsTotals | app.py:265-273 | grouping the files loses no file, guide or value |
| Duplicates.FindDuplicates | app.py:503-519 | the loop reports the base's guides whose number another file's guide also has, in the base's order |
| Duplicates.DuplicatesSpec | app.py:503-519 | a base guide is reported exactly when it has a number that some other file's guide has |
| Duplicates.RemoverGuias | app.py:534-556 | one duplicate at a time, the guides of its kind carrying its number are dropped; the result is the document without every guide some duplicate removes |
| Duplicates.RemoveAllSpec | app.py:534-556 | a guide survives exactly when no duplicate removes it; header, lot and appeal fields are untouched |
| Duplicates.RemoveNothing | app.py:534-556 | with no duplicate the document comes back unchanged |
| Duplicates.RemoveAllIdempotent | app.py:534-556 | removing the same duplicates again removes nothing more |

The classification, summaries and audit of `teste.py` (lines 23-350) and of
`tiss_parser3.py` (lines 682-1303) are the same as those of `tiss_parser.py`.
The exceptions are the audit differences the `V08` variant captures, and the
extra display columns of the `-08` audit listed under "Left out". The `-08` lot
lookup at `tiss_parser3.py:1128-1135` is a verbatim copy of `tiss_parser.py:64-80`.
The reconciliation of `tiss_parser3.py` lines 2-681 is the same as that of `app.py`.

## Left out

- The Streamlit user interface, `session_state` and all widgets: only the data each screen computes is modelled.
- File I/O, XML parsing, xlsx reading and writing, and XPath search. The document is a value, with each guide flagged as inside or outside the guide batch. Pretty-printing and writing the cleaned XML are not modelled.
- `remover_guias` edits the lxml tree in place. The model computes the resulting document as a value. It drops appeal entries only inside the one appeal block and matches `cabecalhoGuia` at any depth.
- A tree that cannot be read: only the fact that it failed is modelled. The exception texts are not.
- Several appeal blocks in one file: the document holds at most one.
- Python `Decimal` rounding beyond 28 digits, exponents, `NaN`/`Infinity`, underscores, and Unicode digits and whitespace: numerals are ASCII and exact.
- `_to_float` and pandas float arithmetic: statement amounts, the 0.01 tolerance and the differences are exact reals. `pd.to_numeric` coercion is modelled on a cell that either is a number or is not.
- The float forms of `_norm_lote` (a float cell goes through `str`): lots are modelled on the cell's text.
- `read_excel`'s own header detection and duplicate column names: the statement is the list of rows as pandas returns them.
- Row order of the outputs: pandas `groupby` and the final `sort_values` of `_make_agg` and `_make_baixa_por_lote` (app.py:138, app.py:296) order the output rows by key. The model keeps first-appearance order, so for these tables it states which rows there are and not their order.
- XmlTable.XmlFrame.Format: does not reorder the records. `_df_format` ends by sorting them by (numero_lote, tipo, arquivo) (app.py:128); that order is stated as `XmlTable.SortedRows`, and the model's results that depend on the input order are stated for it.
- Reconcile.BaixaSpec: states each group as the merge of its files in the table's order. The `first` columns that this order decides are stated by Reconcile.BaixaFirsts for a table in `_df_format`'s order.
- Non-ASCII whitespace and case: Python's `str.strip()` also removes U+00A0, U+0085, U+3000 and the other Unicode spaces, and `str.upper()` also maps letters outside ASCII (for instance 'ı' to 'I' and 'ſ' to 'S'). The model strips and upper-cases ASCII only, in `_get_text` (tiss_parser.py:40), `_is_recurso` (tiss_parser.py:59), `_norm_lote` (app.py:148), `choose_demo_lote` (app.py:217-219) and the statement's header and lot texts (app.py:166, app.py:185, app.py:211). Likewise `\s` in the file-name pattern of `extract_lote_from_filename` (app.py:65) matches the Unicode spaces in Python, while `Lote.MatchesAt` and `Lote.MatchAt` use the ASCII `Text.IsSpace`.
- `lote_arquivo_int`: a display column nothing else reads.
- `Path(p).name` is the text after the last "/". Trailing separators, "." segments and Windows separators are not normalised.
- `parse_many_xmls` is modelled on `str` and `Path` inputs only, as its signature states. An uploaded file object would fail again inside its error handler.
- The audit's patient, doctor and date columns: `teste.py`'s, and those of the `-08` audit at `tiss_parser3.py:1279-1303` (`dataAtendimento`, read from `dataRecurso` for appeals, `paciente_id` from `numeroCarteira` and `profissional_id` from `codigoPrestadorNaOperadora`, on the RECURSO, CONSULTA and SADT rows). They are read only for display and no model row carries them.
- Statement.DemoBank: the bank is a sequence of rows kept with one row per key, not a pandas DataFrame.
