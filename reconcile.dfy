/** Reconciliation of the XML files against the payment statements (app.py
    `_build_chave_concil` and `_make_baixa_por_lote`): every file is given
    the statement lot to look for (`choose_demo_lote`) and a reconciliation
    key that keeps its kind apart (`chave_concil`); files are grouped by
    (key, lot, kind) and left-joined with the statement rows of that lot,
    and each joined row carries the two agreement flags. */
module Reconcile {
  import opened Wrappers
  import opened Text
  import opened Accumulation
  import opened Grouping
  import opened Lote
  import opened Statement
  import opened XmlTable

  // ---- choose_demo_lote ----

  /** `demo_keys`: the stripped lots that occur in the statement. */
  function KnownKeys(demo: seq<DemoRow>): set<string> {
    set i | 0 <= i < |demo| && demo[i].0.0.Some? :: Strip(demo[i].0.0.value)
  }

  /** `a or b or None` on two stripped texts. */
  function OrNone(a: string, b: string): (r: Option<string>)
    ensures r == None <==> a == "" && b == ""
  {
    if a != "" then Some(a) else if b != "" then Some(b) else None
  }

  /** `num.startswith(arq)` with both present and `arq` in the statement. */
  predicate PrefixKnown(num: string, arq: string, keys: set<string>) {
    num != "" && arq != "" && StartsWith(num, arq) && arq in keys
  }

  /** `choose_demo_lote`: `numNorm` is the normalised lot in the file,
      `arqNorm` the normalised lot in its name; the kind is upper-cased and
      both lots stripped, missing ones read as ''. */
  function ChooseDemoLote(tipo: string, numNorm: Option<string>, arqNorm: Option<string>, keys: set<string>): Option<string> {
    ChooseStripped(Upper(tipo), Strip(numNorm.GetOr("")), Strip(arqNorm.GetOr("")), keys)
  }

  /** The branches of `choose_demo_lote`, on the upper-cased kind and the
      stripped lots. */
  function ChooseStripped(kind: string, num: string, arq: string, keys: set<string>): Option<string> {
    if kind == "RECURSO" then
      if arq != "" && arq in keys then Some(arq)
      else if PrefixKnown(num, arq, keys) then Some(arq)
      else OrNone(arq, num)
    else
      if num != "" && num in keys then Some(num)
      else if PrefixKnown(num, arq, keys) then Some(arq)
      else if arq != "" && arq in keys then Some(arq)
      else OrNone(num, arq)
  }

  /** The choice with no prefix heuristic: an appeal takes the name's lot
      before its own; any other file takes its own lot when the statement
      has it, else the name's lot when the statement has that, else its own
      lot before the name's. */
  function ChooseReference(kind: string, num: string, arq: string, keys: set<string>): Option<string> {
    if kind == "RECURSO" then OrNone(arq, num)
    else if num != "" && num in keys then Some(num)
    else if arq != "" && arq in keys then Some(arq)
    else OrNone(num, arq)
  }

  /** The prefix heuristic never decides anything: in both branches it only
      picks the name's lot when the statement has it, which the next (or
      the previous) test picks anyway. */
  lemma {:induction false} ChooseDemoLoteReference(tipo: string, numNorm: Option<string>, arqNorm: Option<string>, keys: set<string>)
    ensures ChooseDemoLote(tipo, numNorm, arqNorm, keys)
         == ChooseReference(Upper(tipo), Strip(numNorm.GetOr("")), Strip(arqNorm.GetOr("")), keys)
  {
    StrippedReference(Upper(tipo), Strip(numNorm.GetOr("")), Strip(arqNorm.GetOr("")), keys);
  }

  lemma {:induction false} StrippedReference(kind: string, num: string, arq: string, keys: set<string>)
    ensures ChooseStripped(kind, num, arq, keys) == ChooseReference(kind, num, arq, keys)
  {
    if kind == "RECURSO" && PrefixKnown(num, arq, keys) {
      assert arq != "" && arq in keys;
    }
  }

  /** The chosen lot is the file's own lot, the name's lot, or nothing, and
      it is nothing exactly when both are empty. */
  lemma {:induction false} ChooseDemoLoteRange(tipo: string, numNorm: Option<string>, arqNorm: Option<string>, keys: set<string>)
    ensures var num, arq := Strip(numNorm.GetOr("")), Strip(arqNorm.GetOr(""));
      var r := ChooseDemoLote(tipo, numNorm, arqNorm, keys);
      && (r == None || r == Some(num) || r == Some(arq))
      && (r == None <==> num == "" && arq == "")
      && (r.Some? ==> r.value != "")
  {
    ChooseDemoLoteReference(tipo, numNorm, arqNorm, keys);
    ReferenceRange(Upper(tipo), Strip(numNorm.GetOr("")), Strip(arqNorm.GetOr("")), keys);
  }

  lemma {:induction false} ReferenceRange(kind: string, num: string, arq: string, keys: set<string>)
    ensures var r := ChooseReference(kind, num, arq, keys);
      && (r == None || r == Some(num) || r == Some(arq))
      && (r == None <==> num == "" && arq == "")
      && (r.Some? ==> r.value != "")
  {
  }

  /** For an appeal the statement is not consulted: the name's lot wins
      whenever there is one. */
  lemma {:induction false} ChooseRecursoIgnoresStatement(tipo: string, numNorm: Option<string>, arqNorm: Option<string>, k1: set<string>, k2: set<string>)
    requires Upper(tipo) == "RECURSO"
    ensures ChooseDemoLote(tipo, numNorm, arqNorm, k1) == ChooseDemoLote(tipo, numNorm, arqNorm, k2)
    ensures Strip(arqNorm.GetOr("")) != "" ==> ChooseDemoLote(tipo, numNorm, arqNorm, k1) == Some(Strip(arqNorm.GetOr("")))
  {
    ChooseDemoLoteReference(tipo, numNorm, arqNorm, k1);
    ChooseDemoLoteReference(tipo, numNorm, arqNorm, k2);
  }

  /** `r` prefers a lot the statement knows: the file's own when known,
      else the name's when known; and it is a lot the statement knows only
      when one of the two is. */
  predicate PrefersKnown(r: Option<string>, num: string, arq: string, keys: set<string>) {
    && (num != "" && num in keys ==> r == Some(num))
    && (!(num != "" && num in keys) && arq != "" && arq in keys ==> r == Some(arq))
    && (r.Some? && r.value in keys <==> (num != "" && num in keys) || (arq != "" && arq in keys))
  }

  /** For any other file, a lot the statement knows is preferred: its own
      when known, else the name's when known; and only when neither is
      known does it fall back to a lot the statement lacks. */
  lemma {:induction false} ChooseOtherPrefersKnown(tipo: string, numNorm: Option<string>, arqNorm: Option<string>, keys: set<string>)
    requires Upper(tipo) != "RECURSO"
    ensures PrefersKnown(ChooseDemoLote(tipo, numNorm, arqNorm, keys), Strip(numNorm.GetOr("")), Strip(arqNorm.GetOr("")), keys)
  {
    ChooseDemoLoteReference(tipo, numNorm, arqNorm, keys);
    ReferencePrefersKnown(Upper(tipo), Strip(numNorm.GetOr("")), Strip(arqNorm.GetOr("")), keys);
  }

  lemma {:induction false} ReferencePrefersKnown(kind: string, num: string, arq: string, keys: set<string>)
    requires kind != "RECURSO"
    ensures PrefersKnown(ChooseReference(kind, num, arq, keys), num, arq, keys)
  {
  }

  // ---- chave_concil ----

  /** `demo_lote or numero_lote_norm or lote_arquivo_norm or ''`. */
  function ChaveLote(demo: Option<string>, numNorm: Option<string>, arqNorm: Option<string>): (r: string)
    ensures r == "" || Some(r) == demo || Some(r) == numNorm || Some(r) == arqNorm
    ensures demo.Some? && demo.value != "" ==> r == demo.value
    ensures !(demo.Some? && demo.value != "") && numNorm.Some? && numNorm.value != "" ==> r == numNorm.value
    ensures (!(demo.Some? && demo.value != "") && !(numNorm.Some? && numNorm.value != "")
             && arqNorm.Some? && arqNorm.value != "") ==> r == arqNorm.value
    ensures r == "" <==>
      !(demo.Some? && demo.value != "") && !(numNorm.Some? && numNorm.value != "") && !(arqNorm.Some? && arqNorm.value != "")
  {
    if demo.Some? && demo.value != "" then demo.value
    else if numNorm.Some? && numNorm.value != "" then numNorm.value
    else if arqNorm.Some? && arqNorm.value != "" then arqNorm.value
    else ""
  }

  const Separator: string := "__"

  /** `chave_concil`: the lot, "__", the kind. */
  function ChaveConcil(demo: Option<string>, numNorm: Option<string>, arqNorm: Option<string>, tipo: string): string {
    ChaveLote(demo, numNorm, arqNorm) + Separator + tipo
  }

  /** Keys built on lots made of digits determine both the lot and the kind:
      an invoice and an appeal of the same lot never share a key, and two
      lots never do. */
  lemma {:induction false} ChaveInjective(l1: string, t1: string, l2: string, t2: string)
    requires AllDigits(l1) && AllDigits(l2)
    ensures l1 + Separator + t1 == l2 + Separator + t2 <==> l1 == l2 && t1 == t2
  {
    if |l1| < |l2| {
      ShorterLotDiffers(l1, t1, l2, t2);
    } else if |l2| < |l1| {
      ShorterLotDiffers(l2, t2, l1, t1);
    } else if l1 + Separator + t1 == l2 + Separator + t2 {
      var k := l1 + Separator + t1;
      assert l1 == k[..|l1|] == l2;
      assert t1 == k[|l1| + 2..] == t2;
    }
  }

  lemma {:induction false} ShorterLotDiffers(l1: string, t1: string, l2: string, t2: string)
    requires AllDigits(l2) && |l1| < |l2|
    ensures l1 + Separator + t1 != l2 + Separator + t2
  {
    assert (l1 + Separator + t1)[|l1|] == '_';
    assert (l2 + Separator + t2)[|l1|] == l2[|l1|];
  }

  // ---- _make_baixa_por_lote ----

  /** (chave_concil, demo_lote, tipo). */
  type BaixaKey = (string, Option<string>, string)

  /** The aggregates of one group of files: `count`, the two `sum`s and the
      two `first`s (first value present). */
  datatype XmlGroup = XmlGroup(
    qtdeArquivos: nat,
    qtdeGuiasXml: nat,
    valorTotalXml: real,
    numeroLoteXml: Option<string>,
    loteArquivo: Option<string>)

  /** pandas' `first`: the first value that is present. */
  function FirstPresent(a: Option<string>, b: Option<string>): Option<string> {
    if a.Some? then a else b
  }

  function MergeGroup(a: XmlGroup, b: XmlGroup): XmlGroup {
    XmlGroup(a.qtdeArquivos + b.qtdeArquivos, a.qtdeGuiasXml + b.qtdeGuiasXml,
             a.valorTotalXml + b.valorTotalXml,
             FirstPresent(a.numeroLoteXml, b.numeroLoteXml), FirstPresent(a.loteArquivo, b.loteArquivo))
  }

  /** One file's group key and its contribution to the group. */
  function GroupRowOf(keys: set<string>, r: XmlRow): (BaixaKey, XmlGroup) {
    var num := NormLote(Some(r.numeroLote));
    var arq := NormLote(r.loteArquivo);
    var d := ChooseDemoLote(r.tipo, num, arq, keys);
    ((ChaveConcil(d, num, arq, r.tipo), d, r.tipo),
     XmlGroup(1, r.qtdeGuias, r.valorTotal, Some(r.numeroLote), r.loteArquivo))
  }

  function GroupRowFn(keys: set<string>): XmlRow -> (BaixaKey, XmlGroup) {
    r => GroupRowOf(keys, r)
  }

  /** The files grouped by (key, lot, kind). */
  function XmlGroups(xml: seq<XmlRow>, demo: seq<DemoRow>): seq<(BaixaKey, XmlGroup)> {
    GroupMap(xml, GroupRowFn(KnownKeys(demo)), MergeGroup)
  }

  /** One row of the settlement table. */
  datatype BaixaRow = BaixaRow(
    chave: string,
    demoLote: Option<string>,
    tipo: string,
    competencia: Option<string>,
    qtdeArquivos: nat,
    qtdeGuiasXml: nat,
    valorTotalXml: real,
    valorApresentado: Option<real>,
    valorApurado: Option<real>,
    valorGlosa: Option<real>,
    liberadoPlusGlosa: real,
    apresentadoDiff: real,
    apresentadoConfere: bool,
    demonstrativoConfere: bool,
    numeroLoteXml: Option<string>,
    loteArquivo: Option<string>)

  /** Amounts that agree to the cent. */
  const Tolerance: real := 0.01

  function Abs(x: real): real { if x < 0.0 then -x else x }

  function OrZero(v: Option<real>): real { v.GetOr(0.0) }

  /** A group joined with one statement row, or with none (`how='left'`
      leaves the statement columns missing); the missing amounts read as 0
      in the difference and in the flags. */
  function BaixaOf(key: BaixaKey, g: XmlGroup, d: Option<DemoRow>): BaixaRow {
    var comp := if d.Some? then Some(d.value.0.1) else None;
    var ap := if d.Some? then Some(d.value.1.apresentado) else None;
    var apu := if d.Some? then Some(d.value.1.apurado) else None;
    var gl := if d.Some? then Some(d.value.1.glosa) else None;
    var diff := if ap.Some? then g.valorTotalXml - ap.value else 0.0;
    var lpg := OrZero(apu) + OrZero(gl);
    BaixaRow(key.0, key.1, key.2, comp, g.qtdeArquivos, g.qtdeGuiasXml, g.valorTotalXml,
             ap, apu, gl, lpg, diff, Abs(diff) <= Tolerance, Abs(OrZero(ap) - lpg) <= Tolerance,
             g.numeroLoteXml, g.loteArquivo)
  }

  /** The statement row has the group's lot; a missing lot meets a missing
      lot, as pandas joins missing keys with each other. */
  predicate LotIs(lot: Option<string>, d: DemoRow) {
    d.0.0 == lot
  }

  function LotFn(lot: Option<string>): DemoRow -> bool {
    d => LotIs(lot, d)
  }

  function MatchFn(key: BaixaKey, g: XmlGroup): DemoRow -> BaixaRow {
    d => BaixaOf(key, g, Some(d))
  }

  /** The left join of one group: a row per statement row of its lot, or a
      single row without statement columns when there is none. */
  function JoinGroup(key: BaixaKey, g: XmlGroup, demo: seq<DemoRow>): seq<BaixaRow> {
    var ms := Filter(demo, LotFn(key.1));
    if ms == [] then [BaixaOf(key, g, None)] else MapSeq(ms, MatchFn(key, g))
  }

  function JoinFn(demo: seq<DemoRow>): ((BaixaKey, XmlGroup)) -> seq<BaixaRow> {
    (g: (BaixaKey, XmlGroup)) => JoinGroup(g.0, g.1, demo)
  }

  /** The joins of the groups, one after the other. */
  function JoinAll(gs: seq<(BaixaKey, XmlGroup)>, demo: seq<DemoRow>): seq<BaixaRow> {
    FlatMap(gs, JoinFn(demo))
  }

  /** `_make_baixa_por_lote`: nothing for no files; otherwise the groups of
      the files, each left-joined with the statement. */
  function Baixa(xml: seq<XmlRow>, demo: seq<DemoRow>): (r: seq<BaixaRow>)
    ensures xml == [] <==> r == []
  {
    if xml == [] then []
    else
      var gs := XmlGroups(xml, demo);
      GroupMapNonEmpty(xml, GroupRowFn(KnownKeys(demo)), MergeGroup);
      JoinAllNonEmpty(gs, demo);
      JoinAll(gs, demo)
  }

  // ---- properties ----

  lemma {:induction false} GroupMapNonEmpty<T, K, A>(xs: seq<T>, f: T -> (K, A), merge: (A, A) -> A)
    requires xs != []
    ensures GroupMap(xs, f, merge) != []
  {
    GroupMapSpec(xs, f, merge);
    GroupBySpec(MapSeq(xs, f), merge);
    assert Find(GroupMap(xs, f, merge), MapSeq(xs, f)[0].0) < |GroupMap(xs, f, merge)|;
  }

  lemma {:induction false} JoinAllNonEmpty(gs: seq<(BaixaKey, XmlGroup)>, demo: seq<DemoRow>)
    requires gs != []
    ensures JoinAll(gs, demo) != []
  {
    JoinGroupNonEmpty(gs[|gs| - 1].0, gs[|gs| - 1].1, demo);
    assert JoinFn(demo)(gs[|gs| - 1]) == JoinGroup(gs[|gs| - 1].0, gs[|gs| - 1].1, demo);
  }

  /** The left join of a group: with no statement row of its lot it gives
      exactly one row without statement columns; otherwise every row it
      gives is the group joined with a statement row of its lot, and every
      statement row of its lot gives one. */
  lemma {:induction false} JoinGroupSpec(key: BaixaKey, g: XmlGroup, demo: seq<DemoRow>)
    ensures (forall i :: 0 <= i < |demo| ==> demo[i].0.0 != key.1) ==>
      JoinGroup(key, g, demo) == [BaixaOf(key, g, None)]
    ensures (exists i :: 0 <= i < |demo| && demo[i].0.0 == key.1) ==>
      && (forall r :: r in JoinGroup(key, g, demo) ==>
            exists i :: 0 <= i < |demo| && demo[i].0.0 == key.1 && r == BaixaOf(key, g, Some(demo[i])))
      && (forall i :: 0 <= i < |demo| && demo[i].0.0 == key.1 ==> BaixaOf(key, g, Some(demo[i])) in JoinGroup(key, g, demo))
  {
    var p := LotFn(key.1);
    var ms := Filter(demo, p);
    var out := JoinGroup(key, g, demo);
    if forall i :: 0 <= i < |demo| ==> demo[i].0.0 != key.1 {
      FilterNone(demo, p);
    } else {
      var i0 :| 0 <= i0 < |demo| && demo[i0].0.0 == key.1;
      assert p(demo[i0]);
      assert ms != [];
      assert out == MapSeq(ms, MatchFn(key, g));
      forall r | r in out
        ensures exists i :: 0 <= i < |demo| && demo[i].0.0 == key.1 && r == BaixaOf(key, g, Some(demo[i]))
      {
        var k :| 0 <= k < |out| && out[k] == r;
        assert ms[k] in demo && p(ms[k]);
        var i :| 0 <= i < |demo| && demo[i] == ms[k];
      }
      forall i | 0 <= i < |demo| && demo[i].0.0 == key.1
        ensures BaixaOf(key, g, Some(demo[i])) in out
      {
        assert p(demo[i]);
        var k :| 0 <= k < |ms| && ms[k] == demo[i];
        assert out[k] == BaixaOf(key, g, Some(demo[i]));
      }
    }
  }

  /** A group with statement rows of its lot gets one joined row per such
      row, in the statement's order, each occurring as often as it occurs
      in the statement. */
  lemma {:induction false} JoinGroupCount(key: BaixaKey, g: XmlGroup, demo: seq<DemoRow>)
    requires exists i :: 0 <= i < |demo| && demo[i].0.0 == key.1
    ensures var ms := Filter(demo, LotFn(key.1));
      && |JoinGroup(key, g, demo)| == |ms|
      && (forall k :: 0 <= k < |ms| ==> JoinGroup(key, g, demo)[k] == BaixaOf(key, g, Some(ms[k])))
      && (forall d :: multiset(ms)[d] == if d.0.0 == key.1 then multiset(demo)[d] else 0)
  {
    var p := LotFn(key.1);
    var ms := Filter(demo, p);
    var i0 :| 0 <= i0 < |demo| && demo[i0].0.0 == key.1;
    assert p(demo[i0]);
    assert ms != [];
    var out := JoinGroup(key, g, demo);
    assert out == MapSeq(ms, MatchFn(key, g));
    forall k | 0 <= k < |ms| ensures out[k] == BaixaOf(key, g, Some(ms[k])) {
      assert out[k] == MatchFn(key, g)(ms[k]);
    }
    LotRowsMultiset(demo, key.1);
  }

  /** The statement rows of one lot, each as often as in the statement. */
  lemma {:induction false} LotRowsMultiset(demo: seq<DemoRow>, lot: Option<string>)
    ensures forall d :: multiset(Filter(demo, LotFn(lot)))[d] == if d.0.0 == lot then multiset(demo)[d] else 0
  {
    FilterMultiset(demo, LotFn(lot));
    forall d ensures LotFn(lot)(d) <==> d.0.0 == lot {
    }
  }

  /** The flags of a row joined with a statement row: the file total agrees
      with the presented amount to the cent, and the statement's presented
      amount agrees with approved plus disallowed to the cent. */
  lemma {:induction false} MatchedFlags(key: BaixaKey, g: XmlGroup, d: DemoRow)
    ensures var r := BaixaOf(key, g, Some(d));
      && r.apresentadoDiff == g.valorTotalXml - d.1.apresentado
      && (r.apresentadoConfere <==> -Tolerance <= g.valorTotalXml - d.1.apresentado <= Tolerance)
      && r.liberadoPlusGlosa == d.1.apurado + d.1.glosa
      && (r.demonstrativoConfere <==> -Tolerance <= d.1.apresentado - (d.1.apurado + d.1.glosa) <= Tolerance)
  {
  }

  /** A group that no statement row matches has a zero difference and is
      flagged as agreeing on both counts: the missing presented amount is
      filled with 0 before the comparison. */
  lemma {:induction false} UnmatchedReadsAsAgreeing(key: BaixaKey, g: XmlGroup)
    ensures var r := BaixaOf(key, g, None);
      && r.valorApresentado == None && r.competencia == None
      && r.apresentadoDiff == 0.0 && r.liberadoPlusGlosa == 0.0
      && r.apresentadoConfere && r.demonstrativoConfere
  {
  }

  /** Every group gives at least one row. */
  lemma {:induction false} JoinGroupNonEmpty(key: BaixaKey, g: XmlGroup, demo: seq<DemoRow>)
    ensures JoinGroup(key, g, demo) != []
  {
    var ms := Filter(demo, LotFn(key.1));
    if ms != [] {
      assert |MapSeq(ms, MatchFn(key, g))| == |ms|;
    }
  }

  /** Each row of the table comes from one group. */
  lemma {:induction false} JoinAllSound(gs: seq<(BaixaKey, XmlGroup)>, demo: seq<DemoRow>)
    ensures forall r :: r in JoinAll(gs, demo) ==>
      exists j :: 0 <= j < |gs| && r in JoinGroup(gs[j].0, gs[j].1, demo)
  {
    FlatMapSound(gs, JoinFn(demo));
    forall j | 0 <= j < |gs| ensures JoinFn(demo)(gs[j]) == JoinGroup(gs[j].0, gs[j].1, demo) {
    }
  }

  /** Every row of every group's join is in the table. */
  lemma {:induction false} JoinAllComplete(gs: seq<(BaixaKey, XmlGroup)>, demo: seq<DemoRow>)
    ensures forall j, r :: 0 <= j < |gs| && r in JoinGroup(gs[j].0, gs[j].1, demo) ==> r in JoinAll(gs, demo)
  {
    FlatMapComplete(gs, JoinFn(demo));
    forall j | 0 <= j < |gs| ensures JoinFn(demo)(gs[j]) == JoinGroup(gs[j].0, gs[j].1, demo) {
    }
  }

  /** The settlement table has, for every group of files, the rows of its
      left join with the statement, and no other row; the groups are one per
      (key, lot, kind) that occurs among the files. */
  lemma {:induction false} BaixaSpec(xml: seq<XmlRow>, demo: seq<DemoRow>)
    requires xml != []
    ensures GroupsOf(XmlGroups(xml, demo), MapSeq(xml, GroupRowFn(KnownKeys(demo))), MergeGroup)
    ensures var gs := XmlGroups(xml, demo);
      && (forall r :: r in Baixa(xml, demo) ==>
            exists j :: 0 <= j < |gs| && r in JoinGroup(gs[j].0, gs[j].1, demo))
      && (forall j, r :: 0 <= j < |gs| && r in JoinGroup(gs[j].0, gs[j].1, demo) ==> r in Baixa(xml, demo))
  {
    var f := GroupRowFn(KnownKeys(demo));
    GroupMapSpec(xml, f, MergeGroup);
    GroupBySpec(MapSeq(xml, f), MergeGroup);
    JoinAllSound(XmlGroups(xml, demo), demo);
    JoinAllComplete(XmlGroups(xml, demo), demo);
  }

  /** The files of the group with key `k`, in the table's order. */
  function FilesOf(xml: seq<XmlRow>, demo: seq<DemoRow>, k: BaixaKey): seq<XmlRow> {
    Filter(xml, KeyIs(GroupRowFn(KnownKeys(demo)), k))
  }

  /** The first lot read from a file name among `rows`, in their order. */
  function FirstNameLot(rows: seq<XmlRow>): Option<string> {
    if rows == [] then None
    else if rows[0].loteArquivo.Some? then rows[0].loteArquivo
    else FirstNameLot(rows[1..])
  }

  /** pandas' `first` in each group: a group has files, its
      `numero_lote_xml` is the lot of its first file and its `lote_arquivo`
      the first lot read from a file name among its files. When the table
      is in `_df_format`'s order (lot, kind, file name), so are the files of
      every group, and "first" is first in that order. */
  lemma {:induction false} BaixaFirsts(xml: seq<XmlRow>, demo: seq<DemoRow>)
    ensures var gs := XmlGroups(xml, demo);
      forall j :: 0 <= j < |gs| ==>
        var files := FilesOf(xml, demo, gs[j].0);
        && files != []
        && gs[j].1.numeroLoteXml == Some(files[0].numeroLote)
        && gs[j].1.loteArquivo == FirstNameLot(files)
        && (SortedRows(xml) ==> SortedRows(files))
  {
    var f := GroupRowFn(KnownKeys(demo));
    var gs := XmlGroups(xml, demo);
    GroupMapSpec(xml, f, MergeGroup);
    GroupBySpec(MapSeq(xml, f), MergeGroup);
    forall j | 0 <= j < |gs|
      ensures var files := FilesOf(xml, demo, gs[j].0);
        && files != []
        && gs[j].1.numeroLoteXml == Some(files[0].numeroLote)
        && gs[j].1.loteArquivo == FirstNameLot(files)
        && (SortedRows(xml) ==> SortedRows(files))
    {
      var files := FilesOf(xml, demo, gs[j].0);
      SelectMapSeq(xml, f, gs[j].0);
      assert gs[j].1 == Combine(MapSeq(files, ValueFn(f)), MergeGroup);
      GroupLots(KnownKeys(demo));
      CombineFirsts(files, ValueFn(f));
      if SortedRows(xml) {
        SortedFilter(xml, KeyIs(f, gs[j].0));
      }
    }
  }

  /** Merging the contributions of some files keeps the lot of the first
      and the first lot read from a name. */
  lemma {:induction false} CombineFirsts(files: seq<XmlRow>, v: XmlRow -> XmlGroup)
    requires files != []
    requires forall r :: v(r).numeroLoteXml == Some(r.numeroLote) && v(r).loteArquivo == r.loteArquivo
    ensures var g := Combine(MapSeq(files, v), MergeGroup);
      g.numeroLoteXml == Some(files[0].numeroLote) && g.loteArquivo == FirstNameLot(files)
  {
    var vs := MapSeq(files, v);
    if |files| == 1 {
      assert files[1..] == [];
    } else {
      var p, x := files[..|files| - 1], files[|files| - 1];
      CombineFirsts(p, v);
      assert vs[..|vs| - 1] == MapSeq(p, v);
      assert p + [x] == files;
      FirstNameLotSnoc(p, x);
    }
  }

  /** Every file brings its own lot and its name's lot to its group. */
  lemma {:induction false} GroupLots(keys: set<string>)
    ensures forall r :: ValueFn(GroupRowFn(keys))(r).numeroLoteXml == Some(r.numeroLote)
    ensures forall r :: ValueFn(GroupRowFn(keys))(r).loteArquivo == r.loteArquivo
  {
  }

  lemma {:induction false} FirstNameLotSnoc(rows: seq<XmlRow>, x: XmlRow)
    ensures FirstNameLot(rows + [x]) == FirstPresent(FirstNameLot(rows), x.loteArquivo)
  {
    if rows != [] {
      assert (rows + [x])[1..] == rows[1..] + [x];
      FirstNameLotSnoc(rows[1..], x);
    } else {
      assert (rows + [x])[1..] == [];
    }
  }

  function GroupFiles(g: XmlGroup): real { g.qtdeArquivos as real }
  function GroupGuides(g: XmlGroup): real { g.qtdeGuiasXml as real }
  function GroupValue(g: XmlGroup): real { g.valorTotalXml }

  /** Grouping the files loses none: the groups' file counts add up to the
      number of files, and their guide counts and totals to those of the
      files. */
  lemma {:induction false} XmlGroupsTotals(xml: seq<XmlRow>, demo: seq<DemoRow>)
    ensures SumBy(XmlGroups(xml, demo), GroupFiles) == |xml| as real
    ensures SumBy(XmlGroups(xml, demo), GroupGuides) == GuidesOf(xml) as real
    ensures SumBy(XmlGroups(xml, demo), GroupValue) == ValueOf(xml)
  {
    var f := GroupRowFn(KnownKeys(demo));
    GroupMapSum(xml, f, MergeGroup, GroupFiles);
    GroupMapSum(xml, f, MergeGroup, GroupGuides);
    GroupMapSum(xml, f, MergeGroup, GroupValue);
    GroupRowSums(xml, f);
  }

  lemma {:induction false} GroupRowSums(xml: seq<XmlRow>, f: XmlRow -> (BaixaKey, XmlGroup))
    requires forall r :: f(r).1 == XmlGroup(1, r.qtdeGuias, r.valorTotal, Some(r.numeroLote), r.loteArquivo)
    ensures SumMap(xml, f, GroupFiles) == |xml| as real
    ensures SumMap(xml, f, GroupGuides) == GuidesOf(xml) as real
    ensures SumMap(xml, f, GroupValue) == ValueOf(xml)
  {
    if xml != [] {
      GroupRowSums(xml[..|xml| - 1], f);
    }
  }
}
