/** Comparing a base TISS file with the other uploaded files and removing
    from it the guides they repeat (app.py, the "remove duplicate guides"
    panel): the audit rows of the base whose guide number some other file
    also has are the duplicates, and `remover_guias` drops from the base
    document every guide element carrying one of their numbers. */
module Duplicates {
  import opened Wrappers
  import opened Accumulation
  import opened TissDocument
  import opened TissParser
  import opened TissAudit

  // ---- finding the duplicates ----

  /** The number that identifies an audit row's guide: the provider's
      number for a consultation or an SP-SADT guide, the origin number (or
      else the operator's) for an appeal entry; "" when it has none. */
  function GuideKey(g: AuditRow): string {
    match g
    case ValorRow(_, tipo, num, _, _, _, _, _, _) => if tipo == Consulta || tipo == Sadt then num else ""
    case RecursoRow(_, _, _, origem, operadora, _, _) => if origem != "" then origem else operadora
  }

  /** `g` has a number and some other file has a guide with that number. */
  predicate IsDup(outros: seq<AuditRow>, g: AuditRow) {
    GuideKey(g) != "" && exists j :: 0 <= j < |outros| && GuideKey(outros[j]) == GuideKey(g)
  }

  function DupFn(outros: seq<AuditRow>): AuditRow -> bool {
    g => IsDup(outros, g)
  }

  /** The comparison loop: for each guide of the base, scan the other files'
      guides until one has the same number. The duplicates are the base's
      guides that some other guide repeats, in the base's order. */
  method FindDuplicates(base: seq<AuditRow>, outros: seq<AuditRow>) returns (dups: seq<AuditRow>)
    ensures dups == Filter(base, DupFn(outros))
  {
    dups := [];
    for i := 0 to |base|
      invariant dups == Filter(base[..i], DupFn(outros))
    {
      var g := base[i];
      var chave := GuideKey(g);
      var found := false;
      if chave != "" {
        var j := 0;
        while j < |outros|
          invariant 0 <= j <= |outros|
          invariant forall k :: 0 <= k < j ==> GuideKey(outros[k]) != chave
        {
          if GuideKey(outros[j]) == chave {
            found := true;
            break;
          }
          j := j + 1;
        }
      }
      assert found <==> IsDup(outros, g);
      if found {
        dups := dups + [g];
      }
      assert base[..i + 1] == base[..i] + [g];
      FilterSnoc(base[..i], g, DupFn(outros));
    }
    assert base[..|base|] == base;
  }

  /** A guide of the base is reported exactly when it has a number that a
      guide of another file also has. */
  lemma {:induction false} DuplicatesSpec(base: seq<AuditRow>, outros: seq<AuditRow>)
    ensures forall g :: g in Filter(base, DupFn(outros)) <==>
      g in base && GuideKey(g) != "" && exists j :: 0 <= j < |outros| && GuideKey(outros[j]) == GuideKey(g)
  {
    var ds := Filter(base, DupFn(outros));
    forall g | g in ds
      ensures g in base && GuideKey(g) != "" && exists j :: 0 <= j < |outros| && GuideKey(outros[j]) == GuideKey(g)
    {
      var k :| 0 <= k < |ds| && ds[k] == g;
      assert DupFn(outros)(ds[k]);
    }
    forall g | g in base && GuideKey(g) != "" && exists j :: 0 <= j < |outros| && GuideKey(outros[j]) == GuideKey(g)
      ensures g in ds
    {
      var k :| 0 <= k < |base| && base[k] == g;
      assert DupFn(outros)(base[k]);
    }
  }

  // ---- removing them ----

  /** `dup['tipo']` of an audit row. */
  function DupKind(dup: AuditRow): Kind {
    if dup.RecursoRow? then Recurso else dup.tipo
  }

  /** The number `remover_guias` looks for: the provider's number, else the
      origin number, else the operator's, whichever the row has. */
  function RemovalKey(dup: AuditRow): string {
    match dup
    case ValorRow(_, _, num, _, _, _, _, _, _) => num
    case RecursoRow(_, _, _, origem, operadora, _, _) => if origem != "" then origem else operadora
  }

  /** For the rows the comparison can report, the number removed is the
      number compared. */
  lemma {:induction false} RemovalKeyAgrees(dup: AuditRow)
    requires dup.RecursoRow? || dup.tipo == Consulta || dup.tipo == Sadt
    ensures RemovalKey(dup) == GuideKey(dup)
  {
  }

  /** The duplicate removes this consultation: it is a consultation with a
      number, and the guide's provider number, stripped, is that number. */
  predicate RemovesConsulta(dup: AuditRow, c: ConsultaGuide) {
    DupKind(dup) == Consulta && RemovalKey(dup) != "" && GetText(c.numeroGuiaPrestador) == RemovalKey(dup)
  }

  predicate RemovesSadt(dup: AuditRow, g: SadtGuide) {
    DupKind(dup) == Sadt && RemovalKey(dup) != "" && GetText(g.numeroGuiaPrestador) == RemovalKey(dup)
  }

  /** An appeal entry goes when either its origin or its operator number is
      the duplicate's number. */
  predicate RemovesRecurso(dup: AuditRow, rg: RecursoGuia) {
    && DupKind(dup) == Recurso && RemovalKey(dup) != ""
    && (GetText(rg.numeroGuiaOrigem) == RemovalKey(dup) || GetText(rg.numeroGuiaOperadora) == RemovalKey(dup))
  }

  /** No duplicate of `dups` removes `x`. */
  predicate NoneRemoves<G>(dups: seq<AuditRow>, removes: (AuditRow, G) -> bool, x: G) {
    forall k :: 0 <= k < |dups| ==> !removes(dups[k], x)
  }

  function DropFn<G>(dup: AuditRow, removes: (AuditRow, G) -> bool): G -> bool {
    x => !removes(dup, x)
  }

  function KeptFn<G>(dups: seq<AuditRow>, removes: (AuditRow, G) -> bool): G -> bool {
    x => NoneRemoves(dups, removes, x)
  }

  function RecursoKept(b: Option<RecursoBlock>, dups: seq<AuditRow>): Option<RecursoBlock> {
    if b.Some? then Some(b.value.(guias := Filter(b.value.guias, KeptFn(dups, RemovesRecurso)))) else None
  }

  /** The base document once every guide some duplicate removes is gone;
      everything else stays as it is. */
  function RemoveAll(d: Document, dups: seq<AuditRow>): Document {
    d.(consultas := Filter(d.consultas, KeptFn(dups, RemovesConsulta)),
       sadts := Filter(d.sadts, KeptFn(dups, RemovesSadt)),
       recurso := RecursoKept(d.recurso, dups))
  }

  /** The guides of one duplicate's kind that carry its number, dropped. */
  function DropDup(d: Document, dup: AuditRow): Document {
    d.(consultas := Filter(d.consultas, DropFn(dup, RemovesConsulta)),
       sadts := Filter(d.sadts, DropFn(dup, RemovesSadt)),
       recurso := if d.recurso.Some?
                  then Some(d.recurso.value.(guias := Filter(d.recurso.value.guias, DropFn(dup, RemovesRecurso))))
                  else None)
  }

  /** `remover_guias`: one duplicate at a time, drop the guides of its kind
      that carry its number. */
  method RemoverGuias(d: Document, dups: seq<AuditRow>) returns (r: Document)
    ensures r == RemoveAll(d, dups)
  {
    r := d;
    RemoveNothing(d);
    for i := 0 to |dups|
      invariant r == RemoveAll(d, dups[..i])
    {
      var dup := dups[i];
      RemoveStep(d, dups, i);
      if RemovalKey(dup) != "" {
        r := DropDup(r, dup);
      } else {
        NothingRemoved(r, dup);
      }
    }
    assert dups[..|dups|] == dups;
  }

  /** One more duplicate drops its guides from what the earlier ones left. */
  lemma {:induction false} RemoveStep(d: Document, dups: seq<AuditRow>, i: nat)
    requires i < |dups|
    ensures DropDup(RemoveAll(d, dups[..i]), dups[i]) == RemoveAll(d, dups[..i + 1])
  {
    var dup := dups[i];
    assert dups[..i + 1] == dups[..i] + [dup];
    KeptSnoc(d.consultas, dups[..i], dup, RemovesConsulta);
    KeptSnoc(d.sadts, dups[..i], dup, RemovesSadt);
    if d.recurso.Some? {
      KeptSnoc(d.recurso.value.guias, dups[..i], dup, RemovesRecurso);
    }
  }

  // ---- properties ----

  /** Keeping with a filter and then with a second one keeps what both keep. */
  lemma {:induction false} FilterFilter<T>(xs: seq<T>, p: T -> bool, q: T -> bool, pq: T -> bool)
    requires forall x :: pq(x) == (p(x) && q(x))
    ensures Filter(Filter(xs, p), q) == Filter(xs, pq)
  {
    if xs != [] {
      FilterFilter(xs[1..], p, q, pq);
      var rest := Filter(xs[1..], p);
      if p(xs[0]) {
        assert Filter(xs, p) == [xs[0]] + rest;
        assert ([xs[0]] + rest)[1..] == rest;
      } else {
        assert Filter(xs, p) == rest;
      }
    }
  }

  /** What one more duplicate keeps is what the earlier ones kept, minus
      what it removes. */
  lemma {:induction false} KeptSnoc<G>(xs: seq<G>, dups: seq<AuditRow>, dup: AuditRow, removes: (AuditRow, G) -> bool)
    ensures Filter(Filter(xs, KeptFn(dups, removes)), DropFn(dup, removes))
         == Filter(xs, KeptFn(dups + [dup], removes))
  {
    forall x ensures KeptFn(dups + [dup], removes)(x) == (KeptFn(dups, removes)(x) && !removes(dup, x)) {
      var ds := dups + [dup];
      assert ds[|dups|] == dup;
      assert forall k :: 0 <= k < |dups| ==> ds[k] == dups[k];
    }
    FilterFilter(xs, KeptFn(dups, removes), DropFn(dup, removes), KeptFn(dups + [dup], removes));
  }

  /** A duplicate without a number removes nothing (`if not chave: continue`). */
  lemma {:induction false} NothingRemoved(d: Document, dup: AuditRow)
    requires RemovalKey(dup) == ""
    ensures DropDup(d, dup) == d
  {
    assert forall k :: 0 <= k < |d.consultas| ==> !RemovesConsulta(dup, d.consultas[k]);
    FilterAll(d.consultas, DropFn(dup, RemovesConsulta));
    assert forall k :: 0 <= k < |d.sadts| ==> !RemovesSadt(dup, d.sadts[k]);
    FilterAll(d.sadts, DropFn(dup, RemovesSadt));
    if d.recurso.Some? {
      var gs := d.recurso.value.guias;
      assert forall k :: 0 <= k < |gs| ==> !RemovesRecurso(dup, gs[k]);
      FilterAll(gs, DropFn(dup, RemovesRecurso));
    }
  }

  /** A guide survives exactly when no duplicate removes it; the header,
      the lot and the appeal block's own fields are untouched. */
  lemma {:induction false} RemoveAllSpec(d: Document, dups: seq<AuditRow>)
    ensures var r := RemoveAll(d, dups);
      && r.tipoTransacao == d.tipoTransacao && r.loteNumeroLote == d.loteNumeroLote
      && (forall c :: c in r.consultas <==> c in d.consultas && forall k :: 0 <= k < |dups| ==> !RemovesConsulta(dups[k], c))
      && (forall g :: g in r.sadts <==> g in d.sadts && forall k :: 0 <= k < |dups| ==> !RemovesSadt(dups[k], g))
      && r.recurso.Some? == d.recurso.Some?
      && (r.recurso.Some? ==>
            && r.recurso.value.numeroLote == d.recurso.value.numeroLote
            && r.recurso.value.numeroProtocolo == d.recurso.value.numeroProtocolo
            && r.recurso.value.valorTotalRecursado == d.recurso.value.valorTotalRecursado
            && forall rg :: rg in r.recurso.value.guias <==>
                 rg in d.recurso.value.guias && forall k :: 0 <= k < |dups| ==> !RemovesRecurso(dups[k], rg))
  {
    FilterMembers(d.consultas, KeptFn(dups, RemovesConsulta));
    FilterMembers(d.sadts, KeptFn(dups, RemovesSadt));
    if d.recurso.Some? {
      FilterMembers(d.recurso.value.guias, KeptFn(dups, RemovesRecurso));
    }
  }

  lemma {:induction false} FilterMembers<T>(xs: seq<T>, p: T -> bool)
    ensures forall x :: x in Filter(xs, p) <==> x in xs && p(x)
  {
    var r := Filter(xs, p);
    forall x | x in r ensures x in xs && p(x) {
      var k :| 0 <= k < |r| && r[k] == x;
    }
    forall x | x in xs && p(x) ensures x in r {
      var k :| 0 <= k < |xs| && xs[k] == x;
    }
  }

  /** With no duplicate the base document comes back unchanged. */
  lemma {:induction false} RemoveNothing(d: Document)
    ensures RemoveAll(d, []) == d
  {
    FilterAll(d.consultas, KeptFn([], RemovesConsulta));
    FilterAll(d.sadts, KeptFn([], RemovesSadt));
    if d.recurso.Some? {
      FilterAll(d.recurso.value.guias, KeptFn([], RemovesRecurso));
    }
  }

  /** Removing the same duplicates a second time removes nothing more. */
  lemma {:induction false} RemoveAllIdempotent(d: Document, dups: seq<AuditRow>)
    ensures RemoveAll(RemoveAll(d, dups), dups) == RemoveAll(d, dups)
  {
    FilterFilter(d.consultas, KeptFn(dups, RemovesConsulta), KeptFn(dups, RemovesConsulta), KeptFn(dups, RemovesConsulta));
    FilterFilter(d.sadts, KeptFn(dups, RemovesSadt), KeptFn(dups, RemovesSadt), KeptFn(dups, RemovesSadt));
    if d.recurso.Some? {
      var gs := d.recurso.value.guias;
      FilterFilter(gs, KeptFn(dups, RemovesRecurso), KeptFn(dups, RemovesRecurso), KeptFn(dups, RemovesRecurso));
    }
  }
}
