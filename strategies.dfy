/** The labels that say which fallback produced an SP-SADT guide's total, the
    per-document counter of them (`estrategias` in tiss_parser.py
    `_sum_sadt`) and the document label built from it: the one strategy name
    when every guide agrees, else "misto: " followed by "name=count" pairs
    ordered by descending count, then name. */
module Strategies {
  import opened Wrappers
  import opened Text
  import opened Accumulation

  /** The four per-guide strategies, declared in the order of their names. */
  datatype Strategy = Componentes | Itens | ValorTotalGeral | Zero

  function Name(s: Strategy): string {
    match s
    case Componentes => "componentes_valorTotal"
    case Itens => "itens (proced+outras)"
    case ValorTotalGeral => "valorTotalGeral"
    case Zero => "zero"
  }

  /** Position of the name in Python's string order. */
  function Rank(s: Strategy): nat {
    match s
    case Componentes => 0
    case Itens => 1
    case ValorTotalGeral => 2
    case Zero => 3
  }

  /** `Rank` orders the strategies exactly as Python orders their names, so
      sorting by rank is sorting by name. */
  lemma {:induction false} RankIsNameOrder(a: Strategy, b: Strategy)
    ensures Rank(a) < Rank(b) <==> StringLess(Name(a), Name(b))
  {
    if a == b {
      StringLessIrreflexive(Name(a));
    } else {
      assert Name(a)[0] != Name(b)[0];
    }
  }

  /** The strategy counter: strategy to number of guides. */
  type Counts = map<Strategy, nat>

  /** `estrategias.get(s, 0)`. */
  function CountOf(m: Counts, s: Strategy): nat {
    if s in m then m[s] else 0
  }

  /** The counter after counting `ss` in order:
      `estrategias[s] = estrategias.get(s, 0) + 1` for each. */
  function Tally(ss: seq<Strategy>): Counts
  {
    if ss == [] then map[]
    else
      var m := Tally(ss[..|ss| - 1]);
      var s := ss[|ss| - 1];
      m[s := CountOf(m, s) + 1]
  }

  /** The counter holds exactly the strategies that occur, each with its
      number of occurrences. */
  lemma {:induction false} TallyIsMultiset(ss: seq<Strategy>)
    ensures forall s :: CountOf(Tally(ss), s) == multiset(ss)[s]
    ensures forall s :: s in Tally(ss) <==> s in ss
  {
    if ss != [] {
      var p := ss[..|ss| - 1];
      TallyIsMultiset(p);
      assert ss == p + [ss[|ss| - 1]];
    }
  }

  /** The four counts add up to the number of guides counted. */
  function CountSum(m: Counts): nat {
    CountOf(m, Componentes) + CountOf(m, Itens) + CountOf(m, ValorTotalGeral) + CountOf(m, Zero)
  }

  lemma {:induction false} TallySum(ss: seq<Strategy>)
    ensures CountSum(Tally(ss)) == |ss|
  {
    if ss != [] {
      var p := ss[..|ss| - 1];
      TallySum(p);
      CountSumInc(Tally(p), ss[|ss| - 1]);
    }
  }

  lemma {:induction false} CountSumInc(m: Counts, s: Strategy)
    ensures CountSum(m[s := CountOf(m, s) + 1]) == CountSum(m) + 1
  {
    var m' := m[s := CountOf(m, s) + 1];
    assert forall t :: t != s ==> CountOf(m', t) == CountOf(m, t);
  }

  type Entry = (Strategy, nat)

  /** Every strategy, in name order. */
  const AllStrategies: seq<Strategy> := [Componentes, Itens, ValorTotalGeral, Zero]

  /** The items of `m` whose key is in `ks`, in the order of `ks`. */
  function Present(ks: seq<Strategy>, m: Counts): (es: seq<Entry>)
    ensures forall e :: e in es <==> e.0 in ks && e.0 in m && e.1 == m[e.0]
    ensures (forall i, j :: 0 <= i < j < |ks| ==> ks[i] != ks[j]) ==>
              forall i, j :: 0 <= i < j < |es| ==> es[i].0 != es[j].0
  {
    if ks == [] then []
    else
      var rest := Present(ks[1..], m);
      assert forall e :: e in rest ==> e.0 in ks[1..];
      (if ks[0] in m then [(ks[0], m[ks[0]])] else []) + rest
  }

  /** `estrategias.items()`: every key of the counter once, with its count. */
  function Entries(m: Counts): (es: seq<Entry>)
    ensures forall e :: e in es <==> e.0 in m && e.1 == m[e.0]
    ensures forall i, j :: 0 <= i < j < |es| ==> es[i].0 != es[j].0
  {
    AllStrategiesComplete();
    Present(AllStrategies, m)
  }

  lemma {:induction false} AllStrategiesComplete()
    ensures forall s :: s in AllStrategies
    ensures forall i, j :: 0 <= i < j < |AllStrategies| ==> AllStrategies[i] != AllStrategies[j]
  {
    forall s ensures s in AllStrategies {
      match s
      case Componentes => assert AllStrategies[0] == s;
      case Itens => assert AllStrategies[1] == s;
      case ValorTotalGeral => assert AllStrategies[2] == s;
      case Zero => assert AllStrategies[3] == s;
    }
  }

  /** The sort key `(-count, name)` as an order: `a` may come before `b`. */
  predicate KeyLe(a: Entry, b: Entry) {
    a.1 > b.1 || (a.1 == b.1 && Rank(a.0) <= Rank(b.0))
  }

  predicate Sorted(es: seq<Entry>) {
    forall i, j :: 0 <= i < j < |es| ==> KeyLe(es[i], es[j])
  }

  function Insert(x: Entry, es: seq<Entry>): seq<Entry>
  {
    if es == [] then [x]
    else if KeyLe(x, es[0]) then [x] + es
    else [es[0]] + Insert(x, es[1..])
  }

  lemma {:induction false} InsertSpec(x: Entry, es: seq<Entry>)
    requires Sorted(es)
    ensures multiset(Insert(x, es)) == multiset(es) + multiset{x}
    ensures Sorted(Insert(x, es))
  {
    if es != [] && !KeyLe(x, es[0]) {
      var t := es[1..];
      assert Sorted(t);
      InsertSpec(x, t);
      assert es == [es[0]] + t;
      var r := Insert(x, t);
      forall y | y in r
        ensures KeyLe(es[0], y)
      {
        assert y in multiset(r);
        assert y == x || y in t;
      }
    }
  }

  /** `sorted(estrategias.items(), key=lambda x: (-x[1], x[0]))`. */
  function Sort(es: seq<Entry>): (r: seq<Entry>)
    ensures multiset(r) == multiset(es)
    ensures Sorted(r)
  {
    if es == [] then []
    else
      var t := Sort(es[1..]);
      InsertSpec(es[0], t);
      assert multiset(es) == multiset{es[0]} + multiset(es[1..]) by {
        assert es == [es[0]] + es[1..];
      }
      Insert(es[0], t)
  }

  /** `f"{k}={v}"` for each item. */
  function Render(es: seq<Entry>): (r: seq<string>)
    ensures |r| == |es|
    ensures forall i :: 0 <= i < |es| ==> r[i] == Name(es[i].0) + "=" + NatToString(es[i].1)
  {
    if es == [] then [] else [Name(es[0].0) + "=" + NatToString(es[0].1)] + Render(es[1..])
  }

  /** The document label for a non-empty counter (tiss_parser.py `_sum_sadt`). */
  function Label(m: Counts): string
  {
    var es := Entries(m);
    if |es| == 1 then Name(es[0].0)
    else "misto: " + Join(", ", Render(Sort(Entries(m))))
  }

  /** When every guide used the same strategy, the label is that strategy's
      name. */
  lemma {:induction false} LabelUniform(ss: seq<Strategy>, s: Strategy)
    requires ss != [] && forall k :: 0 <= k < |ss| ==> ss[k] == s
    ensures Label(Tally(ss)) == Name(s)
  {
    var m := Tally(ss);
    assert forall t :: t in m <==> t == s by {
      TallyIsMultiset(ss);
      assert ss[0] in ss;
      forall t | t in ss ensures t == s {
        var k :| 0 <= k < |ss| && ss[k] == t;
      }
    }
    AllStrategiesComplete();
    PresentSingle(AllStrategies, m, s);
  }

  /** Over distinct keys, a counter with the single key `s` has the single
      item for `s`. */
  lemma {:induction false} PresentSingle(ks: seq<Strategy>, m: Counts, s: Strategy)
    requires forall t :: t in m <==> t == s
    requires forall i, j :: 0 <= i < j < |ks| ==> ks[i] != ks[j]
    ensures Present(ks, m) == if s in ks then [(s, m[s])] else []
  {
    if ks != [] {
      PresentSingle(ks[1..], m, s);
      if ks[0] == s {
        assert s !in ks[1..] by {
          forall k | 0 <= k < |ks[1..]| ensures ks[1..][k] != s {
            assert ks[1..][k] == ks[k + 1];
          }
        }
      } else {
        assert s in ks <==> s in ks[1..] by {
          assert ks == [ks[0]] + ks[1..];
        }
      }
    }
  }

  /** When the guides disagree, the label is "misto: " followed by every
      strategy used with its count, ordered by descending count, then name. */
  lemma {:induction false} LabelMixed(ss: seq<Strategy>, i: nat, j: nat)
    requires i < |ss| && j < |ss| && ss[i] != ss[j]
    ensures exists es: seq<Entry> ::
      && Label(Tally(ss)) == "misto: " + Join(", ", Render(es))
      && Sorted(es)
      && DistinctKeys(es)
      && (forall e :: e in es <==> e.0 in ss && e.1 == multiset(ss)[e.0])
  {
    var m := Tally(ss);
    var en := Entries(m);
    assert |en| != 1 by {
      TallyIsMultiset(ss);
      assert ss[i] in ss && ss[j] in ss;
      TwoKeysNotSingle(m, ss[i], ss[j]);
    }
    var es := Sort(en);
    SortDistinct(en);
    assert forall e :: e in es <==> e.0 in ss && e.1 == multiset(ss)[e.0] by {
      SortMembers(en);
      EntriesTally(ss);
    }
  }

  /** No strategy is listed twice. */
  predicate DistinctKeys(es: seq<Entry>) {
    forall i, j :: 0 <= i < j < |es| ==> es[i].0 != es[j].0
  }

  lemma {:induction false} InsertDistinct(x: Entry, es: seq<Entry>)
    requires Sorted(es) && DistinctKeys(es)
    requires forall e :: e in es ==> e.0 != x.0
    ensures DistinctKeys(Insert(x, es))
  {
    if es != [] && !KeyLe(x, es[0]) {
      var t := es[1..];
      assert Sorted(t);
      TailDistinct(es);
      InsertDistinct(x, t);
      InsertSpec(x, t);
      var r := Insert(x, t);
      forall y | y in r ensures y.0 != es[0].0 {
        assert y in multiset(r);
        if y in t {
          var k :| 0 <= k < |t| && t[k] == y;
          assert es[k + 1] == y;
        }
      }
      ConsDistinct(es[0], r);
    } else if es != [] {
      ConsDistinct(x, es);
    }
  }

  lemma {:induction false} TailDistinct(es: seq<Entry>)
    requires es != [] && DistinctKeys(es)
    ensures DistinctKeys(es[1..])
  {
    var t := es[1..];
    forall p, q | 0 <= p < q < |t| ensures t[p].0 != t[q].0 {
      assert t[p] == es[p + 1] && t[q] == es[q + 1];
    }
  }

  lemma {:induction false} ConsDistinct(h: Entry, r: seq<Entry>)
    requires DistinctKeys(r) && forall e :: e in r ==> e.0 != h.0
    ensures DistinctKeys([h] + r)
  {
    var c := [h] + r;
    forall p, q | 0 <= p < q < |c| ensures c[p].0 != c[q].0 {
      assert c[q] == r[q - 1];
      if p > 0 {
        assert c[p] == r[p - 1];
      }
    }
  }

  /** Sorting a list without repeated strategies repeats none. */
  lemma {:induction false} SortDistinct(es: seq<Entry>)
    requires DistinctKeys(es)
    ensures DistinctKeys(Sort(es))
  {
    if es != [] {
      var rest := es[1..];
      TailDistinct(es);
      SortDistinct(rest);
      var t := Sort(rest);
      forall e | e in t ensures e.0 != es[0].0 {
        assert e in multiset(t);
        var k :| 0 <= k < |rest| && rest[k] == e;
        assert es[k + 1] == e;
      }
      InsertDistinct(es[0], t);
    }
  }

  /** The label is "zero" exactly when every guide's strategy was `Zero`. */
  lemma {:induction false} LabelZeroIff(ss: seq<Strategy>)
    requires ss != []
    ensures Label(Tally(ss)) == "zero" <==> forall k :: 0 <= k < |ss| ==> ss[k] == Zero
  {
    if forall k :: 0 <= k < |ss| ==> ss[k] == Zero {
      LabelUniform(ss, Zero);
    } else if forall k :: 0 <= k < |ss| ==> ss[k] == ss[0] {
      LabelUniform(ss, ss[0]);
    } else {
      var j :| 0 <= j < |ss| && ss[j] != ss[0];
      LabelMixed(ss, 0, j);
      var es :| Label(Tally(ss)) == "misto: " + Join(", ", Render(es));
      assert Label(Tally(ss))[0] == 'm';
    }
  }

  lemma {:induction false} TwoKeysNotSingle(m: Counts, a: Strategy, b: Strategy)
    requires a != b && a in m && b in m
    ensures |Entries(m)| != 1
  {
    assert (a, m[a]) in Entries(m) && (b, m[b]) in Entries(m);
  }

  lemma {:induction false} SortMembers(es: seq<Entry>)
    ensures forall e :: e in Sort(es) <==> e in es
  {
    forall e ensures e in Sort(es) <==> e in es {
      assert e in Sort(es) <==> e in multiset(Sort(es));
      assert e in es <==> e in multiset(es);
    }
  }

  /** The counter's items are the strategies used, each with its number of
      guides. */
  lemma {:induction false} EntriesTally(ss: seq<Strategy>)
    ensures forall e :: e in Entries(Tally(ss)) <==> e.0 in ss && e.1 == multiset(ss)[e.0]
  {
    TallyIsMultiset(ss);
    var m := Tally(ss);
    forall e ensures e in Entries(m) <==> e.0 in ss && e.1 == multiset(ss)[e.0] {
      if e.0 in m {
        assert m[e.0] == CountOf(m, e.0);
      }
    }
  }

  /** One guide by declared grand total and one by items: the tie on count
      is broken by name. */
  lemma {:induction false} LabelTieExample()
    ensures Label(Tally([ValorTotalGeral, Itens]))
         == "misto: " + Join(", ", [Name(Itens) + "=1", Name(ValorTotalGeral) + "=1"])
  {
    var es := [(Itens, 1), (ValorTotalGeral, 1)];
    calc {
      Label(Tally([ValorTotalGeral, Itens]));
      { TallyExample(); }
      Label(map[ValorTotalGeral := 1, Itens := 1]);
      { EntriesExample(); }
      "misto: " + Join(", ", Render(Sort(es)));
      { SortExample(); }
      "misto: " + Join(", ", Render(es));
      { RenderOne(Itens); RenderOne(ValorTotalGeral); }
      "misto: " + Join(", ", [Name(Itens) + "=1", Name(ValorTotalGeral) + "=1"]);
    }
  }

  lemma {:induction false} TallyExample()
    ensures Tally([ValorTotalGeral, Itens]) == map[ValorTotalGeral := 1, Itens := 1]
  {
    assert [ValorTotalGeral, Itens][..1] == [ValorTotalGeral];
    assert [ValorTotalGeral][..0] == [];
  }

  lemma {:induction false} EntriesExample()
    ensures Entries(map[ValorTotalGeral := 1, Itens := 1]) == [(Itens, 1), (ValorTotalGeral, 1)]
  {
    var m := map[ValorTotalGeral := 1, Itens := 1];
    calc {
      Entries(m);
      Present([Componentes, Itens, ValorTotalGeral, Zero], m);
      { assert [Componentes, Itens, ValorTotalGeral, Zero][1..] == [Itens, ValorTotalGeral, Zero]; }
      Present([Itens, ValorTotalGeral, Zero], m);
      { assert [Itens, ValorTotalGeral, Zero][1..] == [ValorTotalGeral, Zero]; }
      [(Itens, 1)] + Present([ValorTotalGeral, Zero], m);
      { assert [ValorTotalGeral, Zero][1..] == [Zero]; }
      [(Itens, 1)] + ([(ValorTotalGeral, 1)] + Present([Zero], m));
      { assert Present([Zero], m) == []; }
      [(Itens, 1), (ValorTotalGeral, 1)];
    }
  }

  lemma {:induction false} SortExample()
    ensures Sort([(Itens, 1), (ValorTotalGeral, 1)]) == [(Itens, 1), (ValorTotalGeral, 1)]
  {
    assert Sort([(ValorTotalGeral, 1)]) == [(ValorTotalGeral, 1)];
  }

  lemma {:induction false} RenderOne(s: Strategy)
    ensures Name(s) + "=" + NatToString(1) == Name(s) + "=1"
  {
    assert NatToString(1) == "1" by {
      assert DigitChar(1) == '1';
    }
  }

  // ---- the per-document fold of guide outcomes ----

  /** What one guide yields: its value and the strategy that produced it. */
  type Outcome = (real, Strategy)

  /** A guide outcome as `_sum_sadt_guia` produces it: never negative, and
      positive exactly when its strategy is not `Zero`. */
  predicate Consistent(o: Outcome) {
    o.0 >= 0.0 && (o.0 > 0.0 <==> o.1 != Zero)
  }

  function ValueOf<E>(r: Result<Outcome, E>): Result<real, E> {
    match r
    case Err(e) => Err(e)
    case Ok(o) => Ok(o.0)
  }

  /** The strategies of outcomes that all succeeded, in order. */
  function StrategiesOf<E>(rs: seq<Result<Outcome, E>>): (ss: seq<Strategy>)
    requires forall k :: 0 <= k < |rs| ==> rs[k].Ok?
    ensures |ss| == |rs|
    ensures forall k :: 0 <= k < |rs| ==> ss[k] == rs[k].value.1
  {
    if rs == [] then [] else StrategiesOf(rs[..|rs| - 1]) + [rs[|rs| - 1].value.1]
  }

  /** The `_sum_sadt` loop over the guides' outcomes: the running total and
      the strategy counter, or the error of the first guide that failed. */
  function Fold<E>(rs: seq<Result<Outcome, E>>): Result<(real, Counts), E> {
    if rs == [] then Ok((0.0, map[]))
    else
      match Fold(rs[..|rs| - 1])
      case Err(e) => Err(e)
      case Ok(acc) =>
        match rs[|rs| - 1]
        case Err(e) => Err(e)
        case Ok(o) => Ok((acc.0 + o.0, acc.1[o.1 := CountOf(acc.1, o.1) + 1]))
  }

  /** What `_sum_sadt` returns: guide count, total and document label, with
      `(0, 0, "zero")` for a document without guides. */
  function Summary<E>(rs: seq<Result<Outcome, E>>): Result<(nat, real, string), E> {
    match Fold(rs)
    case Err(e) => Err(e)
    case Ok(acc) => if rs == [] then Ok((0, 0.0, "zero")) else Ok((|rs|, acc.0, Label(acc.1)))
  }

  /** The fold is the sum of the guide values together with the tally of
      their strategies; it fails exactly when that sum fails, with the same
      error, the one of the first failing guide. */
  lemma {:induction false} FoldSpec<E>(rs: seq<Result<Outcome, E>>)
    ensures Fold(rs).Ok? <==> SumOf(rs, ValueOf).Ok?
    ensures Fold(rs).Err? ==> Fold(rs).error == SumOf(rs, ValueOf).error
    ensures Fold(rs).Ok? ==>
      && (forall k :: 0 <= k < |rs| ==> rs[k].Ok?)
      && Fold(rs).value.0 == SumOf(rs, ValueOf).value
      && Fold(rs).value.1 == Tally(StrategiesOf(rs))
  {
    if rs != [] {
      var p := rs[..|rs| - 1];
      FoldSpec(p);
      if Fold(p).Ok? && rs[|rs| - 1].Ok? {
        FoldOkStep(rs);
      }
    }
  }

  /** The successful case of `FoldSpec`, one guide past a prefix for which
      it holds. */
  lemma {:induction false} FoldOkStep<E>(rs: seq<Result<Outcome, E>>)
    requires rs != [] && rs[|rs| - 1].Ok?
    requires var p := rs[..|rs| - 1];
      && Fold(p).Ok? && SumOf(p, ValueOf).Ok?
      && (forall k :: 0 <= k < |p| ==> p[k].Ok?)
      && Fold(p).value.0 == SumOf(p, ValueOf).value
      && Fold(p).value.1 == Tally(StrategiesOf(p))
    ensures forall k :: 0 <= k < |rs| ==> rs[k].Ok?
    ensures Fold(rs).Ok? && SumOf(rs, ValueOf).Ok?
    ensures Fold(rs).value.0 == SumOf(rs, ValueOf).value
    ensures Fold(rs).value.1 == Tally(StrategiesOf(rs))
  {
    var p := rs[..|rs| - 1];
    forall k | 0 <= k < |rs| ensures rs[k].Ok? {
      if k < |p| {
        assert rs[k] == p[k];
      }
    }
    var ss := StrategiesOf(rs);
    var o := rs[|rs| - 1].value;
    assert ss == StrategiesOf(p) + [o.1];
    assert ss[..|ss| - 1] == StrategiesOf(p);
  }

  /** One more successful guide adds its value and counts its strategy. */
  lemma {:induction false} FoldStep<E>(rs: seq<Result<Outcome, E>>, i: nat, total: real, m: Counts)
    requires i < |rs| && Fold(rs[..i]) == Ok((total, m)) && rs[i].Ok?
    ensures Fold(rs[..i + 1]) == Ok((total + rs[i].value.0, m[rs[i].value.1 := CountOf(m, rs[i].value.1) + 1]))
  {
    assert rs[..i + 1][..i] == rs[..i];
  }

  lemma {:induction false} FoldPrefixErr<E>(rs: seq<Result<Outcome, E>>, i: nat)
    requires i <= |rs| && Fold(rs[..i]).Err?
    ensures Fold(rs) == Fold(rs[..i])
  {
    if i < |rs| {
      var p := rs[..|rs| - 1];
      assert p[..i] == rs[..i];
      FoldPrefixErr(p, i);
    } else {
      assert rs[..i] == rs;
    }
  }

  /** The `_sum_sadt` loop itself: compute each element's outcome in order,
      add its value to the running total and count its strategy; the first
      failure ends the loop with its error. */
  method SummarizeEach<T, E>(xs: seq<T>, f: T -> Result<Outcome, E>) returns (r: Result<(nat, real, string), E>)
    ensures r == Summary(MapSeq(xs, f))
  {
    ghost var rs := MapSeq(xs, f);
    var total := 0.0;
    var estrategias: Counts := map[];
    var i := 0;
    while i < |xs|
      invariant 0 <= i <= |xs|
      invariant Fold(rs[..i]) == Ok((total, estrategias))
    {
      var g := f(xs[i]);
      if g.Err? {
        FoldErrAt(rs, i);
        return Err(g.error);
      }
      FoldStep(rs, i, total, estrategias);
      var (v, strat) := g.value;
      total := total + v;
      estrategias := estrategias[strat := CountOf(estrategias, strat) + 1];
      i := i + 1;
    }
    assert rs[..i] == rs;
    if xs == [] {
      return Ok((0, 0.0, "zero"));
    }
    r := Ok((|xs|, total, Label(estrategias)));
  }

  /** A failing outcome after a successful prefix ends the fold with its
      error. */
  lemma {:induction false} FoldErrAt<E>(rs: seq<Result<Outcome, E>>, i: nat)
    requires i < |rs| && Fold(rs[..i]).Ok? && rs[i].Err?
    ensures Fold(rs) == Err(rs[i].error)
  {
    assert rs[..i + 1][..i] == rs[..i];
    FoldPrefixErr(rs, i + 1);
  }

  /** With consistent outcomes the document total is never negative, and it
      is zero exactly when the document label is "zero". */
  lemma {:induction false} SummaryZeroIff<E>(rs: seq<Result<Outcome, E>>)
    requires Summary(rs).Ok?
    requires forall k :: 0 <= k < |rs| && rs[k].Ok? ==> Consistent(rs[k].value)
    ensures Summary(rs).value.1 >= 0.0
    ensures Summary(rs).value.1 == 0.0 <==> Summary(rs).value.2 == "zero"
  {
    FoldSpec(rs);
    SumOfSpec(rs, ValueOf);
    TotalNonNegative(rs, ValueOf);
    if rs != [] {
      var ss := StrategiesOf(rs);
      LabelZeroIff(ss);
      assert (forall k :: 0 <= k < |rs| ==> ValueOf(rs[k]).value == 0.0)
         <==> (forall k :: 0 <= k < |ss| ==> ss[k] == Zero);
    }
  }

  /** The per-strategy counts add up to the number of guides. */
  lemma {:induction false} FoldCountsAddUp<E>(rs: seq<Result<Outcome, E>>)
    requires Fold(rs).Ok?
    ensures CountSum(Fold(rs).value.1) == |rs|
  {
    FoldSpec(rs);
    TallySum(StrategiesOf(rs));
  }
}
