/** pandas `groupby(keys, dropna=False).agg(...)` over rows already reduced to
    a key and a value: one group per distinct key, in order of first
    appearance, holding the values of its rows combined left to right. */
module Grouping {
  import opened Accumulation

  /** Position of the group with key `k`, or `|gs|` when there is none. */
  function Find<K(==), A>(gs: seq<(K, A)>, k: K): (i: nat)
    ensures i <= |gs|
    ensures i < |gs| ==> gs[i].0 == k
    ensures i == |gs| <==> forall j :: 0 <= j < |gs| ==> gs[j].0 != k
  {
    if gs == [] then 0 else if gs[0].0 == k then 0 else 1 + Find(gs[1..], k)
  }

  /** Adds one row to the groups: into its key's group, or as a new group at
      the end. */
  function Upsert<K(==), A>(gs: seq<(K, A)>, x: (K, A), merge: (A, A) -> A): seq<(K, A)> {
    var i := Find(gs, x.0);
    if i < |gs| then gs[i := (x.0, merge(gs[i].1, x.1))] else gs + [x]
  }

  /** The groups of `xs`; defined from the end, so that each new row lands in
      the groups of the rows before it. */
  function GroupBy<K(==), A>(xs: seq<(K, A)>, merge: (A, A) -> A): seq<(K, A)> {
    if xs == [] then [] else Upsert(GroupBy(xs[..|xs| - 1], merge), xs[|xs| - 1], merge)
  }

  ghost predicate UniqueKeys<K, A>(gs: seq<(K, A)>) {
    forall i, j :: 0 <= i < j < |gs| ==> gs[i].0 != gs[j].0
  }

  /** The values of the rows with key `k`, in order. */
  function Select<K(==), A>(xs: seq<(K, A)>, k: K): (vs: seq<A>)
    ensures |vs| <= |xs|
  {
    if xs == [] then []
    else Select(xs[..|xs| - 1], k) + (if xs[|xs| - 1].0 == k then [xs[|xs| - 1].1] else [])
  }

  /** Values combined left to right: `((v0 ⊕ v1) ⊕ v2) ⊕ …`. */
  function Combine<A>(vs: seq<A>, merge: (A, A) -> A): A
    requires vs != []
  {
    if |vs| == 1 then vs[0] else merge(Combine(vs[..|vs| - 1], merge), vs[|vs| - 1])
  }

  /** `gs` are the groups of `xs`: unique keys, a group for the key of every
      row, and each group holding the combination of the values of the rows
      with its key (so no group without rows). */
  ghost predicate GroupsOf<K, A>(gs: seq<(K, A)>, xs: seq<(K, A)>, merge: (A, A) -> A) {
    && UniqueKeys(gs)
    && (forall i :: 0 <= i < |xs| ==> Find(gs, xs[i].0) < |gs|)
    && (forall i :: 0 <= i < |gs| ==>
          Select(xs, gs[i].0) != [] && gs[i].1 == Combine(Select(xs, gs[i].0), merge))
  }

  /** One group per distinct key, no other: the keys are unique, a key has a
      group exactly when some row has it, and a group holds the combination
      of the values of exactly the rows with its key, in order. */
  lemma {:induction false} GroupBySpec<K, A>(xs: seq<(K, A)>, merge: (A, A) -> A)
    ensures GroupsOf(GroupBy(xs, merge), xs, merge)
  {
    if xs != [] {
      var p := xs[..|xs| - 1];
      GroupBySpec(p, merge);
      assert p + [xs[|xs| - 1]] == xs;
      UpsertGroups(GroupBy(p, merge), p, xs[|xs| - 1], merge);
    }
  }

  lemma {:induction false} SelectSnoc<K, A>(p: seq<(K, A)>, x: (K, A), k: K)
    ensures Select(p + [x], k) == Select(p, k) + (if x.0 == k then [x.1] else [])
  {
    assert (p + [x])[..|p|] == p;
  }

  lemma {:induction false} CombineSnoc<A>(vs: seq<A>, a: A, merge: (A, A) -> A)
    requires vs != []
    ensures Combine(vs + [a], merge) == merge(Combine(vs, merge), a)
  {
    assert (vs + [a])[..|vs|] == vs;
  }

  /** A key with rows is the key of one of them. */
  lemma {:induction false} SelectNonEmpty<K, A>(xs: seq<(K, A)>, k: K)
    requires Select(xs, k) != []
    ensures exists n :: 0 <= n < |xs| && xs[n].0 == k
  {
    var p := xs[..|xs| - 1];
    if xs[|xs| - 1].0 != k {
      SelectNonEmpty(p, k);
      var n :| 0 <= n < |p| && p[n].0 == k;
      assert xs[n] == p[n];
    }
  }

  lemma {:induction false} UpsertGroups<K, A>(gs: seq<(K, A)>, p: seq<(K, A)>, x: (K, A), merge: (A, A) -> A)
    requires GroupsOf(gs, p, merge)
    ensures GroupsOf(Upsert(gs, x, merge), p + [x], merge)
  {
    if Find(gs, x.0) < |gs| {
      UpsertExisting(gs, p, x, merge);
    } else {
      UpsertNew(gs, p, x, merge);
    }
  }

  lemma {:induction false} UpsertExisting<K, A>(gs: seq<(K, A)>, p: seq<(K, A)>, x: (K, A), merge: (A, A) -> A)
    requires GroupsOf(gs, p, merge) && Find(gs, x.0) < |gs|
    ensures GroupsOf(Upsert(gs, x, merge), p + [x], merge)
  {
    var i := Find(gs, x.0);
    var hs := gs[i := (x.0, merge(gs[i].1, x.1))];
    assert Upsert(gs, x, merge) == hs;
    assert forall j :: 0 <= j < |gs| ==> hs[j].0 == gs[j].0;
    ExistingCover(gs, p, x, merge);
    ExistingValues(gs, p, x, merge);
  }

  lemma {:induction false} ExistingCover<K, A>(gs: seq<(K, A)>, p: seq<(K, A)>, x: (K, A), merge: (A, A) -> A)
    requires GroupsOf(gs, p, merge) && Find(gs, x.0) < |gs|
    ensures var hs := Upsert(gs, x, merge);
      forall n :: 0 <= n < |p + [x]| ==> Find(hs, (p + [x])[n].0) < |hs|
  {
    var xs := p + [x];
    var i := Find(gs, x.0);
    var hs := gs[i := (x.0, merge(gs[i].1, x.1))];
    assert Upsert(gs, x, merge) == hs;
    forall n | 0 <= n < |xs| ensures Find(hs, xs[n].0) < |hs| {
      if n < |p| {
        assert xs[n] == p[n];
        assert hs[Find(gs, p[n].0)].0 == p[n].0;
      } else {
        assert hs[i].0 == x.0;
      }
    }
  }

  lemma {:induction false} ExistingValues<K, A>(gs: seq<(K, A)>, p: seq<(K, A)>, x: (K, A), merge: (A, A) -> A)
    requires GroupsOf(gs, p, merge) && Find(gs, x.0) < |gs|
    ensures var hs := Upsert(gs, x, merge);
      forall j :: 0 <= j < |hs| ==>
        Select(p + [x], hs[j].0) != [] && hs[j].1 == Combine(Select(p + [x], hs[j].0), merge)
  {
    var xs := p + [x];
    var i := Find(gs, x.0);
    var hs := gs[i := (x.0, merge(gs[i].1, x.1))];
    assert Upsert(gs, x, merge) == hs;
    forall j | 0 <= j < |hs|
      ensures Select(xs, hs[j].0) != [] && hs[j].1 == Combine(Select(xs, hs[j].0), merge)
    {
      var k := hs[j].0;
      SelectSnoc(p, x, k);
      if j == i {
        var vs := Select(p, x.0);
        assert vs != [] && gs[i].1 == Combine(vs, merge);
        CombineSnoc(vs, x.1, merge);
        assert Select(xs, k) == vs + [x.1];
      } else {
        assert hs[j] == gs[j];
        assert gs[j].0 != gs[i].0;
        assert Select(xs, k) == Select(p, k);
      }
    }
  }

  lemma {:induction false} UpsertNew<K, A>(gs: seq<(K, A)>, p: seq<(K, A)>, x: (K, A), merge: (A, A) -> A)
    requires GroupsOf(gs, p, merge) && Find(gs, x.0) == |gs|
    ensures GroupsOf(Upsert(gs, x, merge), p + [x], merge)
  {
    var xs := p + [x];
    var hs := gs + [x];
    assert Upsert(gs, x, merge) == hs;
    forall n | 0 <= n < |xs| ensures Find(hs, xs[n].0) < |hs| {
      if n < |p| {
        assert xs[n] == p[n];
        assert hs[Find(gs, p[n].0)].0 == p[n].0;
      } else {
        assert hs[|gs|].0 == x.0;
      }
    }
    forall j | 0 <= j < |hs|
      ensures Select(xs, hs[j].0) != [] && hs[j].1 == Combine(Select(xs, hs[j].0), merge)
    {
      var k := hs[j].0;
      SelectSnoc(p, x, k);
      if j < |gs| {
        assert hs[j] == gs[j];
        assert k != x.0;
        assert Select(xs, k) == Select(p, k);
      } else {
        assert k == x.0;
        assert Select(p, k) == [] by {
          if Select(p, k) != [] {
            SelectNonEmpty(p, k);
          }
        }
        assert Select(xs, k) == [x.1];
      }
    }
  }

  /** Grouping rows whose keys are already unique changes nothing. */
  lemma {:induction false} GroupByUnique<K, A>(gs: seq<(K, A)>, merge: (A, A) -> A)
    requires UniqueKeys(gs)
    ensures GroupBy(gs, merge) == gs
  {
    if gs != [] {
      var p := gs[..|gs| - 1];
      GroupByUnique(p, merge);
      assert Find(p, gs[|gs| - 1].0) == |p|;
      assert p + [gs[|gs| - 1]] == gs;
    }
  }

  /** Regrouping is additive: grouping the groups of `xs` together with `ys`
      gives the groups of `xs + ys`. */
  lemma {:induction false} GroupByAppend<K, A>(xs: seq<(K, A)>, ys: seq<(K, A)>, merge: (A, A) -> A)
    ensures GroupBy(GroupBy(xs, merge) + ys, merge) == GroupBy(xs + ys, merge)
  {
    if ys == [] {
      GroupBySpec(xs, merge);
      GroupByUnique(GroupBy(xs, merge), merge);
      assert GroupBy(xs, merge) + ys == GroupBy(xs, merge);
      assert xs + ys == xs;
    } else {
      var ys' := ys[..|ys| - 1];
      GroupByAppend(xs, ys', merge);
      var gs := GroupBy(xs, merge);
      assert (gs + ys)[..|gs + ys| - 1] == gs + ys';
      assert (xs + ys)[..|xs + ys| - 1] == xs + ys';
    }
  }

  /** The plain sum of a projection of the values. */
  function SumBy<K, A>(xs: seq<(K, A)>, proj: A -> real): real {
    if xs == [] then 0.0 else SumBy(xs[..|xs| - 1], proj) + proj(xs[|xs| - 1].1)
  }

  lemma {:induction false} SumByUpdate<K, A>(gs: seq<(K, A)>, i: nat, g: (K, A), proj: A -> real)
    requires i < |gs|
    ensures SumBy(gs[i := g], proj) == SumBy(gs, proj) - proj(gs[i].1) + proj(g.1)
  {
    var p := gs[..|gs| - 1];
    if i < |gs| - 1 {
      SumByUpdate(p, i, g, proj);
      assert gs[i := g][..|gs| - 1] == p[i := g];
    } else {
      assert gs[i := g][..|gs| - 1] == p;
    }
  }

  /** Grouping loses nothing: when a projection adds up under `merge` (a sum
      column), the groups add up to the rows. */
  lemma {:induction false} GroupBySum<K, A>(xs: seq<(K, A)>, merge: (A, A) -> A, proj: A -> real)
    requires forall a, b :: proj(merge(a, b)) == proj(a) + proj(b)
    ensures SumBy(GroupBy(xs, merge), proj) == SumBy(xs, proj)
  {
    if xs != [] {
      var p := xs[..|xs| - 1];
      GroupBySum(p, merge, proj);
      UpsertSum(GroupBy(p, merge), xs[|xs| - 1], merge, proj);
    }
  }

  lemma {:induction false} UpsertSum<K, A>(gs: seq<(K, A)>, x: (K, A), merge: (A, A) -> A, proj: A -> real)
    requires forall a, b :: proj(merge(a, b)) == proj(a) + proj(b)
    ensures SumBy(Upsert(gs, x, merge), proj) == SumBy(gs, proj) + proj(x.1)
  {
    var i := Find(gs, x.0);
    if i < |gs| {
      var g := (x.0, merge(gs[i].1, x.1));
      SumByUpdate(gs, i, g, proj);
      assert proj(g.1) == proj(gs[i].1) + proj(x.1);
    } else {
      assert (gs + [x])[..|gs|] == gs;
    }
  }

  /** The groups of the rows `f` makes of `xs`, built one row at a time as
      `GroupBy` does. */
  function GroupMap<T, K(==), A>(xs: seq<T>, f: T -> (K, A), merge: (A, A) -> A): seq<(K, A)> {
    if xs == [] then [] else Upsert(GroupMap(xs[..|xs| - 1], f, merge), f(xs[|xs| - 1]), merge)
  }

  /** The plain sum of a projection of the values of the rows `f` makes. */
  function SumMap<T, K, A>(xs: seq<T>, f: T -> (K, A), proj: A -> real): real {
    if xs == [] then 0.0 else SumMap(xs[..|xs| - 1], f, proj) + proj(f(xs[|xs| - 1]).1)
  }

  /** Grouping the rows as they are made is grouping the made rows. */
  lemma {:induction false} GroupMapSpec<T, K, A>(xs: seq<T>, f: T -> (K, A), merge: (A, A) -> A)
    ensures GroupMap(xs, f, merge) == GroupBy(MapSeq(xs, f), merge)
  {
    if xs != [] {
      GroupMapSpec(xs[..|xs| - 1], f, merge);
      var ys := MapSeq(xs, f);
      assert ys[..|ys| - 1] == MapSeq(xs[..|xs| - 1], f);
    }
  }

  /** `GroupBySum` for rows made by `f`. */
  lemma {:induction false} GroupMapSum<T, K, A>(xs: seq<T>, f: T -> (K, A), merge: (A, A) -> A, proj: A -> real)
    requires forall a, b :: proj(merge(a, b)) == proj(a) + proj(b)
    ensures SumBy(GroupMap(xs, f, merge), proj) == SumMap(xs, f, proj)
  {
    if xs != [] {
      var p := xs[..|xs| - 1];
      GroupMapSum(p, f, merge, proj);
      UpsertSum(GroupMap(p, f, merge), f(xs[|xs| - 1]), merge, proj);
    }
  }

  /** The rows whose made key is `k`. */
  function KeyIs<T, K(==), A>(f: T -> (K, A), k: K): T -> bool {
    x => f(x).0 == k
  }

  function ValueFn<T, K, A>(f: T -> (K, A)): T -> A {
    x => f(x).1
  }

  /** The values a key collects are the values of its own rows, in the
      order of the rows. */
  lemma {:induction false} SelectMapSeq<T, K, A>(xs: seq<T>, f: T -> (K, A), k: K)
    ensures Select(MapSeq(xs, f), k) == MapSeq(Filter(xs, KeyIs(f, k)), ValueFn(f))
  {
    if xs != [] {
      var p, x := xs[..|xs| - 1], xs[|xs| - 1];
      assert p + [x] == xs;
      SelectMapSeq(p, f, k);
      MapSeqPush(p, x, f);
      SelectSnoc(MapSeq(p, f), f(x), k);
      FilterSnoc(p, x, KeyIs(f, k));
      var fp := Filter(p, KeyIs(f, k));
      if KeyIs(f, k)(x) {
        MapSeqPush(fp, x, ValueFn(f));
      }
    }
  }
}
