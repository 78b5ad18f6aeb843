/** The accumulator loops of the TISS parser: `total = Decimal('0')`, then
    `total += value(x)` for every element in document order, where computing a
    value may raise. The first raising element, in order, ends the loop with
    its error. */
module Accumulation {
  import opened Wrappers

  /** The sum of `f` over `xs`, or the error of the first element whose value
      fails. Defined from the end so that it follows the loop's prefixes. */
  function SumOf<T, E>(xs: seq<T>, f: T -> Result<real, E>): Result<real, E>
  {
    if xs == [] then Ok(0.0)
    else
      match SumOf(xs[..|xs| - 1], f)
      case Err(e) => Err(e)
      case Ok(t) =>
        match f(xs[|xs| - 1])
        case Err(e) => Err(e)
        case Ok(v) => Ok(t + v)
  }

  /** The plain sum of values that are known to exist. */
  function Total<T, E>(xs: seq<T>, f: T -> Result<real, E>): real
    requires forall k :: 0 <= k < |xs| ==> f(xs[k]).Ok?
  {
    if xs == [] then 0.0 else Total(xs[..|xs| - 1], f) + f(xs[|xs| - 1]).value
  }

  /** `SumOf` succeeds exactly when every element's value does, and then it is
      the plain sum; when it fails, the error is that of the first failing
      element. */
  lemma {:induction false} SumOfSpec<T, E>(xs: seq<T>, f: T -> Result<real, E>)
    ensures SumOf(xs, f).Ok? <==> (forall k :: 0 <= k < |xs| ==> f(xs[k]).Ok?)
    ensures SumOf(xs, f).Ok? ==> SumOf(xs, f).value == Total(xs, f)
    ensures SumOf(xs, f).Err? ==>
      exists i :: 0 <= i < |xs| && f(xs[i]) == Err(SumOf(xs, f).error)
                  && forall k :: 0 <= k < i ==> f(xs[k]).Ok?
  {
    if xs != [] {
      var p := xs[..|xs| - 1];
      SumOfSpec(p, f);
      assert forall k :: 0 <= k < |p| ==> p[k] == xs[k];
      if SumOf(p, f).Err? {
        var i :| 0 <= i < |p| && f(p[i]) == Err(SumOf(p, f).error)
                 && forall k :: 0 <= k < i ==> f(p[k]).Ok?;
        assert f(xs[i]) == Err(SumOf(xs, f).error);
      } else if f(xs[|xs| - 1]).Err? {
        assert f(xs[|xs| - 1]) == Err(SumOf(xs, f).error);
      }
    }
  }

  /** A failing prefix makes the whole sum fail with the same error: nothing
      after the first failure is looked at. */
  lemma {:induction false} SumOfPrefixErr<T, E>(xs: seq<T>, i: nat, f: T -> Result<real, E>)
    requires i <= |xs| && SumOf(xs[..i], f).Err?
    ensures SumOf(xs, f) == SumOf(xs[..i], f)
  {
    if i < |xs| {
      var p := xs[..|xs| - 1];
      assert p[..i] == xs[..i];
      SumOfPrefixErr(p, i, f);
    } else {
      assert xs[..i] == xs;
    }
  }

  /** A sum of values none of which is negative is not negative, and it is
      zero exactly when every value is. */
  lemma {:induction false} TotalNonNegative<T, E>(xs: seq<T>, f: T -> Result<real, E>)
    requires forall k :: 0 <= k < |xs| ==> f(xs[k]).Ok? && f(xs[k]).value >= 0.0
    ensures Total(xs, f) >= 0.0
    ensures Total(xs, f) == 0.0 <==> forall k :: 0 <= k < |xs| ==> f(xs[k]).value == 0.0
  {
    if xs != [] {
      var p := xs[..|xs| - 1];
      assert forall k :: 0 <= k < |p| ==> p[k] == xs[k];
      TotalNonNegative(p, f);
    }
  }

  /** Sums over consecutive runs add up. */
  lemma {:induction false} SumOfConcat<T, E>(a: seq<T>, b: seq<T>, f: T -> Result<real, E>)
    requires SumOf(a, f).Ok? && SumOf(b, f).Ok?
    ensures SumOf(a + b, f) == Ok(SumOf(a, f).value + SumOf(b, f).value)
  {
    if b != [] {
      var b' := b[..|b| - 1];
      assert (a + b)[..|a + b| - 1] == a + b';
      SumOfConcat(a, b', f);
    } else {
      assert a + b == a;
    }
  }

  /** The accumulator loop: `total += f(x)` for each `x`, stopping at the
      first failure. */
  method Accumulate<T, E>(xs: seq<T>, f: T -> Result<real, E>) returns (r: Result<real, E>)
    ensures r == SumOf(xs, f)
  {
    var total := 0.0;
    var i := 0;
    while i < |xs|
      invariant 0 <= i <= |xs|
      invariant SumOf(xs[..i], f) == Ok(total)
    {
      assert xs[..i + 1][..i] == xs[..i];
      var v := f(xs[i]);
      if v.Err? {
        SumOfPrefixErr(xs, i + 1, f);
        return Err(v.error);
      }
      total := total + v.value;
      i := i + 1;
    }
    assert xs[..i] == xs;
    r := Ok(total);
  }

  /** The elements of `xs` for which `p` holds, in order: what an XPath
      `findall` keeps when it is narrower than a search of the whole tree. */
  function Filter<T>(xs: seq<T>, p: T -> bool): (r: seq<T>)
    ensures |r| <= |xs|
    ensures forall x :: x in r ==> x in xs && p(x)
    ensures forall x :: x in xs && p(x) ==> x in r
  {
    if xs == [] then []
    else (if p(xs[0]) then [xs[0]] else []) + Filter(xs[1..], p)
  }

  /** `[f(x) for x in xs]` for an `f` that cannot fail; defined from the end
      so that it follows a loop's prefixes. */
  function MapSeq<T, R>(xs: seq<T>, f: T -> R): (rs: seq<R>)
    ensures |rs| == |xs|
    ensures forall k :: 0 <= k < |xs| ==> rs[k] == f(xs[k])
  {
    if xs == [] then [] else MapSeq(xs[..|xs| - 1], f) + [f(xs[|xs| - 1])]
  }

  /** A prefix of the mapped sequence grows by the image of the next
      element: the form a loop that appends as it goes follows. */
  lemma {:induction false} MapSeqSnoc<T, R>(xs: seq<T>, f: T -> R, i: nat)
    requires i < |xs|
    ensures MapSeq(xs, f)[..i + 1] == MapSeq(xs, f)[..i] + [f(xs[i])]
  {
    var m := MapSeq(xs, f);
    assert m[i] == f(xs[i]);
    assert m[..i + 1] == m[..i] + [m[i]];
  }

  /** Mapping a sequence grown by one element grows the image by its image. */
  lemma {:induction false} MapSeqPush<T, R>(xs: seq<T>, x: T, f: T -> R)
    ensures MapSeq(xs + [x], f) == MapSeq(xs, f) + [f(x)]
  {
    assert (xs + [x])[..|xs|] == xs;
  }

  /** `Filter` keeps every kept element as often as it occurs, and no other. */
  lemma {:induction false} FilterMultiset<T>(xs: seq<T>, p: T -> bool)
    ensures forall x :: multiset(Filter(xs, p))[x] == if p(x) then multiset(xs)[x] else 0
  {
    if xs != [] {
      FilterMultiset(xs[1..], p);
      assert xs == [xs[0]] + xs[1..];
      var head := if p(xs[0]) then [xs[0]] else [];
      assert multiset(Filter(xs, p)) == multiset(head) + multiset(Filter(xs[1..], p));
    }
  }

  /** Nothing is kept when no element qualifies. */
  lemma {:induction false} FilterNone<T>(xs: seq<T>, p: T -> bool)
    requires forall k :: 0 <= k < |xs| ==> !p(xs[k])
    ensures Filter(xs, p) == []
  {
    if xs != [] {
      FilterNone(xs[1..], p);
    }
  }

  /** Everything is kept when every element qualifies. */
  lemma {:induction false} FilterAll<T>(xs: seq<T>, p: T -> bool)
    requires forall k :: 0 <= k < |xs| ==> p(xs[k])
    ensures Filter(xs, p) == xs
  {
    if xs != [] {
      FilterAll(xs[1..], p);
    }
  }

  /** Appending one element extends the kept elements by it when it
      qualifies: the form a loop that appends as it goes follows. */
  lemma {:induction false} FilterSnoc<T>(xs: seq<T>, x: T, p: T -> bool)
    ensures Filter(xs + [x], p) == Filter(xs, p) + (if p(x) then [x] else [])
  {
    if xs == [] {
      assert xs + [x] == [x];
    } else {
      assert (xs + [x])[1..] == xs[1..] + [x];
      FilterSnoc(xs[1..], x, p);
    }
  }

  /** `[y for x in xs for y in f(x)]`: the images of the elements, one after
      the other. */
  function FlatMap<A, B>(xs: seq<A>, f: A -> seq<B>): seq<B> {
    if xs == [] then [] else FlatMap(xs[..|xs| - 1], f) + f(xs[|xs| - 1])
  }

  /** Everything in the concatenation comes from the image of some element. */
  lemma {:induction false} FlatMapSound<A, B>(xs: seq<A>, f: A -> seq<B>)
    ensures forall y :: y in FlatMap(xs, f) ==> exists j :: 0 <= j < |xs| && y in f(xs[j])
  {
    if xs != [] {
      var p := xs[..|xs| - 1];
      FlatMapSound(p, f);
      forall y | y in FlatMap(xs, f) ensures exists j :: 0 <= j < |xs| && y in f(xs[j]) {
        if y in FlatMap(p, f) {
          var j :| 0 <= j < |p| && y in f(p[j]);
          assert xs[j] == p[j];
        } else {
          assert y in f(xs[|xs| - 1]);
        }
      }
    }
  }

  /** Everything in the image of an element is in the concatenation. */
  lemma {:induction false} FlatMapComplete<A, B>(xs: seq<A>, f: A -> seq<B>)
    ensures forall j, y :: 0 <= j < |xs| && y in f(xs[j]) ==> y in FlatMap(xs, f)
  {
    if xs != [] {
      var p := xs[..|xs| - 1];
      FlatMapComplete(p, f);
      forall j, y | 0 <= j < |xs| && y in f(xs[j]) ensures y in FlatMap(xs, f) {
        if j < |p| {
          assert xs[j] == p[j];
          assert y in FlatMap(p, f);
        }
      }
    }
  }

  /** Position of the first element for which `p` holds, `|xs|` if none:
      what `mask.idxmax()` after `mask.any()` and `next(...)` find. */
  function FirstWhere<T>(xs: seq<T>, p: T -> bool): (i: nat)
    ensures i <= |xs|
  {
    if xs == [] then 0 else if p(xs[0]) then 0 else 1 + FirstWhere(xs[1..], p)
  }

  /** `FirstWhere` finds an element satisfying `p`, when there is one, and no
      element before it satisfies `p`. */
  lemma {:induction false} FirstWhereFirst<T>(xs: seq<T>, p: T -> bool)
    ensures FirstWhere(xs, p) < |xs| ==> p(xs[FirstWhere(xs, p)])
    ensures forall k :: 0 <= k < FirstWhere(xs, p) ==> !p(xs[k])
  {
    if xs != [] && !p(xs[0]) {
      FirstWhereFirst(xs[1..], p);
      assert forall k :: 1 <= k < |xs| ==> xs[k] == xs[1..][k - 1];
    }
  }

  /** `[f(x) for x in xs]` where `f` may raise: the list of results, or the
      error of the first failing element. Defined from the end, like
      `SumOf`. */
  function MapAll<T, R, E>(xs: seq<T>, f: T -> Result<R, E>): Result<seq<R>, E>
  {
    if xs == [] then Ok([])
    else
      match MapAll(xs[..|xs| - 1], f)
      case Err(e) => Err(e)
      case Ok(rs) =>
        match f(xs[|xs| - 1])
        case Err(e) => Err(e)
        case Ok(v) => Ok(rs + [v])
  }

  /** `MapAll` succeeds exactly when every element does, and then holds one
      result per element, in order; when it fails, it fails with the error of
      the first failing element. */
  lemma {:induction false} MapAllSpec<T, R, E>(xs: seq<T>, f: T -> Result<R, E>)
    ensures MapAll(xs, f).Ok? <==> (forall k :: 0 <= k < |xs| ==> f(xs[k]).Ok?)
    ensures MapAll(xs, f).Ok? ==>
      |MapAll(xs, f).value| == |xs| && forall k :: 0 <= k < |xs| ==> MapAll(xs, f).value[k] == f(xs[k]).value
    ensures MapAll(xs, f).Err? ==>
      exists i :: 0 <= i < |xs| && f(xs[i]) == Err(MapAll(xs, f).error)
                  && forall k :: 0 <= k < i ==> f(xs[k]).Ok?
  {
    if xs != [] {
      var p := xs[..|xs| - 1];
      MapAllSpec(p, f);
      assert forall k :: 0 <= k < |p| ==> p[k] == xs[k];
      if MapAll(p, f).Err? {
        var i :| 0 <= i < |p| && f(p[i]) == Err(MapAll(p, f).error)
                 && forall k :: 0 <= k < i ==> f(p[k]).Ok?;
        assert f(xs[i]) == Err(MapAll(xs, f).error);
      } else if f(xs[|xs| - 1]).Err? {
        assert f(xs[|xs| - 1]) == Err(MapAll(xs, f).error);
      }
    }
  }

  lemma {:induction false} MapAllPrefixErr<T, R, E>(xs: seq<T>, i: nat, f: T -> Result<R, E>)
    requires i <= |xs| && MapAll(xs[..i], f).Err?
    ensures MapAll(xs, f) == MapAll(xs[..i], f)
  {
    if i < |xs| {
      var p := xs[..|xs| - 1];
      assert p[..i] == xs[..i];
      MapAllPrefixErr(p, i, f);
    } else {
      assert xs[..i] == xs;
    }
  }

  /** The collecting loop: `out.append(f(x))` for each `x`, stopping at the
      first failure. */
  method Collect<T, R, E>(xs: seq<T>, f: T -> Result<R, E>) returns (r: Result<seq<R>, E>)
    ensures r == MapAll(xs, f)
  {
    var out: seq<R> := [];
    var i := 0;
    while i < |xs|
      invariant 0 <= i <= |xs|
      invariant MapAll(xs[..i], f) == Ok(out)
    {
      assert xs[..i + 1][..i] == xs[..i];
      var v := f(xs[i]);
      if v.Err? {
        MapAllPrefixErr(xs, i + 1, f);
        return Err(v.error);
      }
      out := out + [v.value];
      i := i + 1;
    }
    assert xs[..i] == xs;
    r := Ok(out);
  }
}
