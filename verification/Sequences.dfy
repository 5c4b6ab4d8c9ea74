/** Filtering and mapping a sequence in one go. */
module Sequences {
  import opened Wrappers

  function FilterMap<A, B>(f: A -> Option<B>, xs: seq<A>): (r: seq<B>)
    ensures |r| <= |xs|
  {
    if xs == [] then []
    else
      var n := |xs| - 1;
      var y := f(xs[n]);
      FilterMap(f, xs[..n]) + if y.Some? then [y.value] else []
  }

  lemma {:induction false} FilterMapConcat<A, B>(f: A -> Option<B>, xs: seq<A>, ys: seq<A>)
    ensures FilterMap(f, xs + ys) == FilterMap(f, xs) + FilterMap(f, ys)
    decreases |ys|
  {
    if ys == [] {
      assert xs + ys == xs;
    } else {
      var n := |ys| - 1;
      assert (xs + ys)[..|xs| + n] == xs + ys[..n];
      FilterMapConcat(f, xs, ys[..n]);
    }
  }

  lemma FilterMapSnoc<A, B>(f: A -> Option<B>, xs: seq<A>, x: A)
    ensures FilterMap(f, xs + [x]) == FilterMap(f, xs) + if f(x).Some? then [f(x).value] else []
  {
    assert (xs + [x])[..|xs|] == xs;
  }

  lemma {:induction false} FilterMapNone<A, B>(f: A -> Option<B>, xs: seq<A>)
    requires forall i | 0 <= i < |xs| :: f(xs[i]).None?
    ensures FilterMap(f, xs) == []
  {
    if xs != [] {
      FilterMapNone(f, xs[..|xs| - 1]);
    }
  }

  /** Two passes are one pass. */
  lemma {:induction false} FilterMapTwice<A, B, C>(f: A -> Option<B>, g: B -> Option<C>, h: A -> Option<C>, xs: seq<A>)
    requires forall i | 0 <= i < |xs| :: h(xs[i]) == if f(xs[i]).None? then None else g(f(xs[i]).value)
    ensures FilterMap(g, FilterMap(f, xs)) == FilterMap(h, xs)
  {
    if xs != [] {
      var n := |xs| - 1;
      FilterMapTwice(f, g, h, xs[..n]);
      if f(xs[n]).Some? {
        FilterMapSnoc(g, FilterMap(f, xs[..n]), f(xs[n]).value);
      } else {
        assert FilterMap(f, xs) == FilterMap(f, xs[..n]);
      }
    }
  }

  lemma {:induction false} FilterMapAgree<A, B>(f: A -> Option<B>, g: A -> Option<B>, xs: seq<A>)
    requires forall i | 0 <= i < |xs| :: f(xs[i]) == g(xs[i])
    ensures FilterMap(f, xs) == FilterMap(g, xs)
  {
    if xs != [] {
      FilterMapAgree(f, g, xs[..|xs| - 1]);
    }
  }

  lemma FilterMapPrefix<A, B>(f: A -> Option<B>, xs: seq<A>, ys: seq<A>)
    requires xs <= ys
    ensures FilterMap(f, xs) <= FilterMap(f, ys)
  {
    assert ys == xs + ys[|xs|..];
    FilterMapConcat(f, xs, ys[|xs|..]);
  }

  lemma {:induction false} FilterMapIdentity<A>(f: A -> Option<A>, xs: seq<A>)
    requires forall i | 0 <= i < |xs| :: f(xs[i]) == Some(xs[i])
    ensures FilterMap(f, xs) == xs
  {
    if xs != [] {
      FilterMapIdentity(f, xs[..|xs| - 1]);
    }
  }

  /** Every result comes from an element. */
  lemma {:induction false} FilterMapSource<A, B>(f: A -> Option<B>, xs: seq<A>, i: nat) returns (k: nat)
    requires i < |FilterMap(f, xs)|
    ensures k < |xs| && f(xs[k]) == Some(FilterMap(f, xs)[i])
  {
    var n := |xs| - 1;
    if i < |FilterMap(f, xs[..n])| {
      k := FilterMapSource(f, xs[..n], i);
    } else {
      k := n;
    }
  }

  /** Only what is filtered and mapped matters. */
  lemma {:induction false} FilterMapPointwise<A, B>(f: A -> Option<B>, xs: seq<A>, ys: seq<A>)
    requires |xs| == |ys| && forall i | 0 <= i < |xs| :: f(xs[i]) == f(ys[i])
    ensures FilterMap(f, xs) == FilterMap(f, ys)
  {
    if xs != [] {
      FilterMapPointwise(f, xs[..|xs| - 1], ys[..|ys| - 1]);
    }
  }

  /** An element that is kept comes after what is kept of those before it. */
  lemma FilterMapAt<A, B>(f: A -> Option<B>, xs: seq<A>, k: nat)
    requires k < |xs| && f(xs[k]).Some?
    ensures |FilterMap(f, xs[..k])| < |FilterMap(f, xs)| && FilterMap(f, xs)[|FilterMap(f, xs[..k])|] == f(xs[k]).value
  {
    assert xs[..k] + [xs[k]] + xs[k + 1..] == xs;
    FilterMapSnoc(f, xs[..k], xs[k]);
    FilterMapConcat(f, xs[..k] + [xs[k]], xs[k + 1..]);
  }
}
