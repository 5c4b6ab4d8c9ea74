/** The generation path of a list: the roots of the perfect subtrees of its leaves, one for each
    1 bit of its length. */
module MerklePeaks {
  import opened Pow2s
  import opened MerkleTree

  /** The leaves below i complete nodes of level k: i * 2^k. */
  function Span(i: nat, k: nat): nat {
    if k == 0 then i else 2 * Span(i, k - 1)
  }

  lemma {:induction false} SpanAdd(i: nat, j: nat, k: nat)
    ensures Span(i + j, k) == Span(i, k) + Span(j, k)
  {
    if k > 0 {
      SpanAdd(i, j, k - 1);
    }
  }

  lemma {:induction false} SpanOne(k: nat)
    ensures Span(1, k) == Pow2(k)
  {
    if k > 0 {
      SpanOne(k - 1);
    }
  }

  lemma {:induction false} SpanZero(k: nat)
    ensures Span(0, k) == 0
  {
    if k > 0 {
      SpanZero(k - 1);
    }
  }

  /** The roots of the perfect subtrees that the first m complete nodes of level k split
      into: one for each 1 bit of m, lowest bit first. */
  function Peaks(sha: Sha, xs: seq<string>, m: nat, k: nat): seq<Digest>
    requires Span(m, k) <= |xs|
  {
    if m == 0 then []
    else
      HalfNodes(m, k);
      var rest := Peaks(sha, xs, m / 2, k + 1);
      if m % 2 == 1 then [Tree(sha, k, Node(xs, m - 1, k))] + rest else rest
  }

  /** The leaves below the complete node i of level k. */
  function Node(xs: seq<string>, i: nat, k: nat): (r: seq<string>)
    requires Span(i + 1, k) <= |xs|
    ensures |r| == Pow2(k)
  {
    NodeBounds(i, k);
    xs[Span(i, k)..Span(i + 1, k)]
  }

  lemma NodeBounds(i: nat, k: nat)
    ensures Span(i + 1, k) == Span(i, k) + Pow2(k)
  {
    SpanAdd(i, 1, k);
    SpanOne(k);
  }

  lemma HalfNodes(m: nat, k: nat)
    ensures Span(m / 2, k + 1) <= Span(m, k)
    ensures m % 2 == 0 ==> Span(m / 2, k + 1) == Span(m, k)
    ensures m % 2 == 1 ==> Span(m / 2, k + 1) == Span(m - 1, k)
  {
    var h := m / 2;
    SpanAdd(h, h, k);
    NodeBounds(h + h, k);
  }

  predicate IsPow2(n: nat) {
    n >= 1 && n == Pow2(CeilLog2(n))
  }

  /** The path that goes with the leaves xs: the peaks, then the root unless it is the only peak. */
  function Path(sha: Sha, xs: seq<string>): seq<Digest> {
    assert Span(|xs|, 0) == |xs|;
    Peaks(sha, xs, |xs|, 0) + if |xs| == 0 || IsPow2(|xs|) then [] else [Root(sha, xs)]
  }

  /** Peaks look only at the leaves they cover. */
  lemma {:induction false} PeaksOfPrefix(sha: Sha, xs: seq<string>, ys: seq<string>, m: nat, k: nat)
    requires Span(m, k) <= |xs| && xs <= ys
    ensures Peaks(sha, xs, m, k) == Peaks(sha, ys, m, k)
    decreases m
  {
    if m > 0 {
      HalfNodes(m, k);
      PeaksOfPrefix(sha, xs, ys, m / 2, k + 1);
      if m % 2 == 1 {
        assert Node(xs, m - 1, k) == Node(ys, m - 1, k);
      }
    }
  }

  /** Where the climb is: node `index` of level k, counted from 1, ends the list of n leaves. */
  predicate At(n: nat, k: nat, index: nat) {
    && index >= 1 && Span(index - 1, k) < n <= Span(index, k)
    && (k > 0 ==> Pow2(k - 1) < n)
  }

  /** The leaves below the last node of level k. */
  function Last(xs: seq<string>, k: nat, index: nat): (r: seq<string>)
    requires At(|xs|, k, index)
    ensures 1 <= |r| <= Pow2(k)
  {
    NodeBounds(index - 1, k);
    xs[Span(index - 1, k)..]
  }

  lemma OddEven(index: nat)
    requires index > 1
    ensures (index + 1) / 2 - 1 == (index - 1) / 2
    ensures (index - 1) % 2 == if index % 2 == 1 then 0 else 1
  {
  }

  lemma UpOdd(n: nat, k: nat, h: nat)
    requires h >= 2 && At(n, k, 2 * h - 1)
    ensures At(n, k + 1, h) && Span(h - 1, k + 1) == Span(2 * h - 2, k) && Span(2 * h - 1, k) < Span(h, k + 1)
  {
    SpanAdd(h, h, k);
    SpanAdd(h - 1, h - 1, k);
    NodeBounds(2 * h - 3, k);
    NodeBounds(2 * h - 1, k);
  }

  lemma UpEven(n: nat, k: nat, h: nat)
    requires h >= 1 && At(n, k, 2 * h)
    ensures At(n, k + 1, h) && Span(h - 1, k + 1) == Span(2 * h - 2, k) && Span(h, k + 1) == Span(2 * h, k)
  {
    SpanAdd(h, h, k);
    SpanAdd(h - 1, h - 1, k);
    NodeBounds(2 * h - 2, k);
  }

  lemma AtUp(n: nat, k: nat, index: nat)
    requires At(n, k, index) && index > 1
    ensures At(n, k + 1, (index + 1) / 2)
    ensures index % 2 == 1 ==> Span((index + 1) / 2 - 1, k + 1) == Span(index - 1, k)
    ensures index % 2 == 0 ==> Span((index + 1) / 2 - 1, k + 1) == Span(index - 2, k)
    ensures index % 2 == 0 ==> Span((index + 1) / 2, k + 1) == Span(index, k)
    ensures index % 2 == 1 ==> Span(index, k) < Span((index + 1) / 2, k + 1)
  {
    var h := (index + 1) / 2;
    if index % 2 == 1 {
      assert index == 2 * h - 1;
      UpOdd(n, k, h);
    } else {
      assert index == 2 * h;
      UpEven(n, k, h);
    }
  }

  /** The last node is complete when it ends the list. */
  lemma LastIsNode(xs: seq<string>, k: nat, index: nat)
    requires At(|xs|, k, index) && |xs| == Span(index, k)
    ensures Node(xs, index - 1, k) == Last(xs, k, index)
  {
    NodeBounds(index - 1, k);
    assert xs[Span(index - 1, k)..Span(index, k)] == xs[Span(index - 1, k)..];
  }

  lemma TreeUp(sha: Sha, xs: seq<string>, k: nat)
    requires 1 <= |xs| <= Pow2(k + 1)
    ensures |xs| <= Pow2(k) ==> Tree(sha, k + 1, xs) == Pair(sha, Tree(sha, k, xs), Tree(sha, k, xs))
    ensures |xs| > Pow2(k) ==> Tree(sha, k + 1, xs) == Pair(sha, Tree(sha, k, xs[..Pow2(k)]), Tree(sha, k, xs[Pow2(k)..]))
  {
  }

  /** The node of the parent level, in both branches of the loop. */
  lemma LastUp(sha: Sha, xs: seq<string>, k: nat, index: nat)
    requires At(|xs|, k, index) && index > 1
    ensures At(|xs|, k + 1, (index + 1) / 2)
    ensures index % 2 == 1 ==>
      var t := Tree(sha, k, Last(xs, k, index));
      Tree(sha, k + 1, Last(xs, k + 1, (index + 1) / 2)) == Pair(sha, t, t)
    ensures index % 2 == 0 ==> Span(index - 1, k) <= |xs|
    ensures index % 2 == 0 ==>
      Tree(sha, k + 1, Last(xs, k + 1, (index + 1) / 2))
      == Pair(sha, Tree(sha, k, Node(xs, index - 2, k)), Tree(sha, k, Last(xs, k, index)))
  {
    hide Tree;
    AtUp(|xs|, k, index);
    var block := Last(xs, k + 1, (index + 1) / 2);
    TreeUp(sha, block, k);
    if index % 2 == 1 {
      assert block == Last(xs, k, index);
    } else {
      NodeBounds(index - 2, k);
      assert block[..Pow2(k)] == Node(xs, index - 2, k);
      assert block[Pow2(k)..] == Last(xs, k, index);
    }
  }

  /** What is still to come of the peaks of m complete nodes, one level up. */
  lemma PeaksUp(sha: Sha, xs: seq<string>, m: nat, k: nat)
    requires m >= 1 && Span(m, k) <= |xs|
    ensures Span(m / 2, k + 1) <= |xs|
    ensures m % 2 == 0 ==> Peaks(sha, xs, m, k) == Peaks(sha, xs, m / 2, k + 1)
    ensures m % 2 == 1 ==>
      Peaks(sha, xs, m, k) == [Tree(sha, k, Node(xs, m - 1, k))] + Peaks(sha, xs, m / 2, k + 1)
  {
    HalfNodes(m, k);
  }
}
