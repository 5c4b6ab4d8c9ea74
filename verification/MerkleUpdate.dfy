/** `update` is binary increment on the peaks: it consumes the old ones from low to high and
    emits the new ones, then the root. */
module MerkleUpdate {
  import opened Pow2s
  import opened Wrappers
  import opened MerkleTree
  import opened MerklePeaks

  /** The new path built so far: nothing while the last node is perfect (flag -1 or 0), else
      every new peak below level k. */
  ghost predicate Emitted(sha: Sha, xs: seq<string>, k: nat, flag: int, index: nat, next: seq<string>)
    requires At(|xs|, k, index)
  {
    assert Span(|xs|, 0) == |xs|;
    && -1 <= flag <= 1
    && (flag <= 0 ==> next == [] && |xs| == Span(index, k)
                      && Peaks(sha, xs, |xs|, 0) == Peaks(sha, xs, index, k))
    && (flag == 1 ==> |xs| < Span(index, k)
                      && Peaks(sha, xs, |xs|, 0) == next + Peaks(sha, xs, index - 1, k))
  }

  lemma EmittedUpPerfect(sha: Sha, xs: seq<string>, k: nat, flag: int, index: nat, next: seq<string>)
    requires At(|xs|, k, index) && index > 1 && Emitted(sha, xs, k, flag, index, next) && flag <= 0
    ensures At(|xs|, k + 1, (index + 1) / 2)
    ensures index % 2 == 1 ==>
      Emitted(sha, xs, k + 1, 1, (index + 1) / 2, next + [Tree(sha, k, Last(xs, k, index))])
    ensures index % 2 == 0 ==> Span(index - 1, k) <= |xs|
    ensures index % 2 == 0 ==> Emitted(sha, xs, k + 1, 0, (index + 1) / 2, next)
  {
    var h := (index + 1) / 2;
    AtUp(|xs|, k, index);
    PeaksUp(sha, xs, index, k);
    if index % 2 == 1 {
      assert index / 2 == h - 1;
      LastIsNode(xs, k, index);
    } else {
      assert index / 2 == h;
    }
  }

  lemma EmittedUpStarted(sha: Sha, xs: seq<string>, k: nat, index: nat, next: seq<string>)
    requires At(|xs|, k, index) && index > 1 && Emitted(sha, xs, k, 1, index, next)
    ensures At(|xs|, k + 1, (index + 1) / 2)
    ensures index % 2 == 1 ==> Emitted(sha, xs, k + 1, 1, (index + 1) / 2, next)
    ensures index % 2 == 0 ==> Span(index - 1, k) <= |xs|
    ensures index % 2 == 0 ==>
      Emitted(sha, xs, k + 1, 1, (index + 1) / 2, next + [Tree(sha, k, Node(xs, index - 2, k))])
  {
    AtUp(|xs|, k, index);
    PeaksUp(sha, xs, index - 1, k);
    var h := (index + 1) / 2;
    OddEven(index);
    assert |xs| < Span(h, k + 1);
    var rest := Peaks(sha, xs, h - 1, k + 1);
    if index % 2 == 0 {
      var peak := Tree(sha, k, Node(xs, index - 2, k));
      assert next + ([peak] + rest) == (next + [peak]) + rest;
    }
  }

  lemma EmittedUp(sha: Sha, xs: seq<string>, k: nat, flag: int, index: nat, next: seq<string>)
    requires At(|xs|, k, index) && index > 1 && Emitted(sha, xs, k, flag, index, next)
    ensures At(|xs|, k + 1, (index + 1) / 2)
    ensures index % 2 == 1 ==>
      Emitted(sha, xs, k + 1, 1, (index + 1) / 2,
              if flag <= 0 then next + [Tree(sha, k, Last(xs, k, index))] else next)
    ensures index % 2 == 0 ==> Span(index - 1, k) <= |xs|
    ensures index % 2 == 0 ==>
      Emitted(sha, xs, k + 1, if flag == -1 then 0 else flag, (index + 1) / 2,
              if flag == 1 then next + [Tree(sha, k, Node(xs, index - 2, k))] else next)
  {
    if flag <= 0 {
      EmittedUpPerfect(sha, xs, k, flag, index, next);
    } else {
      EmittedUpStarted(sha, xs, k, index, next);
    }
  }

  /** The loop invariant of `update`, for the leaves xs with the new one last: the node of
      level k reached so far covers the last leaves, and the old path still holds the old
      peaks of level k and above. */
  ghost predicate Climbing(sha: Sha, xs: seq<string>, k: nat, path: seq<string>, pathpoint: nat, flag: int,
                           node: Digest, index: nat, next: seq<string>)
  {
    && At(|xs|, k, index)
    && node == Tree(sha, k, Last(xs, k, index))
    && pathpoint <= |path| && Peaks(sha, xs, index - 1, k) <= path[pathpoint..]
    && Emitted(sha, xs, k, flag, index, next)
  }

  /** The odd branch: no left neighbour, the node is paired with itself. */
  lemma ClimbOdd(sha: Sha, xs: seq<string>, k: nat, path: seq<string>, pathpoint: nat, flag: int,
                 node: Digest, index: nat, next: seq<string>)
    requires Climbing(sha, xs, k, path, pathpoint, flag, node, index, next)
    requires index > 1 && index % 2 == 1
    ensures Climbing(sha, xs, k + 1, path, pathpoint, 1, Pair(sha, node, node), (index + 1) / 2,
                     if flag <= 0 then next + [node] else next)
  {
    LastUp(sha, xs, k, index);
    EmittedUp(sha, xs, k, flag, index, next);
    PeaksUp(sha, xs, index - 1, k);
  }

  /** In the even branch the next old peak is the left neighbour. */
  lemma NextPeak(sha: Sha, xs: seq<string>, k: nat, path: seq<string>, pathpoint: nat, index: nat)
    requires index >= 2 && index % 2 == 0 && Span(index - 1, k) <= |xs| && pathpoint <= |path|
    requires Peaks(sha, xs, index - 1, k) <= path[pathpoint..]
    ensures pathpoint < |path| && path[pathpoint] == Tree(sha, k, Node(xs, index - 2, k))
    ensures Span((index + 1) / 2 - 1, k + 1) <= |xs|
    ensures Peaks(sha, xs, (index + 1) / 2 - 1, k + 1) <= path[pathpoint + 1..]
  {
    OddEven(index);
    PeaksUp(sha, xs, index - 1, k);
    var peaks := Peaks(sha, xs, index - 1, k);
    assert path[pathpoint] == path[pathpoint..][0] == peaks[0];
    assert peaks[1..] == Peaks(sha, xs, (index - 1) / 2, k + 1);
    assert path[pathpoint..][1..] == path[pathpoint + 1..];
  }

  /** The even branch: the left neighbour is the next old peak. */
  lemma ClimbEven(sha: Sha, xs: seq<string>, k: nat, path: seq<string>, pathpoint: nat, flag: int,
                  node: Digest, index: nat, next: seq<string>)
    requires Climbing(sha, xs, k, path, pathpoint, flag, node, index, next)
    requires index % 2 == 0
    ensures pathpoint < |path|
    ensures Climbing(sha, xs, k + 1, path, pathpoint + 1, if flag == -1 then 0 else flag,
                     Pair(sha, path[pathpoint], node), (index + 1) / 2,
                     if flag == 1 then next + [path[pathpoint]] else next)
  {
    NextPeak(sha, xs, k, path, pathpoint, index);
    LastUp(sha, xs, k, index);
    EmittedUp(sha, xs, k, flag, index, next);
  }

  /** The top of the tree: the node is the root and the path is complete. */
  lemma ClimbTop(sha: Sha, xs: seq<string>, k: nat, flag: int, next: seq<string>)
    requires At(|xs|, k, 1) && Emitted(sha, xs, k, flag, 1, next)
    ensures k == CeilLog2(|xs|) && Last(xs, k, 1) == xs
    ensures next + [Root(sha, xs)] == Path(sha, xs)
  {
    SpanOne(k);
    SpanZero(k);
    CeilLog2Unique(|xs|, k);
    assert Last(xs, k, 1) == xs;
    PathOfTop(sha, xs, k, flag, next);
  }

  /** A perfect tree has one peak, its root. */
  lemma PeakOfPerfect(sha: Sha, xs: seq<string>, k: nat)
    requires |xs| == Pow2(k)
    ensures Span(1, k) <= |xs| && Peaks(sha, xs, 1, k) == [Tree(sha, k, xs)]
  {
    SpanOne(k);
    SpanZero(k);
    SpanZero(k + 1);
    var none := Peaks(sha, xs, 0, k + 1);
    assert Node(xs, 0, k) == xs;
    PeaksUp(sha, xs, 1, k);
    assert none == [];
  }

  lemma PathOfTop(sha: Sha, xs: seq<string>, k: nat, flag: int, next: seq<string>)
    requires At(|xs|, k, 1) && Emitted(sha, xs, k, flag, 1, next) && k == CeilLog2(|xs|)
    ensures next + [Root(sha, xs)] == Path(sha, xs)
  {
    SpanOne(k);
    SpanZero(k);
    assert Span(|xs|, 0) == |xs|;
    var peaks := Peaks(sha, xs, |xs|, 0);
    if flag <= 0 {
      PeakOfPerfect(sha, xs, k);
      assert peaks == [Root(sha, xs)] && IsPow2(|xs|);
    } else {
      var none := Peaks(sha, xs, 0, k);
      assert none == [] && peaks == next + none == next && !IsPow2(|xs|);
    }
  }

  lemma ClimbDone(sha: Sha, xs: seq<string>, k: nat, path: seq<string>, pathpoint: nat, flag: int, node: Digest, next: seq<string>)
    requires Climbing(sha, xs, k, path, pathpoint, flag, node, 1, next)
    ensures k == CeilLog2(|xs|) && node == Root(sha, xs) && next + [node] == Path(sha, xs)
  {
    ClimbTop(sha, xs, k, flag, next);
  }

  lemma ClimbLevel(sha: Sha, xs: seq<string>, k: nat, path: seq<string>, pathpoint: nat, flag: int, node: Digest, index: nat, next: seq<string>)
    requires Climbing(sha, xs, k, path, pathpoint, flag, node, index, next)
    ensures index >= 1
  {
  }

  lemma {:induction false} ClimbCorrect(sha: Sha, xs: seq<string>, k: nat, path: seq<string>, pathpoint: nat,
                                        flag: int, node: Digest, index: nat, next: seq<string>, hashes: nat)
    requires Climbing(sha, xs, k, path, pathpoint, flag, node, index, next)
    ensures k <= CeilLog2(|xs|)
    ensures Climb(sha, path, pathpoint, flag, node, index, next, hashes)
            == Ok(Appended(Root(sha, xs), Path(sha, xs), hashes + CeilLog2(|xs|) - k))
    decreases index
  {
    hide Climbing, Path, Root;
    ClimbLevel(sha, xs, k, path, pathpoint, flag, node, index, next);
    if index == 1 {
      ClimbDone(sha, xs, k, path, pathpoint, flag, node, next);
    } else if index % 2 == 1 {
      ClimbOdd(sha, xs, k, path, pathpoint, flag, node, index, next);
      ClimbCorrect(sha, xs, k + 1, path, pathpoint, 1, Pair(sha, node, node), (index + 1) / 2,
                   if flag <= 0 then next + [node] else next, hashes + 1);
    } else {
      ClimbEven(sha, xs, k, path, pathpoint, flag, node, index, next);
      ClimbCorrect(sha, xs, k + 1, path, pathpoint + 1, if flag == -1 then 0 else flag,
                   Pair(sha, path[pathpoint], node), (index + 1) / 2,
                   if flag == 1 then next + [path[pathpoint]] else next, hashes + 1);
    }
  }

  /** Appending one leaf: the new root is the recursive root, the new path is the path of the
      longer list, `path[pathpoint]` is always in bounds, and sha is called once per level. */
  lemma UpdateAppends(sha: Sha, xs: seq<string>, cm: string)
    ensures var ys := xs + [cm];
            Update(sha, Path(sha, xs), |ys|, cm)
            == Ok(Appended(Root(sha, ys), Path(sha, ys), CeilLog2(|ys|) + 1))
  {
    var ys, n := xs + [cm], |xs|;
    assert ys[n..] == [cm];
    PeaksOfPrefix(sha, xs, ys, n, 0);
    assert Peaks(sha, ys, n, 0) <= Path(sha, xs)[0..];
    ClimbCorrect(sha, ys, 0, Path(sha, xs), 0, -1, sha(cm), |ys|, [], 1);
  }

  /** What folding `update` over the first n leaves has computed. */
  ghost predicate Folded(sha: Sha, cms: seq<string>, n: nat, roots: seq<Digest>, path: seq<string>) {
    && n <= |cms| && |roots| == n && path == Path(sha, cms[..n])
    && (forall i | 0 <= i < n :: roots[i] == Root(sha, cms[..i + 1]))
    && (n > 0 ==> path != [] && path[|path| - 1] == roots[n - 1])
  }

  lemma FoldedNext(sha: Sha, cms: seq<string>, n: nat, roots: seq<Digest>, path: seq<string>)
    requires Folded(sha, cms, n, roots, path) && n < |cms|
    ensures var r := Update(sha, path, n + 1, cms[n]);
            r.Ok? && Folded(sha, cms, n + 1, roots + [r.value.root], r.value.path)
  {
    hide Update, Path, Root;
    UpdatePrefix(sha, cms, n);
  }

  /** Folding `update` over a list from the empty path, as the file's own check does: every
      prefix root is the recursive root of the prefix, and is the last element of its path. */
  method UpdateAll(sha: Sha, cms: seq<string>) returns (roots: seq<Digest>, path: seq<string>)
    ensures |roots| == |cms| && path == Path(sha, cms)
    ensures forall i | 0 <= i < |cms| :: Merkle(sha, Leaves(cms[..i + 1])) == Ok(Some(roots[i]))
    ensures cms != [] ==> path != [] && path[|path| - 1] == roots[|cms| - 1]
  {
    roots, path := [], [];
    for idx := 0 to |cms|
      invariant Folded(sha, cms, idx, roots, path)
    {
      FoldedNext(sha, cms, idx, roots, path);
      var r := UpdateLoop(sha, path, idx + 1, cms[idx]);
      path, roots := r.value.path, roots + [r.value.root];
    }
    assert cms[..|cms|] == cms;
    MerkleOfPrefixes(sha, cms, roots);
  }

  lemma MerkleOfPrefixes(sha: Sha, cms: seq<string>, roots: seq<Digest>)
    requires |roots| == |cms| && forall i | 0 <= i < |cms| :: roots[i] == Root(sha, cms[..i + 1])
    ensures forall i | 0 <= i < |cms| :: Merkle(sha, Leaves(cms[..i + 1])) == Ok(Some(roots[i]))
  {
    forall i | 0 <= i < |cms| ensures Merkle(sha, Leaves(cms[..i + 1])) == Ok(Some(roots[i])) {
      MerkleIsRoot(sha, cms[..i + 1]);
    }
  }

  lemma UpdatePrefix(sha: Sha, cms: seq<string>, n: nat)
    requires n < |cms|
    ensures var r := Update(sha, Path(sha, cms[..n]), n + 1, cms[n]);
            && r.Ok? && r.value.root == Root(sha, cms[..n + 1]) && r.value.path == Path(sha, cms[..n + 1])
            && r.value.path != [] && r.value.path[|r.value.path| - 1] == r.value.root
  {
    assert cms[..n] + [cms[n]] == cms[..n + 1];
    UpdateAppends(sha, cms[..n], cms[n]);
    PathEndsInRoot(sha, cms[..n + 1]);
  }

  lemma PathEndsInRoot(sha: Sha, xs: seq<string>)
    requires xs != []
    ensures Path(sha, xs) != [] && Path(sha, xs)[|Path(sha, xs)| - 1] == Root(sha, xs)
  {
    if IsPow2(|xs|) {
      var k := CeilLog2(|xs|);
      PeaksOfPow2(sha, xs, k, 0);
    }
  }

  lemma {:induction false} PeaksOfPow2(sha: Sha, xs: seq<string>, k: nat, j: nat)
    requires j <= k && |xs| == Pow2(k)
    ensures Span(Pow2(k - j), j) == |xs| && Peaks(sha, xs, Pow2(k - j), j) == [Tree(sha, k, xs)]
    decreases k - j
  {
    if j == k {
      SpanOne(k);
      PeakOfPerfect(sha, xs, k);
    } else {
      PeaksOfPow2(sha, xs, k, j + 1);
      PeaksOfDouble(sha, xs, Pow2(k - j - 1), j);
    }
  }

  lemma PeaksOfDouble(sha: Sha, xs: seq<string>, m: nat, k: nat)
    requires m >= 1 && Span(m, k + 1) <= |xs|
    ensures Span(2 * m, k) == Span(m, k + 1)
    ensures Peaks(sha, xs, 2 * m, k) == Peaks(sha, xs, m, k + 1)
  {
    SpanAdd(m, m, k);
    PeaksUp(sha, xs, 2 * m, k);
  }
}
