/** What a root binds: equal roots of different lists of one length exhibit a collision of the
    hash. */
module MerkleBinding {
  import opened Pow2s
  import opened MerkleTree

  /** The full binary tree that level k hashes. */
  datatype Full = Leaf(cm: string) | Branch(left: Full, right: Full)

  function Hash(sha: Sha, t: Full): Digest {
    match t
    case Leaf(cm) => sha(cm)
    case Branch(l, r) => Pair(sha, Hash(sha, l), Hash(sha, r))
  }

  function Build(k: nat, xs: seq<string>): Full
    requires 1 <= |xs| <= Pow2(k)
  {
    if k == 0 then Leaf(xs[0])
    else
      var w := Pow2(k - 1);
      if |xs| <= w then
        var left := Build(k - 1, xs);
        Branch(left, left)
      else
        Branch(Build(k - 1, xs[..w]), Build(k - 1, xs[w..]))
  }

  ghost predicate HasDepth(k: nat, t: Full) {
    match t
    case Leaf(_) => k == 0
    case Branch(l, r) => k > 0 && HasDepth(k - 1, l) && HasDepth(k - 1, r)
  }

  function Flatten(t: Full): (r: seq<string>) {
    match t
    case Leaf(cm) => [cm]
    case Branch(l, r) => Flatten(l) + Flatten(r)
  }

  lemma {:induction false} FullLength(k: nat, t: Full)
    requires HasDepth(k, t)
    ensures |Flatten(t)| == Pow2(k)
    decreases k
  {
    if k > 0 {
      FullLength(k - 1, t.left);
      FullLength(k - 1, t.right);
    }
  }

  lemma {:induction false} BuildHashes(sha: Sha, k: nat, xs: seq<string>)
    requires 1 <= |xs| <= Pow2(k)
    ensures HasDepth(k, Build(k, xs)) && Hash(sha, Build(k, xs)) == Tree(sha, k, xs)
    decreases k
  {
    if k > 0 {
      var w := Pow2(k - 1);
      if |xs| <= w {
        BuildHashes(sha, k - 1, xs);
      } else {
        BuildHashes(sha, k - 1, xs[..w]);
        BuildHashes(sha, k - 1, xs[w..]);
      }
    }
  }

  /** The leaves of the tree start with the list it was built from. */
  lemma {:induction false} BuildKeeps(k: nat, xs: seq<string>)
    requires 1 <= |xs| <= Pow2(k)
    ensures HasDepth(k, Build(k, xs)) && xs <= Flatten(Build(k, xs))
    decreases k
  {
    if k > 0 {
      var w := Pow2(k - 1);
      if |xs| <= w {
        BuildKeeps(k - 1, xs);
      } else {
        BuildKeeps(k - 1, xs[..w]);
        BuildKeeps(k - 1, xs[w..]);
        FullLength(k - 1, Build(k - 1, xs[..w]));
        assert Flatten(Build(k - 1, xs[..w])) == xs[..w];
      }
    }
  }

  /** Different trees of one depth with one hash exhibit a collision of sha. */
  lemma {:induction false} Collision(sha: Sha, k: nat, t: Full, u: Full) returns (x: string, y: string)
    requires HasDepth(k, t) && HasDepth(k, u)
    requires Hash(sha, t) == Hash(sha, u) && t != u
    ensures x != y && sha(x) == sha(y)
    decreases k
  {
    if k == 0 {
      return t.cm, u.cm;
    }
    var tl: string, tr: string := Hash(sha, t.left), Hash(sha, t.right);
    var ul: string, ur: string := Hash(sha, u.left), Hash(sha, u.right);
    if tl + tr != ul + ur {
      return tl + tr, ul + ur;
    }
    assert tl == (tl + tr)[..64] == (ul + ur)[..64] == ul;
    assert tr == (tl + tr)[64..] == (ul + ur)[64..] == ur;
    if t.left != u.left {
      x, y := Collision(sha, k - 1, t.left, u.left);
    } else {
      x, y := Collision(sha, k - 1, t.right, u.right);
    }
  }

  /** Two lists of one level have the same root exactly when they pad to the same tree,
      unless sha collides; the witnesses are the two preimages. */
  lemma RootBindsPaddedTree(sha: Sha, k: nat, xs: seq<string>, ys: seq<string>) returns (x: string, y: string)
    requires 1 <= |xs| <= Pow2(k) && 1 <= |ys| <= Pow2(k)
    ensures Build(k, xs) == Build(k, ys) ==> Tree(sha, k, xs) == Tree(sha, k, ys)
    ensures Tree(sha, k, xs) == Tree(sha, k, ys) ==> Build(k, xs) == Build(k, ys) || (x != y && sha(x) == sha(y))
  {
    x, y := "", "";
    BuildHashes(sha, k, xs);
    BuildHashes(sha, k, ys);
    if Tree(sha, k, xs) == Tree(sha, k, ys) && Build(k, xs) != Build(k, ys) {
      x, y := Collision(sha, k, Build(k, xs), Build(k, ys));
    }
  }

  /** Binding for lists of one length: different lists with equal roots exhibit a collision. */
  lemma EqualLengthsBind(sha: Sha, xs: seq<string>, ys: seq<string>) returns (x: string, y: string)
    requires |xs| == |ys| >= 1 && xs != ys
    requires Merkle(sha, Leaves(xs)) == Merkle(sha, Leaves(ys))
    ensures x != y && sha(x) == sha(y)
  {
    MerkleIsRoot(sha, xs);
    MerkleIsRoot(sha, ys);
    var k := CeilLog2(|xs|);
    BuildKeeps(k, xs);
    BuildKeeps(k, ys);
    x, y := RootBindsPaddedTree(sha, k, xs, ys);
  }

  /** Binding needs the length: repeating the last of three leaves keeps the root. */
  lemma LengthIsNotBound(sha: Sha, a: string, b: string, c: string)
    ensures Merkle(sha, Leaves([a, b, c])) == Merkle(sha, Leaves([a, b, c, c]))
  {
    var xs, ys := [a, b, c], [a, b, c, c];
    MerkleIsRoot(sha, xs);
    MerkleIsRoot(sha, ys);
    assert Pow2(2) == 4 && Pow2(1) == 2;
    CeilLog2Unique(3, 2);
    CeilLog2Unique(4, 2);
    RepeatedLeaf(sha, c);
    assert xs[..2] == ys[..2] == [a, b] && xs[2..] == [c] && ys[2..] == [c, c];
    assert Tree(sha, 2, xs) == Pair(sha, Tree(sha, 1, xs[..2]), Tree(sha, 1, xs[2..]));
    assert Tree(sha, 2, ys) == Pair(sha, Tree(sha, 1, ys[..2]), Tree(sha, 1, ys[2..]));
  }

  lemma RepeatedLeaf(sha: Sha, c: string)
    ensures Pow2(1) == 2 && Tree(sha, 1, [c]) == Tree(sha, 1, [c, c])
  {
    assert Pow2(1) == 2 && Pow2(0) == 1;
    assert [c, c][1..] == [c] == [c, c][..1];
  }

  // ----- lists of different levels -----

  /** A leaf that reads like an inner node: two digests, one after the other. */
  predicate IsPair(cm: string) {
    |cm| == 128
  }

  /** Which two strings collide, or which leaf is a pair of digests. */
  datatype Evidence = Collides(x: string, y: string) | PairLeaf(cm: string)

  ghost predicate Convicts(sha: Sha, leaves: seq<string>, e: Evidence) {
    match e
    case Collides(x, y) => x != y && sha(x) == sha(y)
    case PairLeaf(cm) => cm in leaves && exists a: Digest, b: Digest :: cm == a + b
  }

  lemma PairOfDigests(cm: string, a: Digest, b: Digest)
    requires cm == a + b
    ensures IsPair(cm) && exists c: Digest, d: Digest :: cm == c + d
  {
  }

  /** Trees of different depths with one hash exhibit a collision, or a leaf of the lower tree
      that is what an inner node of the higher one hashes. */
  lemma {:induction false} Descend(sha: Sha, j: nat, k: nat, t: Full, u: Full) returns (e: Evidence)
    requires j < k && HasDepth(j, t) && HasDepth(k, u) && Hash(sha, t) == Hash(sha, u)
    ensures Convicts(sha, Flatten(t), e)
    decreases j
  {
    var ul: string, ur: string := Hash(sha, u.left), Hash(sha, u.right);
    if j == 0 {
      if t.cm != ul + ur {
        return Collides(t.cm, ul + ur);
      }
      PairOfDigests(t.cm, Hash(sha, u.left), Hash(sha, u.right));
      return PairLeaf(t.cm);
    }
    var tl: string, tr: string := Hash(sha, t.left), Hash(sha, t.right);
    if tl + tr != ul + ur {
      return Collides(tl + tr, ul + ur);
    }
    assert tl == (tl + tr)[..64] == (ul + ur)[..64] == ul;
    e := Descend(sha, j - 1, k - 1, t.left, u.left);
  }

  /** The leaves of the built tree are leaves of the list. */
  lemma {:induction false} BuildUses(k: nat, xs: seq<string>)
    requires 1 <= |xs| <= Pow2(k)
    ensures forall cm | cm in Flatten(Build(k, xs)) :: cm in xs
    decreases k
  {
    if k > 0 {
      var w := Pow2(k - 1);
      if |xs| <= w {
        BuildUses(k - 1, xs);
      } else {
        BuildUses(k - 1, xs[..w]);
        BuildUses(k - 1, xs[w..]);
      }
    }
  }

  /** Two non-empty lists of any lengths pad to the same tree. */
  predicate SamePadding(xs: seq<string>, ys: seq<string>)
    requires |xs| >= 1 && |ys| >= 1
  {
    CeilLog2(|xs|) == CeilLog2(|ys|) && Build(CeilLog2(|xs|), xs) == Build(CeilLog2(|ys|), ys)
  }

  /** Lists of different levels with one root convict the hash or a leaf of the shorter list. */
  lemma LevelsBind(sha: Sha, xs: seq<string>, ys: seq<string>) returns (e: Evidence)
    requires |xs| >= 1 && |ys| >= 1 && CeilLog2(|xs|) < CeilLog2(|ys|) && Root(sha, xs) == Root(sha, ys)
    ensures Convicts(sha, xs, e)
  {
    var j, k := CeilLog2(|xs|), CeilLog2(|ys|);
    BuildHashes(sha, j, xs);
    BuildHashes(sha, k, ys);
    e := Descend(sha, j, k, Build(j, xs), Build(k, ys));
    BuildUses(j, xs);
  }

  /** What a root binds, for any two lists: lists with the same padding have the same root, and
      lists with one root have the same padding, or the hash collides, or a leaf of one is a pair
      of digests. */
  lemma RootBinds(sha: Sha, xs: seq<string>, ys: seq<string>) returns (e: Evidence)
    requires |xs| >= 1 && |ys| >= 1
    ensures SamePadding(xs, ys) ==> Merkle(sha, Leaves(xs)) == Merkle(sha, Leaves(ys))
    ensures Merkle(sha, Leaves(xs)) == Merkle(sha, Leaves(ys)) ==> SamePadding(xs, ys) || Convicts(sha, xs + ys, e)
    ensures e.PairLeaf? && Convicts(sha, xs + ys, e) ==> IsPair(e.cm)
  {
    MerkleIsRoot(sha, xs);
    MerkleIsRoot(sha, ys);
    e := Collides("", "");
    var j, k := CeilLog2(|xs|), CeilLog2(|ys|);
    if j == k {
      var x, y := RootBindsPaddedTree(sha, k, xs, ys);
      e := Collides(x, y);
    } else if Root(sha, xs) == Root(sha, ys) {
      if j < k {
        e := LevelsBind(sha, xs, ys);
      } else {
        e := LevelsBind(sha, ys, xs);
      }
    }
  }

  /** So without leaves of 128 characters, a shared root means the same padding, unless the hash
      collides. */
  lemma PlainLeavesBind(sha: Sha, xs: seq<string>, ys: seq<string>) returns (x: string, y: string)
    requires |xs| >= 1 && |ys| >= 1 && forall cm | cm in xs + ys :: !IsPair(cm)
    ensures SamePadding(xs, ys) ==> Merkle(sha, Leaves(xs)) == Merkle(sha, Leaves(ys))
    ensures Merkle(sha, Leaves(xs)) == Merkle(sha, Leaves(ys)) ==> SamePadding(xs, ys) || (x != y && sha(x) == sha(y))
  {
    x, y := "", "";
    var e := RootBinds(sha, xs, ys);
    if e.Collides? {
      x, y := e.x, e.y;
    }
  }

  /** And with them it need not: one leaf that is the pair of the digests of two leaves has the
      root of the two. */
  lemma PairLeafSharesRoot(sha: Sha, b: string, c: string)
    ensures Merkle(sha, Leaves([sha(b) + sha(c)])) == Merkle(sha, Leaves([b, c]))
    ensures !SamePadding([sha(b) + sha(c)], [b, c])
  {
    var xs, ys := [sha(b) + sha(c)], [b, c];
    MerkleIsRoot(sha, xs);
    MerkleIsRoot(sha, ys);
    assert Pow2(1) == 2 && Pow2(0) == 1;
    CeilLog2Unique(1, 0);
    CeilLog2Unique(2, 1);
    assert ys[..1] == [b] && ys[1..] == [c];
    assert Tree(sha, 0, xs) == sha(sha(b) + sha(c));
    assert Tree(sha, 1, ys) == Pair(sha, Tree(sha, 0, ys[..1]), Tree(sha, 0, ys[1..]));
  }

  // ----- which lists pad to the same tree -----

  lemma {:induction false} BuildOfLeaves(k: nat, t: Full)
    requires HasDepth(k, t)
    ensures |Flatten(t)| == Pow2(k) && Build(k, Flatten(t)) == t
    decreases k
  {
    FullLength(k, t);
    if k > 0 {
      BuildOfLeaves(k - 1, t.left);
      BuildOfLeaves(k - 1, t.right);
      var all, w := Flatten(t), Pow2(k - 1);
      assert all[..w] == Flatten(t.left) && all[w..] == Flatten(t.right);
    }
  }

  /** The list that the recursion hashes instead of xs: its leaves up to a power of two, with
      right halves repeated where they are missing. */
  function Padded(xs: seq<string>): seq<string>
    requires |xs| >= 1
  {
    Flatten(Build(CeilLog2(|xs|), xs))
  }

  /** Two lists pad to the same tree exactly when they pad to the same list. */
  lemma SamePaddingIs(xs: seq<string>, ys: seq<string>)
    requires |xs| >= 1 && |ys| >= 1
    ensures SamePadding(xs, ys) <==> CeilLog2(|xs|) == CeilLog2(|ys|) && Padded(xs) == Padded(ys)
  {
    BuildDepth(CeilLog2(|xs|), xs);
    BuildDepth(CeilLog2(|ys|), ys);
    BuildOfLeaves(CeilLog2(|xs|), Build(CeilLog2(|xs|), xs));
    BuildOfLeaves(CeilLog2(|ys|), Build(CeilLog2(|ys|), ys));
  }

  lemma BuildDepth(k: nat, xs: seq<string>)
    requires 1 <= |xs| <= Pow2(k)
    ensures HasDepth(k, Build(k, xs))
  {
    BuildKeeps(k, xs);
  }

  /** Every list shares its root with its padding; they differ exactly when its length is no power
      of two. */
  lemma PaddedSharesRoot(sha: Sha, xs: seq<string>)
    requires |xs| >= 1
    ensures |Padded(xs)| >= 1 && Merkle(sha, Leaves(xs)) == Merkle(sha, Leaves(Padded(xs)))
    ensures xs == Padded(xs) <==> |xs| == Pow2(CeilLog2(|xs|))
  {
    var k := CeilLog2(|xs|);
    BuildKeeps(k, xs);
    BuildOfLeaves(k, Build(k, xs));
    FullLevel(k, |xs|);
    var e := RootBinds(sha, xs, Padded(xs));
  }

  lemma FullLevel(k: nat, n: nat)
    requires n >= 1 && k == CeilLog2(n)
    ensures CeilLog2(Pow2(k)) == k
  {
    if k > 0 {
      assert Pow2(k - 1) < Pow2(k);
    }
    CeilLog2Unique(Pow2(k), k);
  }
}
