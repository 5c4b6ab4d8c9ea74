/** The Merkle tree of cross-chain transactions: the recursive root of
    chain_simulator/blcsr/efficient_merkle_tree.py and the incremental update that
    appends one leaf from an O(log n) generation path. */

/** Powers of two and the exact base-two logarithm used by the tree. */
module Pow2s {
  function Pow2(k: nat): (p: nat)
    ensures p >= 1
  {
    if k == 0 then 1 else 2 * Pow2(k - 1)
  }

  /** The least k with n <= 2^k. */
  function CeilLog2(n: nat): (k: nat)
    requires n >= 1
    ensures n <= Pow2(k)
    ensures k > 0 ==> Pow2(k - 1) < n
  {
    if n == 1 then 0 else
      var h := CeilLog2((n + 1) / 2);
      assert h > 0 ==> Pow2(h - 1) < (n + 1) / 2;
      h + 1
  }

  lemma {:induction false} Pow2Monotone(a: nat, b: nat)
    requires a <= b
    ensures Pow2(a) <= Pow2(b)
    decreases b
  {
    if a < b {
      Pow2Monotone(a, b - 1);
    }
  }

  /** The least power of two that is at least n: the `ceillog` of the source. */
  function CeilPow2(n: nat): (l: nat)
    requires n >= 1
    ensures n <= l < 2 * n
    ensures n > 1 ==> l % 2 == 0
  {
    if n == 1 then 1 else 2 * CeilPow2((n + 1) / 2)
  }

  lemma {:induction false} CeilPow2IsLeast(n: nat, k: nat)
    requires n >= 1 && n <= Pow2(k) && (k > 0 ==> Pow2(k - 1) < n)
    ensures CeilPow2(n) == Pow2(k)
    decreases k
  {
    if k > 0 {
      CeilPow2IsLeast((n + 1) / 2, k - 1);
    }
  }

  lemma CeilLog2Unique(n: nat, k: nat)
    requires n >= 1 && n <= Pow2(k) && (k > 0 ==> Pow2(k - 1) < n)
    ensures k == CeilLog2(n)
  {
    var c := CeilLog2(n);
    if k < c {
      Pow2Monotone(k, c - 1);
    } else if c < k {
      Pow2Monotone(c, k - 1);
    }
  }
}

module MerkleTree {
  import opened Pow2s
  import opened Wrappers

  /** What a call of the Python functions can do: return, or raise. */
  datatype Result<+T> = Ok(value: T) | IndexError | UnboundLocalError | TypeError

  /** The 64 hexadecimal characters of a SHA-256 digest. */
  type Digest = d: string | |d| == 64 witness seq(64, _ => '0')

  type Sha = string -> Digest

  function Pair(sha: Sha, left: string, right: string): Digest {
    sha(left + right)
  }

  // ----- merkletree -----

  function Nones(n: nat): (r: seq<Option<string>>)
    ensures |r| == n && forall i | 0 <= i < n :: r[i] == None
  {
    seq(n, _ => None)
  }

  function Pad(cms: seq<Option<string>>, l: nat): (r: seq<Option<string>>)
    requires |cms| <= l
    ensures |r| == l && cms <= r
    ensures forall i | |cms| <= i < l :: r[i] == None
  {
    cms + Nones(l - |cms|)
  }

  /** The last lines of `merkletree`: `right or left`, then the hash of both halves. */
  function Combine(sha: Sha, left: Result<Option<Digest>>, right: Result<Option<Digest>>): Result<Option<Digest>> {
    if !left.Ok? then left
    else if !right.Ok? then right
    else
      var r := if right.value.None? then left.value else right.value;
      if r.None? then Ok(None)
      else if left.value.None? then TypeError
      else Ok(Some(Pair(sha, left.value.value, r.value)))
  }

  /** The recursive root. A leaf or a half without a value is None; a missing right
      half repeats the left one. */
  function Merkle(sha: Sha, cms: seq<Option<string>>): Result<Option<Digest>>
    decreases |cms|
  {
    if |cms| == 0 then Ok(None)
    else
      var l := CeilPow2(|cms|);
      if l == 1 then
        Ok(if cms[0].None? then None else Some(sha(cms[0].value)))
      else
        var padded, mid := Pad(cms, l), l / 2;
        Combine(sha, Merkle(sha, padded[..mid]), Merkle(sha, padded[mid..]))
  }

  /** The root, at level k, of the non-empty list xs of at most 2^k leaves: a missing right
      half repeats the left one. */
  function Tree(sha: Sha, k: nat, xs: seq<string>): Digest
    requires 1 <= |xs| <= Pow2(k)
  {
    if k == 0 then sha(xs[0])
    else
      var w := Pow2(k - 1);
      if |xs| <= w then
        var left := Tree(sha, k - 1, xs);
        Pair(sha, left, left)
      else
        Pair(sha, Tree(sha, k - 1, xs[..w]), Tree(sha, k - 1, xs[w..]))
  }

  /** The root of a non-empty list of leaves. */
  function Root(sha: Sha, xs: seq<string>): Digest
    requires |xs| >= 1
  {
    Tree(sha, CeilLog2(|xs|), xs)
  }

  function Leaves(xs: seq<string>): (r: seq<Option<string>>)
    ensures |r| == |xs|
  {
    seq(|xs|, i requires 0 <= i < |xs| => Some(xs[i]))
  }

  predicate Returns(sha: Sha, cms: seq<Option<string>>, r: Option<Digest>) {
    Merkle(sha, cms) == Ok(r)
  }

  /** One level of the recursion, for a list whose padding is a + b, 2^k long. */
  lemma MerkleUnfold(sha: Sha, k: nat, cms: seq<Option<string>>, a: seq<Option<string>>, b: seq<Option<string>>,
                     x: Option<Digest>, y: Option<Digest>)
    requires k > 0 && Pow2(k - 1) < |cms| <= Pow2(k)
    requires |a| == |b| == Pow2(k - 1) && a + b == Pad(cms, Pow2(k))
    requires Returns(sha, a, x) && Returns(sha, b, y) && (x.None? ==> y.None?)
    ensures x.None? ==> Returns(sha, cms, None)
    ensures x.Some? ==> Returns(sha, cms, Some(Pair(sha, x.value, if y.None? then x.value else y.value)))
  {
    CeilPow2IsLeast(|cms|, k);
    var p, w := Pad(cms, Pow2(k)), Pow2(k - 1);
    assert p[..w] == a && p[w..] == b;
    assert Merkle(sha, cms) == Combine(sha, Merkle(sha, a), Merkle(sha, b));
  }

  lemma {:induction false} MerkleOfPadding(sha: Sha, k: nat)
    ensures Returns(sha, Nones(Pow2(k)), None)
  {
    if k > 0 {
      var cms, half := Nones(Pow2(k)), Nones(Pow2(k - 1));
      MerkleOfPadding(sha, k - 1);
      assert half + half == Pad(cms, Pow2(k));
      MerkleUnfold(sha, k, cms, half, half, None, None);
    }
  }

  /** Padding in one go is padding both halves. */
  lemma PadHalves(xs: seq<string>, n: nat, w: nat)
    requires |xs| <= n <= 2 * w
    ensures |xs| <= w ==> Pad(Leaves(xs), w) + Nones(w) == Pad(Pad(Leaves(xs), n), 2 * w)
    ensures w < |xs| ==>
      Pad(Leaves(xs[..w]), w) + Pad(Leaves(xs[w..]), w) == Pad(Pad(Leaves(xs), n), 2 * w)
  {
  }

  /** One level up when the right half is padding only. */
  lemma MerkleLeftHalf(sha: Sha, k: nat, xs: seq<string>, n: nat)
    requires k > 0 && 1 <= |xs| <= Pow2(k - 1) < n <= Pow2(k)
    requires Returns(sha, Pad(Leaves(xs), Pow2(k - 1)), Some(Tree(sha, k - 1, xs)))
    requires Returns(sha, Nones(Pow2(k - 1)), None)
    ensures Returns(sha, Pad(Leaves(xs), n), Some(Tree(sha, k, xs)))
  {
    var w := Pow2(k - 1);
    PadHalves(xs, n, w);
    MerkleUnfold(sha, k, Pad(Leaves(xs), n), Pad(Leaves(xs), w), Nones(w), Some(Tree(sha, k - 1, xs)), None);
  }

  /** One level up when both halves have leaves. */
  lemma MerkleBothHalves(sha: Sha, k: nat, xs: seq<string>, n: nat)
    requires k > 0 && Pow2(k - 1) < |xs| <= n <= Pow2(k)
    requires var w := Pow2(k - 1);
      && Returns(sha, Pad(Leaves(xs[..w]), w), Some(Tree(sha, k - 1, xs[..w])))
      && Returns(sha, Pad(Leaves(xs[w..]), w), Some(Tree(sha, k - 1, xs[w..])))
    ensures Returns(sha, Pad(Leaves(xs), n), Some(Tree(sha, k, xs)))
  {
    var w := Pow2(k - 1);
    PadHalves(xs, n, w);
    MerkleUnfold(sha, k, Pad(Leaves(xs), n), Pad(Leaves(xs[..w]), w), Pad(Leaves(xs[w..]), w),
                 Some(Tree(sha, k - 1, xs[..w])), Some(Tree(sha, k - 1, xs[w..])));
  }

  lemma MerkleLeaf(sha: Sha, xs: seq<string>)
    requires |xs| == 1
    ensures Returns(sha, Pad(Leaves(xs), 1), Some(Tree(sha, 0, xs)))
  {
  }

  /** On a list padded to any length of level k the recursion computes the level-k root. */
  lemma {:induction false} MerklePadded(sha: Sha, k: nat, xs: seq<string>, n: nat)
    requires 1 <= |xs| <= n <= Pow2(k) && (k > 0 ==> Pow2(k - 1) < n)
    ensures Returns(sha, Pad(Leaves(xs), n), Some(Tree(sha, k, xs)))
    decreases k
  {
    hide Returns, Tree, Merkle;
    if k > 0 {
      var w := Pow2(k - 1);
      if |xs| <= w {
        MerklePadded(sha, k - 1, xs, w);
        MerkleOfPadding(sha, k - 1);
        MerkleLeftHalf(sha, k, xs, n);
      } else {
        MerklePadded(sha, k - 1, xs[..w], w);
        MerklePadded(sha, k - 1, xs[w..], w);
        MerkleBothHalves(sha, k, xs, n);
      }
    } else {
      MerkleLeaf(sha, xs);
    }
  }

  /** merkletree never raises on a non-empty list of strings, and returns its root. */
  lemma MerkleIsRoot(sha: Sha, xs: seq<string>)
    requires |xs| >= 1
    ensures Merkle(sha, Leaves(xs)) == Ok(Some(Root(sha, xs)))
  {
    MerklePadded(sha, CeilLog2(|xs|), xs, |xs|);
    assert Pad(Leaves(xs), |xs|) == Leaves(xs);
    assert Returns(sha, Leaves(xs), Some(Root(sha, xs)));
  }

  // ----- update -----

  datatype Appended = Appended(root: Digest, path: seq<string>, hashes: nat)

  /** The climb from level to level of `update`, from any point of its loop. */
  function Climb(sha: Sha, path: seq<string>, pathpoint: nat, flag: int, node: Digest,
                 index: nat, next: seq<string>, hashes: nat): Result<Appended>
    requires index >= 1
    decreases index
  {
    if index == 1 then Ok(Appended(node, next + [node], hashes))
    else if index % 2 == 1 then
      var next' := if flag <= 0 then next + [node] else next;
      Climb(sha, path, pathpoint, 1, Pair(sha, node, node), (index + 1) / 2, next', hashes + 1)
    else if pathpoint >= |path| then IndexError
    else
      var left := path[pathpoint];
      var next' := if flag == 1 then next + [left] else next;
      var flag' := if flag == -1 then 0 else flag;
      Climb(sha, path, pathpoint + 1, flag', Pair(sha, left, node), (index + 1) / 2, next', hashes + 1)
  }

  /** What `update` returns or raises. */
  function Update(sha: Sha, path: seq<string>, index: int, cm: string): Result<Appended> {
    if index < 1 then UnboundLocalError else Climb(sha, path, 0, -1, sha(cm), index, [], 1)
  }

  /** The loop of `update`; `hashes` counts the calls of sha. */
  method UpdateLoop(sha: Sha, path: seq<string>, index: int, cm: string) returns (r: Result<Appended>)
    ensures r == Update(sha, path, index, cm)
  {
    var tempnode: Digest := sha(cm);
    var hashes := 1;
    var nextpaths: seq<string> := [];
    var flag, pathpoint, idx := -1, 0, index;
    while idx >= 1
      invariant 0 <= pathpoint && (index >= 1 ==> idx >= 1) && (index < 1 ==> idx == index)
      invariant index >= 1 ==>
        Climb(sha, path, 0, -1, sha(cm), index, [], 1)
        == Climb(sha, path, pathpoint, flag, tempnode, idx, nextpaths, hashes)
      decreases idx
    {
      if idx == 1 {
        nextpaths := nextpaths + [tempnode];
        return Ok(Appended(tempnode, nextpaths, hashes));
      }
      if idx % 2 == 1 {
        if flag == -1 || flag == 0 {
          nextpaths := nextpaths + [tempnode];
        }
        tempnode := Pair(sha, tempnode, tempnode);
        hashes := hashes + 1;
        flag := 1;
        idx := (idx + 1) / 2;
      } else {
        if pathpoint >= |path| {
          return IndexError;
        }
        var node := path[pathpoint];
        pathpoint := pathpoint + 1;
        if flag == 1 {
          nextpaths := nextpaths + [node];
        }
        if flag == -1 {
          flag := 0;
        }
        tempnode := Pair(sha, node, tempnode);
        hashes := hashes + 1;
        idx := (idx + 1) / 2;
      }
    }
    return UnboundLocalError;
  }
}
