/** How much of the generation path `update` uses, and how long it gets. */
module MerklePath {
  import opened Pow2s
  import opened MerkleTree
  import opened MerklePeaks

  /** The number of 1 bits of n: the peaks of n leaves. */
  function Ones(n: nat): nat {
    if n == 0 then 0 else n % 2 + Ones(n / 2)
  }

  lemma OnesStep(index: nat)
    requires index > 1
    ensures Ones(index - 1) == (if index % 2 == 1 then 0 else 1) + Ones((index + 1) / 2 - 1)
  {
    OddEven(index);
    var n, h := index - 1, (index + 1) / 2 - 1;
    assert Ones(n) == n % 2 + Ones(n / 2);
    assert n / 2 == h;
  }

  lemma {:induction false} ClimbReads(sha: Sha, path: seq<string>, pathpoint: nat, flag: int, node: Digest,
                                      index: nat, next: seq<string>, hashes: nat)
    requires index >= 1
    ensures var r := Climb(sha, path, pathpoint, flag, node, index, next, hashes);
            && (r.Ok? <==> pathpoint + Ones(index - 1) <= |path| || index == 1)
            && (!r.Ok? ==> r == IndexError)
    decreases index
  {
    if index > 1 {
      OnesStep(index);
      if index % 2 == 1 {
        ClimbReads(sha, path, pathpoint, 1, Pair(sha, node, node), (index + 1) / 2,
                   if flag <= 0 then next + [node] else next, hashes + 1);
      } else if pathpoint < |path| {
        ClimbReads(sha, path, pathpoint + 1, if flag == -1 then 0 else flag,
                   Pair(sha, path[pathpoint], node), (index + 1) / 2,
                   if flag == 1 then next + [path[pathpoint]] else next, hashes + 1);
      }
    }
  }

  /** Exactly when `update` returns, for any path: one old node for every 1 bit of index - 1. */
  lemma UpdateReturns(sha: Sha, path: seq<string>, index: int, cm: string)
    ensures Update(sha, path, index, cm).Ok? <==> index >= 1 && Ones(index - 1) <= |path|
    ensures index >= 1 && Ones(index - 1) > |path| ==> Update(sha, path, index, cm) == IndexError
  {
    if index >= 1 {
      ClimbReads(sha, path, 0, -1, sha(cm), index, [], 1);
    }
  }

  function FloorLog2(n: nat): (k: nat)
    requires n >= 1
    ensures Pow2(k) <= n < Pow2(k + 1)
  {
    if n == 1 then 0 else FloorLog2(n / 2) + 1
  }

  lemma {:induction false} PeaksLength(sha: Sha, xs: seq<string>, m: nat, k: nat)
    requires m >= 1 && Span(m, k) <= |xs|
    ensures |Peaks(sha, xs, m, k)| <= FloorLog2(m) + 1
    decreases m
  {
    PeaksUp(sha, xs, m, k);
    if m > 1 {
      PeaksLength(sha, xs, m / 2, k + 1);
    }
  }

  /** The storage bound of `update`. */
  lemma PathLength(sha: Sha, xs: seq<string>)
    requires xs != []
    ensures |Path(sha, xs)| <= FloorLog2(|xs|) + 2
  {
    assert Span(|xs|, 0) == |xs|;
    PeaksLength(sha, xs, |xs|, 0);
  }
}
