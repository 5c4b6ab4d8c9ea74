/** The probability that more than a third of n relay nodes are malicious, each with
    probability 1/5, in exact arithmetic. */
module Binomial {
  /** The probability that one node is malicious, and that it is not. */
  const MALICIOUS: real := 0.2
  const HONEST: real := 0.8

  function Pow(a: real, k: nat): real {
    if k == 0 then 1.0 else a * Pow(a, k - 1)
  }

  /** Binomial coefficients. */
  function Comb(n: nat, k: nat): nat {
    if k == 0 then 1 else if n == 0 then 0 else Comb(n - 1, k - 1) + Comb(n - 1, k)
  }

  /** The product in the loop body: c ways for x malicious and y honest nodes. */
  function Chance(c: real, x: nat, y: nat): real {
    c * Pow(MALICIOUS, x) * Pow(HONEST, y)
  }

  /** The probability of exactly x malicious nodes among n. */
  function Exactly(n: nat, x: nat): real
    requires x <= n
  {
    Chance(Comb(n, x) as real, x, n - x)
  }

  /** The probability of lo to hi - 1 malicious nodes. */
  function Between(n: nat, lo: nat, hi: nat): real
    requires hi <= n + 1
    decreases hi
  {
    if hi <= lo then 0.0 else Between(n, lo, hi - 1) + Exactly(n, hi - 1)
  }

  /** More than a third of n nodes. */
  function Tail(n: nat): real {
    Between(n, n / 3 + 1, n + 1)
  }

  // ----- the loops -----

  method TailProbability(nodesNum: nat) returns (prob: real)
    ensures prob == Tail(nodesNum)
  {
    prob := 0.0;
    for x := nodesNum / 3 + 1 to nodesNum + 1
      invariant prob == Between(nodesNum, nodesNum / 3 + 1, x)
    {
      prob := prob + Exactly(nodesNum, x);
    }
  }

  method TailProbabilities(nums: seq<nat>) returns (probs: seq<real>)
    ensures |probs| == |nums|
    ensures forall i | 0 <= i < |nums| :: probs[i] == Tail(nums[i])
  {
    probs := [];
    for i := 0 to |nums|
      invariant |probs| == i
      invariant forall j | 0 <= j < i :: probs[j] == Tail(nums[j])
    {
      var prob := TailProbability(nums[i]);
      probs := probs + [prob];
    }
  }

  // ----- the terms of a binomial -----

  /** The two sums that matter: with the probability of a malicious node as it is, and doubled. */
  datatype Weight = Plain | Doubled

  function Up(w: Weight, x: real): real {
    if w.Plain? then MALICIOUS * x else 2.0 * MALICIOUS * x
  }

  function Base(w: Weight): real {
    if w.Plain? then MALICIOUS + HONEST else 2.0 * MALICIOUS + HONEST
  }

  /** The k-th term of Base(w)^n, by Pascal's rule; 0 beyond n. */
  function Term(w: Weight, n: nat, k: nat): (r: real)
    ensures r >= 0.0 && (k > n ==> r == 0.0)
  {
    if n == 0 then (if k == 0 then 1.0 else 0.0)
    else HONEST * Term(w, n - 1, k) + if k == 0 then 0.0 else Up(w, Term(w, n - 1, k - 1))
  }

  /** x times a^k, one factor at a time. */
  function Malicious(x: real, k: nat): real {
    if k == 0 then x else MALICIOUS * Malicious(x, k - 1)
  }

  function Honest(x: real, k: nat): real {
    if k == 0 then x else HONEST * Honest(x, k - 1)
  }

  function Doubling(x: real, k: nat): real {
    if k == 0 then x else 2.0 * Doubling(x, k - 1)
  }

  lemma Reassociate(c: real, x: real, p: real)
    ensures c * (x * p) == x * (c * p)
  {
  }

  lemma {:induction false} MaliciousIs(x: real, k: nat)
    ensures Malicious(x, k) == x * Pow(MALICIOUS, k)
  {
    if k > 0 {
      MaliciousIs(x, k - 1);
      Reassociate(MALICIOUS, x, Pow(MALICIOUS, k - 1));
    }
  }

  lemma {:induction false} HonestIs(x: real, k: nat)
    ensures Honest(x, k) == x * Pow(HONEST, k)
  {
    if k > 0 {
      HonestIs(x, k - 1);
      Reassociate(HONEST, x, Pow(HONEST, k - 1));
    }
  }

  lemma {:induction false} DoublingIs(x: real, k: nat)
    ensures Doubling(x, k) == x * Pow(2.0, k)
  {
    if k > 0 {
      DoublingIs(x, k - 1);
      Reassociate(2.0, x, Pow(2.0, k - 1));
    }
  }

  lemma {:induction false} MaliciousAdd(x: real, y: real, k: nat)
    ensures Malicious(x + y, k) == Malicious(x, k) + Malicious(y, k)
  {
    if k > 0 {
      MaliciousAdd(x, y, k - 1);
    }
  }

  lemma {:induction false} HonestAdd(x: real, y: real, k: nat)
    ensures Honest(x + y, k) == Honest(x, k) + Honest(y, k)
    ensures Honest(MALICIOUS * x, k) == MALICIOUS * Honest(x, k)
  {
    if k > 0 {
      HonestAdd(x, y, k - 1);
    }
  }

  lemma {:induction false} DoublingAdd(x: real, y: real, k: nat)
    ensures Doubling(x + y, k) == Doubling(x, k) + Doubling(y, k)
    ensures Doubling(HONEST * x, k) == HONEST * Doubling(x, k)
    ensures Doubling(MALICIOUS * y, k) == MALICIOUS * Doubling(y, k)
  {
    if k > 0 {
      DoublingAdd(x, y, k - 1);
    }
  }

  lemma {:induction false} Zero(k: nat, j: nat)
    ensures Honest(Malicious(0.0, k), j) == 0.0
  {
    if j > 0 {
      Zero(k, j - 1);
    } else if k > 0 {
      Zero(k - 1, 0);
    }
  }

  lemma {:induction false} CombBeyond(n: nat, k: nat)
    requires k > n
    ensures Comb(n, k) == 0
  {
    if n > 0 {
      CombBeyond(n - 1, k);
      CombBeyond(n - 1, k - 1);
    }
  }

  /** Pascal's rule gives the product of the coefficient and the two powers. */
  lemma {:induction false} TermIs(n: nat, k: nat)
    requires k <= n
    ensures Term(Plain, n, k) == Honest(Malicious(Comb(n, k) as real, k), n - k)
    decreases n
  {
    if n > 0 {
      var low, high := Comb(n - 1, k) as real, if k == 0 then 0.0 else Comb(n - 1, k - 1) as real;
      if k < n {
        TermIs(n - 1, k);
      } else {
        CombBeyond(n - 1, k);
        Zero(k, 0);
      }
      assert HONEST * Term(Plain, n - 1, k) == Honest(Malicious(low, k), n - k);
      if k > 0 {
        TermIs(n - 1, k - 1);
        HonestAdd(Malicious(high, k - 1), 0.0, n - k);
        MaliciousAdd(high, low, k);
        HonestAdd(Malicious(high, k), Malicious(low, k), n - k);
        assert Comb(n, k) as real == high + low;
      }
    }
  }

  lemma ExactlyIs(n: nat, k: nat)
    requires k <= n
    ensures Exactly(n, k) == Term(Plain, n, k)
  {
    TermIs(n, k);
    ProductIs(Comb(n, k) as real, k, n - k);
  }

  lemma ProductIs(c: real, k: nat, j: nat)
    ensures Honest(Malicious(c, k), j) == Chance(c, k, j)
  {
    MaliciousIs(c, k);
    HonestIs(Malicious(c, k), j);
  }

  // ----- the binomial theorem -----

  /** The sum of the terms lo <= k < hi. */
  function Terms(w: Weight, n: nat, lo: nat, hi: nat): (r: real)
    ensures r >= 0.0
    decreases hi
  {
    if hi <= lo then 0.0 else Terms(w, n, lo, hi - 1) + Term(w, n, hi - 1)
  }

  lemma {:induction false} TermsUp(w: Weight, n: nat, hi: nat)
    ensures Terms(w, n + 1, 0, hi + 1) == HONEST * Terms(w, n, 0, hi + 1) + Up(w, Terms(w, n, 0, hi))
    decreases hi
  {
    assert Terms(w, n + 1, 0, hi + 1) == Terms(w, n + 1, 0, hi) + Term(w, n + 1, hi);
    assert Terms(w, n, 0, hi + 1) == Terms(w, n, 0, hi) + Term(w, n, hi);
    if hi > 0 {
      TermsUp(w, n, hi - 1);
    }
  }

  lemma {:induction false} BinomialTheorem(w: Weight, n: nat)
    ensures Terms(w, n, 0, n + 1) == Pow(Base(w), n)
  {
    if n == 0 {
      assert Terms(w, 0, 0, 1) == Terms(w, 0, 0, 0) + Term(w, 0, 0);
    } else {
      BinomialTheorem(w, n - 1);
      TermsUp(w, n - 1, n);
      assert Terms(w, n - 1, 0, n + 1) == Terms(w, n - 1, 0, n);
    }
  }

  lemma {:induction false} TermsSplit(w: Weight, n: nat, mid: nat, hi: nat)
    requires mid <= hi
    ensures Terms(w, n, 0, hi) == Terms(w, n, 0, mid) + Terms(w, n, mid, hi)
    decreases hi
  {
    if mid < hi {
      TermsSplit(w, n, mid, hi - 1);
    }
  }

  // ----- what the loops compute -----

  lemma {:induction false} BetweenIs(n: nat, lo: nat, hi: nat)
    requires hi <= n + 1
    ensures Between(n, lo, hi) == Terms(Plain, n, lo, hi)
    decreases hi
  {
    if lo < hi {
      BetweenIs(n, lo, hi - 1);
      ExactlyIs(n, hi - 1);
    }
  }

  lemma {:induction false} PowOne(n: nat)
    ensures Pow(1.0, n) == 1.0
  {
    if n > 0 {
      PowOne(n - 1);
    }
  }

  /** The printed number is a probability: it lies in [0, 1], and together with the probability
      of at most a third malicious nodes it is 1. */
  lemma TailIsProbability(n: nat)
    ensures 0.0 <= Tail(n) <= 1.0
    ensures Between(n, 0, n / 3 + 1) + Tail(n) == 1.0
  {
    var m := n / 3 + 1;
    BetweenIs(n, 0, m);
    BetweenIs(n, m, n + 1);
    TermsSplit(Plain, n, m, n + 1);
    BinomialTheorem(Plain, n);
    PowOne(n);
  }

  // ----- how fast it falls -----

  lemma {:induction false} DoubledIs(n: nat, k: nat)
    ensures Term(Doubled, n, k) == Doubling(Term(Plain, n, k), k)
    decreases n
  {
    if n > 0 {
      DoubledIs(n - 1, k);
      var x, y := Term(Plain, n - 1, k), if k == 0 then 0.0 else Term(Plain, n - 1, k - 1);
      if k > 0 {
        DoubledIs(n - 1, k - 1);
        DoublingAdd(HONEST * x, MALICIOUS * y, k);
        DoublingAdd(x, y, k);
      }
    } else if k > 0 {
      DoublingIs(0.0, k);
    }
  }

  lemma {:induction false} DoublingMonotone(x: real, m: nat, k: nat)
    requires x >= 0.0 && m <= k
    ensures x <= Doubling(x, m) <= Doubling(x, k)
    decreases k
  {
    if m < k {
      DoublingMonotone(x, m, k - 1);
    } else if m > 0 {
      DoublingMonotone(x, m - 1, k - 1);
    }
  }

  /** Doubling the probability weighs the tail from m on at least 2^m. */
  lemma {:induction false} TailDoubled(n: nat, m: nat, hi: nat)
    ensures Doubling(Terms(Plain, n, m, hi), m) <= Terms(Doubled, n, m, hi)
    decreases hi
  {
    if m < hi {
      TailDoubled(n, m, hi - 1);
      DoubledIs(n, hi - 1);
      DoublingMonotone(Term(Plain, n, hi - 1), m, hi - 1);
      DoublingAdd(Terms(Plain, n, m, hi - 1), Term(Plain, n, hi - 1), m);
    } else {
      DoublingIs(0.0, m);
    }
  }

  lemma DivideBy(x: real, p: real, y: real)
    requires p >= 1.0 && x * p <= y
    ensures x <= y / p
  {
    var q := y / p;
    assert q * p == y;
    if x > q {
      assert (x - q) * p > 0.0;
    }
  }

  lemma Undouble(x: real, m: nat, y: real)
    requires Doubling(x, m) <= y
    ensures Pow(2.0, m) >= 1.0 && x <= y / Pow(2.0, m)
  {
    DoublingIs(x, m);
    DoublingIs(1.0, m);
    DoublingMonotone(1.0, 0, m);
    DivideBy(x, Pow(2.0, m), y);
  }

  lemma TailWeighted(n: nat, m: nat)
    requires m <= n + 1
    ensures Doubling(Between(n, m, n + 1), m) <= Pow(1.2, n)
  {
    BetweenIs(n, m, n + 1);
    TailDoubled(n, m, n + 1);
    TermsSplit(Doubled, n, m, n + 1);
    BinomialTheorem(Doubled, n);
  }

  /** The probability falls exponentially with the number of nodes. */
  lemma TailBound(n: nat)
    ensures Pow(2.0, n / 3 + 1) >= 1.0
    ensures Tail(n) <= Pow(1.2, n) / Pow(2.0, n / 3 + 1)
  {
    TailWeighted(n, n / 3 + 1);
    Undouble(Tail(n), n / 3 + 1, Pow(1.2, n));
  }
}
