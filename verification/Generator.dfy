/** The built-in generator of cross-chain transactions. */
module Generator {
  import opened Wrappers
  import opened Types
  import opened FlatStore
  import opened System

  /** The sender names the chain, the block and the index. */
  function SenderName(srcid: Pid, blockNum: nat, idx: nat): string {
    "send/" + Dec(srcid) + "/" + Digits(blockNum) + "-" + Digits(idx)
  }

  function Build(srcid: Pid, blockNum: nat, idx: nat, dst: Pid, class_: ChainClass, init: Time): Tx {
    Tx(Item(User(SenderName(srcid, blockNum, idx)), AppInit(dst, class_), true, CtxSrc, -1, dst), NO_TRACE.(init := Some(init)), 0, Proposing, NoOut)
  }

  /** One transaction after the other; `picks` are the random choices of destinations, `times`
      the readings of the clock. Each calls `app_init` for its destination and the class of that, and
      its memo names the same destination and the time of its creation. */
  method GenerateXtx(srcid: Pid, blockNum: nat, num: nat, picks: seq<Pid>, classes: map<Pid, ChainClass>, times: seq<Time>) returns (txs: seq<Tx>)
    requires |picks| == |times| == num && forall i | 0 <= i < num :: picks[i] in classes
    ensures |txs| == num
    ensures forall i | 0 <= i < num :: txs[i] == Build(srcid, blockNum, i, picks[i], classes[picks[i]], times[i])
    ensures forall i | 0 <= i < num ::
      var item := txs[i].item;
      && item.sender == User("send/" + Dec(srcid) + "/" + Digits(blockNum) + "-" + Digits(i))
      && item.call == AppInit(picks[i], classes[picks[i]]) && item.kind == CtxSrc && item.dst == picks[i]
      && txs[i].trace == Trace(Some(times[i]), [], [], [], [], {}) && txs[i].status == Proposing
    ensures forall i, j | 0 <= i < j < num :: Id(txs[i].item) != Id(txs[j].item)
  {
    txs := [];
    for i := 0 to num
      invariant |txs| == i
      invariant forall k | 0 <= k < i :: txs[k] == Build(srcid, blockNum, k, picks[k], classes[picks[k]], times[k])
    {
      txs := txs + [Build(srcid, blockNum, i, picks[i], classes[picks[i]], times[i])];
    }
    forall i, j | 0 <= i < j < num ensures Id(txs[i].item) != Id(txs[j].item) {
      if SenderName(srcid, blockNum, i) == SenderName(srcid, blockNum, j) {
        NamesDiffer(srcid, blockNum, i, srcid, blockNum, j);
      }
    }
  }

  /** Two generated transactions never share a sender, on whatever chains and blocks. */
  lemma NamesDiffer(p: Pid, b: nat, i: nat, q: Pid, c: nat, j: nat)
    requires SenderName(p, b, i) == SenderName(q, c, j)
    ensures p == q && b == c && i == j
  {
    var x, y := "send/" + Dec(p), "send/" + Dec(q);
    LastMark('-', x + "/" + Digits(b), Digits(i), y + "/" + Digits(c), Digits(j));
    LastMark('/', x, Digits(b), y, Digits(c));
    DigitsInjective(i, j);
    DigitsInjective(b, c);
    SamePrefix("send/", Dec(p), Dec(q));
    DecInjective(p, q);
  }

  /** What the generator builds is what the system lets a block start with, and is sound. */
  lemma GeneratedIsAllowed(cfg: Config, p: Pid, blockNum: nat, idx: nat, dst: Pid, class_: ChainClass, init: Time)
    requires p in cfg.paras && dst in cfg.paras && dst != p
    ensures UserTx(cfg, p, Build(p, blockNum, idx, dst, class_, init)) && Sound(Build(p, blockNum, idx, dst, class_, init))
    ensures Build(p, blockNum, idx, dst, class_, init).item.kind == CtxSrc
  {
  }
}
