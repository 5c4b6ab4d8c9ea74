/** What one chain does with the transactions it admits, over whole runs of its operations. */
module Ledger {
  import opened Wrappers
  import opened Types
  import C = Chain

  datatype Op = Admit(tx: Tx, t: Time) | Propose(gen: seq<Tx>, t: Time) | Exec | Commit(t: Time)

  predicate CanDo(c: C.Chain, op: Op) {
    match op
    case Admit(_, _) => true
    case Propose(_, _) => C.CanPropose(c)
    case Exec => C.CanExec(c)
    case Commit(_) => C.CanCommit(c)
  }

  function Do(c: C.Chain, op: Op, size: nat): C.Chain
    requires CanDo(c, op)
  {
    match op
    case Admit(tx, t) => C.Put(c, tx, t)
    case Propose(gen, t) => C.Propose(c, gen, size, t)
    case Exec => C.ExecStep(c)
    case Commit(t) => C.Commit(c, t)
  }

  /** The chain after a sequence of operations; None when one of them is not possible. */
  function Mine(c: C.Chain, ops: seq<Op>, size: nat): Option<C.Chain> {
    if ops == [] then Some(c)
    else
      var n := |ops| - 1;
      var before := Mine(c, ops[..n], size);
      if before.Some? && CanDo(before.value, ops[n]) then Some(Do(before.value, ops[n], size)) else None
  }

  lemma {:induction false} MineConcat(c: C.Chain, a: seq<Op>, b: seq<Op>, size: nat)
    requires Mine(c, a, size).Some?
    ensures Mine(c, a + b, size) == Mine(Mine(c, a, size).value, b, size)
    decreases |b|
  {
    hide Do, CanDo;
    if b == [] {
      assert a + b == a;
    } else {
      var n, ab := |b| - 1, a + b;
      assert ab[..|ab| - 1] == a + b[..n] && ab[|ab| - 1] == b[n];
      MineConcat(c, a, b[..n], size);
    }
  }

  lemma MineOne(c: C.Chain, op: Op, size: nat)
    requires CanDo(c, op)
    ensures Mine(c, [op], size) == Some(Do(c, op, size))
  {
    var ops := [op];
    assert ops[..|ops| - 1] == [] && Mine(c, ops[..|ops| - 1], size) == Some(c);
  }

  function Admitted(ops: seq<Op>): seq<Item> {
    if ops == [] then []
    else
      var last := ops[|ops| - 1];
      Admitted(ops[..|ops| - 1]) + if last.Admit? then [last.tx.item] else []
  }

  /** What was generated for each block, in the order of the blocks. */
  function Generated(ops: seq<Op>): seq<seq<Item>> {
    if ops == [] then []
    else
      var last := ops[|ops| - 1];
      Generated(ops[..|ops| - 1]) + if last.Propose? then [C.Items(last.gen)] else []
  }

  /** The blocks from height h on, the proposing one last. */
  function Since(c: C.Chain, h: nat): seq<Block>
    requires h <= |c.blocks|
  {
    c.blocks[h..] + if c.ctx.Some? then [c.ctx.value] else []
  }

  /** Every block is what was generated for it, then what came from the pool. */
  ghost predicate Begin(blocks: seq<Block>, gens: seq<seq<Item>>) {
    |blocks| == |gens| && forall k | 0 <= k < |gens| :: gens[k] <= C.Items(blocks[k].txs)
  }

  /** What the blocks took from the pool, in order. */
  function FromPool(blocks: seq<Block>, gens: seq<seq<Item>>): seq<Item>
    requires Begin(blocks, gens)
  {
    if gens == [] then []
    else
      var n := |gens| - 1;
      FromPool(blocks[..n], gens[..n]) + C.Items(blocks[n].txs)[|gens[n]|..]
  }

  /** A block is never larger than the block size, unless more was generated for it. */
  ghost predicate Fits(blocks: seq<Block>, gens: seq<seq<Item>>, size: nat)
    requires |blocks| == |gens|
  {
    forall k | 0 <= k < |gens| :: |blocks[k].txs| <= if |gens[k]| < size then size else |gens[k]|
  }

  /** From chain a to chain b: the transactions that a held in its pool, then those admitted
      since, are those that the new blocks took, then those in the pool of b; blocks have
      consecutive heights and keep to their size. */
  ghost predicate Accounted(a: C.Chain, b: C.Chain, admitted: seq<Item>, gens: seq<seq<Item>>, size: nat) {
    && C.Valid(b) && |a.blocks| <= |b.blocks| && a.blocks <= b.blocks
    && Begin(Since(b, |a.blocks|), gens)
    && FromPool(Since(b, |a.blocks|), gens) + C.Items(b.pool) == C.Items(a.pool) + admitted
    && Fits(Since(b, |a.blocks|), gens, size)
    && forall k | 0 <= k < |gens| :: Since(b, |a.blocks|)[k].height == |a.blocks| + k
  }

  lemma FromPoolSnoc(blocks: seq<Block>, gens: seq<seq<Item>>, b: Block, gen: seq<Item>)
    requires Begin(blocks, gens) && gen <= C.Items(b.txs)
    ensures Begin(blocks + [b], gens + [gen])
    ensures FromPool(blocks + [b], gens + [gen]) == FromPool(blocks, gens) + C.Items(b.txs)[|gen|..]
  {
    var bs, gs := blocks + [b], gens + [gen];
    assert bs[..|gens|] == blocks && gs[..|gens|] == gens;
  }

  /** Only the items of the blocks matter. */
  lemma {:induction false} FromPoolSame(blocks: seq<Block>, blocks': seq<Block>, gens: seq<seq<Item>>)
    requires Begin(blocks, gens) && |blocks'| == |blocks|
    requires forall k | 0 <= k < |blocks| :: C.Items(blocks'[k].txs) == C.Items(blocks[k].txs)
    ensures Begin(blocks', gens) && FromPool(blocks', gens) == FromPool(blocks, gens)
  {
    if gens != [] {
      var n := |gens| - 1;
      FromPoolSame(blocks[..n], blocks'[..n], gens[..n]);
    }
  }

  lemma Associate(x: seq<Item>, y: seq<Item>, z: seq<Item>)
    ensures x + (y + z) == (x + y) + z
  {
  }

  lemma AdmitAccounted(a: C.Chain, b: C.Chain, admitted: seq<Item>, gens: seq<seq<Item>>, size: nat, tx: Tx, t: Time)
    requires Accounted(a, b, admitted, gens, size)
    ensures Accounted(a, C.Put(b, tx, t), admitted + [tx.item], gens, size)
  {
    C.PutKeeps(b, tx, t);
    C.ItemsConcat(b.pool, [C.Pooled(tx, t)]);
    assert C.Items([C.Pooled(tx, t)]) == [tx.item];
    assert Since(C.Put(b, tx, t), |a.blocks|) == Since(b, |a.blocks|);
    Associate(FromPool(Since(b, |a.blocks|), gens), C.Items(b.pool), [tx.item]);
    Associate(C.Items(a.pool), admitted, [tx.item]);
  }

  /** The block that is proposed: its items, its size and its height. */
  lemma ProposedBlock(b: C.Chain, gen: seq<Tx>, size: nat, t: Time)
    requires C.CanPropose(b)
    ensures var n, block := C.Taken(|gen|, |b.pool|, size), C.Propose(b, gen, size, t).ctx.value;
      && C.Items(gen) <= C.Items(block.txs) && C.Items(block.txs)[|gen|..] == C.Items(b.pool[..n])
      && |block.txs| <= (if |gen| < size then size else |gen|) && block.height == |b.blocks|
    ensures C.Items(b.pool) == C.Items(b.pool[..C.Taken(|gen|, |b.pool|, size)]) + C.Items(C.Propose(b, gen, size, t).pool)
  {
    var n := C.Taken(|gen|, |b.pool|, size);
    C.ItemsConcat(gen, C.PoppedAll(b.pool[..n], t));
    assert C.Items(C.PoppedAll(b.pool[..n], t)) == C.Items(b.pool[..n]);
    C.ItemsConcat(b.pool[..n], b.pool[n..]);
    assert b.pool[..n] + b.pool[n..] == b.pool;
  }

  lemma ProposeAccounted(a: C.Chain, b: C.Chain, admitted: seq<Item>, gens: seq<seq<Item>>, size: nat, gen: seq<Tx>, t: Time)
    requires Accounted(a, b, admitted, gens, size) && C.CanPropose(b)
    ensures Accounted(a, C.Propose(b, gen, size, t), admitted, gens + [C.Items(gen)], size)
  {
    var b' := C.Propose(b, gen, size, t);
    C.ProposeKeeps(b, gen, size, t);
    ProposedBlock(b, gen, size, t);
    assert Since(b', |a.blocks|) == Since(b, |a.blocks|) + [b'.ctx.value];
    NewBlock(a, b, b', admitted, gens, size, b'.ctx.value, C.Items(gen));
  }

  /** A new block, for which `gen` was generated. */
  lemma NewBlock(a: C.Chain, b: C.Chain, b': C.Chain, admitted: seq<Item>, gens: seq<seq<Item>>, size: nat, block: Block, gen: seq<Item>)
    requires Accounted(a, b, admitted, gens, size) && C.Valid(b') && b'.blocks == b.blocks && b.ctx.None?
    requires Since(b', |a.blocks|) == Since(b, |a.blocks|) + [block] && block.height == |b.blocks|
    requires gen <= C.Items(block.txs) && |block.txs| <= if |gen| < size then size else |gen|
    requires C.Items(b.pool) == C.Items(block.txs)[|gen|..] + C.Items(b'.pool)
    ensures Accounted(a, b', admitted, gens + [gen], size)
  {
    var blocks := Since(b, |a.blocks|);
    FromPoolSnoc(blocks, gens, block, gen);
    Associate(FromPool(blocks, gens), C.Items(block.txs)[|gen|..], C.Items(b'.pool));
  }

  lemma SameAccounted(a: C.Chain, b: C.Chain, b': C.Chain, admitted: seq<Item>, gens: seq<seq<Item>>, size: nat)
    requires Accounted(a, b, admitted, gens, size) && C.Valid(b') && b.blocks <= b'.blocks && b'.pool == b.pool
    requires var s, s' := Since(b, |a.blocks|), Since(b', |a.blocks|);
      && |s| == |s'| && forall k | 0 <= k < |s| :: C.Items(s'[k].txs) == C.Items(s[k].txs) && s'[k].height == s[k].height
    ensures Accounted(a, b', admitted, gens, size)
  {
    FromPoolSame(Since(b, |a.blocks|), Since(b', |a.blocks|), gens);
    forall k | 0 <= k < |gens| ensures |Since(b', |a.blocks|)[k].txs| == |Since(b, |a.blocks|)[k].txs| {
      assert |C.Items(Since(b', |a.blocks|)[k].txs)| == |C.Items(Since(b, |a.blocks|)[k].txs)|;
    }
  }

  /** Committing changes neither the items nor the height of any block. */
  lemma CommitSince(b: C.Chain, h: nat, t: Time)
    requires C.Valid(b) && C.CanCommit(b) && h <= |b.blocks|
    ensures h <= |C.Commit(b, t).blocks| && |Since(C.Commit(b, t), h)| == |Since(b, h)|
    ensures forall k | 0 <= k < |Since(b, h)| ::
      C.Items(Since(C.Commit(b, t), h)[k].txs) == C.Items(Since(b, h)[k].txs) && Since(C.Commit(b, t), h)[k].height == Since(b, h)[k].height
  {
    if C.AllFit(b.ctx.value.txs) {
      var b' := C.Commit(b, t);
      assert Since(b', h) == b.blocks[h..] + [b'.blocks[|b.blocks|]];
      assert C.Items(b'.blocks[|b.blocks|].txs) == C.Items(b.ctx.value.txs);
    }
  }

  lemma CommitAccounted(a: C.Chain, b: C.Chain, admitted: seq<Item>, gens: seq<seq<Item>>, size: nat, t: Time)
    requires Accounted(a, b, admitted, gens, size) && C.CanCommit(b)
    ensures Accounted(a, C.Commit(b, t), admitted, gens, size)
  {
    hide FromPool, Begin, Fits, Since, C.Valid;
    C.CommitKeeps(b, t);
    CommitSince(b, |a.blocks|, t);
    SameAccounted(a, b, C.Commit(b, t), admitted, gens, size);
  }

  lemma NothingYet(a: C.Chain, size: nat)
    requires C.Valid(a) && a.ctx.None?
    ensures Accounted(a, a, [], [], size)
  {
    assert Since(a, |a.blocks|) == [];
    assert FromPool([], []) == [];
  }

  lemma OpAccounted(a: C.Chain, b: C.Chain, admitted: seq<Item>, gens: seq<seq<Item>>, size: nat, op: Op)
    requires Accounted(a, b, admitted, gens, size) && CanDo(b, op)
    ensures Accounted(a, Do(b, op, size), if op.Admit? then admitted + [op.tx.item] else admitted,
                      if op.Propose? then gens + [C.Items(op.gen)] else gens, size)
  {
    match op
    case Admit(tx, t) => AdmitAccounted(a, b, admitted, gens, size, tx, t);
    case Propose(gen, t) => ProposeAccounted(a, b, admitted, gens, size, gen, t);
    case Exec =>
      C.ExecKeeps(b);
      SameAccounted(a, b, C.ExecStep(b), admitted, gens, size);
    case Commit(t) => CommitAccounted(a, b, admitted, gens, size, t);
  }

  /** One more operation. */
  lemma LastOp(a: C.Chain, ops: seq<Op>, size: nat)
    requires ops != [] && Mine(a, ops, size).Some?
    ensures var n := |ops| - 1;
      && Mine(a, ops[..n], size).Some? && CanDo(Mine(a, ops[..n], size).value, ops[n])
      && Mine(a, ops, size).value == Do(Mine(a, ops[..n], size).value, ops[n], size)
      && Admitted(ops) == (if ops[n].Admit? then Admitted(ops[..n]) + [ops[n].tx.item] else Admitted(ops[..n]))
      && Generated(ops) == (if ops[n].Propose? then Generated(ops[..n]) + [C.Items(ops[n].gen)] else Generated(ops[..n]))
  {
  }

  /** The run is accounted for. */
  ghost predicate RunOk(a: C.Chain, ops: seq<Op>, size: nat)
    requires Mine(a, ops, size).Some?
  {
    Accounted(a, Mine(a, ops, size).value, Admitted(ops), Generated(ops), size)
  }

  lemma LastOpAccounted(a: C.Chain, ops: seq<Op>, size: nat)
    requires ops != [] && Mine(a, ops, size).Some? && Mine(a, ops[..|ops| - 1], size).Some?
    requires RunOk(a, ops[..|ops| - 1], size)
    ensures RunOk(a, ops, size)
  {
    var n := |ops| - 1;
    LastOp(a, ops, size);
    OpAccounted(a, Mine(a, ops[..n], size).value, Admitted(ops[..n]), Generated(ops[..n]), size, ops[n]);
  }

  /** In every run of a chain that is not proposing to begin with, every admitted transaction is
      in exactly one place of the ledger, in the order of admission. */
  lemma {:induction false} RunAccounted(a: C.Chain, ops: seq<Op>, size: nat)
    requires C.Valid(a) && a.ctx.None? && Mine(a, ops, size).Some?
    ensures Accounted(a, Mine(a, ops, size).value, Admitted(ops), Generated(ops), size)
  {
    if ops == [] {
      NothingYet(a, size);
    } else {
      LastOp(a, ops, size);
      RunAccounted(a, ops[..|ops| - 1], size);
      LastOpAccounted(a, ops, size);
    }
  }
}
