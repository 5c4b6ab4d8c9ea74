/** One simulated chain: a FIFO pool, a proposing block and committed blocks, with the light
    client it hosts. Every operation of the mining loop is a function on the chain's state. */
module Chain {
  import opened Wrappers
  import opened Types
  import LightClient

  /** `ctx` is the proposing block, `idx` the next transaction of it to execute, and `half` is
      set between the two store writes of a header synchronisation. */
  datatype Chain = Chain(
    blocks: seq<Block>,
    ctx: Option<Block>,
    idx: nat,
    half: bool,
    pool: seq<Tx>,
    client: LightClient.Client,
    halted: bool)

  // ----- operations -----

  function Pooled(tx: Tx, t: Time): Tx {
    tx.(trace := tx.trace.(mpPut := tx.trace.mpPut + [t]), status := Pending)
  }

  function Put(c: Chain, tx: Tx, t: Time): Chain {
    c.(pool := c.pool + [Pooled(tx, t)])
  }

  /** The mark is dropped when the entry is no list. */
  function Popped(tx: Tx, t: Time): Tx {
    tx.(trace := if NoGetList in tx.trace.flaws then tx.trace else tx.trace.(mpGet := tx.trace.mpGet + [t]), status := Proposing)
  }

  function PoppedAll(txs: seq<Tx>, t: Time): (r: seq<Tx>)
    ensures |r| == |txs|
  {
    seq(|txs|, i requires 0 <= i < |txs| => Popped(txs[i], t))
  }

  /** How many pool transactions a block takes after the generated ones. */
  function Taken(gen: nat, pool: nat, size: nat): nat {
    if gen >= size then 0 else if pool < size - gen then pool else size - gen
  }

  predicate CanPropose(c: Chain) {
    !c.halted && c.ctx.None?
  }

  function Propose(c: Chain, gen: seq<Tx>, size: nat, t: Time): Chain
    requires CanPropose(c)
  {
    var n := Taken(|gen|, |c.pool|, size);
    c.(ctx := Some(Block(|c.blocks|, gen + PoppedAll(c.pool[..n], t))), idx := 0, half := false, pool := c.pool[n..])
  }

  predicate CanExec(c: Chain) {
    !c.halted && c.ctx.Some? && c.idx < |c.ctx.value.txs|
  }

  function Current(c: Chain): Tx
    requires CanExec(c)
  {
    c.ctx.value.txs[c.idx]
  }

  function Answered(tx: Tx, resp: Response): Tx {
    tx.(status := if resp.code == 1 then Success else Failed, out := resp.out)
  }

  /** One step of executing the current transaction: a header synchronisation takes two, one
      for each store write; a call that raises outside the exception handler ends the mining loop. */
  function ExecStep(c: Chain): Chain
    requires CanExec(c)
  {
    var b, tx := c.ctx.value, Current(c);
    var call := tx.item.call;
    if Crashes(call) then c.(halted := true)
    else if call.HeaderSync? && !c.half then
      c.(client := LightClient.WriteHeader(c.client, call.pid, call.height, call.header, b.height), half := true)
    else
      var (client, resp) :=
        if call.HeaderSync? then
          (LightClient.WriteMaxn(c.client, call.pid, call.height),
           LightClient.Respond(c.client, call.class_, LightClient.HeaderPart, HeaderStored(call.pid, call.height)))
        else LightClient.Exec(c.client, call, b.height);
      c.(ctx := Some(b.(txs := b.txs[c.idx := Answered(tx, resp)])), idx := c.idx + 1, half := false, client := client)
  }

  predicate CanCommit(c: Chain) {
    !c.halted && c.ctx.Some? && c.idx == |c.ctx.value.txs|
  }

  function Committed(tx: Tx, height: nat, t: Time): Tx {
    tx.(trace := tx.trace.(commit := tx.trace.commit + [t]), height := height, status := Success)
  }

  function CommittedAll(txs: seq<Tx>, height: nat, t: Time): (r: seq<Tx>)
    ensures |r| == |txs|
  {
    seq(|txs|, i requires 0 <= i < |txs| => Committed(txs[i], height, t))
  }

  /** Whether committing the block does not raise. */
  predicate AllFit(txs: seq<Tx>) {
    forall i | 0 <= i < |txs| :: !Unfit(txs[i])
  }

  /** Every committed transaction gets status Success, whatever its execution answered. One that is
      unfit ends the mining loop, and the block is never stored. */
  function Commit(c: Chain, t: Time): Chain
    requires CanCommit(c)
  {
    var b := c.ctx.value;
    if AllFit(b.txs) then c.(blocks := c.blocks + [b.(txs := CommittedAll(b.txs, b.height, t))], ctx := None, idx := 0)
    else c.(halted := true)
  }

  // ----- views -----

  function Flat(blocks: seq<Block>): seq<Tx> {
    if |blocks| == 0 then [] else Flat(blocks[..|blocks| - 1]) + blocks[|blocks| - 1].txs
  }

  function Items(txs: seq<Tx>): (r: seq<Item>)
    ensures |r| == |txs|
    ensures forall i | 0 <= i < |r| :: r[i] == txs[i].item
  {
    seq(|txs|, i requires 0 <= i < |txs| => txs[i].item)
  }

  function Proposed(c: Chain): seq<Tx> {
    if c.ctx.Some? then c.ctx.value.txs else []
  }

  /** Every transaction the chain holds, in the order in which it executes them. */
  function Ledger(c: Chain): seq<Item> {
    Items(Flat(c.blocks)) + Items(Proposed(c)) + Items(c.pool)
  }

  function Executed(c: Chain): seq<Item>
    requires c.idx <= |Proposed(c)|
  {
    Items(Flat(c.blocks)) + Items(Proposed(c))[..c.idx]
  }

  // ----- the invariant of one chain -----

  ghost predicate BlockOk(b: Block, h: nat) {
    b.height == h && forall i | 0 <= i < |b.txs| :: b.txs[i].height == h && b.txs[i].status == Success && !Unfit(b.txs[i])
  }

  ghost predicate Valid(c: Chain) {
    && |c.blocks| >= 1
    && (forall h | 0 <= h < |c.blocks| :: BlockOk(c.blocks[h], h))
    && c.idx <= |Proposed(c)|
    && (c.ctx.Some? ==> c.ctx.value.height == |c.blocks|)
    && (c.half ==> c.idx < |Proposed(c)| && Proposed(c)[c.idx].item.call.HeaderSync?)
  }

  lemma FlatSnoc(blocks: seq<Block>, b: Block)
    ensures Flat(blocks + [b]) == Flat(blocks) + b.txs
  {
    assert (blocks + [b])[..|blocks|] == blocks;
  }

  lemma ItemsConcat(a: seq<Tx>, b: seq<Tx>)
    ensures Items(a + b) == Items(a) + Items(b)
  {
  }

  lemma {:induction false} FlatConcat(a: seq<Block>, b: seq<Block>)
    ensures Flat(a + b) == Flat(a) + Flat(b)
    decreases |b|
  {
    if b == [] {
      assert a + b == a;
    } else {
      var n := |b| - 1;
      assert (a + b)[..|a| + n] == a + b[..n];
      FlatConcat(a, b[..n]);
    }
  }

  lemma PutKeeps(c: Chain, tx: Tx, t: Time)
    requires Valid(c)
    ensures Valid(Put(c, tx, t))
    ensures Ledger(Put(c, tx, t)) == Ledger(c) + [tx.item]
    ensures Executed(Put(c, tx, t)) == Executed(c)
  {
  }

  lemma ProposeKeeps(c: Chain, gen: seq<Tx>, size: nat, t: Time)
    requires Valid(c) && CanPropose(c)
    ensures Valid(Propose(c, gen, size, t))
    ensures Ledger(c) == Items(Flat(c.blocks)) + Items(c.pool)
    ensures Ledger(Propose(c, gen, size, t)) == Items(Flat(c.blocks)) + Items(gen) + Items(c.pool)
    ensures Executed(Propose(c, gen, size, t)) == Executed(c)
  {
    hide Flat, PoppedAll, BlockOk, Items;
    var n, p := Taken(|gen|, |c.pool|, size), Propose(c, gen, size, t);
    ItemsConcat(gen, PoppedAll(c.pool[..n], t));
    PoppedItems(c.pool[..n], t);
    ItemsConcat(c.pool[..n], c.pool[n..]);
    assert c.pool[..n] + c.pool[n..] == c.pool;
    Regroup(Items(Flat(c.blocks)), Items(gen), Items(c.pool[..n]), Items(c.pool[n..]));
    NoItems();
    assert Items(Flat(c.blocks)) + [] == Items(Flat(c.blocks));
    assert Proposed(p) == gen + PoppedAll(c.pool[..n], t) && Items(Proposed(p))[..0] == [] && Items(Proposed(c))[..0] == [];
  }

  lemma NoItems()
    ensures Items([]) == []
  {
  }

  lemma Regroup(x: seq<Item>, a: seq<Item>, b: seq<Item>, z: seq<Item>)
    ensures x + (a + b) + z == x + a + (b + z)
  {
  }

  lemma PoppedItems(txs: seq<Tx>, t: Time)
    ensures Items(PoppedAll(txs, t)) == Items(txs)
  {
  }

  /** A block is what was generated, then the oldest of the pool, in order and marked; and it is filled:
      to the block size, or until the pool is empty. More generated ones than that fit are all in it. */
  lemma ProposeFills(c: Chain, gen: seq<Tx>, size: nat, t: Time)
    requires CanPropose(c)
    ensures Propose(c, gen, size, t).ctx.Some?
    ensures var txs, left := Propose(c, gen, size, t).ctx.value.txs, Propose(c, gen, size, t).pool;
      && gen <= txs && (|txs| >= size || left == []) && (|gen| >= size ==> txs == gen && left == c.pool)
      && |txs| == (if |gen| >= size then |gen| else if |gen| + |c.pool| < size then |gen| + |c.pool| else size)
      && left == c.pool[|txs| - |gen|..]
      && forall i | 0 <= i < |txs| - |gen| ::
           var was, tr := c.pool[i], c.pool[i].trace;
           txs[|gen| + i] == was.(status := Proposing, trace := if NoGetList in tr.flaws then tr else tr.(mpGet := tr.mpGet + [t]))
  {
  }

  /** Whether the next execution step finishes the current transaction. */
  predicate Finishes(c: Chain)
    requires CanExec(c)
  {
    !Crashes(Current(c).item.call) && (Current(c).item.call.HeaderSync? ==> c.half)
  }

  lemma ExecKeeps(c: Chain)
    requires Valid(c) && CanExec(c)
    ensures Valid(ExecStep(c))
    ensures Ledger(ExecStep(c)) == Ledger(c)
    ensures Executed(ExecStep(c)) == if Finishes(c) then Executed(c) + [Current(c).item] else Executed(c)
    ensures |Executed(c)| < |Ledger(c)| && Ledger(c)[|Executed(c)|] == Current(c).item
    ensures ExecStep(c).blocks == c.blocks && ExecStep(c).pool == c.pool
    ensures Items(Proposed(ExecStep(c))) == Items(Proposed(c)) && ExecStep(c).ctx.Some?
    ensures Items(Proposed(c))[c.idx] == Current(c).item
  {
    if Finishes(c) {
      var p := Proposed(ExecStep(c));
      assert Items(p) == Items(Proposed(c));
    }
  }

  lemma CommitKeeps(c: Chain, t: Time)
    requires Valid(c) && CanCommit(c)
    ensures Valid(Commit(c, t))
    ensures Ledger(Commit(c, t)) == Ledger(c)
    ensures Executed(Commit(c, t)) == Executed(c)
    ensures c.blocks <= Commit(c, t).blocks
    ensures |Commit(c, t).blocks| == |c.blocks| + if AllFit(c.ctx.value.txs) then 1 else 0
    ensures Commit(c, t).halted <==> !AllFit(c.ctx.value.txs)
  {
    if AllFit(c.ctx.value.txs) {
      var b := c.ctx.value;
      var b' := b.(txs := CommittedAll(b.txs, b.height, t));
      FlatSnoc(c.blocks, b');
      assert Items(Flat(c.blocks) + b'.txs) == Items(Flat(c.blocks)) + Items(b.txs);
    }
  }

  lemma ExecutedIsPrefix(c: Chain)
    requires Valid(c)
    ensures Executed(c) <= Ledger(c)
  {
  }
}
