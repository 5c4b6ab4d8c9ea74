/** The simulated node as objects that change in place: mempool, block storage, transaction
    index and the mining loop, each proved against the functions of module Chain. */
module Node {
  import opened Wrappers
  import opened Types
  import opened LightClient
  import opened FlatStore
  import opened Contracts
  import Ledger
  import C = Chain

  datatype Admission = Admitted | Refused | Raises

  class SyncMemPool {
    const maxsize: int
    var queue: seq<Tx>

    constructor (maxsize: int)
      ensures this.maxsize == maxsize && queue == []
    {
      this.maxsize := maxsize;
      queue := [];
    }

    /** Refuses at a positive limit, and raises when the memo has no list to mark the time in;
        in both cases nothing is admitted. */
    method PutTx(tx: Tx, t: Time) returns (r: Admission)
      modifies this
      ensures r == if old(|queue|) >= maxsize > 0 then Refused else if NoPutList in tx.trace.flaws then Raises else Admitted
      ensures queue == if r == Admitted then old(queue) + [C.Pooled(tx, t)] else old(queue)
    {
      if |queue| >= maxsize && maxsize > 0 {
        return Refused;
      }
      if NoPutList in tx.trace.flaws {
        return Raises;
      }
      var newtx := tx.(trace := tx.trace.(mpPut := tx.trace.mpPut + [t]));
      newtx := newtx.(status := Pending);
      queue := queue + [newtx];
      r := Admitted;
    }

    /** Takes the oldest; when marking it raises, that is swallowed and it comes unmarked. */
    method PopTx(t: Time) returns (r: Option<Tx>)
      modifies this
      ensures r.None? <==> old(queue) == []
      ensures r.Some? ==> old(queue) == [old(queue)[0]] + queue
      ensures r.Some? ==> r.value == if NoGetList in old(queue)[0].trace.flaws then old(queue)[0]
                                     else old(queue)[0].(trace := old(queue)[0].trace.(mpGet := old(queue)[0].trace.mpGet + [t]))
      ensures r.None? ==> queue == old(queue)
    {
      if queue == [] {
        return None;
      }
      var tx := queue[0];
      queue := queue[1..];
      if NoGetList in tx.trace.flaws {
        return Some(tx);
      }
      r := Some(tx.(trace := tx.trace.(mpGet := tx.trace.mpGet + [t])));
    }

    method Size() returns (n: nat)
      ensures n == |queue|
    {
      n := |queue|;
    }
  }

  // ----- the pool over many calls -----

  datatype PoolOp = Offer(tx: Tx, t: Time) | Fetch(t: Time)

  predicate Admits(queue: seq<Tx>, maxsize: int, tx: Tx) {
    !(|queue| >= maxsize > 0) && NoPutList !in tx.trace.flaws
  }

  /** The pool after the calls. */
  function Pool(queue: seq<Tx>, maxsize: int, ops: seq<PoolOp>): seq<Tx> {
    if ops == [] then queue
    else
      var n := |ops| - 1;
      var before := Pool(queue, maxsize, ops[..n]);
      match ops[n]
      case Offer(tx, t) => if Admits(before, maxsize, tx) then before + [C.Pooled(tx, t)] else before
      case Fetch(_) => if before == [] then [] else before[1..]
  }

  /** What the calls put in, in order. */
  function Offered(queue: seq<Tx>, maxsize: int, ops: seq<PoolOp>): seq<Tx> {
    if ops == [] then []
    else
      var n := |ops| - 1;
      Offered(queue, maxsize, ops[..n])
      + if ops[n].Offer? && Admits(Pool(queue, maxsize, ops[..n]), maxsize, ops[n].tx) then [C.Pooled(ops[n].tx, ops[n].t)] else []
  }

  /** What they took out, in order. */
  function Fetched(queue: seq<Tx>, maxsize: int, ops: seq<PoolOp>): seq<Tx> {
    if ops == [] then []
    else
      var n := |ops| - 1;
      var before := Pool(queue, maxsize, ops[..n]);
      Fetched(queue, maxsize, ops[..n]) + if ops[n].Fetch? && before != [] then [before[0]] else []
  }

  lemma BothGrow(a: seq<Tx>, b: seq<Tx>, c: seq<Tx>, d: seq<Tx>, x: Tx)
    requires a + b == c + d
    ensures a + (b + [x]) == c + (d + [x])
  {
    assert a + (b + [x]) == (a + b) + [x];
  }

  /** First in, first out: what was there and what was accepted is what was taken and what is
      left. */
  lemma {:induction false} PoolIsFifo(queue: seq<Tx>, maxsize: int, ops: seq<PoolOp>)
    ensures queue + Offered(queue, maxsize, ops) == Fetched(queue, maxsize, ops) + Pool(queue, maxsize, ops)
  {
    if ops == [] {
      assert queue + [] == [] + queue;
    } else {
      var n := |ops| - 1;
      var given, got, was := Offered(queue, maxsize, ops[..n]), Fetched(queue, maxsize, ops[..n]), Pool(queue, maxsize, ops[..n]);
      PoolIsFifo(queue, maxsize, ops[..n]);
      assert given + [] == given && got + [] == got;
      if ops[n].Offer? && Admits(was, maxsize, ops[n].tx) {
        BothGrow(queue, given, got, was, C.Pooled(ops[n].tx, ops[n].t));
      } else if ops[n].Fetch? && was != [] {
        assert got + was == got + [was[0]] + was[1..];
      }
    }
  }

  /** The size is what was accepted less what was taken, and never exceeds a positive limit. */
  lemma {:induction false} PoolFits(queue: seq<Tx>, maxsize: int, ops: seq<PoolOp>)
    ensures |Pool(queue, maxsize, ops)| == |queue| + |Offered(queue, maxsize, ops)| - |Fetched(queue, maxsize, ops)|
    ensures |queue| <= maxsize ==> |Pool(queue, maxsize, ops)| <= maxsize || maxsize <= 0
  {
    if ops != [] {
      PoolFits(queue, maxsize, ops[..|ops| - 1]);
    }
  }

  /** A transaction that was accepted on the way. */
  lemma {:induction false} OfferedIs(queue: seq<Tx>, maxsize: int, ops: seq<PoolOp>, k: nat) returns (i: nat)
    requires k < |Offered(queue, maxsize, ops)|
    ensures i < |ops| && ops[i].Offer? && Waits(ops[i].tx, ops[i].t, Offered(queue, maxsize, ops)[k])
    ensures !(|Pool(queue, maxsize, ops[..i])| >= maxsize > 0) && NoPutList !in ops[i].tx.trace.flaws
  {
    var n := |ops| - 1;
    if k < |Offered(queue, maxsize, ops[..n])| {
      i := OfferedIs(queue, maxsize, ops[..n], k);
      assert ops[..n][..i] == ops[..i];
    } else {
      i := n;
    }
  }

  /** The transaction as it waits: pending, and marked with the time of its admission. */
  predicate Waits(tx: Tx, t: Time, waits: Tx) {
    waits == tx.(status := Pending, trace := tx.trace.(mpPut := tx.trace.mpPut + [t]))
  }

  /** So what is taken, unless it was there before, was offered when there was room, and is marked with
      the time of the offer. */
  lemma TakenWasOffered(queue: seq<Tx>, maxsize: int, ops: seq<PoolOp>, k: nat) returns (i: nat)
    requires |queue| <= k < |Fetched(queue, maxsize, ops)|
    ensures i < |ops| && ops[i].Offer? && Waits(ops[i].tx, ops[i].t, Fetched(queue, maxsize, ops)[k])
    ensures !(|Pool(queue, maxsize, ops[..i])| >= maxsize > 0) && NoPutList !in ops[i].tx.trace.flaws
  {
    PoolIsFifo(queue, maxsize, ops);
    var all := queue + Offered(queue, maxsize, ops);
    assert Fetched(queue, maxsize, ops)[k] == all[k] == Offered(queue, maxsize, ops)[k - |queue|];
    i := OfferedIs(queue, maxsize, ops, k - |queue|);
  }

  class BlockStorage {
    var blocks: seq<Block>

    constructor ()
      ensures blocks == []
    {
      blocks := [];
    }

    method BlockNum() returns (n: int)
      ensures n == |blocks| - 1
    {
      n := |blocks| - 1;
    }

    /** None above the last block; a negative height counts from the end, as a list index does,
        and one below the first block raises (None). */
    method GetBlockByHeight(height: int) returns (r: Option<Block>)
      ensures 0 <= height < |blocks| ==> r == Some(blocks[height])
      ensures -|blocks| <= height < 0 ==> r == Some(blocks[|blocks| + height])
      ensures height >= |blocks| || height < -|blocks| ==> r == None
    {
      if height > |blocks| - 1 || height < -|blocks| {
        return None;
      }
      r := Some(if height >= 0 then blocks[height] else blocks[|blocks| + height]);
    }

    /** Appends only the block of the next height; any other raises. */
    method Append(b: Block) returns (ok: bool)
      modifies this
      ensures ok <==> b.height == old(|blocks|)
      ensures blocks == if ok then old(blocks) + [b] else old(blocks)
    {
      var n := BlockNum();
      if b.height != n + 1 {
        return false;
      }
      blocks := blocks + [b];
      ok := true;
    }
  }

  class TransactionIndexer {
    var index: map<TxId, Tx>

    constructor ()
      ensures index == map[]
    {
      index := map[];
    }

    method Store(tx: Tx)
      modifies this
      ensures index == old(index)[Id(tx.item) := tx]
    {
      index := index[Id(tx.item) := tx];
    }

    method Query(id: TxId) returns (r: Option<Tx>)
      ensures r == if id in index then Some(index[id]) else None
    {
      r := if id in index then Some(index[id]) else None;
    }
  }

  /** The index after storing a list: the last transaction with an id wins. */
  function Indexed(index: map<TxId, Tx>, txs: seq<Tx>): map<TxId, Tx> {
    if txs == [] then index else Indexed(index, txs[..|txs| - 1])[Id(txs[|txs| - 1].item) := txs[|txs| - 1]]
  }

  /** Whether the k-th of a list is the last with this id. */
  ghost predicate IsLast(txs: seq<Tx>, k: nat, id: TxId) {
    k < |txs| && Id(txs[k].item) == id && forall j | k < j < |txs| :: Id(txs[j].item) != id
  }

  /** A query finds the last transaction stored with the id. */
  lemma {:induction false} IndexedIsLast(index: map<TxId, Tx>, txs: seq<Tx>, id: TxId, k: nat)
    requires IsLast(txs, k, id)
    ensures id in Indexed(index, txs) && Indexed(index, txs)[id] == txs[k]
  {
    var n := |txs| - 1;
    if k < n {
      assert IsLast(txs[..n], k, id);
      IndexedIsLast(index, txs[..n], id, k);
    }
  }

  /** If none was stored with the id, it finds what it found before. */
  lemma {:induction false} NotIndexed(index: map<TxId, Tx>, txs: seq<Tx>, id: TxId)
    requires forall k | 0 <= k < |txs| :: Id(txs[k].item) != id
    ensures id in Indexed(index, txs) <==> id in index
    ensures id in index ==> Indexed(index, txs)[id] == index[id]
  {
    if txs != [] {
      NotIndexed(index, txs[..|txs| - 1], id);
    }
  }

  lemma {:induction false} LastIfAny(txs: seq<Tx>, id: TxId) returns (k: nat)
    ensures IsLast(txs, k, id) || forall j | 0 <= j < |txs| :: Id(txs[j].item) != id
  {
    k := 0;
    if txs != [] {
      var n := |txs| - 1;
      if Id(txs[n].item) == id {
        k := n;
      } else {
        k := LastIfAny(txs[..n], id);
      }
    }
  }

  /** Storing other versions of the same transactions again replaces them all. */
  lemma Reindexed(index: map<TxId, Tx>, a: seq<Tx>, b: seq<Tx>)
    requires |a| == |b| && forall k | 0 <= k < |a| :: Id(a[k].item) == Id(b[k].item)
    ensures Indexed(Indexed(index, a), b) == Indexed(index, b)
  {
    var x, y := Indexed(Indexed(index, a), b), Indexed(index, b);
    forall id ensures (id in x <==> id in y) && (id in x ==> x[id] == y[id]) {
      ReindexedAt(index, a, b, id);
    }
  }

  lemma ReindexedAt(index: map<TxId, Tx>, a: seq<Tx>, b: seq<Tx>, id: TxId)
    requires |a| == |b| && forall k | 0 <= k < |a| :: Id(a[k].item) == Id(b[k].item)
    ensures id in Indexed(Indexed(index, a), b) <==> id in Indexed(index, b)
    ensures id in Indexed(index, b) ==> Indexed(Indexed(index, a), b)[id] == Indexed(index, b)[id]
  {
    var k := LastIfAny(b, id);
    if IsLast(b, k, id) {
      IndexedIsLast(Indexed(index, a), b, id, k);
      IndexedIsLast(index, b, id, k);
    } else {
      NotIndexed(index, a, id);
      NotIndexed(Indexed(index, a), b, id);
      NotIndexed(index, b, id);
    }
  }

  /** The block's transactions once they are marked, not yet updated. */
  function Stamped(tx: Tx, t: Time): Tx {
    tx.(trace := tx.trace.(commit := tx.trace.commit + [t]))
  }

  function StampedAll(txs: seq<Tx>, t: Time): (r: seq<Tx>)
    ensures |r| == |txs| && forall i | 0 <= i < |r| :: r[i] == Stamped(txs[i], t)
  {
    seq(|txs|, i requires 0 <= i < |txs| => Stamped(txs[i], t))
  }

  /** How many transactions come before the first that cannot be hashed. */
  function Hashable(txs: seq<Tx>): (n: nat)
    ensures n <= |txs| && (forall i | 0 <= i < n :: txs[i].item.text) && (n < |txs| ==> !txs[n].item.text)
  {
    if txs == [] || !txs[0].item.text then 0 else 1 + Hashable(txs[1..])
  }

  /** The index after committing a block, or after the exception that committing it raises. */
  function IndexedBy(index: map<TxId, Tx>, b: Block, t: Time, proxied: bool): map<TxId, Tx> {
    if exists i | 0 <= i < |b.txs| :: NoCommitList in b.txs[i].trace.flaws then index
    else if Hashable(b.txs) < |b.txs| then Indexed(index, StampedAll(b.txs, t)[..Hashable(b.txs)])
    else Indexed(index, if proxied then StampedAll(b.txs, t) else C.CommittedAll(b.txs, b.height, t))
  }

  lemma {:induction false} HashableSame(txs: seq<Tx>, stamped: seq<Tx>)
    requires |txs| == |stamped| && forall i | 0 <= i < |txs| :: stamped[i].item.text == txs[i].item.text
    ensures Hashable(stamped) == Hashable(txs)
  {
    if txs != [] && txs[0].item.text {
      HashableSame(txs[1..], stamped[1..]);
    }
  }

  lemma StampedThenUpdated(was: seq<Tx>, txs: seq<Tx>, height: nat, t: Time)
    requires |txs| == |was| && forall i | 0 <= i < |was| :: txs[i] == Stamped(was[i], t).(height := height, status := Success)
    ensures txs == C.CommittedAll(was, height, t)
    ensures forall i | 0 <= i < |was| :: Id(StampedAll(was, t)[i].item) == Id(txs[i].item)
  {
  }

  // ----- the three ways in which committing raises -----

  lemma MarkingBreaks(c: C.Chain, t: Time)
    requires C.CanCommit(c) && exists i | 0 <= i < |c.ctx.value.txs| :: NoCommitList in c.ctx.value.txs[i].trace.flaws
    ensures C.Commit(c, t) == c.(halted := true)
  {
    var i :| 0 <= i < |c.ctx.value.txs| && NoCommitList in c.ctx.value.txs[i].trace.flaws;
    assert Unfit(c.ctx.value.txs[i]);
  }

  lemma HashingBreaks(c: C.Chain, t: Time)
    requires C.CanCommit(c) && Hashable(c.ctx.value.txs) < |c.ctx.value.txs|
    ensures C.Commit(c, t) == c.(halted := true)
  {
    assert Unfit(c.ctx.value.txs[Hashable(c.ctx.value.txs)]);
  }

  lemma EncodingBreaks(c: C.Chain, t: Time)
    requires C.CanCommit(c) && exists i | 0 <= i < |c.ctx.value.txs| :: c.ctx.value.txs[i].item.call == Malformed(false)
    ensures C.Commit(c, t) == c.(halted := true)
  {
    var i :| 0 <= i < |c.ctx.value.txs| && c.ctx.value.txs[i].item.call == Malformed(false);
    assert Unfit(c.ctx.value.txs[i]);
  }

  lemma NothingBreaks(c: C.Chain, t: Time)
    requires C.Valid(c) && C.CanCommit(c) && Hashable(c.ctx.value.txs) == |c.ctx.value.txs|
    requires forall i | 0 <= i < |c.ctx.value.txs| :: NoCommitList !in c.ctx.value.txs[i].trace.flaws
    requires forall i | 0 <= i < |c.ctx.value.txs| :: c.ctx.value.txs[i].item.call != Malformed(false)
    ensures var b := c.ctx.value;
      b.height == |c.blocks| && C.Commit(c, t) == c.(blocks := c.blocks + [b.(txs := C.CommittedAll(b.txs, b.height, t))], ctx := None, idx := 0)
  {
  }

  /** How far committing gets with the index: not at all when a memo cannot be marked, else to the
      first transaction that cannot be hashed. */
  function Reached(txs: seq<Tx>): (n: nat)
    ensures n <= |txs|
  {
    if exists i | 0 <= i < |txs| :: NoCommitList in txs[i].trace.flaws then 0 else Hashable(txs)
  }

  /** What a query finds after a block was committed, or committing it has raised. Of a transaction that
      was reached: the last with this hash, with the commit time; an index in another process keeps it
      without the height and with the status of its execution, one in the same process has both of the
      block when everything was reached. Any other query finds what it found before. */
  lemma IndexAfterCommit(index: map<TxId, Tx>, b: Block, t: Time, proxied: bool, id: TxId)
    ensures var now, reached := IndexedBy(index, b, t, proxied), b.txs[..Reached(b.txs)];
      && (forall k: nat | IsLast(reached, k, id) ::
            && id in now
            && var stamped := reached[k].(trace := reached[k].trace.(commit := reached[k].trace.commit + [t]));
               now[id] == if proxied || |reached| < |b.txs| then stamped else stamped.(height := b.height, status := Success))
      && ((forall k: nat | k < |reached| :: Id(reached[k].item) != id) ==> (id in now <==> id in index) && (id in index ==> now[id] == index[id]))
  {
    hide Indexed, Hashable;
    var now, n := IndexedBy(index, b, t, proxied), Reached(b.txs);
    var reached, stored := b.txs[..n], if proxied || n < |b.txs| then StampedAll(b.txs, t)[..n] else C.CommittedAll(b.txs, b.height, t);
    StoredIs(index, b, t, proxied);
    forall k: nat | IsLast(reached, k, id)
      ensures id in now && now[id] == stored[k]
    {
      assert IsLast(stored, k, id);
      IndexedIsLast(index, stored, id, k);
    }
    if forall k: nat | k < |reached| :: Id(reached[k].item) != id {
      forall k: nat | k < |stored| ensures Id(stored[k].item) != id {
        assert Id(reached[k].item) != id;
      }
      NotIndexed(index, stored, id);
    }
  }

  /** What has been stored in the end. */
  lemma StoredIs(index: map<TxId, Tx>, b: Block, t: Time, proxied: bool)
    ensures var n := Reached(b.txs);
      IndexedBy(index, b, t, proxied)
      == Indexed(index, if proxied || n < |b.txs| then StampedAll(b.txs, t)[..n] else C.CommittedAll(b.txs, b.height, t))
  {
    hide Hashable;
    var n, all := Reached(b.txs), StampedAll(b.txs, t);
    if i :| 0 <= i < |b.txs| && NoCommitList in b.txs[i].trace.flaws {
      assert all[..n] == [];
    } else if n == |b.txs| {
      assert all[..n] == all;
    }
  }

  // ----- the executor -----

  class Executor {
    const contract: CtrLightClient

    constructor (contract: CtrLightClient)
      ensures this.contract == contract
    {
      this.contract := contract;
    }

    /** An empty address deploys what the data field holds, under a digest; any other is called.
        None when that raises outside the exception handler: nothing is deployed at the address, or
        the data is no contract. A contract's own failure is an answer with code 0, and is not undone. */
    method Execute(call: Call, height: nat, ghost c: Client) returns (r: Option<Response>)
      requires Represents(contract.store.data, c) && LogsNotEmpty(c)
      modifies contract.store
      ensures r.None? <==> Crashes(call)
      ensures r.None? ==> contract.store.data == old(contract.store.data)
      ensures r.Some? ==> Represents(contract.store.data, LightClient.Exec(c, call, height).0)
                          && r.value == LightClient.Exec(c, call, height).1
      ensures call.Deploy? && call.code.Contract? ==> contract.store.data == old(contract.store.data)[call.code.address := Text(call.code.data)]
    {
      if call.NoContract? {
        return None;
      }
      if call.Deploy? {
        r := Deploy(call.code, c);
      } else {
        var resp := contract.Exec(call, height, c);
        r := Some(resp);
      }
    }

    method Deploy(code: Code, ghost c: Client) returns (r: Option<Response>)
      requires Represents(contract.store.data, c)
      modifies contract.store
      ensures r == if code.Garbage? then None else if code.FailingInit? then Some(Response(0, Raised)) else Some(Response(1, NoOut))
      ensures Represents(contract.store.data, c)
      ensures contract.store.data
              == if code.Contract? then old(contract.store.data)[code.address := Text(code.data)] else old(contract.store.data)
    {
      match code
      case Garbage => r := None;
      case FailingInit => r := Some(Response(0, Raised));
      case Contract(address, data) =>
        DigestIsForeign(address);
        ForeignWrite(contract.store.data, c, address, Text(data));
        contract.store.Set(address, Text(data));
        r := Some(Response(1, NoOut));
    }
  }

  // ----- the mining loop -----

  /** Executing the rest of the proposing block. */
  function ExecRun(c: C.Chain): C.Chain
    requires C.Valid(c)
    decreases if C.CanExec(c) then 2 * (|C.Proposed(c)| - c.idx) - (if c.half then 1 else 0) else 0
  {
    if C.CanExec(c) then
      C.ExecKeeps(c);
      ExecRun(C.ExecStep(c))
    else c
  }

  /** Executing the current transaction in one go. */
  function ExecOne(c: C.Chain): C.Chain
    requires C.CanExec(c) && !Crashes(C.Current(c).item.call)
  {
    var b, tx := c.ctx.value, C.Current(c);
    var answer := LightClient.Exec(c.client, tx.item.call, b.height);
    c.(ctx := Some(b.(txs := b.txs[c.idx := C.Answered(tx, answer.1)])), idx := c.idx + 1, half := false, client := answer.0)
  }

  /** The two steps of a header synchronisation are one call of the contract. */
  lemma TwoSteps(c: C.Chain)
    requires C.CanExec(c) && !c.half && C.Current(c).item.call.HeaderSync?
    ensures C.CanExec(C.ExecStep(c)) && C.ExecStep(C.ExecStep(c)) == ExecOne(c)
  {
  }

  lemma ExecOnce(c: C.Chain)
    requires C.Valid(c) && C.CanExec(c) && !c.half && !Crashes(C.Current(c).item.call)
    ensures C.Valid(ExecOne(c)) && ExecRun(c) == ExecRun(ExecOne(c))
  {
    C.ExecKeeps(c);
    if C.Current(c).item.call.HeaderSync? {
      var d := C.ExecStep(c);
      TwoSteps(c);
      C.ExecKeeps(d);
      assert ExecRun(c) == ExecRun(d) == ExecRun(C.ExecStep(d));
    } else {
      assert C.ExecStep(c) == ExecOne(c);
    }
  }

  class BlockchainMProc {
    const blockSize: nat
    /** Whether the indexer lives in another process, behind a proxy. */
    const proxied: bool
    const pool: SyncMemPool
    const storage: BlockStorage
    const indexer: TransactionIndexer
    const executor: Executor
    var ctx: Option<Block>
    var halted: bool
    ghost var idx: nat
    ghost var client: Client

    ghost function Repr(): set<object>
    {
      {this, pool, storage, indexer, executor, executor.contract, executor.contract.store}
    }

    /** The node as a chain. */
    ghost function View(): C.Chain
      reads this, pool, storage
    {
      C.Chain(storage.blocks, ctx, idx, false, pool.queue, client, halted)
    }

    ghost predicate Valid()
      reads Repr()
    {
      C.Valid(View()) && Represents(executor.contract.store.data, client) && LogsNotEmpty(client)
    }

    /** Stores the genesis block, and deploys the key-value contract and the light client: each
        is initialised and then stored under its address. */
    constructor (blockSize: nat, proxied: bool, pool: SyncMemPool, storage: BlockStorage, indexer: TransactionIndexer, executor: Executor,
                 baseCode: string, clientCode: string)
      requires storage.blocks == [] && HasOnly(executor.contract.store.data, 0)
      modifies storage, executor.contract.store
      ensures fresh(this) && Valid() && ctx == None && !halted
      ensures this.pool == pool && this.storage == storage && this.indexer == indexer && this.executor == executor
      ensures this.blockSize == blockSize && this.proxied == proxied
      ensures View() == C.Chain([Block(0, [])], None, 0, false, pool.queue, FRESH, false)
      ensures Lookup(executor.contract.store.data, "base") == Some(Text(baseCode))
      ensures Lookup(executor.contract.store.data, "lightclient") == Some(Text(clientCode))
    {
      this.blockSize, this.proxied, this.pool, this.storage, this.indexer, this.executor := blockSize, proxied, pool, storage, indexer, executor;
      ctx, halted, idx, client := None, false, 0, FRESH;
      new;
      hide Represents, HasOnly, Foreign;
      Addresses();
      var ok := storage.Append(Block(0, []));
      ghost var store := executor.contract.store;
      StillNothing(store.data, "base", Text(baseCode));
      executor.contract.store.Set("base", Text(baseCode));
      executor.contract.Init();
      ForeignWrite(store.data, FRESH, "lightclient", Text(clientCode));
      executor.contract.store.Set("lightclient", Text(clientCode));
    }

    /** The generated transactions, then the pool's oldest ones, up to the block size. */
    method SelectTxsFromPool(gen: seq<Tx>, t: Time) returns (txs: seq<Tx>)
      modifies pool
      ensures var n := C.Taken(|gen|, old(|pool.queue|), blockSize);
        txs == gen + C.PoppedAll(old(pool.queue)[..n], t) && pool.queue == old(pool.queue)[n..]
      ensures (|txs| >= blockSize || pool.queue == []) && (|txs| <= blockSize || txs == gen)
    {
      txs := gen;
      if |txs| >= blockSize {
        assert pool.queue[0..] == pool.queue && C.PoppedAll(pool.queue[..0], t) == [];
        return;
      }
      ghost var was, k := pool.queue, 0;
      while true
        invariant 0 <= k <= |was| && |gen| + k < blockSize
        invariant txs == gen + C.PoppedAll(was[..k], t) && pool.queue == was[k..]
        decreases |was| - k
      {
        var tx := pool.PopTx(t);
        if tx.None? {
          break;
        }
        var taken := tx.value.(status := Proposing);
        txs := txs + [taken];
        assert C.PoppedAll(was[..k + 1], t) == C.PoppedAll(was[..k], t) + [C.Popped(was[k], t)];
        k := k + 1;
        if |txs| == blockSize {
          break;
        }
      }
    }

    method ProposeBlock(gen: seq<Tx>, t: Time)
      requires Valid() && C.CanPropose(View())
      modifies this, pool
      ensures View() == C.Propose(old(View()), gen, blockSize, t) && Valid()
    {
      hide C.Valid, C.Taken, C.PoppedAll, Represents, LogsNotEmpty;
      ghost var c := View();
      C.ProposeKeeps(c, gen, blockSize, t);
      var height := storage.BlockNum();
      var txs := SelectTxsFromPool(gen, t);
      ctx := Some(Block(height + 1, txs));
      idx := 0;
      assert View() == C.Propose(c, gen, blockSize, t);
    }

    /** Executes the block's transactions in order; the status and answer of each are set in
        place. */
    method Execute()
      requires Valid() && ctx.Some? && idx == 0 && !halted
      requires executor.contract.store != this as object && pool != storage as object
      modifies this, executor.contract.store
      ensures View() == ExecRun(old(View()))
      ensures ctx.Some? && (halted || idx == |ctx.value.txs|)
      ensures Valid()
    {
      var k := 0;
      while k < |ctx.value.txs|
        invariant Valid() && ctx.Some? && idx == k <= |ctx.value.txs| && !halted
        invariant ExecRun(View()) == ExecRun(old(View()))
        decreases |ctx.value.txs| - k
      {
        var b := ctx.value;
        var tx := b.txs[k];
        var resp := executor.Execute(tx.item.call, b.height, client);
        if resp.None? {
          halted := true;
          return;
        }
        ExecOnce(View());
        ExecKeepsLogs(client, tx.item.call, b.height);
        ghost var after := ExecOne(View());
        ctx := Some(b.(txs := b.txs[k := C.Answered(tx, resp.value)]));
        client := LightClient.Exec(client, tx.item.call, b.height).0;
        idx := idx + 1;
        assert View() == after;
        k := k + 1;
      }
    }

    /** Marks, indexes and updates every transaction of the block, whatever its execution
        answered, and stores the block. An index in the same process sees the update. An unfit
        transaction raises in one of these, which ends the mining loop. */
    method Commit(t: Time)
      requires Valid() && C.CanCommit(View()) && Separate()
      modifies this, storage, indexer
      ensures View() == C.Commit(old(View()), t) && Valid() && (halted || ctx.None?)
      ensures indexer.index == IndexedBy(old(indexer.index), old(ctx.value), t, proxied)
    {
      hide C.Commit, C.Valid, Indexed, Hashable, C.CommittedAll, StampedAll, Represents;
      ghost var c := View();
      C.CommitKeeps(c, t);
      var b := ctx.value;
      var marked, txs := MarkTxs(b.txs, t);
      if !marked {
        halted := true;
        MarkingBreaks(c, t);
        return;
      }
      HashableSame(b.txs, txs);
      var hashed := IndexTxs(txs);
      if !hashed {
        halted := true;
        HashingBreaks(c, t);
        return;
      }
      assert txs[..Hashable(txs)] == txs;
      txs := UpdateTxs(txs, b.height);
      StampedThenUpdated(b.txs, txs, b.height, t);
      Reindexed(old(indexer.index), StampedAll(b.txs, t), txs);
      var encoded := EncodeTxs(b.txs);
      if !encoded {
        halted := true;
        EncodingBreaks(c, t);
        return;
      }
      NothingBreaks(c, t);
      var ok := storage.Append(b.(txs := txs));
      ctx := None;
      idx := 0;
      assert View() == C.Commit(c, t);
    }

    /** Raises when the commit times of a memo are no list. */
    method MarkTxs(was: seq<Tx>, t: Time) returns (ok: bool, txs: seq<Tx>)
      ensures ok <==> forall i | 0 <= i < |was| :: NoCommitList !in was[i].trace.flaws
      ensures ok ==> txs == StampedAll(was, t)
    {
      txs := was;
      for k := 0 to |was|
        invariant |txs| == |was|
        invariant forall i | 0 <= i < k :: txs[i] == Stamped(was[i], t) && NoCommitList !in was[i].trace.flaws
        invariant forall i | k <= i < |txs| :: txs[i] == was[i]
      {
        var tr := txs[k].trace;
        if NoCommitList in tr.flaws {
          return false, txs;
        }
        txs := txs[k := txs[k].(trace := tr.(commit := tr.commit + [t]))];
      }
      ok := true;
    }

    /** Raises at the first transaction that cannot be hashed; those before it are indexed. */
    method IndexTxs(txs: seq<Tx>) returns (ok: bool)
      modifies indexer
      ensures ok <==> Hashable(txs) == |txs|
      ensures indexer.index == Indexed(old(indexer.index), txs[..Hashable(txs)])
    {
      for k := 0 to |txs|
        invariant indexer.index == Indexed(old(indexer.index), txs[..k])
        invariant forall i | 0 <= i < k :: txs[i].item.text
      {
        if !txs[k].item.text {
          assert Hashable(txs) == k;
          return false;
        }
        assert txs[..k + 1][..k] == txs[..k];
        indexer.Store(txs[k]);
      }
      assert txs[..|txs|] == txs;
      ok := true;
    }

    /** Raises when the answer of a transaction cannot be encoded. */
    method EncodeTxs(txs: seq<Tx>) returns (ok: bool)
      ensures ok <==> forall i | 0 <= i < |txs| :: txs[i].item.call != Malformed(false)
    {
      for k := 0 to |txs|
        invariant forall i | 0 <= i < k :: txs[i].item.call != Malformed(false)
      {
        if txs[k].item.call == Malformed(false) {
          return false;
        }
      }
      ok := true;
    }

    /** Unless it is proxied, the index holds the same objects: each update is one of its entry. */
    method UpdateTxs(was: seq<Tx>, height: nat) returns (txs: seq<Tx>)
      modifies indexer
      ensures |txs| == |was| && forall i | 0 <= i < |was| :: txs[i] == was[i].(height := height, status := Success)
      ensures indexer.index == if proxied then old(indexer.index) else Indexed(old(indexer.index), txs)
    {
      txs := was;
      for k := 0 to |was|
        invariant |txs| == |was|
        invariant forall i | 0 <= i < k :: txs[i] == was[i].(height := height, status := Success)
        invariant forall i | k <= i < |txs| :: txs[i] == was[i]
        invariant indexer.index == if proxied then old(indexer.index) else Indexed(old(indexer.index), txs[..k])
      {
        ghost var before := txs[..k];
        txs := txs[k := txs[k].(height := height, status := Success)];
        assert txs[..k + 1][..k] == before;
        if !proxied {
          indexer.Store(txs[k]);
        }
      }
      assert txs[..|txs|] == txs;
    }

    /** One turn of the loop in `start`: it ends the loop when execution raises. */
    method Round(gen: seq<Tx>, t: Time, u: Time)
      requires Valid() && C.CanPropose(View()) && Separate()
      modifies this, pool, storage, indexer, executor.contract.store
      ensures View() == RoundOf(old(View()), gen, blockSize, t, u) && Valid() && (halted || ctx.None?)
    {
      ProposeBlock(gen, t);
      C.ProposeKeeps(old(View()), gen, blockSize, t);
      Execute();
      if !halted {
        Commit(u);
      }
    }

    /** The parts of a node are different objects. */
    ghost predicate Separate()
    {
      && pool as object != storage && pool as object != indexer && storage as object != indexer
      && executor.contract.store as object != pool && executor.contract.store as object != storage
      && executor.contract.store as object != indexer && executor.contract.store as object != this
      && indexer as object != this && storage as object != this && pool as object != this
    }

    /** The mining loop, for what it finds at each turn: the two flags of the status manager,
        the generated transactions and the clock. */
    method Start(ticks: seq<Tick>)
      requires Valid() && C.CanPropose(View()) && Separate()
      modifies this, pool, storage, indexer, executor.contract.store
      ensures View() == Mining(old(View()), ticks, blockSize)
      ensures halted || |storage.blocks| == |old(storage.blocks)| + |Turns(ticks)|
    {
      ghost var ops, n := MiningMines(View(), ticks, blockSize);
      var k := 0;
      while k < |ticks| && !halted && ticks[k] != Stopped
        invariant 0 <= k <= |ticks| && Valid() && (halted || ctx.None?)
        invariant Mining(View(), ticks[k..], blockSize) == Mining(old(View()), ticks, blockSize)
        decreases |ticks| - k
      {
        assert ticks[k..][1..] == ticks[k + 1..];
        if ticks[k].Turn? {
          Round(ticks[k].gen, ticks[k].t, ticks[k].u);
        }
        k := k + 1;
      }
    }
  }

  /** What the loop finds when it begins a turn: it runs and mines, it is paused, or it is stopped. */
  datatype Tick = Turn(gen: seq<Tx>, t: Time, u: Time) | Paused | Stopped

  /** One turn of the mining loop. */
  function RoundOf(c: C.Chain, gen: seq<Tx>, size: nat, t: Time, u: Time): C.Chain
    requires C.Valid(c)
  {
    if !C.CanPropose(c) then c
    else
      C.ProposeKeeps(c, gen, size, t);
      var e := ExecRun(C.Propose(c, gen, size, t));
      if C.CanCommit(e) then C.Commit(e, u) else e
  }

  lemma {:induction false} ExecRunValid(c: C.Chain)
    requires C.Valid(c)
    ensures C.Valid(ExecRun(c)) && !C.CanExec(ExecRun(c))
    ensures ExecRun(c).blocks == c.blocks && ExecRun(c).pool == c.pool
    decreases if C.CanExec(c) then 2 * (|C.Proposed(c)| - c.idx) - (if c.half then 1 else 0) else 0
  {
    if C.CanExec(c) {
      C.ExecKeeps(c);
      ExecRunValid(C.ExecStep(c));
    }
  }

  lemma RoundValid(c: C.Chain, gen: seq<Tx>, size: nat, t: Time, u: Time)
    requires C.Valid(c)
    ensures C.Valid(RoundOf(c, gen, size, t, u))
  {
    if C.CanPropose(c) {
      C.ProposeKeeps(c, gen, size, t);
      var e := ExecRun(C.Propose(c, gen, size, t));
      ExecRunValid(C.Propose(c, gen, size, t));
      if C.CanCommit(e) {
        C.CommitKeeps(e, u);
      }
    }
  }

  /** The whole loop: a pause skips a turn, a stop ends the loop, and so does a call or a
      commit that raises. */
  function Mining(c: C.Chain, ticks: seq<Tick>, size: nat): (r: C.Chain)
    requires C.Valid(c)
    ensures C.Valid(r)
    decreases |ticks|
  {
    if ticks == [] || c.halted || ticks[0].Stopped? then c
    else if ticks[0].Paused? then Mining(c, ticks[1..], size)
    else
      RoundValid(c, ticks[0].gen, size, ticks[0].t, ticks[0].u);
      Mining(RoundOf(c, ticks[0].gen, size, ticks[0].t, ticks[0].u), ticks[1..], size)
  }

  // ----- the loop is a run of the chain's operations -----

  lemma {:induction false} ExecRunMines(c: C.Chain, size: nat) returns (ops: seq<Ledger.Op>)
    requires C.Valid(c)
    ensures Ledger.Mine(c, ops, size) == Some(ExecRun(c))
    ensures forall i | 0 <= i < |ops| :: ops[i] == Ledger.Exec
    decreases if C.CanExec(c) then 2 * (|C.Proposed(c)| - c.idx) - (if c.half then 1 else 0) else 0
  {
    if C.CanExec(c) {
      C.ExecKeeps(c);
      var rest := ExecRunMines(C.ExecStep(c), size);
      Ledger.MineOne(c, Ledger.Exec, size);
      Ledger.MineConcat(c, [Ledger.Exec], rest, size);
      ops := [Ledger.Exec] + rest;
    } else {
      ops := [];
    }
  }

  /** What the operations propose, and when they commit. */
  function Proposals(ops: seq<Ledger.Op>): seq<(seq<Tx>, Time)> {
    if ops == [] then []
    else
      var last := ops[|ops| - 1];
      Proposals(ops[..|ops| - 1]) + if last.Propose? then [(last.gen, last.t)] else []
  }

  function CommitTimes(ops: seq<Ledger.Op>): seq<Time> {
    if ops == [] then []
    else
      var last := ops[|ops| - 1];
      CommitTimes(ops[..|ops| - 1]) + if last.Commit? then [last.t] else []
  }

  lemma {:induction false} OpsConcat(a: seq<Ledger.Op>, b: seq<Ledger.Op>)
    ensures Proposals(a + b) == Proposals(a) + Proposals(b) && CommitTimes(a + b) == CommitTimes(a) + CommitTimes(b)
    decreases |b|
  {
    if b == [] {
      assert a + b == a;
    } else {
      var n := |b| - 1;
      assert (a + b)[..|a| + n] == a + b[..n];
      OpsConcat(a, b[..n]);
    }
  }

  lemma {:induction false} ExecsOnly(ops: seq<Ledger.Op>)
    requires forall i | 0 <= i < |ops| :: ops[i] == Ledger.Exec
    ensures Proposals(ops) == [] && CommitTimes(ops) == []
  {
    if ops != [] {
      ExecsOnly(ops[..|ops| - 1]);
    }
  }

  lemma OneOp(op: Ledger.Op)
    ensures Proposals([op]) == (if op.Propose? then [(op.gen, op.t)] else [])
    ensures CommitTimes([op]) == (if op.Commit? then [op.t] else [])
  {
    var ops := [op];
    assert ops[..|ops| - 1] == [];
  }

  /** One proposal, then executions as far as they go. */
  lemma ProposeAndExec(c: C.Chain, gen: seq<Tx>, size: nat, t: Time) returns (ops: seq<Ledger.Op>)
    requires C.Valid(c) && C.CanPropose(c)
    ensures C.Valid(C.Propose(c, gen, size, t))
    ensures Ledger.Mine(c, ops, size) == Some(ExecRun(C.Propose(c, gen, size, t)))
    ensures forall i | 0 <= i < |ops| :: !ops[i].Admit?
    ensures Proposals(ops) == [(gen, t)] && CommitTimes(ops) == []
  {
    hide C.Propose, ExecRun, C.Valid, Proposals, CommitTimes, Ledger.Mine, C.Ledger;
    C.ProposeKeeps(c, gen, size, t);
    var p := C.Propose(c, gen, size, t);
    var execs := ExecRunMines(p, size);
    Ledger.MineOne(c, Ledger.Propose(gen, t), size);
    Ledger.MineConcat(c, [Ledger.Propose(gen, t)], execs, size);
    ops := [Ledger.Propose(gen, t)] + execs;
    OneOp(Ledger.Propose(gen, t));
    ExecsOnly(execs);
    OpsConcat([Ledger.Propose(gen, t)], execs);
  }

  /** A turn of the loop is a run: one proposal of what was generated, then executions, then one commit
      at its time, which adds one block; or else the loop has halted. */
  lemma RoundMines(c: C.Chain, gen: seq<Tx>, size: nat, t: Time, u: Time) returns (ops: seq<Ledger.Op>)
    requires C.Valid(c) && C.CanPropose(c)
    ensures Ledger.Mine(c, ops, size) == Some(RoundOf(c, gen, size, t, u))
    ensures forall i | 0 <= i < |ops| :: !ops[i].Admit?
    ensures Proposals(ops) == [(gen, t)]
    ensures var c' := RoundOf(c, gen, size, t, u);
      if c'.halted then CommitTimes(ops) <= [u] else CommitTimes(ops) == [u] && c'.ctx.None? && |c'.blocks| == |c.blocks| + 1
  {
    hide C.Propose, C.Commit, ExecRun, C.Valid, Proposals, CommitTimes, Ledger.Mine, C.Ledger, C.Executed;
    var p := C.Propose(c, gen, size, t);
    Proposing(c, gen, size, t);
    ops := ProposeAndExec(c, gen, size, t);
    ExecRunEnds(p);
    var e := ExecRun(p);
    if C.CanCommit(e) {
      ExecRunValid(p);
      C.CommitKeeps(e, u);
      CommitEnds(e, u);
      Ledger.MineOne(e, Ledger.Commit(u), size);
      Ledger.MineConcat(c, ops, [Ledger.Commit(u)], size);
      OneOp(Ledger.Commit(u));
      OpsConcat(ops, [Ledger.Commit(u)]);
      ops := ops + [Ledger.Commit(u)];
    }
  }

  lemma Proposing(c: C.Chain, gen: seq<Tx>, size: nat, t: Time)
    requires C.CanPropose(c)
    ensures var p := C.Propose(c, gen, size, t); p.ctx.Some? && !p.halted && p.idx == 0 && p.blocks == c.blocks
  {
  }

  lemma CommitEnds(c: C.Chain, u: Time)
    requires C.CanCommit(c)
    ensures C.Commit(c, u).halted || C.Commit(c, u).ctx.None?
  {
  }

  /** After executing all that can be, the block can be committed, or the loop has halted. */
  lemma {:induction false} ExecRunEnds(c: C.Chain)
    requires C.Valid(c) && c.ctx.Some?
    ensures ExecRun(c).halted || C.CanCommit(ExecRun(c))
    ensures ExecRun(c).blocks == c.blocks
    decreases if C.CanExec(c) then 2 * (|C.Proposed(c)| - c.idx) - (if c.half then 1 else 0) else 0
  {
    if C.CanExec(c) {
      C.ExecKeeps(c);
      ExecRunEnds(C.ExecStep(c));
    }
  }

  lemma TurnIdle(c: C.Chain, gen: seq<Tx>, size: nat, t: Time, u: Time)
    requires C.Valid(c) && !C.CanPropose(c)
    ensures RoundOf(c, gen, size, t, u) == c
  {
  }

  // ----- which turns the loop takes -----

  /** The turns before the first stop; a pause is no turn. */
  function Turns(ticks: seq<Tick>): (r: seq<Tick>)
    ensures forall k | 0 <= k < |r| :: r[k].Turn?
  {
    if ticks == [] || ticks[0].Stopped? then []
    else (if ticks[0].Turn? then [ticks[0]] else []) + Turns(ticks[1..])
  }

  /** What the first n turns generate and when they propose, and when they commit. */
  function Planned(turns: seq<Tick>, n: nat): seq<(seq<Tx>, Time)>
    requires n <= |turns| && forall k | 0 <= k < |turns| :: turns[k].Turn?
  {
    seq(n, k requires 0 <= k < n => (turns[k].gen, turns[k].t))
  }

  function Ends(turns: seq<Tick>, n: nat): seq<Time>
    requires n <= |turns| && forall k | 0 <= k < |turns| :: turns[k].Turn?
  {
    seq(n, k requires 0 <= k < n => turns[k].u)
  }

  /** From c on, the operations are those of the first n turns: each proposes what was generated for it
      and commits at its time, adding a block; all of them, unless the loop halted in the last. */
  ghost predicate Takes(c: C.Chain, ops: seq<Ledger.Op>, turns: seq<Tick>, n: nat, c': C.Chain)
    requires forall k | 0 <= k < |turns| :: turns[k].Turn?
  {
    && n <= |turns| && Proposals(ops) == Planned(turns, n)
    && (if c'.halted then CommitTimes(ops) <= Ends(turns, n) && |CommitTimes(ops)| >= n - 1
        else CommitTimes(ops) == Ends(turns, n) && n == |turns| && |c'.blocks| == |c.blocks| + n)
  }

  /** One more turn in front. */
  lemma TakesMore(c: C.Chain, first: seq<Ledger.Op>, mid: C.Chain, rest: seq<Ledger.Op>, turn: Tick, turns: seq<Tick>, n: nat, c': C.Chain)
    requires turn.Turn? && forall k | 0 <= k < |turns| :: turns[k].Turn?
    requires Takes(mid, rest, turns, n, c') && !mid.halted
    requires Proposals(first) == [(turn.gen, turn.t)] && CommitTimes(first) == [turn.u] && |mid.blocks| == |c.blocks| + 1
    ensures Takes(c, first + rest, [turn] + turns, n + 1, c')
  {
    hide Proposals, CommitTimes, Planned, Ends;
    OpsConcat(first, rest);
    PlannedFirst(turn, turns, n);
    EndsLength(turns, n);
    Prefixed(turn.u, CommitTimes(rest), Ends(turns, n));
  }

  lemma PlannedFirst(turn: Tick, turns: seq<Tick>, n: nat)
    requires turn.Turn? && n <= |turns| && forall k | 0 <= k < |turns| :: turns[k].Turn?
    ensures Planned([turn] + turns, n + 1) == [(turn.gen, turn.t)] + Planned(turns, n)
    ensures Ends([turn] + turns, n + 1) == [turn.u] + Ends(turns, n)
  {
  }

  lemma EndsLength(turns: seq<Tick>, n: nat)
    requires n <= |turns| && forall k | 0 <= k < |turns| :: turns[k].Turn?
    ensures |Ends(turns, n)| == n
  {
  }

  lemma Prefixed(u: Time, a: seq<Time>, b: seq<Time>)
    requires a <= b
    ensures [u] + a <= [u] + b
  {
  }

  /** The turn that halts the loop is the last. */
  lemma TakesLast(c: C.Chain, first: seq<Ledger.Op>, turn: Tick, turns: seq<Tick>, c': C.Chain)
    requires turn.Turn? && (forall k | 0 <= k < |turns| :: turns[k].Turn?) && c'.halted
    requires Proposals(first) == [(turn.gen, turn.t)] && CommitTimes(first) <= [turn.u]
    ensures Takes(c, first, [turn] + turns, 1, c')
  {
    assert Planned([turn] + turns, 1) == [(turn.gen, turn.t)] && Ends([turn] + turns, 1) == [turn.u];
  }

  lemma TakesNothing(c: C.Chain, turns: seq<Tick>)
    requires (forall k | 0 <= k < |turns| :: turns[k].Turn?) && (turns == [] || c.halted)
    ensures Takes(c, [], turns, 0, c)
  {
  }

  lemma HaltedMines(c: C.Chain, ticks: seq<Tick>, size: nat)
    requires C.Valid(c) && c.halted
    ensures Mining(c, ticks, size) == c
  {
  }

  /** The whole loop, with its pauses and its end, is a run of the chain's operations: exactly the turns
      before the first stop, in order, up to one in which it halts. */
  lemma {:induction false} MiningMines(c: C.Chain, ticks: seq<Tick>, size: nat) returns (ops: seq<Ledger.Op>, n: nat)
    requires C.Valid(c)
    ensures Ledger.Mine(c, ops, size) == Some(Mining(c, ticks, size))
    ensures forall i | 0 <= i < |ops| :: !ops[i].Admit?
    ensures c.halted || c.ctx.None? ==> Takes(c, ops, Turns(ticks), n, Mining(c, ticks, size))
    decreases |ticks|
  {
    hide RoundOf, C.Valid, Takes, Proposals, CommitTimes;
    ops, n := [], 0;
    if ticks == [] || c.halted || ticks[0].Stopped? {
      TakesNothing(c, Turns(ticks));
    } else {
      if ticks[0].Turn? && !C.CanPropose(c) {
        TurnIdle(c, ticks[0].gen, size, ticks[0].t, ticks[0].u);
        ops, n := MiningMines(c, ticks[1..], size);
      } else if ticks[0].Turn? {
        var turn := ticks[0];
        var next := RoundOf(c, turn.gen, size, turn.t, turn.u);
        RoundValid(c, turn.gen, size, turn.t, turn.u);
        assert Turns(ticks) == [turn] + Turns(ticks[1..]);
        var first := RoundMines(c, turn.gen, size, turn.t, turn.u);
        if next.halted {
          HaltedMines(next, ticks[1..], size);
          TakesLast(c, first, turn, Turns(ticks[1..]), next);
          ops, n := first, 1;
        } else {
          var rest, m := MiningMines(next, ticks[1..], size);
          Ledger.MineConcat(c, first, rest, size);
          TakesMore(c, first, next, rest, turn, Turns(ticks[1..]), m, Mining(c, ticks, size));
          ops, n := first + rest, m + 1;
        }
      } else {
        assert Turns(ticks) == Turns(ticks[1..]);
        ops, n := MiningMines(c, ticks[1..], size);
      }
    }
  }

  /** Pauses, and whatever comes after a stop, make no difference. */
  lemma {:induction false} PausesDrop(c: C.Chain, ticks: seq<Tick>, size: nat)
    requires C.Valid(c)
    ensures Mining(c, Turns(ticks), size) == Mining(c, ticks, size)
    decreases |ticks|
  {
    hide RoundOf, C.Valid;
    if c.halted {
      HaltedMines(c, ticks, size);
      HaltedMines(c, Turns(ticks), size);
    } else if ticks != [] && !ticks[0].Stopped? {
      if ticks[0].Turn? {
        RoundValid(c, ticks[0].gen, size, ticks[0].t, ticks[0].u);
        assert Turns(ticks)[1..] == Turns(ticks[1..]);
        PausesDrop(RoundOf(c, ticks[0].gen, size, ticks[0].t, ticks[0].u), ticks[1..], size);
      } else {
        assert Turns(ticks) == Turns(ticks[1..]);
        PausesDrop(c, ticks[1..], size);
      }
    }
  }
}
