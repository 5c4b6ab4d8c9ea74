/** What the steps of one chain mean for the lanes into it: users and the generator put, blocks
    are proposed, executed and committed. */
module ChainSteps {
  import opened Types
  import opened Relayer
  import opened Invariant
  import opened Frame
  import LightClient
  import C = Chain

  // ----- what a chain step means for a lane into the chain -----

  lemma PutQuiet(c: C.Chain, tx: Tx, t: Time, s: Pid, d: Pid)
    requires C.Valid(c) && tx.item.sender != Gateway(s, d)
    ensures C.Valid(C.Put(c, tx, t)) && Quiet(c, C.Put(c, tx, t), s, d)
  {
    C.PutKeeps(c, tx, t);
    PickSnoc(Sync(s, d), C.Ledger(c), tx.item);
    PickSnoc(Xtx(s, d), C.Ledger(c), tx.item);
  }

  /** Generated transactions enter the ledger before the pool; a gateway sees none of them. */
  lemma PickWithout(sel: Sel, a: seq<Item>, gen: seq<Item>, b: seq<Item>)
    requires forall i | 0 <= i < |gen| :: !Match(sel, gen[i])
    ensures Pick(sel, a + gen + b) == Pick(sel, a + b)
  {
    PickNone(sel, gen);
    PickConcat(sel, a, gen);
    PickConcat(sel, a + gen, b);
    PickConcat(sel, a, b);
  }

  lemma ProposeKeepsBlocks(c: C.Chain, gen: seq<Tx>, size: nat, t: Time, s: Pid, d: Pid)
    requires C.Valid(c) && C.CanPropose(c)
    ensures C.Propose(c, gen, size, t).client == c.client
    ensures HalfSynced(C.Propose(c, gen, size, t), s, d) == HalfSynced(c, s, d)
    ensures forall h: nat, item | InBlock(c, h, item) :: InBlock(C.Propose(c, gen, size, t), h, item)
  {
  }

  lemma ProposeQuiet(c: C.Chain, gen: seq<Tx>, size: nat, t: Time, s: Pid, d: Pid)
    requires C.Valid(c) && C.CanPropose(c)
    requires forall i | 0 <= i < |gen| :: gen[i].item.sender.User?
    ensures C.Valid(C.Propose(c, gen, size, t)) && Quiet(c, C.Propose(c, gen, size, t), s, d)
  {
    hide C.Propose, HalfSynced, InBlock;
    C.ProposeKeeps(c, gen, size, t);
    ProposeKeepsBlocks(c, gen, size, t, s, d);
    PickWithout(Sync(s, d), C.Items(C.Flat(c.blocks)), C.Items(gen), C.Items(c.pool));
    PickWithout(Xtx(s, d), C.Items(C.Flat(c.blocks)), C.Items(gen), C.Items(c.pool));
  }

  lemma CommitKeepsBlocks(c: C.Chain, t: Time, s: Pid, d: Pid)
    requires C.Valid(c) && C.CanCommit(c)
    ensures c.blocks <= C.Commit(c, t).blocks && C.Commit(c, t).client == c.client
    ensures HalfSynced(C.Commit(c, t), s, d) == HalfSynced(c, s, d)
    ensures forall h: nat, item | InBlock(c, h, item) :: InBlock(C.Commit(c, t), h, item)
  {
    if C.AllFit(c.ctx.value.txs) {
      assert C.Items(C.Commit(c, t).blocks[|c.blocks|].txs) == C.Items(C.Proposed(c));
    }
  }

  lemma CommitQuiet(c: C.Chain, t: Time, s: Pid, d: Pid)
    requires C.Valid(c) && C.CanCommit(c)
    ensures C.Valid(C.Commit(c, t)) && Quiet(c, C.Commit(c, t), s, d) && Grows(c, C.Commit(c, t))
  {
    hide C.Commit, InBlock, HalfSynced;
    C.CommitKeeps(c, t);
    CommitKeepsBlocks(c, t, s, d);
  }

  /** The current transaction synchronises no header of s. */
  predicate NotHeaderOf(c: C.Chain, s: Pid, d: Pid)
    requires C.CanExec(c)
  {
    var item := C.Current(c).item;
    !Match(Sync(s, d), item) && (item.call.HeaderSync? ==> item.sender != Gateway(s, d) && item.call.pid != s)
  }

  lemma ExecClient(c: C.Chain, s: Pid, d: Pid)
    requires C.CanExec(c) && NotHeaderOf(c, s, d)
    ensures forall h: nat :: (s, h) in C.ExecStep(c).client.headers <==> (s, h) in c.client.headers
    ensures LightClient.Maxn(C.ExecStep(c).client, s) == LightClient.Maxn(c.client, s)
  {
  }

  lemma ExecHalf(c: C.Chain, s: Pid, d: Pid)
    requires C.Valid(c) && C.CanExec(c) && NotHeaderOf(c, s, d)
    ensures HalfSynced(C.ExecStep(c), s, d) == HalfSynced(c, s, d)
  {
  }

  lemma ExecInBlock(c: C.Chain, c': C.Chain)
    requires c'.blocks == c.blocks && C.Items(C.Proposed(c')) == C.Items(C.Proposed(c)) && c'.ctx.Some?
    ensures forall h: nat, item | InBlock(c, h, item) :: InBlock(c', h, item)
  {
  }

  lemma ExecQuiet(c: C.Chain, s: Pid, d: Pid)
    requires C.Valid(c) && C.CanExec(c) && NotHeaderOf(c, s, d)
    ensures C.Valid(C.ExecStep(c)) && Quiet(c, C.ExecStep(c), s, d)
  {
    C.ExecKeeps(c);
    PickSnoc(Sync(s, d), C.Executed(c), C.Current(c).item);
    ExecClient(c, s, d);
    ExecHalf(c, s, d);
    ExecInBlock(c, C.ExecStep(c));
  }

  /** Only a header synchronisation changes the headers. */
  lemma ExecOther(c: C.Chain)
    requires C.Valid(c) && C.CanExec(c) && !C.Current(c).item.call.HeaderSync?
    ensures C.ExecStep(c).client.headers == c.client.headers && C.ExecStep(c).client.maxn == c.client.maxn
  {
  }

  // ----- executing a header synchronisation -----

  lemma PickAfter(sel: Sel, done: seq<Item>, all: seq<Item>)
    requires |done| < |all| && done <= all && Match(sel, all[|done|])
    ensures var n := |Pick(sel, done)|;
            n < |Pick(sel, all)| && Pick(sel, all)[n] == all[|done|]
  {
    var x, rest := all[|done|], all[|done| + 1..];
    assert all == (done + [x]) + rest;
    PickConcat(sel, done + [x], rest);
    PickSnoc(sel, done, x);
  }

  /** The current transaction is the first of the ledger that is not executed. */
  lemma CurrentIsNext(c: C.Chain)
    requires C.Valid(c) && C.CanExec(c)
    ensures |C.Executed(c)| < |C.Ledger(c)| && C.Executed(c) <= C.Ledger(c)
    ensures C.Ledger(c)[|C.Executed(c)|] == C.Current(c).item
  {
    C.ExecKeeps(c);
    C.ExecutedIsPrefix(c);
  }

  /** The header about to be synchronised is the next one of the source. */
  lemma NextHeader(link: Link, blocks: seq<Block>, start: nat, next: nat, alive: bool, queue: seq<Header>, c: C.Chain)
    requires C.Valid(c) && C.CanExec(c) && CarriesHeaders(link.role)
    requires Match(Sync(link.src, link.dst), C.Current(c).item)
    requires HeadersFlow(link, blocks, start, next, alive, queue, Pick(Sync(link.src, link.dst), C.Ledger(c)))
    ensures var h := start + |Pick(Sync(link.src, link.dst), C.Executed(c))|;
            h < |blocks| && C.Current(c).item == HeaderItem(link, HeaderOf(blocks[h]))
  {
    CurrentIsNext(c);
    PickAfter(Sync(link.src, link.dst), C.Executed(c), C.Ledger(c));
  }

  lemma RecordFrame(link: Link, b: Block, c: C.Chain, c': C.Chain, h: nat, born: nat)
    requires (link.src, h) in c.client.headers && RecordOk(link, b, c, h, born)
    requires (link.src, h) in c'.client.headers && c'.client.headers[(link.src, h)] == c.client.headers[(link.src, h)]
    requires c'.blocks == c.blocks && (c.ctx.Some? ==> c'.ctx.Some?) && C.Items(C.Proposed(c')) == C.Items(C.Proposed(c))
    ensures RecordOk(link, b, c', h, born)
  {
  }

  ghost predicate AtHeader(link: Link, blocks: seq<Block>, start: nat, c: C.Chain, born: nat) {
    && C.Valid(c) && C.CanExec(c) && start >= 1 && born < |c.blocks|
    && Match(Sync(link.src, link.dst), C.Current(c).item)
    && var h := start + |Pick(Sync(link.src, link.dst), C.Executed(c))|;
       h < |blocks| && blocks[h].height == h && C.Current(c).item == HeaderItem(link, HeaderOf(blocks[h]))
  }

  /** The first write stores the next header with the height of the executing block. */
  lemma StoredIn(link: Link, blocks: seq<Block>, start: nat, c: C.Chain, born: nat)
    requires AtHeader(link, blocks, start, c, born) && !c.half
    ensures var c', e := C.ExecStep(c), start + |Pick(Sync(link.src, link.dst), C.Executed(c))|;
      && c'.client == c.client.(headers := c.client.headers[(link.src, e) := LightClient.HeaderRec(HeaderOf(blocks[e]), |c.blocks|)])
      && c' == c.(client := c'.client, half := true)
      && HalfSynced(c', link.src, link.dst) && !HalfSynced(c, link.src, link.dst)
  {
  }

  lemma StoredGrows(link: Link, blocks: seq<Block>, start: nat, c: C.Chain, born: nat)
    requires AtHeader(link, blocks, start, c, born) && !c.half
    requires (link.src, start + |Pick(Sync(link.src, link.dst), C.Executed(c))|) !in c.client.headers
    ensures C.Valid(C.ExecStep(c)) && Grows(c, C.ExecStep(c))
  {
    hide C.ExecStep, C.Ledger;
    C.ExecKeeps(c);
    StoredIn(link, blocks, start, c, born);
  }

  /** The first write: the header is stored, the maximum still lags. */
  lemma HeaderWritten(link: Link, blocks: seq<Block>, start: nat, c: C.Chain, born: nat)
    requires AtHeader(link, blocks, start, c, born) && !c.half
    requires HeadersSynced(link, blocks, start, c, |Pick(Sync(link.src, link.dst), C.Executed(c))|, born)
    ensures C.Valid(C.ExecStep(c)) && Grows(c, C.ExecStep(c))
    ensures HeadersSynced(link, blocks, start, C.ExecStep(c), |Pick(Sync(link.src, link.dst), C.Executed(c))|, born)
  {
    hide C.ExecStep, C.Ledger, Grows, C.Valid;
    var c', e := C.ExecStep(c), start + |Pick(Sync(link.src, link.dst), C.Executed(c))|;
    C.ExecKeeps(c);
    StoredIn(link, blocks, start, c, born);
    StoredGrows(link, blocks, start, c, born);
    forall h | start <= h <= e ensures (link.src, h) in c'.client.headers && RecordOk(link, blocks[h], c', h, born) {
      if h < e {
        RecordFrame(link, blocks[h], c, c', h, born);
      }
    }
  }

  /** The second write only moves the counter. */
  lemma CountedIn(link: Link, blocks: seq<Block>, start: nat, c: C.Chain, born: nat)
    requires AtHeader(link, blocks, start, c, born) && c.half
    ensures var e := start + |Pick(Sync(link.src, link.dst), C.Executed(c))|;
      C.ExecStep(c).client == LightClient.WriteMaxn(c.client, link.src, e)
    ensures HalfSynced(c, link.src, link.dst) && !HalfSynced(C.ExecStep(c), link.src, link.dst)
  {
  }

  lemma CountedGrows(link: Link, blocks: seq<Block>, start: nat, c: C.Chain, born: nat)
    requires AtHeader(link, blocks, start, c, born) && c.half
    ensures C.Valid(C.ExecStep(c)) && Grows(c, C.ExecStep(c)) && C.ExecStep(c).client.headers == c.client.headers
  {
    hide C.ExecStep, C.Ledger, C.Flat, Pick, HeadersSynced;
    C.ExecKeeps(c);
    CountedIn(link, blocks, start, c, born);
  }

  /** The second write: the maximum follows, and the transaction is executed. */
  lemma HeaderCounted(link: Link, blocks: seq<Block>, start: nat, c: C.Chain, born: nat)
    requires AtHeader(link, blocks, start, c, born) && c.half
    requires HeadersSynced(link, blocks, start, c, |Pick(Sync(link.src, link.dst), C.Executed(c))|, born)
    ensures C.Valid(C.ExecStep(c)) && Grows(c, C.ExecStep(c))
    ensures HeadersSynced(link, blocks, start, C.ExecStep(c), |Pick(Sync(link.src, link.dst), C.Executed(c))| + 1, born)
  {
    hide RecordOk, InBlock, C.ExecStep, C.Ledger, Grows, C.Valid;
    var c' := C.ExecStep(c);
    var e := start + |Pick(Sync(link.src, link.dst), C.Executed(c))|;
    C.ExecKeeps(c);
    CountedIn(link, blocks, start, c, born);
    CountedGrows(link, blocks, start, c, born);
    forall h | start <= h <= e ensures (link.src, h) in c'.client.headers && RecordOk(link, blocks[h], c', h, born) {
      RecordFrame(link, blocks[h], c, c', h, born);
    }
  }

  lemma ExecCount(c: C.Chain, sel: Sel)
    requires C.Valid(c) && C.CanExec(c) && Match(sel, C.Current(c).item)
    ensures C.Valid(C.ExecStep(c))
    ensures |Pick(sel, C.Executed(C.ExecStep(c)))|
            == |Pick(sel, C.Executed(c))| + if C.Finishes(c) then 1 else 0
  {
    C.ExecKeeps(c);
    PickSnoc(sel, C.Executed(c), C.Current(c).item);
  }

  lemma HeaderStepAt(link: Link, blocks: seq<Block>, start: nat, c: C.Chain, born: nat)
    requires AtHeader(link, blocks, start, c, born)
    requires HeadersSynced(link, blocks, start, c, |Pick(Sync(link.src, link.dst), C.Executed(c))|, born)
    ensures C.Valid(C.ExecStep(c)) && Grows(c, C.ExecStep(c))
    ensures HeadersSynced(link, blocks, start, C.ExecStep(c), |Pick(Sync(link.src, link.dst), C.Executed(C.ExecStep(c)))|, born)
  {
    hide HeadersSynced, Grows, C.ExecStep, C.Ledger;
    ExecCount(c, Sync(link.src, link.dst));
    if c.half {
      HeaderCounted(link, blocks, start, c, born);
    } else {
      HeaderWritten(link, blocks, start, c, born);
    }
  }

  lemma HeaderStep(link: Link, blocks: seq<Block>, start: nat, next: nat, alive: bool, queue: seq<Header>, c: C.Chain, born: nat)
    requires C.Valid(c) && C.CanExec(c)
    requires Match(Sync(link.src, link.dst), C.Current(c).item)
    requires CarriesHeaders(link.role) && start >= 1 && born < |c.blocks|
    requires forall h | 0 <= h < |blocks| :: blocks[h].height == h
    requires HeadersFlow(link, blocks, start, next, alive, queue, Pick(Sync(link.src, link.dst), C.Ledger(c)))
    requires HeadersSynced(link, blocks, start, c, |Pick(Sync(link.src, link.dst), C.Executed(c))|, born)
    ensures C.Valid(C.ExecStep(c)) && Grows(c, C.ExecStep(c))
    ensures HeadersSynced(link, blocks, start, C.ExecStep(c), |Pick(Sync(link.src, link.dst), C.Executed(C.ExecStep(c)))|, born)
  {
    NextHeader(link, blocks, start, next, alive, queue, c);
    HeaderStepAt(link, blocks, start, c, born);
  }

  /** The lane whose header is being executed. */
  lemma HeaderLane(link: Link, blocks: seq<Block>, start: nat, next: nat, l: Lane,
                   relay: LightClient.Client, relay': LightClient.Client, c: C.Chain, born: nat)
    requires C.Valid(c) && C.CanExec(c)
    requires Match(Sync(link.src, link.dst), C.Current(c).item)
    requires CarriesHeaders(link.role) && start >= 1 && born < |c.blocks|
    requires forall h | 0 <= h < |blocks| :: blocks[h].height == h
    requires LaneHolds(link, blocks, start, next, l, relay, c, born) && ClientGrows(relay, relay')
    ensures C.Valid(C.ExecStep(c)) && Grows(c, C.ExecStep(c))
    ensures LaneHolds(link, blocks, start, next, l, relay', C.ExecStep(c), born)
  {
    HeaderStep(link, blocks, start, next, l.headerAlive, l.headerQ, c, born);
    C.ExecKeeps(c);
    WaitsFrame(link, relay, relay', c.client, C.ExecStep(c).client, l);
    SentTrustedFrame(link, relay, relay', c.client, C.ExecStep(c).client, Pick(Xtx(link.src, link.dst), C.Ledger(c)));
  }
}
