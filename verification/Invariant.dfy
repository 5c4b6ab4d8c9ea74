/** What every reachable state of the cross-chain system satisfies, lane by lane. */
module Invariant {
  import opened Types
  import opened Relayer
  import opened System
  import LightClient
  import C = Chain

  // ----- picking what one gateway put on one chain -----

  /** The items of one sender: its header synchronisations, or everything else. */
  datatype Sel = Sel(who: Sender, headers: bool)

  predicate Match(sel: Sel, item: Item) {
    item.sender == sel.who && (item.kind == CtxHdr) == sel.headers
  }

  function Pick(sel: Sel, items: seq<Item>): (r: seq<Item>)
    ensures |r| <= |items|
    ensures forall i | 0 <= i < |r| :: r[i] in items && Match(sel, r[i])
  {
    if items == [] then []
    else
      var n := |items| - 1;
      Pick(sel, items[..n]) + if Match(sel, items[n]) then [items[n]] else []
  }

  lemma {:induction false} PickConcat(sel: Sel, a: seq<Item>, b: seq<Item>)
    ensures Pick(sel, a + b) == Pick(sel, a) + Pick(sel, b)
    decreases |b|
  {
    if b == [] {
      assert a + b == a;
    } else {
      var n := |b| - 1;
      assert (a + b)[..|a| + n] == a + b[..n];
      PickConcat(sel, a, b[..n]);
    }
  }

  lemma PickSnoc(sel: Sel, a: seq<Item>, x: Item)
    ensures Pick(sel, a + [x]) == if Match(sel, x) then Pick(sel, a) + [x] else Pick(sel, a)
  {
    assert (a + [x])[..|a|] == a;
  }

  lemma {:induction false} PickNone(sel: Sel, a: seq<Item>)
    requires forall i | 0 <= i < |a| :: !Match(sel, a[i])
    ensures Pick(sel, a) == []
  {
    if a != [] {
      PickNone(sel, a[..|a| - 1]);
    }
  }

  lemma {:induction false} PickComplete(sel: Sel, a: seq<Item>, x: Item)
    requires x in a && Match(sel, x)
    ensures x in Pick(sel, a)
  {
    var n := |a| - 1;
    if a[n] != x {
      assert x in a[..n];
      PickComplete(sel, a[..n], x);
    }
  }

  function Sync(s: Pid, d: Pid): Sel {
    Sel(Gateway(s, d), true)
  }

  function Xtx(s: Pid, d: Pid): Sel {
    Sel(Gateway(s, d), false)
  }

  // ----- headers -----

  /** The headers of the source, in order and each once: on the destination, then queued. */
  ghost predicate HeadersFlow(link: Link, blocks: seq<Block>, start: nat, next: nat, alive: bool, queue: seq<Header>, onDst: seq<Item>) {
    if CarriesHeaders(link.role) then
      && start + |onDst| <= next <= |blocks|
      && (forall i | 0 <= i < |onDst| :: onDst[i] == HeaderItem(link, HeaderOf(blocks[start + i])))
      && (alive ==> queue == Headers(blocks, start + |onDst|, next))
    else onDst == [] && queue == []
  }

  /** Where an item executed in block `height` is: in that committed block, or in the
      proposing block. */
  ghost predicate InBlock(c: C.Chain, height: nat, item: Item) {
    if height < |c.blocks| then height >= 1 && item in C.Items(c.blocks[height].txs)
    else height == |c.blocks| && c.ctx.Some? && item in C.Items(C.Proposed(c))
  }

  /** Whether the first write of the current header synchronisation has been done for source s. */
  predicate HalfSynced(c: C.Chain, s: Pid, d: Pid) {
    c.half && c.ctx.Some? && c.idx < |C.Proposed(c)| && C.Proposed(c)[c.idx].item.sender == Gateway(s, d)
  }

  /** The synced headers of the source are exactly those whose synchronisation was executed,
      each recorded with the height of the block that executed it. */
  ghost predicate HeadersSynced(link: Link, blocks: seq<Block>, start: nat, c: C.Chain, executed: nat, born: nat) {
    var w := executed + if HalfSynced(c, link.src, link.dst) then 1 else 0;
    && start + w <= |blocks|
    && (forall h: nat :: (link.src, h) in c.client.headers <==> start <= h < start + w)
    && (forall h | start <= h < start + w :: RecordOk(link, blocks[h], c, h, born))
    && LightClient.Maxn(c.client, link.src) == if executed == 0 then 0 else start + executed - 1
  }

  ghost predicate RecordOk(link: Link, b: Block, c: C.Chain, h: nat, born: nat)
    requires (link.src, h) in c.client.headers
  {
    var r := c.client.headers[(link.src, h)];
    r.header == HeaderOf(b) && r.csHeight > born && InBlock(c, r.csHeight, HeaderItem(link, HeaderOf(b)))
  }

  // ----- transactions -----

  /** The parcels that a sequence of sent items carries; L1 items carry none of their own. */
  function Carried(items: seq<Item>): seq<Parcel> {
    if items == [] then []
    else
      var n := |items| - 1;
      var last := items[n];
      Carried(items[..n]) + if last.call.ValidateState? && last.kind != CtxDstL1 then [ParcelOf(last.call.state)] else []
  }

  /** The parcels of the source for this destination, in order and each once: on the
      destination, in the consumer's hand, then queued. */
  ghost predicate XtxsFlow(link: Link, blocks: seq<Block>, start: nat, next: nat, pc: Pc, queue: seq<Tx>, onDst: seq<Item>) {
    if CarriesXtxs(link.role) then
      && start <= next <= |blocks|
      && Expected(link.mode, link.role, link.src, link.dst, blocks, start, next)
         == Carried(onDst) + InHand(pc) + Parcels(queue)
      && (pc.Idle? || pc.tx.item == XtxItem(link, pc.xtx))
    else onDst == [] && queue == [] && pc.Idle?
  }

  predicate IsL1(item: Item) {
    item.kind == CtxDstL1
  }

  /** What a gateway sends besides headers: forwarded transactions, and L1 transactions. */
  ghost predicate SentOk(link: Link, item: Item) {
    && item.call.ValidateState?
    && (IsL1(item) ==> link.role == Pap && item == L1Item(link, item.call.height, item.call.state))
    && (!IsL1(item) ==> item == XtxItem(link, item.call.state))
  }

  /** The source height that a sent item is about. */
  function About(item: Item): nat {
    if item.call.ValidateState? then item.call.state.height else 0
  }

  /** Each source height has at most one L1 transaction, and no transaction of a height goes
      out before its L1 transaction. */
  ghost predicate L1First(link: Link, l1Sent: set<nat>, onDst: seq<Item>)
  {
    link.role == Pap ==>
      && (forall h :: h in l1Sent <==> exists i :: 0 <= i < |onDst| && IsL1(onDst[i]) && About(onDst[i]) == h)
      && (forall i, j | 0 <= i < j < |onDst| && IsL1(onDst[i]) && IsL1(onDst[j]) :: About(onDst[i]) != About(onDst[j]))
      && (forall j | 0 <= j < |onDst| && !IsL1(onDst[j]) ::
            exists i :: 0 <= i < j && IsL1(onDst[i]) && About(onDst[i]) == About(onDst[j]))
  }

  // ----- waiting for headers -----

  /** The height that the destination must have synced before height h of the source may be
      relied on: h itself, or the relay-chain block that confirmed header h. */
  ghost predicate Awaits(link: Link, relay: LightClient.Client, h: nat, target: nat) {
    if link.role == Pap then
      (link.src, h) in relay.headers && relay.headers[(link.src, h)].csHeight == target && target >= 1
    else target == h
  }

  /** Height h of the source may be relied on at the destination. */
  ghost predicate Trusted(link: Link, relay: LightClient.Client, dst: LightClient.Client, h: nat) {
    exists target: nat :: Awaits(link, relay, h, target) && target <= LightClient.Maxn(dst, Watched(link))
  }

  /** The consumer's caches never run ahead of the chains they cache, and what it is about to
      send is trusted. */
  ghost predicate Waits(link: Link, relay: LightClient.Client, dst: LightClient.Client, l: Lane) {
    && l.synced <= LightClient.Maxn(dst, Watched(link))
    && (link.role == Pap ==> l.syncedInter <= LightClient.Maxn(relay, link.src))
    && (forall h | h in l.csMemo :: link.role == Pap && Awaits(link, relay, h, l.csMemo[h]))
    && (l.pc.Waiting? ==> link.role == Pap)
    && (link.role == Pap && (l.pc.Confirmed? || l.pc.Cleared?) ==> l.pc.xtx.height <= l.syncedInter)
    && (l.pc.Confirmed? ==> Awaits(link, relay, l.pc.xtx.height, l.pc.target))
    && (l.pc.Cleared? ==> Trusted(link, relay, dst, l.pc.xtx.height)
                          && (link.role == Pap ==> l.pc.xtx.height in l.l1Sent))
  }

  /** Everything that has been sent is trusted, and every L1 transaction names the relay-chain
      height that confirmed its source header. */
  ghost predicate SentTrusted(link: Link, relay: LightClient.Client, dst: LightClient.Client, onDst: seq<Item>) {
    forall i | 0 <= i < |onDst| ::
      && Trusted(link, relay, dst, About(onDst[i]))
      && (IsL1(onDst[i]) ==> onDst[i].call.ValidateState? && Awaits(link, relay, About(onDst[i]), onDst[i].call.height))
  }

  // ----- the whole -----

  /** The gateway that synchronises the headers of a chain. */
  function SyncRid(cfg: Config, p: Pid): Rid {
    Rid(p, if cfg.mode == ToR then Par else Full)
  }

  /** Whether the headers of s are synchronised on d. */
  predicate Syncs(cfg: Config, s: Pid, d: Pid) {
    IsLane(cfg, SyncRid(cfg, s), d)
  }

  /** The relay chain's light client; in NoR nothing reads it. */
  function RelayClient(cfg: Config, s: Sys): LightClient.Client {
    if RELAY in s.chains then s.chains[RELAY].client else LightClient.FRESH
  }

  /** Items that chain d may hold: of users, or of a gateway that serves d. */
  ghost predicate ItemOk(cfg: Config, d: Pid, item: Item) {
    match item.sender
    case User(_) => UserItem(cfg, d, item)
    case Gateway(s, d') =>
      && d' == d
      && (if item.kind == CtxHdr then Syncs(cfg, s, d) && item.call.HeaderSync? && item.call.pid == s && item.call.height >= 1
          else item.call.ValidateState? && exists role :: IsLane(cfg, Rid(s, role), d) && CarriesXtxs(role))
  }

  ghost predicate ChainOk(cfg: Config, d: Pid, c: C.Chain) {
    && C.Valid(c)
    && (forall i | 0 <= i < |C.Ledger(c)| :: ItemOk(cfg, d, C.Ledger(c)[i]))
    && (forall p: Pid, h: nat | !Syncs(cfg, p, d) :: (p, h) !in c.client.headers)
    && (forall p | !Syncs(cfg, p, d) :: LightClient.Maxn(c.client, p) == 0)
  }

  ghost predicate LaneHolds(link: Link, blocks: seq<Block>, start: nat, next: nat, l: Lane,
                            relay: LightClient.Client, c: C.Chain, born: nat)
    requires C.Valid(c)
  {
    var onDst := Pick(Xtx(link.src, link.dst), C.Ledger(c));
    && HeadersFlow(link, blocks, start, next, l.headerAlive, l.headerQ, Pick(Sync(link.src, link.dst), C.Ledger(c)))
    && (CarriesHeaders(link.role) ==>
          HeadersSynced(link, blocks, start, c, |Pick(Sync(link.src, link.dst), C.Executed(c))|, born))
    && XtxsFlow(link, blocks, start, next, l.pc, l.xtxQ, onDst)
    && (forall i | 0 <= i < |onDst| :: SentOk(link, onDst[i]))
    && L1First(link, l.l1Sent, onDst)
    && Waits(link, relay, c.client, l)
    && SentTrusted(link, relay, c.client, onDst)
  }

  ghost predicate LaneThere(cfg: Config, s: Sys, rid: Rid, d: Pid) {
    LaneExists(s, rid, d) && C.Valid(s.chains[d]) && SyncRid(cfg, d) in s.gates
  }

  ghost predicate LaneOk(cfg: Config, s: Sys, rid: Rid, d: Pid) {
    && LaneThere(cfg, s, rid, d)
    && LaneHolds(LinkOf(cfg, rid, d), s.chains[rid.src].blocks, s.gates[rid].start, s.gates[rid].next,
                 LaneOf(s, rid, d), RelayClient(cfg, s), s.chains[d], s.gates[SyncRid(cfg, d)].start)
  }

  /** Listeners begin at height 1 or later, all gateways of one source at the same height, and
      never after the blocks that exist. */
  ghost predicate StartOk(cfg: Config, s: Sys, rid: Rid)
    requires rid in s.gates && rid.src in s.chains && SyncRid(cfg, rid.src) in s.gates
  {
    var g := s.gates[rid];
    && 1 <= g.start <= g.next <= |s.chains[rid.src].blocks|
    && g.start < |s.chains[rid.src].blocks|
    && g.start == s.gates[SyncRid(cfg, rid.src)].start
  }

  ghost predicate Inv(cfg: Config, s: Sys) {
    && ValidConfig(cfg) && Shape(cfg, s)
    && (forall d {:trigger ChainOk(cfg, d, s.chains[d])} | d in s.chains :: ChainOk(cfg, d, s.chains[d]))
    && (forall rid {:trigger RidOk(cfg, s, rid)} | IsRid(cfg, rid) :: RidOk(cfg, s, rid))
    && (forall rid, d {:trigger LaneThere(cfg, s, rid, d)} | IsLane(cfg, rid, d) :: LaneThere(cfg, s, rid, d))
    && (forall rid, d {:trigger LaneOk(cfg, s, rid, d)} | IsLane(cfg, rid, d) :: LaneOk(cfg, s, rid, d))
  }

  ghost predicate RidOk(cfg: Config, s: Sys, rid: Rid) {
    rid in s.gates && rid.src in s.chains && SyncRid(cfg, rid.src) in s.gates && StartOk(cfg, s, rid)
  }

  lemma InvChain(cfg: Config, s: Sys, p: Pid)
    requires Inv(cfg, s) && p in s.chains
    ensures ValidConfig(cfg) && Shape(cfg, s) && C.Valid(s.chains[p]) && ChainOk(cfg, p, s.chains[p])
  {
    assert ChainOk(cfg, p, s.chains[p]);
  }
}
