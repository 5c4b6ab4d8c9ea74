/** What the transactions are that gateways build, field by field, in every reachable state. */
module Built {
  import opened Types
  import opened System
  import opened Invariant
  import opened Frame
  import opened GatewaySteps
  import Outcome
  import Stored
  import R = Relayer
  import C = Chain

  /** A header synchronisation of a gateway carries the header of a committed block of its source, under
      the height of that block, and names the source and its class. */
  lemma HeaderCall(cfg: Config, s: Sys, d: Pid, item: Item)
    requires Inv(cfg, s) && d in s.chains && item in C.Ledger(s.chains[d]) && item.sender.Gateway? && item.kind == CtxHdr
    ensures item.call.HeaderSync?
    ensures var p, h := item.call.pid, item.call.height;
      && p in s.chains && p in cfg.classes && h < |s.chains[p].blocks|
      && item == Item(Gateway(p, d), HeaderSync(p, cfg.classes[p], h, Header(h, s.chains[p].blocks[h].txs)), true, CtxHdr, p, -1)
  {
    hide HeadersSynced, XtxsFlow, SentOk, L1First, Waits, SentTrusted, C.Ledger;
    Stored.HeaderClass(cfg, s, d, item);
    Stored.SenderIs(cfg, s, d, item);
    var rid := SyncRid(cfg, item.call.pid);
    LaneFacts(cfg, rid, d);
    LaneParts(cfg, s, rid, d);
    InvChain(cfg, s, rid.src);
    HeaderCallIn(LinkOf(cfg, rid, d), s.chains[rid.src].blocks, s.gates[rid].start, s.gates[rid].next, LaneOf(s, rid, d).headerAlive,
                 LaneOf(s, rid, d).headerQ, C.Ledger(s.chains[d]), item);
  }

  lemma HeaderCallIn(link: R.Link, blocks: seq<Block>, start: nat, next: nat, alive: bool, queue: seq<Header>, ledger: seq<Item>, item: Item)
    requires HeadersFlow(link, blocks, start, next, alive, queue, Pick(Sync(link.src, link.dst), ledger))
    requires item in ledger && Match(Sync(link.src, link.dst), item) && R.CarriesHeaders(link.role)
    requires forall h | 0 <= h < |blocks| :: C.BlockOk(blocks[h], h)
    ensures item.call.HeaderSync? && item.call.height < |blocks|
    ensures var h := item.call.height;
      item == Item(Gateway(link.src, link.dst), HeaderSync(link.src, link.srcClass, h, Header(h, blocks[h].txs)), true, CtxHdr, link.src, -1)
  {
    hide Pick, Match;
    PickComplete(Sync(link.src, link.dst), ledger, item);
    var i :| 0 <= i < |Pick(Sync(link.src, link.dst), ledger)| && Pick(Sync(link.src, link.dst), ledger)[i] == item;
    Stored.SentIsOwn(link, blocks, start, next, alive, queue, Pick(Sync(link.src, link.dst), ledger), i);
    assert C.BlockOk(blocks[start + i], start + i);
  }

  /** The class that a forwarded transaction is verified with: the source's, but in ToR the simple
      protocol when source and destination differ. */
  function VerifiedAs(cfg: Config, p: Pid, d: Pid): ChainClass
    requires p in cfg.classes && d in cfg.classes
  {
    if cfg.mode == R.ToR && cfg.classes[p] != cfg.classes[d] then Simple else cfg.classes[p]
  }

  /** A forwarded transaction has the committed one as its state, names the chain and the block of that,
      and has its memo. An L1 transaction has it as its state too, and names the relay chain. */
  lemma StateCall(cfg: Config, s: Sys, d: Pid, item: Item)
    requires Inv(cfg, s) && d in s.chains && item in C.Ledger(s.chains[d]) && item.sender.Gateway? && item.kind != CtxHdr
    ensures item.call.ValidateState?
    ensures var p, state := item.sender.owner, item.call.state;
      && p in s.chains && p in cfg.classes && d in cfg.classes
      && if item.kind == CtxDstL1 then
           && cfg.mode == R.ToR && RELAY in cfg.classes
           && item == Item(Gateway(p, d), ValidateState(RELAY, cfg.classes[RELAY], item.call.height, state), true, CtxDstL1, -1, d)
         else
           && state.height < |s.chains[p].blocks|
           && item == Item(Gateway(p, d), ValidateState(p, VerifiedAs(cfg, p, d), state.height, state), true,
                           state.item.kind, state.item.src, state.item.dst)
  {
    hide C.Ledger, Trusted, R.Expected;
    var rid := Outcome.Relayed(cfg, s, d, item);
    LaneFacts(cfg, rid, d);
  }
}
