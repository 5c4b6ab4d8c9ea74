/** One pass for all destinations against one relayer per destination: the single-destination
    relayer queues every cross-chain transaction and checks the destination when it takes one. */
module Multiplex {
  import opened Wrappers
  import opened Types
  import opened Relayer
  import opened Gateway
  import opened System
  import opened Invariant
  import opened Frame
  import opened GatewaySteps
  import Sequences
  import Order
  import Outcome
  import TraceShape
  import C = Chain

  // ----- the single-destination relayer -----

  /** Marks a transaction as listened to, and nothing else. */
  function Noticed(tx: Tx, t: Time): Tx {
    tx.(trace := tx.trace.(relayer := tx.trace.relayer + [Mark(Listened, t)]))
  }

  /** What a block adds to the one queue of the relayer. */
  function Queued(mode: Mode, role: Role, txs: seq<Tx>, t: Time): seq<Tx> {
    if txs == [] || (mode == ToR && role == Par) then []
    else
      var n := |txs| - 1;
      Queued(mode, role, txs[..n], t) + if IsXtx(txs[n]) && txs[n].status == Success then [Noticed(txs[n], t)] else []
  }

  /** `check_xtx`: the rewritten memo, or None when the transaction is not for dst. */
  function CheckXtx(mode: Mode, role: Role, src: Pid, dst: Pid, dstIsInter: bool, item: Item): Option<Item> {
    if mode == NoR || (mode == ToR && role == Pap) then
      if item.kind == CtxSrc && item.dst == dst then Some(item.(kind := CtxDst, src := src)) else None
    else if mode == AoR then
      if item.kind == CtxSrc then (if dstIsInter then Some(item.(kind := CtxInter, src := src)) else None)
      else if item.kind == CtxInter && item.dst == dst then Some(item.(kind := CtxDst, src := src))
      else None
    else None
  }

  /** What is forwarded of a queue: the transaction, and the memo that the built one gets. */
  function Forwarded(mode: Mode, role: Role, src: Pid, dst: Pid, dstIsInter: bool, queue: seq<Tx>): seq<(Tx, Item)> {
    if queue == [] then []
    else
      var n := |queue| - 1;
      var check := CheckXtx(mode, role, src, dst, dstIsInter, queue[n].item);
      Forwarded(mode, role, src, dst, dstIsInter, queue[..n]) + if check.Some? then [(queue[n], check.value)] else []
  }

  class AsyncRelayer {
    const mode: Mode
    const role: Role
    const src: Pid
    const dst: Pid
    const dstIsInter: bool
    var queueXtx: seq<Tx>

    constructor (mode: Mode, role: Role, src: Pid, dst: Pid, dstIsInter: bool)
      requires mode == ToR <==> role != Full
      ensures this.mode == mode && this.role == role && this.src == src && this.dst == dst && this.dstIsInter == dstIsInter
      ensures queueXtx == []
    {
      this.mode, this.role, this.src, this.dst, this.dstIsInter := mode, role, src, dst, dstIsInter;
      queueXtx := [];
    }

    /** It raises exactly when a transaction to be marked has marks that are no list; what came before
        it has been queued. */
    method FilterTxs(txs: seq<Tx>, t: Time) returns (ok: bool, ghost done: nat)
      modifies this
      ensures ok <==> (mode == ToR && role == Par)
                      || forall i | 0 <= i < |txs| && IsXtx(txs[i]) && txs[i].status == Success :: NoRelayerList !in txs[i].trace.flaws
      ensures done <= |txs| && queueXtx == old(queueXtx) + Queued(mode, role, txs[..done], t)
      ensures if ok then done == |txs| else done < |txs| && IsXtx(txs[done]) && txs[done].status == Success && NoRelayerList in txs[done].trace.flaws
    {
      done := |txs|;
      assert txs[..|txs|] == txs;
      if mode == ToR && role == Par {
        return true, |txs|;
      }
      for k := 0 to |txs|
        invariant queueXtx == old(queueXtx) + Queued(mode, role, txs[..k], t)
        invariant forall i | 0 <= i < k && IsXtx(txs[i]) && txs[i].status == Success :: NoRelayerList !in txs[i].trace.flaws
      {
        assert txs[..k + 1][..k] == txs[..k];
        if IsXtx(txs[k]) && txs[k].status == Success {
          if NoRelayerList in txs[k].trace.flaws {
            return false, k;
          }
          queueXtx := queueXtx + [Noticed(txs[k], t)];
        }
      }
      ok := true;
    }

    /** Takes transactions until one is to be forwarded; None when the queue runs empty. The check of
        the last one taken, and of that one only, may raise. */
    method NextXtx() returns (ok: bool, r: Option<(Tx, Item)>, ghost taken: nat)
      modifies this
      ensures taken <= |old(queueXtx)| && queueXtx == old(queueXtx)[taken..]
      ensures forall i | 0 <= i < taken ::
        ReadsDst(mode, role, old(queueXtx)[i].item.kind) && NoNumber in old(queueXtx)[i].trace.flaws <==> !ok && i == taken - 1
      ensures !ok ==> taken > 0 && r.None? && Forwarded(mode, role, src, dst, dstIsInter, old(queueXtx)[..taken - 1]) == []
      ensures ok ==>
        var all := Forwarded(mode, role, src, dst, dstIsInter, old(queueXtx));
        if r.None? then all == [] && queueXtx == []
        else all == [r.value] + Forwarded(mode, role, src, dst, dstIsInter, queueXtx)
    {
      taken := 0;
      while queueXtx != []
        invariant taken <= |old(queueXtx)| && queueXtx == old(queueXtx)[taken..]
        invariant forall i | 0 <= i < taken :: !(ReadsDst(mode, role, old(queueXtx)[i].item.kind) && NoNumber in old(queueXtx)[i].trace.flaws)
        invariant Forwarded(mode, role, src, dst, dstIsInter, old(queueXtx)[..taken]) == []
        invariant Forwarded(mode, role, src, dst, dstIsInter, old(queueXtx)) == Forwarded(mode, role, src, dst, dstIsInter, queueXtx)
        decreases |queueXtx|
      {
        var xtx := queueXtx[0];
        ForwardedFront(mode, role, src, dst, dstIsInter, queueXtx);
        queueXtx := queueXtx[1..];
        taken := taken + 1;
        assert old(queueXtx)[..taken][..taken - 1] == old(queueXtx)[..taken - 1];
        if ReadsDst(mode, role, xtx.item.kind) && NoNumber in xtx.trace.flaws {
          return false, None, taken;
        }
        var check := CheckXtx(mode, role, src, dst, dstIsInter, xtx.item);
        if check.Some? {
          return true, Some((xtx, check.value)), taken;
        }
      }
      ok, r := true, None;
    }
  }

  lemma {:induction false} ForwardedFront(mode: Mode, role: Role, src: Pid, dst: Pid, dstIsInter: bool, queue: seq<Tx>)
    requires queue != []
    ensures var check := CheckXtx(mode, role, src, dst, dstIsInter, queue[0].item);
      Forwarded(mode, role, src, dst, dstIsInter, queue)
      == (if check.Some? then [(queue[0], check.value)] else []) + Forwarded(mode, role, src, dst, dstIsInter, queue[1..])
  {
    var n := |queue| - 1;
    if n > 0 {
      ForwardedFront(mode, role, src, dst, dstIsInter, queue[..n]);
      assert queue[..n][1..] == queue[1..][..n - 1];
    } else {
      assert queue[..0] == [] && queue[1..] == [];
    }
  }

  // ----- the refinement -----

  /** The transaction with its memo rewritten, as the multiplexing relayer queues it. */
  function Rewritten(p: (Tx, Item)): Tx {
    p.0.(item := p.1)
  }

  function AllRewritten(ps: seq<(Tx, Item)>): (r: seq<Tx>)
    ensures |r| == |ps| && forall i | 0 <= i < |r| :: r[i] == Rewritten(ps[i])
  {
    seq(|ps|, i requires 0 <= i < |ps| => Rewritten(ps[i]))
  }

  /** The check made late picks what the routing picks early, with the same memo. */
  lemma CheckIsRouting(mode: Mode, role: Role, src: Pid, dst: Pid, tx: Tx, t: Time)
    requires dst != -1 && (mode == ToR <==> role != Full) && IsXtx(tx) && tx.status == Success
    ensures var check := CheckXtx(mode, role, src, dst, dst == RELAY, Noticed(tx, t).item);
      && (check.Some? <==> Target(mode, role, src, tx) == dst)
      && (check.Some? ==> Rewritten((Noticed(tx, t), check.value)) == Heard(tx, NextHop(mode, role, src, tx.item).0, t))
  {
  }

  lemma ForwardedSnoc(mode: Mode, role: Role, src: Pid, dst: Pid, dstIsInter: bool, queue: seq<Tx>, tx: Tx)
    ensures var check := CheckXtx(mode, role, src, dst, dstIsInter, tx.item);
      Forwarded(mode, role, src, dst, dstIsInter, queue + [tx])
      == Forwarded(mode, role, src, dst, dstIsInter, queue) + if check.Some? then [(tx, check.value)] else []
  {
    assert (queue + [tx])[..|queue|] == queue;
  }

  lemma RewrittenConcat(a: seq<(Tx, Item)>, b: seq<(Tx, Item)>)
    ensures AllRewritten(a + b) == AllRewritten(a) + AllRewritten(b)
  {
  }

  /** One more cross-chain transaction. */
  lemma OneMore(mode: Mode, role: Role, src: Pid, dst: Pid, routed: seq<Tx>, queue: seq<Tx>, tx: Tx, t: Time)
    requires dst != -1 && (mode == ToR <==> role != Full) && IsXtx(tx) && tx.status == Success
    requires routed == AllRewritten(Forwarded(mode, role, src, dst, dst == RELAY, queue))
    ensures AllRewritten(Forwarded(mode, role, src, dst, dst == RELAY, queue + [Noticed(tx, t)]))
            == routed + if Target(mode, role, src, tx) == dst then [Heard(tx, NextHop(mode, role, src, tx.item).0, t)] else []
  {
    var check := CheckXtx(mode, role, src, dst, dst == RELAY, Noticed(tx, t).item);
    CheckIsRouting(mode, role, src, dst, tx, t);
    ForwardedSnoc(mode, role, src, dst, dst == RELAY, queue, Noticed(tx, t));
    RewrittenConcat(Forwarded(mode, role, src, dst, dst == RELAY, queue), if check.Some? then [(Noticed(tx, t), check.value)] else []);
  }

  /** One block: what the multiplexing relayer puts in the queue of dst is, transaction by
      transaction and memo by memo, what a relayer for dst alone would forward. */
  lemma {:induction false} BlockRefines(mode: Mode, role: Role, src: Pid, dst: Pid, txs: seq<Tx>, t: Time)
    requires dst != -1 && (mode == ToR <==> role != Full)
    ensures Route(mode, role, src, dst, txs, t)
            == AllRewritten(Forwarded(mode, role, src, dst, dst == RELAY, Queued(mode, role, txs, t)))
  {
    if mode == ToR && role == Par {
      ParRoutesNothing(mode, src, dst, txs, t);
    } else if txs != [] {
      var n := |txs| - 1;
      BlockRefines(mode, role, src, dst, txs[..n], t);
      var routed, queue := Route(mode, role, src, dst, txs[..n], t), Queued(mode, role, txs[..n], t);
      if IsXtx(txs[n]) && txs[n].status == Success {
        OneMore(mode, role, src, dst, routed, queue, txs[n], t);
      } else {
        assert Queued(mode, role, txs, t) == queue && Route(mode, role, src, dst, txs, t) == routed;
      }
    }
  }

  /** What the multiplexing relayer has put in the queue of dst after a list of blocks, each
      listened to at its time. */
  function RoutedAll(mode: Mode, role: Role, src: Pid, dst: Pid, blocks: seq<(seq<Tx>, Time)>): seq<Tx> {
    if blocks == [] then []
    else
      var n := |blocks| - 1;
      RoutedAll(mode, role, src, dst, blocks[..n]) + Route(mode, role, src, dst, blocks[n].0, blocks[n].1)
  }

  function QueuedAll(mode: Mode, role: Role, blocks: seq<(seq<Tx>, Time)>): seq<Tx> {
    if blocks == [] then []
    else
      var n := |blocks| - 1;
      QueuedAll(mode, role, blocks[..n]) + Queued(mode, role, blocks[n].0, blocks[n].1)
  }

  lemma {:induction false} ForwardedConcat(mode: Mode, role: Role, src: Pid, dst: Pid, dstIsInter: bool, a: seq<Tx>, b: seq<Tx>)
    ensures Forwarded(mode, role, src, dst, dstIsInter, a + b)
            == Forwarded(mode, role, src, dst, dstIsInter, a) + Forwarded(mode, role, src, dst, dstIsInter, b)
    decreases |b|
  {
    if b == [] {
      assert a + b == a;
    } else {
      var n := |b| - 1;
      assert (a + b)[..|a| + n] == a + b[..n];
      ForwardedConcat(mode, role, src, dst, dstIsInter, a, b[..n]);
    }
  }

  /** Any list of blocks: the multiplexing relayer gives every destination the transactions, in
      the order and with the memos and marks, that a separate relayer for it forwards. */
  lemma {:induction false} MultiplexRefines(mode: Mode, role: Role, src: Pid, dst: Pid, blocks: seq<(seq<Tx>, Time)>)
    requires dst != -1 && (mode == ToR <==> role != Full)
    ensures RoutedAll(mode, role, src, dst, blocks)
            == AllRewritten(Forwarded(mode, role, src, dst, dst == RELAY, QueuedAll(mode, role, blocks)))
  {
    if blocks != [] {
      var n := |blocks| - 1;
      MultiplexRefines(mode, role, src, dst, blocks[..n]);
      BlockRefines(mode, role, src, dst, blocks[n].0, blocks[n].1);
      var before, last := QueuedAll(mode, role, blocks[..n]), Queued(mode, role, blocks[n].0, blocks[n].1);
      ForwardedConcat(mode, role, src, dst, dst == RELAY, before, last);
      RewrittenConcat(Forwarded(mode, role, src, dst, dst == RELAY, before), Forwarded(mode, role, src, dst, dst == RELAY, last));
    }
  }

  // ----- the listener in the system -----

  /** Where an item on a chain goes next, if anywhere, there is a registered destination. */
  lemma NextIsRegistered(cfg: Config, s: Sys, rid: Rid, tx: Tx)
    requires Inv(cfg, s) && IsRid(cfg, rid) && rid.src in s.chains && tx.item in C.Ledger(s.chains[rid.src])
    ensures Target(cfg.mode, rid.role, rid.src, tx) == -1 || Target(cfg.mode, rid.role, rid.src, tx) in Dsts(cfg, rid)
  {
    var item := tx.item;
    assert ChainOk(cfg, rid.src, s.chains[rid.src]);
    assert ItemOk(cfg, rid.src, item);
    if Target(cfg.mode, rid.role, rid.src, tx) != -1 {
      if cfg.mode != AoR || rid.src != RELAY {
        Order.ParaKinds(cfg, s, rid.src, item);
        assert UserItem(cfg, rid.src, item);
      } else {
        Order.RelayKinds(cfg, s, item);
        RelayedTo(cfg, s, item);
      }
    }
  }

  /** What a gateway brought to the relay chain is for a parallel chain. */
  lemma RelayedTo(cfg: Config, s: Sys, item: Item)
    requires Inv(cfg, s) && cfg.mode == AoR && RELAY in s.chains && item in C.Ledger(s.chains[RELAY]) && item.kind == CtxInter
    ensures item.dst in cfg.paras
  {
    assert ChainOk(cfg, RELAY, s.chains[RELAY]);
    assert ItemOk(cfg, RELAY, item);
    var rid := Outcome.Relayed(cfg, s, RELAY, item);
    var p, c := rid.src, s.chains[rid.src];
    LaneFacts(cfg, rid, RELAY);
    Order.SourceFits(cfg, s, rid, RELAY);
    assert ChainOk(cfg, p, c);
    var start, next := s.gates[rid].start, s.gates[rid].next;
    var all := Expected(cfg.mode, rid.role, p, RELAY, c.blocks, start, next);
    Order.ExpectedWanted(cfg.mode, rid.role, p, RELAY, c.blocks, start, next);
    var i :| 0 <= i < |all| && all[i] == ParcelOf(item.call.state);
    assert Order.ItemsOf(all)[i] == item.call.state.item;
    var k := Sequences.FilterMapSource(Order.Wanted(cfg.mode, p, RELAY), C.Items(C.Flat(c.blocks[start..next])), i);
    SliceInLedger(c, start, next, k);
    var source := C.Items(C.Flat(c.blocks[start..next]))[k];
    assert ItemOk(cfg, p, source);
    Order.ParaKinds(cfg, s, p, source);
    assert UserItem(cfg, p, source);
  }

  lemma SliceInLedger(c: C.Chain, a: nat, b: nat, k: nat)
    requires a <= b <= |c.blocks| && k < |C.Flat(c.blocks[a..b])|
    ensures C.Items(C.Flat(c.blocks[a..b]))[k] in C.Ledger(c)
  {
    var x, y, z := c.blocks[..a], c.blocks[a..b], c.blocks[b..];
    assert c.blocks == x + y + z;
    C.FlatConcat(x, y);
    C.FlatConcat(x + y, z);
    assert C.Flat(c.blocks)[|C.Flat(x)| + k] == C.Flat(y)[k];
    assert C.Ledger(c)[|C.Flat(x)| + k] == C.Items(C.Flat(y))[k];
  }

  /** In every reachable state a listener that reads any block of its source never raises, and
      the object's one pass is the system's listening step. */
  lemma ListenerNeverRaises(cfg: Config, s0: Sys, steps: seq<Step>, rid: Rid, h: nat)
    requires Init(cfg, s0) && Run(cfg, s0, steps).Some? && IsRid(cfg, rid)
    requires rid.src in Run(cfg, s0, steps).value.chains && h < |Run(cfg, s0, steps).value.chains[rid.src].blocks|
    ensures Routable(cfg.mode, rid.role, rid.src, Dsts(cfg, rid), Run(cfg, s0, steps).value.chains[rid.src].blocks[h].txs)
  {
    hide C.Flat, Target, Inv, Run, Init;
    var s := Run(cfg, s0, steps).value;
    Reachable(cfg, s0, steps);
    var txs := s.chains[rid.src].blocks[h].txs;
    forall i | 0 <= i < |txs| ensures Passes(cfg.mode, rid.role, rid.src, Dsts(cfg, rid), txs[i]) {
      Order.InFlat(s.chains[rid.src].blocks, h, i);
      var k :| 0 <= k < |C.Flat(s.chains[rid.src].blocks)| && C.Flat(s.chains[rid.src].blocks)[k] == txs[i];
      assert C.Ledger(s.chains[rid.src])[k] == txs[i].item;
      NextIsRegistered(cfg, s, rid, txs[i]);
      if IsXtx(txs[i]) {
        TraceShape.ListenedIsWellFormed(cfg, s0, steps, rid.src, txs[i]);
      }
    }
  }

  /** With the destinations of the deployment registered, every header target is registered too,
      and the queues that one pass leaves are those of the listening step. */
  lemma PassIsListening(cfg: Config, rid: Rid, g: Gate, pids: seq<Pid>, b: Block, t: Time)
    requires ValidConfig(cfg) && IsRid(cfg, rid) && g.lanes.Keys == Dsts(cfg, rid) && forall p :: p in pids <==> p in g.lanes
    ensures forall d | d in HeaderTargets(cfg.mode, rid.role, rid.src == RELAY, pids) && d != rid.src :: d in g.lanes
    ensures System.Listened(cfg, rid, g, b, t).lanes
            == XtxsOut(cfg.mode, rid.role, rid.src,
                       HeadersOut(g.lanes, HeaderTargets(cfg.mode, rid.role, rid.src == RELAY, pids), rid.src, HeaderOf(b)), b.txs, t)
  {
    var targets := HeaderTargets(cfg.mode, rid.role, rid.src == RELAY, pids);
    forall d | d in g.lanes ensures d != rid.src && (d in targets <==> CarriesHeaders(rid.role)) {
      assert IsLane(cfg, rid, d);
      LaneFacts(cfg, rid, d);
    }
    forall d | d in g.lanes
      ensures g.lanes[d].(headerQ := g.lanes[d].headerQ + if CarriesHeaders(rid.role) then [HeaderOf(b)] else [])
              == HeadersOut(g.lanes, targets, rid.src, HeaderOf(b))[d]
    {
      assert g.lanes[d].headerQ + [] == g.lanes[d].headerQ;
    }
  }
}
