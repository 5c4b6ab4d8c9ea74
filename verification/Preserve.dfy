/** The steps of one chain keep the invariant of the whole system. */
module Preserve {
  import opened Types
  import opened Relayer
  import opened System
  import opened Invariant
  import opened Frame
  import opened ChainSteps
  import LightClient
  import C = Chain

  // ----- chain steps -----

  ghost predicate UserItems(cfg: Config, p: Pid, txs: seq<Tx>) {
    forall i | 0 <= i < |txs| :: UserItem(cfg, p, txs[i].item)
  }

  lemma PutChainOk(cfg: Config, d: Pid, c: C.Chain, tx: Tx, t: Time)
    requires ChainOk(cfg, d, c) && ItemOk(cfg, d, tx.item)
    ensures ChainOk(cfg, d, C.Put(c, tx, t)) && Grows(c, C.Put(c, tx, t))
  {
    C.PutKeeps(c, tx, t);
  }

  lemma AllOkWith(cfg: Config, d: Pid, a: seq<Item>, g: seq<Item>, b: seq<Item>)
    requires forall i | 0 <= i < |a + b| :: ItemOk(cfg, d, (a + b)[i])
    requires forall i | 0 <= i < |g| :: UserItem(cfg, d, g[i])
    ensures forall i | 0 <= i < |a + g + b| :: ItemOk(cfg, d, (a + g + b)[i])
  {
    forall i | 0 <= i < |a + g + b| ensures ItemOk(cfg, d, (a + g + b)[i]) {
      if i < |a| {
        assert (a + g + b)[i] == (a + b)[i];
      } else if i < |a| + |g| {
        assert (a + g + b)[i] == g[i - |a|];
      } else {
        assert (a + g + b)[i] == (a + b)[i - |g|];
      }
    }
  }

  lemma ProposeChainOk(cfg: Config, d: Pid, c: C.Chain, gen: seq<Tx>, size: nat, t: Time)
    requires ChainOk(cfg, d, c) && C.CanPropose(c) && UserItems(cfg, d, gen)
    ensures ChainOk(cfg, d, C.Propose(c, gen, size, t)) && Grows(c, C.Propose(c, gen, size, t))
  {
    C.ProposeKeeps(c, gen, size, t);
    AllOkWith(cfg, d, C.Items(C.Flat(c.blocks)), C.Items(gen), C.Items(c.pool));
  }

  lemma CommitChainOk(cfg: Config, d: Pid, c: C.Chain, t: Time)
    requires ChainOk(cfg, d, c) && C.CanCommit(c)
    ensures ChainOk(cfg, d, C.Commit(c, t))
  {
    C.CommitKeeps(c, t);
  }

  lemma ExecChainOk(cfg: Config, d: Pid, c: C.Chain)
    requires ChainOk(cfg, d, c) && C.CanExec(c)
    ensures ItemOk(cfg, d, C.Current(c).item) && ChainOk(cfg, d, C.ExecStep(c))
  {
    C.ExecKeeps(c);
    assert ItemOk(cfg, d, C.Ledger(c)[|C.Executed(c)|]);
    if !C.Current(c).item.call.HeaderSync? {
      ExecOther(c);
    }
  }

  lemma SetChainMoves(cfg: Config, s: Sys, s': Sys, p: Pid, c: C.Chain)
    requires Shape(cfg, s) && p in s.chains && ChainOk(cfg, p, c) && Grows(s.chains[p], c)
    requires s'.chains == s.chains[p := c] && s'.gates == s.gates
    ensures ChainMoves(cfg, s, s', p)
  {
    hide ChainOk, Grows;
  }

  /** Listeners stay where they are when only chain p moves. */
  lemma GatesStay(cfg: Config, s: Sys, s': Sys, p: Pid)
    requires Inv(cfg, s) && ChainMoves(cfg, s, s', p) && s'.gates == s.gates
    ensures forall rid {:trigger GateMoves(s, s', rid)} | IsRid(cfg, rid) :: GateMoves(s, s', rid)
  {
    forall rid | IsRid(cfg, rid) ensures GateMoves(s, s', rid) {
      assert RidOk(cfg, s, rid);
    }
  }

  lemma LaneStays(cfg: Config, s: Sys, s': Sys, p: Pid, rid: Rid, d: Pid)
    requires LaneThere(cfg, s, rid, d) && ChainMoves(cfg, s, s', p) && s'.gates == s.gates
    requires d == p ==> C.Valid(s.chains[p]) && C.Valid(s'.chains[p]) && Quiet(s.chains[p], s'.chains[p], rid.src, p)
    ensures LaneRests(cfg, s, s', p, rid, d)
  {
  }

  /** A step of one chain that every lane into the chain rests through. */
  lemma QuietChainInv(cfg: Config, s: Sys, s': Sys, p: Pid)
    requires Inv(cfg, s) && ChainMoves(cfg, s, s', p) && s'.gates == s.gates
    requires C.Valid(s.chains[p]) && C.Valid(s'.chains[p])
    requires forall q :: Quiet(s.chains[p], s'.chains[p], q, p)
    ensures Inv(cfg, s')
  {
    GatesStay(cfg, s, s', p);
    forall rid, d | IsLane(cfg, rid, d) ensures LaneRests(cfg, s, s', p, rid, d) {
      assert LaneThere(cfg, s, rid, d);
      LaneStays(cfg, s, s', p, rid, d);
    }
    FrameInv(cfg, s, s', p, {});
  }

  lemma UserPutInv(cfg: Config, s: Sys, p: Pid, tx: Tx, t: Time)
    requires Inv(cfg, s) && Enabled(cfg, s, UserPut(p, tx, t))
    ensures Inv(cfg, Apply(cfg, s, UserPut(p, tx, t)))
  {
    hide Inv, Quiet, Grows, ChainOk, Shape, ChainMoves, C.Put;
    var c, s' := s.chains[p], Apply(cfg, s, UserPut(p, tx, t));
    InvChain(cfg, s, p);
    PutChainOk(cfg, p, c, tx, t);
    forall q ensures C.Valid(C.Put(c, tx, t)) && Quiet(c, C.Put(c, tx, t), q, p) {
      PutQuiet(c, tx, t, q, p);
    }
    SetChainMoves(cfg, s, s', p, C.Put(c, tx, t));
    QuietChainInv(cfg, s, s', p);
  }

  lemma ProposeInv(cfg: Config, s: Sys, p: Pid, gen: seq<Tx>, t: Time)
    requires Inv(cfg, s) && Enabled(cfg, s, Propose(p, gen, t))
    ensures Inv(cfg, Apply(cfg, s, Propose(p, gen, t)))
  {
    hide Inv, Quiet, Grows, ChainOk, Shape, ChainMoves, C.Propose;
    var c, size, s' := s.chains[p], cfg.sizes[p], Apply(cfg, s, Propose(p, gen, t));
    InvChain(cfg, s, p);
    ProposeChainOk(cfg, p, c, gen, size, t);
    forall q ensures C.Valid(C.Propose(c, gen, size, t)) && Quiet(c, C.Propose(c, gen, size, t), q, p) {
      ProposeQuiet(c, gen, size, t, q, p);
    }
    SetChainMoves(cfg, s, s', p, C.Propose(c, gen, size, t));
    QuietChainInv(cfg, s, s', p);
  }

  lemma CommitAllQuiet(c: C.Chain, t: Time, p: Pid)
    requires C.Valid(c) && C.CanCommit(c)
    ensures C.Valid(C.Commit(c, t)) && Grows(c, C.Commit(c, t))
    ensures forall q :: Quiet(c, C.Commit(c, t), q, p)
  {
    CommitQuiet(c, t, p, p);
    forall q ensures Quiet(c, C.Commit(c, t), q, p) {
      CommitQuiet(c, t, q, p);
    }
  }

  lemma CommitInv(cfg: Config, s: Sys, p: Pid, t: Time)
    requires Inv(cfg, s) && Enabled(cfg, s, Commit(p, t))
    ensures Inv(cfg, Apply(cfg, s, Commit(p, t)))
  {
    hide Inv, Quiet, Grows, ChainOk, Shape, ChainMoves, C.Commit;
    var c, s' := s.chains[p], Apply(cfg, s, Commit(p, t));
    InvChain(cfg, s, p);
    CommitChainOk(cfg, p, c, t);
    CommitAllQuiet(c, t, p);
    SetChainMoves(cfg, s, s', p, C.Commit(c, t));
    QuietChainInv(cfg, s, s', p);
  }

  lemma ExecAllQuiet(c: C.Chain, p: Pid)
    requires C.Valid(c) && C.CanExec(c) && !C.Current(c).item.call.HeaderSync? && C.Current(c).item.kind != CtxHdr
    ensures C.Valid(C.ExecStep(c)) && Grows(c, C.ExecStep(c))
    ensures forall q :: Quiet(c, C.ExecStep(c), q, p)
  {
    ExecOther(c);
    C.ExecKeeps(c);
    forall q ensures Quiet(c, C.ExecStep(c), q, p) {
      ExecQuiet(c, q, p);
    }
  }

  /** Executing anything but a header synchronisation. */
  lemma ExecOtherInv(cfg: Config, s: Sys, p: Pid)
    requires Inv(cfg, s) && Enabled(cfg, s, Exec(p)) && !C.Current(s.chains[p]).item.call.HeaderSync?
    ensures Inv(cfg, Apply(cfg, s, Exec(p)))
  {
    hide Inv, Quiet, Grows, ChainOk, Shape, ChainMoves, C.ExecStep;
    var c, s' := s.chains[p], Apply(cfg, s, Exec(p));
    InvChain(cfg, s, p);
    ExecChainOk(cfg, p, c);
    ExecAllQuiet(c, p);
    SetChainMoves(cfg, s, s', p, C.ExecStep(c));
    QuietChainInv(cfg, s, s', p);
  }

  lemma RelayMoves(cfg: Config, s: Sys, p: Pid, c: C.Chain)
    ensures RelayClient(cfg, SetChain(s, p, c)) == if p == RELAY then c.client else RelayClient(cfg, s)
    ensures p in s.chains && p == RELAY ==> RelayClient(cfg, s) == s.chains[p].client
  {
  }

  lemma HeaderItemLane(cfg: Config, p: Pid, item: Item)
    requires ItemOk(cfg, p, item) && item.call.HeaderSync?
    ensures var rid := SyncRid(cfg, item.call.pid);
            rid.src == item.call.pid && IsLane(cfg, rid, p) && Match(Sync(rid.src, p), item)
  {
  }

  /** The lane whose header is being executed. */
  lemma HeaderExecLane(cfg: Config, s: Sys, s': Sys, p: Pid, rid: Rid)
    requires Inv(cfg, s) && p in s.chains && C.CanExec(s.chains[p])
    requires s' == SetChain(s, p, C.ExecStep(s.chains[p]))
    requires IsLane(cfg, rid, p) && rid == SyncRid(cfg, rid.src)
    requires Match(Sync(rid.src, p), C.Current(s.chains[p]).item)
    ensures C.Valid(s.chains[p]) && Grows(s.chains[p], s'.chains[p]) && LaneOk(cfg, s', rid, p)
  {
    hide LaneHolds, Grows, C.ExecStep, ChainOk;
    LaneFacts(cfg, rid, p);
    assert LaneOk(cfg, s, rid, p) && RidOk(cfg, s, rid) && RidOk(cfg, s, SyncRid(cfg, p));
    SourceHeights(cfg, rid.src, s.chains[rid.src]);
    var blocks, relay' := s.chains[rid.src].blocks, RelayClient(cfg, s');
    assert s'.chains[rid.src].blocks == blocks && s'.gates == s.gates && s'.chains[p] == C.ExecStep(s.chains[p]);
    RelayMoves(cfg, s, p, C.ExecStep(s.chains[p]));
    HeaderExecHolds(LinkOf(cfg, rid, p), blocks, s.gates[rid].start, s.gates[rid].next, LaneOf(s, rid, p),
                    RelayClient(cfg, s), relay', s.chains[p], s.gates[SyncRid(cfg, p)].start, p == RELAY);
    assert LaneThere(cfg, s', rid, p);
  }

  lemma SourceHeights(cfg: Config, p: Pid, c: C.Chain)
    requires ChainOk(cfg, p, c)
    ensures forall h | 0 <= h < |c.blocks| :: c.blocks[h].height == h
  {
    forall h | 0 <= h < |c.blocks| ensures c.blocks[h].height == h {
      assert C.BlockOk(c.blocks[h], h);
    }
  }

  lemma HeaderExecHolds(link: Link, blocks: seq<Block>, start: nat, next: nat, l: Lane,
                        relay: LightClient.Client, relay': LightClient.Client, c: C.Chain, born: nat, same: bool)
    requires C.Valid(c) && C.CanExec(c) && Match(Sync(link.src, link.dst), C.Current(c).item)
    requires CarriesHeaders(link.role) && start >= 1 && born < |c.blocks|
    requires forall h | 0 <= h < |blocks| :: blocks[h].height == h
    requires LaneHolds(link, blocks, start, next, l, relay, c, born)
    requires if same then relay == c.client && relay' == C.ExecStep(c).client else relay' == relay
    ensures C.Valid(C.ExecStep(c)) && Grows(c, C.ExecStep(c))
    ensures LaneHolds(link, blocks, start, next, l, relay', C.ExecStep(c), born)
  {
    HeaderStep(link, blocks, start, next, l.headerAlive, l.headerQ, c, born);
    HeaderLane(link, blocks, start, next, l, relay, relay', c, born);
  }

  lemma OtherLaneRests(cfg: Config, s: Sys, s': Sys, p: Pid, at: Rid, rid: Rid, d: Pid)
    requires ValidConfig(cfg) && ChainMoves(cfg, s, s', p) && s'.gates == s.gates && LaneThere(cfg, s, rid, d)
    requires C.Valid(s.chains[p]) && C.CanExec(s.chains[p]) && s'.chains[p] == C.ExecStep(s.chains[p])
    requires ItemOk(cfg, p, C.Current(s.chains[p]).item) && C.Current(s.chains[p]).item.call.HeaderSync?
    requires at == SyncRid(cfg, C.Current(s.chains[p]).item.call.pid)
    requires IsLane(cfg, rid, d) && (rid, d) != (at, p)
    ensures LaneRests(cfg, s, s', p, rid, d)
  {
    if d == p {
      if rid.src == at.src {
        OneLane(cfg, rid, at, p);
      }
      ExecQuiet(s.chains[p], rid.src, p);
    }
    LaneStays(cfg, s, s', p, rid, d);
  }

  lemma HeaderExecMoves(cfg: Config, s: Sys, s': Sys, p: Pid) returns (at: Rid)
    requires Inv(cfg, s) && p in s.chains && C.CanExec(s.chains[p]) && C.Current(s.chains[p]).item.call.HeaderSync?
    requires s' == SetChain(s, p, C.ExecStep(s.chains[p]))
    ensures C.Valid(s.chains[p]) && ItemOk(cfg, p, C.Current(s.chains[p]).item)
    ensures at == SyncRid(cfg, C.Current(s.chains[p]).item.call.pid)
    ensures ChainMoves(cfg, s, s', p) && LaneOk(cfg, s', at, p)
  {
    var c := s.chains[p];
    assert ChainOk(cfg, p, c);
    ExecChainOk(cfg, p, c);
    HeaderItemLane(cfg, p, C.Current(c).item);
    at := SyncRid(cfg, C.Current(c).item.call.pid);
    HeaderExecLane(cfg, s, s', p, at);
    SetChainMoves(cfg, s, s', p, s'.chains[p]);
  }

  /** Executing a step of a header synchronisation: one lane moves, the others rest. */
  lemma ExecHeaderInv(cfg: Config, s: Sys, s': Sys, p: Pid)
    requires Inv(cfg, s) && p in s.chains && C.CanExec(s.chains[p]) && C.Current(s.chains[p]).item.call.HeaderSync?
    requires s' == SetChain(s, p, C.ExecStep(s.chains[p]))
    ensures Inv(cfg, s')
  {
    hide LaneOk, Quiet, Grows, ChainOk, ChainMoves, C.ExecStep;
    var at := HeaderExecMoves(cfg, s, s', p);
    GatesStay(cfg, s, s', p);
    forall rid, d | IsLane(cfg, rid, d) && (rid, d) !in {(at, p)} ensures LaneRests(cfg, s, s', p, rid, d) {
      assert LaneThere(cfg, s, rid, d);
      OtherLaneRests(cfg, s, s', p, at, rid, d);
    }
    FrameInv(cfg, s, s', p, {(at, p)});
  }

  lemma ExecInv(cfg: Config, s: Sys, p: Pid)
    requires Inv(cfg, s) && Enabled(cfg, s, Exec(p))
    ensures Inv(cfg, Apply(cfg, s, Exec(p)))
  {
    if C.Current(s.chains[p]).item.call.HeaderSync? {
      ExecHeaderInv(cfg, s, Apply(cfg, s, Exec(p)), p);
    } else {
      ExecOtherInv(cfg, s, p);
    }
  }
}
