/** A step changes one chain and the lanes of one gateway; every other lane keeps its part of
    the invariant. */
module Frame {
  import opened Types
  import opened Relayer
  import opened System
  import opened Invariant
  import LightClient
  import C = Chain

  ghost predicate ClientGrows(a: LightClient.Client, b: LightClient.Client) {
    && (forall k | k in a.headers :: k in b.headers && b.headers[k] == a.headers[k])
    && (forall p :: LightClient.Maxn(a, p) <= LightClient.Maxn(b, p))
  }

  ghost predicate Grows(a: C.Chain, b: C.Chain) {
    a.blocks <= b.blocks && ClientGrows(a.client, b.client)
  }

  /** From a to b nothing changes that the lane from s to d looks at, except that history grows. */
  ghost predicate Quiet(a: C.Chain, b: C.Chain, s: Pid, d: Pid)
    requires C.Valid(a) && C.Valid(b)
  {
    && Pick(Sync(s, d), C.Ledger(b)) == Pick(Sync(s, d), C.Ledger(a))
    && Pick(Xtx(s, d), C.Ledger(b)) == Pick(Xtx(s, d), C.Ledger(a))
    && Pick(Sync(s, d), C.Executed(b)) == Pick(Sync(s, d), C.Executed(a))
    && HalfSynced(b, s, d) == HalfSynced(a, s, d)
    && (forall h: nat :: (s, h) in b.client.headers <==> (s, h) in a.client.headers)
    && LightClient.Maxn(b.client, s) == LightClient.Maxn(a.client, s)
    && (forall h: nat, item | InBlock(a, h, item) :: InBlock(b, h, item))
  }

  lemma HeadersFlowFrame(link: Link, a: seq<Block>, b: seq<Block>, start: nat, next: nat, alive: bool, queue: seq<Header>, onDst: seq<Item>)
    requires HeadersFlow(link, a, start, next, alive, queue, onDst) && a <= b
    ensures HeadersFlow(link, b, start, next, alive, queue, onDst)
  {
    if CarriesHeaders(link.role) {
      var n := start + |onDst|;
      assert Headers(a, n, next) == Headers(b, n, next);
    }
  }

  lemma HeadersSyncedFrame(link: Link, blocks: seq<Block>, blocks': seq<Block>, start: nat, a: C.Chain, b: C.Chain, n: nat, born: nat)
    requires C.Valid(a) && C.Valid(b) && blocks <= blocks'
    requires HeadersSynced(link, blocks, start, a, n, born)
    requires Quiet(a, b, link.src, link.dst) && Grows(a, b)
    ensures HeadersSynced(link, blocks', start, b, n, born)
  {
    var w := n + if HalfSynced(a, link.src, link.dst) then 1 else 0;
    forall h | start <= h < start + w ensures (link.src, h) in b.client.headers && RecordOk(link, blocks'[h], b, h, born) {
      assert RecordOk(link, blocks[h], a, h, born);
    }
  }

  lemma XtxsFlowFrame(link: Link, a: seq<Block>, b: seq<Block>, start: nat, next: nat, pc: Pc, queue: seq<Tx>, onDst: seq<Item>)
    requires XtxsFlow(link, a, start, next, pc, queue, onDst) && a <= b
    ensures XtxsFlow(link, b, start, next, pc, queue, onDst)
  {
    if CarriesXtxs(link.role) {
      ExpectedOfPrefix(link.mode, link.role, link.src, link.dst, a, b, start, next);
    }
  }

  lemma TrustedFrame(link: Link, relay: LightClient.Client, relay': LightClient.Client,
                     dst: LightClient.Client, dst': LightClient.Client, h: nat)
    requires Trusted(link, relay, dst, h) && ClientGrows(relay, relay') && ClientGrows(dst, dst')
    ensures Trusted(link, relay', dst', h)
  {
    var target: nat :| Awaits(link, relay, h, target) && target <= LightClient.Maxn(dst, Watched(link));
    assert Awaits(link, relay', h, target);
  }

  lemma WaitsFrame(link: Link, relay: LightClient.Client, relay': LightClient.Client,
                   dst: LightClient.Client, dst': LightClient.Client, l: Lane)
    requires Waits(link, relay, dst, l) && ClientGrows(relay, relay') && ClientGrows(dst, dst')
    ensures Waits(link, relay', dst', l)
  {
    if l.pc.Cleared? {
      TrustedFrame(link, relay, relay', dst, dst', l.pc.xtx.height);
    }
  }

  lemma SentTrustedFrame(link: Link, relay: LightClient.Client, relay': LightClient.Client,
                         dst: LightClient.Client, dst': LightClient.Client, onDst: seq<Item>)
    requires SentTrusted(link, relay, dst, onDst) && ClientGrows(relay, relay') && ClientGrows(dst, dst')
    ensures SentTrusted(link, relay', dst', onDst)
  {
    forall i | 0 <= i < |onDst| ensures Trusted(link, relay', dst', About(onDst[i])) {
      TrustedFrame(link, relay, relay', dst, dst', About(onDst[i]));
    }
  }

  lemma LaneFacts(cfg: Config, rid: Rid, d: Pid)
    requires ValidConfig(cfg) && IsLane(cfg, rid, d)
    ensures rid.src in AllPids(cfg) && d in AllPids(cfg) && rid.src != d
    ensures IsRid(cfg, SyncRid(cfg, rid.src)) && IsRid(cfg, SyncRid(cfg, d))
    ensures CarriesHeaders(rid.role) ==> rid == SyncRid(cfg, rid.src)
    ensures rid.role == Pap ==> RELAY in AllPids(cfg) && cfg.mode == ToR && d in cfg.paras
  {
  }

  /** One lane of a later state in which nothing but history has changed for it. */
  lemma LaneFrame(link: Link, blocks: seq<Block>, blocks': seq<Block>, start: nat, next: nat, l: Lane,
                  relay: LightClient.Client, relay': LightClient.Client, c: C.Chain, c': C.Chain, born: nat)
    requires C.Valid(c) && C.Valid(c')
    requires LaneHolds(link, blocks, start, next, l, relay, c, born)
    requires blocks <= blocks' && ClientGrows(relay, relay')
    requires Quiet(c, c', link.src, link.dst) && Grows(c, c')
    ensures LaneHolds(link, blocks', start, next, l, relay', c', born)
  {
    var onDst := Pick(Xtx(link.src, link.dst), C.Ledger(c));
    HeadersFlowFrame(link, blocks, blocks', start, next, l.headerAlive, l.headerQ, Pick(Sync(link.src, link.dst), C.Ledger(c)));
    if CarriesHeaders(link.role) {
      HeadersSyncedFrame(link, blocks, blocks', start, c, c', |Pick(Sync(link.src, link.dst), C.Executed(c))|, born);
    }
    XtxsFlowFrame(link, blocks, blocks', start, next, l.pc, l.xtxQ, onDst);
    WaitsFrame(link, relay, relay', c.client, c'.client, l);
    SentTrustedFrame(link, relay, relay', c.client, c'.client, onDst);
  }

  /** At most chain p differs, and only by going on. */
  ghost predicate ChainMoves(cfg: Config, s: Sys, s': Sys, p: Pid) {
    && Shape(cfg, s') && p in s.chains && p in s'.chains
    && s'.chains == s.chains[p := s'.chains[p]]
    && ChainOk(cfg, p, s'.chains[p]) && Grows(s.chains[p], s'.chains[p])
  }

  /** Listeners keep their start and never read past the last block. */
  ghost predicate GateMoves(s: Sys, s': Sys, rid: Rid) {
    && rid in s.gates && rid in s'.gates && rid.src in s'.chains
    && s'.gates[rid].start == s.gates[rid].start
    && s.gates[rid].next <= s'.gates[rid].next <= |s'.chains[rid.src].blocks|
  }

  ghost predicate LaneRests(cfg: Config, s: Sys, s': Sys, p: Pid, rid: Rid, d: Pid) {
    && LaneThere(cfg, s, rid, d) && LaneThere(cfg, s', rid, d)
    && s'.gates[rid].next == s.gates[rid].next && LaneOf(s', rid, d) == LaneOf(s, rid, d)
    && (d == p ==> Quiet(s.chains[p], s'.chains[p], rid.src, p))
  }

  lemma QuietRefl(c: C.Chain, s: Pid, d: Pid)
    requires C.Valid(c)
    ensures Quiet(c, c, s, d) && Grows(c, c)
  {
  }

  lemma LaneRestsOk(cfg: Config, s: Sys, s': Sys, p: Pid, rid: Rid, d: Pid)
    requires Inv(cfg, s) && ChainMoves(cfg, s, s', p) && IsLane(cfg, rid, d)
    requires GateMoves(s, s', rid) && GateMoves(s, s', SyncRid(cfg, d))
    requires LaneRests(cfg, s, s', p, rid, d)
    ensures LaneOk(cfg, s', rid, d)
  {
    hide LaneHolds, Quiet, C.Valid, ChainOk;
    LaneFacts(cfg, rid, d);
    assert LaneOk(cfg, s, rid, d);
    QuietRefl(s.chains[d], rid.src, d);
    LaneFrame(LinkOf(cfg, rid, d), s.chains[rid.src].blocks, s'.chains[rid.src].blocks,
              s.gates[rid].start, s.gates[rid].next, LaneOf(s, rid, d), RelayClient(cfg, s), RelayClient(cfg, s'),
              s.chains[d], s'.chains[d], s.gates[SyncRid(cfg, d)].start);
  }

  /** A state reached by moving one chain: lanes that rest keep the invariant, the moved ones
      have to bring it along. */
  lemma FrameInv(cfg: Config, s: Sys, s': Sys, p: Pid, moved: set<(Rid, Pid)>)
    requires Inv(cfg, s) && ChainMoves(cfg, s, s', p)
    requires forall rid {:trigger GateMoves(s, s', rid)} | IsRid(cfg, rid) :: GateMoves(s, s', rid)
    requires forall rid, d {:trigger LaneRests(cfg, s, s', p, rid, d)} | IsLane(cfg, rid, d) && (rid, d) !in moved ::
      LaneRests(cfg, s, s', p, rid, d)
    requires forall rid, d {:trigger LaneOk(cfg, s', rid, d)} | IsLane(cfg, rid, d) && (rid, d) in moved ::
      LaneOk(cfg, s', rid, d)
    ensures Inv(cfg, s')
  {
    forall rid | IsRid(cfg, rid) ensures RidOk(cfg, s', rid) {
      assert RidOk(cfg, s, rid) && GateMoves(s, s', rid) && GateMoves(s, s', SyncRid(cfg, rid.src));
    }
    forall rid, d | IsLane(cfg, rid, d) ensures LaneOk(cfg, s', rid, d) {
      if (rid, d) !in moved {
        LaneFacts(cfg, rid, d);
        assert LaneRests(cfg, s, s', p, rid, d) && GateMoves(s, s', rid) && GateMoves(s, s', SyncRid(cfg, d));
        LaneRestsOk(cfg, s, s', p, rid, d);
      }
    }
    forall rid, d | IsLane(cfg, rid, d) ensures LaneThere(cfg, s', rid, d) {
      assert LaneOk(cfg, s', rid, d);
    }
  }

  /** A gateway source has one lane into a chain. */
  lemma OneLane(cfg: Config, a: Rid, b: Rid, d: Pid)
    requires ValidConfig(cfg) && IsLane(cfg, a, d) && IsLane(cfg, b, d) && a.src == b.src
    ensures a == b
  {
  }
}
