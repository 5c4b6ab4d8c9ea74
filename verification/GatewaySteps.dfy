/** The steps of gateways keep the invariant of the whole system. */
module GatewaySteps {
  import opened Wrappers
  import opened Types
  import opened System
  import opened Invariant
  import opened Frame
  import opened ChainSteps
  import opened Preserve
  import opened LaneSteps
  import LightClient
  import R = Relayer
  import C = Chain

  // ----- putting a lane's part together again -----

  lemma ShapeLane(cfg: Config, s: Sys, rid: Rid, d: Pid)
    requires ValidConfig(cfg) && Shape(cfg, s) && LaneExists(s, rid, d)
    ensures IsLane(cfg, rid, d)
  {
  }

  /** The state after one lane, and at most the pool of its destination, changed. */
  ghost predicate LaneMoved(s: Sys, s': Sys, rid: Rid, d: Pid, l: R.Lane, c: C.Chain) {
    && rid in s.gates && d in s.gates[rid].lanes && d in s.chains
    && s'.gates == SetLane(s, rid, d, l).gates
    && s'.chains == s.chains[d := c]
    && c.client == s.chains[d].client && c.blocks == s.chains[d].blocks
  }

  lemma MovedLaneOk(cfg: Config, s: Sys, s': Sys, rid: Rid, d: Pid, l: R.Lane, c: C.Chain)
    requires ValidConfig(cfg) && Shape(cfg, s) && IsLane(cfg, rid, d) && LaneThere(cfg, s, rid, d)
    requires LaneMoved(s, s', rid, d, l, c) && C.Valid(c)
    requires LaneHolds(LinkOf(cfg, rid, d), s.chains[rid.src].blocks, s.gates[rid].start, s.gates[rid].next,
                       l, RelayClient(cfg, s), c, s.gates[SyncRid(cfg, d)].start)
    ensures LaneOk(cfg, s', rid, d)
  {
    hide LaneHolds, C.Valid;
    LaneFacts(cfg, rid, d);
    assert RelayClient(cfg, s') == RelayClient(cfg, s);
    assert s'.gates[SyncRid(cfg, d)].start == s.gates[SyncRid(cfg, d)].start;
    assert LaneThere(cfg, s', rid, d);
  }

  lemma MovedGates(cfg: Config, s: Sys, s': Sys, rid: Rid, d: Pid, l: R.Lane, c: C.Chain)
    requires Inv(cfg, s) && LaneMoved(s, s', rid, d, l, c)
    ensures Shape(cfg, s')
    ensures forall r {:trigger GateMoves(s, s', r)} | IsRid(cfg, r) :: GateMoves(s, s', r)
  {
    forall r | IsRid(cfg, r) ensures GateMoves(s, s', r) {
      assert RidOk(cfg, s, r);
    }
  }

  lemma OtherLaneStays(cfg: Config, s: Sys, s': Sys, rid: Rid, d: Pid, l: R.Lane, c: C.Chain, r: Rid, e: Pid)
    requires LaneThere(cfg, s, r, e) && LaneMoved(s, s', rid, d, l, c) && C.Valid(c) && C.Valid(s.chains[d])
    requires e == d ==> Quiet(s.chains[d], c, r.src, d)
    requires (r, e) != (rid, d)
    ensures LaneRests(cfg, s, s', d, r, e)
  {
  }

  lemma MovedChain(cfg: Config, s: Sys, s': Sys, rid: Rid, d: Pid, l: R.Lane, c: C.Chain)
    requires LaneMoved(s, s', rid, d, l, c) && Shape(cfg, s') && ChainOk(cfg, d, c)
    ensures ChainMoves(cfg, s, s', d) && s'.chains[d] == c
  {
    hide ChainOk, Shape;
  }

  lemma OthersStay(cfg: Config, s: Sys, s': Sys, rid: Rid, d: Pid, l: R.Lane, c: C.Chain, r: Rid, e: Pid)
    requires ValidConfig(cfg) && LaneThere(cfg, s, r, e) && LaneMoved(s, s', rid, d, l, c) && C.Valid(c) && C.Valid(s.chains[d])
    requires IsLane(cfg, rid, d) && IsLane(cfg, r, e) && (r, e) != (rid, d)
    requires forall q | q != rid.src :: Quiet(s.chains[d], c, q, d)
    ensures LaneRests(cfg, s, s', d, r, e)
  {
    hide Quiet, LaneMoved, C.Valid;
    if e == d && r.src == rid.src {
      OneLane(cfg, r, rid, d);
    }
    OtherLaneStays(cfg, s, s', rid, d, l, c, r, e);
  }

  /** A step of one lane: its own part of the invariant is enough. */
  lemma MovedInv(cfg: Config, s: Sys, s': Sys, rid: Rid, d: Pid, l: R.Lane, c: C.Chain)
    requires Inv(cfg, s) && IsLane(cfg, rid, d) && LaneMoved(s, s', rid, d, l, c)
    requires ChainOk(cfg, d, c) && C.Valid(s.chains[d])
    requires forall q | q != rid.src :: Quiet(s.chains[d], c, q, d)
    requires LaneHolds(LinkOf(cfg, rid, d), s.chains[rid.src].blocks, s.gates[rid].start, s.gates[rid].next,
                       l, RelayClient(cfg, s), c, s.gates[SyncRid(cfg, d)].start)
    ensures Inv(cfg, s')
  {
    hide Quiet, LaneHolds, LaneMoved, Shape, LaneRests, LaneOk;
    assert LaneThere(cfg, s, rid, d);
    MovedLaneOk(cfg, s, s', rid, d, l, c);
    MovedGates(cfg, s, s', rid, d, l, c);
    MovedChain(cfg, s, s', rid, d, l, c);
    forall r, e | IsLane(cfg, r, e) && (r, e) !in {(rid, d)} ensures LaneRests(cfg, s, s', d, r, e) {
      assert LaneThere(cfg, s, r, e);
      OthersStay(cfg, s, s', rid, d, l, c, r, e);
    }
    FrameInv(cfg, s, s', d, {(rid, d)});
  }

  /** What the invariant says about one lane. */
  lemma LaneParts(cfg: Config, s: Sys, rid: Rid, d: Pid)
    requires Inv(cfg, s) && LaneExists(s, rid, d)
    ensures IsLane(cfg, rid, d) && LaneThere(cfg, s, rid, d) && SyncRid(cfg, d) in s.gates
    ensures ChainOk(cfg, d, s.chains[d]) && ChainOk(cfg, rid.src, s.chains[rid.src])
    ensures RidOk(cfg, s, rid)
    ensures LaneHolds(LinkOf(cfg, rid, d), s.chains[rid.src].blocks, s.gates[rid].start, s.gates[rid].next,
                      LaneOf(s, rid, d), RelayClient(cfg, s), s.chains[d], s.gates[SyncRid(cfg, d)].start)
  {
    ShapeLane(cfg, s, rid, d);
    assert LaneThere(cfg, s, rid, d) && LaneOk(cfg, s, rid, d) && RidOk(cfg, s, rid);
  }

  /** A step of one lane that leaves the chains alone. */
  lemma LaneOnlyInv(cfg: Config, s: Sys, s': Sys, rid: Rid, d: Pid, l: R.Lane)
    requires Inv(cfg, s) && LaneExists(s, rid, d)
    requires s'.gates == SetLane(s, rid, d, l).gates && s'.chains == s.chains
    requires C.Valid(s.chains[d]) && SyncRid(cfg, d) in s.gates
    requires LaneHolds(LinkOf(cfg, rid, d), s.chains[rid.src].blocks, s.gates[rid].start, s.gates[rid].next,
                       l, RelayClient(cfg, s), s.chains[d], s.gates[SyncRid(cfg, d)].start)
    ensures Inv(cfg, s')
  {
    hide LaneHolds, Quiet, Inv, ChainOk, Shape;
    var c := s.chains[d];
    InvChain(cfg, s, d);
    ShapeLane(cfg, s, rid, d);
    assert s.chains[d := c] == s.chains;
    forall q ensures Quiet(c, c, q, d) {
      QuietRefl(c, q, d);
    }
    MovedInv(cfg, s, s', rid, d, l, c);
  }

  lemma PutMoved(s: Sys, s': Sys, rid: Rid, d: Pid, l: R.Lane, tx: Tx, t: Time)
    requires LaneExists(s, rid, d) && s'.gates == SetLane(s, rid, d, l).gates && s'.chains == s.chains[d := C.Put(s.chains[d], tx, t)]
    ensures LaneMoved(s, s', rid, d, l, C.Put(s.chains[d], tx, t))
  {
  }

  /** A step of one lane that puts a transaction on its destination. */
  lemma LanePutInv(cfg: Config, s: Sys, s': Sys, rid: Rid, d: Pid, l: R.Lane, tx: Tx, t: Time)
    requires Inv(cfg, s) && LaneExists(s, rid, d)
    requires s'.gates == SetLane(s, rid, d, l).gates && s'.chains == s.chains[d := C.Put(s.chains[d], tx, t)]
    requires tx.item.sender == Gateway(rid.src, d) && ItemOk(cfg, d, tx.item)
    requires C.Valid(C.Put(s.chains[d], tx, t)) && SyncRid(cfg, d) in s.gates
    requires LaneHolds(LinkOf(cfg, rid, d), s.chains[rid.src].blocks, s.gates[rid].start, s.gates[rid].next,
                       l, RelayClient(cfg, s), C.Put(s.chains[d], tx, t), s.gates[SyncRid(cfg, d)].start)
    ensures Inv(cfg, s')
  {
    hide LaneHolds, Quiet, ChainOk, C.Put, Inv, Shape, LaneMoved;
    var c := s.chains[d];
    InvChain(cfg, s, d);
    ShapeLane(cfg, s, rid, d);
    PutChainOk(cfg, d, c, tx, t);
    PutMoved(s, s', rid, d, l, tx, t);
    forall q | q != rid.src ensures Quiet(c, C.Put(c, tx, t), q, d) {
      PutQuiet(c, tx, t, q, d);
    }
    MovedInv(cfg, s, s', rid, d, l, C.Put(c, tx, t));
  }

  // ----- the steps -----

  lemma SendHeaderInv(cfg: Config, s: Sys, rid: Rid, d: Pid, t: Time)
    requires Inv(cfg, s) && Enabled(cfg, s, SendHeader(rid, d, t))
    ensures Inv(cfg, Apply(cfg, s, SendHeader(rid, d, t)))
  {
    hide LaneHolds, ChainOk;
    var l, link := LaneOf(s, rid, d), LinkOf(cfg, rid, d);
    LaneParts(cfg, s, rid, d);
    LaneFacts(cfg, rid, d);
    SendHeaderHolds(link, s.chains[rid.src].blocks, s.gates[rid].start, s.gates[rid].next, l,
                    RelayClient(cfg, s), s.chains[d], s.gates[SyncRid(cfg, d)].start, t);
    SourceHeights(cfg, rid.src, s.chains[rid.src]);
    var tx := R.NewTx(R.HeaderItem(link, l.headerQ[0]), NO_TRACE);
    assert ItemOk(cfg, d, tx.item);
    LanePutInv(cfg, s, Apply(cfg, s, SendHeader(rid, d, t)), rid, d, l.(headerQ := l.headerQ[1..]), tx, t);
  }

  lemma FailsInv(cfg: Config, s: Sys, rid: Rid, d: Pid, l: R.Lane)
    requires Inv(cfg, s) && LaneExists(s, rid, d)
    requires l == LaneOf(s, rid, d).(headerAlive := false) || l == LaneOf(s, rid, d).(xtxAlive := false)
    ensures Inv(cfg, SetLane(s, rid, d, l))
  {
    hide LaneHolds, Inv;
    LaneParts(cfg, s, rid, d);
    FailsHolds(LinkOf(cfg, rid, d), s.chains[rid.src].blocks, s.gates[rid].start, s.gates[rid].next, LaneOf(s, rid, d), l,
               RelayClient(cfg, s), s.chains[d], s.gates[SyncRid(cfg, d)].start);
    LaneOnlyInv(cfg, s, SetLane(s, rid, d, l), rid, d, l);
  }

  lemma TakeInv(cfg: Config, s: Sys, rid: Rid, d: Pid, t: Time)
    requires Inv(cfg, s) && Enabled(cfg, s, Take(rid, d, t))
    ensures Inv(cfg, Apply(cfg, s, Take(rid, d, t)))
  {
    var l, link := LaneOf(s, rid, d), LinkOf(cfg, rid, d);
    LaneParts(cfg, s, rid, d);
    TakeHolds(link, s.chains[rid.src].blocks, s.gates[rid].start, s.gates[rid].next, l,
              RelayClient(cfg, s), s.chains[d], s.gates[SyncRid(cfg, d)].start, t);
    LaneOnlyInv(cfg, s, Apply(cfg, s, Take(rid, d, t)), rid, d, R.Take(link, l, t));
  }

  lemma PollInterInv(cfg: Config, s: Sys, rid: Rid, d: Pid)
    requires Inv(cfg, s) && Enabled(cfg, s, PollInter(rid, d))
    ensures Inv(cfg, Apply(cfg, s, PollInter(rid, d)))
  {
    var l, link := LaneOf(s, rid, d), LinkOf(cfg, rid, d);
    LaneParts(cfg, s, rid, d);
    PollInterHolds(link, s.chains[rid.src].blocks, s.gates[rid].start, s.gates[rid].next, l,
                   RelayClient(cfg, s), s.chains[d], s.gates[SyncRid(cfg, d)].start);
    LaneOnlyInv(cfg, s, Apply(cfg, s, PollInter(rid, d)), rid, d, R.PollInter(l, RelayMaxn(s, rid.src)));
  }

  /** Every synced header is recorded with a positive height. */
  lemma RecordHeight(cfg: Config, s: Sys, d: Pid, p: Pid, h: nat)
    requires Inv(cfg, s) && d in s.chains && (p, h) in s.chains[d].client.headers
    ensures s.chains[d].client.headers[(p, h)].csHeight >= 1
  {
    assert ChainOk(cfg, d, s.chains[d]);
    var rid := SyncRid(cfg, p);
    assert IsLane(cfg, rid, d);
    LaneFacts(cfg, rid, d);
    assert LaneOk(cfg, s, rid, d) && RidOk(cfg, s, SyncRid(cfg, d));
    RecordPositive(LinkOf(cfg, rid, d), s.chains[p].blocks, s.gates[rid].start, s.chains[d],
                   |Pick(Sync(p, d), C.Executed(s.chains[d]))|, s.gates[SyncRid(cfg, d)].start, h);
  }

  lemma RecordPositive(link: R.Link, blocks: seq<Block>, start: nat, c: C.Chain, n: nat, born: nat, h: nat)
    requires HeadersSynced(link, blocks, start, c, n, born) && (link.src, h) in c.client.headers
    ensures c.client.headers[(link.src, h)].csHeight >= 1
  {
    assert RecordOk(link, blocks[h], c, h, born);
  }

  lemma LookupInv(cfg: Config, s: Sys, rid: Rid, d: Pid)
    requires Inv(cfg, s) && Enabled(cfg, s, Lookup(rid, d))
    ensures Inv(cfg, Apply(cfg, s, Lookup(rid, d)))
  {
    var l, link, relay := LaneOf(s, rid, d), LinkOf(cfg, rid, d), RelayClient(cfg, s);
    LaneParts(cfg, s, rid, d);
    forall h: nat | (rid.src, h) in relay.headers ensures relay.headers[(rid.src, h)].csHeight >= 1 {
      RecordHeight(cfg, s, RELAY, rid.src, h);
    }
    LookupHolds(link, s.chains[rid.src].blocks, s.gates[rid].start, s.gates[rid].next, l,
                relay, s.chains[d], s.gates[SyncRid(cfg, d)].start);
    LaneOnlyInv(cfg, s, Apply(cfg, s, Lookup(rid, d)), rid, d,
                R.Lookup(l, LightClient.QueryCsHeight(relay, rid.src, l.pc.xtx.height)));
  }

  lemma PollDstInv(cfg: Config, s: Sys, rid: Rid, d: Pid)
    requires Inv(cfg, s) && Enabled(cfg, s, PollDst(rid, d))
    ensures Inv(cfg, Apply(cfg, s, PollDst(rid, d)))
  {
    var l, link := LaneOf(s, rid, d), LinkOf(cfg, rid, d);
    LaneParts(cfg, s, rid, d);
    PollDstHolds(link, s.chains[rid.src].blocks, s.gates[rid].start, s.gates[rid].next, l,
                 RelayClient(cfg, s), s.chains[d], s.gates[SyncRid(cfg, d)].start);
    LaneOnlyInv(cfg, s, Apply(cfg, s, PollDst(rid, d)), rid, d,
                R.PollDst(l, LightClient.Maxn(s.chains[d].client, R.Watched(link))));
  }

  lemma ClearInv(cfg: Config, s: Sys, rid: Rid, d: Pid, t: Time)
    requires Inv(cfg, s) && Enabled(cfg, s, Clear(rid, d, t))
    ensures Inv(cfg, Apply(cfg, s, Clear(rid, d, t)))
  {
    hide LaneHolds, Inv;
    var l, link, s' := LaneOf(s, rid, d), LinkOf(cfg, rid, d), Apply(cfg, s, Clear(rid, d, t));
    LaneParts(cfg, s, rid, d);
    if R.NeedsL1(link, l) {
      SendL1Holds(link, s.chains[rid.src].blocks, s.gates[rid].start, s.gates[rid].next, l,
                  RelayClient(cfg, s), s.chains[d], s.gates[SyncRid(cfg, d)].start, t);
      var tx := R.NewTx(R.L1Item(link, l.pc.target, l.pc.xtx), NO_TRACE);
      assert IsLane(cfg, Rid(rid.src, R.Pap), d);
      assert ItemOk(cfg, d, tx.item);
      LanePutInv(cfg, s, s', rid, d, R.Clear(link, l), tx, t);
    } else {
      ClearHolds(link, s.chains[rid.src].blocks, s.gates[rid].start, s.gates[rid].next, l,
                 RelayClient(cfg, s), s.chains[d], s.gates[SyncRid(cfg, d)].start);
      LaneOnlyInv(cfg, s, s', rid, d, R.Clear(link, l));
    }
  }

  lemma SendXtxInv(cfg: Config, s: Sys, rid: Rid, d: Pid, t: Time)
    requires Inv(cfg, s) && Enabled(cfg, s, SendXtx(rid, d, t))
    ensures Inv(cfg, Apply(cfg, s, SendXtx(rid, d, t)))
  {
    var l, link := LaneOf(s, rid, d), LinkOf(cfg, rid, d);
    LaneParts(cfg, s, rid, d);
    SendXtxHolds(link, s.chains[rid.src].blocks, s.gates[rid].start, s.gates[rid].next, l,
                 RelayClient(cfg, s), s.chains[d], s.gates[SyncRid(cfg, d)].start, t, t);
    assert IsLane(cfg, Rid(rid.src, rid.role), d);
    assert ItemOk(cfg, d, R.Outgoing(l, t).item);
    LanePutInv(cfg, s, Apply(cfg, s, SendXtx(rid, d, t)), rid, d, R.Sent(l), R.Outgoing(l, t), t);
  }

  // ----- listening -----

  /** What one lane sees of a listening step. */
  ghost predicate HasHeard(cfg: Config, s: Sys, s': Sys, rid: Rid, d: Pid, t: Time)
    requires LaneThere(cfg, s, rid, d) && s.gates[rid].next < |s.chains[rid.src].blocks|
  {
    && LaneThere(cfg, s', rid, d) && s'.chains == s.chains && RelayClient(cfg, s') == RelayClient(cfg, s)
    && s'.gates[SyncRid(cfg, d)].start == s.gates[SyncRid(cfg, d)].start
    && s'.gates[rid].start == s.gates[rid].start && s'.gates[rid].next == s.gates[rid].next + 1
    && LaneOf(s', rid, d)
       == Hears(LinkOf(cfg, rid, d), LaneOf(s, rid, d), s.chains[rid.src].blocks[s.gates[rid].next], t)
  }

  /** Listening moves every lane of one gateway and no chain. */
  lemma ListenedLane(cfg: Config, s: Sys, rid: Rid, d: Pid, t: Time)
    requires ValidConfig(cfg) && Shape(cfg, s) && IsLane(cfg, rid, d) && LaneThere(cfg, s, rid, d)
    requires Enabled(cfg, s, Listen(rid, t))
    ensures HasHeard(cfg, s, Apply(cfg, s, Listen(rid, t)), rid, d, t)
  {
    hide C.Valid, R.Route, R.CarriesHeaders;
    LaneFacts(cfg, rid, d);
  }

  lemma HeardLaneOk(cfg: Config, s: Sys, s': Sys, rid: Rid, d: Pid, t: Time, l: R.Lane)
    requires LaneThere(cfg, s, rid, d) && s.gates[rid].next < |s.chains[rid.src].blocks|
    requires HasHeard(cfg, s, s', rid, d, t) && l == LaneOf(s', rid, d)
    requires LaneHolds(LinkOf(cfg, rid, d), s.chains[rid.src].blocks, s.gates[rid].start, s.gates[rid].next + 1,
                       l, RelayClient(cfg, s), s.chains[d], s.gates[SyncRid(cfg, d)].start)
    ensures LaneOk(cfg, s', rid, d)
  {
  }

  lemma ListenLaneOk(cfg: Config, s: Sys, s': Sys, rid: Rid, d: Pid, t: Time, l: R.Lane)
    requires LaneThere(cfg, s, rid, d) && s.gates[rid].start <= s.gates[rid].next < |s.chains[rid.src].blocks|
    requires LaneHolds(LinkOf(cfg, rid, d), s.chains[rid.src].blocks, s.gates[rid].start, s.gates[rid].next,
                       LaneOf(s, rid, d), RelayClient(cfg, s), s.chains[d], s.gates[SyncRid(cfg, d)].start)
    requires HasHeard(cfg, s, s', rid, d, t) && l == LaneOf(s', rid, d)
    ensures LaneOk(cfg, s', rid, d)
  {
    hide LaneHolds;
    HearsHolds(LinkOf(cfg, rid, d), s.chains[rid.src].blocks, s.gates[rid].start, s.gates[rid].next, LaneOf(s, rid, d), l,
               RelayClient(cfg, s), s.chains[d], s.gates[SyncRid(cfg, d)].start, t);
    HeardLaneOk(cfg, s, s', rid, d, t, l);
  }

  lemma ListenGates(cfg: Config, s: Sys, s': Sys, rid: Rid, t: Time)
    requires Inv(cfg, s) && Enabled(cfg, s, Listen(rid, t)) && s' == Apply(cfg, s, Listen(rid, t))
    ensures Shape(cfg, s')
    ensures forall r {:trigger GateMoves(s, s', r)} | IsRid(cfg, r) :: GateMoves(s, s', r)
  {
    forall r | IsRid(cfg, r) ensures GateMoves(s, s', r) {
      assert RidOk(cfg, s, r);
    }
    forall r | r in s'.gates ensures s'.gates[r].lanes.Keys == Dsts(cfg, r) {
      if r == rid {
        assert s'.gates[r].lanes.Keys == s.gates[r].lanes.Keys;
      }
    }
  }

  lemma ListenRests(cfg: Config, s: Sys, s': Sys, rid: Rid, t: Time, r: Rid, d: Pid)
    requires Enabled(cfg, s, Listen(rid, t)) && s' == Apply(cfg, s, Listen(rid, t)) && r != rid
    requires LaneThere(cfg, s, r, d) && C.Valid(s.chains[rid.src])
    ensures LaneRests(cfg, s, s', rid.src, r, d)
  {
    hide Quiet; hide C.Valid;
    QuietRefl(s.chains[rid.src], r.src, rid.src);
  }

  lemma ListenMoves(cfg: Config, s: Sys, s': Sys, rid: Rid, t: Time)
    requires Inv(cfg, s) && Enabled(cfg, s, Listen(rid, t)) && s' == Apply(cfg, s, Listen(rid, t))
    ensures C.Valid(s.chains[rid.src]) && ChainMoves(cfg, s, s', rid.src)
    ensures forall r {:trigger GateMoves(s, s', r)} | IsRid(cfg, r) :: GateMoves(s, s', r)
  {
    var p := rid.src;
    assert ChainOk(cfg, p, s.chains[p]);
    QuietRefl(s.chains[p], p, p);
    ListenGates(cfg, s, s', rid, t);
    assert s.chains[p := s'.chains[p]] == s.chains == s'.chains;
  }

  lemma ListenInv(cfg: Config, s: Sys, rid: Rid, t: Time)
    requires Inv(cfg, s) && Enabled(cfg, s, Listen(rid, t))
    ensures Inv(cfg, Apply(cfg, s, Listen(rid, t)))
  {
    hide LaneHolds, Quiet, Grows, ChainOk;
    var s', p := Apply(cfg, s, Listen(rid, t)), rid.src;
    var moved := set d | d in Dsts(cfg, rid) :: (rid, d);
    ListenMoves(cfg, s, s', rid, t);
    forall r, d | IsLane(cfg, r, d) && (r, d) in moved ensures LaneOk(cfg, s', r, d) {
      assert LaneThere(cfg, s, rid, d);
      ListenedLane(cfg, s, rid, d, t);
      LaneParts(cfg, s, rid, d);
      ListenLaneOk(cfg, s, s', rid, d, t, LaneOf(s', rid, d));
    }
    forall r, d | IsLane(cfg, r, d) && (r, d) !in moved ensures LaneRests(cfg, s, s', p, r, d) {
      assert LaneThere(cfg, s, r, d);
      ListenRests(cfg, s, s', rid, t, r, d);
    }
    FrameInv(cfg, s, s', p, moved);
  }

  // ----- every reachable state -----

  lemma StepInv(cfg: Config, s: Sys, st: Step)
    requires Inv(cfg, s) && Enabled(cfg, s, st)
    ensures Inv(cfg, Apply(cfg, s, st))
  {
    hide Inv;
    match st
    case UserPut(p, tx, t) => UserPutInv(cfg, s, p, tx, t);
    case Propose(p, gen, t) => ProposeInv(cfg, s, p, gen, t);
    case Exec(p) => ExecInv(cfg, s, p);
    case Commit(p, t) => CommitInv(cfg, s, p, t);
    case Listen(rid, t) => ListenInv(cfg, s, rid, t);
    case SendHeader(rid, d, t) => SendHeaderInv(cfg, s, rid, d, t);
    case HeaderFails(rid, d) => FailsInv(cfg, s, rid, d, LaneOf(s, rid, d).(headerAlive := false));
    case Take(rid, d, t) => TakeInv(cfg, s, rid, d, t);
    case PollInter(rid, d) => PollInterInv(cfg, s, rid, d);
    case Lookup(rid, d) => LookupInv(cfg, s, rid, d);
    case PollDst(rid, d) => PollDstInv(cfg, s, rid, d);
    case Clear(rid, d, t) => ClearInv(cfg, s, rid, d, t);
    case SendXtx(rid, d, t) => SendXtxInv(cfg, s, rid, d, t);
    case XtxFails(rid, d) => FailsInv(cfg, s, rid, d, LaneOf(s, rid, d).(xtxAlive := false));
  }

  lemma InitLaneOk(cfg: Config, s: Sys, rid: Rid, d: Pid)
    requires Init(cfg, s) && IsLane(cfg, rid, d)
    ensures LaneOk(cfg, s, rid, d)
  {
    hide LaneHolds;
    LaneFacts(cfg, rid, d);
    assert InitChain(cfg, d, s.chains[d]) && InitChain(cfg, rid.src, s.chains[rid.src]);
    InitLane(cfg, LinkOf(cfg, rid, d), s.chains[rid.src].blocks, s.gates[rid].start, RelayClient(cfg, s),
             s.chains[d], s.gates[SyncRid(cfg, d)].start);
  }

  lemma InitInv(cfg: Config, s: Sys)
    requires Init(cfg, s)
    ensures Inv(cfg, s)
  {
    forall d | d in s.chains ensures ChainOk(cfg, d, s.chains[d]) {
      assert InitChain(cfg, d, s.chains[d]);
    }
    forall rid | IsRid(cfg, rid) ensures RidOk(cfg, s, rid) {
      assert InitChain(cfg, rid.src, s.chains[rid.src]);
    }
    forall rid, d | IsLane(cfg, rid, d) ensures LaneOk(cfg, s, rid, d) {
      InitLaneOk(cfg, s, rid, d);
    }
    forall rid, d | IsLane(cfg, rid, d) ensures LaneThere(cfg, s, rid, d) {
      assert LaneOk(cfg, s, rid, d);
    }
  }

  /** Nothing has been relayed to the chain yet. */
  lemma NothingYet(cfg: Config, link: R.Link, c: C.Chain)
    requires InitChain(cfg, link.dst, c)
    ensures Pick(Sync(link.src, link.dst), C.Ledger(c)) == [] && Pick(Xtx(link.src, link.dst), C.Ledger(c)) == []
    ensures Pick(Sync(link.src, link.dst), C.Executed(c)) == []
  {
    PickNone(Sync(link.src, link.dst), C.Ledger(c));
    PickNone(Xtx(link.src, link.dst), C.Ledger(c));
    C.ExecutedIsPrefix(c);
    PickNone(Sync(link.src, link.dst), C.Executed(c));
  }

  lemma InitSynced(cfg: Config, link: R.Link, blocks: seq<Block>, start: nat, c: C.Chain, born: nat)
    requires InitChain(cfg, link.dst, c) && start <= |blocks|
    ensures HeadersSynced(link, blocks, start, c, 0, born)
  {
    assert !HalfSynced(c, link.src, link.dst);
  }

  /** A new lane that nothing has been sent by. */
  lemma EmptyLane(link: R.Link, blocks: seq<Block>, start: nat, relay: LightClient.Client, dst: LightClient.Client)
    requires start <= |blocks|
    ensures HeadersFlow(link, blocks, start, start, true, [], []) && XtxsFlow(link, blocks, start, start, R.Idle, [], [])
    ensures L1First(link, {}, []) && Waits(link, relay, dst, R.NEW_LANE) && SentTrusted(link, relay, dst, [])
  {
    assert R.Headers(blocks, start, start) == [];
    assert Carried([]) + R.InHand(R.Idle) + R.Parcels([]) == [];
  }

  lemma InitLane(cfg: Config, link: R.Link, blocks: seq<Block>, start: nat, relay: LightClient.Client, c: C.Chain, born: nat)
    requires InitChain(cfg, link.dst, c) && start <= |blocks|
    ensures C.Valid(c) && LaneHolds(link, blocks, start, start, R.NEW_LANE, relay, c, born)
  {
    hide HeadersFlow, HeadersSynced, XtxsFlow, L1First, Waits, SentTrusted;
    NothingYet(cfg, link, c);
    InitSynced(cfg, link, blocks, start, c, born);
    EmptyLane(link, blocks, start, relay, c.client);
  }

  /** State s is reached from a start of the gateways by these steps. */
  ghost predicate Reaches(cfg: Config, s0: Sys, steps: seq<Step>, s: Sys) {
    Init(cfg, s0) && Run(cfg, s0, steps) == Some(s)
  }

  /** Every state of every run from a start of the gateways satisfies the invariant. */
  lemma {:induction false} Reachable(cfg: Config, s: Sys, steps: seq<Step>)
    requires Init(cfg, s) && Run(cfg, s, steps).Some?
    ensures Inv(cfg, Run(cfg, s, steps).value)
  {
    if steps == [] {
      InitInv(cfg, s);
    } else {
      var n := |steps| - 1;
      Reachable(cfg, s, steps[..n]);
      StepInv(cfg, Run(cfg, s, steps[..n]).value, steps[n]);
    }
  }

  lemma ReachedChain(cfg: Config, s0: Sys, steps: seq<Step>, s: Sys, p: Pid)
    requires Reaches(cfg, s0, steps, s) && p in s.chains
    ensures C.Valid(s.chains[p]) && ChainOk(cfg, p, s.chains[p])
  {
    Reachable(cfg, s0, steps);
    assert ChainOk(cfg, p, s.chains[p]);
  }
}
