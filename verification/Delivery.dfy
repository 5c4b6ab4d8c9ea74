/** The schedules that deliver: per lane, per pair of chains, and for all pairs. */
module Delivery {
  import opened Wrappers
  import opened Sequences
  import opened Types
  import opened System
  import opened Invariant
  import opened Frame
  import opened GatewaySteps
  import opened Safety
  import opened Conservation
  import opened Healthy
  import opened Progress
  import LightClient
  import Soundness
  import Turns
  import R = Relayer
  import C = Chain

  // ----- when headers are in place -----

  /** Once the headers read of p have been sent to d and d is still, d holds them all. */
  lemma HeadersArrived(cfg: Config, s: Sys, p: Pid, d: Pid)
    requires Good(cfg, s) && Syncs(cfg, p, d) && LaneExists(s, SyncRid(cfg, p), d)
    requires LaneOf(s, SyncRid(cfg, p), d).headerQ == [] && Still(s.chains[d])
    ensures var g := s.gates[SyncRid(cfg, p)];
      forall h: nat | g.start <= h < g.next :: (p, h) in s.chains[d].client.headers && h <= LightClient.Maxn(s.chains[d].client, p)
  {
    var rid := SyncRid(cfg, p);
    LaneParts(cfg, s, rid, d);
    assert LaneExists(s, rid, d) && LaneOf(s, rid, d).headerAlive;
    Arrived(LinkOf(cfg, rid, d), s.chains[p].blocks, s.gates[rid].start, s.gates[rid].next, s.chains[d], s.gates[SyncRid(cfg, d)].start);
  }

  lemma Arrived(link: R.Link, blocks: seq<Block>, start: nat, next: nat, c: C.Chain, born: nat)
    requires C.Valid(c) && Still(c) && R.CarriesHeaders(link.role)
    requires HeadersFlow(link, blocks, start, next, true, [], Pick(Sync(link.src, link.dst), C.Ledger(c)))
    requires HeadersSynced(link, blocks, start, c, |Pick(Sync(link.src, link.dst), C.Executed(c))|, born)
    ensures forall h: nat | start <= h < next :: (link.src, h) in c.client.headers && h <= LightClient.Maxn(c.client, link.src)
  {
    assert C.Executed(c) == C.Ledger(c);
    assert !HalfSynced(c, link.src, link.dst);
    assert |R.Headers(blocks, start + |Pick(Sync(link.src, link.dst), C.Ledger(c))|, next)| == 0;
  }

  /** Every height that the gateway has read may be relied on at d. */
  ghost predicate Open(cfg: Config, s: Sys, rid: Rid, d: Pid)
    requires rid in s.gates && d in s.chains
  {
    forall h: nat | s.gates[rid].start <= h < s.gates[rid].next :: Usable(cfg, s, rid, d, h)
  }

  ghost predicate Usable(cfg: Config, s: Sys, rid: Rid, d: Pid, h: nat)
    requires d in s.chains
  {
    && Trusted(LinkOf(cfg, rid, d), RelayClient(cfg, s), s.chains[d].client, h)
    && (rid.role == R.Pap ==> h <= LightClient.Maxn(RelayClient(cfg, s), rid.src))
  }

  lemma OpenStays(cfg: Config, s: Sys, s': Sys, rid: Rid, d: Pid)
    requires SentOn(s, s', rid, d) && Open(cfg, s, rid, d)
    ensures Open(cfg, s', rid, d)
  {
    assert RelayClient(cfg, s') == RelayClient(cfg, s);
    forall h: nat | s'.gates[rid].start <= h < s'.gates[rid].next ensures Usable(cfg, s', rid, d, h) {
      assert Usable(cfg, s, rid, d, h);
    }
  }

  // ----- consuming a lane -----

  /** What the consumer still has to do, in steps at most. */
  function Work(l: R.Lane): nat {
    6 * |l.xtxQ| +
    match l.pc
    case Idle => 0
    case Waiting(xtx, _) => if l.syncedInter < xtx.height then 5 else 4
    case Confirmed(_, _, target) => if l.synced < target then 3 else 2
    case Cleared(_, _) => 1
  }

  function NextStep(l: R.Lane, rid: Rid, d: Pid, t: Time): Step {
    match l.pc
    case Idle => Take(rid, d, t)
    case Waiting(xtx, _) => if l.syncedInter < xtx.height then PollInter(rid, d) else Lookup(rid, d)
    case Confirmed(_, _, target) => if l.synced < target then PollDst(rid, d) else Clear(rid, d, t)
    case Cleared(_, _) => SendXtx(rid, d, t)
  }

  /** What the invariant and the open gate say about the consumer's next step. */
  ghost predicate Unblocked(cfg: Config, s: Sys, rid: Rid, d: Pid)
    requires LaneExists(s, rid, d)
  {
    var l := LaneOf(s, rid, d);
    && l.xtxAlive
    && (l.pc.Waiting? ==> RELAY in s.chains && l.pc.xtx.height <= RelayMaxn(s, rid.src)
                          && LightClient.QueryCsHeight(s.chains[RELAY].client, rid.src, l.pc.xtx.height).Some?)
    && (l.pc.Confirmed? ==> l.pc.target <= LightClient.Maxn(s.chains[d].client, R.Watched(LinkOf(cfg, rid, d))))
  }

  lemma HandClear(cfg: Config, s: Sys, rid: Rid, d: Pid)
    requires Good(cfg, s) && LaneExists(s, rid, d) && Open(cfg, s, rid, d)
    ensures Unblocked(cfg, s, rid, d)
  {
    var l := LaneOf(s, rid, d);
    assert LaneExists(s, rid, d) && l.xtxAlive;
    if l.pc.Waiting? || l.pc.Confirmed? {
      HandHeight(cfg, s, rid, d);
      LaneParts(cfg, s, rid, d);
      LaneFacts(cfg, rid, d);
      assert Usable(cfg, s, rid, d, l.pc.xtx.height);
    }
    if l.pc.Waiting? {
      assert Syncs(cfg, rid.src, RELAY);
      HeadersHaveNoGaps(cfg, s, rid.src, RELAY);
    }
  }

  lemma NextEnabled(cfg: Config, s: Sys, rid: Rid, d: Pid)
    requires LaneExists(s, rid, d) && Unblocked(cfg, s, rid, d) && Work(LaneOf(s, rid, d)) > 0
    ensures var st := NextStep(LaneOf(s, rid, d), rid, d, s.now); Enabled(cfg, s, st) && Internal(st)
  {
    if LaneOf(s, rid, d).pc.Idle? {
      assert LaneOf(s, rid, d).xtxQ != [];
    }
  }

  lemma {:induction false} PutAllKeeps(c: C.Chain, txs: seq<Tx>, t: Time)
    ensures Turns.PutAll(c, txs, t).blocks == c.blocks && Turns.PutAll(c, txs, t).client == c.client
  {
    if txs != [] {
      PutAllKeeps(c, txs[..|txs| - 1], t);
    }
  }

  lemma NextStays(cfg: Config, s: Sys, rid: Rid, d: Pid)
    requires LaneExists(s, rid, d) && Enabled(cfg, s, NextStep(LaneOf(s, rid, d), rid, d, s.now))
    ensures var st := NextStep(LaneOf(s, rid, d), rid, d, s.now);
      SentOn(s, Apply(cfg, s, st), rid, d) && LaneOf(Apply(cfg, s, st), rid, d).headerQ == LaneOf(s, rid, d).headerQ
  {
    hide Apply, Enabled, LinkOf, Turns.Puts, Turns.PutAll, R.Lookup;
    var l, st := LaneOf(s, rid, d), NextStep(LaneOf(s, rid, d), rid, d, s.now);
    Turns.StepPlays(cfg, s, st, rid, d);
    PutAllKeeps(s.chains[d], Turns.Puts(LinkOf(cfg, rid, d), l, Turns.ActOf(cfg, s, st, rid, d)), Apply(cfg, s, st).now);
    ActKeepsHeaders(LinkOf(cfg, rid, d), l, Turns.ActOf(cfg, s, st, rid, d));
    assert s.chains[d := s.chains[d]] == s.chains;
  }

  lemma ActKeepsHeaders(link: R.Link, l: R.Lane, act: Turns.Act)
    requires Turns.Can(l, act)
    ensures Turns.Do(link, l, act).headerQ == l.headerQ
  {
  }

  /** One step of the consumer, which brings it closer to being done. */
  lemma WorkFalls(cfg: Config, s: Sys, rid: Rid, d: Pid)
    requires LaneExists(s, rid, d) && Unblocked(cfg, s, rid, d) && Work(LaneOf(s, rid, d)) > 0
    ensures var st := NextStep(LaneOf(s, rid, d), rid, d, s.now);
      && Enabled(cfg, s, st) && Internal(st) && SentOn(s, Apply(cfg, s, st), rid, d)
      && Work(LaneOf(Apply(cfg, s, st), rid, d)) < Work(LaneOf(s, rid, d))
      && LaneOf(Apply(cfg, s, st), rid, d).headerQ == LaneOf(s, rid, d).headerQ
  {
    hide C.Put, LinkOf, R.L1Item, R.NeedsL1;
    NextEnabled(cfg, s, rid, d);
    NextStays(cfg, s, rid, d);
  }

  lemma {:induction false} Consume(cfg: Config, s: Sys, rid: Rid, d: Pid) returns (steps: seq<Step>, s': Sys)
    requires Good(cfg, s) && LaneExists(s, rid, d) && Open(cfg, s, rid, d)
    ensures Leads(cfg, s, steps, s') && SentOn(s, s', rid, d)
    ensures LaneOf(s', rid, d).pc.Idle? && LaneOf(s', rid, d).xtxQ == []
    ensures LaneOf(s', rid, d).headerQ == LaneOf(s, rid, d).headerQ
    decreases Work(LaneOf(s, rid, d))
  {
    hide Run, Schedule, Inv, SetUp, Running;
    if Work(LaneOf(s, rid, d)) > 0 {
      HandClear(cfg, s, rid, d);
      WorkFalls(cfg, s, rid, d);
      var st := NextStep(LaneOf(s, rid, d), rid, d, s.now);
      var s1 := Apply(cfg, s, st);
      LeadsStep(cfg, s, st, s1);
      OpenStays(cfg, s, s1, rid, d);
      var b;
      b, s' := Consume(cfg, s1, rid, d);
      LeadsThen(cfg, s, [st], s1, b, s');
      SentThen(s, s1, s', rid, d);
      steps := [st] + b;
    } else {
      steps, s' := [], s;
      LeadsNothing(cfg, s);
      SentNothing(s, rid, d);
    }
  }

  // ----- one hop -----

  /** Everything that d has been sent from rid has been committed, and everything on the source
      has been sent. */
  ghost predicate HopDone(s: Sys, rid: Rid, d: Pid) {
    && LaneExists(s, rid, d) && Still(s.chains[d]) && s.gates[rid].next == |s.chains[rid.src].blocks|
    && LaneOf(s, rid, d).pc.Idle? && LaneOf(s, rid, d).xtxQ == []
  }

  /** Only the gateway rid and chain d have changed. */
  ghost predicate HopOnly(s: Sys, s': Sys, rid: Rid, d: Pid) {
    && rid in s.gates && rid in s'.gates && d in s.chains && d in s'.chains
    && s'.gates == s.gates[rid := s'.gates[rid]] && s'.chains == s.chains[d := s'.chains[d]]
  }

  lemma LaneIsThere(cfg: Config, s: Sys, rid: Rid, d: Pid)
    requires Good(cfg, s) && IsLane(cfg, rid, d)
    ensures LaneExists(s, rid, d) && rid.src != d
  {
    LaneFacts(cfg, rid, d);
    assert LaneThere(cfg, s, rid, d);
  }

  lemma OpenFull(cfg: Config, s: Sys, rid: Rid, d: Pid)
    requires Good(cfg, s) && IsLane(cfg, rid, d) && rid.role == R.Full && LaneExists(s, rid, d)
    requires LaneOf(s, rid, d).headerQ == [] && Still(s.chains[d])
    ensures Open(cfg, s, rid, d)
  {
    LaneFacts(cfg, rid, d);
    HeadersArrived(cfg, s, rid.src, d);
    forall h: nat | s.gates[rid].start <= h < s.gates[rid].next ensures Usable(cfg, s, rid, d, h) {
      assert (rid.src, h) in s.chains[d].client.headers && h <= LightClient.Maxn(s.chains[d].client, rid.src);
      assert Awaits(LinkOf(cfg, rid, d), RelayClient(cfg, s), h, h);
    }
  }

  lemma ReadSentMined(s: Sys, s1: Sys, s2: Sys, s3: Sys, rid: Rid, d: Pid)
    requires ReadOn(s, s1, rid) && SentOn(s1, s2, rid, d) && Mined(s2, s3, d) && rid.src != d && rid.src in s.chains
    ensures HopOnly(s, s3, rid, d) && LaneExists(s3, rid, d) && LaneOf(s3, rid, d) == LaneOf(s2, rid, d)
    ensures s3.gates[rid].next == s1.gates[rid].next && s3.chains[rid.src] == s.chains[rid.src]
  {
  }

  lemma SentMined(s: Sys, s1: Sys, s2: Sys, rid: Rid, d: Pid)
    requires SentOn(s, s1, rid, d) && Mined(s1, s2, d) && rid.src != d
    ensures HopOnly(s, s2, rid, d) && LaneExists(s2, rid, d) && LaneOf(s2, rid, d) == LaneOf(s1, rid, d)
    ensures s2.gates[rid].next == s.gates[rid].next && s2.chains[rid.src] == s.chains[rid.src]
  {
  }

  lemma HopOnlyThen(s: Sys, s1: Sys, s2: Sys, rid: Rid, d: Pid)
    requires HopOnly(s, s1, rid, d) && HopOnly(s1, s2, rid, d)
    ensures HopOnly(s, s2, rid, d)
  {
  }

  /** Reads the source to its end and brings its headers to d. */
  lemma BringHeaders(cfg: Config, s: Sys, rid: Rid, d: Pid) returns (steps: seq<Step>, s': Sys)
    requires Good(cfg, s) && IsLane(cfg, rid, d)
    ensures Leads(cfg, s, steps, s') && HopOnly(s, s', rid, d)
    ensures LaneExists(s', rid, d) && LaneOf(s', rid, d).headerQ == [] && Still(s'.chains[d])
    ensures s'.gates[rid].next == |s'.chains[rid.src].blocks|
  {
    hide Run, Schedule, Inv, SetUp, Running;
    LaneIsThere(cfg, s, rid, d);
    var a, s1 := ListenAll(cfg, s, rid);
    var b, s2 := FlushHeaders(cfg, s1, rid, d);
    var c, s3 := Drain(cfg, s2, d);
    LeadsThen(cfg, s, a, s1, b, s2);
    LeadsThen(cfg, s, a + b, s2, c, s3);
    ReadSentMined(s, s1, s2, s3, rid, d);
    steps, s' := a + b + c, s3;
  }

  /** Consumes what is under way and mines it. */
  lemma BringXtxs(cfg: Config, s: Sys, rid: Rid, d: Pid) returns (steps: seq<Step>, s': Sys)
    requires Good(cfg, s) && IsLane(cfg, rid, d) && LaneExists(s, rid, d) && Open(cfg, s, rid, d)
    requires s.gates[rid].next == |s.chains[rid.src].blocks|
    ensures Leads(cfg, s, steps, s') && HopOnly(s, s', rid, d) && HopDone(s', rid, d)
  {
    hide Run, Schedule, Inv, SetUp, Running;
    LaneIsThere(cfg, s, rid, d);
    var a, s1 := Consume(cfg, s, rid, d);
    var b, s2 := Drain(cfg, s1, d);
    LeadsThen(cfg, s, a, s1, b, s2);
    SentMined(s, s1, s2, rid, d);
    steps, s' := a + b, s2;
  }

  lemma Hop(cfg: Config, s: Sys, rid: Rid, d: Pid) returns (steps: seq<Step>, s': Sys)
    requires Good(cfg, s) && IsLane(cfg, rid, d) && rid.role == R.Full
    ensures Leads(cfg, s, steps, s') && HopOnly(s, s', rid, d) && HopDone(s', rid, d)
  {
    hide Run, Schedule, Inv, SetUp, Running;
    var a, s1 := BringHeaders(cfg, s, rid, d);
    OpenFull(cfg, s1, rid, d);
    var b, s2 := BringXtxs(cfg, s1, rid, d);
    LeadsThen(cfg, s, a, s1, b, s2);
    HopOnlyThen(s, s1, s2, rid, d);
    steps, s' := a + b, s2;
  }

  // ----- one pair -----

  /** Everything that users of p asked for d has been committed on d. */
  ghost predicate Delivered(cfg: Config, s: Sys, p: Pid, d: Pid) {
    && p in s.chains && d in s.chains
    && FilterMap(Deliveries(cfg, p, d), Committed(s.chains[d])) == Asked(cfg, s, p, d)
  }

  ghost predicate PathDone(cfg: Config, s: Sys, p: Pid, d: Pid) {
    && p in s.chains && Still(s.chains[p]) && HopDone(s, XtxRid(cfg, p), FirstHop(cfg, d))
    && (cfg.mode == R.AoR ==> HopDone(s, Rid(RELAY, R.Full), d) && Still(s.chains[RELAY]))
    && d in s.chains && Still(s.chains[d])
  }

  lemma NothingHeld(s: Sys, rid: Rid, d: Pid)
    requires HopDone(s, rid, d) && Still(s.chains[rid.src])
    ensures Held(LaneOf(s, rid, d)) == [] && Unread(s.chains[rid.src], s.gates[rid].next) == []
  {
    assert s.chains[rid.src].blocks[s.gates[rid].next..] == [];
  }

  lemma PathDelivers(cfg: Config, s: Sys, p: Pid, d: Pid)
    requires Good(cfg, s) && IsPair(cfg, p, d) && PathDone(cfg, s, p, d)
    ensures Delivered(cfg, s, p, d)
  {
    PairLanes(cfg, s, p, d);
    NothingHeld(s, XtxRid(cfg, p), FirstHop(cfg, d));
    if cfg.mode == R.AoR {
      NothingHeld(s, Rid(RELAY, R.Full), d);
    }
    NothingUnderWay(cfg, s, p, d);
    assert C.Ledger(s.chains[d]) == Committed(s.chains[d]);
  }

  lemma PairKnown(cfg: Config, s: Sys, p: Pid, d: Pid)
    requires Good(cfg, s) && IsPair(cfg, p, d)
    ensures p in s.chains && d in s.chains && (cfg.mode != R.NoR ==> RELAY in s.chains)
  {
  }

  lemma DeliverNor(cfg: Config, s: Sys, p: Pid, d: Pid) returns (steps: seq<Step>, s': Sys)
    requires Good(cfg, s) && IsPair(cfg, p, d) && cfg.mode == R.NoR
    ensures Leads(cfg, s, steps, s') && PathDone(cfg, s', p, d)
  {
    hide Run, Schedule, Inv, SetUp, Running;
    PairKnown(cfg, s, p, d);
    var a, s1 := Drain(cfg, s, p);
    var b, s2 := Hop(cfg, s1, Rid(p, R.Full), d);
    LeadsThen(cfg, s, a, s1, b, s2);
    steps, s' := a + b, s2;
  }

  /** The second hop leaves the first one as it was. */
  lemma SecondHopKeeps(s: Sys, s': Sys, first: Rid, p: Pid, d: Pid)
    requires HopDone(s, first, RELAY) && HopOnly(s, s', Rid(RELAY, R.Full), d) && HopDone(s', Rid(RELAY, R.Full), d)
    requires first.src == p && p != RELAY && p != d && d != RELAY && p in s.chains && Still(s.chains[p])
    ensures HopDone(s', first, RELAY) && Still(s'.chains[p]) && Still(s'.chains[RELAY])
  {
  }

  lemma LastHop(cfg: Config, s: Sys, p: Pid, d: Pid) returns (steps: seq<Step>, s': Sys)
    requires Good(cfg, s) && IsPair(cfg, p, d) && cfg.mode == R.AoR && p in s.chains && Still(s.chains[p])
    requires HopDone(s, Rid(p, R.Full), RELAY)
    ensures Leads(cfg, s, steps, s') && PathDone(cfg, s', p, d)
  {
    hide Run, Schedule, Inv, SetUp, Running;
    steps, s' := Hop(cfg, s, Rid(RELAY, R.Full), d);
    SecondHopKeeps(s, s', Rid(p, R.Full), p, d);
  }

  lemma BothHops(cfg: Config, s: Sys, p: Pid, d: Pid) returns (steps: seq<Step>, s': Sys)
    requires Good(cfg, s) && IsPair(cfg, p, d) && cfg.mode == R.AoR && p in s.chains && Still(s.chains[p])
    ensures Leads(cfg, s, steps, s') && PathDone(cfg, s', p, d)
  {
    hide Run, Schedule, Inv, SetUp, Running;
    var a, s1 := Hop(cfg, s, Rid(p, R.Full), RELAY);
    assert p in s1.chains && Still(s1.chains[p]);
    var b;
    b, s' := LastHop(cfg, s1, p, d);
    LeadsThen(cfg, s, a, s1, b, s');
    steps := a + b;
  }

  lemma DeliverAor(cfg: Config, s: Sys, p: Pid, d: Pid) returns (steps: seq<Step>, s': Sys)
    requires Good(cfg, s) && IsPair(cfg, p, d) && cfg.mode == R.AoR
    ensures Leads(cfg, s, steps, s') && PathDone(cfg, s', p, d)
  {
    hide Run, Schedule, Inv, SetUp, Running;
    PairKnown(cfg, s, p, d);
    var a, s1 := Drain(cfg, s, p);
    var b, s2 := BothHops(cfg, s1, p, d);
    LeadsThen(cfg, s, a, s1, b, s2);
    steps, s' := a + b, s2;
  }

  /** ToR: the relay chain holds the headers of p, and d those of the relay chain. */
  ghost predicate TwoLevels(s: Sys, p: Pid, d: Pid) {
    var par, pap, rpar := Rid(p, R.Par), Rid(p, R.Pap), Rid(RELAY, R.Par);
    && LaneExists(s, par, RELAY) && LaneOf(s, par, RELAY).headerQ == [] && Still(s.chains[RELAY])
    && s.gates[par].next == |s.chains[p].blocks|
    && LaneExists(s, rpar, d) && LaneOf(s, rpar, d).headerQ == [] && Still(s.chains[d])
    && s.gates[rpar].next == |s.chains[RELAY].blocks|
    && pap in s.gates && s.gates[pap].next == |s.chains[p].blocks|
  }

  lemma OpenPap(cfg: Config, s: Sys, p: Pid, d: Pid)
    requires Good(cfg, s) && IsPair(cfg, p, d) && cfg.mode == R.ToR && TwoLevels(s, p, d)
    ensures Open(cfg, s, Rid(p, R.Pap), d)
  {
    var pap := Rid(p, R.Pap);
    GateKnown(cfg, s, pap);
    HeadersArrived(cfg, s, p, RELAY);
    HeadersArrived(cfg, s, RELAY, d);
    forall h: nat | s.gates[pap].start <= h < s.gates[pap].next ensures Usable(cfg, s, pap, d, h) {
      RecordInBlock(cfg, s, p, RELAY, h);
      var c := s.chains[RELAY].client.headers[(p, h)].csHeight;
      assert (RELAY, c) in s.chains[d].client.headers && c <= LightClient.Maxn(s.chains[d].client, RELAY);
      assert Awaits(LinkOf(cfg, pap, d), RelayClient(cfg, s), h, c);
    }
  }

  lemma BothLevels(s: Sys, s1: Sys, s2: Sys, s3: Sys, p: Pid, d: Pid)
    requires p in s.chains && Still(s.chains[p]) && p != RELAY && d != RELAY && p != d
    requires ReadOn(s, s1, Rid(p, R.Pap)) && s1.gates[Rid(p, R.Pap)].next == |s.chains[p].blocks|
    requires HopOnly(s1, s2, Rid(p, R.Par), RELAY) && LaneExists(s2, Rid(p, R.Par), RELAY)
    requires LaneOf(s2, Rid(p, R.Par), RELAY).headerQ == [] && Still(s2.chains[RELAY])
    requires s2.gates[Rid(p, R.Par)].next == |s2.chains[p].blocks|
    requires HopOnly(s2, s3, Rid(RELAY, R.Par), d) && LaneExists(s3, Rid(RELAY, R.Par), d)
    requires LaneOf(s3, Rid(RELAY, R.Par), d).headerQ == [] && Still(s3.chains[d])
    requires s3.gates[Rid(RELAY, R.Par)].next == |s3.chains[RELAY].blocks|
    ensures TwoLevels(s3, p, d) && Still(s3.chains[p])
  {
  }

  lemma BringBothHeaders(cfg: Config, s: Sys, p: Pid, d: Pid) returns (steps: seq<Step>, s': Sys)
    requires Good(cfg, s) && IsPair(cfg, p, d) && cfg.mode == R.ToR
    ensures Leads(cfg, s, steps, s') && TwoLevels(s', p, d) && Still(s'.chains[p])
  {
    hide Run, Schedule, Inv, SetUp, Running;
    var par, pap, rpar := Rid(p, R.Par), Rid(p, R.Pap), Rid(RELAY, R.Par);
    PairKnown(cfg, s, p, d);
    var a, s1 := Drain(cfg, s, p);
    GateKnown(cfg, s1, pap);
    var b, s2 := ListenAll(cfg, s1, pap);
    var c, s3 := BringHeaders(cfg, s2, par, RELAY);
    var e, s4 := BringHeaders(cfg, s3, rpar, d);
    LeadsThen(cfg, s, a, s1, b, s2);
    LeadsThen(cfg, s, a + b, s2, c, s3);
    LeadsThen(cfg, s, a + b + c, s3, e, s4);
    BothLevels(s1, s2, s3, s4, p, d);
    steps, s' := a + b + c + e, s4;
  }

  lemma DeliverTor(cfg: Config, s: Sys, p: Pid, d: Pid) returns (steps: seq<Step>, s': Sys)
    requires Good(cfg, s) && IsPair(cfg, p, d) && cfg.mode == R.ToR
    ensures Leads(cfg, s, steps, s') && PathDone(cfg, s', p, d)
  {
    hide Run, Schedule, Inv, SetUp, Running;
    var a, s1 := BringBothHeaders(cfg, s, p, d);
    OpenPap(cfg, s1, p, d);
    LaneIsThere(cfg, s1, Rid(p, R.Pap), d);
    var b, s2 := BringXtxs(cfg, s1, Rid(p, R.Pap), d);
    LeadsThen(cfg, s, a, s1, b, s2);
    steps, s' := a + b, s2;
  }

  lemma DeliverPair(cfg: Config, s: Sys, p: Pid, d: Pid) returns (steps: seq<Step>, s': Sys)
    requires Good(cfg, s) && IsPair(cfg, p, d)
    ensures Leads(cfg, s, steps, s') && Delivered(cfg, s', p, d)
  {
    hide Run, Schedule, Inv, SetUp, Running;
    match cfg.mode {
      case NoR => steps, s' := DeliverNor(cfg, s, p, d);
      case AoR => steps, s' := DeliverAor(cfg, s, p, d);
      case ToR => steps, s' := DeliverTor(cfg, s, p, d);
    }
    PathDelivers(cfg, s', p, d);
  }

  // ----- all pairs -----

  lemma StepKeepsBlocks(cfg: Config, s: Sys, st: Step, p: Pid)
    requires Enabled(cfg, s, st) && p in s.chains
    ensures p in Apply(cfg, s, st).chains && s.chains[p].blocks <= Apply(cfg, s, st).chains[p].blocks
  {
    hide R.Take, R.Lookup, R.Clear, LinkOf, UserTx, System.Listened;
  }

  lemma {:induction false} RunKeepsBlocks(cfg: Config, s: Sys, steps: seq<Step>, p: Pid)
    requires Run(cfg, s, steps).Some? && p in s.chains
    ensures p in Run(cfg, s, steps).value.chains && s.chains[p].blocks <= Run(cfg, s, steps).value.chains[p].blocks
  {
    hide Apply, Enabled;
    if steps != [] {
      var n := |steps| - 1;
      RunKeepsBlocks(cfg, s, steps[..n], p);
      StepKeepsBlocks(cfg, Run(cfg, s, steps[..n]).value, steps[n], p);
    }
  }

  lemma CommittedGrows(c: C.Chain, c': C.Chain)
    requires c.blocks <= c'.blocks
    ensures Committed(c) <= Committed(c')
  {
    assert c'.blocks == c.blocks + c'.blocks[|c.blocks|..];
    C.FlatConcat(c.blocks, c'.blocks[|c.blocks|..]);
  }

  /** What is delivered stays delivered, and nothing is delivered twice. */
  lemma DeliveredStays(cfg: Config, s: Sys, steps: seq<Step>, s': Sys, p: Pid, d: Pid)
    requires Good(cfg, s) && Leads(cfg, s, steps, s') && IsPair(cfg, p, d) && Delivered(cfg, s, p, d)
    ensures Delivered(cfg, s', p, d)
  {
    ScheduleGood(cfg, s, steps);
    RunKeepsBlocks(cfg, s, steps, d);
    CommittedGrows(s.chains[d], s'.chains[d]);
    FilterMapPrefix(Deliveries(cfg, p, d), Committed(s.chains[d]), Committed(s'.chains[d]));
    StateConserves(cfg, s', p, d);
    CommittedInLedger(s'.chains[d], Deliveries(cfg, p, d));
  }

  ghost predicate AllDelivered(cfg: Config, s: Sys, pairs: set<(Pid, Pid)>) {
    forall p, d | (p, d) in pairs :: Delivered(cfg, s, p, d)
  }

  lemma {:induction false} DeliverPairs(cfg: Config, s: Sys, pairs: set<(Pid, Pid)>) returns (steps: seq<Step>, s': Sys)
    requires Good(cfg, s) && forall p, d | (p, d) in pairs :: IsPair(cfg, p, d)
    ensures Leads(cfg, s, steps, s') && AllDelivered(cfg, s', pairs)
    decreases |pairs|
  {
    hide Run, Schedule, Inv, SetUp, Running;
    if pairs == {} {
      steps, s' := [], s;
      LeadsNothing(cfg, s);
    } else {
      var q :| q in pairs;
      var a, s1 := DeliverPairs(cfg, s, pairs - {q});
      var b, s2 := DeliverPair(cfg, s1, q.0, q.1);
      LeadsThen(cfg, s, a, s1, b, s2);
      steps, s' := a + b, s2;
      forall p, d | (p, d) in pairs ensures Delivered(cfg, s2, p, d) {
        if (p, d) != q {
          assert (p, d) in pairs - {q};
          DeliveredStays(cfg, s1, b, s2, p, d);
        }
      }
    }
  }

  function Pairs(cfg: Config): set<(Pid, Pid)> {
    set p, d | p in cfg.paras && d in cfg.paras && p != d :: (p, d)
  }

  /** No deadlock: after any run in which every task is still alive there is a finite schedule,
      in which no user puts and nothing fails, that delivers everything users have asked for,
      between all pairs of chains. */
  lemma NoDeadlock(cfg: Config, s0: Sys, history: seq<Step>) returns (schedule: seq<Step>, s': Sys)
    requires Init(cfg, s0) && Run(cfg, s0, history).Some? && Running(cfg, Run(cfg, s0, history).value)
    ensures Schedule(schedule) && Run(cfg, s0, history + schedule) == Some(s')
    ensures AllDelivered(cfg, s', Pairs(cfg))
    ensures forall p, d | p in Run(cfg, s0, history).value.chains ::
      p in s'.chains && Asked(cfg, s', p, d) == Asked(cfg, Run(cfg, s0, history).value, p, d)
  {
    var s := Run(cfg, s0, history).value;
    Reachable(cfg, s0, history);
    RunSetUp(cfg, s0, history);
    Soundness.RunSound(cfg, s0, history);
    schedule, s' := DeliverPairs(cfg, s, Pairs(cfg));
    RunConcat(cfg, s0, history, schedule);
    ScheduleGood(cfg, s, schedule);
  }

  /** So whatever users ask for with sound transactions is delivered, as long as nothing fails: in no
      order of steps do they get the system stuck. */
  lemma SoundIsDelivered(cfg: Config, s0: Sys, history: seq<Step>) returns (schedule: seq<Step>, s': Sys)
    requires Init(cfg, s0) && Run(cfg, s0, history).Some? && forall i | 0 <= i < |history| :: Gentle(history[i])
    requires forall p | p in AllPids(cfg) :: p in cfg.sizes && cfg.sizes[p] >= 1
    ensures Schedule(schedule) && Run(cfg, s0, history + schedule) == Some(s') && AllDelivered(cfg, s', Pairs(cfg))
  {
    hide AllDelivered, Run;
    RunRunning(cfg, s0, history);
    schedule, s' := NoDeadlock(cfg, s0, history);
  }
}
