/** Steps that nobody outside takes part in: no user puts, nothing generated, nothing fails.
    They keep the system healthy, and what users have asked for stays the same. */
module Healthy {
  import opened Sequences
  import opened Types
  import opened System
  import opened Invariant
  import opened Frame
  import opened GatewaySteps
  import opened Safety
  import opened Outcome
  import opened Conservation
  import LightClient
  import Soundness
  import Turns
  import LaneSteps
  import R = Relayer
  import C = Chain

  /** The mining loop is running, blocks have room, and nothing that is pending will end the loop. */
  ghost predicate Mining(c: C.Chain, size: nat) {
    !c.halted && size >= 1 && c.idx <= |C.Proposed(c)| && Soundness.StillSound(c, true)
  }

  /** Every mining loop and every gateway task is running. */
  ghost predicate Running(cfg: Config, s: Sys) {
    && (forall p {:trigger Mining(s.chains[p], cfg.sizes[p])} | p in s.chains :: p in cfg.sizes && Mining(s.chains[p], cfg.sizes[p]))
    && (forall rid, d {:trigger LaneExists(s, rid, d)} | LaneExists(s, rid, d) :: LaneOf(s, rid, d).headerAlive && LaneOf(s, rid, d).xtxAlive)
  }

  ghost predicate Good(cfg: Config, s: Sys) {
    Inv(cfg, s) && SetUp(cfg, s) && Soundness.SoundSys(s) && Running(cfg, s)
  }

  predicate Internal(st: Step) {
    && !st.UserPut? && !st.HeaderFails? && !st.XtxFails?
    && (st.Propose? ==> st.gen == [])
  }

  ghost predicate Schedule(steps: seq<Step>) {
    forall i | 0 <= i < |steps| :: Internal(steps[i])
  }

  // ----- nothing fails -----

  /** Executing halts the chain exactly when the call raises outside the exception handler. */
  lemma ExecHalts(c: C.Chain)
    requires C.CanExec(c)
    ensures C.ExecStep(c).halted <==> Crashes(C.Current(c).item.call)
  {
  }

  /** Committing halts it exactly when a transaction of the block is unfit. */
  lemma CommitHalts(c: C.Chain, t: Time)
    requires C.CanCommit(c)
    ensures C.Commit(c, t).halted <==> exists i :: 0 <= i < |c.ctx.value.txs| && Unfit(c.ctx.value.txs[i])
  {
  }

  /** Nothing fails, and what is put is sound. */
  predicate Gentle(st: Step) {
    && !st.HeaderFails? && !st.XtxFails? && (st.UserPut? ==> Sound(st.tx))
    && (st.Propose? ==> Soundness.SoundTxs(st.gen, true))
  }

  /** The steps of a chain by itself keep it mining. */
  lemma OwnStepMining(c: C.Chain, c': C.Chain, gen: seq<Tx>, size: nat, t: Time)
    requires C.Valid(c) && Mining(c, size) && Soundness.SoundTxs(gen, true)
    requires (C.CanPropose(c) && c' == C.Propose(c, gen, size, t)) || (C.CanExec(c) && c' == C.ExecStep(c))
             || (C.CanCommit(c) && c' == C.Commit(c, t))
    ensures Mining(c', size)
  {
    if C.CanPropose(c) {
      Soundness.ProposePending(c, gen, size, t, true);
    } else if C.CanExec(c) {
      C.ExecKeeps(c);
      assert Sound(C.Current(c));
      Soundness.ExecPending(c, true);
    } else {
      Soundness.CommitPending(c, t, true);
    }
  }

  /** The transaction in hand comes from a block that was read. */
  lemma HandHeight(cfg: Config, s: Sys, rid: Rid, d: Pid)
    requires Inv(cfg, s) && LaneExists(s, rid, d) && !LaneOf(s, rid, d).pc.Idle?
    ensures R.CarriesXtxs(rid.role) && s.gates[rid].next <= |s.chains[rid.src].blocks|
    ensures s.gates[rid].start <= LaneOf(s, rid, d).pc.xtx.height < s.gates[rid].next
  {
    LaneParts(cfg, s, rid, d);
    HandHeightIn(cfg, s, rid, d, LaneOf(s, rid, d), s.chains[rid.src], s.gates[rid].start, s.gates[rid].next,
                 Pick(Xtx(rid.src, d), C.Ledger(s.chains[d])));
  }

  lemma HandHeightIn(cfg: Config, s: Sys, rid: Rid, d: Pid, l: R.Lane, c: C.Chain, start: nat, next: nat, onDst: seq<Item>)
    requires C.Valid(c) && !l.pc.Idle?
    requires XtxsFlow(LinkOf(cfg, rid, d), c.blocks, start, next, l.pc, l.xtxQ, onDst)
    ensures R.CarriesXtxs(rid.role) && start <= l.pc.xtx.height < next <= |c.blocks|
  {
    ExpectedHeights(cfg.mode, rid.role, rid.src, d, c.blocks, start, next);
    var all := R.Expected(cfg.mode, rid.role, rid.src, d, c.blocks, start, next);
    assert all[|Carried(onDst)|] == R.ParcelOf(l.pc.xtx);
  }

  /** Only a PAP consumer waits for the relay chain, and never for more than that has synced. */
  lemma WaiterIsPap(cfg: Config, s: Sys, rid: Rid, d: Pid)
    requires Inv(cfg, s) && LaneExists(s, rid, d) && LaneOf(s, rid, d).pc.Waiting?
    ensures IsLane(cfg, rid, d) && rid.role == R.Pap && Syncs(cfg, rid.src, RELAY)
    ensures LaneOf(s, rid, d).syncedInter <= LightClient.Maxn(RelayClient(cfg, s), rid.src)
    ensures rid in s.gates && SyncRid(cfg, rid.src) in s.gates && s.gates[rid].start == s.gates[SyncRid(cfg, rid.src)].start >= 1
  {
    LaneParts(cfg, s, rid, d);
    LaneFacts(cfg, rid, d);
  }

  /** A look-up always finds the header. */
  lemma LookupFinds(cfg: Config, s: Sys, rid: Rid, d: Pid)
    requires Inv(cfg, s) && Enabled(cfg, s, Lookup(rid, d))
    ensures LightClient.QueryCsHeight(s.chains[RELAY].client, rid.src, LaneOf(s, rid, d).pc.xtx.height).Some?
  {
    HandHeight(cfg, s, rid, d);
    WaiterIsPap(cfg, s, rid, d);
    HeadersHaveNoGaps(cfg, s, rid.src, RELAY);
  }

  /** Whether a look-up, should the step be one, finds the header. */
  ghost predicate Finds(s: Sys, st: Step)
    requires st.Lookup? ==> LaneExists(s, st.rid, st.d) && RELAY in s.chains && R.CanLookup(LaneOf(s, st.rid, st.d))
  {
    st.Lookup? ==> LightClient.QueryCsHeight(s.chains[RELAY].client, st.rid.src, LaneOf(s, st.rid, st.d).pc.xtx.height).Some?
  }

  /** A stage that does not fail keeps the consumer alive. */
  lemma ActAlive(link: R.Link, l: R.Lane, act: Turns.Act)
    requires Turns.Can(l, act) && act != Turns.End && (act.Look? ==> act.height.Some?) && l.headerAlive && l.xtxAlive
    ensures Turns.Do(link, l, act).headerAlive && Turns.Do(link, l, act).xtxAlive
  {
  }

  lemma ListenAlive(cfg: Config, s: Sys, st: Step, rid: Rid, d: Pid)
    requires Enabled(cfg, s, st) && (st.Listen? || st.SendHeader?) && st.rid == rid && LaneExists(s, rid, d)
    requires LaneOf(s, rid, d).headerAlive && LaneOf(s, rid, d).xtxAlive
    ensures LaneExists(Apply(cfg, s, st), rid, d)
    ensures LaneOf(Apply(cfg, s, st), rid, d).headerAlive && LaneOf(Apply(cfg, s, st), rid, d).xtxAlive
  {
    hide C.Put, LinkOf, R.Route;
  }

  lemma LaneAlive(cfg: Config, s: Sys, st: Step, rid: Rid, d: Pid)
    requires Enabled(cfg, s, st) && Gentle(st) && LaneExists(s, rid, d) && Finds(s, st)
    requires LaneOf(s, rid, d).headerAlive && LaneOf(s, rid, d).xtxAlive
    ensures LaneExists(Apply(cfg, s, st), rid, d)
    ensures LaneOf(Apply(cfg, s, st), rid, d).headerAlive && LaneOf(Apply(cfg, s, st), rid, d).xtxAlive
  {
    hide Apply, LinkOf, Turns.Do, Turns.Puts;
    KeysStay(cfg, s, st);
    if Turns.OfConsumer(st, rid, d) {
      Turns.StepPlays(cfg, s, st, rid, d);
      ActAlive(LinkOf(cfg, rid, d), LaneOf(s, rid, d), Turns.ActOf(cfg, s, st, rid, d));
    } else if Turns.Aside(st, rid, d) {
      Turns.AsideStays(cfg, s, st, rid, d);
    } else {
      ListenAlive(cfg, s, st, rid, d);
    }
  }

  /** What such a step makes of chain p. */
  lemma StepMining(cfg: Config, s: Sys, st: Step, p: Pid)
    requires Inv(cfg, s) && Soundness.SoundSys(s) && Enabled(cfg, s, st) && Gentle(st)
    requires p in s.chains && p in cfg.sizes && Mining(s.chains[p], cfg.sizes[p])
    ensures p in Apply(cfg, s, st).chains && Mining(Apply(cfg, s, st).chains[p], cfg.sizes[p])
  {
    hide Inv, ChainOk, Shape, Soundness.StillSound, C.ExecStep, C.Propose, C.Commit, C.Valid, R.Take, R.Lookup, UserTx;
    InvChain(cfg, s, p);
    if st.UserPut? && st.p == p {
      Soundness.PutPending(s.chains[p], st.tx, st.t, true);
    } else if OwnStep(st, p) {
      OwnStepMining(s.chains[p], Apply(cfg, s, st).chains[p], if st.Propose? then st.gen else [], cfg.sizes[p], if st.Exec? then 0 else st.t);
    } else if GatewayPuts(st, p) {
      Soundness.GatewayPending(cfg, s, st, p, true);
    } else {
      Untouched(cfg, s, st, p);
    }
  }

  lemma SizeKnown(cfg: Config, s: Sys, p: Pid)
    requires Inv(cfg, s) && Running(cfg, s) && p in s.chains
    ensures p in cfg.sizes && Mining(s.chains[p], cfg.sizes[p])
  {
    hide Mining;
    assert p in cfg.sizes;
    assert Mining(s.chains[p], cfg.sizes[p]);
  }

  lemma StepRunning(cfg: Config, s: Sys, st: Step)
    requires Inv(cfg, s) && Soundness.SoundSys(s) && Running(cfg, s) && Enabled(cfg, s, st) && Gentle(st)
    ensures Running(cfg, Apply(cfg, s, st))
  {
    hide Inv, Mining, Apply, Enabled;
    var s' := Apply(cfg, s, st);
    if st.Lookup? {
      LookupFinds(cfg, s, st.rid, st.d);
    }
    KeysStay(cfg, s, st);
    forall p | p in s'.chains ensures p in cfg.sizes && Mining(s'.chains[p], cfg.sizes[p]) {
      SizeKnown(cfg, s, p);
      StepMining(cfg, s, st, p);
    }
    LanesRunning(cfg, s, st);
  }

  lemma LanesRunning(cfg: Config, s: Sys, st: Step)
    requires Running(cfg, s) && Enabled(cfg, s, st) && Gentle(st) && Finds(s, st)
    ensures forall rid, d {:trigger LaneExists(Apply(cfg, s, st), rid, d)} | LaneExists(Apply(cfg, s, st), rid, d) ::
      LaneOf(Apply(cfg, s, st), rid, d).headerAlive && LaneOf(Apply(cfg, s, st), rid, d).xtxAlive
  {
    forall rid, d | LaneExists(Apply(cfg, s, st), rid, d)
      ensures LaneOf(Apply(cfg, s, st), rid, d).headerAlive && LaneOf(Apply(cfg, s, st), rid, d).xtxAlive
    {
      LaneAlive(cfg, s, st, rid, d);
    }
  }

  lemma StepGood(cfg: Config, s: Sys, st: Step)
    requires Good(cfg, s) && Enabled(cfg, s, st) && Internal(st)
    ensures Good(cfg, Apply(cfg, s, st))
  {
    StepInv(cfg, s, st);
    StepSetUp(cfg, s, st);
    Soundness.StepSound(cfg, s, st);
    StepRunning(cfg, s, st);
  }

  lemma StartRunning(cfg: Config, s: Sys)
    requires Init(cfg, s) && forall p | p in s.chains :: p in cfg.sizes && cfg.sizes[p] >= 1
    ensures Running(cfg, s)
  {
    forall p | p in s.chains ensures Mining(s.chains[p], cfg.sizes[p]) {
      assert InitChain(cfg, p, s.chains[p]);
    }
  }

  /** Every task is running after any run in which nothing fails and what users and the generator
      put is sound. */
  lemma {:induction false} RunRunning(cfg: Config, s0: Sys, steps: seq<Step>)
    requires Init(cfg, s0) && Run(cfg, s0, steps).Some? && forall i | 0 <= i < |steps| :: Gentle(steps[i])
    requires forall p | p in AllPids(cfg) :: p in cfg.sizes && cfg.sizes[p] >= 1
    ensures Running(cfg, Run(cfg, s0, steps).value)
  {
    hide Inv, Running, Apply, Enabled, Gentle;
    if steps == [] {
      StartRunning(cfg, s0);
    } else {
      var n := |steps| - 1;
      RunRunning(cfg, s0, steps[..n]);
      Reachable(cfg, s0, steps[..n]);
      Soundness.RunSound(cfg, s0, steps[..n]);
      StepRunning(cfg, Run(cfg, s0, steps[..n]).value, steps[n]);
    }
  }

  // ----- what was asked stays -----

  function Asked(cfg: Config, s: Sys, p: Pid, d: Pid): seq<Item>
    requires p in s.chains
  {
    FilterMap(Requests(cfg, p, d), C.Ledger(s.chains[p]))
  }

  lemma PutAsks(cfg: Config, c: C.Chain, tx: Tx, t: Time, p: Pid, d: Pid)
    requires C.Valid(c) && tx.item.kind != CtxSrc
    ensures FilterMap(Requests(cfg, p, d), C.Ledger(C.Put(c, tx, t))) == FilterMap(Requests(cfg, p, d), C.Ledger(c))
  {
    C.PutKeeps(c, tx, t);
    FilterMapSnoc(Requests(cfg, p, d), C.Ledger(c), tx.item);
  }

  /** No gateway sends CTX-SRC. */
  lemma SendsNoRequest(cfg: Config, s: Sys, rid: Rid, d: Pid, t: Time)
    requires Inv(cfg, s) && Enabled(cfg, s, SendXtx(rid, d, t))
    ensures R.Outgoing(LaneOf(s, rid, d), t).item.kind != CtxSrc && R.Outgoing(LaneOf(s, rid, d), t).item.call.ValidateState?
  {
    LaneParts(cfg, s, rid, d);
    LaneSteps.SendXtxHolds(LinkOf(cfg, rid, d), s.chains[rid.src].blocks, s.gates[rid].start, s.gates[rid].next, LaneOf(s, rid, d),
                           RelayClient(cfg, s), s.chains[d], s.gates[SyncRid(cfg, d)].start, t, t);
  }

  lemma ChainAsks(cfg: Config, s: Sys, st: Step, p: Pid, d: Pid)
    requires Inv(cfg, s) && Enabled(cfg, s, st) && Internal(st) && p in s.chains
    requires st.Propose? || st.Exec? || st.Commit?
    ensures p in Apply(cfg, s, st).chains && Asked(cfg, Apply(cfg, s, st), p, d) == Asked(cfg, s, p, d)
  {
    hide Inv, ChainOk, Shape, C.Valid;
    var c := s.chains[p];
    InvChain(cfg, s, p);
    if st.p == p {
      match st {
        case Propose(_, gen, t) =>
          C.ProposeKeeps(c, [], cfg.sizes[p], t);
          assert C.Items([]) == [];
          assert C.Ledger(C.Propose(c, [], cfg.sizes[p], t)) == C.Ledger(c);
        case Exec(_) => C.ExecKeeps(c);
        case Commit(_, t) => C.CommitKeeps(c, t);
      }
    }
  }

  /** What a gateway puts on p is not a request. */
  lemma SendAsks(cfg: Config, s: Sys, st: Step, p: Pid, d: Pid)
    requires Inv(cfg, s) && Enabled(cfg, s, st) && (st.SendHeader? || st.Clear? || st.SendXtx?) && st.d == p && p in s.chains
    ensures p in Apply(cfg, s, st).chains && Asked(cfg, Apply(cfg, s, st), p, d) == Asked(cfg, s, p, d)
  {
    hide Inv, ChainOk, Shape, C.Put, C.Ledger, C.Valid;
    var c, l, link := s.chains[p], LaneOf(s, st.rid, p), LinkOf(cfg, st.rid, p);
    InvChain(cfg, s, p);
    match st {
      case SendHeader(_, _, t) => PutAsks(cfg, c, R.NewTx(R.HeaderItem(link, l.headerQ[0]), NO_TRACE), t, p, d);
      case Clear(_, _, t) => PutAsks(cfg, c, R.NewTx(R.L1Item(link, l.pc.target, l.pc.xtx), NO_TRACE), t, p, d);
      case SendXtx(rid, _, t) =>
        SendsNoRequest(cfg, s, rid, p, t);
        PutAsks(cfg, c, R.Outgoing(l, t), t, p, d);
    }
  }

  lemma StepAsks(cfg: Config, s: Sys, st: Step, p: Pid, d: Pid)
    requires Inv(cfg, s) && Enabled(cfg, s, st) && Internal(st) && p in s.chains
    ensures p in Apply(cfg, s, st).chains && Asked(cfg, Apply(cfg, s, st), p, d) == Asked(cfg, s, p, d)
  {
    hide Inv, Apply, Enabled;
    if st.Propose? || st.Exec? || st.Commit? {
      ChainAsks(cfg, s, st, p, d);
    } else if GatewayPuts(st, p) {
      SendAsks(cfg, s, st, p, d);
    } else {
      Untouched(cfg, s, st, p);
    }
  }

  lemma {:induction false} ScheduleGood(cfg: Config, s: Sys, steps: seq<Step>)
    requires Good(cfg, s) && Schedule(steps) && Run(cfg, s, steps).Some?
    ensures Good(cfg, Run(cfg, s, steps).value)
    ensures forall p, d | p in s.chains ::
      p in Run(cfg, s, steps).value.chains && Asked(cfg, Run(cfg, s, steps).value, p, d) == Asked(cfg, s, p, d)
  {
    if steps != [] {
      var n := |steps| - 1;
      ScheduleGood(cfg, s, steps[..n]);
      var mid := Run(cfg, s, steps[..n]).value;
      StepGood(cfg, mid, steps[n]);
      forall p, d | p in s.chains
        ensures p in Run(cfg, s, steps).value.chains && Asked(cfg, Run(cfg, s, steps).value, p, d) == Asked(cfg, s, p, d)
      {
        StepAsks(cfg, mid, steps[n], p, d);
      }
    }
  }
}
