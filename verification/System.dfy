/** The cross-chain system as a state machine: chains, gateways and users, in any interleaving,
    in the three modes NoR, AoR and ToR. */
module System {
  import opened Wrappers
  import opened Types
  import opened Relayer
  import LightClient
  import C = Chain

  /** A deployment: the mode, the parallel chains, and per chain its class and block size. */
  datatype Config = Config(mode: Mode, paras: set<Pid>, classes: map<Pid, ChainClass>, sizes: map<Pid, nat>)

  predicate ValidConfig(cfg: Config) {
    && (forall p | p in cfg.paras :: p >= 0 && p != RELAY)
    && AllPids(cfg) <= cfg.classes.Keys
    && AllPids(cfg) <= cfg.sizes.Keys
    && (forall p | p in AllPids(cfg) :: cfg.classes[p] == Ethereum || cfg.classes[p] == Tendermint)
  }

  function AllPids(cfg: Config): set<Pid> {
    if cfg.mode == NoR then cfg.paras else cfg.paras + {RELAY}
  }

  /** A gateway process is known by its source chain and its role. */
  datatype Rid = Rid(src: Pid, role: Role)

  predicate IsRid(cfg: Config, rid: Rid) {
    match cfg.mode
    case NoR => rid.src in cfg.paras && rid.role == Full
    case AoR => rid.src in AllPids(cfg) && rid.role == Full
    case ToR => (rid.src in AllPids(cfg) && rid.role == Par) || (rid.src in cfg.paras && rid.role == Pap)
  }

  /** The destinations registered with a gateway. */
  function Dsts(cfg: Config, rid: Rid): set<Pid> {
    if rid.src == RELAY then cfg.paras
    else if cfg.mode == NoR || rid.role == Pap then cfg.paras - {rid.src}
    else {RELAY}
  }

  predicate IsLane(cfg: Config, rid: Rid, d: Pid) {
    IsRid(cfg, rid) && d in Dsts(cfg, rid)
  }

  function ClassOf(cfg: Config, p: Pid): ChainClass {
    if p in cfg.classes then cfg.classes[p] else Tendermint
  }

  function LinkOf(cfg: Config, rid: Rid, d: Pid): Link {
    Link(cfg.mode, rid.role, rid.src, ClassOf(cfg, rid.src), d, ClassOf(cfg, d), ClassOf(cfg, RELAY))
  }

  /** `start` is the height at which the listener began, `next` the one it reads next. */
  datatype Gate = Gate(start: nat, next: nat, lanes: map<Pid, Lane>)

  datatype Sys = Sys(chains: map<Pid, C.Chain>, gates: map<Rid, Gate>, now: Time)

  ghost predicate Shape(cfg: Config, s: Sys) {
    && s.chains.Keys == AllPids(cfg)
    && (forall rid :: rid in s.gates <==> IsRid(cfg, rid))
    && (forall rid | rid in s.gates :: s.gates[rid].lanes.Keys == Dsts(cfg, rid))
  }

  // ----- steps -----

  datatype Step =
    | UserPut(p: Pid, tx: Tx, t: Time)
    | Propose(p: Pid, gen: seq<Tx>, t: Time)
    | Exec(p: Pid)
    | Commit(p: Pid, t: Time)
    | Listen(rid: Rid, t: Time)
    | SendHeader(rid: Rid, d: Pid, t: Time)
    | HeaderFails(rid: Rid, d: Pid)
    | Take(rid: Rid, d: Pid, t: Time)
    | PollInter(rid: Rid, d: Pid)
    | Lookup(rid: Rid, d: Pid)
    | PollDst(rid: Rid, d: Pid)
    | Clear(rid: Rid, d: Pid, t: Time)
    | SendXtx(rid: Rid, d: Pid, t: Time)
    | XtxFails(rid: Rid, d: Pid)

  /** What users and the built-in generator put on chain p: cross-chain transactions for
      another parallel chain, or ordinary ones; with any call, to a contract or to nothing, but a
      well-formed header synchronisation. */
  predicate UserItem(cfg: Config, p: Pid, item: Item) {
    && item.sender.User?
    && (item.kind == CtxSrc || item.kind == Ordinary)
    && (item.kind == CtxSrc ==> p in cfg.paras && item.dst in cfg.paras && item.dst != p)
    && !item.call.HeaderSync?
  }

  /** The memo is the user's too: with any times and marks, or none. A pool refuses one whose list
      of admissions is no list. Of CTX-SRC the fields that listeners read are well-formed. */
  predicate UserTx(cfg: Config, p: Pid, tx: Tx) {
    && UserItem(cfg, p, tx.item)
    && NoPutList !in tx.trace.flaws
    && (tx.item.kind == CtxSrc ==> NoRelayerList !in tx.trace.flaws && NoNumber !in tx.trace.flaws)
  }

  predicate LaneExists(s: Sys, rid: Rid, d: Pid) {
    rid in s.gates && d in s.gates[rid].lanes && rid.src in s.chains && d in s.chains
  }

  predicate Enabled(cfg: Config, s: Sys, st: Step) {
    match st
    case UserPut(p, tx, t) => p in s.chains && t >= s.now && UserTx(cfg, p, tx)
    case Propose(p, gen, t) =>
      && p in s.chains && p in cfg.sizes && t >= s.now && C.CanPropose(s.chains[p])
      && forall i | 0 <= i < |gen| :: gen[i].item.kind == CtxSrc && UserTx(cfg, p, gen[i])
    case Exec(p) => p in s.chains && C.CanExec(s.chains[p])
    case Commit(p, t) => p in s.chains && t >= s.now && C.CanCommit(s.chains[p])
    case Listen(rid, t) => rid in s.gates && rid.src in s.chains && t >= s.now && s.gates[rid].next < |s.chains[rid.src].blocks|
    case SendHeader(rid, d, t) =>
      LaneExists(s, rid, d) && t >= s.now && LaneOf(s, rid, d).headerAlive && LaneOf(s, rid, d).headerQ != []
    case HeaderFails(rid, d) => LaneExists(s, rid, d)
    case Take(rid, d, t) => LaneExists(s, rid, d) && t >= s.now && CanTake(LaneOf(s, rid, d))
    case PollInter(rid, d) => LaneExists(s, rid, d) && RELAY in s.chains && CanPollInter(LaneOf(s, rid, d))
    case Lookup(rid, d) => LaneExists(s, rid, d) && RELAY in s.chains && CanLookup(LaneOf(s, rid, d))
    case PollDst(rid, d) => LaneExists(s, rid, d) && CanPollDst(LaneOf(s, rid, d))
    case Clear(rid, d, t) => LaneExists(s, rid, d) && t >= s.now && CanClear(LaneOf(s, rid, d))
    case SendXtx(rid, d, t) => LaneExists(s, rid, d) && t >= s.now && CanSend(LaneOf(s, rid, d))
    case XtxFails(rid, d) => LaneExists(s, rid, d)
  }

  function LaneOf(s: Sys, rid: Rid, d: Pid): Lane
    requires rid in s.gates && d in s.gates[rid].lanes
  {
    s.gates[rid].lanes[d]
  }

  function SetChain(s: Sys, p: Pid, c: C.Chain): Sys {
    s.(chains := s.chains[p := c])
  }

  function SetLane(s: Sys, rid: Rid, d: Pid, l: Lane): Sys
    requires rid in s.gates
  {
    s.(gates := s.gates[rid := s.gates[rid].(lanes := s.gates[rid].lanes[d := l])])
  }

  /** Reading one block: its header and its transactions go to the queues of every destination. */
  function Listened(cfg: Config, rid: Rid, g: Gate, b: Block, t: Time): Gate {
    g.(next := g.next + 1,
       lanes := map d | d in g.lanes ::
         g.lanes[d].(headerQ := g.lanes[d].headerQ + if CarriesHeaders(rid.role) then [HeaderOf(b)] else [],
                     xtxQ := g.lanes[d].xtxQ + Route(cfg.mode, rid.role, rid.src, d, b.txs, t)))
  }

  function RelayMaxn(s: Sys, p: Pid): nat
    requires RELAY in s.chains
  {
    LightClient.Maxn(s.chains[RELAY].client, p)
  }

  function Apply(cfg: Config, s: Sys, st: Step): Sys
    requires Enabled(cfg, s, st)
  {
    match st
    case UserPut(p, tx, t) => SetChain(s, p, C.Put(s.chains[p], tx, t)).(now := t)
    case Propose(p, gen, t) => SetChain(s, p, C.Propose(s.chains[p], gen, cfg.sizes[p], t)).(now := t)
    case Exec(p) => SetChain(s, p, C.ExecStep(s.chains[p]))
    case Commit(p, t) => SetChain(s, p, C.Commit(s.chains[p], t)).(now := t)
    case Listen(rid, t) =>
      var g := s.gates[rid];
      s.(gates := s.gates[rid := Listened(cfg, rid, g, s.chains[rid.src].blocks[g.next], t)], now := t)
    case SendHeader(rid, d, t) =>
      var l := LaneOf(s, rid, d);
      var tx := NewTx(HeaderItem(LinkOf(cfg, rid, d), l.headerQ[0]), NO_TRACE);
      SetChain(SetLane(s, rid, d, l.(headerQ := l.headerQ[1..])), d, C.Put(s.chains[d], tx, t)).(now := t)
    case HeaderFails(rid, d) => SetLane(s, rid, d, LaneOf(s, rid, d).(headerAlive := false))
    case Take(rid, d, t) => SetLane(s, rid, d, Relayer.Take(LinkOf(cfg, rid, d), LaneOf(s, rid, d), t)).(now := t)
    case PollInter(rid, d) => SetLane(s, rid, d, Relayer.PollInter(LaneOf(s, rid, d), RelayMaxn(s, rid.src)))
    case Lookup(rid, d) =>
      var l := LaneOf(s, rid, d);
      SetLane(s, rid, d, Relayer.Lookup(l, LightClient.QueryCsHeight(s.chains[RELAY].client, rid.src, l.pc.xtx.height)))
    case PollDst(rid, d) =>
      var watched := Watched(LinkOf(cfg, rid, d));
      SetLane(s, rid, d, Relayer.PollDst(LaneOf(s, rid, d), LightClient.Maxn(s.chains[d].client, watched)))
    case Clear(rid, d, t) =>
      var l, link := LaneOf(s, rid, d), LinkOf(cfg, rid, d);
      var s' := SetLane(s, rid, d, Relayer.Clear(link, l)).(now := t);
      if NeedsL1(link, l) then
        SetChain(s', d, C.Put(s.chains[d], NewTx(L1Item(link, l.pc.target, l.pc.xtx), NO_TRACE), t))
      else s'
    case SendXtx(rid, d, t) =>
      var l := LaneOf(s, rid, d);
      SetChain(SetLane(s, rid, d, Sent(l)), d, C.Put(s.chains[d], Outgoing(l, t), t)).(now := t)
    case XtxFails(rid, d) => SetLane(s, rid, d, LaneOf(s, rid, d).(xtxAlive := false))
  }

  /** A step neither adds nor removes a chain or a gateway. */
  lemma KeysStay(cfg: Config, s: Sys, st: Step)
    requires Enabled(cfg, s, st)
    ensures Apply(cfg, s, st).chains.Keys == s.chains.Keys && Apply(cfg, s, st).gates.Keys == s.gates.Keys
  {
    hide C.Put, C.Propose, C.ExecStep, C.Commit, Relayer.Take, Relayer.Lookup, Relayer.Clear, LinkOf, UserTx, Listened;
  }

  /** The chain whose own step it is. */
  predicate OwnStep(st: Step, p: Pid) {
    (st.UserPut? || st.Propose? || st.Exec? || st.Commit?) && st.p == p
  }

  /** A gateway's step that may put something on chain p. */
  predicate GatewayPuts(st: Step, p: Pid) {
    (st.SendHeader? || st.Clear? || st.SendXtx?) && st.d == p
  }

  /** A step that takes place elsewhere. */
  lemma Untouched(cfg: Config, s: Sys, st: Step, p: Pid)
    requires Enabled(cfg, s, st) && p in s.chains && !OwnStep(st, p) && !GatewayPuts(st, p)
    ensures p in Apply(cfg, s, st).chains && Apply(cfg, s, st).chains[p] == s.chains[p]
  {
    hide C.Put, C.Propose, C.ExecStep, C.Commit, Relayer.Take, Relayer.Lookup, Relayer.Clear, LinkOf, UserTx, Listened;
  }

  // ----- runs -----

  /** The state after a sequence of steps; None when one of them is not enabled. */
  function Run(cfg: Config, s: Sys, steps: seq<Step>): Option<Sys> {
    if steps == [] then Some(s) else StepOn(cfg, Run(cfg, s, steps[..|steps| - 1]), steps[|steps| - 1])
  }

  function StepOn(cfg: Config, s: Option<Sys>, st: Step): Option<Sys> {
    if s.Some? && Enabled(cfg, s.value, st) then Some(Apply(cfg, s.value, st)) else None
  }

  lemma RunSnoc(cfg: Config, s: Sys, steps: seq<Step>, st: Step)
    ensures Run(cfg, s, steps + [st]) == StepOn(cfg, Run(cfg, s, steps), st)
  {
    hide StepOn;
    assert (steps + [st])[..|steps|] == steps;
  }

  lemma RunOne(cfg: Config, s: Sys, st: Step)
    requires Enabled(cfg, s, st)
    ensures Run(cfg, s, [st]) == Some(Apply(cfg, s, st))
  {
    var steps := [st];
    assert steps[..|steps| - 1] == [] && Run(cfg, s, steps[..|steps| - 1]) == Some(s);
  }

  lemma {:induction false} RunConcat(cfg: Config, s: Sys, a: seq<Step>, b: seq<Step>)
    requires Run(cfg, s, a).Some?
    ensures Run(cfg, s, a + b) == Run(cfg, Run(cfg, s, a).value, b)
    decreases |b|
  {
    if b == [] {
      assert a + b == a;
    } else {
      hide StepOn;
      var n := |b| - 1;
      RunConcat(cfg, s, a, b[..n]);
      assert a + b == (a + b[..n]) + [b[n]];
      RunSnoc(cfg, s, a + b[..n], b[n]);
    }
  }

  /** Where gateways start: mining is paused, set-up transactions are committed, nothing has
      been relayed, and every listener begins at the latest block of its source. */
  ghost predicate Init(cfg: Config, s: Sys) {
    && ValidConfig(cfg) && Shape(cfg, s)
    && (forall p | p in s.chains :: InitChain(cfg, p, s.chains[p]))
    && (forall rid | rid in s.gates ::
          && s.gates[rid].start == s.gates[rid].next == |s.chains[rid.src].blocks| - 1
          && forall d | d in s.gates[rid].lanes :: s.gates[rid].lanes[d] == NEW_LANE)
  }

  ghost predicate InitChain(cfg: Config, p: Pid, c: C.Chain) {
    && C.Valid(c) && |c.blocks| >= 2 && c.ctx.None? && !c.halted
    && c.client.headers == map[] && c.client.maxn == map[]
    && c.pool == []
    && forall i | 0 <= i < |C.Ledger(c)| :: UserItem(cfg, p, C.Ledger(c)[i]) && C.Ledger(c)[i].kind == Ordinary
  }

  // ----- a start exists -----

  const SET_UP_CHAIN: C.Chain := C.Chain([Block(0, []), Block(1, [])], None, 0, false, [], LightClient.FRESH, false)

  function Rids(cfg: Config): set<Rid> {
    set p, role | p in AllPids(cfg) && role in {Full, Par, Pap} && IsRid(cfg, Rid(p, role)) :: Rid(p, role)
  }

  /** Two empty blocks on every chain, and every gateway at the second one. */
  function Genesis(cfg: Config, now: Time): Sys {
    Sys(map p | p in AllPids(cfg) :: SET_UP_CHAIN,
        map rid | rid in Rids(cfg) :: Gate(1, 1, map d | d in Dsts(cfg, rid) :: NEW_LANE),
        now)
  }

  lemma GenesisShape(cfg: Config, now: Time)
    requires ValidConfig(cfg)
    ensures Shape(cfg, Genesis(cfg, now))
  {
    var s := Genesis(cfg, now);
    forall rid ensures rid in s.gates <==> IsRid(cfg, rid) {
      if IsRid(cfg, rid) {
        assert rid == Rid(rid.src, rid.role) && rid.src in AllPids(cfg) && rid.role in {Full, Par, Pap};
      }
    }
    forall rid | rid in s.gates ensures s.gates[rid].lanes.Keys == Dsts(cfg, rid) {
    }
  }

  lemma SetUpChainIsInit(cfg: Config, p: Pid)
    ensures InitChain(cfg, p, SET_UP_CHAIN)
  {
    assert C.Flat(SET_UP_CHAIN.blocks) == [] by {
      assert SET_UP_CHAIN.blocks[..1] == [Block(0, [])] && SET_UP_CHAIN.blocks[..1][..0] == [];
      assert C.Flat([Block(0, [])]) == C.Flat([]) + [] by { assert [Block(0, [])][..0] == []; }
    }
    assert C.Ledger(SET_UP_CHAIN) == [];
  }

  /** Every deployment has a start. */
  lemma GenesisIsInit(cfg: Config, now: Time)
    requires ValidConfig(cfg)
    ensures Init(cfg, Genesis(cfg, now))
  {
    hide Shape, InitChain;
    var s := Genesis(cfg, now);
    GenesisShape(cfg, now);
    forall p | p in s.chains ensures InitChain(cfg, p, s.chains[p]) {
      SetUpChainIsInit(cfg, p);
    }
    GenesisGates(cfg, now);
  }

  /** Every listener begins at the second of the two blocks. */
  lemma GenesisGates(cfg: Config, now: Time)
    ensures var s := Genesis(cfg, now);
      forall rid | rid in s.gates ::
        && rid.src in s.chains && s.gates[rid].start == s.gates[rid].next == |s.chains[rid.src].blocks| - 1
        && forall d | d in s.gates[rid].lanes :: s.gates[rid].lanes[d] == NEW_LANE
  {
  }
}
