/** Runs of one small deployment: two chains without a relay chain, from the start of
    `System.Genesis`. They show that what is not promised does happen. */
module Example {
  import opened Wrappers
  import opened Types
  import opened System
  import Analysis
  import Halting
  import LightClient
  import StatusFilter
  import R = Relayer
  import C = Chain

  const CFG := Config(R.NoR, {0, 1}, map[0 := Tendermint, 1 := Tendermint], map[0 := 10, 1 := 10])
  const GATE := Rid(0, R.Full)
  const LINK := R.Link(R.NoR, R.Full, 0, Tendermint, 1, Tendermint, Tendermint)

  /** A user asks chain 0, whose type was never set, for a transaction to chain 1. */
  const ASKED := Item(User("alice"), AppInit(1, Tendermint), true, CtxSrc, -1, 1)

  /** The memo has a time of creation, or none. */
  function Ask(init: Option<Time>): Tx {
    Tx(ASKED, NO_TRACE.(init := init), 0, Invalid, NoOut)
  }

  lemma Deployed()
    ensures ValidConfig(CFG) && Init(CFG, Genesis(CFG, 0))
    ensures forall init :: UserTx(CFG, 0, Ask(init))
  {
    GenesisIsInit(CFG, 0);
  }

  // ----- steps of the deployment -----

  /** The steps lead from the start to s. */
  ghost predicate Leads(steps: seq<Step>, s: Sys) {
    Run(CFG, Genesis(CFG, 0), steps) == Some(s)
  }

  lemma Go(steps: seq<Step>, s: Sys, st: Step) returns (steps': seq<Step>, s': Sys)
    requires Leads(steps, s) && Enabled(CFG, s, st)
    ensures steps' == steps + [st] && s' == Apply(CFG, s, st) && Leads(steps', s')
  {
    steps', s' := steps + [st], Apply(CFG, s, st);
    assert steps'[..|steps'| - 1] == steps;
  }

  /** The two chains, and the lane from chain 0 to chain 1. */
  ghost predicate At(s: Sys, a: C.Chain, b: C.Chain, next: nat, l: R.Lane, now: Time) {
    && 0 in s.chains && s.chains[0] == a && 1 in s.chains && s.chains[1] == b
    && GATE in s.gates && s.gates[GATE].next == next && 1 in s.gates[GATE].lanes && s.gates[GATE].lanes[1] == l
    && s.now == now
  }

  lemma Start()
    ensures Leads([], Genesis(CFG, 0)) && At(Genesis(CFG, 0), SET_UP_CHAIN, SET_UP_CHAIN, 1, R.NEW_LANE, 0)
  {
    Deployed();
    var s := Genesis(CFG, 0);
    assert IsRid(CFG, GATE) && GATE in s.gates;
  }

  lemma LinkIs()
    ensures LinkOf(CFG, GATE, 1) == LINK
  {
  }

  // ----- the source -----

  /** The first block that chain 0 mines holds only the given transaction. */
  ghost predicate Mined(a: C.Chain, tx: Tx) {
    |a.blocks| == 3 && a.blocks[1] == Block(1, []) && a.blocks[2] == Block(2, [tx])
  }

  /** The request is executed without success, and committed with success. */
  ghost predicate Requested(tx: Tx) {
    && tx.item == ASKED && tx.height == 2 && tx.out == NoParaType && tx.status == Success
    && tx.trace.commit == [0] && tx.trace.relayer == [] && tx.trace.flaws == {}
  }

  lemma SourceMines(init: Option<Time>) returns (a1: C.Chain, a2: C.Chain, a3: C.Chain, a4: C.Chain, tx: Tx)
    ensures a1 == C.Put(SET_UP_CHAIN, Ask(init), 0) && C.CanPropose(a1) && a2 == C.Propose(a1, [], 10, 0)
    ensures C.CanExec(a2) && a3 == C.ExecStep(a2) && C.CanCommit(a3) && a4 == C.Commit(a3, 0)
    ensures C.Finishes(a2) && !StatusFilter.Guard(a2.client, C.Current(a2).item.call)
    ensures Mined(a4, tx) && Requested(tx) && tx.trace.init == init
  {
    a1 := C.Put(SET_UP_CHAIN, Ask(init), 0);
    a2 := C.Propose(a1, [], 10, 0);
    a3 := C.ExecStep(a2);
    a4 := C.Commit(a3, 0);
    tx := a4.blocks[2].txs[0];
  }

  /** Chain 0 commits the request, with status Success, although executing it failed. */
  lemma SourceCommits(init: Option<Time>) returns (steps: seq<Step>, s: Sys, a: C.Chain, tx: Tx)
    ensures Leads(steps, s) && At(s, a, SET_UP_CHAIN, 1, R.NEW_LANE, 0) && Mined(a, tx) && Requested(tx) && tx.trace.init == init
  {
    Deployed();
    Start();
    var a1, a2, a3, a4, done := SourceMines(init);
    assert UserTx(CFG, 0, Ask(init));
    steps, s := Go([], Genesis(CFG, 0), UserPut(0, Ask(init), 0));
    assert At(s, a1, SET_UP_CHAIN, 1, R.NEW_LANE, 0);
    steps, s := Go(steps, s, Propose(0, [], 0));
    assert At(s, a2, SET_UP_CHAIN, 1, R.NEW_LANE, 0);
    steps, s := Go(steps, s, Exec(0));
    assert At(s, a3, SET_UP_CHAIN, 1, R.NEW_LANE, 0);
    steps, s := Go(steps, s, Commit(0, 0));
    a, tx := a4, done;
  }

  // ----- the listener -----

  function Routed(tx: Tx): Tx {
    R.Heard(tx, tx.item.(kind := CtxDst, src := 0), 2)
  }

  /** The filter for successful transactions lets the failed one through. */
  lemma RoutedAnyway(tx: Tx)
    requires Requested(tx)
    ensures R.Target(R.NoR, R.Full, 0, tx) == 1
    ensures R.Route(R.NoR, R.Full, 0, 1, [tx], 2) == [Routed(tx)]
    ensures R.Route(R.NoR, R.Full, 0, 1, [], 1) == []
  {
    var txs := [tx];
    assert txs[..|txs| - 1] == [];
  }

  /** The lane after both blocks were read. */
  function Full(tx: Tx): R.Lane {
    R.NEW_LANE.(headerQ := [Header(1, []), Header(2, [tx])], xtxQ := [Routed(tx)])
  }

  lemma Listens(steps: seq<Step>, s: Sys, a: C.Chain, tx: Tx) returns (steps': seq<Step>, s': Sys)
    requires Leads(steps, s) && At(s, a, SET_UP_CHAIN, 1, R.NEW_LANE, 0) && Mined(a, tx) && Requested(tx)
    ensures Leads(steps', s') && At(s', a, SET_UP_CHAIN, 3, Full(tx), 2)
  {
    RoutedAnyway(tx);
    steps', s' := Go(steps, s, Listen(GATE, 1));
    assert At(s', a, SET_UP_CHAIN, 2, R.NEW_LANE.(headerQ := [Header(1, [])]), 1);
    steps', s' := Go(steps', s', Listen(GATE, 2));
  }

  // ----- the headers -----

  function HeaderTx(h: Header): Tx {
    R.NewTx(R.HeaderItem(LINK, h), NO_TRACE)
  }

  lemma SendsHeader(steps: seq<Step>, s: Sys, a: C.Chain, b: C.Chain, l: R.Lane) returns (steps': seq<Step>, s': Sys)
    requires Leads(steps, s) && At(s, a, b, 3, l, 2) && l.headerAlive && l.headerQ != []
    ensures Leads(steps', s') && At(s', a, C.Put(b, HeaderTx(l.headerQ[0]), 2), 3, l.(headerQ := l.headerQ[1..]), 2)
  {
    LinkIs();
    steps', s' := Go(steps, s, SendHeader(GATE, 1, 2));
  }

  lemma Executes(steps: seq<Step>, s: Sys, a: C.Chain, b: C.Chain, l: R.Lane, now: Time) returns (steps': seq<Step>, s': Sys)
    requires Leads(steps, s) && At(s, a, b, 3, l, now) && C.CanExec(b)
    ensures Leads(steps', s') && At(s', a, C.ExecStep(b), 3, l, now)
  {
    steps', s' := Go(steps, s, Exec(1));
  }

  lemma Proposes(steps: seq<Step>, s: Sys, a: C.Chain, b: C.Chain, l: R.Lane, now: Time, t: Time) returns (steps': seq<Step>, s': Sys)
    requires Leads(steps, s) && At(s, a, b, 3, l, now) && C.CanPropose(b) && now <= t
    ensures Leads(steps', s') && At(s', a, C.Propose(b, [], 10, t), 3, l, t)
  {
    steps', s' := Go(steps, s, Propose(1, [], t));
  }

  lemma Commits(steps: seq<Step>, s: Sys, a: C.Chain, b: C.Chain, l: R.Lane, now: Time, t: Time) returns (steps': seq<Step>, s': Sys)
    requires Leads(steps, s) && At(s, a, b, 3, l, now) && C.CanCommit(b) && now <= t
    ensures Leads(steps', s') && At(s', a, C.Commit(b, t), 3, l, t)
  {
    steps', s' := Go(steps, s, Commit(1, t));
  }

  /** Chain 1 with both headers synced. */
  ghost predicate Synced(b: C.Chain) {
    && |b.blocks| == 3 && b.ctx.None? && !b.halted && b.pool == []
    && LightClient.Maxn(b.client, 0) == 2 && (0, 2) in b.client.headers && b.client.paratype.None?
  }

  /** Both header synchronisations, each in two steps. */
  lemma HeadersExecute(b: C.Chain, h: Header)
    requires b == C.Put(C.Put(SET_UP_CHAIN, HeaderTx(Header(1, [])), 2), HeaderTx(h), 2) && h.height == 2
    ensures C.CanPropose(b)
    ensures var b1 := C.Propose(b, [], 10, 3);
      C.CanExec(b1) && C.CanExec(C.ExecStep(b1)) && var b3 := C.ExecStep(C.ExecStep(b1));
      C.CanExec(b3) && C.CanExec(C.ExecStep(b3)) && var b5 := C.ExecStep(C.ExecStep(b3));
      C.CanCommit(b5) && Synced(C.Commit(b5, 3))
  {
    var b1 := C.Propose(b, [], 10, 3);
    assert |b1.ctx.value.txs| == 2 && b1.pool == [];
    assert b1.ctx.value.txs[0].item.call == HeaderTx(Header(1, [])).item.call && b1.ctx.value.txs[1].item.call == HeaderTx(h).item.call;
    var b3 := C.ExecStep(C.ExecStep(b1));
    assert b3.idx == 1 && !b3.half && b3.client.maxn == map[0 := 1];
    var b5 := C.ExecStep(C.ExecStep(b3));
    assert b5.idx == 2 && b5.client.maxn[0] == 2;
  }

  /** Chain 1 mines a block of two header synchronisations. */
  lemma MinesHeaders(steps: seq<Step>, s: Sys, a: C.Chain, b: C.Chain, h: Header, l: R.Lane) returns (steps': seq<Step>, s': Sys, b': C.Chain)
    requires b == C.Put(C.Put(SET_UP_CHAIN, HeaderTx(Header(1, [])), 2), HeaderTx(h), 2) && h.height == 2
    requires Leads(steps, s) && At(s, a, b, 3, l, 2)
    ensures Leads(steps', s') && At(s', a, b', 3, l, 3) && Synced(b')
  {
    HeadersExecute(b, h);
    steps', s' := Proposes(steps, s, a, b, l, 2, 3);
    var b1 := C.Propose(b, [], 10, 3);
    steps', s' := Executes(steps', s', a, b1, l, 3);
    steps', s' := Executes(steps', s', a, C.ExecStep(b1), l, 3);
    var b3 := C.ExecStep(C.ExecStep(b1));
    steps', s' := Executes(steps', s', a, b3, l, 3);
    steps', s' := Executes(steps', s', a, C.ExecStep(b3), l, 3);
    var b5 := C.ExecStep(C.ExecStep(b3));
    steps', s' := Commits(steps', s', a, b5, l, 3, 3);
    b' := C.Commit(b5, 3);
  }

  lemma HeadersArrive(steps: seq<Step>, s: Sys, a: C.Chain, tx: Tx) returns (steps': seq<Step>, s': Sys, b: C.Chain)
    requires Leads(steps, s) && At(s, a, SET_UP_CHAIN, 3, Full(tx), 2)
    ensures Leads(steps', s') && At(s', a, b, 3, Full(tx).(headerQ := []), 3) && Synced(b)
  {
    var l := Full(tx);
    var half := C.Put(SET_UP_CHAIN, HeaderTx(l.headerQ[0]), 2);
    var l1 := l.(headerQ := l.headerQ[1..]);
    steps', s' := SendsHeader(steps, s, a, SET_UP_CHAIN, l);
    steps', s' := SendsHeader(steps', s', a, half, l1);
    assert l1.headerQ[1..] == [] && l1.headerQ[0] == Header(2, [tx]);
    steps', s', b := MinesHeaders(steps', s', a, C.Put(half, HeaderTx(Header(2, [tx])), 2), Header(2, [tx]), l.(headerQ := []));
  }

  // ----- the consumer -----

  /** What the consumer sends for the request, and its marks. */
  ghost predicate Forwarded(out: Tx, tx: Tx) {
    && out.item == R.XtxItem(LINK, Routed(tx))
    && out.trace == tx.trace.(relayer := [Mark(Listened, 2), Mark(Ready, 4), Mark(Send, 5)])
  }

  lemma Consumes(l: R.Lane, tx: Tx) returns (l1: R.Lane, l2: R.Lane, l3: R.Lane, out: Tx)
    requires l == Full(tx).(headerQ := []) && Requested(tx)
    ensures R.CanTake(l) && l1 == R.Take(LINK, l, 4)
    ensures R.CanPollDst(l1) && l2 == R.PollDst(l1, 2)
    ensures R.CanClear(l2) && !R.NeedsL1(LINK, l2) && l3 == R.Clear(LINK, l2)
    ensures R.CanSend(l3) && out == R.Outgoing(l3, 5) && Forwarded(out, tx)
  {
    l1 := R.Take(LINK, l, 4);
    l2 := R.PollDst(l1, 2);
    l3 := R.Clear(LINK, l2);
    out := R.Outgoing(l3, 5);
    assert out.trace.relayer == [Mark(Listened, 2), Mark(Ready, 4), Mark(Send, 5)];
  }

  lemma Takes(steps: seq<Step>, s: Sys, a: C.Chain, b: C.Chain, l: R.Lane) returns (steps': seq<Step>, s': Sys)
    requires Leads(steps, s) && At(s, a, b, 3, l, 3) && R.CanTake(l)
    ensures Leads(steps', s') && At(s', a, b, 3, R.Take(LINK, l, 4), 4)
  {
    LinkIs();
    steps', s' := Go(steps, s, Take(GATE, 1, 4));
  }

  lemma Polls(steps: seq<Step>, s: Sys, a: C.Chain, b: C.Chain, l: R.Lane) returns (steps': seq<Step>, s': Sys)
    requires Leads(steps, s) && At(s, a, b, 3, l, 4) && R.CanPollDst(l) && Synced(b)
    ensures Leads(steps', s') && At(s', a, b, 3, R.PollDst(l, 2), 4)
  {
    LinkIs();
    steps', s' := Go(steps, s, PollDst(GATE, 1));
  }

  lemma Clears(steps: seq<Step>, s: Sys, a: C.Chain, b: C.Chain, l: R.Lane) returns (steps': seq<Step>, s': Sys)
    requires Leads(steps, s) && At(s, a, b, 3, l, 4) && R.CanClear(l) && !R.NeedsL1(LINK, l)
    ensures Leads(steps', s') && At(s', a, b, 3, R.Clear(LINK, l), 5)
  {
    LinkIs();
    steps', s' := Go(steps, s, Clear(GATE, 1, 5));
  }

  lemma Sends(steps: seq<Step>, s: Sys, a: C.Chain, b: C.Chain, l: R.Lane) returns (steps': seq<Step>, s': Sys)
    requires Leads(steps, s) && At(s, a, b, 3, l, 5) && R.CanSend(l)
    ensures Leads(steps', s') && At(s', a, C.Put(b, R.Outgoing(l, 5), 5), 3, R.Sent(l), 5)
  {
    steps', s' := Go(steps, s, SendXtx(GATE, 1, 5));
  }

  lemma Forwards(steps: seq<Step>, s: Sys, a: C.Chain, b: C.Chain, tx: Tx) returns (steps': seq<Step>, s': Sys, l: R.Lane, out: Tx)
    requires Leads(steps, s) && At(s, a, b, 3, Full(tx).(headerQ := []), 3) && Synced(b) && Requested(tx)
    ensures Leads(steps', s') && At(s', a, C.Put(b, out, 5), 3, l, 5) && Forwarded(out, tx)
  {
    var l1, l2, l3;
    l1, l2, l3, out := Consumes(Full(tx).(headerQ := []), tx);
    steps', s' := Takes(steps, s, a, b, Full(tx).(headerQ := []));
    steps', s' := Polls(steps', s', a, b, l1);
    steps', s' := Clears(steps', s', a, b, l2);
    steps', s' := Sends(steps', s', a, b, l3);
    l := R.Sent(l3);
  }

  /** The forwarded transaction, committed on chain 1 at time 7. */
  ghost predicate Delivered(b: C.Chain, done: Tx, out: Tx) {
    && |b.blocks| == 4 && b.blocks[3].txs == [done] && done.item == out.item && done.out == NoParaType
    && done.trace.init == out.trace.init && done.trace.flaws == {} && done.trace.commit == [0, 7] && done.trace.relayer == out.trace.relayer
  }

  lemma DestinationMines(b: C.Chain, out: Tx, tx: Tx) returns (b1: C.Chain, b2: C.Chain, b3: C.Chain, done: Tx)
    requires Synced(b) && Forwarded(out, tx) && Requested(tx)
    ensures C.CanPropose(C.Put(b, out, 5)) && b1 == C.Propose(C.Put(b, out, 5), [], 10, 6)
    ensures C.CanExec(b1) && b2 == C.ExecStep(b1)
    ensures C.CanCommit(b2) && b3 == C.Commit(b2, 7) && Delivered(b3, done, out)
  {
    b1 := C.Propose(C.Put(b, out, 5), [], 10, 6);
    assert b1.ctx.value.txs == [C.Popped(C.Pooled(out, 5), 6)];
    b2 := C.ExecStep(b1);
    b3 := C.Commit(b2, 7);
    done := b3.blocks[3].txs[0];
  }

  /** The run of a request that fails on its source: committed there as a success, and forwarded
      and delivered like any other. */
  lemma FailureIsDelivered(init: Option<Time>) returns (steps: seq<Step>, s: Sys, tx: Tx, done: Tx)
    ensures Init(CFG, Genesis(CFG, 0)) && Run(CFG, Genesis(CFG, 0), steps) == Some(s) && 0 in s.chains && 1 in s.chains
    ensures |s.chains[0].blocks| == 3 && s.chains[0].blocks[2].txs == [tx]
    ensures tx.item.kind == CtxSrc && tx.item.dst == 1 && StatusFilter.Failed(tx.out) && tx.status == Success
    ensures |s.chains[1].blocks| == 4 && s.chains[1].blocks[3].txs == [done]
    ensures done.item.kind == CtxDst && done.item.call == ValidateState(0, Tendermint, 2, Routed(tx))
    ensures done.trace.init == init && done.trace.flaws == {} && done.trace.commit == [0, 7]
    ensures done.trace.relayer == [Mark(Listened, 2), Mark(Ready, 4), Mark(Send, 5)]
  {
    Deployed();
    var a, b, l, out;
    steps, s, a, tx := SourceCommits(init);
    steps, s := Listens(steps, s, a, tx);
    steps, s, b := HeadersArrive(steps, s, a, tx);
    steps, s, l, out := Forwards(steps, s, a, b, tx);
    var b1, b2, b3;
    b1, b2, b3, done := DestinationMines(b, out, tx);
    steps, s := Proposes(steps, s, a, C.Put(b, out, 5), l, 5, 6);
    steps, s := Executes(steps, s, a, b1, l, 6);
    steps, s := Commits(steps, s, a, b2, l, 6, 7);
  }

  /** On its way the times of the stages add up to 5, and the latency is 7: for 2 it waited to be
      listened to. */
  lemma StagesFallShort() returns (steps: seq<Step>, s: Sys, done: Tx)
    ensures Init(CFG, Genesis(CFG, 0)) && Run(CFG, Genesis(CFG, 0), steps) == Some(s)
    ensures 1 in s.chains && |s.chains[1].blocks| == 4 && s.chains[1].blocks[3].txs == [done] && done.item.kind == CtxDst
    ensures Analysis.Readable(done.trace)
    ensures Analysis.SrcStage(done.trace) == 0 && Analysis.RlyStage(done.trace) == 3 && Analysis.DstStage(done.trace) == 2
    ensures Analysis.Latency(done.trace) == 7 && Analysis.Pickup(done.trace) == 2
  {
    var tx;
    steps, s, tx, done := FailureIsDelivered(Some(0));
  }

  /** A request whose memo has no time of creation is delivered all the same, and then the analysis
      of any list that it is in fails. */
  lemma NoTimeIsDelivered() returns (steps: seq<Step>, s: Sys, done: Tx)
    ensures Init(CFG, Genesis(CFG, 0)) && Run(CFG, Genesis(CFG, 0), steps) == Some(s)
    ensures 1 in s.chains && |s.chains[1].blocks| == 4 && s.chains[1].blocks[3].txs == [done] && done.item.kind == CtxDst
    ensures !Analysis.Readable(done.trace)
    ensures forall memos | done.trace in memos :: !Analysis.AllReadable(memos)
  {
    var tx;
    steps, s, tx, done := FailureIsDelivered(None);
  }

  // ----- a halted chain -----

  /** Two users, two ways to end a mining loop: a call to an address at which nothing is deployed, and
      a memo whose commit times are no list. */
  const CALL := Tx(Item(User("bob"), NoContract, true, Ordinary, -1, -1), NO_TRACE, 0, Invalid, NoOut)
  const MEMO := Tx(Item(User("carol"), SetKeys, true, Ordinary, -1, -1), NO_TRACE.(flaws := {NoCommitList}), 0, Invalid, NoOut)

  lemma Alone(tx: Tx) returns (a1: C.Chain, a2: C.Chain)
    ensures a1 == C.Put(SET_UP_CHAIN, tx, 0) && C.CanPropose(a1) && a2 == C.Propose(a1, [], 10, 0)
    ensures C.CanExec(a2) && C.Current(a2) == C.Popped(C.Pooled(tx, 0), 0) && a2.blocks == SET_UP_CHAIN.blocks
    ensures C.Proposed(a2) == [C.Current(a2)] && a2.idx == 0 && !a2.half
  {
    a1 := C.Put(SET_UP_CHAIN, tx, 0);
    a2 := C.Propose(a1, [], 10, 0);
  }

  lemma HaltsMining(tx: Tx, a2: C.Chain)
    requires !Sound(tx) && !tx.item.call.HeaderSync? && C.CanExec(a2) && C.Current(a2) == C.Popped(C.Pooled(tx, 0), 0)
    requires C.Proposed(a2) == [C.Current(a2)] && a2.idx == 0
    ensures if Crashes(tx.item.call) then C.ExecStep(a2) == a2.(halted := true)
            else C.CanCommit(C.ExecStep(a2)) && C.Commit(C.ExecStep(a2), 0) == C.ExecStep(a2).(halted := true)
                 && C.ExecStep(a2).blocks == a2.blocks
  {
    if !Crashes(tx.item.call) {
      var txs := C.ExecStep(a2).ctx.value.txs;
      assert |txs| == 1 && Unfit(txs[0]);
    }
  }

  /** What leads to the end of the mining loop. */
  function Ending(tx: Tx): seq<Step> {
    [UserPut(0, tx, 0), Propose(0, [], 0), Exec(0)] + if Crashes(tx.item.call) then [] else [Commit(0, 0)]
  }

  lemma Performs(tx: Tx, a1: C.Chain, a2: C.Chain) returns (s: Sys)
    requires UserTx(CFG, 0, tx) && a1 == C.Put(SET_UP_CHAIN, tx, 0)
    requires C.CanPropose(a1) && a2 == C.Propose(a1, [], 10, 0) && C.CanExec(a2)
    ensures Leads([UserPut(0, tx, 0), Propose(0, [], 0), Exec(0)], s)
    ensures At(s, C.ExecStep(a2), SET_UP_CHAIN, 1, R.NEW_LANE, 0)
  {
    hide C.Put, C.Propose, C.ExecStep, UserTx, Run;
    Start();
    var steps;
    steps, s := Go([], Genesis(CFG, 0), UserPut(0, tx, 0));
    assert At(s, a1, SET_UP_CHAIN, 1, R.NEW_LANE, 0);
    steps, s := Go(steps, s, Propose(0, [], 0));
    assert At(s, a2, SET_UP_CHAIN, 1, R.NEW_LANE, 0);
    steps, s := Go(steps, s, Exec(0));
    assert steps == [UserPut(0, tx, 0), Propose(0, [], 0), Exec(0)];
  }

  lemma EndsMining(tx: Tx) returns (s: Sys)
    requires UserTx(CFG, 0, tx) && !Sound(tx)
    ensures Leads(Ending(tx), s) && 0 in s.chains && s.chains[0].halted && s.chains[0].blocks == SET_UP_CHAIN.blocks
  {
    hide C.Put, C.Propose, C.ExecStep, C.Commit, Run;
    var a1, a2 := Alone(tx);
    HaltsMining(tx, a2);
    s := Performs(tx, a1, a2);
    var steps := [UserPut(0, tx, 0), Propose(0, [], 0), Exec(0)];
    if !Crashes(tx.item.call) {
      steps, s := Go(steps, s, Commit(0, 0));
    }
    assert steps == Ending(tx);
  }

  /** Any one transaction of a user that calls nothing, deploys what is no contract, has a message, a field
      or commit times that committing cannot deal with, ends the mining loop of the fresh chain 0, in three
      or four steps: it never has another block. */
  lemma UserHaltsChain(tx: Tx) returns (s: Sys)
    requires UserTx(CFG, 0, tx)
    requires tx.item.call.NoContract? || tx.item.call == Deploy(Garbage) || tx.item.call == Malformed(false)
             || !tx.item.text || NoCommitList in tx.trace.flaws
    ensures Init(CFG, Genesis(CFG, 0)) && Run(CFG, Genesis(CFG, 0), Ending(tx)) == Some(s) && 0 in s.chains && s.chains[0].halted
    ensures forall more, s' | Run(CFG, s, more) == Some(s') :: 0 in s'.chains && s'.chains[0].blocks == SET_UP_CHAIN.blocks
  {
    Deployed();
    s := EndsMining(tx);
    forall more, s' | Run(CFG, s, more) == Some(s')
      ensures 0 in s'.chains && s'.chains[0].blocks == SET_UP_CHAIN.blocks
    {
      Halting.HaltedForGood(CFG, s, more, s', 0);
    }
  }

  /** The call ends it at its execution, the memo at its commit, though its call succeeds. */
  lemma CallAndMemo() returns (s: Sys, s': Sys)
    ensures Run(CFG, Genesis(CFG, 0), [UserPut(0, CALL, 0), Propose(0, [], 0), Exec(0)]) == Some(s)
    ensures Run(CFG, Genesis(CFG, 0), [UserPut(0, MEMO, 0), Propose(0, [], 0), Exec(0), Commit(0, 0)]) == Some(s')
    ensures 0 in s.chains && s.chains[0].halted && 0 in s'.chains && s'.chains[0].halted
  {
    s := EndsMining(CALL);
    s' := EndsMining(MEMO);
    assert Ending(CALL) == [UserPut(0, CALL, 0), Propose(0, [], 0), Exec(0)];
    assert Ending(MEMO) == [UserPut(0, MEMO, 0), Propose(0, [], 0), Exec(0), Commit(0, 0)];
  }
}
