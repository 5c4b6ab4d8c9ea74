/** What executing a relayed transaction answers: whether its header check passes. */
module Outcome {
  import opened Types
  import opened System
  import opened Invariant
  import opened Frame
  import opened GatewaySteps
  import opened Safety
  import LightClient
  import R = Relayer
  import C = Chain

  /** The transactions a chain has executed, with what their execution answered. */
  function Done(c: C.Chain): seq<Tx>
    requires c.idx <= |C.Proposed(c)|
  {
    C.Flat(c.blocks) + C.Proposed(c)[..c.idx]
  }

  /** A transaction that a gateway relayed passes its header check; except that in ToR the
      forwarded transaction itself, whose source header is not on the destination, never does. */
  ghost predicate AnswerOk(cfg: Config, tx: Tx) {
    tx.item.sender.Gateway? && tx.item.kind != CtxHdr ==>
      && tx.item.call.ValidateState?
      && if cfg.mode == R.ToR && !IsL1(tx.item) then tx.out == MissingHeader(tx.item.call.pid, tx.item.call.height)
         else !tx.out.MissingHeader?
  }

  ghost predicate Answers(cfg: Config, s: Sys) {
    forall d | d in s.chains ::
      s.chains[d].idx <= |C.Proposed(s.chains[d])| && AllAnswered(cfg, Done(s.chains[d]))
  }

  ghost predicate AllAnswered(cfg: Config, txs: seq<Tx>) {
    forall i | 0 <= i < |txs| :: AnswerOk(cfg, txs[i])
  }

  // ----- the heights of relayed transactions -----

  lemma {:induction false} RouteHeights(mode: R.Mode, role: R.Role, src: Pid, dst: Pid, txs: seq<Tx>, h: nat)
    requires forall i | 0 <= i < |txs| :: txs[i].height == h
    ensures forall i | 0 <= i < |R.Route(mode, role, src, dst, txs, 0)| :: R.Route(mode, role, src, dst, txs, 0)[i].height == h
  {
    if txs != [] {
      RouteHeights(mode, role, src, dst, txs[..|txs| - 1], h);
    }
  }

  lemma {:induction false} ExpectedHeights(mode: R.Mode, role: R.Role, src: Pid, dst: Pid, blocks: seq<Block>, a: nat, b: nat)
    requires b <= |blocks| && forall h | 0 <= h < |blocks| :: C.BlockOk(blocks[h], h)
    ensures forall i | 0 <= i < |R.Expected(mode, role, src, dst, blocks, a, b)| ::
      a <= R.Expected(mode, role, src, dst, blocks, a, b)[i].height < b
    decreases b
  {
    if a < b {
      ExpectedHeights(mode, role, src, dst, blocks, a, b - 1);
      assert C.BlockOk(blocks[b - 1], b - 1);
      RouteHeights(mode, role, src, dst, blocks[b - 1].txs, b - 1);
    }
  }

  lemma {:induction false} CarriedComplete(items: seq<Item>, item: Item)
    requires item in items && item.call.ValidateState? && !IsL1(item)
    ensures R.ParcelOf(item.call.state) in Carried(items)
  {
    var n := |items| - 1;
    if items[n] != item {
      assert item in items[..n];
      CarriedComplete(items[..n], item);
    }
  }

  /** What a gateway forwarded comes from a block that it has read. */
  lemma AboutRead(link: R.Link, blocks: seq<Block>, start: nat, next: nat, pc: R.Pc, queue: seq<Tx>, onDst: seq<Item>, item: Item)
    requires forall h | 0 <= h < |blocks| :: C.BlockOk(blocks[h], h)
    requires XtxsFlow(link, blocks, start, next, pc, queue, onDst)
    requires item in onDst && item.call.ValidateState? && !IsL1(item)
    ensures next <= |blocks| && start <= About(item) < next
    ensures R.ParcelOf(item.call.state) in R.Expected(link.mode, link.role, link.src, link.dst, blocks, start, next)
  {
    CarriedComplete(onDst, item);
    ExpectedHeights(link.mode, link.role, link.src, link.dst, blocks, start, next);
    var p := R.ParcelOf(item.call.state);
    var all := R.Expected(link.mode, link.role, link.src, link.dst, blocks, start, next);
    var i :| 0 <= i < |Carried(onDst)| && Carried(onDst)[i] == p;
    assert all[i] == p;
  }

  // ----- one execution -----

  /** Every call that a gateway builds names classes for which the destination's contract has a
      verification delay: for headers, for states, and for the L1 states of a PAP gateway. */
  lemma DelaysExist(cfg: Config, rid: Rid, d: Pid)
    requires ValidConfig(cfg) && IsLane(cfg, rid, d)
    ensures var link := LinkOf(cfg, rid, d);
      && LightClient.HasDelay(link.dstClass, link.srcClass, LightClient.HeaderPart)
      && LightClient.HasDelay(link.dstClass, R.StateClass(link), LightClient.StatePart)
      && (rid.role == R.Pap ==> LightClient.HasDelay(link.dstClass, link.interClass, LightClient.StatePart))
  {
    LaneFacts(cfg, rid, d);
  }

  /** The lane that a relayed transaction came by. */
  lemma RelayLane(cfg: Config, s: Sys, d: Pid, item: Item) returns (rid: Rid)
    requires Inv(cfg, s) && d in s.chains && item in C.Ledger(s.chains[d])
    requires item.sender.Gateway? && item.kind != CtxHdr
    ensures item.call.ValidateState? && IsLane(cfg, rid, d) && R.CarriesXtxs(rid.role) && item.sender == Gateway(rid.src, d)
  {
    var c := s.chains[d];
    assert ChainOk(cfg, d, c);
    var i :| 0 <= i < |C.Ledger(c)| && C.Ledger(c)[i] == item;
    assert ItemOk(cfg, d, item);
    var role :| IsLane(cfg, Rid(item.sender.owner, role), d) && R.CarriesXtxs(role);
    rid := Rid(item.sender.owner, role);
  }

  /** What the invariant of its lane says about it. */
  lemma RelayedBy(cfg: Config, link: R.Link, blocks: seq<Block>, start: nat, next: nat, l: R.Lane,
                  relay: LightClient.Client, c: C.Chain, born: nat, item: Item)
    requires C.Valid(c) && LaneHolds(link, blocks, start, next, l, relay, c, born) && R.CarriesXtxs(link.role)
    requires forall h | 0 <= h < |blocks| :: C.BlockOk(blocks[h], h)
    requires item in C.Ledger(c) && item.sender == Gateway(link.src, link.dst) && item.kind != CtxHdr && item.call.ValidateState?
    ensures SentOk(link, item) && Trusted(link, relay, c.client, About(item)) && next <= |blocks|
    ensures IsL1(item) ==> Awaits(link, relay, About(item), item.call.height)
    ensures !IsL1(item) ==> start <= About(item) < next
    ensures !IsL1(item) ==> R.ParcelOf(item.call.state) in R.Expected(link.mode, link.role, link.src, link.dst, blocks, start, next)
  {
    var onDst := Pick(Xtx(link.src, link.dst), C.Ledger(c));
    PickComplete(Xtx(link.src, link.dst), C.Ledger(c), item);
    var k :| 0 <= k < |onDst| && onDst[k] == item;
    assert SentOk(link, onDst[k]);
    if !IsL1(item) {
      AboutRead(link, blocks, start, next, l.pc, l.xtxQ, onDst, item);
    }
  }

  /** What the invariant says about a relayed transaction that is on chain d. */
  lemma Relayed(cfg: Config, s: Sys, d: Pid, item: Item) returns (rid: Rid)
    requires Inv(cfg, s) && d in s.chains && item in C.Ledger(s.chains[d])
    requires item.sender.Gateway? && item.kind != CtxHdr
    ensures item.call.ValidateState? && IsLane(cfg, rid, d) && R.CarriesXtxs(rid.role) && item.sender == Gateway(rid.src, d)
    ensures LaneThere(cfg, s, rid, d) && SentOk(LinkOf(cfg, rid, d), item)
    ensures Trusted(LinkOf(cfg, rid, d), RelayClient(cfg, s), s.chains[d].client, About(item))
    ensures IsL1(item) ==> Awaits(LinkOf(cfg, rid, d), RelayClient(cfg, s), About(item), item.call.height)
    ensures rid in s.gates && (!IsL1(item) ==> s.gates[rid].start <= About(item) < s.gates[rid].next)
    ensures s.gates[rid].next <= |s.chains[rid.src].blocks|
    ensures !IsL1(item) ==>
      R.ParcelOf(item.call.state)
      in R.Expected(cfg.mode, rid.role, rid.src, d, s.chains[rid.src].blocks, s.gates[rid].start, s.gates[rid].next)
  {
    rid := RelayLane(cfg, s, d, item);
    assert LaneThere(cfg, s, rid, d);
    LaneParts(cfg, s, rid, d);
    RelayedBy(cfg, LinkOf(cfg, rid, d), s.chains[rid.src].blocks, s.gates[rid].start, s.gates[rid].next, LaneOf(s, rid, d),
              RelayClient(cfg, s), s.chains[d], s.gates[SyncRid(cfg, d)].start, item);
  }

  /** Whether the header that the relayed item names is on its destination. */
  lemma HeaderThere(cfg: Config, s: Sys, d: Pid, item: Item)
    requires Inv(cfg, s) && d in s.chains && item in C.Ledger(s.chains[d])
    requires item.sender.Gateway? && item.kind != CtxHdr
    ensures item.call.ValidateState?
    ensures LightClient.HeaderVisible(s.chains[d].client, item.call.pid, item.call.height) <==> !(cfg.mode == R.ToR && !IsL1(item))
  {
    var rid := Relayed(cfg, s, d, item);
    var link, h := LinkOf(cfg, rid, d), About(item);
    LaneFacts(cfg, rid, d);
    assert RidOk(cfg, s, rid);
    if rid.role == R.Pap {
      if IsL1(item) {
        var c := TrustedPath(cfg, s, rid, d, h);
      } else {
        assert !Syncs(cfg, rid.src, d) && ChainOk(cfg, d, s.chains[d]);
      }
    } else {
      assert rid == SyncRid(cfg, rid.src) && Syncs(cfg, rid.src, d);
      HeadersHaveNoGaps(cfg, s, rid.src, d);
    }
  }

  lemma ExecAnswer(cfg: Config, s: Sys, d: Pid)
    requires Inv(cfg, s) && d in s.chains && C.CanExec(s.chains[d]) && C.Finishes(s.chains[d])
    ensures C.ExecStep(s.chains[d]).idx == s.chains[d].idx + 1 && C.ExecStep(s.chains[d]).idx <= |C.Proposed(C.ExecStep(s.chains[d]))|
    ensures AnswerOk(cfg, C.Proposed(C.ExecStep(s.chains[d]))[s.chains[d].idx])
  {
    hide C.Ledger;
    var c := s.chains[d];
    var item := C.Current(c).item;
    assert ChainOk(cfg, d, c);
    C.ExecKeeps(c);
    assert item in C.Ledger(c);
    if item.sender.Gateway? && item.kind != CtxHdr {
      HeaderThere(cfg, s, d, item);
    }
  }

  // ----- all of them -----

  lemma AnsweredConcat(cfg: Config, a: seq<Tx>, b: seq<Tx>)
    requires AllAnswered(cfg, a) && AllAnswered(cfg, b)
    ensures AllAnswered(cfg, a + b)
  {
  }

  lemma ExecAnswers(cfg: Config, s: Sys, d: Pid)
    requires Inv(cfg, s) && d in s.chains && C.CanExec(s.chains[d])
    requires AllAnswered(cfg, Done(s.chains[d]))
    ensures C.ExecStep(s.chains[d]).idx <= |C.Proposed(C.ExecStep(s.chains[d]))| && AllAnswered(cfg, Done(C.ExecStep(s.chains[d])))
  {
    var c, c' := s.chains[d], C.ExecStep(s.chains[d]);
    assert ChainOk(cfg, d, c);
    if C.Finishes(c) {
      ExecAnswer(cfg, s, d);
      assert Done(c') == Done(c) + [C.Proposed(c')[c.idx]];
      AnsweredConcat(cfg, Done(c), [C.Proposed(c')[c.idx]]);
    } else {
      assert Done(c') == Done(c);
    }
  }

  lemma CommitAnswers(cfg: Config, c: C.Chain, t: Time)
    requires C.Valid(c) && C.CanCommit(c) && AllAnswered(cfg, Done(c))
    ensures AllAnswered(cfg, Done(C.Commit(c, t)))
  {
    if C.AllFit(c.ctx.value.txs) {
      var b := c.ctx.value;
      var b' := b.(txs := C.CommittedAll(b.txs, b.height, t));
      C.FlatSnoc(c.blocks, b');
      var n := |C.Flat(c.blocks)|;
      forall i | 0 <= i < |Done(C.Commit(c, t))| ensures AnswerOk(cfg, Done(C.Commit(c, t))[i]) {
        assert Done(C.Commit(c, t))[i] == if i < n then Done(c)[i] else C.Committed(Done(c)[i], b.height, t);
        assert AnswerOk(cfg, Done(c)[i]);
      }
    }
  }

  /** A step that executes and commits nothing on d. */
  lemma DoneStays(cfg: Config, s: Sys, st: Step, d: Pid)
    requires d in s.chains && C.Valid(s.chains[d]) && Enabled(cfg, s, st)
    requires !(st.Exec? && st.p == d) && !(st.Commit? && st.p == d)
    ensures d in Apply(cfg, s, st).chains && Apply(cfg, s, st).chains[d].idx <= |C.Proposed(Apply(cfg, s, st).chains[d])|
    ensures Done(Apply(cfg, s, st).chains[d]) == Done(s.chains[d])
  {
    hide R.Take, R.Lookup, R.Clear, LinkOf, UserTx, System.Listened, C.Commit, C.ExecStep;
  }

  lemma StepAnswers(cfg: Config, s: Sys, st: Step)
    requires Inv(cfg, s) && Answers(cfg, s) && Enabled(cfg, s, st)
    ensures Answers(cfg, Apply(cfg, s, st))
  {
    hide AllAnswered, C.ExecStep, C.Propose, LaneOk, Shape;
    var s' := Apply(cfg, s, st);
    KeysStay(cfg, s, st);
    forall d | d in s'.chains
      ensures s'.chains[d].idx <= |C.Proposed(s'.chains[d])| && AllAnswered(cfg, Done(s'.chains[d]))
    {
      InvChain(cfg, s, d);
      if st.Exec? && st.p == d {
        ExecAnswers(cfg, s, d);
      } else if st.Commit? && st.p == d {
        CommitAnswers(cfg, s.chains[d], st.t);
      } else {
        DoneStays(cfg, s, st, d);
      }
    }
  }

  lemma InitAnswers(cfg: Config, s: Sys)
    requires Init(cfg, s)
    ensures Answers(cfg, s)
  {
    forall d | d in s.chains ensures AllAnswered(cfg, Done(s.chains[d])) {
      var c := s.chains[d];
      assert InitChain(cfg, d, c);
      forall i | 0 <= i < |Done(c)| ensures AnswerOk(cfg, Done(c)[i]) {
        assert C.Ledger(c)[i] == Done(c)[i].item && UserItem(cfg, d, C.Ledger(c)[i]);
      }
    }
  }

  /** In every reachable state of NoR and AoR every relayed transaction that was executed has
      passed its header check; in ToR every L1 transaction has, and no other. */
  lemma {:induction false} RelayedAnswers(cfg: Config, s: Sys, steps: seq<Step>)
    requires Init(cfg, s) && Run(cfg, s, steps).Some?
    ensures Answers(cfg, Run(cfg, s, steps).value)
  {
    if steps == [] {
      InitAnswers(cfg, s);
    } else {
      var n := |steps| - 1;
      RelayedAnswers(cfg, s, steps[..n]);
      Reachable(cfg, s, steps[..n]);
      StepAnswers(cfg, Run(cfg, s, steps[..n]).value, steps[n]);
    }
  }
}
