/** What gateways send never ends a mining loop: it calls a contract, can be hashed and answered,
    and its memo was committed before. So whatever ends one came from a user. */
module Soundness {
  import opened Wrappers
  import opened Types
  import opened System
  import opened Invariant
  import opened GatewaySteps
  import R = Relayer
  import C = Chain
  import Turns

  // ----- one chain -----

  /** All of the transactions, or else those of gateways, are sound. */
  predicate SoundTxs(txs: seq<Tx>, all: bool) {
    forall i | 0 <= i < |txs| :: all || txs[i].item.sender.Gateway? ==> Sound(txs[i])
  }

  /** So are those that the chain has still to commit. */
  predicate StillSound(c: C.Chain, all: bool) {
    SoundTxs(C.Proposed(c), all) && SoundTxs(c.pool, all)
  }

  lemma PutPending(c: C.Chain, tx: Tx, t: Time, all: bool)
    requires StillSound(c, all) && (all || tx.item.sender.Gateway? ==> Sound(tx))
    ensures StillSound(C.Put(c, tx, t), all)
  {
  }

  lemma ProposePending(c: C.Chain, gen: seq<Tx>, size: nat, t: Time, all: bool)
    requires C.CanPropose(c) && StillSound(c, all) && SoundTxs(gen, all)
    ensures StillSound(C.Propose(c, gen, size, t), all)
  {
    var n := C.Taken(|gen|, |c.pool|, size);
    var taken := C.PoppedAll(c.pool[..n], t);
    forall i | 0 <= i < |taken| && (all || taken[i].item.sender.Gateway?) ensures Sound(taken[i]) {
      assert Sound(c.pool[i]);
    }
  }

  lemma ExecPending(c: C.Chain, all: bool)
    requires C.CanExec(c) && StillSound(c, all)
    ensures StillSound(C.ExecStep(c), all)
  {
    var txs, txs' := C.Proposed(c), C.Proposed(C.ExecStep(c));
    forall i | 0 <= i < |txs'| && (all || txs'[i].item.sender.Gateway?) ensures Sound(txs'[i]) {
      assert txs'[i].item == txs[i].item && txs'[i].trace == txs[i].trace;
    }
  }

  lemma CommitPending(c: C.Chain, t: Time, all: bool)
    requires C.CanCommit(c) && StillSound(c, all)
    ensures StillSound(C.Commit(c, t), all)
  {
  }

  // ----- one lane -----

  /** A memo that has been committed once can be committed again. */
  predicate Carriable(tx: Tx) {
    NoCommitList !in tx.trace.flaws
  }

  predicate LaneSound(l: R.Lane) {
    && (forall i | 0 <= i < |l.xtxQ| :: Carriable(l.xtxQ[i]))
    && (!l.pc.Idle? ==> Carriable(l.pc.xtx) && Carriable(l.pc.tx))
  }

  lemma ActSound(link: R.Link, l: R.Lane, act: Turns.Act)
    requires Turns.Can(l, act) && LaneSound(l)
    ensures LaneSound(Turns.Do(link, l, act))
  {
  }

  /** What a consumer sends is sound, if the transaction in its hand was built by it. */
  lemma PutsSound(link: R.Link, l: R.Lane, act: Turns.Act)
    requires Turns.Can(l, act) && LaneSound(l) && (!l.pc.Idle? ==> l.pc.tx.item == R.XtxItem(link, l.pc.xtx))
    ensures forall i | 0 <= i < |Turns.Puts(link, l, act)| :: Sound(Turns.Puts(link, l, act)[i])
  {
  }

  lemma {:induction false} RouteSound(mode: R.Mode, role: R.Role, src: Pid, dst: Pid, txs: seq<Tx>, t: Time)
    requires forall i | 0 <= i < |txs| :: Carriable(txs[i])
    ensures forall i | 0 <= i < |R.Route(mode, role, src, dst, txs, t)| :: Carriable(R.Route(mode, role, src, dst, txs, t)[i])
  {
    if txs != [] {
      RouteSound(mode, role, src, dst, txs[..|txs| - 1], t);
    }
  }

  // ----- the system -----

  ghost predicate LaneThereSound(s: Sys, rid: Rid, d: Pid) {
    LaneExists(s, rid, d) ==> LaneSound(LaneOf(s, rid, d))
  }

  ghost predicate SoundSys(s: Sys) {
    && (forall p | p in s.chains :: StillSound(s.chains[p], false))
    && (forall rid, d {:trigger LaneThereSound(s, rid, d)} :: LaneThereSound(s, rid, d))
  }

  /** The transaction in hand was built from the queue entry. */
  lemma HandBuilt(cfg: Config, s: Sys, rid: Rid, d: Pid)
    requires Inv(cfg, s) && LaneExists(s, rid, d)
    ensures var l := LaneOf(s, rid, d); !l.pc.Idle? ==> l.pc.tx.item == R.XtxItem(LinkOf(cfg, rid, d), l.pc.xtx)
  {
    hide HeadersFlow, HeadersSynced, SentOk, L1First, Waits, SentTrusted, ChainOk;
    LaneParts(cfg, s, rid, d);
  }

  lemma {:induction false} PutAllPending(c: C.Chain, txs: seq<Tx>, t: Time, all: bool)
    requires StillSound(c, all) && forall i | 0 <= i < |txs| :: Sound(txs[i])
    ensures StillSound(Turns.PutAll(c, txs, t), all)
    ensures Turns.PutAll(c, txs, t) == c.(pool := Turns.PutAll(c, txs, t).pool)
  {
    if txs != [] {
      var n := |txs| - 1;
      PutAllPending(c, txs[..n], t, all);
      PutPending(Turns.PutAll(c, txs[..n], t), txs[n], t, all);
    }
  }

  /** What a gateway's step puts on chain p is sound. */
  lemma GatewayPending(cfg: Config, s: Sys, st: Step, p: Pid, all: bool)
    requires Inv(cfg, s) && SoundSys(s) && Enabled(cfg, s, st) && GatewayPuts(st, p) && p in s.chains && StillSound(s.chains[p], all)
    ensures p in Apply(cfg, s, st).chains && StillSound(Apply(cfg, s, st).chains[p], all)
    ensures Apply(cfg, s, st).chains[p] == s.chains[p].(pool := Apply(cfg, s, st).chains[p].pool)
  {
    hide Inv, StillSound, Turns.Do, Turns.PutAll, LaneSound;
    if st.SendHeader? {
      PutPending(s.chains[p], R.NewTx(R.HeaderItem(LinkOf(cfg, st.rid, p), LaneOf(s, st.rid, p).headerQ[0]), NO_TRACE), st.t, all);
    } else {
      var l, link, act := LaneOf(s, st.rid, p), LinkOf(cfg, st.rid, p), Turns.ActOf(cfg, s, st, st.rid, p);
      Turns.StepPlays(cfg, s, st, st.rid, p);
      HandBuilt(cfg, s, st.rid, p);
      assert LaneThereSound(s, st.rid, p);
      PutsSound(link, l, act);
      PutAllPending(s.chains[p], Turns.Puts(link, l, act), Apply(cfg, s, st).now, all);
    }
  }

  lemma OwnPending(cfg: Config, s: Sys, st: Step, p: Pid, all: bool)
    requires Enabled(cfg, s, st) && OwnStep(st, p) && p in s.chains && StillSound(s.chains[p], all)
    requires all ==> (st.UserPut? ==> Sound(st.tx)) && (st.Propose? ==> SoundTxs(st.gen, true))
    ensures p in Apply(cfg, s, st).chains && StillSound(Apply(cfg, s, st).chains[p], all)
  {
    hide StillSound, C.Put, C.Propose, C.ExecStep, C.Commit;
    var c := s.chains[p];
    match st
    case UserPut(_, tx, t) => PutPending(c, tx, t, all);
    case Propose(_, gen, t) =>
      assert SoundTxs(gen, all);
      ProposePending(c, gen, cfg.sizes[p], t, all);
    case Exec(_) => ExecPending(c, all);
    case Commit(_, t) => CommitPending(c, t, all);
  }

  lemma ListenSound(cfg: Config, s: Sys, rid: Rid, d: Pid, t: Time)
    requires Inv(cfg, s) && LaneExists(s, rid, d) && LaneSound(LaneOf(s, rid, d)) && Enabled(cfg, s, Listen(rid, t))
    ensures LaneThereSound(Apply(cfg, s, Listen(rid, t)), rid, d)
  {
    hide Inv, ChainOk;
    var b := s.chains[rid.src].blocks[s.gates[rid].next];
    InvChain(cfg, s, rid.src);
    assert C.BlockOk(b, s.gates[rid].next);
    forall i | 0 <= i < |b.txs| ensures Carriable(b.txs[i]) {
      assert !Unfit(b.txs[i]);
    }
    RouteSound(cfg.mode, rid.role, rid.src, d, b.txs, t);
  }

  lemma HeaderStepSound(cfg: Config, s: Sys, st: Step, rid: Rid, d: Pid)
    requires Enabled(cfg, s, st) && (st.SendHeader? || st.HeaderFails?) && st.rid == rid && st.d == d
    requires LaneSound(LaneOf(s, rid, d))
    ensures LaneThereSound(Apply(cfg, s, st), rid, d)
  {
    hide C.Put, LinkOf;
  }

  lemma StepLaneSound(cfg: Config, s: Sys, st: Step, rid: Rid, d: Pid)
    requires Inv(cfg, s) && LaneThereSound(s, rid, d) && Enabled(cfg, s, st) && LaneExists(s, rid, d)
    ensures LaneThereSound(Apply(cfg, s, st), rid, d)
  {
    hide Inv, LaneSound, Apply, Turns.Do, Turns.Puts, LinkOf;
    if Turns.OfConsumer(st, rid, d) {
      Turns.StepPlays(cfg, s, st, rid, d);
      ActSound(LinkOf(cfg, rid, d), LaneOf(s, rid, d), Turns.ActOf(cfg, s, st, rid, d));
    } else if Turns.Aside(st, rid, d) {
      Turns.AsideStays(cfg, s, st, rid, d);
    } else if st.Listen? {
      ListenSound(cfg, s, rid, d, st.t);
    } else {
      HeaderStepSound(cfg, s, st, rid, d);
    }
  }

  /** A step makes no lane. */
  lemma LaneWasThere(cfg: Config, s: Sys, st: Step, rid: Rid, d: Pid)
    requires Enabled(cfg, s, st) && Inv(cfg, s) && LaneExists(Apply(cfg, s, st), rid, d)
    ensures LaneExists(s, rid, d)
  {
    hide Apply, Enabled, LaneOk, ChainOk;
    KeysStay(cfg, s, st);
    StepInv(cfg, s, st);
  }

  lemma StepSound(cfg: Config, s: Sys, st: Step)
    requires Inv(cfg, s) && SoundSys(s) && Enabled(cfg, s, st)
    ensures SoundSys(Apply(cfg, s, st))
  {
    hide Inv, Apply, Enabled, StillSound, LaneSound;
    var s' := Apply(cfg, s, st);
    KeysStay(cfg, s, st);
    forall p | p in s'.chains ensures StillSound(s'.chains[p], false) {
      if OwnStep(st, p) {
        OwnPending(cfg, s, st, p, false);
      } else if GatewayPuts(st, p) {
        GatewayPending(cfg, s, st, p, false);
      } else {
        Untouched(cfg, s, st, p);
      }
    }
    forall rid, d ensures LaneThereSound(s', rid, d) {
      if LaneExists(s', rid, d) {
        LaneWasThere(cfg, s, st, rid, d);
        StepLaneSound(cfg, s, st, rid, d);
      }
    }
  }

  /** In every reachable state. */
  lemma {:induction false} RunSound(cfg: Config, s: Sys, steps: seq<Step>)
    requires Init(cfg, s) && Run(cfg, s, steps).Some?
    ensures SoundSys(Run(cfg, s, steps).value)
  {
    if steps == [] {
      forall p | p in s.chains ensures StillSound(s.chains[p], false) {
        assert InitChain(cfg, p, s.chains[p]);
      }
    } else {
      var n := |steps| - 1;
      RunSound(cfg, s, steps[..n]);
      Reachable(cfg, s, steps[..n]);
      StepSound(cfg, Run(cfg, s, steps[..n]).value, steps[n]);
    }
  }
}
