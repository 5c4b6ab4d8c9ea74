/** When a mining loop ends: executing a call may raise outside the executor's exception handler,
    and committing may raise on a memo, a hash or an answer. One such transaction ends the loop of
    its chain for good. */
module Halting {
  import opened Wrappers
  import opened Types
  import opened System
  import opened Invariant
  import opened GatewaySteps
  import opened Healthy
  import opened Soundness
  import C = Chain

  /** The step raises on chain p: it executes a call that crashes, or commits a block with an unfit
      transaction. */
  predicate Raises(s: Sys, st: Step, p: Pid) {
    && p in s.chains
    && ((st == Exec(p) && C.CanExec(s.chains[p]) && Crashes(C.Current(s.chains[p]).item.call))
        || (st.Commit? && st.p == p && C.CanCommit(s.chains[p])
            && exists i :: 0 <= i < |s.chains[p].ctx.value.txs| && Unfit(s.chains[p].ctx.value.txs[i])))
  }

  ghost predicate RaisesAt(cfg: Config, s0: Sys, steps: seq<Step>, k: nat, p: Pid)
    requires k < |steps|
  {
    Run(cfg, s0, steps[..k]).Some? && Raises(Run(cfg, s0, steps[..k]).value, steps[k], p)
  }

  /** What one step does to whether p has halted. */
  lemma StepHalts(cfg: Config, s: Sys, st: Step, p: Pid)
    requires Enabled(cfg, s, st) && p in s.chains
    ensures p in Apply(cfg, s, st).chains
    ensures Apply(cfg, s, st).chains[p].halted <==> s.chains[p].halted || Raises(s, st, p)
  {
    hide C.Propose, C.ExecStep, C.Commit;
    if st == Exec(p) {
      ExecHalts(s.chains[p]);
    } else if st.Commit? && st.p == p {
      CommitHalts(s.chains[p], st.t);
    } else if !OwnStep(st, p) && !GatewayPuts(st, p) {
      Untouched(cfg, s, st, p);
    } else {
      StillRunning(cfg, s, st, p);
    }
  }

  /** Puts and proposals raise nothing. */
  lemma StillRunning(cfg: Config, s: Sys, st: Step, p: Pid)
    requires Enabled(cfg, s, st) && p in s.chains && !st.Exec? && !st.Commit? && (OwnStep(st, p) || GatewayPuts(st, p))
    ensures p in Apply(cfg, s, st).chains && Apply(cfg, s, st).chains[p].halted == s.chains[p].halted
  {
    hide UserTx, LinkOf;
  }

  lemma LastStep(cfg: Config, s0: Sys, steps: seq<Step>, s: Sys)
    requires steps != [] && Run(cfg, s0, steps) == Some(s)
    ensures var n := |steps| - 1;
      && Run(cfg, s0, steps[..n]).Some? && Enabled(cfg, Run(cfg, s0, steps[..n]).value, steps[n])
      && s == Apply(cfg, Run(cfg, s0, steps[..n]).value, steps[n])
  {
  }

  lemma FrontRaises(cfg: Config, s0: Sys, steps: seq<Step>, p: Pid, k: nat)
    requires steps != [] && k < |steps| - 1
    ensures RaisesAt(cfg, s0, steps[..|steps| - 1], k, p) <==> RaisesAt(cfg, s0, steps, k, p)
  {
    assert steps[..|steps| - 1][..k] == steps[..k];
  }

  /** In every run, a chain has halted if and only if one of its steps raised. */
  lemma {:induction false} HaltedExactly(cfg: Config, s0: Sys, steps: seq<Step>, s: Sys, p: Pid)
    requires Reaches(cfg, s0, steps, s) && p in s0.chains
    ensures p in s.chains
    ensures s.chains[p].halted <==> exists k :: 0 <= k < |steps| && RaisesAt(cfg, s0, steps, k, p)
    decreases |steps|
  {
    hide Apply, Enabled, Raises;
    if steps == [] {
      assert InitChain(cfg, p, s.chains[p]);
    } else {
      var n := |steps| - 1;
      var mid := Run(cfg, s0, steps[..n]).value;
      LastStep(cfg, s0, steps, s);
      HaltedExactly(cfg, s0, steps[..n], mid, p);
      StepHalts(cfg, mid, steps[n], p);
      if s.chains[p].halted {
        if mid.chains[p].halted {
          var k :| 0 <= k < n && RaisesAt(cfg, s0, steps[..n], k, p);
          FrontRaises(cfg, s0, steps, p, k);
        } else {
          assert RaisesAt(cfg, s0, steps, n, p);
        }
      }
      if k :| 0 <= k < |steps| && RaisesAt(cfg, s0, steps, k, p) {
        if k < n {
          FrontRaises(cfg, s0, steps, p, k);
        }
      }
    }
  }

  /** It is always a user's transaction that raises. */
  lemma UsersHalt(cfg: Config, s0: Sys, steps: seq<Step>, s: Sys, st: Step, p: Pid) returns (i: nat)
    requires Reaches(cfg, s0, steps, s) && Raises(s, st, p)
    ensures i < |C.Proposed(s.chains[p])| && !Sound(C.Proposed(s.chains[p])[i]) && C.Proposed(s.chains[p])[i].item.sender.User?
    ensures st == Exec(p) ==> i == s.chains[p].idx
  {
    RunSound(cfg, s0, steps);
    var c := s.chains[p];
    assert StillSound(c, false);
    if st == Exec(p) {
      i := c.idx;
    } else {
      i :| 0 <= i < |c.ctx.value.txs| && Unfit(c.ctx.value.txs[i]);
    }
  }

  // ----- when it never ends -----

  /** The step puts nothing unsound on chain p. */
  predicate GivesSound(st: Step, p: Pid) {
    && (st.UserPut? && st.p == p ==> Sound(st.tx))
    && (st.Propose? && st.p == p ==> SoundTxs(st.gen, true))
  }

  lemma StepPending(cfg: Config, s: Sys, st: Step, p: Pid)
    requires Inv(cfg, s) && SoundSys(s) && Enabled(cfg, s, st) && p in s.chains && StillSound(s.chains[p], true) && GivesSound(st, p)
    ensures p in Apply(cfg, s, st).chains && StillSound(Apply(cfg, s, st).chains[p], true)
  {
    hide Inv, Apply, Enabled, StillSound;
    if OwnStep(st, p) {
      OwnPending(cfg, s, st, p, true);
    } else if GatewayPuts(st, p) {
      GatewayPending(cfg, s, st, p, true);
    } else {
      Untouched(cfg, s, st, p);
    }
  }

  /** A chain that is only ever given sound transactions never halts: what a user has to avoid can be
      told from the transaction. */
  lemma {:induction false} NeverHalts(cfg: Config, s0: Sys, steps: seq<Step>, s: Sys, p: Pid)
    requires Reaches(cfg, s0, steps, s) && p in s0.chains && forall k | 0 <= k < |steps| :: GivesSound(steps[k], p)
    ensures p in s.chains && !s.chains[p].halted && StillSound(s.chains[p], true)
    decreases |steps|
  {
    hide Apply, Enabled, StillSound, Raises;
    if steps == [] {
      StartPending(cfg, s, p);
    } else {
      var n := |steps| - 1;
      var mid := Run(cfg, s0, steps[..n]).value;
      LastStep(cfg, s0, steps, s);
      NeverHalts(cfg, s0, steps[..n], mid, p);
      RunSound(cfg, s0, steps[..n]);
      Reachable(cfg, s0, steps[..n]);
      StepPending(cfg, mid, steps[n], p);
      StepHalts(cfg, mid, steps[n], p);
      PendingRaisesNothing(mid, steps[n], p);
    }
  }

  lemma StartPending(cfg: Config, s: Sys, p: Pid)
    requires Init(cfg, s) && p in s.chains
    ensures !s.chains[p].halted && StillSound(s.chains[p], true)
  {
    assert InitChain(cfg, p, s.chains[p]);
  }

  lemma PendingRaisesNothing(s: Sys, st: Step, p: Pid)
    requires p in s.chains && StillSound(s.chains[p], true)
    ensures !Raises(s, st, p)
  {
    var c := s.chains[p];
    forall i | 0 <= i < |C.Proposed(c)| ensures !Unfit(C.Proposed(c)[i]) {
      assert Sound(C.Proposed(c)[i]);
    }
  }

  // ----- what happens after -----

  /** A halted chain still admits transactions, and does nothing else ever again. */
  lemma {:induction false} HaltedForGood(cfg: Config, s: Sys, steps: seq<Step>, s': Sys, p: Pid)
    requires Run(cfg, s, steps) == Some(s') && p in s.chains && s.chains[p].halted
    ensures p in s'.chains && s'.chains[p] == s.chains[p].(pool := s'.chains[p].pool)
    decreases |steps|
  {
    if steps != [] {
      var n := |steps| - 1;
      LastStep(cfg, s, steps, s');
      HaltedForGood(cfg, s, steps[..n], Run(cfg, s, steps[..n]).value, p);
      HaltedStep(cfg, Run(cfg, s, steps[..n]).value, steps[n], p);
    }
  }

  lemma HaltedStep(cfg: Config, s: Sys, st: Step, p: Pid)
    requires Enabled(cfg, s, st) && p in s.chains && s.chains[p].halted
    ensures p in Apply(cfg, s, st).chains
    ensures Apply(cfg, s, st).chains[p] == s.chains[p].(pool := Apply(cfg, s, st).chains[p].pool)
  {
    hide C.Propose, C.ExecStep, C.Commit;
  }
}
