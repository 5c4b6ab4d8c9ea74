/** What the light client of a chain holds after any run, told from the transactions that the chain
    has executed: its state logs and its flags. */
module StateLogs {
  import opened Wrappers
  import opened Sequences
  import opened Types
  import opened System
  import opened GatewaySteps
  import opened Outcome
  import opened StatusFilter
  import LightClient
  import Halting
  import C = Chain

  // ----- the state logs -----

  /** The state that an executed transaction has added to the log of (p, h): that of a call about
      (p, h) which found its header. */
  function Logged(p: Pid, h: nat): Tx -> Option<Tx> {
    (tx: Tx) =>
      if tx.item.call.ValidateState? && tx.item.call.pid == p && tx.item.call.height == h && !tx.out.MissingHeader?
      then Some(tx.item.call.state) else None
  }

  /** Executing one transaction adds to the log what the transaction logs. */
  lemma ExecLogs(c: C.Chain, p: Pid, h: nat)
    requires C.CanExec(c) && C.Finishes(c) && c.idx < |C.Proposed(C.ExecStep(c))|
    ensures var log, tx := LightClient.StateLog(c.client, p, h), C.Proposed(C.ExecStep(c))[c.idx];
      LightClient.StateLog(C.ExecStep(c).client, p, h) == log + if Logged(p, h)(tx).Some? then [Logged(p, h)(tx).value] else []
  {
    var call := C.Current(c).item.call;
    if call.ValidateState? {
      LightClient.ValidationIsLogged(c.client, call.pid, call.class_, call.height, call.state, c.ctx.value.height);
    } else if !call.HeaderSync? {
      LightClient.FlagsAndSettings(c.client, call, c.ctx.value.height);
    }
  }

  /** The first write of a header, and the end of a mining loop, log nothing. */
  lemma UnfinishedLogs(c: C.Chain, p: Pid, h: nat)
    requires C.CanExec(c) && !C.Finishes(c)
    ensures LightClient.StateLog(C.ExecStep(c).client, p, h) == LightClient.StateLog(c.client, p, h)
  {
  }

  /** Commits change nothing that the filter looks at. */
  lemma KeptLogs(p: Pid, h: nat, a: seq<Tx>, b: seq<Tx>)
    requires Kept(a, b)
    ensures FilterMap(Logged(p, h), b[..|a|]) == FilterMap(Logged(p, h), a)
  {
    FilterMapPointwise(Logged(p, h), b[..|a|], a);
  }

  lemma OneMoreLogs(p: Pid, h: nat, a: seq<Tx>, b: seq<Tx>, n: nat)
    requires Kept(a, b) && |b| <= |a| + 1 && n <= |a|
    ensures FilterMap(Logged(p, h), b[n..]) == FilterMap(Logged(p, h), a[n..])
            + if |b| == |a| + 1 && Logged(p, h)(b[|a|]).Some? then [Logged(p, h)(b[|a|]).value] else []
  {
    hide Logged;
    KeptLogs(p, h, a[n..], b[n..]);
    assert b[n..][..|a[n..]|] == b[n..|a|];
    if |b| == |a| + 1 {
      assert b[n..] == b[n..|a|] + [b[|a|]];
      FilterMapSnoc(Logged(p, h), b[n..|a|], b[|a|]);
    } else {
      assert b[n..] == b[n..|a|];
    }
  }

  /** What the log of (p, h) on a chain has gained since n transactions were executed. */
  function Since(c: C.Chain, n: nat, p: Pid, h: nat): seq<Tx>
    requires c.idx <= |C.Proposed(c)| && n <= |Done(c)|
  {
    FilterMap(Logged(p, h), Done(c)[n..])
  }

  /** One step of the system. */
  lemma StepLogs(cfg: Config, s: Sys, st: Step, d: Pid, n: nat, p: Pid, h: nat)
    requires d in s.chains && C.Valid(s.chains[d]) && Enabled(cfg, s, st) && n <= |Done(s.chains[d])|
    ensures d in Apply(cfg, s, st).chains && Apply(cfg, s, st).chains[d].idx <= |C.Proposed(Apply(cfg, s, st).chains[d])|
    ensures n <= |Done(Apply(cfg, s, st).chains[d])|
    ensures var c, c' := s.chains[d], Apply(cfg, s, st).chains[d];
      exists more: seq<Tx> :: Since(c', n, p, h) == Since(c, n, p, h) + more
                              && LightClient.StateLog(c'.client, p, h) == LightClient.StateLog(c.client, p, h) + more
  {
    hide C.ExecStep, C.Commit, C.Propose, Logged, Apply, LightClient.StateLog, FilterMap, C.Flat;
    StepDone(cfg, s, st, d);
    var c, c' := s.chains[d], Apply(cfg, s, st).chains[d];
    var a, b := Done(c), Done(c');
    OneMoreLogs(p, h, a, b, n);
    if |b| == |a| + 1 {
      ExecIs(cfg, s, st, d);
      ExecLogs(c, p, h);
    } else {
      NothingExecuted(cfg, s, st, d, p, h);
      assert Since(c, n, p, h) + [] == Since(c, n, p, h);
      assert LightClient.StateLog(c.client, p, h) + [] == LightClient.StateLog(c.client, p, h);
    }
  }

  /** The step that has executed one more transaction. */
  lemma ExecIs(cfg: Config, s: Sys, st: Step, d: Pid)
    requires d in s.chains && C.Valid(s.chains[d]) && Enabled(cfg, s, st) && Executes(s, st, d)
    ensures d in Apply(cfg, s, st).chains && Apply(cfg, s, st).chains[d] == C.ExecStep(s.chains[d])
    ensures s.chains[d].idx < |C.Proposed(C.ExecStep(s.chains[d]))| && C.ExecStep(s.chains[d]).idx == s.chains[d].idx + 1
    ensures |Done(C.ExecStep(s.chains[d]))| == |Done(s.chains[d])| + 1
    ensures Done(C.ExecStep(s.chains[d]))[|Done(s.chains[d])|] == C.Proposed(C.ExecStep(s.chains[d]))[s.chains[d].idx]
  {
    ExecDone(s.chains[d]);
    AnswerExactly(s.chains[d]);
  }

  lemma NothingExecuted(cfg: Config, s: Sys, st: Step, d: Pid, p: Pid, h: nat)
    requires d in s.chains && C.Valid(s.chains[d]) && Enabled(cfg, s, st) && d in Apply(cfg, s, st).chains
    requires Apply(cfg, s, st).chains[d].idx <= |C.Proposed(Apply(cfg, s, st).chains[d])|
    requires |Done(Apply(cfg, s, st).chains[d])| != |Done(s.chains[d])| + 1
    ensures LightClient.StateLog(Apply(cfg, s, st).chains[d].client, p, h) == LightClient.StateLog(s.chains[d].client, p, h)
  {
    hide C.Commit, C.Propose, LightClient.StateLog, C.Flat;
    if st == Exec(d) {
      ExecDone(s.chains[d]);
      UnfinishedLogs(s.chains[d], p, h);
    } else {
      ClientStays(cfg, s, st, d);
    }
  }

  /** Over every run: the log of (p, h) on d has gained, in order, the states of the executed calls
      about (p, h) that found their header, and nothing else. */
  lemma {:induction false} LogsAre(cfg: Config, s0: Sys, steps: seq<Step>, s: Sys, d: Pid, p: Pid, h: nat)
    requires Ran(cfg, s0, steps, s, d)
    ensures |Done(s0.chains[d])| <= |Done(s.chains[d])|
    ensures LightClient.StateLog(s.chains[d].client, p, h)
            == LightClient.StateLog(s0.chains[d].client, p, h) + FilterMap(Logged(p, h), Done(s.chains[d])[|Done(s0.chains[d])|..])
    decreases |steps|
  {
    hide C.Flat, Logged, LightClient.StateLog, Apply, Enabled;
    var n := |Done(s0.chains[d])|;
    if steps == [] {
      assert Done(s.chains[d])[n..] == [];
    } else {
      var mid := RanFront(cfg, s0, steps, s, d);
      LogsAre(cfg, s0, steps[..|steps| - 1], mid, d, p, h);
      StepLogs(cfg, mid, steps[|steps| - 1], d, n, p, h);
      var more: seq<Tx> :| Since(s.chains[d], n, p, h) == Since(mid.chains[d], n, p, h) + more
                           && LightClient.StateLog(s.chains[d].client, p, h) == LightClient.StateLog(mid.chains[d].client, p, h) + more;
    }
  }

  /** Where the i-th executed transaction has its state in the log of (p, h). */
  function Position(s0: Sys, s: Sys, d: Pid, i: nat, p: Pid, h: nat): nat
    requires d in s0.chains && d in s.chains && s0.chains[d].idx <= |C.Proposed(s0.chains[d])| && s.chains[d].idx <= |C.Proposed(s.chains[d])|
    requires |Done(s0.chains[d])| <= i < |Done(s.chains[d])|
  {
    |LightClient.StateLog(s0.chains[d].client, p, h)| + |FilterMap(Logged(p, h), Done(s.chains[d])[|Done(s0.chains[d])|..i])|
  }

  /** A call that found its header has its state in the log ever after: it is the entry after those of
      the calls about the same header that were executed before. */
  lemma StateIsKept(cfg: Config, s0: Sys, steps: seq<Step>, s: Sys, d: Pid, i: nat)
    requires Ran(cfg, s0, steps, s, d) && |Done(s0.chains[d])| <= i < |Done(s.chains[d])|
    requires Done(s.chains[d])[i].item.call.ValidateState? && !Done(s.chains[d])[i].out.MissingHeader?
    ensures var call := Done(s.chains[d])[i].item.call;
      var log, n := LightClient.StateLog(s.chains[d].client, call.pid, call.height), Position(s0, s, d, i, call.pid, call.height);
      n < |log| && log[n] == call.state
  {
    hide C.Flat, LightClient.StateLog;
    var done, call := Done(s.chains[d])[|Done(s0.chains[d])|..], Done(s.chains[d])[i].item.call;
    var k, f := i - |Done(s0.chains[d])|, Logged(call.pid, call.height);
    LogsAre(cfg, s0, steps, s, d, call.pid, call.height);
    FilterMapAt(f, done, k);
    assert done[..k] == Done(s.chains[d])[|Done(s0.chains[d])|..i];
  }

  // ----- the flags -----

  /** Step k of the run executes on d, in a block of height h, an `app_init` for a chain of another
      class than d then has. */
  ghost predicate Flags(cfg: Config, s0: Sys, steps: seq<Step>, k: nat, d: Pid, h: nat)
    requires k < |steps|
  {
    && Run(cfg, s0, steps[..k]).Some? && FlagStep(Run(cfg, s0, steps[..k]).value, steps[k], d, h)
  }

  predicate FlagStep(s: Sys, st: Step, d: Pid, h: nat) {
    && st == Exec(d) && d in s.chains && C.CanExec(s.chains[d]) && s.chains[d].ctx.value.height == h
    && var call, own := C.Current(s.chains[d]).item.call, s.chains[d].client.paratype;
       call.AppInit? && own.Some? && call.dstClass != own.value
  }

  lemma StepFlags(cfg: Config, s: Sys, st: Step, d: Pid, h: nat)
    requires Enabled(cfg, s, st) && d in s.chains
    ensures d in Apply(cfg, s, st).chains
    ensures h in Apply(cfg, s, st).chains[d].client.uv <==> h in s.chains[d].client.uv || FlagStep(s, st, d, h)
  {
    hide C.Commit, C.Propose;
    if st == Exec(d) {
      var c := s.chains[d];
      var call := C.Current(c).item.call;
      if !Crashes(call) && !call.HeaderSync? {
        LightClient.FlagsAndSettings(c.client, call, c.ctx.value.height);
      }
    } else {
      ClientStays(cfg, s, st, d);
    }
  }

  lemma FrontFlags(cfg: Config, s0: Sys, steps: seq<Step>, d: Pid, h: nat, k: nat)
    requires steps != [] && k < |steps| - 1
    ensures Flags(cfg, s0, steps[..|steps| - 1], k, d, h) <==> Flags(cfg, s0, steps, k, d, h)
  {
    assert steps[..|steps| - 1][..k] == steps[..k];
  }

  /** Over every run: the flag of height h on d is set if and only if it was from the start, or a step
      executed such an `app_init` in the block of that height. */
  lemma {:induction false} FlagsAre(cfg: Config, s0: Sys, steps: seq<Step>, s: Sys, d: Pid, h: nat)
    requires Ran(cfg, s0, steps, s, d)
    ensures h in s.chains[d].client.uv <==> h in s0.chains[d].client.uv || exists k :: 0 <= k < |steps| && Flags(cfg, s0, steps, k, d, h)
    decreases |steps|
  {
    hide Apply, Enabled, FlagStep, C.Valid;
    if steps != [] {
      var n := |steps| - 1;
      var mid := RanFront(cfg, s0, steps, s, d);
      FlagsAre(cfg, s0, steps[..n], mid, d, h);
      Halting.LastStep(cfg, s0, steps, s);
      StepFlags(cfg, mid, steps[n], d, h);
      if k :| 0 <= k < n && Flags(cfg, s0, steps[..n], k, d, h) {
        FrontFlags(cfg, s0, steps, d, h, k);
      }
      if FlagStep(mid, steps[n], d, h) {
        assert Flags(cfg, s0, steps, n, d, h);
      }
      if k :| 0 <= k < |steps| && Flags(cfg, s0, steps, k, d, h) {
        if k < n {
          FrontFlags(cfg, s0, steps, d, h, k);
        }
      }
    }
  }
}
