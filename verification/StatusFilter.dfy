/** What the listeners' filter for successful transactions really lets through. Committing sets
    every status to SUCCESS, so the filter selects nothing; whether a transaction succeeded is
    decided when it is executed. */
module StatusFilter {
  import opened Wrappers
  import opened Types
  import opened System
  import opened GatewaySteps
  import opened Outcome
  import opened Conservation
  import Halting
  import LightClient
  import R = Relayer
  import C = Chain

  /** The answers of calls that raised. */
  predicate Failed(out: Out) {
    out.MissingHeader? || out.NoParaType? || out.NoDelay? || out.Raised?
  }

  /** What a caller can check before a call: it is well-formed, the header it names is there, the
      chain has a type, and the pair of types has a delay. */
  predicate Guard(c: LightClient.Client, call: Call) {
    match call
    case AppInit(_, _) => c.paratype.Some?
    case HeaderSync(_, class_, _, _) => c.paratype.Some? && LightClient.HasDelay(c.paratype.value, class_, LightClient.HeaderPart)
    case ValidateState(pid, class_, height, _) =>
      && LightClient.HeaderVisible(c, pid, height)
      && c.paratype.Some? && LightClient.HasDelay(c.paratype.value, class_, LightClient.StatePart)
    case Malformed(_) => false
    case Deploy(code) => code.Contract?
    case NoContract => false
    case _ => true
  }

  /** The answer shows whether the guard held, and then what was stored. */
  predicate Shows(c: LightClient.Client, call: Call, out: Out) {
    && (Failed(out) <==> !Guard(c, call))
    && (call.HeaderSync? && Guard(c, call) ==> out == HeaderStored(call.pid, call.height))
    && (call.ValidateState? && Guard(c, call) ==>
          out == StateStored(call.pid, call.height, |LightClient.StateLog(c, call.pid, call.height)| + 1))
  }

  /** A call answers with code 1 exactly when its guard holds, and its answer shows which. */
  lemma CallSucceeds(c: LightClient.Client, call: Call, height: nat)
    requires !Crashes(call)
    ensures LightClient.Exec(c, call, height).1.code == 1 <==> Guard(c, call)
    ensures Shows(c, call, LightClient.Exec(c, call, height).1.out)
  {
  }

  /** The step that finishes a transaction sets its status by the guard. */
  lemma AnswerExactly(c: C.Chain)
    requires C.CanExec(c) && C.Finishes(c)
    ensures C.ExecStep(c).idx == c.idx + 1 <= |C.Proposed(C.ExecStep(c))|
    ensures var tx := C.Proposed(C.ExecStep(c))[c.idx];
      && tx.item == C.Current(c).item
      && (tx.status == Success <==> Guard(c.client, tx.item.call))
      && Shows(c.client, tx.item.call, tx.out)
  {
    CallSucceeds(c.client, C.Current(c).item.call, c.ctx.value.height);
  }

  // ----- what a step does to the executed transactions of chain p -----

  /** Item and answer of executed transactions stay as they are. */
  ghost predicate Kept(a: seq<Tx>, b: seq<Tx>) {
    |a| <= |b| && forall i | 0 <= i < |a| :: b[i].item == a[i].item && b[i].out == a[i].out
  }

  lemma CommitKeepsDone(c: C.Chain, t: Time)
    requires C.Valid(c) && C.CanCommit(c)
    ensures |Done(C.Commit(c, t))| == |Done(c)| && Kept(Done(c), Done(C.Commit(c, t)))
  {
    if C.AllFit(c.ctx.value.txs) {
      var b := c.ctx.value;
      C.FlatSnoc(c.blocks, b.(txs := C.CommittedAll(b.txs, b.height, t)));
    }
  }

  lemma ExecDone(c: C.Chain)
    requires C.Valid(c) && C.CanExec(c)
    ensures C.ExecStep(c).idx <= |C.Proposed(C.ExecStep(c))|
    ensures C.Finishes(c) ==> Done(C.ExecStep(c)) == Done(c) + [C.Proposed(C.ExecStep(c))[c.idx]]
    ensures !C.Finishes(c) ==> Done(C.ExecStep(c)) == Done(c)
  {
    if C.Finishes(c) {
      AnswerExactly(c);
    }
  }

  /** A step executes at most one more transaction of p, and then it is this one. */
  lemma StepDone(cfg: Config, s: Sys, st: Step, p: Pid)
    requires p in s.chains && C.Valid(s.chains[p]) && Enabled(cfg, s, st)
    ensures p in Apply(cfg, s, st).chains && Apply(cfg, s, st).chains[p].idx <= |C.Proposed(Apply(cfg, s, st).chains[p])|
    ensures var a, b := Done(s.chains[p]), Done(Apply(cfg, s, st).chains[p]);
      && Kept(a, b) && |b| <= |a| + 1
      && (|b| == |a| + 1 ==> Executes(s, st, p) && b[|a|].item == C.Current(s.chains[p]).item
                             && Shows(s.chains[p].client, b[|a|].item.call, b[|a|].out))
  {
    if st == Exec(p) {
      ExecDone(s.chains[p]);
      if C.Finishes(s.chains[p]) {
        AnswerExactly(s.chains[p]);
      }
    } else if st.Commit? && st.p == p {
      CommitKeepsDone(s.chains[p], st.t);
    } else {
      DoneStays(cfg, s, st, p);
    }
  }

  predicate Executes(s: Sys, st: Step, p: Pid) {
    st == Exec(p) && p in s.chains && C.CanExec(s.chains[p]) && C.Finishes(s.chains[p])
  }

  // ----- over runs -----

  /** Step k of the run executes the transaction that stands at position i of p's ledger, with the
      answer that fits its guard in that state. */
  ghost predicate ExecutedBy(cfg: Config, s0: Sys, steps: seq<Step>, k: nat, p: Pid, i: nat, tx: Tx) {
    && k < |steps| && Run(cfg, s0, steps[..k]).Some?
    && var before := Run(cfg, s0, steps[..k]).value;
       && Executes(before, steps[k], p) && before.chains[p].idx <= |C.Proposed(before.chains[p])|
       && |Done(before.chains[p])| == i && tx.item == C.Current(before.chains[p]).item
       && Shows(before.chains[p].client, tx.item.call, tx.out)
  }

  lemma FrontExecuted(cfg: Config, s0: Sys, steps: seq<Step>, k: nat, p: Pid, i: nat, tx: Tx, tx': Tx)
    requires steps != [] && ExecutedBy(cfg, s0, steps[..|steps| - 1], k, p, i, tx)
    requires tx'.item == tx.item && tx'.out == tx.out
    ensures ExecutedBy(cfg, s0, steps, k, p, i, tx')
  {
    assert steps[..|steps| - 1][..k] == steps[..k];
  }

  ghost predicate Ran(cfg: Config, s0: Sys, steps: seq<Step>, s: Sys, p: Pid) {
    && Reaches(cfg, s0, steps, s) && p in s0.chains && p in s.chains
    && s0.chains[p].idx <= |C.Proposed(s0.chains[p])| && s.chains[p].idx <= |C.Proposed(s.chains[p])|
  }

  lemma RanFront(cfg: Config, s0: Sys, steps: seq<Step>, s: Sys, p: Pid) returns (mid: Sys)
    requires Ran(cfg, s0, steps, s, p) && steps != []
    ensures var n := |steps| - 1;
      && Ran(cfg, s0, steps[..n], mid, p) && Enabled(cfg, mid, steps[n]) && s == Apply(cfg, mid, steps[n])
      && C.Valid(mid.chains[p])
  {
    var n := |steps| - 1;
    Halting.LastStep(cfg, s0, steps, s);
    mid := Run(cfg, s0, steps[..n]).value;
    StepBack(cfg, mid, steps[n], p);
    ReachedChain(cfg, s0, steps[..n], mid, p);
  }

  lemma StepBack(cfg: Config, s: Sys, st: Step, p: Pid)
    requires Enabled(cfg, s, st) && p in Apply(cfg, s, st).chains
    ensures p in s.chains
  {
  }

  /** Every transaction executed in a run was executed by one of its steps. */
  lemma {:induction false} ExecutedWhen(cfg: Config, s0: Sys, steps: seq<Step>, s: Sys, p: Pid, i: nat) returns (k: nat)
    requires Ran(cfg, s0, steps, s, p) && |Done(s0.chains[p])| <= i < |Done(s.chains[p])|
    ensures ExecutedBy(cfg, s0, steps, k, p, i, Done(s.chains[p])[i])
    decreases |steps|
  {
    var n := |steps| - 1;
    var mid := RanFront(cfg, s0, steps, s, p);
    StepDone(cfg, mid, steps[n], p);
    if i < |Done(mid.chains[p])| {
      k := ExecutedWhen(cfg, s0, steps[..n], mid, p, i);
      FrontExecuted(cfg, s0, steps, k, p, i, Done(mid.chains[p])[i], Done(s.chains[p])[i]);
    } else {
      k := n;
    }
  }

  /** The filter selects nothing: whatever its execution answered, every committed transaction is
      queued wherever its memo sends it. */
  lemma FilterSelectsNothing(cfg: Config, s0: Sys, steps: seq<Step>, s: Sys, p: Pid, h: nat, i: nat)
    requires Reaches(cfg, s0, steps, s) && p in s.chains && h < |s.chains[p].blocks| && i < |s.chains[p].blocks[h].txs|
    ensures var tx := s.chains[p].blocks[h].txs[i];
      && tx.status == Success
      && forall role: R.Role | R.CarriesXtxs(role) && R.IsXtx(tx) ::
           R.Target(cfg.mode, role, p, tx) == R.NextHop(cfg.mode, role, p, tx.item).1
  {
    ReachedChain(cfg, s0, steps, s, p);
    assert C.BlockOk(s.chains[p].blocks[h], h);
  }

  /** So exactly this decides whether what a listener takes for a successful transaction was one:
      the guard of its call, in the state in which the chain executed it. */
  lemma ListenedExactly(cfg: Config, s0: Sys, steps: seq<Step>, s: Sys, p: Pid, i: nat) returns (k: nat)
    requires Ran(cfg, s0, steps, s, p) && |Done(s0.chains[p])| <= i < |C.Flat(s.chains[p].blocks)|
    requires C.Flat(s.chains[p].blocks)[i].item.kind == CtxSrc && p in cfg.paras
    ensures R.Target(cfg.mode, XtxRid(cfg, p).role, p, C.Flat(s.chains[p].blocks)[i]) == FirstHop(cfg, C.Flat(s.chains[p].blocks)[i].item.dst)
    ensures ExecutedBy(cfg, s0, steps, k, p, i, C.Flat(s.chains[p].blocks)[i])
  {
    assert Done(s.chains[p])[i] == C.Flat(s.chains[p].blocks)[i];
    k := ExecutedWhen(cfg, s0, steps, s, p, i);
    ReachedChain(cfg, s0, steps, s, p);
    FlatSuccess(s.chains[p].blocks, i);
  }

  lemma {:induction false} FlatSuccess(blocks: seq<Block>, i: nat)
    requires i < |C.Flat(blocks)| && forall h | 0 <= h < |blocks| :: C.BlockOk(blocks[h], h)
    ensures C.Flat(blocks)[i].status == Success
  {
    var n := |blocks| - 1;
    if i < |C.Flat(blocks[..n])| {
      FlatSuccess(blocks[..n], i);
    } else {
      assert C.BlockOk(blocks[n], n);
    }
  }

  // ----- when none fails -----

  /** Only an execution changes the client of a chain. */
  lemma ClientStays(cfg: Config, s: Sys, st: Step, p: Pid)
    requires Enabled(cfg, s, st) && p in s.chains && st != Exec(p)
    ensures p in Apply(cfg, s, st).chains && Apply(cfg, s, st).chains[p].client == s.chains[p].client
  {
  }

  /** Only `set_para_type` changes the type of a chain. */
  lemma ExecSetsType(c: C.Chain)
    requires C.CanExec(c)
    ensures C.ExecStep(c).client.paratype
            == if C.Current(c).item.call.SetParaType? then Some(C.Current(c).item.call.paratype) else c.client.paratype
  {
  }

  lemma StepKeepsType(cfg: Config, s: Sys, st: Step, p: Pid)
    requires Enabled(cfg, s, st) && p in s.chains && s.chains[p].client.paratype.Some?
    ensures p in Apply(cfg, s, st).chains && Apply(cfg, s, st).chains[p].client.paratype.Some?
  {
    if st == Exec(p) {
      ExecSetsType(s.chains[p]);
    } else {
      ClientStays(cfg, s, st, p);
    }
  }

  /** A chain type, once set, stays set. */
  lemma {:induction false} TypeStays(cfg: Config, s: Sys, steps: seq<Step>, p: Pid)
    requires Run(cfg, s, steps).Some? && p in s.chains && s.chains[p].client.paratype.Some?
    ensures p in Run(cfg, s, steps).value.chains && Run(cfg, s, steps).value.chains[p].client.paratype.Some?
    decreases |steps|
  {
    if steps != [] {
      var n := |steps| - 1;
      Halting.LastStep(cfg, s, steps, Run(cfg, s, steps).value);
      TypeStays(cfg, s, steps[..n], p);
      StepKeepsType(cfg, Run(cfg, s, steps[..n]).value, steps[n], p);
    }
  }

  /** When the source has its type before the gateways start, no cross-chain transaction that
      calls `app_init`, as those of the generator do, is executed without success. */
  lemma NoneFails(cfg: Config, s0: Sys, steps: seq<Step>, s: Sys, p: Pid, i: nat)
    requires Ran(cfg, s0, steps, s, p) && |Done(s0.chains[p])| <= i < |Done(s.chains[p])|
    requires s0.chains[p].client.paratype.Some? && Done(s.chains[p])[i].item.call.AppInit?
    ensures !Failed(Done(s.chains[p])[i].out)
  {
    var k := ExecutedWhen(cfg, s0, steps, s, p, i);
    TypeStays(cfg, s0, steps[..k], p);
  }
}
