/** No deadlock: from every healthy reachable state a finite schedule of internal steps delivers
    everything that is under way. */
module Progress {
  import opened Wrappers
  import opened Types
  import opened System
  import opened Invariant
  import opened Conservation
  import opened Healthy
  import C = Chain

  // ----- schedules -----

  ghost predicate Leads(cfg: Config, s: Sys, steps: seq<Step>, s': Sys) {
    Schedule(steps) && Run(cfg, s, steps) == Some(s') && Good(cfg, s')
  }

  lemma LeadsStep(cfg: Config, s: Sys, st: Step, s': Sys)
    requires Good(cfg, s) && Internal(st) && Enabled(cfg, s, st) && s' == Apply(cfg, s, st)
    ensures Leads(cfg, s, [st], s')
  {
    StepGood(cfg, s, st);
    RunOne(cfg, s, st);
  }

  lemma LeadsThen(cfg: Config, s: Sys, a: seq<Step>, mid: Sys, b: seq<Step>, s': Sys)
    requires Leads(cfg, s, a, mid) && Leads(cfg, mid, b, s')
    ensures Leads(cfg, s, a + b, s')
  {
    hide Good;
    RunConcat(cfg, s, a, b);
  }

  lemma LeadsNothing(cfg: Config, s: Sys)
    requires Good(cfg, s)
    ensures Leads(cfg, s, [], s)
  {
  }

  // ----- mining a chain dry -----

  /** Nothing is proposed and the pool is empty. */
  predicate Still(c: C.Chain) {
    c.ctx.None? && c.pool == []
  }

  /** Only chain p has gone on, and holds the same transactions. */
  ghost predicate Mined(s: Sys, s': Sys, p: Pid) {
    && p in s.chains && p in s'.chains && s'.gates == s.gates
    && s'.chains == s.chains[p := s'.chains[p]]
    && s.chains[p].blocks <= s'.chains[p].blocks
    && C.Ledger(s'.chains[p]) == C.Ledger(s.chains[p])
  }

  function Left(c: C.Chain): int {
    2 * (|C.Proposed(c)| - c.idx) - if c.half then 1 else 0
  }

  lemma ChainValid(cfg: Config, s: Sys, p: Pid)
    requires Good(cfg, s) && p in s.chains
    ensures C.Valid(s.chains[p]) && !s.chains[p].halted && p in cfg.sizes && cfg.sizes[p] >= 1
  {
    assert ChainOk(cfg, p, s.chains[p]);
    assert Mining(s.chains[p], cfg.sizes[p]);
  }

  lemma ExecStepOn(cfg: Config, s: Sys, p: Pid)
    requires Good(cfg, s) && p in s.chains && C.CanExec(s.chains[p])
    ensures Enabled(cfg, s, Exec(p)) && Mined(s, Apply(cfg, s, Exec(p)), p)
    ensures var c, c' := s.chains[p], C.ExecStep(s.chains[p]);
      0 <= Left(c') < Left(c) && c'.pool == c.pool && c'.blocks == c.blocks && c'.ctx.Some?
  {
    var c := s.chains[p];
    ChainValid(cfg, s, p);
    C.ExecKeeps(c);
    assert Mining(c, cfg.sizes[p]) && Sound(C.Current(c));
  }

  /** Executes the rest of the proposing block. */
  lemma {:induction false} ExecAll(cfg: Config, s: Sys, p: Pid) returns (steps: seq<Step>, s': Sys)
    requires Good(cfg, s) && p in s.chains && s.chains[p].ctx.Some?
    ensures Leads(cfg, s, steps, s') && Mined(s, s', p)
    ensures C.CanCommit(s'.chains[p]) && s'.chains[p].pool == s.chains[p].pool
    decreases Left(s.chains[p])
  {
    hide Run, Schedule, Inv, SetUp, Running;
    ChainValid(cfg, s, p);
    if C.CanExec(s.chains[p]) {
      ExecStepOn(cfg, s, p);
      var s1 := Apply(cfg, s, Exec(p));
      LeadsStep(cfg, s, Exec(p), s1);
      var rest;
      rest, s' := ExecAll(cfg, s1, p);
      LeadsThen(cfg, s, [Exec(p)], s1, rest, s');
      steps := [Exec(p)] + rest;
    } else {
      steps, s' := [], s;
      LeadsNothing(cfg, s);
      assert s.chains[p := s.chains[p]] == s.chains;
    }
  }

  /** The block of a mining chain is committed. */
  lemma CommitOn(cfg: Config, s: Sys, p: Pid)
    requires Good(cfg, s) && p in s.chains && C.CanCommit(s.chains[p])
    ensures Enabled(cfg, s, Commit(p, s.now)) && Mined(s, Apply(cfg, s, Commit(p, s.now)), p)
    ensures C.Commit(s.chains[p], s.now).ctx.None? && C.Commit(s.chains[p], s.now).pool == s.chains[p].pool
  {
    hide Inv, C.Ledger;
    ChainValid(cfg, s, p);
    C.CommitKeeps(s.chains[p], s.now);
    assert Mining(s.chains[p], cfg.sizes[p]);
    forall i | 0 <= i < |s.chains[p].ctx.value.txs| ensures !Unfit(s.chains[p].ctx.value.txs[i]) {
      assert Sound(C.Proposed(s.chains[p])[i]);
    }
  }

  /** Executes and commits the proposing block. */
  lemma Finish(cfg: Config, s: Sys, p: Pid) returns (steps: seq<Step>, s': Sys)
    requires Good(cfg, s) && p in s.chains && s.chains[p].ctx.Some?
    ensures Leads(cfg, s, steps, s') && Mined(s, s', p)
    ensures s'.chains[p].ctx.None? && s'.chains[p].pool == s.chains[p].pool
  {
    hide Run, Schedule, Inv, SetUp, Running, C.Commit;
    var before, s1 := ExecAll(cfg, s, p);
    CommitOn(cfg, s1, p);
    var st := Commit(p, s1.now);
    s' := Apply(cfg, s1, st);
    LeadsStep(cfg, s1, st, s');
    LeadsThen(cfg, s, before, s1, [st], s');
    MinedThen(s, s1, s', p);
    steps := before + [st];
  }

  lemma ProposeStep(cfg: Config, s: Sys, p: Pid) returns (s': Sys)
    requires Good(cfg, s) && p in s.chains && s.chains[p].ctx.None? && s.chains[p].pool != []
    ensures Leads(cfg, s, [Propose(p, [], s.now)], s') && Mined(s, s', p)
    ensures s'.chains[p].ctx.Some? && |s'.chains[p].pool| < |s.chains[p].pool|
  {
    hide Run, Schedule, Inv, SetUp, Running;
    ChainValid(cfg, s, p);
    var st := Propose(p, [], s.now);
    C.ProposeKeeps(s.chains[p], [], cfg.sizes[p], s.now);
    assert C.Items([]) == [];
    s' := Apply(cfg, s, st);
    LeadsStep(cfg, s, st, s');
  }

  lemma MinedThen(s: Sys, mid: Sys, s': Sys, p: Pid)
    requires Mined(s, mid, p) && Mined(mid, s', p)
    ensures Mined(s, s', p)
  {
  }

  /** Mines until the chain has committed everything it holds. */
  lemma {:induction false} Drain(cfg: Config, s: Sys, p: Pid) returns (steps: seq<Step>, s': Sys)
    requires Good(cfg, s) && p in s.chains
    ensures Leads(cfg, s, steps, s') && Mined(s, s', p) && Still(s'.chains[p])
    decreases |s.chains[p].pool|, if s.chains[p].ctx.Some? then 1 else 0
  {
    hide Run, Schedule, Inv, SetUp, Running;
    if s.chains[p].ctx.Some? {
      var a, s1 := Finish(cfg, s, p);
      var b;
      b, s' := Drain(cfg, s1, p);
      LeadsThen(cfg, s, a, s1, b, s');
      MinedThen(s, s1, s', p);
      steps := a + b;
    } else if s.chains[p].pool != [] {
      var s1 := ProposeStep(cfg, s, p);
      var b;
      b, s' := Drain(cfg, s1, p);
      LeadsThen(cfg, s, [Propose(p, [], s.now)], s1, b, s');
      MinedThen(s, s1, s', p);
      steps := [Propose(p, [], s.now)] + b;
    } else {
      steps, s' := [], s;
      LeadsNothing(cfg, s);
      assert s.chains[p := s.chains[p]] == s.chains;
    }
  }

  // ----- reading a chain to its end -----

  /** Only the gateway rid has read on. */
  ghost predicate ReadOn(s: Sys, s': Sys, rid: Rid) {
    && rid in s.gates && rid in s'.gates && s'.chains == s.chains
    && s'.gates == s.gates[rid := s'.gates[rid]]
    && s'.gates[rid].start == s.gates[rid].start && s'.gates[rid].lanes.Keys == s.gates[rid].lanes.Keys
  }

  lemma ListenOn(cfg: Config, s: Sys, rid: Rid) returns (s': Sys)
    requires Good(cfg, s) && rid in s.gates && rid.src in s.chains && s.gates[rid].next < |s.chains[rid.src].blocks|
    ensures Leads(cfg, s, [Listen(rid, s.now)], s') && ReadOn(s, s', rid)
    ensures s'.gates[rid].next == s.gates[rid].next + 1
  {
    hide Run, Schedule, Inv, SetUp, Running;
    s' := Apply(cfg, s, Listen(rid, s.now));
    LeadsStep(cfg, s, Listen(rid, s.now), s');
  }

  lemma GateKnown(cfg: Config, s: Sys, rid: Rid)
    requires Good(cfg, s) && IsRid(cfg, rid)
    ensures rid in s.gates && rid.src in s.chains && 1 <= s.gates[rid].start <= s.gates[rid].next <= |s.chains[rid.src].blocks|
    ensures SyncRid(cfg, rid.src) in s.gates && s.gates[SyncRid(cfg, rid.src)].start == s.gates[rid].start
  {
    assert RidOk(cfg, s, rid);
  }

  lemma ReadOnThen(s: Sys, mid: Sys, s': Sys, rid: Rid)
    requires ReadOn(s, mid, rid) && ReadOn(mid, s', rid)
    ensures ReadOn(s, s', rid)
  {
  }

  lemma ReadNothing(s: Sys, rid: Rid)
    requires rid in s.gates
    ensures ReadOn(s, s, rid)
  {
    assert s.gates[rid := s.gates[rid]] == s.gates;
  }

  lemma {:induction false} ListenAll(cfg: Config, s: Sys, rid: Rid) returns (steps: seq<Step>, s': Sys)
    requires Good(cfg, s) && IsRid(cfg, rid) && rid in s.gates && rid.src in s.chains
    ensures Leads(cfg, s, steps, s') && ReadOn(s, s', rid)
    ensures s'.gates[rid].next == |s.chains[rid.src].blocks|
    decreases |s.chains[rid.src].blocks| - s.gates[rid].next
  {
    hide Run, Schedule, Inv, SetUp, Running;
    GateKnown(cfg, s, rid);
    if s.gates[rid].next < |s.chains[rid.src].blocks| {
      var s1 := ListenOn(cfg, s, rid);
      var b;
      b, s' := ListenAll(cfg, s1, rid);
      LeadsThen(cfg, s, [Listen(rid, s.now)], s1, b, s');
      ReadOnThen(s, s1, s', rid);
      steps := [Listen(rid, s.now)] + b;
    } else {
      steps, s' := [], s;
      LeadsNothing(cfg, s);
      ReadNothing(s, rid);
    }
  }

  // ----- sending from one lane -----

  /** Only the lane from rid to d, and the pool of d, have changed. */
  ghost predicate SentOn(s: Sys, s': Sys, rid: Rid, d: Pid) {
    && LaneExists(s, rid, d) && LaneExists(s', rid, d)
    && s'.gates == SetLane(s, rid, d, LaneOf(s', rid, d)).gates
    && s'.chains == s.chains[d := s'.chains[d]]
    && s'.chains[d].blocks == s.chains[d].blocks && s'.chains[d].client == s.chains[d].client
  }

  lemma SentThen(s: Sys, mid: Sys, s': Sys, rid: Rid, d: Pid)
    requires SentOn(s, mid, rid, d) && SentOn(mid, s', rid, d)
    ensures SentOn(s, s', rid, d)
  {
    assert s.gates[rid].lanes[d := LaneOf(mid, rid, d)][d := LaneOf(s', rid, d)] == s.gates[rid].lanes[d := LaneOf(s', rid, d)];
  }

  lemma SentNothing(s: Sys, rid: Rid, d: Pid)
    requires LaneExists(s, rid, d)
    ensures SentOn(s, s, rid, d)
  {
    assert s.chains[d := s.chains[d]] == s.chains;
    assert s.gates[rid].lanes[d := LaneOf(s, rid, d)] == s.gates[rid].lanes;
    assert s.gates[rid := s.gates[rid]] == s.gates;
  }

  lemma SendHeaderOn(cfg: Config, s: Sys, rid: Rid, d: Pid) returns (s': Sys)
    requires Good(cfg, s) && LaneExists(s, rid, d) && LaneOf(s, rid, d).headerQ != []
    ensures Leads(cfg, s, [SendHeader(rid, d, s.now)], s') && SentOn(s, s', rid, d)
    ensures LaneOf(s', rid, d) == LaneOf(s, rid, d).(headerQ := LaneOf(s, rid, d).headerQ[1..])
  {
    hide Run, Schedule, Inv, SetUp;
    s' := Apply(cfg, s, SendHeader(rid, d, s.now));
    LeadsStep(cfg, s, SendHeader(rid, d, s.now), s');
  }

  lemma {:induction false} FlushHeaders(cfg: Config, s: Sys, rid: Rid, d: Pid) returns (steps: seq<Step>, s': Sys)
    requires Good(cfg, s) && LaneExists(s, rid, d)
    ensures Leads(cfg, s, steps, s') && SentOn(s, s', rid, d)
    ensures LaneOf(s', rid, d) == LaneOf(s, rid, d).(headerQ := [])
    decreases |LaneOf(s, rid, d).headerQ|
  {
    hide Run, Schedule, Inv, SetUp, Running;
    if LaneOf(s, rid, d).headerQ != [] {
      var s1 := SendHeaderOn(cfg, s, rid, d);
      var b;
      b, s' := FlushHeaders(cfg, s1, rid, d);
      LeadsThen(cfg, s, [SendHeader(rid, d, s.now)], s1, b, s');
      SentThen(s, s1, s', rid, d);
      steps := [SendHeader(rid, d, s.now)] + b;
    } else {
      steps, s' := [], s;
      LeadsNothing(cfg, s);
      SentNothing(s, rid, d);
    }
  }
}
