/** The load that the gateways of one chain put on the relay chain, in AoR and in ToR. */
module Load {
  import opened Sequences
  import opened Types
  import opened System
  import opened Invariant
  import opened GatewaySteps
  import opened Order
  import R = Relayer
  import C = Chain

  /** The gateway that serves the relay chain from chain p. */
  function RelayGate(cfg: Config, p: Pid): Rid {
    SyncRid(cfg, p)
  }

  /** How many transactions the relay chain holds that came from the gateways of p. */
  function RelayLoad(s: Sys, p: Pid): nat
    requires RELAY in s.chains
  {
    |Pick(Sync(p, RELAY), C.Ledger(s.chains[RELAY]))| + |Pick(Xtx(p, RELAY), C.Ledger(s.chains[RELAY]))|
  }

  /** Everything that was read has been sent. */
  ghost predicate Flushed(cfg: Config, s: Sys, p: Pid)
    requires LaneExists(s, RelayGate(cfg, p), RELAY)
  {
    var l := LaneOf(s, RelayGate(cfg, p), RELAY);
    l.headerAlive && l.headerQ == [] && l.pc.Idle? && l.xtxQ == []
  }

  function ReadBlocks(cfg: Config, s: Sys, p: Pid): seq<Block>
    requires LaneExists(s, RelayGate(cfg, p), RELAY)
    requires s.gates[RelayGate(cfg, p)].start <= s.gates[RelayGate(cfg, p)].next <= |s.chains[p].blocks|
  {
    s.chains[p].blocks[s.gates[RelayGate(cfg, p)].start..s.gates[RelayGate(cfg, p)].next]
  }

  /** The number of CTX-SRC transactions in a list, and in a list of blocks. */
  function Requests(items: seq<Item>): nat {
    if items == [] then 0
    else Requests(items[..|items| - 1]) + if items[|items| - 1].kind == CtxSrc then 1 else 0
  }

  lemma {:induction false} RequestsWanted(p: Pid, items: seq<Item>)
    ensures |FilterMap(Wanted(R.AoR, p, RELAY), items)| == Requests(items)
  {
    if items != [] {
      RequestsWanted(p, items[..|items| - 1]);
    }
  }

  lemma {:induction false} AllCarried(items: seq<Item>)
    requires forall i | 0 <= i < |items| :: items[i].call.ValidateState? && !IsL1(items[i])
    ensures |Carried(items)| == |items|
  {
    if items != [] {
      AllCarried(items[..|items| - 1]);
    }
  }

  lemma LaneLoad(link: R.Link, blocks: seq<Block>, start: nat, next: nat, l: R.Lane, headers: seq<Item>, sent: seq<Item>)
    requires R.CarriesHeaders(link.role)
    requires HeadersFlow(link, blocks, start, next, l.headerAlive, l.headerQ, headers)
    requires XtxsFlow(link, blocks, start, next, l.pc, l.xtxQ, sent)
    requires forall i | 0 <= i < |sent| :: SentOk(link, sent[i])
    requires l.headerAlive && l.headerQ == [] && l.pc.Idle? && l.xtxQ == []
    ensures start <= next <= |blocks| && |headers| == next - start
    ensures |sent| == if link.role == R.Par then 0 else |R.Expected(link.mode, link.role, link.src, link.dst, blocks, start, next)|
  {
    if link.role != R.Par {
      forall i | 0 <= i < |sent| ensures sent[i].call.ValidateState? && !IsL1(sent[i]) {
        assert SentOk(link, sent[i]);
      }
      AllCarried(sent);
    }
  }

  /** Once everything read has been sent, the relay chain has had one transaction per block of p
      in ToR, and in AoR one more per cross-chain transaction. */
  lemma RelayLoadIs(cfg: Config, s: Sys, p: Pid)
    requires Inv(cfg, s) && cfg.mode != R.NoR && p in cfg.paras
    requires LaneExists(s, RelayGate(cfg, p), RELAY) && Flushed(cfg, s, p)
    ensures s.gates[RelayGate(cfg, p)].start <= s.gates[RelayGate(cfg, p)].next <= |s.chains[p].blocks|
    ensures RelayLoad(s, p) == |ReadBlocks(cfg, s, p)|
                               + if cfg.mode == R.AoR then Requests(C.Items(C.Flat(ReadBlocks(cfg, s, p)))) else 0
  {
    hide C.Flat, R.Expected, ChainOk, HeadersSynced, SentOk, L1First, Waits, SentTrusted, BlocksFit;
    var rid := RelayGate(cfg, p);
    LaneParts(cfg, s, rid, RELAY);
    var start, next, blocks := s.gates[rid].start, s.gates[rid].next, s.chains[p].blocks;
    LaneLoad(LinkOf(cfg, rid, RELAY), blocks, start, next, LaneOf(s, rid, RELAY),
             Pick(Sync(p, RELAY), C.Ledger(s.chains[RELAY])), Pick(Xtx(p, RELAY), C.Ledger(s.chains[RELAY])));
    if cfg.mode == R.AoR {
      SourceFits(cfg, s, rid, RELAY);
      ExpectedWanted(cfg.mode, rid.role, p, RELAY, blocks, start, next);
      RequestsWanted(p, C.Items(C.Flat(blocks[start..next])));
    }
  }

  ghost predicate EachBlockHas(blocks: seq<Block>, x: nat) {
    forall h | 0 <= h < |blocks| :: Requests(C.Items(blocks[h].txs)) == x
  }

  lemma {:induction false} RequestsConcat(a: seq<Item>, b: seq<Item>)
    ensures Requests(a + b) == Requests(a) + Requests(b)
    decreases |b|
  {
    if b == [] {
      assert a + b == a;
    } else {
      var n := |b| - 1;
      assert (a + b)[..|a| + n] == a + b[..n];
      RequestsConcat(a, b[..n]);
    }
  }

  lemma {:induction false} UniformRequests(blocks: seq<Block>, x: nat)
    requires EachBlockHas(blocks, x)
    ensures Requests(C.Items(C.Flat(blocks))) == |blocks| * x
  {
    if blocks != [] {
      var n := |blocks| - 1;
      UniformRequests(blocks[..n], x);
      C.ItemsConcat(C.Flat(blocks[..n]), blocks[n].txs);
      RequestsConcat(C.Items(C.Flat(blocks[..n])), C.Items(blocks[n].txs));
      MulSucc(n, x);
    }
  }

  lemma MulSucc(n: nat, x: nat)
    ensures (n + 1) * x == n * x + x
  {
  }

  /** The share of the AoR load that ToR saves. */
  function Saved(tor: nat, aor: nat): real
    requires aor > 0
  {
    1.0 - tor as real / aor as real
  }

  function Theory(x: nat): real {
    x as real / (x + 1) as real
  }

  lemma Saving(n: nat, x: nat, aor: nat)
    requires n > 0 && aor == n + n * x
    ensures aor > 0 && Saved(n, aor) == Theory(x)
  {
    var a, b := n as real, (x + 1) as real;
    assert aor as real == a * b by {
      assert aor == n * (x + 1);
    }
    assert a / (a * b) == 1.0 / b by {
      assert (1.0 / b) * (a * b) == a * ((1.0 / b) * b) == a;
    }
  }

  /** After this run the gateway of p has sent everything it read. */
  ghost predicate HasFlushed(cfg: Config, s0: Sys, steps: seq<Step>, s: Sys, p: Pid) {
    Reaches(cfg, s0, steps, s) && p in cfg.paras && LaneExists(s, RelayGate(cfg, p), RELAY) && Flushed(cfg, s, p)
  }

  /** The blocks that the gateway has read. */
  function RunBlocks(cfg: Config, s: Sys, p: Pid): seq<Block>
    requires LaneExists(s, RelayGate(cfg, p), RELAY)
  {
    var g := s.gates[RelayGate(cfg, p)];
    if g.start <= g.next <= |s.chains[p].blocks| then s.chains[p].blocks[g.start..g.next] else []
  }

  lemma RunLoad(cfg: Config, s0: Sys, steps: seq<Step>, s: Sys, p: Pid)
    requires HasFlushed(cfg, s0, steps, s, p) && cfg.mode != R.NoR
    ensures RelayLoad(s, p) == |RunBlocks(cfg, s, p)|
                               + if cfg.mode == R.AoR then Requests(C.Items(C.Flat(RunBlocks(cfg, s, p)))) else 0
  {
    hide Inv, C.Flat;
    Reachable(cfg, s0, steps);
    RelayLoadIs(cfg, s, p);
  }

  /** With x cross-chain transactions in every block, reading as many blocks in ToR as in AoR
      saves the share x / (x + 1) of the relay chain's load: the curve that the workload
      analysis draws as the theoretical value. */
  lemma LoadSaving(aor: Config, a0: Sys, aSteps: seq<Step>, a: Sys, tor: Config, t0: Sys, tSteps: seq<Step>, t: Sys, p: Pid, x: nat)
    requires HasFlushed(aor, a0, aSteps, a, p) && aor.mode == R.AoR
    requires HasFlushed(tor, t0, tSteps, t, p) && tor.mode == R.ToR
    requires |RunBlocks(tor, t, p)| == |RunBlocks(aor, a, p)| > 0 && EachBlockHas(RunBlocks(aor, a, p), x)
    ensures RelayLoad(a, p) > 0 && Saved(RelayLoad(t, p), RelayLoad(a, p)) == Theory(x)
  {
    RunLoad(aor, a0, aSteps, a, p);
    RunLoad(tor, t0, tSteps, t, p);
    UniformRequests(RunBlocks(aor, a, p), x);
    Saving(|RunBlocks(aor, a, p)|, x, RelayLoad(a, p));
  }
}
