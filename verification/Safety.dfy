/** What the invariant means: synced headers have no gaps, and no cross-chain transaction is
    sent before the headers it relies on. */
module Safety {
  import opened Types
  import opened System
  import opened Invariant
  import opened Frame
  import opened GatewaySteps
  import LightClient
  import R = Relayer
  import C = Chain

  // ----- headers -----

  function StartOf(s: Sys, rid: Rid): nat
    requires rid in s.gates
  {
    s.gates[rid].start
  }

  /** No gaps: from the listener's start to the stored maximum every header of the source is
      there and is the source's own; nothing is there before the start, nor above the maximum
      except, between the two store writes of a synchronisation, the next header. */
  ghost predicate NoGaps(cfg: Config, s: Sys, p: Pid, d: Pid)
    requires Syncs(cfg, p, d) && SyncRid(cfg, p) in s.gates && p in s.chains && d in s.chains
  {
    var start, max := StartOf(s, SyncRid(cfg, p)), LightClient.Maxn(s.chains[d].client, p);
    var headers, blocks := s.chains[d].client.headers, s.chains[p].blocks;
    && (forall h: nat | start <= h <= max :: (p, h) in headers)
    && (forall h: nat | (p, h) in headers ::
          && start <= h < |blocks| && headers[(p, h)].header == HeaderOf(blocks[h])
          && (h <= max || (h == (if max == 0 then start else max + 1) && HalfSynced(s.chains[d], p, d))))
  }

  lemma LaneHeadersSynced(cfg: Config, s: Sys, p: Pid, d: Pid)
    requires Inv(cfg, s) && Syncs(cfg, p, d)
    ensures p in s.chains && d in s.chains && C.Valid(s.chains[d])
    ensures SyncRid(cfg, p) in s.gates && SyncRid(cfg, d) in s.gates && StartOf(s, SyncRid(cfg, p)) >= 1
    ensures HeadersSynced(LinkOf(cfg, SyncRid(cfg, p), d), s.chains[p].blocks, StartOf(s, SyncRid(cfg, p)), s.chains[d],
                          |Pick(Sync(p, d), C.Executed(s.chains[d]))|, StartOf(s, SyncRid(cfg, d)))
  {
    var rid := SyncRid(cfg, p);
    LaneFacts(cfg, rid, d);
    assert LaneOk(cfg, s, rid, d) && LaneThere(cfg, s, rid, d) && RidOk(cfg, s, rid);
  }

  lemma HeadersHaveNoGaps(cfg: Config, s: Sys, p: Pid, d: Pid)
    requires Inv(cfg, s) && Syncs(cfg, p, d)
    ensures p in s.chains && d in s.chains && SyncRid(cfg, p) in s.gates && NoGaps(cfg, s, p, d)
  {
    LaneHeadersSynced(cfg, s, p, d);
    var link, blocks, start, c := LinkOf(cfg, SyncRid(cfg, p), d), s.chains[p].blocks, StartOf(s, SyncRid(cfg, p)), s.chains[d];
    forall h: nat | (p, h) in c.client.headers ensures c.client.headers[(p, h)].header == HeaderOf(blocks[h]) {
      assert RecordOk(link, blocks[h], c, h, StartOf(s, SyncRid(cfg, d)));
    }
  }

  /** Nothing is missing between the start and the stored maximum, and nothing is beyond it. */
  ghost predicate Interval(c: LightClient.Client, p: Pid, start: nat) {
    && (forall h: nat | start <= h <= LightClient.Maxn(c, p) :: (p, h) in c.headers)
    && (forall h: nat | (p, h) in c.headers :: start <= h <= LightClient.Maxn(c, p))
  }

  /** The contract takes a header from anyone and at any height, and then moves its maximum there.
      So this is when a synchronisation, whoever sent it, leaves no gap: it is not before the start,
      and at most one above what is there. */
  lemma SyncLeavesNoGap(c: LightClient.Client, p: Pid, class_: ChainClass, start: nat, h: nat, header: Header, csHeight: nat)
    requires Interval(c, p, start) && start >= 1 && (LightClient.Maxn(c, p) == 0 || LightClient.Maxn(c, p) >= start)
    ensures Interval(LightClient.ExecHeaderSync(c, p, class_, h, header, csHeight).0, p, start)
            <==> h == 0 || start <= h <= (if LightClient.Maxn(c, p) == 0 then start else LightClient.Maxn(c, p) + 1)
  {
    var c', max := LightClient.ExecHeaderSync(c, p, class_, h, header, csHeight).0, LightClient.Maxn(c, p);
    if h > 0 {
      assert (p, h) in c'.headers;
      var next := if max == 0 then start else max + 1;
      if h > next {
        assert (p, next) !in c'.headers;
      }
    }
  }

  /** And it is only the source's own header if that is what was sent: a header that is there is
      replaced by any other. */
  lemma SyncReplaces(c: LightClient.Client, p: Pid, class_: ChainClass, h: nat, header: Header, csHeight: nat)
    requires h > 0
    ensures var c' := LightClient.ExecHeaderSync(c, p, class_, h, header, csHeight).0;
      (p, h) in c'.headers && c'.headers[(p, h)] == LightClient.HeaderRec(header, csHeight)
  {
  }

  /** The header of (p, h) on d, and the block of d that executed its synchronisation. */
  lemma RecordInBlock(cfg: Config, s: Sys, p: Pid, d: Pid, h: nat)
    requires Inv(cfg, s) && Syncs(cfg, p, d) && d in s.chains && (p, h) in s.chains[d].client.headers
    ensures p in s.chains && h < |s.chains[p].blocks| && SyncRid(cfg, d) in s.gates
    ensures var r := s.chains[d].client.headers[(p, h)];
      && r.header == HeaderOf(s.chains[p].blocks[h]) && r.csHeight > StartOf(s, SyncRid(cfg, d))
      && InBlock(s.chains[d], r.csHeight, R.HeaderItem(LinkOf(cfg, SyncRid(cfg, p), d), HeaderOf(s.chains[p].blocks[h])))
  {
    LaneHeadersSynced(cfg, s, p, d);
    assert RecordOk(LinkOf(cfg, SyncRid(cfg, p), d), s.chains[p].blocks[h], s.chains[d], h, StartOf(s, SyncRid(cfg, d)));
  }

  // ----- the trust path of ToR -----

  function SentBy(s: Sys, rid: Rid, d: Pid): seq<Item>
    requires d in s.chains
  {
    Pick(Xtx(rid.src, d), C.Ledger(s.chains[d]))
  }

  /** What a transaction of source height h relies on when it reaches d: the relay chain holds
      the source header, confirmed in its committed block c which contains the synchronising
      transaction, and d holds the header of that block. */
  ghost predicate TrustPath(cfg: Config, s: Sys, p: Pid, d: Pid, h: nat, c: nat)
    requires p in s.chains && d in s.chains && RELAY in s.chains
  {
    var relay, dst := s.chains[RELAY], s.chains[d];
    && h < |s.chains[p].blocks| && (p, h) in relay.client.headers
    && relay.client.headers[(p, h)] == LightClient.HeaderRec(HeaderOf(s.chains[p].blocks[h]), c)
    && 1 <= c < |relay.blocks|
    && R.HeaderItem(LinkOf(cfg, Rid(p, R.Par), RELAY), HeaderOf(s.chains[p].blocks[h])) in C.Items(relay.blocks[c].txs)
    && (RELAY, c) in dst.client.headers && dst.client.headers[(RELAY, c)].header == HeaderOf(relay.blocks[c])
  }

  /** The L1 transaction for source height h among the first n items sent. */
  ghost predicate L1At(onDst: seq<Item>, n: nat, i: nat, h: nat, c: nat)
    requires n <= |onDst|
  {
    && i < n && IsL1(onDst[i]) && About(onDst[i]) == h
    && onDst[i].call.ValidateState? && onDst[i].call.pid == RELAY && onDst[i].call.height == c
    && forall j | 0 <= j < |onDst| && j != i && IsL1(onDst[j]) :: About(onDst[j]) != h
  }

  lemma TrustedPath(cfg: Config, s: Sys, rid: Rid, d: Pid, h: nat) returns (c: nat)
    requires Inv(cfg, s) && IsLane(cfg, rid, d) && rid.role == R.Pap
    requires d in s.chains && Trusted(LinkOf(cfg, rid, d), RelayClient(cfg, s), s.chains[d].client, h)
    ensures rid.src in s.chains && RELAY in s.chains && TrustPath(cfg, s, rid.src, d, h, c)
    ensures Awaits(LinkOf(cfg, rid, d), RelayClient(cfg, s), h, c)
  {
    var p, link := rid.src, LinkOf(cfg, rid, d);
    LaneFacts(cfg, rid, d);
    c :| Awaits(link, RelayClient(cfg, s), h, c) && c <= LightClient.Maxn(s.chains[d].client, RELAY);
    assert Syncs(cfg, p, RELAY) && Syncs(cfg, RELAY, d) && SyncRid(cfg, p) == Rid(p, R.Par);
    RecordInBlock(cfg, s, p, RELAY, h);
    HeadersHaveNoGaps(cfg, s, RELAY, d);
  }

  /** In every reachable state of ToR, a transaction that a PAP gateway has sent to d for source
      height h has its whole trust path in place, and exactly one L1 transaction for h, which
      names the path's relay-chain height, precedes it on d. */
  lemma TorTrust(cfg: Config, s0: Sys, steps: seq<Step>, s: Sys, rid: Rid, d: Pid, j: nat) returns (c: nat, i: nat)
    requires Reaches(cfg, s0, steps, s)
    requires IsLane(cfg, rid, d) && rid.role == R.Pap && d in s.chains
    requires j < |SentBy(s, rid, d)| && !IsL1(SentBy(s, rid, d)[j])
    ensures var onDst := SentBy(s, rid, d);
      && onDst[j].call.ValidateState?
      && rid.src in s.chains && RELAY in s.chains && TrustPath(cfg, s, rid.src, d, About(onDst[j]), c)
      && L1At(onDst, j, i, About(onDst[j]), c)
  {
    Reachable(cfg, s0, steps);
    c, i := SentTrust(cfg, s, rid, d, j);
  }

  lemma SentTrust(cfg: Config, s: Sys, rid: Rid, d: Pid, j: nat) returns (c: nat, i: nat)
    requires Inv(cfg, s) && IsLane(cfg, rid, d) && rid.role == R.Pap && d in s.chains
    requires j < |SentBy(s, rid, d)| && !IsL1(SentBy(s, rid, d)[j])
    ensures var onDst := SentBy(s, rid, d);
      && onDst[j].call.ValidateState?
      && rid.src in s.chains && RELAY in s.chains && TrustPath(cfg, s, rid.src, d, About(onDst[j]), c)
      && L1At(onDst, j, i, About(onDst[j]), c)
  {
    var onDst, link := SentBy(s, rid, d), LinkOf(cfg, rid, d);
    assert LaneOk(cfg, s, rid, d);
    assert SentOk(link, onDst[j]) && Trusted(link, RelayClient(cfg, s), s.chains[d].client, About(onDst[j]));
    c := TrustedPath(cfg, s, rid, d, About(onDst[j]));
    i :| 0 <= i < j && IsL1(onDst[i]) && About(onDst[i]) == About(onDst[j]);
    assert SentOk(link, onDst[i]) && Awaits(link, RelayClient(cfg, s), About(onDst[i]), onDst[i].call.height);
  }
}
