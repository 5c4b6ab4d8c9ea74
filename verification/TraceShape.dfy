/** The timestamps that a cross-chain transaction collects on its way, over whole runs. */
module TraceShape {
  import opened Types
  import opened System
  import opened Invariant
  import opened GatewaySteps
  import LightClient
  import R = Relayer
  import C = Chain

  // ----- the shape of a trace -----

  /** Event i after creation is a commit, or a mark of a gateway with this tag. */
  predicate IsCommit(i: nat) {
    i == 0 || i == 4 || i == 8
  }

  function TagAt(i: nat): Tag {
    if i == 1 || i == 5 then Listened else if i == 2 || i == 6 then Ready else Send
  }

  function Commits(events: seq<Time>): seq<Time> {
    if events == [] then []
    else
      var n := |events| - 1;
      Commits(events[..n]) + if IsCommit(n) then [events[n]] else []
  }

  function Marks(events: seq<Time>): seq<Mark> {
    if events == [] then []
    else
      var n := |events| - 1;
      Marks(events[..n]) + if IsCommit(n) then [] else [Mark(TagAt(n), events[n])]
  }

  // ----- the memo as it was put -----

  /** A cross-chain transaction as it was given to chain p. */
  datatype Request = Request(p: Pid, tx: Tx, at: Time)

  /** What a step gives: a user's transaction, or the generated ones of a proposal. */
  function Given(st: Step): set<Request> {
    match st
    case UserPut(p, tx, t) => if tx.item.kind == CtxSrc then {Request(p, tx, t)} else {}
    case Propose(p, gen, t) => set i | 0 <= i < |gen| :: Request(p, gen[i], t)
    case _ => {}
  }

  function Requests(steps: seq<Step>): set<Request> {
    if steps == [] then {} else Requests(steps[..|steps| - 1]) + Given(steps[|steps| - 1])
  }

  /** A forwarded transaction carries the one it was built from. */
  function Origin(item: Item): TxId {
    if item.sender.Gateway? && item.call.ValidateState? then Origin(item.call.state.item) else Id(item)
  }

  /** The transaction is the request, or was forwarded for it. */
  predicate Stems(q: Request, item: Item) {
    Id(q.tx.item) == Origin(item) && q.tx.item.dst == item.dst
  }

  /** The mode, and what was requested so far. */
  datatype World = World(mode: R.Mode, requests: set<Request>)

  /** The times never decrease, from the put to now. */
  ghost predicate Ordered(put: Time, events: seq<Time>, now: Time) {
    && (forall i, j | 0 <= i < j < |events| :: events[i] <= events[j])
    && (forall i | 0 <= i < |events| :: put <= events[i] <= now)
    && put <= now
  }

  /** The memo is that of the request, with the events after whatever it came with. */
  ghost predicate TracedBy(tr: Trace, q: Request, events: seq<Time>, now: Time) {
    && tr.init == q.tx.trace.init && tr.flaws == q.tx.trace.flaws && Ordered(q.at, events, now)
    && tr.commit == q.tx.trace.commit + Commits(events) && tr.relayer == q.tx.trace.relayer + Marks(events)
  }

  ghost predicate Happened(q: Request, tr: Trace, n: nat, now: Time) {
    exists events: seq<Time> :: |events| == n && TracedBy(tr, q, events, now)
  }

  /** The transaction stems from a request, and n events have happened to it since. */
  ghost predicate Stage(w: World, tx: Tx, n: nat, now: Time) {
    exists q :: q in w.requests && Stems(q, tx.item) && Happened(q, tx.trace, n, now)
  }

  /** More may have been requested. */
  predicate Within(w: World, w': World) {
    w'.mode == w.mode && w.requests <= w'.requests
  }

  lemma StageLater(w: World, w': World, tx: Tx, n: nat, now: Time, later: Time)
    requires Stage(w, tx, n, now) && Within(w, w') && now <= later
    ensures Stage(w', tx, n, later)
  {
    var q :| q in w.requests && Stems(q, tx.item) && Happened(q, tx.trace, n, now);
    var events: seq<Time> :| |events| == n && TracedBy(tx.trace, q, events, now);
    assert TracedBy(tx.trace, q, events, later);
    assert Happened(q, tx.trace, n, later);
  }

  lemma StageBegins(w: World, q: Request)
    requires q in w.requests && q.tx.item.sender.User?
    ensures Stage(w, q.tx, 0, q.at)
  {
    assert TracedBy(q.tx.trace, q, [], q.at);
    assert Stems(q, q.tx.item) && Happened(q, q.tx.trace, 0, q.at);
  }

  lemma CommitsSnoc(events: seq<Time>, t: Time)
    ensures Commits(events + [t]) == Commits(events) + if IsCommit(|events|) then [t] else []
  {
    var all := events + [t];
    assert all[..|all| - 1] == events;
  }

  lemma MarksSnoc(events: seq<Time>, t: Time)
    ensures Marks(events + [t]) == Marks(events) + if IsCommit(|events|) then [] else [Mark(TagAt(|events|), t)]
  {
    var all := events + [t];
    assert all[..|all| - 1] == events;
  }

  /** One more event, not before now. */
  lemma StageNext(w: World, tx: Tx, tx': Tx, n: nat, now: Time, t: Time)
    requires Stage(w, tx, n, now) && now <= t
    requires Origin(tx'.item) == Origin(tx.item) && tx'.item.dst == tx.item.dst
    requires tx'.trace.init == tx.trace.init && tx'.trace.flaws == tx.trace.flaws
    requires tx'.trace.commit == tx.trace.commit + if IsCommit(n) then [t] else []
    requires tx'.trace.relayer == tx.trace.relayer + if IsCommit(n) then [] else [Mark(TagAt(n), t)]
    ensures Stage(w, tx', n + 1, t)
  {
    hide Commits, Marks, Origin;
    var q :| q in w.requests && Stems(q, tx.item) && Happened(q, tx.trace, n, now);
    var events: seq<Time> :| |events| == n && TracedBy(tx.trace, q, events, now);
    CommitsSnoc(events, t);
    MarksSnoc(events, t);
    assert TracedBy(tx'.trace, q, events + [t], t);
    assert Stems(q, tx'.item) && Happened(q, tx'.trace, n + 1, t);
  }

  /** The pool does not touch commits and marks. */
  lemma StageSame(w: World, tx: Tx, tx': Tx, n: nat, now: Time)
    requires Stage(w, tx, n, now) && SameTrace(tx, tx')
    ensures Stage(w, tx', n, now)
  {
    hide Commits, Marks, Origin;
    var q :| q in w.requests && Stems(q, tx.item) && Happened(q, tx.trace, n, now);
    var events: seq<Time> :| |events| == n && TracedBy(tx.trace, q, events, now);
    assert TracedBy(tx'.trace, q, events, now);
    assert Stems(q, tx'.item) && Happened(q, tx'.trace, n, now);
  }

  predicate SameTrace(tx: Tx, tx': Tx) {
    && tx'.item == tx.item && tx'.trace.init == tx.trace.init && tx'.trace.flaws == tx.trace.flaws
    && tx'.trace.commit == tx.trace.commit && tx'.trace.relayer == tx.trace.relayer
  }

  // ----- where a transaction is, and how many events it has behind it -----

  /** The number of events behind a transaction of this kind when it enters a pool. */
  function Entry(mode: R.Mode, kind: Kind): nat {
    if kind == CtxSrc then 0 else if kind == CtxInter || mode != R.AoR then 4 else 8
  }

  predicate Tracks(kind: Kind) {
    kind == CtxSrc || kind == CtxInter || kind == CtxDst
  }

  /** A transaction on chain p, with k = 1 when it is committed. */
  ghost predicate TxTraced(w: World, p: Pid, tx: Tx, k: nat, now: Time) {
    Tracks(tx.item.kind) ==>
      && (p == RELAY <==> tx.item.kind == CtxInter)
      && (tx.item.kind == CtxInter ==> w.mode == R.AoR)
      && Stage(w, tx, Entry(w.mode, tx.item.kind) + k, now)
  }

  ghost predicate AllTraced(w: World, p: Pid, txs: seq<Tx>, k: nat, now: Time) {
    forall i | 0 <= i < |txs| :: TxTraced(w, p, txs[i], k, now)
  }

  ghost predicate ChainTraced(w: World, p: Pid, c: C.Chain, now: Time) {
    && AllTraced(w, p, C.Flat(c.blocks), 1, now)
    && AllTraced(w, p, C.Proposed(c), 0, now) && AllTraced(w, p, c.pool, 0, now)
  }

  /** The kind of what a lane carries, and how many events are behind it in the queue. */
  function HopKind(mode: R.Mode, src: Pid): Kind {
    if mode == R.AoR && src != RELAY then CtxInter else CtxDst
  }

  function Queued(src: Pid): nat {
    if src == RELAY then 6 else 2
  }

  ghost predicate Carries(w: World, src: Pid, tx: Tx, n: nat, now: Time) {
    tx.item.kind == HopKind(w.mode, src) && Stage(w, tx, n, now)
  }

  ghost predicate QueueTraced(w: World, src: Pid, txs: seq<Tx>, now: Time) {
    forall i | 0 <= i < |txs| :: Carries(w, src, txs[i], Queued(src), now)
  }

  ghost predicate LaneTraced(w: World, src: Pid, l: R.Lane, now: Time) {
    && QueueTraced(w, src, l.xtxQ, now)
    && (!l.pc.Idle? ==> Carries(w, src, l.pc.xtx, Queued(src), now) && Carries(w, src, l.pc.tx, Queued(src) + 1, now))
  }

  ghost predicate LaneThereTraced(w: World, s: Sys, rid: Rid, d: Pid) {
    LaneExists(s, rid, d) ==> LaneTraced(w, rid.src, LaneOf(s, rid, d), s.now)
  }

  ghost predicate Traced(cfg: Config, w: World, s: Sys) {
    && ValidConfig(cfg) && Shape(cfg, s) && w.mode == cfg.mode
    && (forall p | p in s.chains :: ChainTraced(w, p, s.chains[p], s.now))
    && (forall rid, d {:trigger LaneThereTraced(w, s, rid, d)} :: LaneThereTraced(w, s, rid, d))
  }

  // ----- time passes -----

  lemma AllLater(w: World, w': World, p: Pid, txs: seq<Tx>, k: nat, now: Time, later: Time)
    requires AllTraced(w, p, txs, k, now) && Within(w, w') && now <= later
    ensures AllTraced(w', p, txs, k, later)
  {
    forall i | 0 <= i < |txs| ensures TxTraced(w', p, txs[i], k, later) {
      assert TxTraced(w, p, txs[i], k, now);
      if Tracks(txs[i].item.kind) {
        StageLater(w, w', txs[i], Entry(w.mode, txs[i].item.kind) + k, now, later);
      }
    }
  }

  lemma ChainLater(w: World, w': World, p: Pid, c: C.Chain, now: Time, later: Time)
    requires ChainTraced(w, p, c, now) && Within(w, w') && now <= later
    ensures ChainTraced(w', p, c, later)
  {
    AllLater(w, w', p, C.Flat(c.blocks), 1, now, later);
    AllLater(w, w', p, C.Proposed(c), 0, now, later);
    AllLater(w, w', p, c.pool, 0, now, later);
  }

  lemma LaneLater(w: World, w': World, src: Pid, l: R.Lane, now: Time, later: Time)
    requires LaneTraced(w, src, l, now) && Within(w, w') && now <= later
    ensures LaneTraced(w', src, l, later)
  {
    forall i | 0 <= i < |l.xtxQ| ensures Carries(w', src, l.xtxQ[i], Queued(src), later) {
      assert Carries(w, src, l.xtxQ[i], Queued(src), now);
      StageLater(w, w', l.xtxQ[i], Queued(src), now, later);
    }
    if !l.pc.Idle? {
      StageLater(w, w', l.pc.xtx, Queued(src), now, later);
      StageLater(w, w', l.pc.tx, Queued(src) + 1, now, later);
    }
  }

  lemma TracedWithin(cfg: Config, w: World, w': World, s: Sys)
    requires Traced(cfg, w, s) && Within(w, w')
    ensures Traced(cfg, w', s)
  {
    hide LaneTraced, ChainTraced;
    forall p | p in s.chains ensures ChainTraced(w', p, s.chains[p], s.now) {
      ChainLater(w, w', p, s.chains[p], s.now, s.now);
    }
    forall rid, d ensures LaneThereTraced(w', s, rid, d) {
      assert LaneThereTraced(w, s, rid, d);
      if LaneExists(s, rid, d) {
        LaneLater(w, w', rid.src, LaneOf(s, rid, d), s.now, s.now);
      }
    }
  }

  // ----- chain steps -----

  lemma SameTraces(w: World, p: Pid, txs: seq<Tx>, txs': seq<Tx>, k: nat, now: Time)
    requires AllTraced(w, p, txs, k, now) && |txs'| == |txs|
    requires forall i | 0 <= i < |txs| :: SameTrace(txs[i], txs'[i])
    ensures AllTraced(w, p, txs', k, now)
  {
    forall i | 0 <= i < |txs| ensures TxTraced(w, p, txs'[i], k, now) {
      assert TxTraced(w, p, txs[i], k, now);
      if Tracks(txs[i].item.kind) {
        StageSame(w, txs[i], txs'[i], Entry(w.mode, txs[i].item.kind) + k, now);
      }
    }
  }

  lemma PutTraced(w: World, p: Pid, c: C.Chain, tx: Tx, t: Time)
    requires ChainTraced(w, p, c, t) && TxTraced(w, p, tx, 0, t)
    ensures ChainTraced(w, p, C.Put(c, tx, t), t)
  {
    SameTraces(w, p, [tx], [C.Pooled(tx, t)], 0, t);
    assert TxTraced(w, p, [C.Pooled(tx, t)][0], 0, t);
  }

  lemma UserTxTraced(cfg: Config, w: World, p: Pid, tx: Tx, t: Time)
    requires ValidConfig(cfg) && UserTx(cfg, p, tx) && (tx.item.kind == CtxSrc ==> Request(p, tx, t) in w.requests)
    ensures TxTraced(w, p, tx, 0, t)
  {
    if tx.item.kind == CtxSrc {
      StageBegins(w, Request(p, tx, t));
    }
  }

  lemma ProposeTraced(cfg: Config, w: World, p: Pid, c: C.Chain, gen: seq<Tx>, size: nat, t: Time)
    requires ValidConfig(cfg) && C.CanPropose(c) && ChainTraced(w, p, c, t)
    requires forall i | 0 <= i < |gen| :: UserTx(cfg, p, gen[i]) && Request(p, gen[i], t) in w.requests
    ensures ChainTraced(w, p, C.Propose(c, gen, size, t), t)
  {
    var n := C.Taken(|gen|, |c.pool|, size);
    SameTraces(w, p, c.pool[..n], C.PoppedAll(c.pool[..n], t), 0, t);
    forall i | 0 <= i < |gen| ensures TxTraced(w, p, gen[i], 0, t) {
      UserTxTraced(cfg, w, p, gen[i], t);
    }
    AllConcat(w, p, gen, C.PoppedAll(c.pool[..n], t), 0, t);
  }

  lemma AllConcat(w: World, p: Pid, a: seq<Tx>, b: seq<Tx>, k: nat, now: Time)
    requires AllTraced(w, p, a, k, now) && AllTraced(w, p, b, k, now)
    ensures AllTraced(w, p, a + b, k, now)
  {
  }

  lemma ExecTraced(w: World, p: Pid, c: C.Chain, now: Time)
    requires C.CanExec(c) && ChainTraced(w, p, c, now)
    ensures ChainTraced(w, p, C.ExecStep(c), now)
  {
    SameTraces(w, p, C.Proposed(c), C.Proposed(C.ExecStep(c)), 0, now);
  }

  /** Committing is the next event of every transaction of the block. */
  lemma CommitTraced(w: World, p: Pid, c: C.Chain, now: Time, t: Time)
    requires C.CanCommit(c) && ChainTraced(w, p, c, now) && now <= t
    ensures ChainTraced(w, p, C.Commit(c, t), t)
  {
    var b := c.ctx.value;
    var txs := C.CommittedAll(b.txs, b.height, t);
    ChainLater(w, w, p, c, now, t);
    if C.AllFit(b.txs) {
      forall i | 0 <= i < |txs| ensures TxTraced(w, p, txs[i], 1, t) {
        assert TxTraced(w, p, C.Proposed(c)[i], 0, now);
        if Tracks(txs[i].item.kind) {
          StageNext(w, b.txs[i], txs[i], Entry(w.mode, txs[i].item.kind), now, t);
        }
      }
      C.FlatSnoc(c.blocks, b.(txs := txs));
      AllConcat(w, p, C.Flat(c.blocks), txs, 1, t);
    }
  }

  // ----- gateway steps -----

  /** Listening is the next event of every transaction that is routed. */
  lemma {:induction false} RouteTraced(w: World, role: R.Role, src: Pid, dst: Pid, txs: seq<Tx>, now: Time, t: Time)
    requires AllTraced(w, src, txs, 1, now) && now <= t
    ensures QueueTraced(w, src, R.Route(w.mode, role, src, dst, txs, t), t)
  {
    if txs != [] {
      var n := |txs| - 1;
      RouteTraced(w, role, src, dst, txs[..n], now, t);
      assert TxTraced(w, src, txs[n], 1, now);
      if R.Target(w.mode, role, src, txs[n]) == dst && dst != -1 {
        var hop := R.NextHop(w.mode, role, src, txs[n].item);
        StageNext(w, txs[n], R.Heard(txs[n], hop.0, t), Entry(w.mode, txs[n].item.kind) + 1, now, t);
      }
    }
  }

  lemma TakeTraced(w: World, src: Pid, link: R.Link, l: R.Lane, now: Time, t: Time)
    requires LaneTraced(w, src, l, now) && now <= t && R.CanTake(l)
    ensures LaneTraced(w, src, R.Take(link, l, t), t)
  {
    var xtx, l' := l.xtxQ[0], R.Take(link, l, t);
    LaneLater(w, w, src, l, now, t);
    assert Carries(w, src, xtx, Queued(src), now) && Carries(w, src, xtx, Queued(src), t);
    StageNext(w, xtx, l'.pc.tx, Queued(src), now, t);
    forall i | 0 <= i < |l'.xtxQ| ensures Carries(w, src, l'.xtxQ[i], Queued(src), t) {
      assert Carries(w, src, l.xtxQ[i + 1], Queued(src), t);
    }
  }

  lemma SendTraced(w: World, src: Pid, d: Pid, l: R.Lane, now: Time, t: Time)
    requires LaneTraced(w, src, l, now) && now <= t && R.CanSend(l)
    requires (d == RELAY <==> HopKind(w.mode, src) == CtxInter)
    requires src == RELAY ==> w.mode == R.AoR
    ensures TxTraced(w, d, R.Outgoing(l, t), 0, t)
  {
    StageNext(w, l.pc.tx, R.Outgoing(l, t), Queued(src) + 1, now, t);
  }

  // ----- every step -----

  ghost predicate ChainKept(w: World, s: Sys, s': Sys, p: Pid) {
    p in s.chains && p in s'.chains && (s'.chains[p] == s.chains[p] || ChainTraced(w, p, s'.chains[p], s'.now))
  }

  ghost predicate LaneKept(w: World, s: Sys, s': Sys, rid: Rid, d: Pid) {
    LaneExists(s', rid, d) ==>
      && LaneExists(s, rid, d)
      && (LaneOf(s', rid, d) == LaneOf(s, rid, d) || LaneTraced(w, rid.src, LaneOf(s', rid, d), s'.now))
  }

  lemma TracedFrame(cfg: Config, w: World, s: Sys, s': Sys)
    requires Traced(cfg, w, s) && Shape(cfg, s') && s.now <= s'.now
    requires forall p | p in s'.chains :: ChainKept(w, s, s', p)
    requires forall rid, d {:trigger LaneKept(w, s, s', rid, d)} :: LaneKept(w, s, s', rid, d)
    ensures Traced(cfg, w, s')
  {
    forall p | p in s'.chains ensures ChainTraced(w, p, s'.chains[p], s'.now) {
      assert ChainKept(w, s, s', p);
      if s'.chains[p] == s.chains[p] {
        ChainLater(w, w, p, s.chains[p], s.now, s'.now);
      }
    }
    forall rid, d ensures LaneThereTraced(w, s', rid, d) {
      assert LaneKept(w, s, s', rid, d) && LaneThereTraced(w, s, rid, d);
      if LaneExists(s', rid, d) && LaneOf(s', rid, d) == LaneOf(s, rid, d) {
        LaneLater(w, w, rid.src, LaneOf(s, rid, d), s.now, s'.now);
      }
    }
  }

  /** A step of one chain. */
  lemma ChainStepTraced(cfg: Config, w: World, s: Sys, s': Sys, p: Pid)
    requires Traced(cfg, w, s) && Shape(cfg, s') && s.now <= s'.now && p in s.chains
    requires s'.chains == s.chains[p := s'.chains[p]] && s'.gates == s.gates
    requires ChainTraced(w, p, s'.chains[p], s'.now)
    ensures Traced(cfg, w, s')
  {
    forall q | q in s'.chains ensures ChainKept(w, s, s', q) {
    }
    forall rid, d ensures LaneKept(w, s, s', rid, d) {
    }
    TracedFrame(cfg, w, s, s');
  }

  /** A step of one lane, and of its destination's pool. */
  lemma LaneStepTraced(cfg: Config, w: World, s: Sys, s': Sys, rid: Rid, d: Pid, l: R.Lane)
    requires Traced(cfg, w, s) && Shape(cfg, s') && s.now <= s'.now && LaneExists(s, rid, d)
    requires s'.gates == SetLane(s, rid, d, l).gates && LaneTraced(w, rid.src, l, s'.now)
    requires d in s'.chains && s'.chains == s.chains[d := s'.chains[d]] && ChainKept(w, s, s', d)
    ensures Traced(cfg, w, s')
  {
    forall q | q in s'.chains ensures ChainKept(w, s, s', q) {
    }
    forall r, e ensures LaneKept(w, s, s', r, e) {
    }
    TracedFrame(cfg, w, s, s');
  }

  lemma ListenTraced(cfg: Config, w: World, s: Sys, s': Sys, rid: Rid, t: Time)
    requires Traced(cfg, w, s) && Shape(cfg, s') && Enabled(cfg, s, Listen(rid, t)) && s' == Apply(cfg, s, Listen(rid, t))
    ensures Traced(cfg, w, s')
  {
    var c, next := s.chains[rid.src], s.gates[rid].next;
    assert ChainTraced(w, rid.src, c, s.now);
    BlockTraced(w, rid.src, c.blocks, next, s.now);
    forall q | q in s'.chains ensures ChainKept(w, s, s', q) {
    }
    forall r, d ensures LaneKept(w, s, s', r, d) {
      if r == rid && LaneExists(s', r, d) {
        assert LaneThereTraced(w, s, r, d);
        RouteTraced(w, rid.role, rid.src, d, c.blocks[next].txs, s.now, t);
        HeardTraced(w, rid.src, LaneOf(s, r, d), LaneOf(s', r, d),
                    R.Route(w.mode, rid.role, rid.src, d, c.blocks[next].txs, t), s.now, t);
      }
    }
    TracedFrame(cfg, w, s, s');
  }

  lemma {:induction false} BlockTraced(w: World, p: Pid, blocks: seq<Block>, h: nat, now: Time)
    requires h < |blocks| && AllTraced(w, p, C.Flat(blocks), 1, now)
    ensures AllTraced(w, p, blocks[h].txs, 1, now)
  {
    var n := |blocks| - 1;
    var front := C.Flat(blocks[..n]);
    if h == n {
      forall i | 0 <= i < |blocks[h].txs| ensures TxTraced(w, p, blocks[h].txs[i], 1, now) {
        assert TxTraced(w, p, C.Flat(blocks)[|front| + i], 1, now);
      }
    } else {
      forall i | 0 <= i < |front| ensures TxTraced(w, p, front[i], 1, now) {
        assert TxTraced(w, p, C.Flat(blocks)[i], 1, now);
      }
      BlockTraced(w, p, blocks[..n], h, now);
    }
  }

  lemma HeardTraced(w: World, src: Pid, l: R.Lane, l': R.Lane, heard: seq<Tx>, now: Time, t: Time)
    requires LaneTraced(w, src, l, now) && now <= t && QueueTraced(w, src, heard, t)
    requires l' == l.(headerQ := l'.headerQ, xtxQ := l.xtxQ + heard)
    ensures LaneTraced(w, src, l', t)
  {
    LaneLater(w, w, src, l, now, t);
  }

  lemma SenderCarries(cfg: Config, s: Sys, rid: Rid, d: Pid)
    requires Inv(cfg, s) && LaneExists(s, rid, d) && !LaneOf(s, rid, d).pc.Idle?
    ensures (d == RELAY <==> HopKind(cfg.mode, rid.src) == CtxInter) && (rid.src == RELAY ==> cfg.mode == R.AoR)
  {
    hide HeadersFlow, HeadersSynced, SentOk, L1First, Waits, SentTrusted, ChainOk;
    LaneParts(cfg, s, rid, d);
  }

  lemma SendStepTraced(cfg: Config, w: World, s: Sys, s': Sys, rid: Rid, d: Pid, t: Time)
    requires Inv(cfg, s) && Traced(cfg, w, s) && Shape(cfg, s')
    requires Enabled(cfg, s, SendXtx(rid, d, t)) && s' == Apply(cfg, s, SendXtx(rid, d, t))
    ensures Traced(cfg, w, s')
  {
    var l := LaneOf(s, rid, d);
    SenderCarries(cfg, s, rid, d);
    assert LaneThereTraced(w, s, rid, d) && ChainTraced(w, d, s.chains[d], s.now);
    LaneLater(w, w, rid.src, l, s.now, t);
    ChainLater(w, w, d, s.chains[d], s.now, t);
    SendTraced(w, rid.src, d, l, s.now, t);
    PutTraced(w, d, s.chains[d], R.Outgoing(l, t), t);
    LaneStepTraced(cfg, w, s, s', rid, d, R.Sent(l));
  }

  /** Putting a transaction that no trace is kept of. */
  lemma UntrackedTraced(cfg: Config, w: World, s: Sys, s': Sys, rid: Rid, d: Pid, l: R.Lane, tx: Tx, t: Time)
    requires Traced(cfg, w, s) && Shape(cfg, s') && s.now <= t == s'.now && LaneExists(s, rid, d)
    requires s'.gates == SetLane(s, rid, d, l).gates && s'.chains == s.chains[d := C.Put(s.chains[d], tx, t)]
    requires !Tracks(tx.item.kind) && LaneTraced(w, rid.src, l, t)
    ensures Traced(cfg, w, s')
  {
    assert ChainTraced(w, d, s.chains[d], s.now);
    ChainLater(w, w, d, s.chains[d], s.now, t);
    PutTraced(w, d, s.chains[d], tx, t);
    LaneStepTraced(cfg, w, s, s', rid, d, l);
  }

  lemma LaneOnlyTraced(cfg: Config, w: World, s: Sys, s': Sys, rid: Rid, d: Pid, l: R.Lane)
    requires Traced(cfg, w, s) && Shape(cfg, s') && s.now <= s'.now && LaneExists(s, rid, d)
    requires s'.gates == SetLane(s, rid, d, l).gates && s'.chains == s.chains
    requires LaneTraced(w, rid.src, l, s'.now)
    ensures Traced(cfg, w, s')
  {
    LaneStepTraced(cfg, w, s, s', rid, d, l);
  }

  lemma ChainStep(cfg: Config, w: World, s: Sys, s': Sys, st: Step)
    requires Traced(cfg, w, s) && Enabled(cfg, s, st) && s' == Apply(cfg, s, st) && Shape(cfg, s')
    requires st.UserPut? || st.Propose? || st.Exec? || st.Commit?
    requires Given(st) <= w.requests
    ensures Traced(cfg, w, s')
  {
    hide C.Put, C.Propose, C.ExecStep, C.Commit;
    var c := s.chains[st.p];
    assert ChainTraced(w, st.p, c, s.now);
    ChainLater(w, w, st.p, c, s.now, s'.now);
    match st {
      case UserPut(p, tx, t) => UserTxTraced(cfg, w, p, tx, t); PutTraced(w, p, c, tx, t);
      case Propose(p, gen, t) =>
        forall i | 0 <= i < |gen| ensures Request(p, gen[i], t) in w.requests {
          assert Request(p, gen[i], t) in Given(st);
        }
        ProposeTraced(cfg, w, p, c, gen, cfg.sizes[p], t);
      case Exec(p) => ExecTraced(w, p, c, s.now);
      case Commit(p, t) => CommitTraced(w, p, c, s.now, t);
    }
    ChainStepTraced(cfg, w, s, s', st.p);
  }

  lemma SendHeaderTraced(cfg: Config, w: World, s: Sys, s': Sys, rid: Rid, d: Pid, t: Time)
    requires Traced(cfg, w, s) && Shape(cfg, s')
    requires Enabled(cfg, s, SendHeader(rid, d, t)) && s' == Apply(cfg, s, SendHeader(rid, d, t))
    ensures Traced(cfg, w, s')
  {
    var l := LaneOf(s, rid, d);
    assert LaneThereTraced(w, s, rid, d);
    LaneLater(w, w, rid.src, l, s.now, t);
    UntrackedTraced(cfg, w, s, s', rid, d, l.(headerQ := l.headerQ[1..]),
                    R.NewTx(R.HeaderItem(LinkOf(cfg, rid, d), l.headerQ[0]), NO_TRACE), t);
  }

  /** What clearing changes. */
  lemma ClearStep(cfg: Config, s: Sys, s': Sys, rid: Rid, d: Pid, t: Time)
    requires Enabled(cfg, s, Clear(rid, d, t)) && s' == Apply(cfg, s, Clear(rid, d, t))
    ensures var l, link := LaneOf(s, rid, d), LinkOf(cfg, rid, d);
      && HoldsSame(l, R.Clear(link, l)) && s'.gates == SetLane(s, rid, d, R.Clear(link, l)).gates && s'.now == t
      && s'.chains == if R.NeedsL1(link, l)
                      then s.chains[d := C.Put(s.chains[d], R.NewTx(R.L1Item(link, l.pc.target, l.pc.xtx), NO_TRACE), t)]
                      else s.chains
  {
    hide LinkOf, C.Put;
  }

  lemma ClearTraced(cfg: Config, w: World, s: Sys, s': Sys, rid: Rid, d: Pid, t: Time)
    requires Traced(cfg, w, s) && Shape(cfg, s')
    requires Enabled(cfg, s, Clear(rid, d, t)) && s' == Apply(cfg, s, Clear(rid, d, t))
    ensures Traced(cfg, w, s')
  {
    hide LaneTraced, ChainTraced, LinkOf, Apply, Shape, HoldsSame, R.Clear, C.Put, Tracks, SetLane;
    var l, link := LaneOf(s, rid, d), LinkOf(cfg, rid, d);
    assert LaneThereTraced(w, s, rid, d);
    LaneLater(w, w, rid.src, l, s.now, t);
    ClearStep(cfg, s, s', rid, d, t);
    SameLaneTraced(w, rid.src, l, R.Clear(link, l), t);
    if R.NeedsL1(link, l) {
      NotTracked(link, l.pc.target, l.pc.xtx);
      UntrackedTraced(cfg, w, s, s', rid, d, R.Clear(link, l), R.NewTx(R.L1Item(link, l.pc.target, l.pc.xtx), NO_TRACE), t);
    } else {
      LaneOnlyTraced(cfg, w, s, s', rid, d, R.Clear(link, l));
    }
  }

  lemma NotTracked(link: R.Link, height: nat, xtx: Tx)
    ensures !Tracks(R.NewTx(R.L1Item(link, height, xtx), NO_TRACE).item.kind)
  {
  }

  lemma TakeStepTraced(cfg: Config, w: World, s: Sys, s': Sys, rid: Rid, d: Pid, t: Time)
    requires Traced(cfg, w, s) && Shape(cfg, s')
    requires Enabled(cfg, s, Take(rid, d, t)) && s' == Apply(cfg, s, Take(rid, d, t))
    ensures Traced(cfg, w, s')
  {
    var l, link := LaneOf(s, rid, d), LinkOf(cfg, rid, d);
    assert LaneThereTraced(w, s, rid, d);
    TakeTraced(w, rid.src, link, l, s.now, t);
    LaneOnlyTraced(cfg, w, s, s', rid, d, R.Take(link, l, t));
  }

  predicate Idle(st: Step) {
    st.HeaderFails? || st.PollInter? || st.Lookup? || st.PollDst? || st.XtxFails?
  }

  /** The same transactions in the queue and in the hand. */
  predicate HoldsSame(l: R.Lane, l': R.Lane) {
    l'.xtxQ == l.xtxQ && l'.pc.Idle? == l.pc.Idle? && (!l.pc.Idle? ==> l'.pc.xtx == l.pc.xtx && l'.pc.tx == l.pc.tx)
  }

  lemma IdleStep(cfg: Config, s: Sys, s': Sys, st: Step)
    requires Enabled(cfg, s, st) && s' == Apply(cfg, s, st) && Idle(st)
    ensures LaneExists(s', st.rid, st.d) && HoldsSame(LaneOf(s, st.rid, st.d), LaneOf(s', st.rid, st.d))
    ensures s'.gates == SetLane(s, st.rid, st.d, LaneOf(s', st.rid, st.d)).gates && s'.chains == s.chains && s'.now == s.now
  {
    hide LinkOf, LightClient.QueryCsHeight, LightClient.Maxn;
  }

  lemma SameLaneTraced(w: World, src: Pid, l: R.Lane, l': R.Lane, now: Time)
    requires LaneTraced(w, src, l, now) && HoldsSame(l, l')
    ensures LaneTraced(w, src, l', now)
  {
    hide QueueTraced, Carries;
  }

  /** Polls, look-ups and failures. */
  lemma IdleStepTraced(cfg: Config, w: World, s: Sys, s': Sys, st: Step)
    requires Traced(cfg, w, s) && Enabled(cfg, s, st) && s' == Apply(cfg, s, st) && Shape(cfg, s') && Idle(st)
    ensures Traced(cfg, w, s')
  {
    hide ChainTraced, LaneTraced, LinkOf, Apply, Shape, HoldsSame;
    assert LaneThereTraced(w, s, st.rid, st.d);
    IdleStep(cfg, s, s', st);
    SameLaneTraced(w, st.rid.src, LaneOf(s, st.rid, st.d), LaneOf(s', st.rid, st.d), s.now);
    LaneOnlyTraced(cfg, w, s, s', st.rid, st.d, LaneOf(s', st.rid, st.d));
  }

  lemma StepTraced(cfg: Config, w: World, s: Sys, s': Sys, st: Step)
    requires Inv(cfg, s) && Shape(cfg, s') && Traced(cfg, w, s) && Enabled(cfg, s, st) && s' == Apply(cfg, s, st)
    requires Given(st) <= w.requests
    ensures Traced(cfg, w, s')
  {
    hide Inv, Traced, Shape, Apply, Given;
    match st
    case Listen(rid, t) => ListenTraced(cfg, w, s, s', rid, t);
    case SendHeader(rid, d, t) => SendHeaderTraced(cfg, w, s, s', rid, d, t);
    case Take(rid, d, t) => TakeStepTraced(cfg, w, s, s', rid, d, t);
    case Clear(rid, d, t) => ClearTraced(cfg, w, s, s', rid, d, t);
    case SendXtx(rid, d, t) => SendStepTraced(cfg, w, s, s', rid, d, t);
    case _ =>
      if st.UserPut? || st.Propose? || st.Exec? || st.Commit? {
        ChainStep(cfg, w, s, s', st);
      } else {
        IdleStepTraced(cfg, w, s, s', st);
      }
  }

  lemma InitTraced(cfg: Config, w: World, s: Sys)
    requires Init(cfg, s) && w.mode == cfg.mode
    ensures Traced(cfg, w, s)
  {
    forall p | p in s.chains ensures ChainTraced(w, p, s.chains[p], s.now) {
      var c := s.chains[p];
      assert InitChain(cfg, p, c);
      forall i | 0 <= i < |C.Flat(c.blocks)| ensures TxTraced(w, p, C.Flat(c.blocks)[i], 1, s.now) {
        assert C.Ledger(c)[i] == C.Flat(c.blocks)[i].item;
      }
    }
  }

  function After(cfg: Config, steps: seq<Step>): World {
    World(cfg.mode, Requests(steps))
  }

  lemma {:induction false} RunTraced(cfg: Config, s: Sys, steps: seq<Step>)
    requires Init(cfg, s) && Run(cfg, s, steps).Some?
    ensures Traced(cfg, After(cfg, steps), Run(cfg, s, steps).value)
  {
    hide Traced, Given;
    if steps == [] {
      InitTraced(cfg, After(cfg, steps), s);
    } else {
      var n := |steps| - 1;
      RunTraced(cfg, s, steps[..n]);
      TracedWithin(cfg, After(cfg, steps[..n]), After(cfg, steps), Run(cfg, s, steps[..n]).value);
      Reachable(cfg, s, steps[..n]);
      Reachable(cfg, s, steps);
      StepTraced(cfg, After(cfg, steps), Run(cfg, s, steps[..n]).value, Run(cfg, s, steps).value, steps[n]);
    }
  }

  /** A request is what a user, or the generator, may put. */
  lemma {:induction false} RequestsAllowed(cfg: Config, s: Sys, steps: seq<Step>, q: Request)
    requires Run(cfg, s, steps).Some? && q in Requests(steps)
    ensures UserTx(cfg, q.p, q.tx) && q.tx.item.kind == CtxSrc
  {
    hide UserTx;
    var n := |steps| - 1;
    if q in Requests(steps[..n]) {
      RequestsAllowed(cfg, s, steps[..n], q);
    }
  }

  /** What a listener reads of a committed cross-chain transaction is well-formed, as what was
      requested is. */
  lemma ListenedIsWellFormed(cfg: Config, s0: Sys, steps: seq<Step>, p: Pid, tx: Tx)
    requires Init(cfg, s0) && Run(cfg, s0, steps).Some? && p in Run(cfg, s0, steps).value.chains
    requires tx in C.Flat(Run(cfg, s0, steps).value.chains[p].blocks) && R.IsXtx(tx)
    ensures NoRelayerList !in tx.trace.flaws && NoNumber !in tx.trace.flaws
  {
    hide Stems, Requests, UserItem, C.Flat;
    var s, w := Run(cfg, s0, steps).value, After(cfg, steps);
    RunTraced(cfg, s0, steps);
    assert ChainTraced(w, p, s.chains[p], s.now);
    var i :| 0 <= i < |C.Flat(s.chains[p].blocks)| && C.Flat(s.chains[p].blocks)[i] == tx;
    assert TxTraced(w, p, C.Flat(s.chains[p].blocks)[i], 1, s.now);
    var q :| q in w.requests && Stems(q, tx.item) && Happened(q, tx.trace, Entry(w.mode, tx.item.kind) + 1, s.now);
    RequestsAllowed(cfg, s0, steps, q);
  }

  /** The number of events behind a delivery. */
  function Events(mode: R.Mode): nat {
    if mode == R.AoR then 9 else 5
  }

  /** Over whole runs: a transaction committed at its destination stems from a request, and its memo
      is the one that was requested with, after whatever that held, the commit, the marks of being
      listened to, readied and sent, and the next commit; in AoR the last four once more. The times
      never decrease, from the put on. */
  lemma DeliveredTrace(cfg: Config, s0: Sys, steps: seq<Step>, d: Pid, i: nat) returns (q: Request)
    requires Init(cfg, s0) && Run(cfg, s0, steps).Some? && d in Run(cfg, s0, steps).value.chains
    requires i < |C.Flat(Run(cfg, s0, steps).value.chains[d].blocks)|
    requires C.Flat(Run(cfg, s0, steps).value.chains[d].blocks)[i].item.kind == CtxDst
    ensures q in Requests(steps) && UserTx(cfg, q.p, q.tx) && q.tx.item.kind == CtxSrc
    ensures Stems(q, C.Flat(Run(cfg, s0, steps).value.chains[d].blocks)[i].item)
    ensures Happened(q, C.Flat(Run(cfg, s0, steps).value.chains[d].blocks)[i].trace, Events(cfg.mode), Run(cfg, s0, steps).value.now)
  {
    hide UserTx, Happened, Stems, Requests;
    var s, w := Run(cfg, s0, steps).value, After(cfg, steps);
    var tx := C.Flat(s.chains[d].blocks)[i];
    RunTraced(cfg, s0, steps);
    assert ChainTraced(w, d, s.chains[d], s.now);
    assert TxTraced(w, d, tx, 1, s.now);
    q :| q in w.requests && Stems(q, tx.item) && Happened(q, tx.trace, Events(cfg.mode), s.now);
    RequestsAllowed(cfg, s0, steps, q);
  }
}
