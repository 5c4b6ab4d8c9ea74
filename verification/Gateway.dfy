/** The multiplexing gateway as an object: one pass over every block fills the queues of all
    destinations in place; each destination's consumer works on its own entry. */
module Gateway {
  import opened Wrappers
  import opened Types
  import opened Relayer

  // ----- what a consumer does with the answers it gets -----

  /** Polling until the answer is high enough, or no more answers come; a query that fails (None)
      ends the consumer. */
  function PollInters(l: Lane, answers: seq<Option<nat>>): Lane
    decreases |answers|
  {
    if !CanPollInter(l) || answers == [] then l
    else if answers[0].None? then l.(xtxAlive := false)
    else PollInters(PollInter(l, answers[0].value), answers[1..])
  }

  function PollDsts(l: Lane, answers: seq<Option<nat>>): Lane
    decreases |answers|
  {
    if !CanPollDst(l) || answers == [] then l
    else if answers[0].None? then l.(xtxAlive := false)
    else PollDsts(PollDst(l, answers[0].value), answers[1..])
  }

  /** A wait that begins at `own` and needs `need`, after this many of the answers: it asks only while
      what it knows is too low, knows what it was answered last, goes on until the answers run out, and
      ends the consumer exactly at an answer that is missing. */
  predicate Waited(own: nat, need: nat, answers: seq<Option<nat>>, asked: nat, synced: nat, alive: bool) {
    && asked <= |answers| && (own >= need ==> asked == 0)
    && (forall k | 0 <= k < asked - 1 :: answers[k].Some? && answers[k].value < need)
    && (alive <==> asked == 0 || answers[asked - 1].Some?)
    && synced == (if asked > 0 && alive then answers[asked - 1].value else if asked > 1 then answers[asked - 2].value else own)
    && (alive && synced < need ==> asked == |answers|)
  }

  /** What of a turn fails, if it comes to it: fetching the proof, or one of the sends. */
  datatype Fault = NoFault | ProofFault | L1Fault | SendFault

  /** Clearing and sending, when the wait is over: the L1 transaction if one is due, then the
      transaction itself. A send that fails ends the consumer; what went before it is sent, and
      the height counts as begun. */
  function Release(link: Link, l: Lane, t: Time, fault: Fault): (Lane, seq<Tx>) {
    if !CanClear(l) then (l, [])
    else
      var cleared := Clear(link, l);
      var first := if NeedsL1(link, l) then [NewTx(L1Item(link, l.pc.target, l.pc.xtx), NO_TRACE)] else [];
      if fault.L1Fault? && first != [] then (l.(l1Sent := cleared.l1Sent, xtxAlive := false), [])
      else if fault.SendFault? then (cleared.(xtxAlive := false), first)
      else (Sent(cleared), first + [Outgoing(cleared, t)])
  }

  /** The look-up between the two waits, in ToR only. */
  function Found(l: Lane, answer: Option<nat>): Lane {
    if CanLookup(l) then Lookup(l, answer) else l
  }

  /** One turn of the consumer: what it sends, and where it stands. */
  function Turn(link: Link, l: Lane, inter: seq<Option<nat>>, cs: Option<nat>, dst: seq<Option<nat>>, t: Time, u: Time, fault: Fault): (Lane, seq<Tx>)
    requires CanTake(l)
  {
    if fault.ProofFault? then (Take(link, l, t).(xtxAlive := false), [])
    else Release(link, PollDsts(Found(PollInters(Take(link, l, t), inter), cs), dst), u, fault)
  }

  /** A gateway that carries headers does not wait for the relay chain. */
  lemma FullTakes(link: Link, l: Lane, inter: seq<Option<nat>>, cs: Option<nat>, t: Time)
    requires CanTake(l) && link.role != Pap
    ensures Found(PollInters(Take(link, l, t), inter), cs) == Take(link, l, t)
  {
  }

  /** A turn that stops before the second wait sends nothing. */
  lemma StopsEarly(link: Link, l: Lane, dst: seq<Option<nat>>, u: Time, fault: Fault)
    requires !(l.xtxAlive && l.pc.Confirmed?)
    ensures Release(link, PollDsts(l, dst), u, fault) == (l, [])
  {
  }

  lemma StopsWaiting(link: Link, l: Lane, u: Time, fault: Fault)
    requires !CanClear(l)
    ensures Release(link, l, u, fault) == (l, [])
  {
  }

  // ----- when a turn sends -----

  /** A wait that knows `own` is over at some time: it is high enough, or an answer will be before any is
      missing. */
  ghost predicate WaitEnds(own: nat, need: nat, answers: seq<Option<nat>>) {
    own >= need || exists k :: 0 <= k < |answers| && Answers(answers, k, need)
  }

  ghost predicate Answers(answers: seq<Option<nat>>, k: nat, need: nat)
    requires k < |answers|
  {
    answers[k].Some? && answers[k].value >= need && forall i | 0 <= i < k :: answers[i].Some?
  }

  /** The rest of the answers decides the same. */
  lemma WaitGoesOn(own: nat, need: nat, answers: seq<Option<nat>>)
    requires answers != [] && answers[0].Some? && own < need
    ensures WaitEnds(own, need, answers) <==> WaitEnds(answers[0].value, need, answers[1..])
  {
    if k :| 0 <= k < |answers| && Answers(answers, k, need) {
      if k == 0 {
        assert answers[0].value >= need;
      } else {
        assert Answers(answers[1..], k - 1, need);
      }
    }
    if answers[0].value >= need {
      assert Answers(answers, 0, need);
    } else if k :| 0 <= k < |answers[1..]| && Answers(answers[1..], k, need) {
      assert Answers(answers, k + 1, need);
    }
  }

  lemma {:induction false} PollIntersEnds(l: Lane, answers: seq<Option<nat>>)
    requires l.xtxAlive && l.pc.Waiting?
    ensures var r := PollInters(l, answers);
      r == l.(syncedInter := r.syncedInter, xtxAlive := r.xtxAlive)
      && (CanLookup(r) <==> WaitEnds(l.syncedInter, l.pc.xtx.height, answers))
    decreases |answers|
  {
    if CanPollInter(l) && answers != [] {
      if answers[0].Some? {
        WaitGoesOn(l.syncedInter, l.pc.xtx.height, answers);
        PollIntersEnds(PollInter(l, answers[0].value), answers[1..]);
      }
    }
  }

  lemma {:induction false} PollDstsEnds(l: Lane, answers: seq<Option<nat>>)
    requires l.xtxAlive && l.pc.Confirmed?
    ensures var r := PollDsts(l, answers);
      r == l.(synced := r.synced, xtxAlive := r.xtxAlive)
      && (CanClear(r) <==> WaitEnds(l.synced, l.pc.target, answers))
    decreases |answers|
  {
    if CanPollDst(l) && answers != [] {
      if answers[0].Some? {
        WaitGoesOn(l.synced, l.pc.target, answers);
        PollDstsEnds(PollDst(l, answers[0].value), answers[1..]);
      }
    }
  }

  /** The height that the destination must report, if the relay chain's part of the wait ends: the
      transaction's own, or the one that is remembered or looked up. */
  ghost function Needed(link: Link, l: Lane, inter: seq<Option<nat>>, cs: Option<nat>): Option<nat>
    requires CanTake(l)
  {
    var h := l.xtxQ[0].height;
    if link.role != Pap then Some(h)
    else if !WaitEnds(l.syncedInter, h, inter) then None
    else if h in l.csMemo && l.csMemo[h] != 0 then Some(l.csMemo[h])
    else cs
  }

  /** A turn in which nothing fails sends exactly when its waits end; and then, in ToR, the L1
      transaction of a new source height with the height that was found, and last the transaction with
      both marks. */
  lemma TurnSends(link: Link, l: Lane, inter: seq<Option<nat>>, cs: Option<nat>, dst: seq<Option<nat>>, t: Time, u: Time)
    requires CanTake(l)
    ensures var sent, xtx, need := Turn(link, l, inter, cs, dst, t, u, NoFault).1, l.xtxQ[0], Needed(link, l, inter, cs);
      var ready, send := Mark(Ready, t), Mark(Send, u);
      var last := NewTx(XtxItem(link, xtx), xtx.trace.(relayer := xtx.trace.relayer + [ready, send]));
      sent == if need.None? || !WaitEnds(l.synced, need.value, dst) then []
              else if link.role == Pap && xtx.height !in l.l1Sent then [NewTx(L1Item(link, need.value, xtx), NO_TRACE), last]
              else [last]
  {
    hide PollInters, PollDsts, WaitEnds, XtxItem, L1Item;
    var xtx, taken := l.xtxQ[0], Take(link, l, t);
    assert xtx.trace.relayer + [Mark(Ready, t)] + [Mark(Send, u)] == xtx.trace.relayer + [Mark(Ready, t), Mark(Send, u)];
    if link.role == Pap {
      PollIntersEnds(taken, inter);
    } else {
      FullTakes(link, l, inter, cs, t);
    }
    var found := Found(PollInters(taken, inter), cs);
    if found.xtxAlive && found.pc.Confirmed? {
      PollDstsEnds(found, dst);
    } else {
      StopsEarly(link, found, dst, u, NoFault);
    }
  }

  // ----- the object -----

  /** The queues after the header of a block has been handed out. */
  function HeadersOut(dsts: map<Pid, Lane>, targets: seq<Pid>, src: Pid, header: Header): (r: map<Pid, Lane>)
    ensures r.Keys == dsts.Keys
  {
    map d | d in dsts :: if d in targets && d != src then dsts[d].(headerQ := dsts[d].headerQ + [header]) else dsts[d]
  }

  /** The queues after the transactions of a block have been routed. */
  function XtxsOut(mode: Mode, role: Role, src: Pid, dsts: map<Pid, Lane>, txs: seq<Tx>, t: Time): map<Pid, Lane> {
    map d | d in dsts :: dsts[d].(xtxQ := dsts[d].xtxQ + Route(mode, role, src, d, txs, t))
  }

  /** Queueing one transaction for its target, if that is registered. */
  function QueueOne(mode: Mode, role: Role, src: Pid, dsts: map<Pid, Lane>, tx: Tx, t: Time): map<Pid, Lane> {
    var target := Target(mode, role, src, tx);
    if target !in dsts then dsts
    else dsts[target := dsts[target].(xtxQ := dsts[target].xtxQ + [Heard(tx, NextHop(mode, role, src, tx.item).0, t)])]
  }

  /** Queueing one transaction after the other. */
  function QueueEach(mode: Mode, role: Role, src: Pid, dsts: map<Pid, Lane>, txs: seq<Tx>, t: Time): (r: map<Pid, Lane>)
    ensures r.Keys == dsts.Keys
  {
    if txs == [] then dsts
    else QueueOne(mode, role, src, QueueEach(mode, role, src, dsts, txs[..|txs| - 1], t), txs[|txs| - 1], t)
  }

  /** Destination by destination, that is one pass for each. */
  lemma {:induction false} QueueEachAt(mode: Mode, role: Role, src: Pid, dsts: map<Pid, Lane>, txs: seq<Tx>, t: Time, d: Pid)
    requires d in dsts && d != -1
    ensures QueueEach(mode, role, src, dsts, txs, t)[d] == dsts[d].(xtxQ := dsts[d].xtxQ + Route(mode, role, src, d, txs, t))
  {
    if txs == [] {
      assert dsts[d].xtxQ + [] == dsts[d].xtxQ;
    } else {
      var n := |txs| - 1;
      QueueEachAt(mode, role, src, dsts, txs[..n], t, d);
      var q, front := dsts[d].xtxQ, Route(mode, role, src, d, txs[..n], t);
      var heard := Heard(txs[n], NextHop(mode, role, src, txs[n].item).0, t);
      assert (q + front) + [heard] == q + (front + [heard]);
      assert front + [] == front;
    }
  }

  lemma QueueEachIsXtxsOut(mode: Mode, role: Role, src: Pid, dsts: map<Pid, Lane>, txs: seq<Tx>, t: Time)
    requires -1 !in dsts
    ensures QueueEach(mode, role, src, dsts, txs, t) == XtxsOut(mode, role, src, dsts, txs, t)
  {
    forall d | d in dsts
      ensures QueueEach(mode, role, src, dsts, txs, t)[d] == dsts[d].(xtxQ := dsts[d].xtxQ + Route(mode, role, src, d, txs, t))
    {
      QueueEachAt(mode, role, src, dsts, txs, t, d);
    }
  }

  /** Whether finding the next hop parses the destination of the memo. */
  predicate ReadsDst(mode: Mode, role: Role, kind: Kind) {
    match mode
    case NoR => kind == CtxSrc
    case AoR => kind == CtxInter
    case ToR => role == Pap && kind == CtxSrc
  }

  /** So it is parsed exactly when the next hop depends on it. */
  lemma ReadsWhatMatters(mode: Mode, role: Role, src: Pid, item: Item, x: Pid, y: Pid)
    requires (mode == ToR <==> role != Full) && x != y
    ensures ReadsDst(mode, role, item.kind)
            <==> NextHop(mode, role, src, item.(dst := x)).1 != NextHop(mode, role, src, item.(dst := y)).1
  {
  }

  /** Routing the transaction does not raise: if it is one to look at, its destination is a number
      where that is parsed, and if it goes anywhere, its marks are a list and it goes to a registered
      destination. */
  predicate Passes(mode: Mode, role: Role, src: Pid, dsts: set<Pid>, tx: Tx) {
    role == Par || !IsXtx(tx) || tx.status != Success
    || ((ReadsDst(mode, role, tx.item.kind) ==> NoNumber !in tx.trace.flaws)
        && (Target(mode, role, src, tx) != -1 ==> NoRelayerList !in tx.trace.flaws && Target(mode, role, src, tx) in dsts))
  }

  ghost predicate Routable(mode: Mode, role: Role, src: Pid, dsts: set<Pid>, txs: seq<Tx>) {
    forall i | 0 <= i < |txs| :: Passes(mode, role, src, dsts, txs[i])
  }

  function RoutedCount(mode: Mode, role: Role, src: Pid, txs: seq<Tx>): nat {
    if txs == [] then 0
    else RoutedCount(mode, role, src, txs[..|txs| - 1]) + if Target(mode, role, src, txs[|txs| - 1]) == -1 then 0 else 1
  }

  /** A PAR gateway queues nothing. */
  lemma {:induction false} ParQueuesNothing(mode: Mode, src: Pid, dsts: map<Pid, Lane>, txs: seq<Tx>, t: Time)
    requires -1 !in dsts
    ensures QueueEach(mode, Par, src, dsts, txs, t) == dsts && RoutedCount(mode, Par, src, txs) == 0
  {
    if txs != [] {
      ParQueuesNothing(mode, src, dsts, txs[..|txs| - 1], t);
    }
  }

  /** The places of the transactions that go anywhere. */
  function Goers(mode: Mode, role: Role, src: Pid, txs: seq<Tx>): set<nat> {
    set i | 0 <= i < |txs| && Target(mode, role, src, txs[i]) != -1
  }

  lemma GoersLast(mode: Mode, role: Role, src: Pid, txs: seq<Tx>)
    requires txs != []
    ensures var n := |txs| - 1;
      Goers(mode, role, src, txs) == Goers(mode, role, src, txs[..n]) + if Target(mode, role, src, txs[n]) == -1 then {} else {n}
  {
    hide Target;
  }

  /** The number that the pass reports is theirs. */
  lemma {:induction false} RoutedCountIs(mode: Mode, role: Role, src: Pid, txs: seq<Tx>)
    ensures RoutedCount(mode, role, src, txs) == |Goers(mode, role, src, txs)|
  {
    hide Target;
    if txs != [] {
      var n := |txs| - 1;
      RoutedCountIs(mode, role, src, txs[..n]);
      GoersLast(mode, role, src, txs);
      assert n !in Goers(mode, role, src, txs[..n]);
    }
  }

  lemma NoTxs(mode: Mode, role: Role, src: Pid, dsts: map<Pid, Lane>, t: Time)
    ensures QueueEach(mode, role, src, dsts, [], t) == dsts && RoutedCount(mode, role, src, []) == 0
  {
  }

  /** One more transaction of a block. */
  lemma NextTx(mode: Mode, role: Role, src: Pid, dsts: map<Pid, Lane>, txs: seq<Tx>, k: nat, t: Time)
    requires k < |txs|
    ensures QueueEach(mode, role, src, dsts, txs[..k + 1], t)
            == QueueOne(mode, role, src, QueueEach(mode, role, src, dsts, txs[..k], t), txs[k], t)
    ensures RoutedCount(mode, role, src, txs[..k + 1])
            == RoutedCount(mode, role, src, txs[..k]) + if Target(mode, role, src, txs[k]) == -1 then 0 else 1
  {
    assert txs[..k + 1][..k] == txs[..k];
  }

  class RelayerUnix {
    const mode: Mode
    const role: Role
    const src: Pid
    const srcIsInter: bool
    /** The dictionary of destinations, and its keys in the order of insertion. */
    var dsts: map<Pid, Lane>
    var pids: seq<Pid>
    var nextbn: nat

    ghost predicate Valid()
      reads this
    {
      && (forall p :: p in pids <==> p in dsts) && -1 !in dsts
      && (forall i, j | 0 <= i < j < |pids| :: pids[i] != pids[j])
      && (mode == ToR <==> role != Full)
    }

    /** Listening begins at the latest block of the source. */
    constructor (mode: Mode, role: Role, src: Pid, srcIsInter: bool, blockNumber: nat)
      requires mode == ToR <==> role != Full
      ensures Valid() && dsts == map[] && nextbn == blockNumber
      ensures this.mode == mode && this.role == role && this.src == src && this.srcIsInter == srcIsInter
    {
      this.mode, this.role, this.src, this.srcIsInter := mode, role, src, srcIsInter;
      dsts, pids, nextbn := map[], [], blockNumber;
    }

    /** Raises for the source itself, for a chain that is registered already, and for a PAR
        gateway unless exactly one end is the relay chain. */
    method AddDst(pid: Pid, isInter: bool) returns (ok: bool)
      requires Valid() && pid != -1
      modifies this
      ensures ok <==> pid != src && pid !in old(dsts) && (mode == ToR && role == Par ==> srcIsInter != isInter)
      ensures dsts == if ok then old(dsts)[pid := NEW_LANE] else old(dsts)
      ensures pids == if ok then old(pids) + [pid] else old(pids)
      ensures Valid() && nextbn == old(nextbn)
    {
      if pid == src || (mode == ToR && role == Par && !((srcIsInter || isInter) && (!srcIsInter || !isInter))) || pid in dsts {
        return false;
      }
      dsts := dsts[pid := NEW_LANE];
      pids := pids + [pid];
      ok := true;
    }

    method PutTx(tx: Tx, dstid: Pid) returns (ok: bool)
      modifies this`dsts
      ensures ok <==> dstid in old(dsts)
      ensures dsts == if ok then old(dsts)[dstid := old(dsts)[dstid].(xtxQ := old(dsts)[dstid].xtxQ + [tx])] else old(dsts)
    {
      if dstid !in dsts {
        return false;
      }
      dsts := dsts[dstid := dsts[dstid].(xtxQ := dsts[dstid].xtxQ + [tx])];
      ok := true;
    }

    method PutHeader(header: Header, dstid: Pid) returns (ok: bool)
      modifies this`dsts
      ensures ok <==> dstid in old(dsts)
      ensures dsts == if ok then old(dsts)[dstid := old(dsts)[dstid].(headerQ := old(dsts)[dstid].headerQ + [header])] else old(dsts)
    {
      if dstid !in dsts {
        return false;
      }
      dsts := dsts[dstid := dsts[dstid].(headerQ := dsts[dstid].headerQ + [header])];
      ok := true;
    }

    /** The header goes once to every target but the source; an unregistered target raises. */
    method FilterHeader(header: Header) returns (ok: bool)
      requires Valid()
      modifies this`dsts
      ensures ok <==> forall d | d in HeaderTargets(mode, role, srcIsInter, pids) && d != src :: d in old(dsts)
      ensures ok ==> dsts == HeadersOut(old(dsts), HeaderTargets(mode, role, srcIsInter, pids), src, header)
      ensures Valid() && dsts.Keys == old(dsts.Keys)
    {
      hide HeadersOut;
      var dstIds: seq<Pid> := [];
      NoTargets(dsts, src, header);
      if mode == AoR {
        dstIds := if srcIsInter then pids else [RELAY];
      } else if mode == NoR {
        dstIds := pids;
      } else if role == Par {
        dstIds := if srcIsInter then pids else [RELAY];
      }
      assert dstIds == HeaderTargets(mode, role, srcIsInter, pids);
      for k := 0 to |dstIds|
        invariant forall i | 0 <= i < k :: dstIds[i] == src || dstIds[i] in old(dsts)
        invariant dsts == HeadersOut(old(dsts), dstIds[..k], src, header) && Valid()
      {
        var pid := dstIds[k];
        ghost var before := dsts;
        if pid != src {
          ok := PutHeader(header, pid);
          if !ok {
            return false;
          }
        }
        OneMoreTarget(old(dsts), before, dsts, dstIds, k, src, header);
      }
      assert dstIds[..|dstIds|] == dstIds;
      ok := true;
    }

    static lemma NoTargets(was: map<Pid, Lane>, src: Pid, header: Header)
      ensures HeadersOut(was, [], src, header) == was
    {
    }

    static lemma OneMoreTarget(was: map<Pid, Lane>, before: map<Pid, Lane>, after: map<Pid, Lane>, targets: seq<Pid>, k: nat, src: Pid, header: Header)
      requires k < |targets| && forall i, j | 0 <= i < j < |targets| :: targets[i] != targets[j]
      requires before == HeadersOut(was, targets[..k], src, header)
      requires targets[k] != src ==> targets[k] in before
      requires after == if targets[k] == src then before
                        else before[targets[k] := before[targets[k]].(headerQ := before[targets[k]].headerQ + [header])]
      ensures after == HeadersOut(was, targets[..k + 1], src, header)
    {
      assert targets[..k + 1] == targets[..k] + [targets[k]];
      assert targets[k] !in targets[..k];
    }

    /** One pass over the block: each destination's queue gets exactly what a pass for that
        destination alone would give it. The pass raises exactly when routing one of them does;
        what came before it has been queued. */
    method FilterTxs(txs: seq<Tx>, t: Time) returns (ok: bool, cnt: nat, ghost done: nat)
      requires Valid()
      modifies this`dsts
      ensures ok <==> Routable(mode, role, src, old(dsts.Keys), txs)
      ensures done <= |txs| && dsts == XtxsOut(mode, role, src, old(dsts), txs[..done], t)
      ensures ok ==> done == |txs| && cnt == RoutedCount(mode, role, src, txs)
      ensures !ok ==> done < |txs| && !Passes(mode, role, src, old(dsts.Keys), txs[done])
      ensures ok ==> forall i | 0 <= i < |txs| && Target(mode, role, src, txs[i]) != -1 ::
        NoRelayerList !in txs[i].trace.flaws && Target(mode, role, src, txs[i]) in old(dsts)
      ensures ok && role != Par ==> forall i | 0 <= i < |txs| && IsXtx(txs[i]) && txs[i].status == Success ::
        ReadsDst(mode, role, txs[i].item.kind) ==> NoNumber !in txs[i].trace.flaws
      ensures !ok ==>
        var tx, target := txs[done], Target(mode, role, src, txs[done]);
        && role != Par && IsXtx(tx) && tx.status == Success
        && ((ReadsDst(mode, role, tx.item.kind) && NoNumber in tx.trace.flaws)
            || (target != -1 && (NoRelayerList in tx.trace.flaws || target !in old(dsts))))
      ensures Valid()
    {
      hide QueueEach, RoutedCount, XtxsOut;
      cnt, done := 0, 0;
      NoTxs(mode, role, src, dsts, t);
      if mode == ToR && role == Par {
        ParQueuesNothing(mode, src, dsts, txs, t);
        QueueEachIsXtxsOut(mode, role, src, dsts, txs, t);
        assert txs[..|txs|] == txs;
        return true, 0, |txs|;
      }
      for k := 0 to |txs|
        invariant done == k && Valid() && dsts.Keys == old(dsts.Keys)
        invariant dsts == QueueEach(mode, role, src, old(dsts), txs[..k], t)
        invariant Routable(mode, role, src, old(dsts.Keys), txs[..k])
        invariant cnt == RoutedCount(mode, role, src, txs[..k])
      {
        var tx := txs[k];
        NextTx(mode, role, src, old(dsts), txs, k, t);
        if IsXtx(tx) && tx.status == Success {
          if ReadsDst(mode, role, tx.item.kind) && NoNumber in tx.trace.flaws {
            QueueEachIsXtxsOut(mode, role, src, old(dsts), txs[..k], t);
            return false, cnt, k;
          }
          var hop := NextHop(mode, role, src, tx.item);
          if hop.1 != -1 {
            ok := NoRelayerList !in tx.trace.flaws;
            if ok {
              ok := PutTx(Heard(tx, hop.0, t), hop.1);
            }
            if !ok {
              QueueEachIsXtxsOut(mode, role, src, old(dsts), txs[..k], t);
              return false, cnt, k;
            }
            cnt := cnt + 1;
          }
        }
        done := k + 1;
      }
      assert txs[..|txs|] == txs;
      QueueEachIsXtxsOut(mode, role, src, old(dsts), txs, t);
      ok := true;
    }

    /** Reading block `nextbn`. An exception ends the listener. */
    method ListenBlock(b: Block, t: Time) returns (ok: bool)
      requires Valid()
      modifies this
      ensures ok <==> (forall d | d in HeaderTargets(mode, role, srcIsInter, pids) && d != src :: d in old(dsts))
                      && Routable(mode, role, src, old(dsts.Keys), b.txs)
      ensures ok ==> nextbn == old(nextbn) + 1
      ensures ok ==> dsts == XtxsOut(mode, role, src, HeadersOut(old(dsts), HeaderTargets(mode, role, srcIsInter, pids), src, HeaderOf(b)), b.txs, t)
      ensures pids == old(pids) && Valid()
    {
      ok := FilterHeader(HeaderOf(b));
      if !ok {
        return;
      }
      var routed, cnt, done := FilterTxs(b.txs, t);
      if !routed {
        return false;
      }
      assert b.txs[..|b.txs|] == b.txs;
      nextbn := nextbn + 1;
      ok := true;
    }

    // ----- the consumers -----

    /** One turn of the header consumer: it sends the next header, or the send fails, which ends the
        consumer with that header gone. */
    method DealHeader(d: Pid, link: Link, fails: bool) returns (sent: seq<Tx>)
      requires Valid() && d in dsts && dsts[d].headerAlive && dsts[d].headerQ != []
      modifies this`dsts
      ensures sent == if fails then [] else [NewTx(HeaderItem(link, old(dsts)[d].headerQ[0]), NO_TRACE)]
      ensures dsts == old(dsts)[d := old(dsts)[d].(headerQ := old(dsts)[d].headerQ[1..], headerAlive := !fails)] && Valid()
    {
      var header := dsts[d].headerQ[0];
      dsts := dsts[d := dsts[d].(headerQ := dsts[d].headerQ[1..])];
      var tx := NewTx(HeaderItem(link, header), NO_TRACE);
      if fails {
        dsts := dsts[d := dsts[d].(headerAlive := false)];
        return [];
      }
      sent := [tx];
    }

    /** The first waiting loop: until the relay chain has synced the height. */
    method WaitInter(l: Lane, answers: seq<Option<nat>>) returns (r: Lane, ghost asked: nat)
      requires l.xtxAlive && l.pc.Waiting?
      ensures r == PollInters(l, answers) && r == l.(syncedInter := r.syncedInter, xtxAlive := r.xtxAlive)
      ensures Waited(l.syncedInter, l.pc.xtx.height, answers, asked, r.syncedInter, r.xtxAlive)
    {
      r := l;
      var k := 0;
      while r.syncedInter < l.pc.xtx.height && k < |answers|
        invariant 0 <= k <= |answers| && r == l.(syncedInter := r.syncedInter)
        invariant PollInters(r, answers[k..]) == PollInters(l, answers)
        invariant forall i | 0 <= i < k :: answers[i].Some? && (i < k - 1 ==> answers[i].value < l.pc.xtx.height)
        invariant r.syncedInter == (if k > 0 then answers[k - 1].value else l.syncedInter) && (k > 0 ==> l.syncedInter < l.pc.xtx.height)
        decreases |answers| - k
      {
        assert answers[k..][1..] == answers[k + 1..];
        if answers[k].None? {
          return r.(xtxAlive := false), k + 1;
        }
        r := r.(syncedInter := answers[k].value);
        k := k + 1;
      }
      asked := k;
    }

    /** The second one: until the destination has synced the target. */
    method WaitDst(l: Lane, answers: seq<Option<nat>>) returns (r: Lane, ghost asked: nat)
      requires l.xtxAlive && l.pc.Confirmed?
      ensures r == PollDsts(l, answers) && r == l.(synced := r.synced, xtxAlive := r.xtxAlive)
      ensures Waited(l.synced, l.pc.target, answers, asked, r.synced, r.xtxAlive)
    {
      r := l;
      var k := 0;
      while r.synced < l.pc.target && k < |answers|
        invariant 0 <= k <= |answers| && r == l.(synced := r.synced)
        invariant PollDsts(r, answers[k..]) == PollDsts(l, answers)
        invariant forall i | 0 <= i < k :: answers[i].Some? && (i < k - 1 ==> answers[i].value < l.pc.target)
        invariant r.synced == (if k > 0 then answers[k - 1].value else l.synced) && (k > 0 ==> l.synced < l.pc.target)
        decreases |answers| - k
      {
        assert answers[k..][1..] == answers[k + 1..];
        if answers[k].None? {
          return r.(xtxAlive := false), k + 1;
        }
        r := r.(synced := answers[k].value);
        k := k + 1;
      }
      asked := k;
    }

    /** The relay-chain part of a wait: the first loop, then the look-up unless it is remembered.
        It ends at `Confirmed`, still waiting, or with the consumer ended by a failing query. */
    method WaitRelay(l: Lane, inter: seq<Option<nat>>, cs: Option<nat>) returns (r: Lane, ghost asked: nat)
      requires l.xtxAlive && l.pc.Waiting?
      ensures r == Found(PollInters(l, inter), cs)
      ensures asked <= |inter|
      ensures var height, waited := l.pc.xtx.height, asked == 0 || inter[asked - 1].Some?;
        && Waited(l.syncedInter, height, inter, asked, r.syncedInter, waited)
        && (r.xtxAlive <==> waited && (r.syncedInter >= height && (height !in l.csMemo || l.csMemo[height] == 0) ==> cs.Some?))
        && (r.pc.Confirmed? <==> r.xtxAlive && r.syncedInter >= height)
        && (r.pc.Confirmed? ==> r.pc.target == (if height in l.csMemo && l.csMemo[height] != 0 then l.csMemo[height] else cs.value)
                                && r.csMemo == l.csMemo[height := r.pc.target])
    {
      var height := l.pc.xtx.height;
      r, asked := WaitInter(l, inter);
      if !r.xtxAlive || r.syncedInter < height {
        return;
      }
      if height !in r.csMemo || r.csMemo[height] == 0 {
        if cs.None? {
          r := r.(xtxAlive := false);
          return;
        }
        r := r.(csMemo := r.csMemo[height := cs.value]);
      }
      r := r.(pc := Confirmed(l.pc.xtx, l.pc.tx, r.csMemo[height]));
    }

    /** One turn of the transaction consumer, with the answers that its polls get: the proof, the two
        waiting loops, the look-up and the sends. */
    method DealXtx(d: Pid, link: Link, inter: seq<Option<nat>>, cs: Option<nat>, dst: seq<Option<nat>>, t: Time, u: Time, fault: Fault)
      returns (sent: seq<Tx>)
      requires Valid() && d in dsts && CanTake(dsts[d]) && link.role == role
      modifies this`dsts
      ensures dsts == old(dsts)[d := Turn(link, old(dsts)[d], inter, cs, dst, t, u, fault).0]
      ensures sent == Turn(link, old(dsts)[d], inter, cs, dst, t, u, fault).1
      ensures Valid()
    {
      hide Found, PollInters, PollDsts, Release;
      sent := [];
      var l := dsts[d];
      var xtx := l.xtxQ[0];
      var tx := Marked(NewTx(XtxItem(link, xtx), xtx.trace), Ready, t);
      l := l.(xtxQ := l.xtxQ[1..]);
      if fault.ProofFault? {
        dsts := dsts[d := Take(link, dsts[d], t).(xtxAlive := false)];
        return;
      }
      ghost var found := Found(PollInters(Take(link, dsts[d], t), inter), cs);
      if role == Pap {
        ghost var asked;
        l, asked := WaitRelay(l.(pc := Waiting(xtx, tx)), inter, cs);
      } else {
        FullTakes(link, dsts[d], inter, cs, t);
        l := l.(pc := Confirmed(xtx, tx, xtx.height));
      }
      assert l == found;
      if l.xtxAlive && l.pc.Confirmed? {
        ghost var asked;
        l, asked := WaitDst(l, dst);
        if l.xtxAlive && l.synced >= l.pc.target {
          l, sent := SendOff(link, l, u, fault);
        } else {
          StopsWaiting(link, l, u, fault);
        }
      } else {
        StopsEarly(link, l, dst, u, fault);
      }
      dsts := dsts[d := l];
    }

    /** The end of a wait: the L1 transaction of a new source height, then the transaction; an
        exception in a send ends the consumer. */
    method SendOff(link: Link, l: Lane, u: Time, fault: Fault) returns (r: Lane, sent: seq<Tx>)
      requires CanClear(l) && link.role == role
      ensures r == Release(link, l, u, fault).0 && sent == Release(link, l, u, fault).1
    {
      r, sent := l, [];
      var xtx := l.pc.xtx;
      if role == Pap && xtx.height !in l.l1Sent {
        r := r.(l1Sent := l.l1Sent + {xtx.height});
        if fault.L1Fault? {
          return r.(xtxAlive := false), sent;
        }
        sent := sent + [NewTx(L1Item(link, l.pc.target, xtx), NO_TRACE)];
      }
      assert role == Pap && xtx.height in l.l1Sent ==> l.l1Sent + {xtx.height} == l.l1Sent;
      r := r.(pc := Cleared(xtx, l.pc.tx));
      assert r == Clear(link, l);
      if fault.SendFault? {
        return r.(xtxAlive := false), sent;
      }
      sent := sent + [Marked(l.pc.tx, Send, u)];
      r := r.(pc := Idle);
    }
  }
}
