/** The steps of one gateway keep the invariant of its lane: listening, sending headers, and
    every stage of the transaction consumer. */
module LaneSteps {
  import opened Types
  import opened Relayer
  import opened Invariant
  import LightClient
  import C = Chain

  // ----- listening -----

  function Hears(link: Link, l: Lane, b: Block, t: Time): Lane {
    l.(headerQ := l.headerQ + if CarriesHeaders(link.role) then [HeaderOf(b)] else [],
       xtxQ := l.xtxQ + Route(link.mode, link.role, link.src, link.dst, b.txs, t))
  }

  lemma HearsHeaders(link: Link, blocks: seq<Block>, start: nat, next: nat, l: Lane, onDst: seq<Item>, t: Time)
    requires next < |blocks| && HeadersFlow(link, blocks, start, next, l.headerAlive, l.headerQ, onDst)
    ensures HeadersFlow(link, blocks, start, next + 1, l.headerAlive, Hears(link, l, blocks[next], t).headerQ, onDst)
  {
    if CarriesHeaders(link.role) {
      var n := start + |onDst|;
      assert Headers(blocks, n, next + 1) == Headers(blocks, n, next) + [HeaderOf(blocks[next])];
    }
  }

  lemma ParcelsConcat(a: seq<Tx>, b: seq<Tx>)
    ensures Parcels(a + b) == Parcels(a) + Parcels(b)
  {
  }

  lemma HearsXtxs(link: Link, blocks: seq<Block>, start: nat, next: nat, l: Lane, onDst: seq<Item>, t: Time)
    requires start <= next < |blocks| && XtxsFlow(link, blocks, start, next, l.pc, l.xtxQ, onDst)
    ensures XtxsFlow(link, blocks, start, next + 1, l.pc, Hears(link, l, blocks[next], t).xtxQ, onDst)
  {
    if CarriesXtxs(link.role) {
      var heard := Route(link.mode, link.role, link.src, link.dst, blocks[next].txs, t);
      RouteParcels(link.mode, link.role, link.src, link.dst, blocks[next].txs, t, 0);
      ParcelsConcat(l.xtxQ, heard);
      assert Carried(onDst) + InHand(l.pc) + Parcels(l.xtxQ) + Parcels(heard)
          == Carried(onDst) + InHand(l.pc) + (Parcels(l.xtxQ) + Parcels(heard));
    } else {
      ParRoutesNothing(link.mode, link.src, link.dst, blocks[next].txs, t);
    }
  }

  lemma HearsHolds(link: Link, blocks: seq<Block>, start: nat, next: nat, l: Lane, l': Lane,
                   relay: LightClient.Client, c: C.Chain, born: nat, t: Time)
    requires C.Valid(c) && LaneHolds(link, blocks, start, next, l, relay, c, born)
    requires start <= next < |blocks| && l' == Hears(link, l, blocks[next], t)
    ensures LaneHolds(link, blocks, start, next + 1, l', relay, c, born)
  {
    HearsHeaders(link, blocks, start, next, l, Pick(Sync(link.src, link.dst), C.Ledger(c)), t);
    HearsXtxs(link, blocks, start, next, l, Pick(Xtx(link.src, link.dst), C.Ledger(c)), t);
  }

  // ----- headers -----

  lemma SendHeaderFlow(link: Link, blocks: seq<Block>, start: nat, next: nat, queue: seq<Header>, onDst: seq<Item>)
    requires HeadersFlow(link, blocks, start, next, true, queue, onDst) && queue != []
    ensures CarriesHeaders(link.role)
    ensures exists h :: start <= h < |blocks| && queue[0] == HeaderOf(blocks[h])
    ensures HeadersFlow(link, blocks, start, next, true, queue[1..], onDst + [HeaderItem(link, queue[0])])
  {
    var n := start + |onDst|;
    assert queue[0] == HeaderOf(blocks[n]);
    assert Headers(blocks, n, next)[1..] == Headers(blocks, n + 1, next);
  }

  lemma WaitsAnyHeaders(link: Link, relay: LightClient.Client, dst: LightClient.Client, l: Lane, queue: seq<Header>)
    requires Waits(link, relay, dst, l)
    ensures Waits(link, relay, dst, l.(headerQ := queue))
  {
  }

  lemma PutHeaderHolds(link: Link, blocks: seq<Block>, start: nat, next: nat, l: Lane, queue: seq<Header>,
                       relay: LightClient.Client, c: C.Chain, born: nat, tx: Tx, t: Time)
    requires C.Valid(c) && LaneHolds(link, blocks, start, next, l, relay, c, born)
    requires CarriesHeaders(link.role) && Match(Sync(link.src, link.dst), tx.item)
    requires HeadersFlow(link, blocks, start, next, l.headerAlive, queue, Pick(Sync(link.src, link.dst), C.Ledger(c)) + [tx.item])
    ensures C.Valid(C.Put(c, tx, t))
    ensures LaneHolds(link, blocks, start, next, l.(headerQ := queue), relay, C.Put(c, tx, t), born)
  {
    hide HeadersFlow, HeadersSynced, XtxsFlow, SentOk, L1First, Waits, SentTrusted, C.Valid;
    C.PutKeeps(c, tx, t);
    PickSnoc(Sync(link.src, link.dst), C.Ledger(c), tx.item);
    PickSnoc(Xtx(link.src, link.dst), C.Ledger(c), tx.item);
    PutSynced(link, blocks, start, c, tx, t, born);
    WaitsAnyHeaders(link, relay, c.client, l, queue);
  }

  /** Sending the next header: it moves from the queue to the destination's pool. */
  lemma SendHeaderHolds(link: Link, blocks: seq<Block>, start: nat, next: nat, l: Lane,
                        relay: LightClient.Client, c: C.Chain, born: nat, t: Time)
    requires C.Valid(c) && LaneHolds(link, blocks, start, next, l, relay, c, born)
    requires l.headerAlive && l.headerQ != []
    ensures CarriesHeaders(link.role)
    ensures exists h :: start <= h < |blocks| && l.headerQ[0] == HeaderOf(blocks[h])
    ensures var c' := C.Put(c, NewTx(HeaderItem(link, l.headerQ[0]), NO_TRACE), t);
            C.Valid(c') && LaneHolds(link, blocks, start, next, l.(headerQ := l.headerQ[1..]), relay, c', born)
  {
    SendHeaderFlow(link, blocks, start, next, l.headerQ, Pick(Sync(link.src, link.dst), C.Ledger(c)));
    PutHeaderHolds(link, blocks, start, next, l, l.headerQ[1..], relay, c, born,
                   NewTx(HeaderItem(link, l.headerQ[0]), NO_TRACE), t);
  }

  lemma PutSynced(link: Link, blocks: seq<Block>, start: nat, c: C.Chain, tx: Tx, t: Time, born: nat)
    requires C.Valid(c)
    requires HeadersSynced(link, blocks, start, c, |Pick(Sync(link.src, link.dst), C.Executed(c))|, born)
    ensures var c' := C.Put(c, tx, t);
      C.Valid(c') && HeadersSynced(link, blocks, start, c', |Pick(Sync(link.src, link.dst), C.Executed(c'))|, born)
  {
    var c' := C.Put(c, tx, t);
    C.PutKeeps(c, tx, t);
    var w := |Pick(Sync(link.src, link.dst), C.Executed(c))| + if HalfSynced(c, link.src, link.dst) then 1 else 0;
    forall h | start <= h < start + w ensures RecordOk(link, blocks[h], c', h, born) {
      assert RecordOk(link, blocks[h], c, h, born);
    }
  }

  // ----- transactions -----

  lemma TakeFlow(link: Link, blocks: seq<Block>, start: nat, next: nat, queue: seq<Tx>, pc: Pc, onDst: seq<Item>)
    requires XtxsFlow(link, blocks, start, next, Idle, queue, onDst) && queue != []
    requires !pc.Idle? && pc.xtx == queue[0] && pc.tx.item == XtxItem(link, queue[0])
    ensures CarriesXtxs(link.role)
    ensures XtxsFlow(link, blocks, start, next, pc, queue[1..], onDst)
  {
    hide Expected, Carried, Parcels;
    FirstParcel(queue);
    Regroup(Carried(onDst), [ParcelOf(queue[0])], Parcels(queue[1..]));
  }

  lemma FirstParcel(queue: seq<Tx>)
    requires queue != []
    ensures Parcels(queue) == [ParcelOf(queue[0])] + Parcels(queue[1..])
  {
  }

  lemma Regroup(a: seq<Parcel>, b: seq<Parcel>, c: seq<Parcel>)
    ensures a + [] + (b + c) == a + b + c
  {
  }

  lemma TakeHolds(link: Link, blocks: seq<Block>, start: nat, next: nat, l: Lane,
                  relay: LightClient.Client, c: C.Chain, born: nat, t: Time)
    requires C.Valid(c) && LaneHolds(link, blocks, start, next, l, relay, c, born) && CanTake(l)
    ensures LaneHolds(link, blocks, start, next, Take(link, l, t), relay, c, born)
  {
    TakeFlow(link, blocks, start, next, l.xtxQ, Take(link, l, t).pc, Pick(Xtx(link.src, link.dst), C.Ledger(c)));
  }

  lemma PollInterHolds(link: Link, blocks: seq<Block>, start: nat, next: nat, l: Lane,
                       relay: LightClient.Client, c: C.Chain, born: nat)
    requires C.Valid(c) && LaneHolds(link, blocks, start, next, l, relay, c, born) && CanPollInter(l)
    ensures LaneHolds(link, blocks, start, next, PollInter(l, LightClient.Maxn(relay, link.src)), relay, c, born)
  {
  }

  /** A task that has failed. */
  lemma FailsHolds(link: Link, blocks: seq<Block>, start: nat, next: nat, l: Lane, l': Lane,
                   relay: LightClient.Client, c: C.Chain, born: nat)
    requires C.Valid(c) && LaneHolds(link, blocks, start, next, l, relay, c, born)
    requires l' == l.(headerAlive := false) || l' == l.(xtxAlive := false)
    ensures LaneHolds(link, blocks, start, next, l', relay, c, born)
  {
    hide HeadersSynced, XtxsFlow, SentOk, L1First, SentTrusted, C.Valid, Headers;
  }

  /** The consumer keeps its transaction and moves on to its next stage. */
  lemma HandHolds(link: Link, blocks: seq<Block>, start: nat, next: nat, l: Lane, l': Lane,
                  relay: LightClient.Client, c: C.Chain, born: nat)
    requires C.Valid(c) && LaneHolds(link, blocks, start, next, l, relay, c, born)
    requires !l.pc.Idle? && !l'.pc.Idle? && l'.pc.xtx == l.pc.xtx && l'.pc.tx == l.pc.tx
    requires l'.l1Sent == l.l1Sent && l'.headerQ == l.headerQ && l'.xtxQ == l.xtxQ && l'.headerAlive == l.headerAlive
    requires Waits(link, relay, c.client, l')
    ensures LaneHolds(link, blocks, start, next, l', relay, c, born)
  {
    hide HeadersFlow, HeadersSynced, SentOk, L1First, Waits, SentTrusted, C.Valid;
  }

  lemma LookupWaits(link: Link, relay: LightClient.Client, dst: LightClient.Client, l: Lane)
    requires Waits(link, relay, dst, l) && CanLookup(l)
    requires forall h: nat | (link.src, h) in relay.headers :: relay.headers[(link.src, h)].csHeight >= 1
    ensures Waits(link, relay, dst, Lookup(l, LightClient.QueryCsHeight(relay, link.src, l.pc.xtx.height)))
  {
  }

  lemma ClearWaits(link: Link, relay: LightClient.Client, dst: LightClient.Client, l: Lane)
    requires Waits(link, relay, dst, l) && CanClear(l) && !NeedsL1(link, l)
    ensures Waits(link, relay, dst, Clear(link, l)) && Clear(link, l).l1Sent == l.l1Sent
  {
    assert Trusted(link, relay, dst, l.pc.xtx.height);
    if link.role == Pap {
      assert l.l1Sent + {l.pc.xtx.height} == l.l1Sent;
    }
  }

  lemma LookupHolds(link: Link, blocks: seq<Block>, start: nat, next: nat, l: Lane,
                    relay: LightClient.Client, c: C.Chain, born: nat)
    requires C.Valid(c) && LaneHolds(link, blocks, start, next, l, relay, c, born) && CanLookup(l)
    requires forall h: nat | (link.src, h) in relay.headers :: relay.headers[(link.src, h)].csHeight >= 1
    ensures LaneHolds(link, blocks, start, next,
                      Lookup(l, LightClient.QueryCsHeight(relay, link.src, l.pc.xtx.height)), relay, c, born)
  {
    hide HeadersFlow, HeadersSynced, XtxsFlow, SentOk, L1First, Waits, SentTrusted;
    LookupWaits(link, relay, c.client, l);
    HandHolds(link, blocks, start, next, l, Lookup(l, LightClient.QueryCsHeight(relay, link.src, l.pc.xtx.height)), relay, c, born);
  }

  lemma PollDstHolds(link: Link, blocks: seq<Block>, start: nat, next: nat, l: Lane,
                     relay: LightClient.Client, c: C.Chain, born: nat)
    requires C.Valid(c) && LaneHolds(link, blocks, start, next, l, relay, c, born) && CanPollDst(l)
    ensures LaneHolds(link, blocks, start, next, PollDst(l, LightClient.Maxn(c.client, Watched(link))), relay, c, born)
  {
  }

  /** Clearing without an L1 transaction. */
  lemma ClearHolds(link: Link, blocks: seq<Block>, start: nat, next: nat, l: Lane,
                   relay: LightClient.Client, c: C.Chain, born: nat)
    requires C.Valid(c) && LaneHolds(link, blocks, start, next, l, relay, c, born)
    requires CanClear(l) && !NeedsL1(link, l)
    ensures LaneHolds(link, blocks, start, next, Clear(link, l), relay, c, born)
  {
    hide HeadersFlow, HeadersSynced, XtxsFlow, SentOk, L1First, Waits, SentTrusted;
    ClearWaits(link, relay, c.client, l);
    HandHolds(link, blocks, start, next, l, Clear(link, l), relay, c, born);
  }

  lemma L1FirstSnoc(link: Link, l1Sent: set<nat>, onDst: seq<Item>, item: Item)
    requires L1First(link, l1Sent, onDst) && link.role == Pap
    requires IsL1(item) <==> About(item) !in l1Sent
    ensures L1First(link, l1Sent + {About(item)}, onDst + [item])
  {
    var all := onDst + [item];
    var n := |onDst|;
    var l1Sent' := l1Sent + {About(item)};
    forall h ensures h in l1Sent' <==> exists i :: 0 <= i < |all| && IsL1(all[i]) && About(all[i]) == h {
      if h in l1Sent {
        var i :| 0 <= i < n && IsL1(onDst[i]) && About(onDst[i]) == h;
        assert all[i] == onDst[i];
      } else if h in l1Sent' {
        assert all[n] == item;
      }
      if i :| 0 <= i < |all| && IsL1(all[i]) && About(all[i]) == h {
        if i < n {
          assert IsL1(onDst[i]) && About(onDst[i]) == h;
        }
      }
    }
    forall j | 0 <= j < |all| && !IsL1(all[j])
      ensures exists i :: 0 <= i < j && IsL1(all[i]) && About(all[i]) == About(all[j])
    {
      if j < n {
        var i :| 0 <= i < j && IsL1(onDst[i]) && About(onDst[i]) == About(onDst[j]);
        assert all[i] == onDst[i];
      } else {
        var i :| 0 <= i < n && IsL1(onDst[i]) && About(onDst[i]) == About(item);
        assert all[i] == onDst[i];
      }
    }
  }

  lemma L1FirstForward(link: Link, l1Sent: set<nat>, onDst: seq<Item>, item: Item)
    requires L1First(link, l1Sent, onDst) && !IsL1(item)
    requires link.role == Pap ==> About(item) in l1Sent
    ensures L1First(link, l1Sent, onDst + [item])
  {
    if link.role == Pap {
      L1FirstSnoc(link, l1Sent, onDst, item);
      assert l1Sent + {About(item)} == l1Sent;
    }
  }

  lemma CarriedSnoc(items: seq<Item>, item: Item)
    ensures Carried(items + [item])
            == Carried(items) + if item.call.ValidateState? && !IsL1(item) then [ParcelOf(item.call.state)] else []
  {
    assert (items + [item])[..|items|] == items;
  }

  /** Sending an item: the parcel in hand stays there for an L1 item, else it goes along. */
  lemma SendFlow(link: Link, blocks: seq<Block>, start: nat, next: nat, pc: Pc, pc': Pc, queue: seq<Tx>, onDst: seq<Item>, item: Item)
    requires XtxsFlow(link, blocks, start, next, pc, queue, onDst) && !pc.Idle? && item.call.ValidateState?
    requires if IsL1(item) then !pc'.Idle? && pc'.xtx == pc.xtx && pc'.tx == pc.tx
             else pc'.Idle? && item.call.state == pc.xtx
    ensures XtxsFlow(link, blocks, start, next, pc', queue, onDst + [item])
  {
    CarriedSnoc(onDst, item);
  }

  lemma SentOkSnoc(link: Link, sent: seq<Item>, item: Item)
    requires SentOk(link, item) && forall i | 0 <= i < |sent| :: SentOk(link, sent[i])
    ensures forall i | 0 <= i < |sent + [item]| :: SentOk(link, (sent + [item])[i])
  {
  }

  /** What one more sent item has to satisfy. */
  lemma PutXtxHolds(link: Link, blocks: seq<Block>, start: nat, next: nat, l: Lane, l': Lane,
                    relay: LightClient.Client, c: C.Chain, born: nat, tx: Tx, t: Time)
    requires C.Valid(c) && LaneHolds(link, blocks, start, next, l, relay, c, born)
    requires CarriesXtxs(link.role) && Match(Xtx(link.src, link.dst), tx.item) && SentOk(link, tx.item)
    requires l' == l.(pc := l'.pc, l1Sent := l'.l1Sent)
    requires var sent := Pick(Xtx(link.src, link.dst), C.Ledger(c));
      && L1First(link, l'.l1Sent, sent + [tx.item])
      && Waits(link, relay, c.client, l') && SentTrusted(link, relay, c.client, sent + [tx.item])
      && XtxsFlow(link, blocks, start, next, l'.pc, l.xtxQ, sent + [tx.item])
    ensures C.Valid(C.Put(c, tx, t))
    ensures LaneHolds(link, blocks, start, next, l', relay, C.Put(c, tx, t), born)
  {
    C.PutKeeps(c, tx, t);
    PickSnoc(Sync(link.src, link.dst), C.Ledger(c), tx.item);
    PickSnoc(Xtx(link.src, link.dst), C.Ledger(c), tx.item);
    SentOkSnoc(link, Pick(Xtx(link.src, link.dst), C.Ledger(c)), tx.item);
    if CarriesHeaders(link.role) {
      PutSynced(link, blocks, start, c, tx, t, born);
    }
  }

  /** The L1 transaction of a new source height. */
  lemma SendL1Holds(link: Link, blocks: seq<Block>, start: nat, next: nat, l: Lane,
                    relay: LightClient.Client, c: C.Chain, born: nat, t: Time)
    requires C.Valid(c) && LaneHolds(link, blocks, start, next, l, relay, c, born)
    requires CanClear(l) && NeedsL1(link, l)
    ensures var c' := C.Put(c, NewTx(L1Item(link, l.pc.target, l.pc.xtx), NO_TRACE), t);
            C.Valid(c') && LaneHolds(link, blocks, start, next, Clear(link, l), relay, c', born)
  {
    hide HeadersFlow, HeadersSynced, L1First, C.Valid, C.Put;
    var item, l' := L1Item(link, l.pc.target, l.pc.xtx), Clear(link, l);
    var sent := Pick(Xtx(link.src, link.dst), C.Ledger(c));
    L1FirstSnoc(link, l.l1Sent, sent, item);
    SendFlow(link, blocks, start, next, l.pc, l'.pc, l.xtxQ, sent, item);
    assert Trusted(link, relay, c.client, l.pc.xtx.height);
    PutXtxHolds(link, blocks, start, next, l, l', relay, c, born, NewTx(item, NO_TRACE), t);
  }

  predicate Forwarded(kind: Kind) {
    kind == CtxDst || kind == CtxInter
  }

  lemma {:induction false} RouteKinds(mode: Mode, role: Role, src: Pid, dst: Pid, txs: seq<Tx>, t: Time)
    ensures forall i | 0 <= i < |Route(mode, role, src, dst, txs, t)| ::
      var r := Route(mode, role, src, dst, txs, t)[i].item; Forwarded(r.kind) && r.src == src
  {
    if txs != [] {
      RouteKinds(mode, role, src, dst, txs[..|txs| - 1], t);
    }
  }

  lemma {:induction false} ExpectedKinds(mode: Mode, role: Role, src: Pid, dst: Pid, blocks: seq<Block>, a: nat, b: nat)
    requires b <= |blocks|
    ensures forall i | 0 <= i < |Expected(mode, role, src, dst, blocks, a, b)| ::
      var r := Expected(mode, role, src, dst, blocks, a, b)[i].item; Forwarded(r.kind) && r.src == src
    decreases b
  {
    if a < b {
      ExpectedKinds(mode, role, src, dst, blocks, a, b - 1);
      RouteKinds(mode, role, src, dst, blocks[b - 1].txs, 0);
    }
  }

  /** The transaction in hand was routed, so its memo was rewritten. */
  lemma InHandForwarded(link: Link, blocks: seq<Block>, start: nat, next: nat, l: Lane, onDst: seq<Item>)
    requires XtxsFlow(link, blocks, start, next, l.pc, l.xtxQ, onDst) && !l.pc.Idle?
    ensures CarriesXtxs(link.role) && Forwarded(l.pc.xtx.item.kind)
  {
    var all := Expected(link.mode, link.role, link.src, link.dst, blocks, start, next);
    ExpectedKinds(link.mode, link.role, link.src, link.dst, blocks, start, next);
    assert all[|Carried(onDst)|] == ParcelOf(l.pc.xtx);
  }

  lemma SentTrustedSnoc(link: Link, relay: LightClient.Client, dst: LightClient.Client, onDst: seq<Item>, item: Item)
    requires SentTrusted(link, relay, dst, onDst) && Trusted(link, relay, dst, About(item))
    requires IsL1(item) ==> item.call.ValidateState? && Awaits(link, relay, About(item), item.call.height)
    ensures SentTrusted(link, relay, dst, onDst + [item])
  {
  }

  /** Sending the transaction in hand. */
  lemma PutForwardedHolds(link: Link, blocks: seq<Block>, start: nat, next: nat, l: Lane,
                          relay: LightClient.Client, c: C.Chain, born: nat, tx: Tx, t: Time)
    requires C.Valid(c) && LaneHolds(link, blocks, start, next, l, relay, c, born) && CanSend(l)
    requires CarriesXtxs(link.role) && Forwarded(tx.item.kind) && tx.item == XtxItem(link, l.pc.xtx)
    ensures C.Valid(C.Put(c, tx, t)) && LaneHolds(link, blocks, start, next, Sent(l), relay, C.Put(c, tx, t), born)
  {
    var sent := Pick(Xtx(link.src, link.dst), C.Ledger(c));
    SendFlow(link, blocks, start, next, l.pc, Idle, l.xtxQ, sent, tx.item);
    SentTrustedSnoc(link, relay, c.client, sent, tx.item);
    L1FirstForward(link, l.l1Sent, sent, tx.item);
    PutXtxHolds(link, blocks, start, next, l, Sent(l), relay, c, born, tx, t);
  }

  lemma SendXtxHolds(link: Link, blocks: seq<Block>, start: nat, next: nat, l: Lane,
                     relay: LightClient.Client, c: C.Chain, born: nat, t: Time, u: Time)
    requires C.Valid(c) && LaneHolds(link, blocks, start, next, l, relay, c, born) && CanSend(l)
    ensures Forwarded(l.pc.xtx.item.kind) && CarriesXtxs(link.role)
    ensures Outgoing(l, u).item == XtxItem(link, l.pc.xtx)
    ensures var c' := C.Put(c, Outgoing(l, u), t);
            C.Valid(c') && LaneHolds(link, blocks, start, next, Sent(l), relay, c', born)
  {
    InHandForwarded(link, blocks, start, next, l, Pick(Xtx(link.src, link.dst), C.Ledger(c)));
    PutForwardedHolds(link, blocks, start, next, l, relay, c, born, Outgoing(l, u), t);
  }
}
