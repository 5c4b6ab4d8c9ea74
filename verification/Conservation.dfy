/** Conservation over whole runs: what users ask of chain p for chain d equals what was
    delivered, what is in a gateway's hands and what is still unread, in that order. */
module Conservation {
  import opened Wrappers
  import opened Sequences
  import opened Types
  import opened System
  import opened Invariant
  import opened Frame
  import opened GatewaySteps
  import opened Outcome
  import opened Order
  import LaneSteps
  import R = Relayer
  import C = Chain

  // ----- before the gateways start -----

  ghost predicate OnlyOrdinary(items: seq<Item>) {
    forall i | 0 <= i < |items| :: items[i].kind == Ordinary
  }

  /** The blocks that a listener skips hold set-up transactions only. */
  ghost predicate SetUp(cfg: Config, s: Sys) {
    forall rid {:trigger SkippedOk(s, rid)} | IsRid(cfg, rid) :: SkippedOk(s, rid)
  }

  ghost predicate SkippedOk(s: Sys, rid: Rid) {
    && rid in s.gates && rid.src in s.chains && s.gates[rid].start <= |s.chains[rid.src].blocks|
    && OnlyOrdinary(C.Items(C.Flat(s.chains[rid.src].blocks[..s.gates[rid].start])))
  }

  lemma InitSetUp(cfg: Config, s: Sys)
    requires Init(cfg, s)
    ensures SetUp(cfg, s)
  {
    forall rid | IsRid(cfg, rid) ensures SkippedOk(s, rid) {
      var c, start := s.chains[rid.src], s.gates[rid].start;
      assert InitChain(cfg, rid.src, c);
      assert c.blocks == c.blocks[..start] + c.blocks[start..];
      C.FlatConcat(c.blocks[..start], c.blocks[start..]);
      var skipped := C.Items(C.Flat(c.blocks[..start]));
      forall i | 0 <= i < |skipped| ensures skipped[i].kind == Ordinary {
        assert C.Ledger(c)[i] == skipped[i];
      }
    }
  }

  /** No step takes a block away or moves where a listener began. */
  lemma StepGrows(cfg: Config, s: Sys, st: Step, rid: Rid)
    requires Enabled(cfg, s, st) && rid in s.gates && rid.src in s.chains
    ensures var s' := Apply(cfg, s, st);
      && rid in s'.gates && rid.src in s'.chains
      && s'.gates[rid].start == s.gates[rid].start && s.chains[rid.src].blocks <= s'.chains[rid.src].blocks
  {
    hide R.Take, R.Lookup, R.Clear, LinkOf, UserTx;
  }

  lemma SkippedStays(s: Sys, s': Sys, rid: Rid)
    requires SkippedOk(s, rid) && rid in s'.gates && rid.src in s'.chains
    requires s'.gates[rid].start == s.gates[rid].start && s.chains[rid.src].blocks <= s'.chains[rid.src].blocks
    ensures SkippedOk(s', rid)
  {
    assert s'.chains[rid.src].blocks[..s.gates[rid].start] == s.chains[rid.src].blocks[..s.gates[rid].start];
  }

  lemma StepSetUp(cfg: Config, s: Sys, st: Step)
    requires SetUp(cfg, s) && Enabled(cfg, s, st)
    ensures SetUp(cfg, Apply(cfg, s, st))
  {
    forall rid | IsRid(cfg, rid) ensures SkippedOk(Apply(cfg, s, st), rid) {
      assert SkippedOk(s, rid);
      StepGrows(cfg, s, st, rid);
      SkippedStays(s, Apply(cfg, s, st), rid);
    }
  }

  lemma {:induction false} RunSetUp(cfg: Config, s: Sys, steps: seq<Step>)
    requires Init(cfg, s) && Run(cfg, s, steps).Some?
    ensures SetUp(cfg, Run(cfg, s, steps).value)
  {
    if steps == [] {
      InitSetUp(cfg, s);
    } else {
      var n := |steps| - 1;
      RunSetUp(cfg, s, steps[..n]);
      StepSetUp(cfg, Run(cfg, s, steps[..n]).value, steps[n]);
    }
  }

  // ----- one hop -----

  /** What an item on dst, put there by the gateway of src, carries. */
  function Payload(src: Pid, dst: Pid): Item -> Option<Item> {
    (item: Item) =>
      if item.sender == Gateway(src, dst) && item.kind != CtxHdr && item.call.ValidateState? && item.kind != CtxDstL1
      then Some(item.call.state.item) else None
  }

  /** What of a chain's ledger a listener at height next has not read. */
  function Unread(c: C.Chain, next: nat): seq<Item>
    requires next <= |c.blocks|
  {
    C.Items(C.Flat(c.blocks[next..])) + C.Items(C.Proposed(c)) + C.Items(c.pool)
  }

  function Read(c: C.Chain, next: nat): seq<Item>
    requires next <= |c.blocks|
  {
    C.Items(C.Flat(c.blocks[..next]))
  }

  lemma LedgerSplits(c: C.Chain, next: nat)
    requires next <= |c.blocks|
    ensures C.Ledger(c) == Read(c, next) + Unread(c, next)
  {
    hide C.Flat, C.Items;
    assert c.blocks == c.blocks[..next] + c.blocks[next..];
    C.FlatConcat(c.blocks[..next], c.blocks[next..]);
    C.ItemsConcat(C.Flat(c.blocks[..next]), C.Flat(c.blocks[next..]));
  }

  /** One more item of the ledger adds the same to both sides. */
  lemma PayloadSnoc(src: Pid, dst: Pid, items: seq<Item>, x: Item)
    requires ItemsOf(Carried(Pick(Xtx(src, dst), items))) == FilterMap(Payload(src, dst), items)
    ensures ItemsOf(Carried(Pick(Xtx(src, dst), items + [x]))) == FilterMap(Payload(src, dst), items + [x])
  {
    hide Carried, FilterMap, Pick;
    var picked := Pick(Xtx(src, dst), items);
    PickSnoc(Xtx(src, dst), items, x);
    FilterMapSnoc(Payload(src, dst), items, x);
    if Match(Xtx(src, dst), x) {
      var more := if x.call.ValidateState? && !IsL1(x) then [R.ParcelOf(x.call.state)] else [];
      LaneSteps.CarriedSnoc(picked, x);
      ItemsOfConcat(Carried(picked), more);
    }
  }

  lemma {:induction false} CarriedIsPayload(src: Pid, dst: Pid, items: seq<Item>)
    ensures ItemsOf(Carried(Pick(Xtx(src, dst), items))) == FilterMap(Payload(src, dst), items)
  {
    hide Payload;
    if items != [] {
      var n := |items| - 1;
      CarriedIsPayload(src, dst, items[..n]);
      PayloadSnoc(src, dst, items[..n], items[n]);
      assert items == items[..n] + [items[n]];
    }
  }

  /** What the gateway holds: the transaction in its hand, then its queue. */
  function Held(l: R.Lane): seq<Item> {
    ItemsOf(R.InHand(l.pc)) + C.Items(l.xtxQ)
  }

  /** Of the blocks read, everything wanted is on the destination or held, in order. */
  ghost predicate HopConserved(cfg: Config, s: Sys, rid: Rid, d: Pid)
    requires LaneExists(s, rid, d) && s.gates[rid].next <= |s.chains[rid.src].blocks|
  {
    var want := Wanted(cfg.mode, rid.src, d);
    FilterMap(want, Read(s.chains[rid.src], s.gates[rid].next))
    == FilterMap(Payload(rid.src, d), C.Ledger(s.chains[d])) + Held(LaneOf(s, rid, d))
  }

  lemma ReadWanted(want: Item -> Option<Item>, c: C.Chain, start: nat, next: nat)
    requires start <= next <= |c.blocks| && OnlyOrdinary(Read(c, start))
    requires forall item: Item | item.kind == Ordinary :: want(item).None?
    ensures FilterMap(want, Read(c, next)) == FilterMap(want, C.Items(C.Flat(c.blocks[start..next])))
  {
    hide C.Flat;
    assert c.blocks[..next] == c.blocks[..start] + c.blocks[start..next];
    C.FlatConcat(c.blocks[..start], c.blocks[start..next]);
    C.ItemsConcat(C.Flat(c.blocks[..start]), C.Flat(c.blocks[start..next]));
    FilterMapNone(want, Read(c, start));
    FilterMapConcat(want, Read(c, start), C.Items(C.Flat(c.blocks[start..next])));
  }

  lemma FlowItems(src: Pid, dst: Pid, items: seq<Item>, pc: R.Pc, queue: seq<Tx>, all: seq<R.Parcel>)
    requires all == Carried(Pick(Xtx(src, dst), items)) + R.InHand(pc) + R.Parcels(queue)
    ensures ItemsOf(all) == FilterMap(Payload(src, dst), items) + (ItemsOf(R.InHand(pc)) + C.Items(queue))
  {
    hide Carried, Pick, R.Parcels, R.InHand, FilterMap, ItemsOf, C.Items;
    CarriedIsPayload(src, dst, items);
    ItemsOfParcels(queue);
    ItemsOfThree(Carried(Pick(Xtx(src, dst), items)), R.InHand(pc), R.Parcels(queue));
  }

  lemma ItemsOfThree(a: seq<R.Parcel>, b: seq<R.Parcel>, c: seq<R.Parcel>)
    ensures ItemsOf(a + b + c) == ItemsOf(a) + (ItemsOf(b) + ItemsOf(c))
  {
  }

  lemma HopFlow(cfg: Config, s: Sys, rid: Rid, d: Pid)
    requires Inv(cfg, s) && IsLane(cfg, rid, d) && R.CarriesXtxs(rid.role)
    ensures LaneThere(cfg, s, rid, d) && s.gates[rid].start <= s.gates[rid].next <= |s.chains[rid.src].blocks|
    ensures R.Expected(cfg.mode, rid.role, rid.src, d, s.chains[rid.src].blocks, s.gates[rid].start, s.gates[rid].next)
            == Carried(Pick(Xtx(rid.src, d), C.Ledger(s.chains[d]))) + R.InHand(LaneOf(s, rid, d).pc) + R.Parcels(LaneOf(s, rid, d).xtxQ)
  {
    assert LaneOk(cfg, s, rid, d);
  }

  /** The equation of one hop, from the flow of its parcels. */
  lemma FlowConserves(mode: R.Mode, role: R.Role, src: Pid, d: Pid, c: C.Chain, ledger: seq<Item>, start: nat, next: nat, l: R.Lane)
    requires d != -1 && R.CarriesXtxs(role) && (mode == R.ToR ==> role == R.Pap)
    requires start <= next <= |c.blocks| && BlocksFit(mode, d, c.blocks) && OnlyOrdinary(Read(c, start))
    requires R.Expected(mode, role, src, d, c.blocks, start, next)
             == Carried(Pick(Xtx(src, d), ledger)) + R.InHand(l.pc) + R.Parcels(l.xtxQ)
    ensures FilterMap(Wanted(mode, src, d), Read(c, next)) == FilterMap(Payload(src, d), ledger) + Held(l)
  {
    ExpectedWanted(mode, role, src, d, c.blocks, start, next);
    FlowItems(src, d, ledger, l.pc, l.xtxQ, R.Expected(mode, role, src, d, c.blocks, start, next));
    ReadWanted(Wanted(mode, src, d), c, start, next);
  }

  lemma HopConserves(cfg: Config, s: Sys, rid: Rid, d: Pid)
    requires Inv(cfg, s) && SetUp(cfg, s) && IsLane(cfg, rid, d) && R.CarriesXtxs(rid.role)
    ensures LaneExists(s, rid, d) && s.gates[rid].next <= |s.chains[rid.src].blocks| && HopConserved(cfg, s, rid, d)
  {
    hide LaneHolds, LaneOk, ChainOk, C.Flat, R.Expected, Carried;
    HopFlow(cfg, s, rid, d);
    SourceFits(cfg, s, rid, d);
    assert SkippedOk(s, rid);
    LaneFacts(cfg, rid, d);
    FlowConserves(cfg.mode, rid.role, rid.src, d, s.chains[rid.src], C.Ledger(s.chains[d]),
                  s.gates[rid].start, s.gates[rid].next, LaneOf(s, rid, d));
  }

  // ----- end to end -----

  /** The gateway that carries the transactions of chain p. */
  function XtxRid(cfg: Config, p: Pid): Rid {
    Rid(p, if cfg.mode == R.ToR then R.Pap else R.Full)
  }

  /** Where the transactions of p for d go first: to d, or in AoR to the relay chain. */
  function FirstHop(cfg: Config, d: Pid): Pid {
    if cfg.mode == R.AoR then RELAY else d
  }

  ghost predicate IsPair(cfg: Config, p: Pid, d: Pid) {
    ValidConfig(cfg) && p in cfg.paras && d in cfg.paras && p != d
  }

  /** What users of p ask to be delivered to d, with the memo of the first hop. */
  function Requests(cfg: Config, p: Pid, d: Pid): Item -> Option<Item> {
    (item: Item) => if item.kind == CtxSrc && item.dst == d then Some(item.(kind := LaneKind(cfg.mode, FirstHop(cfg, d)), src := p)) else None
  }

  /** The transaction of p inside an item that the relay chain passes on. */
  function Inner(p: Pid): Item -> Option<Item> {
    (item: Item) => if item.sender == Gateway(p, RELAY) && item.call.ValidateState? then Some(item.call.state.item) else None
  }

  /** What an item on d delivers of p's transactions: its state, in AoR the state of its state. */
  function Deliveries(cfg: Config, p: Pid, d: Pid): Item -> Option<Item> {
    (item: Item) =>
      if cfg.mode != R.AoR then Payload(p, d)(item)
      else
        var outer := Payload(RELAY, d)(item);
        if outer.None? then None else Inner(p)(outer.value)
  }

  /** AoR: what an item on the relay chain brings of p's transactions for d. */
  function Relays(p: Pid, d: Pid): Item -> Option<Item> {
    (item: Item) => if item.kind == CtxInter && item.dst == d then Inner(p)(item) else None
  }

  function For(d: Pid): Item -> Option<Item> {
    (item: Item) => if item.dst == d then Some(item) else None
  }

  function OnFirstHop(cfg: Config, s: Sys, p: Pid, d: Pid): seq<Item>
    requires LaneExists(s, XtxRid(cfg, p), FirstHop(cfg, d))
  {
    FilterMap(For(d), Held(LaneOf(s, XtxRid(cfg, p), FirstHop(cfg, d))))
  }

  /** AoR: p's transactions for d that the relay chain holds unread, after those that its
      gateway holds. */
  function OnSecondHop(cfg: Config, s: Sys, p: Pid, d: Pid): seq<Item>
    requires LaneExists(s, Rid(RELAY, R.Full), d) && s.gates[Rid(RELAY, R.Full)].next <= |s.chains[RELAY].blocks|
  {
    FilterMap(Inner(p), Held(LaneOf(s, Rid(RELAY, R.Full), d)))
    + FilterMap(Relays(p, d), Unread(s.chains[RELAY], s.gates[Rid(RELAY, R.Full)].next))
  }

  ghost predicate PairThere(cfg: Config, s: Sys, p: Pid, d: Pid) {
    && LaneExists(s, XtxRid(cfg, p), FirstHop(cfg, d)) && s.gates[XtxRid(cfg, p)].next <= |s.chains[p].blocks|
    && d in s.chains
    && (cfg.mode == R.AoR ==>
          LaneExists(s, Rid(RELAY, R.Full), d) && s.gates[Rid(RELAY, R.Full)].next <= |s.chains[RELAY].blocks|)
  }

  /** Exactly once, in order: what users of p asked for d, is what was delivered, then what is
      under way on the second hop, then on the first, then what has not been read. */
  ghost predicate ExactlyOnce(cfg: Config, s: Sys, p: Pid, d: Pid)
    requires PairThere(cfg, s, p, d)
  {
    FilterMap(Requests(cfg, p, d), C.Ledger(s.chains[p]))
    == FilterMap(Deliveries(cfg, p, d), C.Ledger(s.chains[d]))
       + (if cfg.mode == R.AoR then OnSecondHop(cfg, s, p, d) else [])
       + OnFirstHop(cfg, s, p, d)
       + FilterMap(Requests(cfg, p, d), Unread(s.chains[p], s.gates[XtxRid(cfg, p)].next))
  }

  lemma PairLanes(cfg: Config, s: Sys, p: Pid, d: Pid)
    requires Inv(cfg, s) && IsPair(cfg, p, d)
    ensures IsLane(cfg, XtxRid(cfg, p), FirstHop(cfg, d)) && R.CarriesXtxs(XtxRid(cfg, p).role)
    ensures cfg.mode == R.AoR ==> IsLane(cfg, Rid(RELAY, R.Full), d)
    ensures PairThere(cfg, s, p, d)
  {
    HopFlow(cfg, s, XtxRid(cfg, p), FirstHop(cfg, d));
    if cfg.mode == R.AoR {
      HopFlow(cfg, s, Rid(RELAY, R.Full), d);
    }
  }

  /** The requests of p for d are what the first hop wants of p, for d. */
  lemma RequestsAreWanted(cfg: Config, p: Pid, d: Pid, items: seq<Item>)
    requires IsPair(cfg, p, d)
    ensures FilterMap(Requests(cfg, p, d), items) == FilterMap(For(d), FilterMap(Wanted(cfg.mode, p, FirstHop(cfg, d)), items))
  {
    FilterMapTwice(Wanted(cfg.mode, p, FirstHop(cfg, d)), For(d), Requests(cfg, p, d), items);
  }

  /** The first hop, for one pair. */
  lemma FirstHopConserves(cfg: Config, s: Sys, p: Pid, d: Pid)
    requires Inv(cfg, s) && SetUp(cfg, s) && IsPair(cfg, p, d)
    ensures PairThere(cfg, s, p, d)
    ensures FilterMap(Requests(cfg, p, d), Read(s.chains[p], s.gates[XtxRid(cfg, p)].next))
            == FilterMap(For(d), FilterMap(Payload(p, FirstHop(cfg, d)), C.Ledger(s.chains[FirstHop(cfg, d)])))
               + OnFirstHop(cfg, s, p, d)
  {
    PairLanes(cfg, s, p, d);
    HopConserves(cfg, s, XtxRid(cfg, p), FirstHop(cfg, d));
    RequestsAreWanted(cfg, p, d, Read(s.chains[p], s.gates[XtxRid(cfg, p)].next));
    FilterMapConcat(For(d), FilterMap(Payload(p, FirstHop(cfg, d)), C.Ledger(s.chains[FirstHop(cfg, d)])),
                    Held(LaneOf(s, XtxRid(cfg, p), FirstHop(cfg, d))));
  }

  // ----- NoR and ToR: one hop -----

  /** Without a relay chain on the way, everything a gateway carries to d is for d. */
  lemma WantedIsFor(cfg: Config, p: Pid, d: Pid, items: seq<Item>, i: nat)
    requires cfg.mode != R.AoR && i < |FilterMap(Wanted(cfg.mode, p, d), items)|
    ensures FilterMap(Wanted(cfg.mode, p, d), items)[i].dst == d
  {
    var k := FilterMapSource(Wanted(cfg.mode, p, d), items, i);
  }

  lemma PartsAreFor(cfg: Config, p: Pid, d: Pid, items: seq<Item>, a: seq<Item>, b: seq<Item>)
    requires cfg.mode != R.AoR && FilterMap(Wanted(cfg.mode, p, d), items) == a + b
    ensures FilterMap(For(d), a) == a && FilterMap(For(d), b) == b
  {
    forall i | 0 <= i < |a| ensures For(d)(a[i]) == Some(a[i]) {
      WantedIsFor(cfg, p, d, items, i);
      assert (a + b)[i] == a[i];
    }
    forall i | 0 <= i < |b| ensures For(d)(b[i]) == Some(b[i]) {
      WantedIsFor(cfg, p, d, items, |a| + i);
      assert (a + b)[|a| + i] == b[i];
    }
    FilterMapIdentity(For(d), a);
    FilterMapIdentity(For(d), b);
  }

  lemma DirectPair(cfg: Config, s: Sys, p: Pid, d: Pid)
    requires Inv(cfg, s) && SetUp(cfg, s) && IsPair(cfg, p, d) && cfg.mode != R.AoR
    ensures PairThere(cfg, s, p, d)
    ensures FilterMap(Requests(cfg, p, d), Read(s.chains[p], s.gates[XtxRid(cfg, p)].next))
            == FilterMap(Deliveries(cfg, p, d), C.Ledger(s.chains[d])) + OnFirstHop(cfg, s, p, d)
  {
    var rid := XtxRid(cfg, p);
    PairLanes(cfg, s, p, d);
    HopConserves(cfg, s, rid, d);
    FirstHopConserves(cfg, s, p, d);
    PartsAreFor(cfg, p, d, Read(s.chains[p], s.gates[rid].next), FilterMap(Payload(p, d), C.Ledger(s.chains[d])), Held(LaneOf(s, rid, d)));
    FilterMapAgree(Deliveries(cfg, p, d), Payload(p, d), C.Ledger(s.chains[d]));
  }

  // ----- AoR: two hops -----

  /** An item on the relay chain brings to d what the gateway of p sent there for d. */
  lemma RelayedItem(cfg: Config, s: Sys, p: Pid, d: Pid, item: Item)
    requires Inv(cfg, s) && cfg.mode == R.AoR && RELAY in s.chains && item in C.Ledger(s.chains[RELAY])
    ensures Relays(p, d)(item)
            == if Payload(p, RELAY)(item).None? then None else For(d)(Payload(p, RELAY)(item).value)
  {
    if item.sender == Gateway(p, RELAY) && item.kind != CtxHdr {
      RelayKinds(cfg, s, item);
      var rid := Relayed(cfg, s, RELAY, item);
      assert SentOk(LinkOf(cfg, rid, RELAY), item);
      assert item.dst == item.call.state.item.dst;
      assert Payload(p, RELAY)(item) == Some(item.call.state.item);
      assert Inner(p)(item) == Some(item.call.state.item);
    } else {
      assert Payload(p, RELAY)(item).None?;
      assert item.kind == CtxInter ==> Inner(p)(item).None?;
    }
  }

  lemma RelaysArePayload(cfg: Config, s: Sys, p: Pid, d: Pid)
    requires Inv(cfg, s) && cfg.mode == R.AoR && RELAY in s.chains
    ensures FilterMap(For(d), FilterMap(Payload(p, RELAY), C.Ledger(s.chains[RELAY])))
            == FilterMap(Relays(p, d), C.Ledger(s.chains[RELAY]))
  {
    var ledger := C.Ledger(s.chains[RELAY]);
    forall i | 0 <= i < |ledger|
      ensures Relays(p, d)(ledger[i])
              == if Payload(p, RELAY)(ledger[i]).None? then None else For(d)(Payload(p, RELAY)(ledger[i]).value)
    {
      RelayedItem(cfg, s, p, d, ledger[i]);
    }
    FilterMapTwice(Payload(p, RELAY), For(d), Relays(p, d), ledger);
  }

  /** The second hop, for the transactions of p. */
  lemma SecondHopConserves(cfg: Config, s: Sys, p: Pid, d: Pid)
    requires Inv(cfg, s) && SetUp(cfg, s) && IsPair(cfg, p, d) && cfg.mode == R.AoR
    ensures PairThere(cfg, s, p, d)
    ensures FilterMap(Relays(p, d), Read(s.chains[RELAY], s.gates[Rid(RELAY, R.Full)].next))
            == FilterMap(Deliveries(cfg, p, d), C.Ledger(s.chains[d]))
               + FilterMap(Inner(p), Held(LaneOf(s, Rid(RELAY, R.Full), d)))
  {
    var rid := Rid(RELAY, R.Full);
    PairLanes(cfg, s, p, d);
    HopConserves(cfg, s, rid, d);
    var read, ledger := Read(s.chains[RELAY], s.gates[rid].next), C.Ledger(s.chains[d]);
    FilterMapTwice(Wanted(R.AoR, RELAY, d), Inner(p), Relays(p, d), read);
    FilterMapConcat(Inner(p), FilterMap(Payload(RELAY, d), ledger), Held(LaneOf(s, rid, d)));
    FilterMapTwice(Payload(RELAY, d), Inner(p), Deliveries(cfg, p, d), ledger);
  }

  lemma RelayedPair(cfg: Config, s: Sys, p: Pid, d: Pid)
    requires Inv(cfg, s) && SetUp(cfg, s) && IsPair(cfg, p, d) && cfg.mode == R.AoR
    ensures PairThere(cfg, s, p, d)
    ensures FilterMap(Requests(cfg, p, d), Read(s.chains[p], s.gates[XtxRid(cfg, p)].next))
            == FilterMap(Deliveries(cfg, p, d), C.Ledger(s.chains[d])) + OnSecondHop(cfg, s, p, d) + OnFirstHop(cfg, s, p, d)
  {
    FirstHopConserves(cfg, s, p, d);
    SecondHopConserves(cfg, s, p, d);
    RelaysArePayload(cfg, s, p, d);
    var relay, next := s.chains[RELAY], s.gates[Rid(RELAY, R.Full)].next;
    LedgerSplits(relay, next);
    FilterMapConcat(Relays(p, d), Read(relay, next), Unread(relay, next));
    Rejoin(FilterMap(Deliveries(cfg, p, d), C.Ledger(s.chains[d])), FilterMap(Inner(p), Held(LaneOf(s, Rid(RELAY, R.Full), d))),
           FilterMap(Relays(p, d), Unread(relay, next)), OnFirstHop(cfg, s, p, d));
  }

  lemma Rejoin<A>(a: seq<A>, b: seq<A>, c: seq<A>, d: seq<A>)
    ensures ((a + b) + c) + d == a + (b + c) + d
  {
  }

  // ----- all modes -----

  lemma PairConserves(cfg: Config, s: Sys, p: Pid, d: Pid)
    requires Inv(cfg, s) && SetUp(cfg, s) && IsPair(cfg, p, d)
    ensures PairThere(cfg, s, p, d)
    ensures FilterMap(Requests(cfg, p, d), Read(s.chains[p], s.gates[XtxRid(cfg, p)].next))
            == FilterMap(Deliveries(cfg, p, d), C.Ledger(s.chains[d]))
               + (if cfg.mode == R.AoR then OnSecondHop(cfg, s, p, d) else []) + OnFirstHop(cfg, s, p, d)
  {
    if cfg.mode == R.AoR {
      RelayedPair(cfg, s, p, d);
    } else {
      DirectPair(cfg, s, p, d);
    }
  }

  lemma StateConserves(cfg: Config, s: Sys, p: Pid, d: Pid)
    requires Inv(cfg, s) && SetUp(cfg, s) && IsPair(cfg, p, d)
    ensures PairThere(cfg, s, p, d) && ExactlyOnce(cfg, s, p, d)
  {
    PairConserves(cfg, s, p, d);
    var c, next := s.chains[p], s.gates[XtxRid(cfg, p)].next;
    LedgerSplits(c, next);
    FilterMapConcat(Requests(cfg, p, d), Read(c, next), Unread(c, next));
  }

  /** In every reachable state of every mode. */
  lemma RunConserves(cfg: Config, s0: Sys, steps: seq<Step>, s: Sys, p: Pid, d: Pid)
    requires Reaches(cfg, s0, steps, s) && IsPair(cfg, p, d)
    ensures PairThere(cfg, s, p, d) && ExactlyOnce(cfg, s, p, d)
  {
    Reachable(cfg, s0, steps);
    RunSetUp(cfg, s0, steps);
    StateConserves(cfg, s, p, d);
  }

  /** End to end order: what d has committed of p's transactions is a prefix of what p has
      committed for d. */
  ghost predicate InOrder(cfg: Config, s: Sys, p: Pid, d: Pid) {
    && p in s.chains && d in s.chains
    && FilterMap(Deliveries(cfg, p, d), Committed(s.chains[d])) <= FilterMap(Requests(cfg, p, d), Committed(s.chains[p]))
  }

  /** AoR: the relay chain has committed each of them before. */
  ghost predicate InRelayOrder(cfg: Config, s: Sys, p: Pid, d: Pid) {
    && p in s.chains && d in s.chains && RELAY in s.chains
    && FilterMap(Deliveries(cfg, p, d), Committed(s.chains[d])) <= FilterMap(Relays(p, d), Committed(s.chains[RELAY]))
    && FilterMap(Relays(p, d), Committed(s.chains[RELAY])) <= FilterMap(Requests(cfg, p, d), Committed(s.chains[p]))
  }

  lemma DeliveredInOrder(cfg: Config, s0: Sys, steps: seq<Step>, p: Pid, d: Pid)
    requires Init(cfg, s0) && Run(cfg, s0, steps).Some? && IsPair(cfg, p, d)
    ensures InOrder(cfg, Run(cfg, s0, steps).value, p, d)
    ensures cfg.mode == R.AoR ==> InRelayOrder(cfg, Run(cfg, s0, steps).value, p, d)
  {
    Reachable(cfg, s0, steps);
    RunSetUp(cfg, s0, steps);
    StateInOrder(cfg, Run(cfg, s0, steps).value, p, d);
    if cfg.mode == R.AoR {
      StateInRelayOrder(cfg, Run(cfg, s0, steps).value, p, d);
    }
  }

  lemma StateInOrder(cfg: Config, s: Sys, p: Pid, d: Pid)
    requires Inv(cfg, s) && SetUp(cfg, s) && IsPair(cfg, p, d)
    ensures InOrder(cfg, s, p, d)
  {
    PairConserves(cfg, s, p, d);
    ReadIsCommitted(s.chains[p], s.gates[XtxRid(cfg, p)].next, Requests(cfg, p, d));
    CommittedInLedger(s.chains[d], Deliveries(cfg, p, d));
  }

  /** What the relay chain commits was committed by the source. */
  lemma RelayAfterSource(cfg: Config, s: Sys, p: Pid, d: Pid)
    requires Inv(cfg, s) && SetUp(cfg, s) && IsPair(cfg, p, d) && cfg.mode == R.AoR
    ensures p in s.chains && RELAY in s.chains
    ensures FilterMap(Relays(p, d), Committed(s.chains[RELAY])) <= FilterMap(Requests(cfg, p, d), Committed(s.chains[p]))
  {
    hide C.Flat, Inv, SetUp, FilterMap, Committed, Read;
    FirstHopConserves(cfg, s, p, d);
    RelaysArePayload(cfg, s, p, d);
    ReadIsCommitted(s.chains[p], s.gates[XtxRid(cfg, p)].next, Requests(cfg, p, d));
    CommittedInLedger(s.chains[RELAY], Relays(p, d));
  }

  /** What the destination commits was committed by the relay chain. */
  lemma DestinationAfterRelay(cfg: Config, s: Sys, p: Pid, d: Pid)
    requires Inv(cfg, s) && SetUp(cfg, s) && IsPair(cfg, p, d) && cfg.mode == R.AoR
    ensures d in s.chains && RELAY in s.chains
    ensures FilterMap(Deliveries(cfg, p, d), Committed(s.chains[d])) <= FilterMap(Relays(p, d), Committed(s.chains[RELAY]))
  {
    hide C.Flat, Inv, SetUp, FilterMap, Committed, Read;
    SecondHopConserves(cfg, s, p, d);
    ReadIsCommitted(s.chains[RELAY], s.gates[Rid(RELAY, R.Full)].next, Relays(p, d));
    CommittedInLedger(s.chains[d], Deliveries(cfg, p, d));
  }

  lemma StateInRelayOrder(cfg: Config, s: Sys, p: Pid, d: Pid)
    requires Inv(cfg, s) && SetUp(cfg, s) && IsPair(cfg, p, d) && cfg.mode == R.AoR
    ensures InRelayOrder(cfg, s, p, d)
  {
    hide C.Flat, Inv, SetUp, FilterMap, Committed;
    RelayAfterSource(cfg, s, p, d);
    DestinationAfterRelay(cfg, s, p, d);
  }

  function Committed(c: C.Chain): seq<Item> {
    C.Items(C.Flat(c.blocks))
  }

  lemma ReadIsCommitted<B>(c: C.Chain, next: nat, f: Item -> Option<B>)
    requires next <= |c.blocks|
    ensures FilterMap(f, Read(c, next)) <= FilterMap(f, Committed(c))
  {
    assert c.blocks == c.blocks[..next] + c.blocks[next..];
    C.FlatConcat(c.blocks[..next], c.blocks[next..]);
    C.ItemsConcat(C.Flat(c.blocks[..next]), C.Flat(c.blocks[next..]));
    FilterMapPrefix(f, Read(c, next), Committed(c));
  }

  lemma CommittedInLedger<B>(c: C.Chain, f: Item -> Option<B>)
    ensures FilterMap(f, Committed(c)) <= FilterMap(f, C.Ledger(c))
  {
    FilterMapPrefix(f, Committed(c), C.Ledger(c));
  }

  /** When nothing is under way, everything asked has been delivered. */
  lemma NothingUnderWay(cfg: Config, s: Sys, p: Pid, d: Pid)
    requires Inv(cfg, s) && SetUp(cfg, s) && IsPair(cfg, p, d) && PairThere(cfg, s, p, d)
    requires Held(LaneOf(s, XtxRid(cfg, p), FirstHop(cfg, d))) == [] && Unread(s.chains[p], s.gates[XtxRid(cfg, p)].next) == []
    requires cfg.mode == R.AoR ==>
      && Held(LaneOf(s, Rid(RELAY, R.Full), d)) == []
      && FilterMap(Relays(p, d), Unread(s.chains[RELAY], s.gates[Rid(RELAY, R.Full)].next)) == []
    ensures FilterMap(Deliveries(cfg, p, d), C.Ledger(s.chains[d])) == FilterMap(Requests(cfg, p, d), C.Ledger(s.chains[p]))
  {
    StateConserves(cfg, s, p, d);
  }
}
