/** Every cross-chain transaction is in exactly one place, and in its place of the order. */
module Order {
  import opened Wrappers
  import opened Sequences
  import opened Types
  import opened System
  import opened Invariant
  import opened Frame
  import opened Outcome
  import R = Relayer
  import C = Chain

  // ----- what a lane is there to carry -----

  /** The item that the gateway of chain src owes to dst for an item of src's ledger. */
  function Wanted(mode: R.Mode, src: Pid, dst: Pid): Item -> Option<Item> {
    (item: Item) =>
      if mode != R.AoR && item.kind == CtxSrc && item.dst == dst then Some(item.(kind := CtxDst, src := src))
      else if mode == R.AoR && dst == RELAY && item.kind == CtxSrc then Some(item.(kind := CtxInter, src := src))
      else if mode == R.AoR && dst != RELAY && item.kind == CtxInter && item.dst == dst then Some(item.(kind := CtxDst, src := src))
      else None
  }

  /** The kind of what a lane to dst carries. */
  function LaneKind(mode: R.Mode, dst: Pid): Kind {
    if mode == R.AoR && dst == RELAY then CtxInter else CtxDst
  }

  /** No CTX-INTER where a lane to the relay chain begins. */
  predicate KindsFit(mode: R.Mode, dst: Pid, item: Item) {
    mode == R.AoR && dst == RELAY ==> item.kind != CtxInter
  }

  /** One transaction is routed to dst exactly when it is wanted there, as it is wanted. */
  lemma HopWanted(mode: R.Mode, role: R.Role, src: Pid, dst: Pid, tx: Tx)
    requires dst != -1 && R.CarriesXtxs(role) && (mode == R.ToR ==> role == R.Pap)
    requires tx.status == Success && KindsFit(mode, dst, tx.item)
    ensures R.Target(mode, role, src, tx) == dst <==> Wanted(mode, src, dst)(tx.item).Some?
    ensures R.Target(mode, role, src, tx) == dst ==>
      Wanted(mode, src, dst)(tx.item).value == R.NextHop(mode, role, src, tx.item).0
    ensures R.Target(mode, role, src, tx) == dst ==> R.NextHop(mode, role, src, tx.item).0.kind == LaneKind(mode, dst)
  {
  }

  lemma {:induction false} RouteWanted(mode: R.Mode, role: R.Role, src: Pid, dst: Pid, txs: seq<Tx>, t: Time)
    requires dst != -1 && R.CarriesXtxs(role) && (mode == R.ToR ==> role == R.Pap)
    requires forall i | 0 <= i < |txs| :: txs[i].status == Success && KindsFit(mode, dst, txs[i].item)
    ensures C.Items(R.Route(mode, role, src, dst, txs, t)) == FilterMap(Wanted(mode, src, dst), C.Items(txs))
    ensures forall i | 0 <= i < |R.Route(mode, role, src, dst, txs, t)| ::
      R.Route(mode, role, src, dst, txs, t)[i].item.kind == LaneKind(mode, dst)
  {
    hide Wanted, R.Target, R.NextHop, KindsFit;
    if txs != [] {
      var n := |txs| - 1;
      RouteWanted(mode, role, src, dst, txs[..n], t);
      HopWanted(mode, role, src, dst, txs[n]);
      assert C.Items(txs)[..n] == C.Items(txs[..n]);
    }
  }

  function ItemsOf(parcels: seq<R.Parcel>): (r: seq<Item>)
    ensures |r| == |parcels| && forall i | 0 <= i < |r| :: r[i] == parcels[i].item
  {
    seq(|parcels|, i requires 0 <= i < |parcels| => parcels[i].item)
  }

  ghost predicate BlocksFit(mode: R.Mode, dst: Pid, blocks: seq<Block>) {
    forall h | 0 <= h < |blocks| :: C.BlockOk(blocks[h], h) && TxsFit(mode, dst, blocks[h].txs)
  }

  ghost predicate TxsFit(mode: R.Mode, dst: Pid, txs: seq<Tx>) {
    forall i | 0 <= i < |txs| :: KindsFit(mode, dst, txs[i].item)
  }

  lemma ItemsOfParcels(txs: seq<Tx>)
    ensures ItemsOf(R.Parcels(txs)) == C.Items(txs)
  {
  }

  lemma {:induction false} ExpectedKind(mode: R.Mode, role: R.Role, src: Pid, dst: Pid, blocks: seq<Block>, a: nat, b: nat)
    requires dst != -1 && R.CarriesXtxs(role) && (mode == R.ToR ==> role == R.Pap)
    requires b <= |blocks| && BlocksFit(mode, dst, blocks)
    ensures forall i | 0 <= i < |R.Expected(mode, role, src, dst, blocks, a, b)| ::
      R.Expected(mode, role, src, dst, blocks, a, b)[i].item.kind == LaneKind(mode, dst)
    decreases b
  {
    if a < b {
      ExpectedKind(mode, role, src, dst, blocks, a, b - 1);
      assert C.BlockOk(blocks[b - 1], b - 1) && TxsFit(mode, dst, blocks[b - 1].txs);
      RouteWanted(mode, role, src, dst, blocks[b - 1].txs, 0);
    }
  }

  /** One more block: what it adds to the parcels is what is wanted of it. */
  lemma WantedSnoc(want: Item -> Option<Item>, blocks: seq<Block>, b: Block, routed: seq<Tx>, parcels: seq<R.Parcel>)
    requires C.Items(routed) == FilterMap(want, C.Items(b.txs))
    requires ItemsOf(parcels) == FilterMap(want, C.Items(C.Flat(blocks)))
    ensures ItemsOf(parcels + R.Parcels(routed)) == FilterMap(want, C.Items(C.Flat(blocks + [b])))
  {
    ItemsOfParcels(routed);
    C.FlatSnoc(blocks, b);
    C.ItemsConcat(C.Flat(blocks), b.txs);
    FilterMapConcat(want, C.Items(C.Flat(blocks)), C.Items(b.txs));
    ItemsOfConcat(parcels, R.Parcels(routed));
  }

  lemma WantedStep(mode: R.Mode, role: R.Role, src: Pid, dst: Pid, blocks: seq<Block>, a: nat, b: nat)
    requires a < b <= |blocks|
    requires C.Items(R.Route(mode, role, src, dst, blocks[b - 1].txs, 0)) == FilterMap(Wanted(mode, src, dst), C.Items(blocks[b - 1].txs))
    requires ItemsOf(R.Expected(mode, role, src, dst, blocks, a, b - 1))
             == FilterMap(Wanted(mode, src, dst), C.Items(C.Flat(blocks[a..b - 1])))
    ensures ItemsOf(R.Expected(mode, role, src, dst, blocks, a, b))
            == FilterMap(Wanted(mode, src, dst), C.Items(C.Flat(blocks[a..b])))
  {
    hide R.Route, Wanted, FilterMap, C.Flat, C.Items, R.Parcels;
    assert blocks[a..b] == blocks[a..b - 1] + [blocks[b - 1]];
    WantedSnoc(Wanted(mode, src, dst), blocks[a..b - 1], blocks[b - 1], R.Route(mode, role, src, dst, blocks[b - 1].txs, 0),
               R.Expected(mode, role, src, dst, blocks, a, b - 1));
  }

  /** The parcels of a stretch of blocks are what is wanted of its transactions. */
  lemma {:induction false} ExpectedWanted(mode: R.Mode, role: R.Role, src: Pid, dst: Pid, blocks: seq<Block>, a: nat, b: nat)
    requires dst != -1 && R.CarriesXtxs(role) && (mode == R.ToR ==> role == R.Pap)
    requires a <= b <= |blocks| && BlocksFit(mode, dst, blocks)
    ensures ItemsOf(R.Expected(mode, role, src, dst, blocks, a, b))
            == FilterMap(Wanted(mode, src, dst), C.Items(C.Flat(blocks[a..b])))
    decreases b
  {
    hide Wanted, R.Route;
    if a < b {
      ExpectedWanted(mode, role, src, dst, blocks, a, b - 1);
      assert C.BlockOk(blocks[b - 1], b - 1) && TxsFit(mode, dst, blocks[b - 1].txs);
      RouteWanted(mode, role, src, dst, blocks[b - 1].txs, 0);
      WantedStep(mode, role, src, dst, blocks, a, b);
    } else {
      assert blocks[a..b] == [] && C.Items(C.Flat([])) == [];
    }
  }

  lemma ItemsOfConcat(a: seq<R.Parcel>, b: seq<R.Parcel>)
    ensures ItemsOf(a + b) == ItemsOf(a) + ItemsOf(b)
  {
  }

  // ----- kinds -----

  lemma {:induction false} InFlat(blocks: seq<Block>, h: nat, i: nat)
    requires h < |blocks| && i < |blocks[h].txs|
    ensures blocks[h].txs[i] in C.Flat(blocks)
  {
    var n := |blocks| - 1;
    if h < n {
      InFlat(blocks[..n], h, i);
    }
  }

  /** Nothing but the relay chain of AoR holds CTX-INTER, and no gateway sends CTX-SRC. */
  lemma ParaKinds(cfg: Config, s: Sys, d: Pid, item: Item)
    requires Inv(cfg, s) && d in s.chains && item in C.Ledger(s.chains[d])
    requires cfg.mode != R.AoR || d != RELAY
    ensures item.kind != CtxInter && (item.kind == CtxSrc ==> item.sender.User?)
  {
    assert ChainOk(cfg, d, s.chains[d]);
    assert ItemOk(cfg, d, item);
    if item.sender.Gateway? && item.kind != CtxHdr && !IsL1(item) {
      var rid := Relayed(cfg, s, d, item);
      var blocks := s.chains[rid.src].blocks;
      assert ChainOk(cfg, rid.src, s.chains[rid.src]);
      LaneKinds(cfg, rid, d, blocks, s.gates[rid].start, s.gates[rid].next, R.ParcelOf(item.call.state));
    }
  }

  lemma LaneKinds(cfg: Config, rid: Rid, d: Pid, blocks: seq<Block>, a: nat, b: nat, p: R.Parcel)
    requires ValidConfig(cfg) && IsLane(cfg, rid, d) && R.CarriesXtxs(rid.role) && a <= b <= |blocks|
    requires BlocksFit(cfg.mode, d, blocks) && p in R.Expected(cfg.mode, rid.role, rid.src, d, blocks, a, b)
    ensures p.item.kind == LaneKind(cfg.mode, d)
  {
    LaneFacts(cfg, rid, d);
    ExpectedKind(cfg.mode, rid.role, rid.src, d, blocks, a, b);
  }

  lemma SourceFits(cfg: Config, s: Sys, rid: Rid, d: Pid)
    requires Inv(cfg, s) && IsLane(cfg, rid, d)
    ensures rid.src in s.chains && C.Valid(s.chains[rid.src]) && BlocksFit(cfg.mode, d, s.chains[rid.src].blocks)
  {
    hide ItemOk, LaneOk, C.Flat;
    var c := s.chains[rid.src];
    LaneFacts(cfg, rid, d);
    assert ChainOk(cfg, rid.src, c);
    forall item | item in C.Ledger(c) ensures KindsFit(cfg.mode, d, item) {
      if cfg.mode == R.AoR && d == RELAY {
        ParaKinds(cfg, s, rid.src, item);
      }
    }
    forall h | 0 <= h < |c.blocks| ensures TxsFit(cfg.mode, d, c.blocks[h].txs) {
      forall i | 0 <= i < |c.blocks[h].txs| ensures KindsFit(cfg.mode, d, c.blocks[h].txs[i].item) {
        InFlat(c.blocks, h, i);
        var k :| 0 <= k < |C.Flat(c.blocks)| && C.Flat(c.blocks)[k] == c.blocks[h].txs[i];
        assert C.Ledger(c)[k] == c.blocks[h].txs[i].item;
      }
    }
  }

  /** On the relay chain of AoR everything relayed is CTX-INTER. */
  lemma RelayKinds(cfg: Config, s: Sys, item: Item)
    requires Inv(cfg, s) && cfg.mode == R.AoR && RELAY in s.chains && item in C.Ledger(s.chains[RELAY])
    ensures item.sender.User? ==> item.kind == Ordinary
    ensures item.sender.Gateway? && item.kind != CtxHdr ==> item.kind == CtxInter
  {
    assert ChainOk(cfg, RELAY, s.chains[RELAY]);
    assert ItemOk(cfg, RELAY, item);
    if item.sender.Gateway? && item.kind != CtxHdr {
      var rid := Relayed(cfg, s, RELAY, item);
      LaneFacts(cfg, rid, RELAY);
      SourceFits(cfg, s, rid, RELAY);
      LaneKinds(cfg, rid, RELAY, s.chains[rid.src].blocks, s.gates[rid].start, s.gates[rid].next, R.ParcelOf(item.call.state));
    }
  }
}
