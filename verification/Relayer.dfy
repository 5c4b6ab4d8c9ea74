/** The gateway (relayer) of one source chain: which headers and transactions it forwards to
    which destination, and the consumer that waits for headers before it sends. */
module Relayer {
  import opened Wrappers
  import opened Types

  datatype Mode = NoR | AoR | ToR

  /** Full carries headers and transactions; in ToR a PAR gateway carries headers only, a PAP
      gateway transactions only. */
  datatype Role = Full | Par | Pap

  predicate CarriesHeaders(role: Role) {
    role != Pap
  }

  predicate CarriesXtxs(role: Role) {
    role != Par
  }

  // ----- routing -----

  predicate IsXtx(tx: Tx) {
    tx.item.kind == CtxSrc || tx.item.kind == CtxInter
  }

  /** The memo rewritten for the next hop, and the chain it goes to; -1 for none. */
  function NextHop(mode: Mode, role: Role, src: Pid, item: Item): (Item, Pid) {
    if mode == NoR || (mode == ToR && role == Pap) then
      if item.kind == CtxSrc then (item.(kind := CtxDst, src := src), item.dst) else (item, -1)
    else if mode == AoR then
      if item.kind == CtxSrc then (item.(kind := CtxInter, src := src), RELAY)
      else if item.kind == CtxInter then (item.(kind := CtxDst, src := src), item.dst)
      else (item, -1)
    else (item, -1)
  }

  function Heard(tx: Tx, item: Item, t: Time): Tx {
    tx.(item := item, trace := tx.trace.(relayer := tx.trace.relayer + [Mark(Listened, t)]))
  }

  /** The destination queue that a committed transaction is put in, -1 for none. */
  function Target(mode: Mode, role: Role, src: Pid, tx: Tx): Pid {
    if role == Par || !IsXtx(tx) || tx.status != Success then -1 else NextHop(mode, role, src, tx.item).1
  }

  /** What the transactions of one block add to the queue of destination dst. */
  function Route(mode: Mode, role: Role, src: Pid, dst: Pid, txs: seq<Tx>, t: Time): seq<Tx> {
    if txs == [] then []
    else
      var n := |txs| - 1;
      var tx := txs[n];
      var hop := NextHop(mode, role, src, tx.item);
      Route(mode, role, src, dst, txs[..n], t)
      + if Target(mode, role, src, tx) == dst && dst != -1 then [Heard(tx, hop.0, t)] else []
  }

  /** Whatever is queued for dst is a successful cross-chain transaction that goes there next, with its memo
      rewritten and marked with the time of listening. */
  lemma {:induction false} RoutedFrom(mode: Mode, role: Role, src: Pid, dst: Pid, txs: seq<Tx>, t: Time, i: nat) returns (k: nat)
    requires i < |Route(mode, role, src, dst, txs, t)|
    ensures k < |txs| && txs[k].status == Success && (txs[k].item.kind == CtxSrc || txs[k].item.kind == CtxInter)
    ensures role != Par && NextHop(mode, role, src, txs[k].item).1 == dst
    ensures Route(mode, role, src, dst, txs, t)[i]
            == txs[k].(item := NextHop(mode, role, src, txs[k].item).0,
                       trace := txs[k].trace.(relayer := txs[k].trace.relayer + [Mark(Listened, t)]))
  {
    var n := |txs| - 1;
    if i < |Route(mode, role, src, dst, txs[..n], t)| {
      k := RoutedFrom(mode, role, src, dst, txs[..n], t, i);
    } else {
      k := n;
    }
  }

  /** A PAR gateway carries no transactions. */
  lemma {:induction false} ParRoutesNothing(mode: Mode, src: Pid, dst: Pid, txs: seq<Tx>, t: Time)
    ensures Route(mode, Par, src, dst, txs, t) == []
  {
    if txs != [] {
      ParRoutesNothing(mode, src, dst, txs[..|txs| - 1], t);
    }
  }

  /** The destinations that get the header of every block. */
  function HeaderTargets(mode: Mode, role: Role, srcIsInter: bool, dsts: seq<Pid>): seq<Pid> {
    if mode == NoR then dsts
    else if mode == AoR || role == Par then
      if srcIsInter then dsts else [RELAY]
    else []
  }

  // ----- one destination -----

  /** Where the consumer of a transaction queue is: idle; waiting for the relay chain to hold
      the source header (PAP only); waiting for the destination to sync height `target`; or
      cleared to send. `xtx` is the queue entry, `tx` the transaction built from it. */
  datatype Pc =
    | Idle
    | Waiting(xtx: Tx, tx: Tx)
    | Confirmed(xtx: Tx, tx: Tx, target: nat)
    | Cleared(xtx: Tx, tx: Tx)

  datatype Lane = Lane(
    headerQ: seq<Header>,
    headerAlive: bool,
    xtxQ: seq<Tx>,
    pc: Pc,
    xtxAlive: bool,
    synced: nat,
    syncedInter: nat,
    csMemo: map<nat, nat>,
    l1Sent: set<nat>)

  const NEW_LANE := Lane([], true, [], Idle, true, 0, 0, map[], {})

  /** The two ends of a lane, and the classes that the built calls name. */
  datatype Link = Link(mode: Mode, role: Role, src: Pid, srcClass: ChainClass, dst: Pid, dstClass: ChainClass, interClass: ChainClass)

  function Who(link: Link): Sender {
    Gateway(link.src, link.dst)
  }

  function NewTx(item: Item, trace: Trace): Tx {
    Tx(item, trace, 0, Invalid, NoOut)
  }

  function HeaderItem(link: Link, header: Header): Item {
    Item(Who(link), HeaderSync(link.src, link.srcClass, header.height, header), true, CtxHdr, link.src, -1)
  }

  /** In ToR the source class of a heterogeneous pair is replaced by Simple. */
  function StateClass(link: Link): ChainClass {
    if link.mode == ToR && link.srcClass != link.dstClass then Simple else link.srcClass
  }

  function XtxItem(link: Link, xtx: Tx): Item {
    Item(Who(link), ValidateState(link.src, StateClass(link), xtx.height, xtx), true, xtx.item.kind, xtx.item.src, xtx.item.dst)
  }

  function L1Item(link: Link, csHeight: nat, xtx: Tx): Item {
    Item(Who(link), ValidateState(RELAY, link.interClass, csHeight, xtx), true, CtxDstL1, -1, link.dst)
  }

  function Marked(tx: Tx, tag: Tag, t: Time): Tx {
    tx.(trace := tx.trace.(relayer := tx.trace.relayer + [Mark(tag, t)]))
  }

  /** The chain whose headers the destination must hold before a send. */
  function Watched(link: Link): Pid {
    if link.role == Pap then RELAY else link.src
  }

  predicate CanTake(l: Lane) {
    l.xtxAlive && l.pc.Idle? && l.xtxQ != []
  }

  /** Takes the next transaction and builds the one to send. */
  function Take(link: Link, l: Lane, t: Time): Lane
    requires CanTake(l)
  {
    var xtx := l.xtxQ[0];
    var tx := Marked(NewTx(XtxItem(link, xtx), xtx.trace), Ready, t);
    l.(xtxQ := l.xtxQ[1..], pc := if link.role == Pap then Waiting(xtx, tx) else Confirmed(xtx, tx, xtx.height))
  }

  predicate CanPollInter(l: Lane) {
    l.xtxAlive && l.pc.Waiting? && l.syncedInter < l.pc.xtx.height
  }

  function PollInter(l: Lane, maxn: nat): Lane
    requires CanPollInter(l)
  {
    l.(syncedInter := maxn)
  }

  predicate CanLookup(l: Lane) {
    l.xtxAlive && l.pc.Waiting? && l.syncedInter >= l.pc.xtx.height
  }

  predicate Memoised(l: Lane, height: nat) {
    height in l.csMemo && l.csMemo[height] != 0
  }

  /** Reads, or remembers, the relay-chain height that confirmed the source header; a failing
      query ends the consumer. */
  function Lookup(l: Lane, answer: Option<nat>): Lane
    requires CanLookup(l)
  {
    var h := l.pc.xtx.height;
    if Memoised(l, h) then l.(pc := Confirmed(l.pc.xtx, l.pc.tx, l.csMemo[h]))
    else if answer.None? then l.(xtxAlive := false)
    else l.(csMemo := l.csMemo[h := answer.value], pc := Confirmed(l.pc.xtx, l.pc.tx, answer.value))
  }

  predicate CanPollDst(l: Lane) {
    l.xtxAlive && l.pc.Confirmed? && l.synced < l.pc.target
  }

  function PollDst(l: Lane, maxn: nat): Lane
    requires CanPollDst(l)
  {
    l.(synced := maxn)
  }

  predicate CanClear(l: Lane) {
    l.xtxAlive && l.pc.Confirmed? && l.synced >= l.pc.target
  }

  /** Whether an L1 transaction goes out before the first transaction of this source height. */
  predicate NeedsL1(link: Link, l: Lane)
    requires l.pc.Confirmed?
  {
    link.role == Pap && l.pc.xtx.height !in l.l1Sent
  }

  function Clear(link: Link, l: Lane): Lane
    requires CanClear(l)
  {
    l.(pc := Cleared(l.pc.xtx, l.pc.tx), l1Sent := if link.role == Pap then l.l1Sent + {l.pc.xtx.height} else l.l1Sent)
  }

  predicate CanSend(l: Lane) {
    l.xtxAlive && l.pc.Cleared?
  }

  /** The transaction on the wire. */
  function Outgoing(l: Lane, t: Time): Tx
    requires CanSend(l)
  {
    Marked(l.pc.tx, Send, t)
  }

  function Sent(l: Lane): Lane {
    l.(pc := Idle)
  }

  // ----- views -----

  /** What of a forwarded transaction the forwarding preserves. */
  datatype Parcel = Parcel(item: Item, height: nat)

  function ParcelOf(tx: Tx): Parcel {
    Parcel(tx.item, tx.height)
  }

  function Parcels(txs: seq<Tx>): (r: seq<Parcel>)
    ensures |r| == |txs|
    ensures forall i | 0 <= i < |r| :: r[i] == ParcelOf(txs[i])
  {
    seq(|txs|, i requires 0 <= i < |txs| => ParcelOf(txs[i]))
  }

  /** The parcels for dst in blocks a to b - 1 of the source. */
  function Expected(mode: Mode, role: Role, src: Pid, dst: Pid, blocks: seq<Block>, a: nat, b: nat): seq<Parcel>
    requires b <= |blocks|
    decreases b
  {
    if b <= a then []
    else Expected(mode, role, src, dst, blocks, a, b - 1) + Parcels(Route(mode, role, src, dst, blocks[b - 1].txs, 0))
  }

  function InHand(pc: Pc): seq<Parcel> {
    if pc.Idle? then [] else [ParcelOf(pc.xtx)]
  }

  /** The headers of blocks a to b - 1. */
  function Headers(blocks: seq<Block>, a: nat, b: nat): (r: seq<Header>)
    requires a <= b <= |blocks|
    ensures |r| == b - a
    ensures forall i | 0 <= i < |r| :: r[i] == Types.HeaderOf(blocks[a + i])
  {
    seq(b - a, i requires 0 <= i < b - a => Types.HeaderOf(blocks[a + i]))
  }

  /** The time of listening does not matter to the parcels. */
  lemma {:induction false} RouteParcels(mode: Mode, role: Role, src: Pid, dst: Pid, txs: seq<Tx>, t: Time, u: Time)
    ensures Parcels(Route(mode, role, src, dst, txs, t)) == Parcels(Route(mode, role, src, dst, txs, u))
  {
    if txs != [] {
      RouteParcels(mode, role, src, dst, txs[..|txs| - 1], t, u);
    }
  }

  /** Only the blocks read so far matter. */
  lemma {:induction false} ExpectedOfPrefix(mode: Mode, role: Role, src: Pid, dst: Pid, blocks: seq<Block>, blocks': seq<Block>, a: nat, b: nat)
    requires b <= |blocks| && blocks <= blocks'
    ensures Expected(mode, role, src, dst, blocks, a, b) == Expected(mode, role, src, dst, blocks', a, b)
    decreases b
  {
    hide Route, Parcels;
    if a < b {
      ExpectedOfPrefix(mode, role, src, dst, blocks, blocks', a, b - 1);
    }
  }
}
