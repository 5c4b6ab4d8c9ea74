/** What becomes of relayed transactions on chains that have a type: headers and states are
    stored, under the height and chain that they name. */
module Stored {
  import opened Wrappers
  import opened Types
  import opened System
  import opened Invariant
  import opened Frame
  import opened GatewaySteps
  import opened Outcome
  import opened StatusFilter
  import opened StateLogs
  import Halting
  import Safety
  import LightClient
  import R = Relayer
  import C = Chain

  /** A header synchronisation on d names the class of its source. */
  lemma HeaderClass(cfg: Config, s: Sys, d: Pid, item: Item)
    requires Inv(cfg, s) && d in s.chains && item in C.Ledger(s.chains[d])
    requires item.sender.Gateway? && item.kind == CtxHdr
    ensures item.call.HeaderSync? && IsLane(cfg, SyncRid(cfg, item.call.pid), d) && item.call.class_ == ClassOf(cfg, item.call.pid)
  {
    var c := s.chains[d];
    assert ChainOk(cfg, d, c);
    var i :| 0 <= i < |C.Ledger(c)| && C.Ledger(c)[i] == item;
    assert ItemOk(cfg, d, item);
    var rid := SyncRid(cfg, item.call.pid);
    assert LaneThere(cfg, s, rid, d);
    LaneParts(cfg, s, rid, d);
    LaneFacts(cfg, rid, d);
    HeaderClassIn(LinkOf(cfg, rid, d), s.chains[rid.src].blocks, s.gates[rid].start, s.gates[rid].next,
                  LaneOf(s, rid, d).headerAlive, LaneOf(s, rid, d).headerQ, C.Ledger(c), item);
  }

  lemma HeaderClassIn(link: R.Link, blocks: seq<Block>, start: nat, next: nat, alive: bool, queue: seq<Header>, ledger: seq<Item>, item: Item)
    requires HeadersFlow(link, blocks, start, next, alive, queue, Pick(Sync(link.src, link.dst), ledger))
    requires item in ledger && Match(Sync(link.src, link.dst), item) && R.CarriesHeaders(link.role)
    ensures item.call.HeaderSync? && item.call.class_ == link.srcClass
  {
    PickComplete(Sync(link.src, link.dst), ledger, item);
    var i :| 0 <= i < |Pick(Sync(link.src, link.dst), ledger)| && Pick(Sync(link.src, link.dst), ledger)[i] == item;
  }

  /** A relayed state on d names a class that a verification delay exists for, on a chain of d's
      class. */
  lemma StateDelay(cfg: Config, s: Sys, d: Pid, item: Item)
    requires Inv(cfg, s) && d in s.chains && item in C.Ledger(s.chains[d])
    requires item.sender.Gateway? && item.kind != CtxHdr
    ensures item.call.ValidateState? && LightClient.HasDelay(ClassOf(cfg, d), item.call.class_, LightClient.StatePart)
  {
    var rid := Relayed(cfg, s, d, item);
    DelaysExist(cfg, rid, d);
  }

  /** The part that a relayed call is about. */
  function PartOf(item: Item): LightClient.Part {
    if item.kind == CtxHdr then LightClient.HeaderPart else LightClient.StatePart
  }

  /** The class that a relayed call names. */
  function ClassNamed(call: Call): ChainClass {
    if call.HeaderSync? then call.class_ else if call.ValidateState? then call.class_ else Simple
  }

  /** What the client holds of the call: its header, or its state as the n-th of its log. */
  predicate InStore(c: LightClient.Client, call: Call, n: nat) {
    if call.HeaderSync? then (call.pid, call.height) in c.headers && c.headers[(call.pid, call.height)].header == call.header
    else
      call.ValidateState?
      && var log := LightClient.StateLog(c, call.pid, call.height);
         n < |log| && log[n] == call.state
  }

  /** Executing the call has put it in the store: its header, or its state at the end of its log. */
  predicate Stores(c: LightClient.Client, c': LightClient.Client, call: Call) {
    if call.HeaderSync? then InStore(c', call, 0)
    else
      call.ValidateState?
      && LightClient.StateLog(c', call.pid, call.height) == LightClient.StateLog(c, call.pid, call.height) + [call.state]
  }

  /** What the answer says of it. */
  predicate AnswersStored(call: Call, out: Out) {
    if call.HeaderSync? then out == HeaderStored(call.pid, call.height)
    else call.ValidateState? && out.StateStored? && out.pid == call.pid && out.height == call.height && out.idx >= 1
  }

  /** In ToR the forwarded transaction does not find its header. */
  predicate Forwarded(cfg: Config, item: Item) {
    cfg.mode == R.ToR && item.kind != CtxHdr && !IsL1(item)
  }

  /** A relayed transaction is answered as stored exactly when its chain, at that moment, has a type for which
      the delay exists, and it is not a forwarded one of ToR. */
  lemma GuardOfRelayed(cfg: Config, s: Sys, d: Pid, item: Item, out: Out)
    requires Inv(cfg, s) && d in s.chains && item in C.Ledger(s.chains[d]) && item.sender.Gateway?
    requires Shows(s.chains[d].client, item.call, out)
    ensures var own := s.chains[d].client.paratype;
      AnswersStored(item.call, out)
      <==> !Forwarded(cfg, item) && own.Some? && LightClient.HasDelay(own.value, ClassNamed(item.call), PartOf(item))
  {
    if item.kind == CtxHdr {
      HeaderClass(cfg, s, d, item);
    } else {
      HeaderThere(cfg, s, d, item);
    }
  }

  /** On a chain of the class of its configuration the delay exists. */
  lemma RelayedHasDelay(cfg: Config, s: Sys, d: Pid, item: Item)
    requires Inv(cfg, s) && d in s.chains && item in C.Ledger(s.chains[d]) && item.sender.Gateway?
    ensures LightClient.HasDelay(ClassOf(cfg, d), ClassNamed(item.call), PartOf(item))
  {
    if item.kind == CtxHdr {
      HeaderClass(cfg, s, d, item);
      DelaysExist(cfg, SyncRid(cfg, item.call.pid), d);
    } else {
      StateDelay(cfg, s, d, item);
    }
  }

  // ----- what is in the store -----

  /** An executed header synchronisation of a gateway has its header in the store, in this and in every
      later state. */
  lemma HeaderKept(cfg: Config, s: Sys, d: Pid, item: Item)
    requires Inv(cfg, s) && d in s.chains && s.chains[d].idx <= |C.Proposed(s.chains[d])| && item in C.Executed(s.chains[d])
    requires item.sender.Gateway? && item.kind == CtxHdr
    ensures InStore(s.chains[d].client, item.call, 0)
  {
    hide C.Flat;
    var c := s.chains[d];
    assert ChainOk(cfg, d, c);
    C.ExecutedIsPrefix(c);
    assert C.Ledger(c) == C.Executed(c) + C.Ledger(c)[|C.Executed(c)|..];
    HeaderClass(cfg, s, d, item);
    var rid := SyncRid(cfg, item.call.pid);
    LaneFacts(cfg, rid, d);
    SenderIs(cfg, s, d, item);
    Safety.LaneHeadersSynced(cfg, s, item.call.pid, d);
    LaneParts(cfg, s, rid, d);
    InvChain(cfg, s, rid.src);
    HeaderKeptIn(LinkOf(cfg, rid, d), s.chains[rid.src].blocks, s.gates[rid].start, s.gates[rid].next, LaneOf(s, rid, d).headerAlive,
                 LaneOf(s, rid, d).headerQ, c, C.Executed(c), C.Ledger(c)[|C.Executed(c)|..], s.gates[SyncRid(cfg, d)].start, item);
  }

  lemma SenderIs(cfg: Config, s: Sys, d: Pid, item: Item)
    requires Inv(cfg, s) && d in s.chains && item in C.Ledger(s.chains[d]) && item.sender.Gateway? && item.kind == CtxHdr
    ensures item.call.HeaderSync? && item.sender == Gateway(item.call.pid, d)
  {
    assert ChainOk(cfg, d, s.chains[d]);
    var i :| 0 <= i < |C.Ledger(s.chains[d])| && C.Ledger(s.chains[d])[i] == item;
    assert ItemOk(cfg, d, item);
  }

  lemma HeaderKeptIn(link: R.Link, blocks: seq<Block>, start: nat, next: nat, alive: bool, queue: seq<Header>, c: C.Chain,
                     done: seq<Item>, rest: seq<Item>, born: nat, item: Item)
    requires R.CarriesHeaders(link.role) && HeadersFlow(link, blocks, start, next, alive, queue, Pick(Sync(link.src, link.dst), done + rest))
    requires HeadersSynced(link, blocks, start, c, |Pick(Sync(link.src, link.dst), done)|, born)
    requires item in done && Match(Sync(link.src, link.dst), item) && forall h | 0 <= h < |blocks| :: C.BlockOk(blocks[h], h)
    ensures InStore(c.client, item.call, 0)
  {
    hide HeadersSynced, HeadersFlow, Pick, Match, InStore;
    var sel := Sync(link.src, link.dst);
    PickComplete(sel, done, item);
    PickConcat(sel, done, rest);
    var i :| 0 <= i < |Pick(sel, done)| && Pick(sel, done)[i] == item;
    SentIsOwn(link, blocks, start, next, alive, queue, Pick(sel, done + rest), i);
    HeaderAt(link, blocks, start, c, |Pick(sel, done)|, born, start + i);
    assert C.BlockOk(blocks[start + i], start + i);
    OwnIsInStore(c.client, link, HeaderOf(blocks[start + i]));
  }

  lemma SentIsOwn(link: R.Link, blocks: seq<Block>, start: nat, next: nat, alive: bool, queue: seq<Header>, onDst: seq<Item>, i: nat)
    requires R.CarriesHeaders(link.role) && HeadersFlow(link, blocks, start, next, alive, queue, onDst) && i < |onDst|
    ensures start + i < |blocks| && blocks != [] && onDst[i] == R.HeaderItem(link, HeaderOf(blocks[start + i]))
  {
  }

  lemma OwnIsInStore(c: LightClient.Client, link: R.Link, header: Header)
    requires (link.src, header.height) in c.headers && c.headers[(link.src, header.height)].header == header
    ensures InStore(c, R.HeaderItem(link, header).call, 0)
  {
  }

  lemma HeaderAt(link: R.Link, blocks: seq<Block>, start: nat, c: C.Chain, executed: nat, born: nat, h: nat)
    requires HeadersSynced(link, blocks, start, c, executed, born) && start <= h < start + executed
    ensures h < |blocks| && (link.src, h) in c.client.headers
    ensures c.client.headers[(link.src, h)].header == HeaderOf(blocks[h])
  {
    hide InBlock;
    assert (link.src, h) in c.client.headers;
    assert RecordOk(link, blocks[h], c, h, born);
  }

  // ----- over runs -----

  /** Step k does not set the type of p to another class than the configured one. */
  ghost predicate KeepsType(cfg: Config, s0: Sys, steps: seq<Step>, k: nat, p: Pid)
    requires k < |steps|
  {
    var before := Run(cfg, s0, steps[..k]);
    steps[k] == Exec(p) && before.Some? && p in before.value.chains && C.CanExec(before.value.chains[p])
    && C.Current(before.value.chains[p]).item.call.SetParaType?
    ==> C.Current(before.value.chains[p]).item.call.paratype == ClassOf(cfg, p)
  }

  lemma StepType(cfg: Config, s: Sys, st: Step, p: Pid)
    requires Enabled(cfg, s, st) && p in s.chains && s.chains[p].client.paratype == Some(ClassOf(cfg, p))
    requires st == Exec(p) && C.Current(s.chains[p]).item.call.SetParaType? ==>
      C.Current(s.chains[p]).item.call.paratype == ClassOf(cfg, p)
    ensures p in Apply(cfg, s, st).chains && Apply(cfg, s, st).chains[p].client.paratype == Some(ClassOf(cfg, p))
  {
    if st == Exec(p) {
      ExecSetsType(s.chains[p]);
    } else {
      ClientStays(cfg, s, st, p);
    }
  }

  lemma {:induction false} TypeKept(cfg: Config, s0: Sys, steps: seq<Step>, p: Pid)
    requires Run(cfg, s0, steps).Some? && p in s0.chains && s0.chains[p].client.paratype == Some(ClassOf(cfg, p))
    requires forall k | 0 <= k < |steps| :: KeepsType(cfg, s0, steps, k, p)
    ensures p in Run(cfg, s0, steps).value.chains
    ensures Run(cfg, s0, steps).value.chains[p].client.paratype == Some(ClassOf(cfg, p))
    decreases |steps|
  {
    if steps != [] {
      var n := |steps| - 1;
      Halting.LastStep(cfg, s0, steps, Run(cfg, s0, steps).value);
      forall k | 0 <= k < n ensures KeepsType(cfg, s0, steps[..n], k, p) {
        assert KeepsType(cfg, s0, steps, k, p) && steps[..n][..k] == steps[..k];
      }
      TypeKept(cfg, s0, steps[..n], p);
      assert KeepsType(cfg, s0, steps, n, p);
      StepType(cfg, Run(cfg, s0, steps[..n]).value, steps[n], p);
    }
  }

  /** Every relayed transaction that d has executed was executed by a step of the run. That step put it
      in the store if and only if it is not a forwarded one of ToR, which changed nothing; and what was
      put there still is. It was answered as stored if and only if d moreover had, at that step, a type
      for which the delay exists. */
  lemma RelayedStored(cfg: Config, s0: Sys, steps: seq<Step>, s: Sys, d: Pid, i: nat) returns (k: nat)
    requires Ran(cfg, s0, steps, s, d) && i < |Done(s.chains[d])| && Done(s.chains[d])[i].item.sender.Gateway?
    ensures k < |steps| && Run(cfg, s0, steps[..k]).Some? && d in Run(cfg, s0, steps[..k]).value.chains && steps[k] == Exec(d)
    ensures Run(cfg, s0, steps[..k + 1]).Some? && d in Run(cfg, s0, steps[..k + 1]).value.chains
    ensures var tx, c, c' := Done(s.chains[d])[i], Run(cfg, s0, steps[..k]).value.chains[d].client, Run(cfg, s0, steps[..k + 1]).value.chains[d].client;
      && (Stores(c, c', tx.item.call) <==> !Forwarded(cfg, tx.item))
      && (Forwarded(cfg, tx.item) ==> c' == c)
      && (AnswersStored(tx.item.call, tx.out)
          <==> !Forwarded(cfg, tx.item) && c.paratype.Some? && LightClient.HasDelay(c.paratype.value, ClassNamed(tx.item.call), PartOf(tx.item)))
      && LightClient.HasDelay(ClassOf(cfg, d), ClassNamed(tx.item.call), PartOf(tx.item))
    ensures |Done(s0.chains[d])| <= i
    ensures !Forwarded(cfg, Done(s.chains[d])[i].item) ==> KeptInStore(s0, s, d, i)
  {
    hide C.Flat, Stores, AnswersStored, Forwarded, KeptInStore, ExecutedBy, Run, Init;
    StartsWithUsers(cfg, s0, steps, s, d, i);
    k := ExecutedWhen(cfg, s0, steps, s, d, i);
    AnsweredAt(cfg, s0, steps, d, i, Done(s.chains[d])[i], k);
    StoredAt(cfg, s0, steps, d, i, Done(s.chains[d])[i], k);
    StaysStored(cfg, s0, steps, s, d, i);
  }

  /** The transaction is in the store, a state at its place of the log. */
  ghost predicate KeptInStore(s0: Sys, s: Sys, d: Pid, i: nat)
    requires d in s0.chains && d in s.chains && s0.chains[d].idx <= |C.Proposed(s0.chains[d])| && s.chains[d].idx <= |C.Proposed(s.chains[d])|
    requires |Done(s0.chains[d])| <= i < |Done(s.chains[d])|
  {
    var call := Done(s.chains[d])[i].item.call;
    InStore(s.chains[d].client, call, if call.ValidateState? then Position(s0, s, d, i, call.pid, call.height) else 0)
  }

  lemma AnsweredAt(cfg: Config, s0: Sys, steps: seq<Step>, d: Pid, i: nat, tx: Tx, k: nat)
    requires Init(cfg, s0) && ExecutedBy(cfg, s0, steps, k, d, i, tx) && tx.item.sender.Gateway?
    ensures var own := Run(cfg, s0, steps[..k]).value.chains[d].client.paratype;
      && (AnswersStored(tx.item.call, tx.out)
          <==> !Forwarded(cfg, tx.item) && own.Some? && LightClient.HasDelay(own.value, ClassNamed(tx.item.call), PartOf(tx.item)))
      && LightClient.HasDelay(ClassOf(cfg, d), ClassNamed(tx.item.call), PartOf(tx.item))
  {
    var before := Run(cfg, s0, steps[..k]).value;
    Reachable(cfg, s0, steps[..k]);
    assert ChainOk(cfg, d, before.chains[d]);
    C.ExecKeeps(before.chains[d]);
    assert tx.item in C.Ledger(before.chains[d]);
    GuardOfRelayed(cfg, before, d, tx.item, tx.out);
    RelayedHasDelay(cfg, before, d, tx.item);
  }

  /** What the step did to the store. */
  lemma StoredAt(cfg: Config, s0: Sys, steps: seq<Step>, d: Pid, i: nat, tx: Tx, k: nat)
    requires Init(cfg, s0) && Run(cfg, s0, steps).Some? && ExecutedBy(cfg, s0, steps, k, d, i, tx) && tx.item.sender.Gateway?
    ensures k < |steps| && Run(cfg, s0, steps[..k]).Some? && d in Run(cfg, s0, steps[..k]).value.chains && steps[k] == Exec(d)
    ensures Run(cfg, s0, steps[..k + 1]).Some? && d in Run(cfg, s0, steps[..k + 1]).value.chains
    ensures var c, c' := Run(cfg, s0, steps[..k]).value.chains[d].client, Run(cfg, s0, steps[..k + 1]).value.chains[d].client;
      (Stores(c, c', tx.item.call) <==> !Forwarded(cfg, tx.item)) && (Forwarded(cfg, tx.item) ==> c' == c)
  {
    hide C.Flat, Inv, Run;
    var before := Run(cfg, s0, steps[..k]).value;
    RunPrefix(cfg, s0, steps, k + 1);
    assert steps[..k + 1][..k] == steps[..k];
    Halting.LastStep(cfg, s0, steps[..k + 1], Run(cfg, s0, steps[..k + 1]).value);
    Reachable(cfg, s0, steps[..k]);
    Reachable(cfg, s0, steps[..k + 1]);
    StepStores(cfg, before, d, tx.item);
  }

  lemma {:induction false} RunPrefix(cfg: Config, s0: Sys, steps: seq<Step>, k: nat)
    requires Run(cfg, s0, steps).Some? && k <= |steps|
    ensures Run(cfg, s0, steps[..k]).Some?
    decreases |steps|
  {
    if k < |steps| {
      RunPrefix(cfg, s0, steps[..|steps| - 1], k);
      assert steps[..|steps| - 1][..k] == steps[..k];
    } else {
      assert steps[..k] == steps;
    }
  }

  lemma StepStores(cfg: Config, s: Sys, d: Pid, item: Item)
    requires Inv(cfg, s) && Enabled(cfg, s, Exec(d)) && Inv(cfg, Apply(cfg, s, Exec(d)))
    requires C.Finishes(s.chains[d]) && item == C.Current(s.chains[d]).item && item.sender.Gateway?
    ensures var c, c' := s.chains[d].client, C.ExecStep(s.chains[d]).client;
      (Stores(c, c', item.call) <==> !Forwarded(cfg, item)) && (Forwarded(cfg, item) ==> c' == c)
  {
    hide C.Flat;
    var c := s.chains[d];
    InvChain(cfg, s, d);
    C.ExecKeeps(c);
    assert item in C.Ledger(c);
    if item.kind == CtxHdr {
      var s' := Apply(cfg, s, Exec(d));
      HeaderClass(cfg, s, d, item);
      InvChain(cfg, s', d);
      assert C.Executed(s'.chains[d])[|C.Executed(c)|] == item;
      HeaderKept(cfg, s', d, item);
    } else {
      HeaderThere(cfg, s, d, item);
      var call := item.call;
      LightClient.ValidationIsLogged(c.client, call.pid, call.class_, call.height, call.state, c.ctx.value.height);
    }
  }

  lemma StaysStored(cfg: Config, s0: Sys, steps: seq<Step>, s: Sys, d: Pid, i: nat)
    requires Ran(cfg, s0, steps, s, d) && |Done(s0.chains[d])| <= i < |Done(s.chains[d])| && Done(s.chains[d])[i].item.sender.Gateway?
    ensures !Forwarded(cfg, Done(s.chains[d])[i].item) ==> KeptInStore(s0, s, d, i)
  {
    hide C.Flat, Position, Inv;
    var tx, c := Done(s.chains[d])[i], s.chains[d];
    Reachable(cfg, s0, steps);
    InvChain(cfg, s, d);
    assert C.Executed(c)[i] == tx.item;
    if tx.item.kind == CtxHdr {
      HeaderKept(cfg, s, d, tx.item);
      SenderIs(cfg, s, d, C.Ledger(c)[i]);
    } else if !Forwarded(cfg, tx.item) {
      RelayedAnswers(cfg, s0, steps);
      assert AnswerOk(cfg, tx);
      StateIsKept(cfg, s0, steps, s, d, i);
    }
  }

  /** What was executed before the gateways started is of users. */
  lemma StartsWithUsers(cfg: Config, s0: Sys, steps: seq<Step>, s: Sys, d: Pid, i: nat)
    requires Ran(cfg, s0, steps, s, d) && i < |Done(s.chains[d])| && Done(s.chains[d])[i].item.sender.Gateway?
    ensures |Done(s0.chains[d])| <= i
  {
    if i < |Done(s0.chains[d])| {
      OldIsOfUsers(cfg, s0, steps, s, d, i);
    }
  }

  lemma OldIsOfUsers(cfg: Config, s0: Sys, steps: seq<Step>, s: Sys, d: Pid, i: nat)
    requires Ran(cfg, s0, steps, s, d) && i < |Done(s0.chains[d])|
    ensures i < |Done(s.chains[d])| && Done(s.chains[d])[i].item.sender.User?
  {
    DoneKept(cfg, s0, steps, s, d);
    assert InitChain(cfg, d, s0.chains[d]);
    assert Done(s.chains[d])[i].item == C.Ledger(s0.chains[d])[i];
  }

  lemma {:induction false} DoneKept(cfg: Config, s0: Sys, steps: seq<Step>, s: Sys, d: Pid)
    requires Ran(cfg, s0, steps, s, d)
    ensures Kept(Done(s0.chains[d]), Done(s.chains[d]))
    decreases |steps|
  {
    if steps != [] {
      var mid := RanFront(cfg, s0, steps, s, d);
      DoneKept(cfg, s0, steps[..|steps| - 1], mid, d);
      StepDone(cfg, mid, steps[|steps| - 1], d);
    }
  }

  /** When a chain has its configured type from the start and nobody sets another, every relayed
      transaction that it executed was answered as stored and is in the store, except the forwarded ones
      of ToR. */
  lemma AllStored(cfg: Config, s0: Sys, steps: seq<Step>, s: Sys, d: Pid, i: nat)
    requires Ran(cfg, s0, steps, s, d) && i < |Done(s.chains[d])| && Done(s.chains[d])[i].item.sender.Gateway?
    requires s0.chains[d].client.paratype == Some(ClassOf(cfg, d))
    requires forall k | 0 <= k < |steps| :: KeepsType(cfg, s0, steps, k, d)
    ensures AnswersStored(Done(s.chains[d])[i].item.call, Done(s.chains[d])[i].out) <==> !Forwarded(cfg, Done(s.chains[d])[i].item)
    ensures |Done(s0.chains[d])| <= i && (!Forwarded(cfg, Done(s.chains[d])[i].item) ==> KeptInStore(s0, s, d, i))
  {
    hide C.Flat, KeptInStore, Stores;
    var k := RelayedStored(cfg, s0, steps, s, d, i);
    forall j | 0 <= j < k ensures KeepsType(cfg, s0, steps[..k], j, d) {
      assert KeepsType(cfg, s0, steps, j, d) && steps[..k][..j] == steps[..j];
    }
    TypeKept(cfg, s0, steps[..k], d);
  }
}
