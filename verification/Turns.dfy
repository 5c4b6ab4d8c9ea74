/** A turn of the gateway object's consumer is a run of the system's steps: the stages that the
    loop goes through are those of the state machine, with the answers that the chains give. */
module Turns {
  import opened Wrappers
  import opened Types
  import opened System
  import opened Gateway
  import LightClient
  import R = Relayer
  import C = Chain

  /** One stage of a consumer, with the answer it got. */
  datatype Act =
    | Begin(t: Time)
    | AskInter(answer: nat)
    | Look(height: Option<nat>)
    | AskDst(answer: nat)
    | Open(t: Time)
    | Ship(t: Time)
    | End

  predicate Can(l: R.Lane, act: Act) {
    match act
    case Begin(_) => R.CanTake(l)
    case AskInter(_) => R.CanPollInter(l)
    case Look(_) => R.CanLookup(l)
    case AskDst(_) => R.CanPollDst(l)
    case Open(_) => R.CanClear(l)
    case Ship(_) => R.CanSend(l)
    case End => true
  }

  /** The lane after a stage. */
  function Do(link: R.Link, l: R.Lane, act: Act): R.Lane
    requires Can(l, act)
  {
    match act
    case Begin(t) => R.Take(link, l, t)
    case AskInter(answer) => R.PollInter(l, answer)
    case Look(height) => R.Lookup(l, height)
    case AskDst(answer) => R.PollDst(l, answer)
    case Open(_) => R.Clear(link, l)
    case Ship(_) => R.Sent(l)
    case End => l.(xtxAlive := false)
  }

  /** What a stage sends. */
  function Puts(link: R.Link, l: R.Lane, act: Act): seq<Tx>
    requires Can(l, act)
  {
    match act
    case Open(_) => if R.NeedsL1(link, l) then [R.NewTx(R.L1Item(link, l.pc.target, l.pc.xtx), NO_TRACE)] else []
    case Ship(t) => [R.Outgoing(l, t)]
    case _ => []
  }

  /** The lane after a list of stages and what they sent; None when one is not possible. */
  function Play(link: R.Link, l: R.Lane, acts: seq<Act>): Option<(R.Lane, seq<Tx>)> {
    if acts == [] then Some((l, []))
    else
      var n := |acts| - 1;
      var before := Play(link, l, acts[..n]);
      if before.Some? && Can(before.value.0, acts[n]) then
        Some((Do(link, before.value.0, acts[n]), before.value.1 + Puts(link, before.value.0, acts[n])))
      else None
  }

  lemma PlayOn(link: R.Link, l: R.Lane, acts: seq<Act>, act: Act)
    requires Play(link, l, acts).Some? && Can(Play(link, l, acts).value.0, act)
    ensures var was := Play(link, l, acts).value;
      Play(link, l, acts + [act]) == Some((Do(link, was.0, act), was.1 + Puts(link, was.0, act)))
  {
    var all := acts + [act];
    assert all[..|all| - 1] == acts;
  }

  // ----- a turn of the object -----

  /** The polls of a wait, with what they were answered; a missing answer is the end. */
  function AsksInter(answers: seq<Option<nat>>): (r: seq<Act>)
    ensures |r| == |answers|
  {
    seq(|answers|, k requires 0 <= k < |answers| => if answers[k].None? then End else AskInter(answers[k].value))
  }

  function AsksDst(answers: seq<Option<nat>>): (r: seq<Act>)
    ensures |r| == |answers|
  {
    seq(|answers|, k requires 0 <= k < |answers| => if answers[k].None? then End else AskDst(answers[k].value))
  }

  /** The lane after the stages, if they are possible. */
  function After(link: R.Link, l: R.Lane, acts: seq<Act>): R.Lane {
    if Play(link, l, acts).Some? then Play(link, l, acts).value.0 else l
  }

  /** The first wait takes the first i answers, in order: it polls only while it needs to, and stops
      otherwise only when there are no more. */
  ghost predicate AskedInter(link: R.Link, l: R.Lane, acts: seq<Act>, answers: seq<Option<nat>>, i: nat) {
    && i <= |answers|
    && (forall k | 0 <= k < i :: R.CanPollInter(After(link, l, acts + AsksInter(answers[..k]))))
    && (R.CanPollInter(After(link, l, acts + AsksInter(answers[..i]))) ==> i == |answers|)
  }

  /** So does the second. */
  ghost predicate AskedDst(link: R.Link, l: R.Lane, acts: seq<Act>, answers: seq<Option<nat>>, j: nat) {
    && j <= |answers|
    && (forall k | 0 <= k < j :: R.CanPollDst(After(link, l, acts + AsksDst(answers[..k]))))
    && (R.CanPollDst(After(link, l, acts + AsksDst(answers[..j]))) ==> j == |answers|)
  }

  lemma InterShifts(acts: seq<Act>, answers: seq<Option<nat>>, k: nat)
    requires k < |answers|
    ensures acts + AsksInter(answers[..k + 1]) == acts + [AsksInter(answers)[0]] + AsksInter(answers[1..][..k])
  {
    assert AsksInter(answers[..k + 1]) == [AsksInter(answers)[0]] + AsksInter(answers[1..][..k]);
  }

  lemma InterAskedNone(link: R.Link, l: R.Lane, acts: seq<Act>, answers: seq<Option<nat>>)
    ensures acts + AsksInter(answers[..0]) == acts
    ensures answers == [] || !R.CanPollInter(After(link, l, acts)) ==> AskedInter(link, l, acts, answers, 0)
  {
  }

  lemma InterAskedFirst(link: R.Link, l: R.Lane, acts: seq<Act>, answers: seq<Option<nat>>, i: nat)
    requires answers != [] && R.CanPollInter(After(link, l, acts))
    requires AskedInter(link, l, acts + [AsksInter(answers)[0]], answers[1..], i)
    ensures AskedInter(link, l, acts, answers, i + 1)
  {
    hide After, AsksInter, R.CanPollInter;
    forall k | 0 <= k < i + 1 ensures R.CanPollInter(After(link, l, acts + AsksInter(answers[..k]))) {
      if k > 0 {
        InterShifts(acts, answers, k - 1);
      } else {
        assert acts + AsksInter(answers[..0]) == acts;
      }
    }
    InterShifts(acts, answers, i);
  }

  lemma {:induction false} InterPlays(link: R.Link, l: R.Lane, acts: seq<Act>, answers: seq<Option<nat>>) returns (i: nat)
    requires Play(link, l, acts).Some?
    ensures i <= |answers| && AskedInter(link, l, acts, answers, i)
    ensures var was := Play(link, l, acts).value; Play(link, l, acts + AsksInter(answers[..i])) == Some((PollInters(was.0, answers), was.1))
    decreases |answers|
  {
    hide AskedInter;
    var was := Play(link, l, acts).value;
    i := 0;
    InterAskedNone(link, l, acts, answers);
    if R.CanPollInter(was.0) && answers != [] {
      var act := AsksInter(answers)[0];
      PlayOn(link, l, acts, act);
      assert was.1 + [] == was.1;
      i := InterPlays(link, l, acts + [act], answers[1..]);
      InterShifts(acts, answers, i);
      InterAskedFirst(link, l, acts, answers, i);
      i := i + 1;
    }
  }

  lemma DstShifts(acts: seq<Act>, answers: seq<Option<nat>>, k: nat)
    requires k < |answers|
    ensures acts + AsksDst(answers[..k + 1]) == acts + [AsksDst(answers)[0]] + AsksDst(answers[1..][..k])
  {
    assert AsksDst(answers[..k + 1]) == [AsksDst(answers)[0]] + AsksDst(answers[1..][..k]);
  }

  lemma DstAskedNone(link: R.Link, l: R.Lane, acts: seq<Act>, answers: seq<Option<nat>>)
    ensures acts + AsksDst(answers[..0]) == acts
    ensures answers == [] || !R.CanPollDst(After(link, l, acts)) ==> AskedDst(link, l, acts, answers, 0)
  {
  }

  lemma DstAskedFirst(link: R.Link, l: R.Lane, acts: seq<Act>, answers: seq<Option<nat>>, j: nat)
    requires answers != [] && R.CanPollDst(After(link, l, acts))
    requires AskedDst(link, l, acts + [AsksDst(answers)[0]], answers[1..], j)
    ensures AskedDst(link, l, acts, answers, j + 1)
  {
    hide After, AsksDst, R.CanPollDst;
    forall k | 0 <= k < j + 1 ensures R.CanPollDst(After(link, l, acts + AsksDst(answers[..k]))) {
      if k > 0 {
        DstShifts(acts, answers, k - 1);
      } else {
        assert acts + AsksDst(answers[..0]) == acts;
      }
    }
    DstShifts(acts, answers, j);
  }

  lemma {:induction false} DstPlays(link: R.Link, l: R.Lane, acts: seq<Act>, answers: seq<Option<nat>>) returns (j: nat)
    requires Play(link, l, acts).Some?
    ensures j <= |answers| && AskedDst(link, l, acts, answers, j)
    ensures var was := Play(link, l, acts).value; Play(link, l, acts + AsksDst(answers[..j])) == Some((PollDsts(was.0, answers), was.1))
    decreases |answers|
  {
    hide AskedDst;
    var was := Play(link, l, acts).value;
    j := 0;
    DstAskedNone(link, l, acts, answers);
    if R.CanPollDst(was.0) && answers != [] {
      var act := AsksDst(answers)[0];
      PlayOn(link, l, acts, act);
      assert was.1 + [] == was.1;
      j := DstPlays(link, l, acts + [act], answers[1..]);
      DstShifts(acts, answers, j);
      DstAskedFirst(link, l, acts, answers, j);
      j := j + 1;
    }
  }

  /** Up to the memory of L1 transactions of a consumer that a failing one has just ended. */
  predicate Alike(a: R.Lane, b: R.Lane) {
    a == b || (!a.xtxAlive && a == b.(l1Sent := a.l1Sent))
  }

  /** How a turn ends when its waits are over: with both sends, or at the one that fails. */
  function Ending(link: R.Link, l: R.Lane, u: Time, fault: Fault): seq<Act> {
    if !R.CanClear(l) then []
    else if fault.L1Fault? && R.NeedsL1(link, l) then [End]
    else [Open(u), if fault.SendFault? then End else Ship(u)]
  }

  lemma ReleasePlays(link: R.Link, l: R.Lane, acts: seq<Act>, u: Time, fault: Fault)
    requires Play(link, l, acts).Some?
    ensures var was := Play(link, l, acts).value;
      var done := Play(link, l, acts + Ending(link, was.0, u, fault));
      done.Some? && Alike(done.value.0, Release(link, was.0, u, fault).0) && done.value.1 == was.1 + Release(link, was.0, u, fault).1
  {
    var was := Play(link, l, acts).value;
    if !R.CanClear(was.0) {
      assert acts + [] == acts && was.1 + [] == was.1;
    } else if fault.L1Fault? && R.NeedsL1(link, was.0) {
      PlayOn(link, l, acts, End);
    } else {
      PlayOn(link, l, acts, Open(u));
      var last := if fault.SendFault? then End else Ship(u);
      PlayOn(link, l, acts + [Open(u)], last);
      assert acts + [Open(u)] + [last] == acts + [Open(u), last];
    }
  }

  /** The stages of a turn that gets these answers: it begins, polls the relay chain, looks the height
      up if it has waited for it, polls the destination, and ends. */
  ghost predicate Script(link: R.Link, l: R.Lane, acts: seq<Act>, inter: seq<Option<nat>>, cs: Option<nat>, dst: seq<Option<nat>>,
                         t: Time, u: Time, fault: Fault, i: nat, j: nat)
    requires i <= |inter| && j <= |dst|
  {
    if fault.ProofFault? then acts == [Begin(t), End]
    else
      var asked := [Begin(t)] + AsksInter(inter[..i]);
      var looked := asked + if R.CanLookup(After(link, l, asked)) then [Look(cs)] else [];
      var waited := looked + AsksDst(dst[..j]);
      && AskedInter(link, l, [Begin(t)], inter, i) && AskedDst(link, l, looked, dst, j)
      && acts == waited + Ending(link, After(link, l, waited), u, fault)
  }

  /** For any answers and any failing query or send, a turn of the object is a list of the stages, with
      these answers in their order and these times. */
  lemma TurnPlays(link: R.Link, l: R.Lane, inter: seq<Option<nat>>, cs: Option<nat>, dst: seq<Option<nat>>, t: Time, u: Time, fault: Fault)
    returns (acts: seq<Act>, i: nat, j: nat)
    requires R.CanTake(l)
    ensures i <= |inter| && j <= |dst| && Script(link, l, acts, inter, cs, dst, t, u, fault, i, j)
    ensures Play(link, l, acts).Some?
    ensures var turn, now := Turn(link, l, inter, cs, dst, t, u, fault), Play(link, l, acts).value;
      Alike(now.0, turn.0) && now.1 == turn.1
  {
    hide Found, PollInters, PollDsts, Release, Script, Play, R.Take;
    i, j := 0, 0;
    Begins(link, l, t);
    if fault.ProofFault? {
      acts := ProofFails(link, l, inter, cs, dst, t, u, fault);
    } else {
      acts, i, j := WaitsPlay(link, l, inter, cs, dst, t, u, fault);
    }
  }

  lemma ProofFails(link: R.Link, l: R.Lane, inter: seq<Option<nat>>, cs: Option<nat>, dst: seq<Option<nat>>, t: Time, u: Time, fault: Fault)
    returns (acts: seq<Act>)
    requires R.CanTake(l) && fault.ProofFault?
    ensures Script(link, l, acts, inter, cs, dst, t, u, fault, 0, 0)
    ensures Play(link, l, acts) == Some((R.Take(link, l, t).(xtxAlive := false), []))
  {
    hide R.Take;
    Begins(link, l, t);
    PlayOn(link, l, [Begin(t)], End);
    acts := [Begin(t), End];
    assert [Begin(t)] + [End] == acts;
  }

  lemma WaitsPlay(link: R.Link, l: R.Lane, inter: seq<Option<nat>>, cs: Option<nat>, dst: seq<Option<nat>>, t: Time, u: Time, fault: Fault)
    returns (acts: seq<Act>, i: nat, j: nat)
    requires R.CanTake(l) && !fault.ProofFault?
    ensures i <= |inter| && j <= |dst| && Script(link, l, acts, inter, cs, dst, t, u, fault, i, j) && Play(link, l, acts).Some?
    ensures var end, now := Release(link, PollDsts(Found(PollInters(R.Take(link, l, t), inter), cs), dst), u, fault), Play(link, l, acts).value;
      Alike(now.0, end.0) && now.1 == end.1
  {
    hide R.Take, Found, PollInters, PollDsts, Release, AskedInter, AskedDst, Ending, Play, AsksInter, AsksDst, R.CanLookup;
    Begins(link, l, t);
    i := InterPlays(link, l, [Begin(t)], inter);
    var asked := [Begin(t)] + AsksInter(inter[..i]);
    Looks(link, l, asked, cs);
    var looked := asked + if R.CanLookup(After(link, l, asked)) then [Look(cs)] else [];
    j := DstPlays(link, l, looked, dst);
    var waited := looked + AsksDst(dst[..j]);
    ReleasePlays(link, l, waited, u, fault);
    acts := waited + Ending(link, After(link, l, waited), u, fault);
  }

  lemma Begins(link: R.Link, l: R.Lane, t: Time)
    requires R.CanTake(l)
    ensures Play(link, l, [Begin(t)]) == Some((R.Take(link, l, t), []))
  {
    hide R.Take;
    var none: seq<Act> := [];
    assert Play(link, l, none) == Some((l, []));
    PlayOn(link, l, none, Begin(t));
    var sent: seq<Tx> := [];
    assert none + [Begin(t)] == [Begin(t)] && sent + Puts(link, l, Begin(t)) == sent;
  }

  lemma Looks(link: R.Link, l: R.Lane, acts: seq<Act>, cs: Option<nat>)
    requires Play(link, l, acts).Some?
    ensures var was := Play(link, l, acts).value;
      Play(link, l, acts + if R.CanLookup(was.0) then [Look(cs)] else []) == Some((Found(was.0, cs), was.1))
  {
    var was := Play(link, l, acts).value;
    if R.CanLookup(was.0) {
      PlayOn(link, l, acts, Look(cs));
      assert was.1 + [] == was.1;
    } else {
      assert acts + [] == acts;
    }
  }

  // ----- steps of the system -----

  /** A step of the consumer of lane (rid, d). */
  predicate OfConsumer(st: Step, rid: Rid, d: Pid) {
    (st.Take? || st.PollInter? || st.Lookup? || st.PollDst? || st.Clear? || st.SendXtx? || st.XtxFails?) && st.rid == rid && st.d == d
  }

  /** The stage of the step, with the answer that the chains give in state s. */
  function ActOf(cfg: Config, s: Sys, st: Step, rid: Rid, d: Pid): Act
    requires OfConsumer(st, rid, d) && Enabled(cfg, s, st)
  {
    match st
    case Take(_, _, t) => Begin(t)
    case PollInter(_, _) => AskInter(RelayMaxn(s, rid.src))
    case Lookup(_, _) => Look(LightClient.QueryCsHeight(s.chains[RELAY].client, rid.src, LaneOf(s, rid, d).pc.xtx.height))
    case PollDst(_, _) => AskDst(LightClient.Maxn(s.chains[d].client, R.Watched(LinkOf(cfg, rid, d))))
    case Clear(_, _, t) => Open(t)
    case SendXtx(_, _, t) => Ship(t)
    case XtxFails(_, _) => End
  }

  /** The chain after the transactions have been put. */
  function PutAll(c: C.Chain, txs: seq<Tx>, t: Time): C.Chain {
    if txs == [] then c else C.Put(PutAll(c, txs[..|txs| - 1], t), txs[|txs| - 1], t)
  }

  lemma PutOne(c: C.Chain, tx: Tx, t: Time)
    ensures PutAll(c, [tx], t) == C.Put(c, tx, t)
  {
    var txs := [tx];
    assert txs[..|txs| - 1] == [] && PutAll(c, txs[..|txs| - 1], t) == c;
  }

  /** A step of the consumer does to its lane what the stage does, puts on the destination what the
      stage sends, and changes nothing else. */
  lemma StepPlays(cfg: Config, s: Sys, st: Step, rid: Rid, d: Pid)
    requires OfConsumer(st, rid, d) && Enabled(cfg, s, st)
    ensures var l, link, act, s' := LaneOf(s, rid, d), LinkOf(cfg, rid, d), ActOf(cfg, s, st, rid, d), Apply(cfg, s, st);
      && Can(l, act)
      && s'.gates == SetLane(s, rid, d, Do(link, l, act)).gates
      && s'.chains == s.chains[d := PutAll(s.chains[d], Puts(link, l, act), s'.now)]
  {
    var l, link := LaneOf(s, rid, d), LinkOf(cfg, rid, d);
    assert s.chains == s.chains[d := s.chains[d]];
    if st.Clear? && R.NeedsL1(link, l) {
      PutOne(s.chains[d], R.NewTx(R.L1Item(link, l.pc.target, l.pc.xtx), NO_TRACE), st.t);
    } else if st.SendXtx? {
      PutOne(s.chains[d], R.Outgoing(l, st.t), st.t);
    }
  }

  /** A step of anything else that leaves the lane alone. */
  predicate Aside(st: Step, rid: Rid, d: Pid) {
    && !OfConsumer(st, rid, d) && !(st.Listen? && st.rid == rid)
    && !((st.SendHeader? || st.HeaderFails?) && st.rid == rid && st.d == d)
  }

  lemma ChainStepAside(cfg: Config, s: Sys, st: Step)
    requires Enabled(cfg, s, st) && (st.UserPut? || st.Propose? || st.Exec? || st.Commit?)
    ensures Apply(cfg, s, st).gates == s.gates
  {
    hide C.Put, C.Propose, C.ExecStep, C.Commit, UserTx;
  }

  lemma ListenAside(cfg: Config, s: Sys, st: Step, rid: Rid)
    requires Enabled(cfg, s, st) && st.Listen? && st.rid != rid && rid in s.gates
    ensures rid in Apply(cfg, s, st).gates && Apply(cfg, s, st).gates[rid] == s.gates[rid]
  {
    hide System.Listened;
  }

  lemma LaneStepAside(cfg: Config, s: Sys, st: Step, rid: Rid, d: Pid)
    requires Enabled(cfg, s, st) && LaneExists(s, rid, d)
    requires !(st.UserPut? || st.Propose? || st.Exec? || st.Commit? || st.Listen?) && (st.rid != rid || st.d != d)
    ensures rid in Apply(cfg, s, st).gates && d in Apply(cfg, s, st).gates[rid].lanes && LaneOf(Apply(cfg, s, st), rid, d) == LaneOf(s, rid, d)
  {
    hide C.Put, R.Take, R.Lookup, R.Clear, LinkOf, R.PollInter, R.PollDst, R.Sent;
  }

  lemma AsideStays(cfg: Config, s: Sys, st: Step, rid: Rid, d: Pid)
    requires Enabled(cfg, s, st) && LaneExists(s, rid, d) && Aside(st, rid, d)
    ensures LaneExists(Apply(cfg, s, st), rid, d) && LaneOf(Apply(cfg, s, st), rid, d) == LaneOf(s, rid, d)
  {
    hide Apply, Enabled;
    KeysStay(cfg, s, st);
    if st.UserPut? || st.Propose? || st.Exec? || st.Commit? {
      ChainStepAside(cfg, s, st);
    } else if st.Listen? {
      ListenAside(cfg, s, st, rid);
    } else {
      LaneStepAside(cfg, s, st, rid, d);
    }
  }

  /** Any run in which the consumer moves and everything else may, but for the lane's listener and
      header sender: the lane goes through stages, with the answers that the chains gave on the way. */
  lemma {:induction false} RunPlays(cfg: Config, s: Sys, steps: seq<Step>, rid: Rid, d: Pid) returns (acts: seq<Act>)
    requires LaneExists(s, rid, d) && Run(cfg, s, steps).Some?
    requires forall k | 0 <= k < |steps| :: OfConsumer(steps[k], rid, d) || Aside(steps[k], rid, d)
    ensures LaneExists(Run(cfg, s, steps).value, rid, d)
    ensures var played := Play(LinkOf(cfg, rid, d), LaneOf(s, rid, d), acts);
      played.Some? && played.value.0 == LaneOf(Run(cfg, s, steps).value, rid, d)
    decreases |steps|
  {
    acts := [];
    if steps != [] {
      var n := |steps| - 1;
      var mid := Run(cfg, s, steps[..n]).value;
      acts := RunPlays(cfg, s, steps[..n], rid, d);
      if OfConsumer(steps[n], rid, d) {
        StepPlays(cfg, mid, steps[n], rid, d);
        PlayOn(LinkOf(cfg, rid, d), LaneOf(s, rid, d), acts, ActOf(cfg, mid, steps[n], rid, d));
        acts := acts + [ActOf(cfg, mid, steps[n], rid, d)];
      } else {
        AsideStays(cfg, mid, steps[n], rid, d);
      }
    }
  }
}
