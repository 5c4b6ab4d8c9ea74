/** The consumer that remembers synced heights and confirmation heights across transactions does
    exactly what the multiplexing relayer's consumer does, which asks for both every time. */
module Caching {
  import opened Wrappers
  import opened Types
  import opened System
  import opened Invariant
  import opened Frame
  import opened GatewaySteps
  import opened Safety
  import LightClient
  import R = Relayer
  import C = Chain

  // ----- the uncached consumer -----

  /** The same steps, except that every wait begins at height 0 and no looked-up height is kept. */
  function UncachedApply(cfg: Config, s: Sys, st: Step): Sys
    requires Enabled(cfg, s, st)
  {
    var s' := Apply(cfg, s, st);
    match st
    case Take(rid, d, _) => SetLane(s', rid, d, LaneOf(s', rid, d).(syncedInter := 0))
    case Lookup(rid, d) => SetLane(s', rid, d, LaneOf(s', rid, d).(csMemo := map[]))
    case _ => s'
  }

  function UncachedRun(cfg: Config, s: Sys, steps: seq<Step>): Option<Sys> {
    if steps == [] then Some(s)
    else
      match UncachedRun(cfg, s, steps[..|steps| - 1])
      case None => None
      case Some(mid) =>
        var st := steps[|steps| - 1];
        if Enabled(cfg, mid, st) then Some(UncachedApply(cfg, mid, st)) else None
  }

  // ----- states that differ in caches only -----

  ghost predicate SameLane(l: R.Lane, u: R.Lane) {
    && u == l.(syncedInter := u.syncedInter, csMemo := map[])
    && (l.pc.Waiting? && u.syncedInter >= l.pc.xtx.height ==> l.syncedInter >= l.pc.xtx.height)
  }

  ghost predicate SameGate(g: Gate, u: Gate) {
    && u.start == g.start && u.next == g.next && u.lanes.Keys == g.lanes.Keys
    && forall d | d in g.lanes :: SameLane(g.lanes[d], u.lanes[d])
  }

  /** s is a state of the cached system, u of the uncached one. */
  ghost predicate Same(s: Sys, u: Sys) {
    && u.chains == s.chains && u.now == s.now && u.gates.Keys == s.gates.Keys
    && forall rid | rid in s.gates :: SameGate(s.gates[rid], u.gates[rid])
  }

  lemma SameSetLane(s: Sys, u: Sys, s': Sys, u': Sys, rid: Rid, d: Pid, l: R.Lane, ul: R.Lane)
    requires Same(s, u) && rid in s.gates && d in s.gates[rid].lanes && SameLane(l, ul)
    requires s'.gates == SetLane(s, rid, d, l).gates && u'.gates == SetLane(u, rid, d, ul).gates
    requires s'.chains == u'.chains && s'.now == u'.now
    ensures Same(s', u')
  {
  }

  /** The step of the uncached system that a cached step turns into: itself, after one more
      poll where the cached consumer looks up without polling. */
  function Uncached(u: Sys, st: Step): seq<Step> {
    if st.Lookup? && LaneExists(u, st.rid, st.d) && !R.CanLookup(LaneOf(u, st.rid, st.d))
    then [PollInter(st.rid, st.d), st]
    else [st]
  }

  /** The step of the cached system that an uncached step turns into: a poll that the cached
      consumer has no need for turns into nothing. */
  function Cached(s: Sys, st: Step): seq<Step> {
    if st.PollInter? && LaneExists(s, st.rid, st.d) && !R.CanPollInter(LaneOf(s, st.rid, st.d)) then [] else [st]
  }

  // ----- one step -----

  lemma LookupAgrees(cfg: Config, s: Sys, rid: Rid, d: Pid)
    requires Inv(cfg, s) && Enabled(cfg, s, Lookup(rid, d))
    ensures var l := LaneOf(s, rid, d);
      && l.syncedInter <= RelayMaxn(s, rid.src)
      && (R.Memoised(l, l.pc.xtx.height) ==>
           LightClient.QueryCsHeight(s.chains[RELAY].client, rid.src, l.pc.xtx.height) == Some(l.csMemo[l.pc.xtx.height]))
  {
    hide ChainOk, LaneOk;
    var l := LaneOf(s, rid, d);
    LaneParts(cfg, s, rid, d);
    LaneFacts(cfg, rid, d);
    if R.Memoised(l, l.pc.xtx.height) {
      assert Syncs(cfg, rid.src, RELAY);
      HeadersHaveNoGaps(cfg, s, rid.src, RELAY);
      LaneHeadersSynced(cfg, s, rid.src, RELAY);
    }
  }

  lemma PollInterSame(cfg: Config, s: Sys, u: Sys, rid: Rid, d: Pid)
    requires Same(s, u) && Enabled(cfg, s, PollInter(rid, d))
    ensures Enabled(cfg, u, PollInter(rid, d))
    ensures Same(Apply(cfg, s, PollInter(rid, d)), UncachedApply(cfg, u, PollInter(rid, d)))
  {
    var maxn := RelayMaxn(s, rid.src);
    assert SameLane(LaneOf(s, rid, d), LaneOf(u, rid, d));
    SameSetLane(s, u, Apply(cfg, s, PollInter(rid, d)), Apply(cfg, u, PollInter(rid, d)), rid, d,
                R.PollInter(LaneOf(s, rid, d), maxn), R.PollInter(LaneOf(u, rid, d), maxn));
  }

  /** A poll of the uncached consumer alone. */
  lemma PollAlone(cfg: Config, s: Sys, u: Sys, rid: Rid, d: Pid)
    requires Same(s, u) && LaneExists(s, rid, d) && Enabled(cfg, u, PollInter(rid, d))
    requires LaneOf(s, rid, d).syncedInter >= LaneOf(s, rid, d).pc.xtx.height
    ensures Same(s, UncachedApply(cfg, u, PollInter(rid, d)))
  {
    assert SetLane(s, rid, d, LaneOf(s, rid, d)) == s by {
      assert s.gates[rid].lanes[d := LaneOf(s, rid, d)] == s.gates[rid].lanes;
      assert s.gates[rid := s.gates[rid]] == s.gates;
    }
    SameSetLane(s, u, s, Apply(cfg, u, PollInter(rid, d)), rid, d, LaneOf(s, rid, d),
                R.PollInter(LaneOf(u, rid, d), RelayMaxn(u, rid.src)));
  }

  lemma SetLaneTwice(s: Sys, rid: Rid, d: Pid, a: R.Lane, b: R.Lane)
    requires rid in s.gates
    ensures SetLane(SetLane(s, rid, d, a), rid, d, b).gates == SetLane(s, rid, d, b).gates
  {
    var lanes := s.gates[rid].lanes;
    assert lanes[d := a][d := b] == lanes[d := b];
    var g := s.gates[rid].(lanes := lanes[d := a]);
    assert s.gates[rid := g][rid := g.(lanes := lanes[d := b])] == s.gates[rid := g.(lanes := lanes[d := b])];
  }

  lemma LookupLane(l: R.Lane, ul: R.Lane, answer: Option<nat>)
    requires SameLane(l, ul) && R.CanLookup(l) && R.CanLookup(ul)
    requires R.Memoised(l, l.pc.xtx.height) ==> answer == Some(l.csMemo[l.pc.xtx.height])
    ensures SameLane(R.Lookup(l, answer), R.Lookup(ul, answer).(csMemo := map[]))
  {
  }

  lemma LookupSame(cfg: Config, s: Sys, u: Sys, rid: Rid, d: Pid)
    requires Inv(cfg, s) && Same(s, u) && Enabled(cfg, s, Lookup(rid, d)) && Enabled(cfg, u, Lookup(rid, d))
    ensures Same(Apply(cfg, s, Lookup(rid, d)), UncachedApply(cfg, u, Lookup(rid, d)))
  {
    LookupAgrees(cfg, s, rid, d);
    LookupSets(cfg, s, u, rid, d, LightClient.QueryCsHeight(s.chains[RELAY].client, rid.src, LaneOf(s, rid, d).pc.xtx.height));
  }

  lemma LookupSets(cfg: Config, s: Sys, u: Sys, rid: Rid, d: Pid, answer: Option<nat>)
    requires Same(s, u) && Enabled(cfg, s, Lookup(rid, d)) && Enabled(cfg, u, Lookup(rid, d))
    requires var l := LaneOf(s, rid, d);
      && answer == LightClient.QueryCsHeight(s.chains[RELAY].client, rid.src, l.pc.xtx.height)
      && (R.Memoised(l, l.pc.xtx.height) ==> answer == Some(l.csMemo[l.pc.xtx.height]))
    ensures Same(Apply(cfg, s, Lookup(rid, d)), UncachedApply(cfg, u, Lookup(rid, d)))
  {
    var l, ul := LaneOf(s, rid, d), LaneOf(u, rid, d);
    assert SameLane(l, ul);
    LookupLane(l, ul, answer);
    SetLaneTwice(u, rid, d, R.Lookup(ul, answer), R.Lookup(ul, answer).(csMemo := map[]));
    SameSetLane(s, u, Apply(cfg, s, Lookup(rid, d)), UncachedApply(cfg, u, Lookup(rid, d)), rid, d,
                R.Lookup(l, answer), R.Lookup(ul, answer).(csMemo := map[]));
  }

  lemma TakeSame(cfg: Config, s: Sys, u: Sys, rid: Rid, d: Pid, t: Time)
    requires Same(s, u) && Enabled(cfg, s, Take(rid, d, t))
    ensures Enabled(cfg, u, Take(rid, d, t))
    ensures Same(Apply(cfg, s, Take(rid, d, t)), UncachedApply(cfg, u, Take(rid, d, t)))
  {
    var l, ul, link := LaneOf(s, rid, d), LaneOf(u, rid, d), LinkOf(cfg, rid, d);
    assert SameLane(l, ul);
    SetLaneTwice(u, rid, d, R.Take(link, ul, t), R.Take(link, ul, t).(syncedInter := 0));
    SameSetLane(s, u, Apply(cfg, s, Take(rid, d, t)), UncachedApply(cfg, u, Take(rid, d, t)), rid, d,
                R.Take(link, l, t), R.Take(link, ul, t).(syncedInter := 0));
  }

  predicate LaneStep(st: Step) {
    !st.UserPut? && !st.Propose? && !st.Exec? && !st.Commit? && !st.Listen?
  }

  lemma OtherEnabled(cfg: Config, s: Sys, u: Sys, st: Step)
    requires Same(s, u) && LaneStep(st) && !st.Lookup? && !st.PollInter?
    requires LaneExists(s, st.rid, st.d)
    ensures Enabled(cfg, s, st) <==> Enabled(cfg, u, st)
  {
    assert SameLane(LaneOf(s, st.rid, st.d), LaneOf(u, st.rid, st.d));
  }

  /** Steps of a lane that no cache takes part in. */
  lemma OtherLaneStepSame(cfg: Config, s: Sys, u: Sys, st: Step)
    requires Same(s, u) && LaneStep(st) && !st.Lookup? && !st.PollInter? && !st.Take?
    requires LaneExists(s, st.rid, st.d) && Enabled(cfg, s, st) && Enabled(cfg, u, st)
    ensures Same(Apply(cfg, s, st), UncachedApply(cfg, u, st))
  {
    hide C.Put, LinkOf, R.L1Item;
    assert SameLane(LaneOf(s, st.rid, st.d), LaneOf(u, st.rid, st.d));
    var s', u' := Apply(cfg, s, st), Apply(cfg, u, st);
    SameSetLane(s, u, s', u', st.rid, st.d, LaneOf(s', st.rid, st.d), LaneOf(u', st.rid, st.d));
  }

  lemma SharedStepSame(cfg: Config, s: Sys, u: Sys, st: Step)
    requires Same(s, u) && !LaneStep(st)
    ensures Enabled(cfg, s, st) <==> Enabled(cfg, u, st)
    ensures Enabled(cfg, s, st) ==> Same(Apply(cfg, s, st), UncachedApply(cfg, u, st))
  {
    hide C.Put, C.Propose, C.ExecStep, C.Commit, R.Route;
    if st.Listen? && Enabled(cfg, s, st) {
      var b := s.chains[st.rid.src].blocks[s.gates[st.rid].next];
      var g, ug := System.Listened(cfg, st.rid, s.gates[st.rid], b, st.t), System.Listened(cfg, st.rid, u.gates[st.rid], b, st.t);
      forall d | d in g.lanes ensures d in ug.lanes && SameLane(g.lanes[d], ug.lanes[d]) {
        assert SameLane(s.gates[st.rid].lanes[d], u.gates[st.rid].lanes[d]);
      }
    }
  }

  lemma OneStep(cfg: Config, u: Sys, a: Step)
    requires Enabled(cfg, u, a)
    ensures UncachedRun(cfg, u, [a]) == Some(UncachedApply(cfg, u, a)) && Run(cfg, u, [a]) == Some(Apply(cfg, u, a))
  {
    var steps := [a];
    assert steps[..|steps| - 1] == [];
    assert UncachedRun(cfg, u, steps[..|steps| - 1]) == Some(u) && Run(cfg, u, steps[..|steps| - 1]) == Some(u);
  }

  lemma TwoSteps(cfg: Config, u: Sys, a: Step, b: Step)
    requires Enabled(cfg, u, a) && Enabled(cfg, UncachedApply(cfg, u, a), b)
    ensures UncachedRun(cfg, u, [a, b]) == Some(UncachedApply(cfg, UncachedApply(cfg, u, a), b))
  {
    OneStep(cfg, u, a);
    var steps := [a, b];
    assert steps[..|steps| - 1] == [a];
  }

  /** Steps that turn into themselves. */
  lemma PlainStepSame(cfg: Config, s: Sys, u: Sys, st: Step)
    requires Same(s, u) && !st.Lookup? && !st.PollInter?
    ensures Enabled(cfg, s, st) <==> Enabled(cfg, u, st)
    ensures Enabled(cfg, s, st) ==> Same(Apply(cfg, s, st), UncachedApply(cfg, u, st))
  {
    hide Apply, UncachedApply;
    if !LaneStep(st) {
      SharedStepSame(cfg, s, u, st);
    } else if LaneExists(s, st.rid, st.d) {
      OtherEnabled(cfg, s, u, st);
      if Enabled(cfg, s, st) {
        if st.Take? { TakeSame(cfg, s, u, st.rid, st.d, st.t); } else { OtherLaneStepSame(cfg, s, u, st); }
      }
    }
  }

  /** After one poll the uncached consumer can look up as well. */
  lemma PollThenLookup(cfg: Config, s: Sys, u: Sys, rid: Rid, d: Pid)
    requires Same(s, u) && Enabled(cfg, s, Lookup(rid, d)) && !R.CanLookup(LaneOf(u, rid, d))
    requires LaneOf(s, rid, d).syncedInter <= RelayMaxn(s, rid.src) && SameLane(LaneOf(s, rid, d), LaneOf(u, rid, d))
    ensures Enabled(cfg, u, PollInter(rid, d)) && Enabled(cfg, UncachedApply(cfg, u, PollInter(rid, d)), Lookup(rid, d))
  {
  }

  lemma LookupUncached(cfg: Config, s: Sys, u: Sys, rid: Rid, d: Pid)
    requires Inv(cfg, s) && Same(s, u) && Enabled(cfg, s, Lookup(rid, d))
    ensures UncachedRun(cfg, u, Uncached(u, Lookup(rid, d))).Some?
    ensures Same(Apply(cfg, s, Lookup(rid, d)), UncachedRun(cfg, u, Uncached(u, Lookup(rid, d))).value)
  {
    hide Inv, UncachedApply, Apply;
    LookupAgrees(cfg, s, rid, d);
    assert SameLane(LaneOf(s, rid, d), LaneOf(u, rid, d));
    if R.CanLookup(LaneOf(u, rid, d)) {
      LookupSame(cfg, s, u, rid, d);
      OneStep(cfg, u, Lookup(rid, d));
    } else {
      PollThenLookup(cfg, s, u, rid, d);
      PollAlone(cfg, s, u, rid, d);
      LookupSame(cfg, s, UncachedApply(cfg, u, PollInter(rid, d)), rid, d);
      TwoSteps(cfg, u, PollInter(rid, d), Lookup(rid, d));
    }
  }

  /** Every step of the cached system is one or two steps of the uncached one. */
  lemma StepUncached(cfg: Config, s: Sys, u: Sys, st: Step)
    requires Inv(cfg, s) && Same(s, u) && Enabled(cfg, s, st)
    ensures UncachedRun(cfg, u, Uncached(u, st)).Some?
    ensures Same(Apply(cfg, s, st), UncachedRun(cfg, u, Uncached(u, st)).value)
  {
    if st.Lookup? {
      LookupUncached(cfg, s, u, st.rid, st.d);
    } else {
      if st.PollInter? { PollInterSame(cfg, s, u, st.rid, st.d); } else { PlainStepSame(cfg, s, u, st); }
      OneStep(cfg, u, st);
    }
  }

  lemma PollCached(cfg: Config, s: Sys, u: Sys, rid: Rid, d: Pid)
    requires Same(s, u) && Enabled(cfg, u, PollInter(rid, d))
    ensures Run(cfg, s, Cached(s, PollInter(rid, d))).Some?
    ensures Same(Run(cfg, s, Cached(s, PollInter(rid, d))).value, UncachedApply(cfg, u, PollInter(rid, d)))
  {
    assert SameLane(LaneOf(s, rid, d), LaneOf(u, rid, d));
    if R.CanPollInter(LaneOf(s, rid, d)) {
      PollInterSame(cfg, s, u, rid, d);
      OneStep(cfg, s, PollInter(rid, d));
    } else {
      PollAlone(cfg, s, u, rid, d);
    }
  }

  /** Every step of the uncached system is one step or none of the cached one. */
  lemma StepCached(cfg: Config, s: Sys, u: Sys, st: Step)
    requires Inv(cfg, s) && Same(s, u) && Enabled(cfg, u, st)
    ensures Run(cfg, s, Cached(s, st)).Some?
    ensures Same(Run(cfg, s, Cached(s, st)).value, UncachedApply(cfg, u, st))
  {
    if st.PollInter? {
      PollCached(cfg, s, u, st.rid, st.d);
    } else {
      if st.Lookup? {
        assert SameLane(LaneOf(s, st.rid, st.d), LaneOf(u, st.rid, st.d));
        LookupSame(cfg, s, u, st.rid, st.d);
      } else {
        PlainStepSame(cfg, s, u, st);
      }
      OneStep(cfg, s, st);
    }
  }

  // ----- runs -----

  lemma UncachedSnoc(cfg: Config, s: Sys, steps: seq<Step>, st: Step)
    ensures UncachedRun(cfg, s, steps + [st])
            == match UncachedRun(cfg, s, steps)
               case None => None
               case Some(mid) => if Enabled(cfg, mid, st) then Some(UncachedApply(cfg, mid, st)) else None
  {
    hide UncachedApply, Enabled;
    assert (steps + [st])[..|steps|] == steps;
  }

  lemma {:induction false} UncachedRunConcat(cfg: Config, s: Sys, a: seq<Step>, b: seq<Step>)
    requires UncachedRun(cfg, s, a).Some?
    ensures UncachedRun(cfg, s, a + b) == UncachedRun(cfg, UncachedRun(cfg, s, a).value, b)
    decreases |b|
  {
    hide UncachedApply, Enabled;
    if b == [] {
      assert a + b == a;
    } else {
      var n := |b| - 1;
      UncachedRunConcat(cfg, s, a, b[..n]);
      assert a + b == (a + b[..n]) + [b[n]];
      UncachedSnoc(cfg, s, a + b[..n], b[n]);
    }
  }

  lemma InitSame(cfg: Config, s: Sys)
    requires Init(cfg, s)
    ensures Same(s, s)
  {
  }

  /** The cached system does only what the uncached one can do: every run of it leaves the chains
      in a state that an uncached run leaves them in. */
  lemma {:induction false} CachedDoesNoMore(cfg: Config, s: Sys, steps: seq<Step>) returns (usteps: seq<Step>)
    requires Init(cfg, s) && Run(cfg, s, steps).Some?
    ensures UncachedRun(cfg, s, usteps).Some?
    ensures Same(Run(cfg, s, steps).value, UncachedRun(cfg, s, usteps).value)
  {
    if steps == [] {
      InitSame(cfg, s);
      usteps := [];
    } else {
      var n := |steps| - 1;
      var before := CachedDoesNoMore(cfg, s, steps[..n]);
      Reachable(cfg, s, steps[..n]);
      var mid, umid := Run(cfg, s, steps[..n]).value, UncachedRun(cfg, s, before).value;
      StepUncached(cfg, mid, umid, steps[n]);
      usteps := before + Uncached(umid, steps[n]);
      UncachedRunConcat(cfg, s, before, Uncached(umid, steps[n]));
    }
  }

  /** And it can do all of it: caching holds nothing back. */
  lemma {:induction false} CachedDoesNoLess(cfg: Config, s: Sys, usteps: seq<Step>) returns (steps: seq<Step>)
    requires Init(cfg, s) && UncachedRun(cfg, s, usteps).Some?
    ensures Run(cfg, s, steps).Some? && |steps| <= |usteps|
    ensures Same(Run(cfg, s, steps).value, UncachedRun(cfg, s, usteps).value)
  {
    if usteps == [] {
      InitSame(cfg, s);
      steps := [];
    } else {
      var n := |usteps| - 1;
      var before := CachedDoesNoLess(cfg, s, usteps[..n]);
      Reachable(cfg, s, before);
      var mid, umid := Run(cfg, s, before).value, UncachedRun(cfg, s, usteps[..n]).value;
      StepCached(cfg, mid, umid, usteps[n]);
      steps := before + Cached(mid, usteps[n]);
      RunConcat(cfg, s, before, Cached(mid, usteps[n]));
    }
  }
}
