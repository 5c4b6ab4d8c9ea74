/** The latency analysis over the memos of delivered transactions: per mode the averages of the
    stages, and on which delivered memos its indexing fails. */
module Analysis {
  import opened Wrappers
  import opened Types
  import opened System
  import opened TraceShape
  import R = Relayer
  import C = Chain

  // ----- means -----

  function Sum(xs: seq<int>): int {
    if xs == [] then 0 else Sum(xs[..|xs| - 1]) + xs[|xs| - 1]
  }

  function Mean(xs: seq<int>): real
    requires xs != []
  {
    Sum(xs) as real / |xs| as real
  }

  function Values(f: Trace --> int, memos: seq<Trace>): (r: seq<int>)
    requires forall i | 0 <= i < |memos| :: f.requires(memos[i])
    ensures |r| == |memos| && forall i | 0 <= i < |r| :: r[i] == f(memos[i])
  {
    seq(|memos|, i requires 0 <= i < |memos| => f(memos[i]))
  }

  lemma {:induction false} SumNonNegative(xs: seq<int>)
    requires forall i | 0 <= i < |xs| :: xs[i] >= 0
    ensures Sum(xs) >= 0
  {
    if xs != [] {
      SumNonNegative(xs[..|xs| - 1]);
    }
  }

  /** A sum of non-negative numbers is 0 exactly when all are. */
  lemma {:induction false} SumZero(xs: seq<int>)
    requires forall i | 0 <= i < |xs| :: xs[i] >= 0
    ensures Sum(xs) == 0 <==> forall i | 0 <= i < |xs| :: xs[i] == 0
  {
    if xs != [] {
      SumZero(xs[..|xs| - 1]);
      SumNonNegative(xs[..|xs| - 1]);
    }
  }

  function Added(xs: seq<int>, ys: seq<int>): (r: seq<int>)
    requires |xs| == |ys|
    ensures |r| == |xs| && forall i | 0 <= i < |r| :: r[i] == xs[i] + ys[i]
  {
    seq(|xs|, i requires 0 <= i < |xs| => xs[i] + ys[i])
  }

  lemma {:induction false} SumAdded(xs: seq<int>, ys: seq<int>)
    requires |xs| == |ys|
    ensures Sum(Added(xs, ys)) == Sum(xs) + Sum(ys)
  {
    if xs != [] {
      var n := |xs| - 1;
      SumAdded(xs[..n], ys[..n]);
      assert Added(xs, ys)[..n] == Added(xs[..n], ys[..n]);
    }
  }

  lemma Divide(a: real, n: real)
    requires n > 0.0
    ensures a >= 0.0 ==> a / n >= 0.0
    ensures a / n == 0.0 <==> a == 0.0
  {
    assert a / n * n == a;
  }

  /** A mean times the number of values is their sum, value by value. */
  lemma MeanTimes(xs: seq<int>)
    requires xs != []
    ensures Mean(xs) * |xs| as real == Sum(xs) as real
  {
  }

  lemma SumIs(xs: seq<int>, x: int)
    ensures Sum([]) == 0 && Sum(xs + [x]) == Sum(xs) + x
  {
    assert (xs + [x])[..|xs|] == xs;
  }

  lemma DivideSum(a: real, b: real, n: real)
    requires n > 0.0
    ensures (a + b) / n == a / n + b / n
  {
  }

  lemma MeanAdded(xs: seq<int>, ys: seq<int>)
    requires |xs| == |ys| > 0
    ensures Mean(Added(xs, ys)) == Mean(xs) + Mean(ys)
  {
    SumAdded(xs, ys);
    DivideSum(Sum(xs) as real, Sum(ys) as real, |xs| as real);
  }

  lemma MeanNonNegative(xs: seq<int>)
    requires xs != [] && forall i | 0 <= i < |xs| :: xs[i] >= 0
    ensures Mean(xs) >= 0.0
    ensures Mean(xs) == 0.0 <==> forall i | 0 <= i < |xs| :: xs[i] == 0
  {
    SumNonNegative(xs);
    SumZero(xs);
    Divide(Sum(xs) as real, |xs| as real);
  }

  // ----- NoR and ToR -----

  /** The two entries that are indexed are lists. */
  predicate Indexable(tr: Trace) {
    NoCommitList !in tr.flaws && NoRelayerList !in tr.flaws
  }

  /** What `analysis_nor` and `analysis_tor` read of a memo. */
  predicate Readable(tr: Trace) {
    && Indexable(tr) && tr.init.Some? && |tr.commit| >= 2 && |tr.relayer| >= 3
    && tr.relayer[2].tag == Send && tr.relayer[0].tag == Listened
  }

  function SrcStage(tr: Trace): int requires Readable(tr) { tr.commit[0] - tr.init.value }
  function RlyStage(tr: Trace): int requires Readable(tr) { tr.relayer[2].at - tr.relayer[0].at }
  function DstStage(tr: Trace): int requires Readable(tr) { tr.commit[1] - tr.relayer[2].at }
  function Latency(tr: Trace): int requires Readable(tr) { tr.commit[1] - tr.init.value }

  /** What no stage measures: from the commit on the source to the listener's reading. */
  function Pickup(tr: Trace): int requires Readable(tr) { tr.relayer[0].at - tr.commit[0] }

  ghost predicate AllReadable(memos: seq<Trace>) {
    forall i | 0 <= i < |memos| :: Readable(memos[i])
  }

  datatype Averages = Averages(src: real, rly: real, dst: real)

  /** Raises (None) exactly on an empty list or an unreadable memo; else the mean of each stage. */
  method AnalysisDirect(memos: seq<Trace>) returns (r: Option<Averages>)
    ensures r.Some? <==> memos != [] && AllReadable(memos)
    ensures r.Some? ==> r.value == Averages(Mean(Values(SrcStage, memos)), Mean(Values(RlyStage, memos)), Mean(Values(DstStage, memos)))
  {
    var tsSrc: seq<int>, tsRly: seq<int>, tsDst: seq<int> := [], [], [];
    for k := 0 to |memos|
      invariant AllReadable(memos[..k])
      invariant tsSrc == Values(SrcStage, memos[..k])
      invariant tsRly == Values(RlyStage, memos[..k])
      invariant tsDst == Values(DstStage, memos[..k])
    {
      var tr := memos[k];
      if !Indexable(tr) || tr.init.None? || |tr.commit| < 2 || |tr.relayer| < 3 || tr.relayer[2].tag != Send || tr.relayer[0].tag != Listened {
        return None;
      }
      tsSrc := tsSrc + [tr.commit[0] - tr.init.value];
      tsRly := tsRly + [tr.relayer[2].at - tr.relayer[0].at];
      tsDst := tsDst + [tr.commit[1] - tr.relayer[2].at];
    }
    assert memos[..|memos|] == memos;
    if memos == [] {
      return None;
    }
    r := Some(Averages(Mean(tsSrc), Mean(tsRly), Mean(tsDst)));
  }

  lemma EventsUpTo(e: seq<Time>, n: nat)
    requires n < |e|
    ensures Commits(e[..n + 1]) == Commits(e[..n]) + if IsCommit(n) then [e[n]] else []
    ensures Marks(e[..n + 1]) == Marks(e[..n]) + if IsCommit(n) then [] else [Mark(TagAt(n), e[n])]
  {
    CommitsSnoc(e[..n], e[n]);
    MarksSnoc(e[..n], e[n]);
    assert e[..n] + [e[n]] == e[..n + 1];
  }

  /** Committed, then listened to, readied and sent. */
  lemma FourEvents(e: seq<Time>)
    requires |e| >= 4
    ensures Commits(e[..4]) == [e[0]]
    ensures Marks(e[..4]) == [Mark(Listened, e[1]), Mark(Ready, e[2]), Mark(Send, e[3])]
  {
    EventsUpTo(e, 0);
    EventsUpTo(e, 1);
    assert Commits(e[..2]) == [e[0]] && Marks(e[..2]) == [Mark(Listened, e[1])];
    EventsUpTo(e, 2);
    EventsUpTo(e, 3);
  }

  lemma FiveEvents(e: seq<Time>)
    requires |e| >= 5
    ensures Commits(e[..5]) == [e[0], e[4]]
    ensures Marks(e[..5]) == [Mark(Listened, e[1]), Mark(Ready, e[2]), Mark(Send, e[3])]
  {
    FourEvents(e);
    EventsUpTo(e, 4);
  }

  /** The memo was put with nothing but the time of its creation. */
  predicate Clean(q: Request) {
    && Indexable(q.tx.trace) && q.tx.trace.commit == [] && q.tx.trace.relayer == []
    && q.tx.trace.init.Some? && q.tx.trace.init.value <= q.at
  }

  /** The memo was clean, and n events have happened since. */
  ghost predicate Timed(tr: Trace, n: nat, now: Time) {
    exists q :: Clean(q) && Happened(q, tr, n, now)
  }

  /** What a delivered memo must have been put with: the time of its creation, and in NoR and ToR no
      marks, or at least three of the right tags. */
  predicate Analysable(mode: R.Mode, own: Trace) {
    && Indexable(own) && own.init.Some?
    && (mode != R.AoR && own.relayer != [] ==>
          |own.relayer| >= 3 && own.relayer[0].tag == Listened && own.relayer[2].tag == Send)
  }

  /** A delivered memo of NoR or ToR can be analysed exactly when it was put with the right entries. */
  lemma DirectExactly(q: Request, tr: Trace, now: Time)
    requires Happened(q, tr, 5, now)
    ensures Readable(tr) <==> Analysable(R.NoR, q.tx.trace)
  {
    hide Commits, Marks;
    var e: seq<Time> :| |e| == 5 && TracedBy(tr, q, e, now);
    FiveEvents(e);
    assert e[..5] == e;
    var own := q.tx.trace.relayer;
    assert tr.relayer == own + [Mark(Listened, e[1]), Mark(Ready, e[2]), Mark(Send, e[3])];
    if |own| == 1 {
      assert tr.relayer[2].tag == Ready;
    } else if |own| == 2 {
      assert tr.relayer[2].tag == Listened;
    }
  }

  /** If it was put with nothing but the time of its creation, no stage is negative, and they leave
      out exactly the time until the listener read it; so they add up to the latency exactly when it
      was read at the time of its commit. */
  lemma DirectReadable(tr: Trace, now: Time)
    requires Timed(tr, 5, now)
    ensures Readable(tr)
    ensures SrcStage(tr) >= 0 && RlyStage(tr) >= 0 && DstStage(tr) >= 0 && Pickup(tr) >= 0
    ensures SrcStage(tr) + RlyStage(tr) + DstStage(tr) + Pickup(tr) == Latency(tr) <= now - tr.init.value
    ensures SrcStage(tr) + RlyStage(tr) + DstStage(tr) == Latency(tr) <==> tr.relayer[0].at == tr.commit[0]
  {
    hide Commits, Marks;
    var q :| Clean(q) && Happened(q, tr, 5, now);
    var e: seq<Time> :| |e| == 5 && TracedBy(tr, q, e, now);
    FiveEvents(e);
    assert e[..5] == e;
    assert e[1] <= e[3] <= e[4] && e[0] <= e[1];
  }

  /** What each stage is, told from the events: creation to commit, reading to sending, and sending to
      the commit on the destination. */
  lemma DirectStages(q: Request, tr: Trace, e: seq<Time>, now: Time)
    requires Clean(q) && |e| == 5 && TracedBy(tr, q, e, now)
    ensures Readable(tr) && SrcStage(tr) == e[0] - q.tx.trace.init.value && RlyStage(tr) == e[3] - e[1] && DstStage(tr) == e[4] - e[3]
    ensures Latency(tr) == e[4] - q.tx.trace.init.value && Pickup(tr) == e[1] - e[0]
  {
    hide Commits, Marks;
    FiveEvents(e);
    assert e[..5] == e;
  }

  /** A memo with the request that it stems from and the events since. */
  datatype Story = Story(memo: Trace, request: Request, events: seq<Time>)

  ghost predicate Tells(stories: seq<Story>, n: nat, now: Time) {
    forall i | 0 <= i < |stories| ::
      Clean(stories[i].request) && |stories[i].events| == n && TracedBy(stories[i].memo, stories[i].request, stories[i].events, now)
  }

  predicate AllCreated(stories: seq<Story>, n: nat) {
    forall i | 0 <= i < |stories| :: |stories[i].events| == n && stories[i].request.tx.trace.init.Some?
  }

  function Memos(stories: seq<Story>): (r: seq<Trace>)
    ensures |r| == |stories| && forall i | 0 <= i < |r| :: r[i] == stories[i].memo
  {
    seq(|stories|, i requires 0 <= i < |stories| => stories[i].memo)
  }

  /** From event a to event b of each; from the creation when a is -1. */
  function Spans(stories: seq<Story>, n: nat, a: int, b: nat): (r: seq<int>)
    requires -1 <= a < b < n && AllCreated(stories, n)
    ensures |r| == |stories|
  {
    seq(|stories|, i requires 0 <= i < |stories| =>
      stories[i].events[b] - if a == -1 then stories[i].request.tx.trace.init.value else stories[i].events[a])
  }

  lemma TotalIs(f: Trace --> int, memos: seq<Trace>, xs: seq<int>)
    requires |xs| == |memos| > 0 && forall i | 0 <= i < |memos| :: f.requires(memos[i]) && f(memos[i]) == xs[i]
    ensures Mean(Values(f, memos)) * |memos| as real == Sum(xs) as real
  {
    assert Values(f, memos) == xs;
    MeanTimes(xs);
  }

  lemma DirectSpans(stories: seq<Story>, now: Time)
    requires Tells(stories, 5, now)
    ensures AllCreated(stories, 5)
    ensures forall i | 0 <= i < |stories| ::
      var memo := Memos(stories)[i];
      && Readable(memo) && SrcStage(memo) == Spans(stories, 5, -1, 0)[i]
      && RlyStage(memo) == Spans(stories, 5, 1, 3)[i] && DstStage(memo) == Spans(stories, 5, 3, 4)[i]
  {
    hide TracedBy;
    forall i | 0 <= i < |stories|
      ensures var memo := Memos(stories)[i];
        && Readable(memo) && SrcStage(memo) == Spans(stories, 5, -1, 0)[i]
        && RlyStage(memo) == Spans(stories, 5, 1, 3)[i] && DstStage(memo) == Spans(stories, 5, 3, 4)[i]
    {
      DirectStages(stories[i].request, stories[i].memo, stories[i].events, now);
    }
  }

  /** What the analysis reports of delivered memos: each average, times their number, is the sum of the
      times between these events. */
  lemma DirectAverages(stories: seq<Story>, now: Time)
    requires stories != [] && Tells(stories, 5, now)
    ensures AllReadable(Memos(stories)) && AllCreated(stories, 5)
    ensures var memos, n := Memos(stories), |stories| as real;
      && Mean(Values(SrcStage, memos)) * n == Sum(Spans(stories, 5, -1, 0)) as real
      && Mean(Values(RlyStage, memos)) * n == Sum(Spans(stories, 5, 1, 3)) as real
      && Mean(Values(DstStage, memos)) * n == Sum(Spans(stories, 5, 3, 4)) as real
  {
    hide Mean, Sum, Values, SrcStage, RlyStage, DstStage, Spans, Tells;
    var memos := Memos(stories);
    DirectSpans(stories, now);
    TotalIs(SrcStage, memos, Spans(stories, 5, -1, 0));
    TotalIs(RlyStage, memos, Spans(stories, 5, 1, 3));
    TotalIs(DstStage, memos, Spans(stories, 5, 3, 4));
  }

  /** Of such memos the reported averages are non-negative, and with the average time until listening make the
      average latency; so they add up to it exactly when everything was read at once. */
  lemma AveragesAddUp(memos: seq<Trace>, now: Time)
    requires memos != [] && forall i | 0 <= i < |memos| :: Timed(memos[i], 5, now)
    ensures AllReadable(memos)
    ensures var src, rly, dst := Mean(Values(SrcStage, memos)), Mean(Values(RlyStage, memos)), Mean(Values(DstStage, memos));
      && src >= 0.0 && rly >= 0.0 && dst >= 0.0
      && src + rly + dst + Mean(Values(Pickup, memos)) == Mean(Values(Latency, memos))
      && (src + rly + dst == Mean(Values(Latency, memos)) <==> forall i | 0 <= i < |memos| :: Pickup(memos[i]) == 0)
  {
    hide Timed;
    forall i | 0 <= i < |memos|
      ensures Readable(memos[i]) && SrcStage(memos[i]) >= 0 && RlyStage(memos[i]) >= 0 && DstStage(memos[i]) >= 0
      ensures Pickup(memos[i]) >= 0
      ensures SrcStage(memos[i]) + RlyStage(memos[i]) + DstStage(memos[i]) + Pickup(memos[i]) == Latency(memos[i])
    {
      DirectReadable(memos[i], now);
    }
    FourParts(Values(SrcStage, memos), Values(RlyStage, memos), Values(DstStage, memos), Values(Pickup, memos), Values(Latency, memos));
  }

  lemma FourParts(a: seq<int>, b: seq<int>, c: seq<int>, gap: seq<int>, all: seq<int>)
    requires |a| == |b| == |c| == |gap| == |all| > 0
    requires forall i | 0 <= i < |all| :: a[i] >= 0 && b[i] >= 0 && c[i] >= 0 && gap[i] >= 0 && a[i] + b[i] + c[i] + gap[i] == all[i]
    ensures Mean(a) >= 0.0 && Mean(b) >= 0.0 && Mean(c) >= 0.0
    ensures Mean(a) + Mean(b) + Mean(c) + Mean(gap) == Mean(all)
    ensures Mean(a) + Mean(b) + Mean(c) == Mean(all) <==> forall i | 0 <= i < |gap| :: gap[i] == 0
  {
    MeanNonNegative(a);
    MeanNonNegative(b);
    MeanNonNegative(c);
    MeanNonNegative(gap);
    MeanAdded(a, b);
    MeanAdded(Added(a, b), c);
    MeanAdded(Added(Added(a, b), c), gap);
    assert Added(Added(Added(a, b), c), gap) == all;
  }

  // ----- AoR -----

  predicate ReadableTwice(tr: Trace) {
    Indexable(tr) && tr.init.Some? && |tr.commit| >= 3 && |tr.relayer| >= 6
  }

  function Src(tr: Trace): int requires ReadableTwice(tr) { tr.commit[0] - tr.init.value }
  function Rly01(tr: Trace): int requires ReadableTwice(tr) { tr.relayer[2].at - tr.relayer[0].at }
  function Inter(tr: Trace): int requires ReadableTwice(tr) { tr.commit[1] - tr.relayer[2].at }
  function Rly02(tr: Trace): int requires ReadableTwice(tr) { tr.relayer[5].at - tr.relayer[3].at }
  function Dst(tr: Trace): int requires ReadableTwice(tr) { tr.commit[2] - tr.relayer[5].at }

  function LatencyTwice(tr: Trace): int requires ReadableTwice(tr) { tr.commit[2] - tr.init.value }

  /** What no stage measures: from each of the first two commits to the next listener's reading. */
  function Pickups(tr: Trace): int requires ReadableTwice(tr) { (tr.relayer[0].at - tr.commit[0]) + (tr.relayer[3].at - tr.commit[1]) }

  ghost predicate AllReadableTwice(memos: seq<Trace>) {
    forall i | 0 <= i < |memos| :: ReadableTwice(memos[i])
  }

  datatype RelayAverages = RelayAverages(src: real, rly01: real, inter: real, rly02: real, dst: real)

  method AnalysisAor(memos: seq<Trace>) returns (r: Option<RelayAverages>)
    ensures r.Some? <==> memos != [] && AllReadableTwice(memos)
    ensures r.Some? ==> r.value.src == Mean(Values(Src, memos)) && r.value.rly01 == Mean(Values(Rly01, memos))
    ensures r.Some? ==> r.value.inter == Mean(Values(Inter, memos)) && r.value.rly02 == Mean(Values(Rly02, memos))
    ensures r.Some? ==> r.value.dst == Mean(Values(Dst, memos))
  {
    var tsSrc: seq<int>, tsRly01: seq<int>, tsInter: seq<int>, tsRly02: seq<int>, tsDst: seq<int> := [], [], [], [], [];
    for k := 0 to |memos|
      invariant AllReadableTwice(memos[..k])
      invariant tsSrc == Values(Src, memos[..k]) && tsRly01 == Values(Rly01, memos[..k])
      invariant tsInter == Values(Inter, memos[..k]) && tsRly02 == Values(Rly02, memos[..k])
      invariant tsDst == Values(Dst, memos[..k])
    {
      var tr := memos[k];
      if !Indexable(tr) || tr.init.None? || |tr.commit| < 3 || |tr.relayer| < 6 {
        return None;
      }
      tsSrc := tsSrc + [tr.commit[0] - tr.init.value];
      tsRly01 := tsRly01 + [tr.relayer[2].at - tr.relayer[0].at];
      tsInter := tsInter + [tr.commit[1] - tr.relayer[2].at];
      tsRly02 := tsRly02 + [tr.relayer[5].at - tr.relayer[3].at];
      tsDst := tsDst + [tr.commit[2] - tr.relayer[5].at];
    }
    assert memos[..|memos|] == memos;
    if memos == [] {
      return None;
    }
    r := Some(RelayAverages(Mean(tsSrc), Mean(tsRly01), Mean(tsInter), Mean(tsRly02), Mean(tsDst)));
  }

  lemma NineEvents(e: seq<Time>)
    requires |e| == 9
    ensures Commits(e) == [e[0], e[4], e[8]]
    ensures Marks(e) == [Mark(Listened, e[1]), Mark(Ready, e[2]), Mark(Send, e[3]), Mark(Listened, e[5]), Mark(Ready, e[6]), Mark(Send, e[7])]
  {
    FiveEvents(e);
    EventsUpTo(e, 5);
    EventsUpTo(e, 6);
    EventsUpTo(e, 7);
    EventsUpTo(e, 8);
    assert e[..9] == e;
  }

  /** In AoR it is the time of creation alone that a delivered memo can lack. */
  lemma RelayedExactly(q: Request, tr: Trace, now: Time)
    requires Happened(q, tr, 9, now)
    ensures ReadableTwice(tr) <==> Analysable(R.AoR, q.tx.trace)
  {
    hide Commits, Marks;
    var e: seq<Time> :| |e| == 9 && TracedBy(tr, q, e, now);
    NineEvents(e);
  }

  /** No stage of a memo put with nothing else is negative, and they leave out exactly the times
      until the two listeners read it. */
  lemma RelayedReadable(tr: Trace, now: Time)
    requires Timed(tr, 9, now)
    ensures ReadableTwice(tr)
    ensures Src(tr) >= 0 && Rly01(tr) >= 0 && Inter(tr) >= 0 && Rly02(tr) >= 0 && Dst(tr) >= 0 && Pickups(tr) >= 0
    ensures Src(tr) + Rly01(tr) + Inter(tr) + Rly02(tr) + Dst(tr) + Pickups(tr) == LatencyTwice(tr) <= now - tr.init.value
    ensures Src(tr) + Rly01(tr) + Inter(tr) + Rly02(tr) + Dst(tr) == LatencyTwice(tr)
            <==> tr.relayer[0].at == tr.commit[0] && tr.relayer[3].at == tr.commit[1]
  {
    hide Commits, Marks;
    var q :| Clean(q) && Happened(q, tr, 9, now);
    var e: seq<Time> :| |e| == 9 && TracedBy(tr, q, e, now);
    NineEvents(e);
    assert e[0] <= e[1] <= e[3] && e[3] <= e[4] <= e[5] && e[5] <= e[7] <= e[8];
  }

  /** The five stages of AoR, told from the events. */
  lemma RelayedStages(q: Request, tr: Trace, e: seq<Time>, now: Time)
    requires Clean(q) && |e| == 9 && TracedBy(tr, q, e, now)
    ensures ReadableTwice(tr) && Src(tr) == e[0] - q.tx.trace.init.value && Rly01(tr) == e[3] - e[1] && Inter(tr) == e[4] - e[3]
    ensures Rly02(tr) == e[7] - e[5] && Dst(tr) == e[8] - e[7]
    ensures LatencyTwice(tr) == e[8] - q.tx.trace.init.value && Pickups(tr) == (e[1] - e[0]) + (e[5] - e[4])
  {
    hide Commits, Marks;
    NineEvents(e);
  }

  lemma RelayedSpans(stories: seq<Story>, now: Time)
    requires Tells(stories, 9, now)
    ensures AllCreated(stories, 9)
    ensures forall i | 0 <= i < |stories| ::
      var memo := Memos(stories)[i];
      && ReadableTwice(memo) && Src(memo) == Spans(stories, 9, -1, 0)[i] && Rly01(memo) == Spans(stories, 9, 1, 3)[i]
      && Inter(memo) == Spans(stories, 9, 3, 4)[i] && Rly02(memo) == Spans(stories, 9, 5, 7)[i] && Dst(memo) == Spans(stories, 9, 7, 8)[i]
  {
    hide TracedBy;
    forall i | 0 <= i < |stories|
      ensures var memo := Memos(stories)[i];
        && ReadableTwice(memo) && Src(memo) == Spans(stories, 9, -1, 0)[i] && Rly01(memo) == Spans(stories, 9, 1, 3)[i]
        && Inter(memo) == Spans(stories, 9, 3, 4)[i] && Rly02(memo) == Spans(stories, 9, 5, 7)[i] && Dst(memo) == Spans(stories, 9, 7, 8)[i]
    {
      RelayedStages(stories[i].request, stories[i].memo, stories[i].events, now);
    }
  }

  /** What the analysis reports, likewise. */
  lemma RelayedAverages(stories: seq<Story>, now: Time)
    requires stories != [] && Tells(stories, 9, now)
    ensures AllReadableTwice(Memos(stories)) && AllCreated(stories, 9)
    ensures var memos, n := Memos(stories), |stories| as real;
      && Mean(Values(Src, memos)) * n == Sum(Spans(stories, 9, -1, 0)) as real
      && Mean(Values(Rly01, memos)) * n == Sum(Spans(stories, 9, 1, 3)) as real
      && Mean(Values(Inter, memos)) * n == Sum(Spans(stories, 9, 3, 4)) as real
      && Mean(Values(Rly02, memos)) * n == Sum(Spans(stories, 9, 5, 7)) as real
      && Mean(Values(Dst, memos)) * n == Sum(Spans(stories, 9, 7, 8)) as real
  {
    hide Mean, Sum, Values, Src, Rly01, Inter, Rly02, Dst, Spans, Tells;
    var memos := Memos(stories);
    RelayedSpans(stories, now);
    TotalIs(Src, memos, Spans(stories, 9, -1, 0));
    TotalIs(Rly01, memos, Spans(stories, 9, 1, 3));
    TotalIs(Inter, memos, Spans(stories, 9, 3, 4));
    TotalIs(Rly02, memos, Spans(stories, 9, 5, 7));
    TotalIs(Dst, memos, Spans(stories, 9, 7, 8));
  }

  /** The five averages, likewise. */
  lemma RelayAveragesAddUp(memos: seq<Trace>, now: Time)
    requires memos != [] && forall i | 0 <= i < |memos| :: Timed(memos[i], 9, now)
    ensures AllReadableTwice(memos)
    ensures var src, rly, inter := Mean(Values(Src, memos)), Mean(Values(Rly01, memos)), Mean(Values(Inter, memos));
      var rly2, dst, all := Mean(Values(Rly02, memos)), Mean(Values(Dst, memos)), Mean(Values(LatencyTwice, memos));
      && src >= 0.0 && rly >= 0.0 && inter >= 0.0 && rly2 >= 0.0 && dst >= 0.0
      && src + rly + inter + rly2 + dst + Mean(Values(Pickups, memos)) == all
      && (src + rly + inter + rly2 + dst == all <==> forall i | 0 <= i < |memos| :: Pickups(memos[i]) == 0)
  {
    hide Timed;
    forall i | 0 <= i < |memos|
      ensures ReadableTwice(memos[i]) && Src(memos[i]) >= 0 && Rly01(memos[i]) >= 0 && Inter(memos[i]) >= 0
      ensures Rly02(memos[i]) >= 0 && Dst(memos[i]) >= 0 && Pickups(memos[i]) >= 0
      ensures Src(memos[i]) + Rly01(memos[i]) + Inter(memos[i]) + Rly02(memos[i]) + Dst(memos[i]) + Pickups(memos[i]) == LatencyTwice(memos[i])
    {
      RelayedReadable(memos[i], now);
    }
    var a, b, c := Values(Src, memos), Values(Rly01, memos), Values(Inter, memos);
    var d, e, gap := Values(Rly02, memos), Values(Dst, memos), Values(Pickups, memos);
    MeanNonNegative(d);
    MeanNonNegative(e);
    MeanAdded(c, d);
    MeanAdded(Added(c, d), e);
    MeanNonNegative(c);
    FourParts(a, b, Added(Added(c, d), e), gap, Values(LatencyTwice, memos));
  }

  // ----- over runs -----

  /** What a run has delivered can be analysed if and only if it was put with the right entries. When
      it was put with nothing but the time of its creation, the times of its memo are in order. */
  lemma DeliveredIsReadable(cfg: Config, s0: Sys, steps: seq<Step>, d: Pid, i: nat) returns (q: Request)
    requires Init(cfg, s0) && Run(cfg, s0, steps).Some? && d in Run(cfg, s0, steps).value.chains
    requires i < |C.Flat(Run(cfg, s0, steps).value.chains[d].blocks)|
    requires C.Flat(Run(cfg, s0, steps).value.chains[d].blocks)[i].item.kind == CtxDst
    ensures q in Requests(steps) && UserTx(cfg, q.p, q.tx) && q.tx.item.kind == CtxSrc
    ensures Stems(q, C.Flat(Run(cfg, s0, steps).value.chains[d].blocks)[i].item)
    ensures var tr := C.Flat(Run(cfg, s0, steps).value.chains[d].blocks)[i].trace;
      && ((if cfg.mode == R.AoR then ReadableTwice(tr) else Readable(tr)) <==> Analysable(cfg.mode, q.tx.trace))
      && (Clean(q) ==> Timed(tr, Events(cfg.mode), Run(cfg, s0, steps).value.now))
  {
    hide UserTx, Stems, Requests;
    var s := Run(cfg, s0, steps).value;
    var tr := C.Flat(s.chains[d].blocks)[i].trace;
    q := DeliveredTrace(cfg, s0, steps, d, i);
    if cfg.mode == R.AoR {
      RelayedExactly(q, tr, s.now);
    } else {
      DirectExactly(q, tr, s.now);
    }
  }
}
