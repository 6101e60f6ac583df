/** How the hot sets of a generated workload drift from epoch to epoch, and what its requests look like. */
module Drifts {
  import opened Model
  import opened Workloads
  import opened HotSets
  import opened Generator

  /* ---- From epoch to epoch ---- */

  /** A static workload has the same hot sets in all epochs, whatever churn is configured. */
  lemma {:induction false} StaticStays(config: WorkloadConfig, candidates: seq<nat>, layouts: seq<Segments>,
                                       hotSets: seq<seq<seq<nat>>>, e: nat, f: nat)
    requires LayoutsOk(config, candidates, layouts) && HotSetsOf(config, hotSets, layouts)
    requires config.mode == Static && e <= f < |hotSets|
    ensures hotSets[e] == hotSets[f]
    decreases f - e
  {
    if e < f {
      assert Follows(config, candidates, e + 1, layouts[e], layouts[e + 1]);
      assert HotSetsAt(config, hotSets[e], layouts[e]) && HotSetsAt(config, hotSets[e + 1], layouts[e + 1]);
      StaticStays(config, candidates, layouts, hotSets, e + 1, f);
    }
  }

  /** The least whole number of objects that is no smaller than the fraction of a segment. */
  predicate LeastWhole(n: nat, segment: seq<nat>, fraction: real) {
    |segment| as real * fraction <= n as real < |segment| as real * fraction + 1.0
  }

  /** A segment keeps all but the last `d` of its objects; what replaces those had not been hot. */
  predicate KeepsAllBut(d: nat, before: seq<nat>, after: seq<nat>, hot: set<nat>) {
    && |after| == |before| && d <= |before| && after[..|before| - d] == before[..|before| - d]
    && forall i :: |before| - d <= i < |after| ==> after[i] !in hot
  }

  lemma ChurnedKeeps(before: seq<nat>, after: seq<nat>, objects: seq<nat>, hot: set<nat>, churn: real) returns (d: nat)
    requires SegmentChurned(before, after, objects, hot, churn) && 0.0 < churn < 1.0
    ensures LeastWhole(d, before, churn) && KeepsAllBut(d, before, after, hot)
  {
    d := ReplacementCount(|before|, churn);
    if |before| > 0 {
      ReplacementBounds(|before|, churn);
    }
  }

  /**
   * Under a partial churn every segment, the shared one and that of each node, keeps exactly its size less the least
   * whole number of objects that is no smaller than the fraction of it.
   */
  lemma ShiftsPartly(config: WorkloadConfig, candidates: seq<nat>, layouts: seq<Segments>, e: nat, node: nat)
    returns (shared: nat, private: nat)
    requires LayoutsOk(config, candidates, layouts) && 0 < e < |layouts| && node < |config.nodes|
    requires config.mode == Shifted && 0.0 < config.churn < 1.0
    ensures |layouts[e].private| == |layouts[e - 1].private| == |config.nodes|
    ensures var before, after := layouts[e - 1], layouts[e];
            && LeastWhole(shared, before.shared, config.churn)
            && KeepsAllBut(shared, before.shared, after.shared, Union(All(before)))
            && LeastWhole(private, before.private[node], config.churn)
            && KeepsAllBut(private, before.private[node], after.private[node], Union(All(before)))
  {
    hide LayoutsOk, All, Union, SegmentChurned, KeepsAllBut, LeastWhole;
    var before, after, hot := layouts[e - 1], layouts[e], Union(All(layouts[e - 1]));
    PartlyChurned(config, candidates, layouts, e, node);
    shared := ChurnedKeeps(before.shared, after.shared, candidates, hot, config.churn);
    private := ChurnedKeeps(before.private[node], after.private[node], candidates, hot, config.churn);
  }

  lemma PartlyChurned(config: WorkloadConfig, candidates: seq<nat>, layouts: seq<Segments>, e: nat, node: nat)
    requires LayoutsOk(config, candidates, layouts) && 0 < e < |layouts| && node < |config.nodes|
    requires config.mode == Shifted && 0.0 < config.churn < 1.0
    ensures var before, after := layouts[e - 1], layouts[e];
            var hot := Union(All(before));
            && |after.private| == |before.private| == |config.nodes|
            && SegmentChurned(before.shared, after.shared, candidates, hot, config.churn)
            && SegmentChurned(before.private[node], after.private[node], candidates, hot, config.churn)
  {
    var before, after := layouts[e - 1], layouts[e];
    assert GoodLayout(config, candidates, before) && GoodLayout(config, candidates, after);
    assert Follows(config, candidates, e, before, after);
    hide NoRepeats, Union, SegmentChurned, SetOf;
    AllParts(before);
    AllParts(after);
    assert SegmentChurned(All(before)[0], All(after)[0], candidates, Union(All(before)), config.churn);
    assert SegmentChurned(All(before)[node + 1], All(after)[node + 1], candidates, Union(All(before)), config.churn);
  }

  /**
   * The objects that a partial churn brings in are the next of the list of candidates that had not been hot, segment by
   * segment; the search starts behind the first layout, and then wherever it left off in the epoch before.
   */
  lemma ChurnGoesOn(config: WorkloadConfig, candidates: seq<nat>, layouts: seq<Segments>, cursors: seq<nat>, e: nat,
                    node: nat)
    requires LayoutsOk(config, candidates, layouts) && CursorsOk(config, candidates, layouts, cursors)
    requires config.mode == Shifted && 0.0 < config.churn < 1.0 && 0 < e < |layouts| && node < |config.nodes|
    ensures |cursors| == |layouts| && |layouts[0].private| == |config.nodes|
    ensures cursors[0] == |layouts[0].shared| + |layouts[0].private[node]| * |config.nodes|
    ensures PicksNext(All(layouts[e - 1]), All(layouts[e]), candidates, cursors[e - 1], cursors[e], config.churn)
  {
    hide PicksNext, NoRepeats, Union;
    assert GoodLayout(config, candidates, layouts[0]);
    assert Resumes(config, candidates, layouts[e - 1], layouts[e], cursors[e - 1], cursors[e]);
  }

  /** Where object number `i` of a node's hot set is found in the list of candidates, from the start of the layout. */
  function PlaceIn(shared: nat, private: nat, node: nat, i: nat): nat {
    if i < shared then i else shared + node * private + (i - shared)
  }

  lemma WrapsOnce(a: nat, b: nat, n: nat)
    requires n > 0
    ensures (a % n + b) % n == (a + b) % n
  {
    var q, r := (a + b) / n, (a + b) % n;
    assert a + b == q * n + r && a == (a / n) * n + a % n;
    assert a % n + b == q * n - (a / n) * n + r;
    Distributes(q, a / n, n);
    if q < a / n {
      Multiple(q - a / n, n);
    }
    Division(a % n + b, n, q - a / n, r);
  }

  /** The hot sets of an epoch that is laid out afresh. */
  lemma LaidOutAt(config: WorkloadConfig, candidates: seq<nat>, s: Segments, first: nat, node: nat, i: nat)
    requires candidates != [] && LaidOutFrom(config, candidates, s, first % |candidates|)
    requires Sized(s, SharedCount(config), PrivateCount(config), |config.nodes|)
    requires node < |config.nodes| && i < config.hotSetSize
    ensures |HotSetForNode(s, node)| == config.hotSetSize
    ensures HotSetForNode(s, node)[i] ==
            candidates[(first + PlaceIn(|s.shared|, |s.private[node]|, node, i)) % |candidates|]
  {
    var start, n, shared, private := first % |candidates|, |candidates|, SharedCount(config), PrivateCount(config);
    if i < shared {
      assert HotSets.Run(candidates, All(s)[0], StartOf(start, shared, private, 0));
      WrapsOnce(first, i, n);
    } else {
      assert HotSets.Run(candidates, All(s)[node + 1], StartOf(start, shared, private, node + 1));
      assert HotSetForNode(s, node)[i] == s.private[node][i - shared];
      WrapsOnce(first, shared + node * private + (i - shared), n);
    }
  }

  /**
   * Under a full churn the layouts of the epochs follow each other in the list of candidates, one stride apart: the
   * shared objects and those of all nodes. The first epoch is laid out so in any case.
   */
  lemma ShiftsByStride(config: WorkloadConfig, candidates: seq<nat>, layouts: seq<Segments>,
                       hotSets: seq<seq<seq<nat>>>, e: nat, node: nat, i: nat)
    requires Acceptable(config) && LayoutsOk(config, candidates, layouts) && HotSetsOf(config, hotSets, layouts)
    requires layouts != [] && LaidOutFrom(config, candidates, layouts[0], 0)
    requires e < |layouts| && node < |config.nodes| && i < config.hotSetSize
    requires e > 0 ==> config.mode == Shifted && config.churn == 1.0
    ensures |layouts[e].private| == |hotSets[e]| == |config.nodes| && |hotSets[e][node]| == config.hotSetSize
    ensures var shared, private := |layouts[e].shared|, |layouts[e].private[node]|;
            && shared + private == config.hotSetSize && |candidates| >= shared + private * |config.nodes| > 0
            && hotSets[e][node][i] ==
               candidates[(e * (shared + private * |config.nodes|) + PlaceIn(shared, private, node, i)) % |candidates|]
  {
    hide NoRepeats, Union, LaidOutFrom;
    var s, stride := layouts[e], RequiredPerEpoch(config);
    assert GoodLayout(config, candidates, s) && HotSetsAt(config, hotSets[e], s);
    GoodFits(config, candidates, s);
    if e == 0 {
      Division(0, |candidates|, 0, 0);
      LaidOutAt(config, candidates, s, 0, node, i);
    } else {
      assert Follows(config, candidates, e, layouts[e - 1], s);
      LaidOutAt(config, candidates, s, e * stride, node, i);
    }
  }

  /** A layout without repetition takes no more objects than there are candidates. */
  lemma GoodFits(config: WorkloadConfig, candidates: seq<nat>, s: Segments)
    requires GoodLayout(config, candidates, s) && config.hotSetSize > 0 && config.nodes != []
    ensures |candidates| >= RequiredPerEpoch(config) > 0
  {
    UnionCountExactly(s.private, PrivateCount(config), All(s));
    Apartness(s);
    UnionParts(s);
    UniqueCount(s.shared);
    assert |Union(All(s))| == |SetOf(s.shared)| + |Union(s.private)|;
    Contained(Union(All(s)), SetOf(candidates));
    SetOfCount(candidates);
    Grows(1, |config.nodes|, PrivateCount(config));
  }

  lemma Apartness(s: Segments)
    requires NoRepeats(All(s))
    ensures SetOf(s.shared) !! Union(s.private) && Unique(s.shared)
  {
    forall o | o in Union(s.private) ensures o !in s.shared {
      var i :| 0 <= i < |s.private| && o in s.private[i];
      assert Apart(All(s)[0], All(s)[i + 1]) && o in SetOf(All(s)[i + 1]);
    }
    assert Unique(All(s)[0]);
  }

  lemma NotBefore(all: seq<seq<nat>>, parts: seq<seq<nat>>, n: nat)
    requires NoRepeats(all) && n == |parts| && n + 1 < |all| && forall i :: 0 <= i < n ==> parts[i] == all[i + 1]
    ensures Union(parts) !! SetOf(all[n + 1])
  {
    forall o | o in Union(parts) ensures o !in SetOf(all[n + 1]) {
      var i :| 0 <= i < n && o in parts[i];
      assert Apart(all[i + 1], all[n + 1]) && o in SetOf(all[i + 1]);
    }
  }

  lemma {:induction false} UnionCountExactly(parts: seq<seq<nat>>, size: nat, all: seq<seq<nat>>)
    requires NoRepeats(all) && |parts| < |all| && forall i :: 0 <= i < |parts| ==> parts[i] == all[i + 1]
    requires forall i :: 0 <= i < |parts| ==> |parts[i]| == size
    ensures |Union(parts)| == |parts| * size
  {
    if parts == [] {
      assert Union(parts) == {};
    } else {
      var n := |parts| - 1;
      UnionCountExactly(parts[..n], size, all);
      assert parts == parts[..n] + [parts[n]];
      UnionNext(parts[..n], parts[n]);
      assert Unique(all[n + 1]);
      UniqueCount(parts[n]);
      NotBefore(all, parts[..n], n);
      assert |Union(parts)| == |Union(parts[..n])| + |SetOf(parts[n])|;
      OneMoreGroup(n, size);
    }
  }

  /* ---- What nodes have in common, and where hot objects lie ---- */

  /** Two nodes' hot sets have nothing in common, half of the objects, rounded down, or everything. */
  lemma OverlapMeans(config: WorkloadConfig, candidates: seq<nat>, layouts: seq<Segments>,
                     hotSets: seq<seq<seq<nat>>>, e: nat, a: nat, b: nat)
    requires Acceptable(config) && LayoutsOk(config, candidates, layouts) && HotSetsOf(config, hotSets, layouts)
    requires SetOf(candidates) == EligibleSet(config, config.objectCount)
    requires e < |layouts| && a < |config.nodes| && b < |config.nodes| && a != b
    ensures |hotSets[e]| == |config.nodes| && |hotSets[e][a]| == |hotSets[e][b]| == config.hotSetSize
    ensures var x, y := SetOf(hotSets[e][a]), SetOf(hotSets[e][b]);
            && (config.overlap == Low ==> x !! y)
            && (config.overlap == Medium ==> 2 * |x * y| <= config.hotSetSize < 2 * |x * y| + 2)
            && (config.overlap == High ==> x == y)
  {
    hide LayoutsOk, SetOf, Unique, Acceptable, SharedCount;
    HotSetsKept(config, candidates, layouts, hotSets, e, a, b);
    HotSetsKept(config, candidates, layouts, hotSets, e, b, a);
    UniqueCount(hotSets[e][a]);
    UniqueCount(hotSets[e][b]);
    InCommon(config, SetOf(hotSets[e][a]), SetOf(hotSets[e][b]));
  }

  lemma InCommon(config: WorkloadConfig, x: set<nat>, y: set<nat>)
    requires |x * y| == SharedCount(config) && |x| == |y| == config.hotSetSize
    ensures config.overlap == Low ==> x !! y
    ensures config.overlap == Medium ==> 2 * |x * y| <= config.hotSetSize < 2 * |x * y| + 2
    ensures config.overlap == High ==> x == y
  {
    match config.overlap
    case Low =>
      forall o | o in x ensures o !in y {
        assert o !in x * y;
      }
    case Medium =>
    case High => SameWhenAllMeet(x, y);
  }

  lemma SameWhenAllMeet(x: set<nat>, y: set<nat>)
    requires |x * y| == |x| == |y|
    ensures x == y
  {
    assert |x| == |x * y| + |x - y| by { assert x == x * y + (x - y); }
    assert |y| == |x * y| + |y - x| by { assert y == x * y + (y - x); }
  }

  /** Where hot objects are restricted to some channels, they all lie on those. */
  lemma HotOnHotChannels(config: WorkloadConfig, candidates: seq<nat>, layouts: seq<Segments>,
                         hotSets: seq<seq<seq<nat>>>, e: nat, node: nat, obj: nat)
    requires Acceptable(config) && LayoutsOk(config, candidates, layouts) && HotSetsOf(config, hotSets, layouts)
    requires SetOf(candidates) == EligibleSet(config, config.objectCount)
    requires e < |layouts| && node < |config.nodes|
    ensures |hotSets[e]| == |config.nodes|
    ensures obj in hotSets[e][node] ==>
              1 <= obj <= config.objectCount &&
              (config.hotChannels > 0 ==> (obj - 1) % config.memoryChannels < config.hotChannels)
  {
    hide NoRepeats;
    var s := layouts[e];
    assert GoodLayout(config, candidates, s) && HotSetsAt(config, hotSets[e], s);
    if obj in hotSets[e][node] {
      ListedInUnion(All(s), 0);
      ListedInUnion(All(s), node + 1);
      assert obj in SetOf(All(s)[0]) || obj in SetOf(All(s)[node + 1]);
      assert obj in SetOf(candidates);
    }
  }

  /* ---- Requests ---- */

  /** The request that a node makes as number `i` of an epoch. */
  function RequestIn(config: WorkloadConfig, requests: seq<RequestSpec>, e: nat, i: nat): RequestSpec
    requires e * config.requestsPerEpoch + i < |requests|
  {
    requests[e * config.requestsPerEpoch + i]
  }

  lemma RequestAt(config: WorkloadConfig, draws: Draws, layouts: seq<Segments>, node: nat, requests: seq<RequestSpec>,
                  e: nat, i: nat)
    requires config.burstSize > 0 && node < |config.nodes| && StreamOk(config, draws, layouts, node, requests)
    requires e < |layouts| && i < config.requestsPerEpoch
    ensures e * config.requestsPerEpoch + i < |requests| && node < |layouts[e].private|
    ensures RequestOk(config, draws, node, e, i, HotSetForNode(layouts[e], node), RequestIn(config, requests, e, i))
  {
    hide RequestOk;
    assert InEpoch(config, draws, layouts, node, requests, e, i);
  }

  /** Any object may be drawn: any hot one if hot was chosen or nothing is cold, and any cold one otherwise. */
  lemma AnyMayBeDrawn(hot: seq<nat>, cold: seq<nat>, choosesHot: bool, i: nat)
    requires hot != []
    ensures (choosesHot || cold == []) && i < |hot| ==> Choose(hot, cold, choosesHot, i) == hot[i]
    ensures !choosesHot && i < |cold| ==> Choose(hot, cold, choosesHot, i) == cold[i]
  {
    if (choosesHot || cold == []) && i < |hot| {
      Division(i, |hot|, 0, i);
    } else if !choosesHot && i < |cold| {
      Division(i, |cold|, 0, i);
    }
  }

  /** Every request has the size of its object: the fixed one, or the large or the small one as drawn for the object. */
  lemma SizesAsDrawn(config: WorkloadConfig, draws: Draws, layouts: seq<Segments>, node: nat,
                     requests: seq<RequestSpec>, e: nat, i: nat)
    requires Acceptable(config) && node < |config.nodes| && StreamOk(config, draws, layouts, node, requests)
    requires e < |layouts| && i < config.requestsPerEpoch
    ensures e * config.requestsPerEpoch + i < |requests|
    ensures var r := RequestIn(config, requests, e, i);
            && r.size > 0
            && (config.sizeMode == Fixed ==> r.size == config.size)
            && (config.sizeMode == Bimodal && draws.isLarge(r.obj) ==> r.size == config.large)
            && (config.sizeMode == Bimodal && !draws.isLarge(r.obj) ==> r.size == config.small <= config.large)
  {
    RequestAt(config, draws, layouts, node, requests, e, i);
  }

  /** Without planned arrivals no request has an offset. */
  lemma NothingPlanned(config: WorkloadConfig, draws: Draws, layouts: seq<Segments>, node: nat,
                       requests: seq<RequestSpec>, e: nat, i: nat)
    requires Acceptable(config) && node < |config.nodes| && StreamOk(config, draws, layouts, node, requests)
    requires e < |layouts| && i < config.requestsPerEpoch && config.issueMode == CompletionDriven
    ensures e * config.requestsPerEpoch + i < |requests| && RequestIn(config, requests, e, i).offset == 0
  {
    RequestAt(config, draws, layouts, node, requests, e, i);
  }

  /**
   * Planned arrivals of an epoch start after the node's jitter in that epoch; within a burst they follow each other by
   * the gap, and from burst to burst by the interval.
   */
  lemma ArrivalsInBursts(config: WorkloadConfig, draws: Draws, layouts: seq<Segments>, node: nat,
                         requests: seq<RequestSpec>, e: nat, i: nat)
    requires Acceptable(config) && node < |config.nodes| && StreamOk(config, draws, layouts, node, requests)
    requires e < |layouts| && i < config.requestsPerEpoch && config.issueMode == ScheduledBursty
    ensures e * config.requestsPerEpoch + i < |requests|
    ensures var n, r := config.requestsPerEpoch, RequestIn(config, requests, e, i);
            && (i == 0 ==> r.offset <= config.jitter && (config.jitter > 0 ==>
                  r.offset == draws.jitters(config.nodes[node], e) % (config.jitter + 1)))
            && (i + 1 < n && (i + 1) % config.burstSize != 0 ==>
                  e * n + (i + 1) < |requests| &&
                  RequestIn(config, requests, e, i + 1).offset == r.offset + config.intraBurstGap)
            && (i + config.burstSize < n ==>
                  e * n + (i + config.burstSize) < |requests| &&
                  RequestIn(config, requests, e, i + config.burstSize).offset == r.offset + config.burstInterval)
  {
    hide StreamOk, Acceptable, IssueOffset;
    assert config.burstSize > 0 by { Positive(config); }
    var n, jitter := config.requestsPerEpoch, Jitter(config, draws, config.nodes[node], e);
    RequestAt(config, draws, layouts, node, requests, e, i);
    FirstOffset(config, jitter);
    if i + 1 < n && (i + 1) % config.burstSize != 0 {
      RequestAt(config, draws, layouts, node, requests, e, i + 1);
      OffsetWithin(config, jitter, i);
    }
    if i + config.burstSize < n {
      RequestAt(config, draws, layouts, node, requests, e, i + config.burstSize);
      OffsetBeyond(config, jitter, i);
    }
  }

  lemma Positive(config: WorkloadConfig)
    requires Acceptable(config)
    ensures config.burstSize > 0
  {
  }

  lemma FirstOffset(config: WorkloadConfig, jitter: nat)
    requires config.burstSize > 0 && config.issueMode == ScheduledBursty
    ensures IssueOffset(config, jitter, 0) == jitter
  {
    Division(0, config.burstSize, 0, 0);
  }

  lemma OffsetWithin(config: WorkloadConfig, jitter: nat, i: nat)
    requires config.burstSize > 0 && config.issueMode == ScheduledBursty && (i + 1) % config.burstSize != 0
    ensures IssueOffset(config, jitter, i + 1) == IssueOffset(config, jitter, i) + config.intraBurstGap
  {
    DivModNext(i, config.burstSize);
    OneMoreGroup(i % config.burstSize, config.intraBurstGap);
  }

  lemma OffsetBeyond(config: WorkloadConfig, jitter: nat, i: nat)
    requires config.burstSize > 0 && config.issueMode == ScheduledBursty
    ensures IssueOffset(config, jitter, i + config.burstSize) == IssueOffset(config, jitter, i) + config.burstInterval
  {
    var b, q, r := config.burstSize, i / config.burstSize, i % config.burstSize;
    OneMoreGroup(q, b);
    Division(i + b, b, q + 1, r);
    OneMoreGroup(q, config.burstInterval);
  }
}
