/** The synthetic workload generator: hot sets epoch by epoch, and request streams that the simulator accepts. */
module Generator {
  import opened Model
  import opened Totals
  import opened Protocol
  import opened Workloads
  import opened HotSets

  /** What the random number generators yield: any shuffle, any choices, any jitter. */
  datatype Draws = Draws(shuffled: seq<nat>, choosesHot: (nat, nat, nat) -> bool, picks: (nat, nat, nat) -> nat,
                         isLarge: nat -> bool, jitters: (nat, nat) -> nat)

  ghost predicate IsShuffle(config: WorkloadConfig, objects: seq<nat>) {
    Unique(objects) && forall o :: o in objects <==> 1 <= o <= config.objectCount
  }

  /* ---- Candidates for hot sets ---- */

  lemma {:induction false} UniqueCount(s: seq<nat>)
    requires Unique(s)
    ensures |SetOf(s)| == |s|
  {
    if s != [] {
      var n := |s| - 1;
      UniqueCount(s[..n]);
      assert SetOf(s) == SetOf(s[..n]) + {s[n]};
    }
  }

  function EligibleSet(config: WorkloadConfig, n: nat): set<nat>
    requires config.memoryChannels > 0
  {
    set o: nat | 1 <= o <= n && Eligible(config, o)
  }

  lemma {:induction false} EligibleSetCount(config: WorkloadConfig, n: nat)
    requires config.memoryChannels > 0
    ensures |EligibleSet(config, n)| == EligibleUpTo(config, n)
  {
    if n > 0 {
      EligibleSetCount(config, n - 1);
      if Eligible(config, n) {
        assert EligibleSet(config, n) == EligibleSet(config, n - 1) + {n};
      } else {
        assert EligibleSet(config, n) == EligibleSet(config, n - 1);
      }
    }
  }

  /** The objects of a list that may be hot, in its order. */
  function EligibleOf(config: WorkloadConfig, objects: seq<nat>): seq<nat>
    requires config.memoryChannels > 0
  {
    if objects == [] then []
    else
      var n := |objects| - 1;
      EligibleOf(config, objects[..n]) + (if Eligible(config, objects[n]) then [objects[n]] else [])
  }

  /** Without a restriction to some channels every object may be hot. */
  lemma {:induction false} AllAreEligible(config: WorkloadConfig, objects: seq<nat>)
    requires config.memoryChannels > 0 && HotChannelLimit(config) == config.memoryChannels
    ensures EligibleOf(config, objects) == objects
  {
    if objects != [] {
      AllAreEligible(config, objects[..|objects| - 1]);
    }
  }

  method EligibleHotObjects(config: WorkloadConfig, shuffled: seq<nat>) returns (eligible: seq<nat>)
    requires config.memoryChannels > 0 && config.hotChannels <= config.memoryChannels && IsShuffle(config, shuffled)
    ensures Unique(eligible) && SetOf(eligible) == EligibleSet(config, config.objectCount)
    ensures |eligible| == EligibleUpTo(config, config.objectCount) && eligible == EligibleOf(config, shuffled)
  {
    if HotChannelLimit(config) == config.memoryChannels {
      eligible := shuffled;
      AllAreEligible(config, shuffled);
    } else {
      eligible := [];
      for i := 0 to |shuffled|
        invariant Unique(eligible) && forall o :: o in eligible <==> o in shuffled[..i] && Eligible(config, o)
        invariant eligible == EligibleOf(config, shuffled[..i])
      {
        assert shuffled[..i + 1] == shuffled[..i] + [shuffled[i]];
        assert shuffled[..i + 1][..i] == shuffled[..i];
        if Eligible(config, shuffled[i]) {
          assert shuffled[i] !in shuffled[..i];
          eligible := eligible + [shuffled[i]];
        }
      }
      assert shuffled[..|shuffled|] == shuffled;
    }
    assert SetOf(eligible) == EligibleSet(config, config.objectCount) by {
      forall o | o in SetOf(eligible) ensures o in EligibleSet(config, config.objectCount) {
        assert o in SetOf(shuffled);
      }
      forall o | o in EligibleSet(config, config.objectCount) ensures o in SetOf(eligible) {
        assert o in SetOf(shuffled);
      }
    }
    UniqueCount(eligible);
    EligibleSetCount(config, config.objectCount);
  }

  /* ---- Validation ---- */

  /** No two nodes have the same identifier; the loop keeps those it has seen. */
  method NodesUnique(ids: seq<nat>) returns (unique: bool)
    ensures unique <==> Unique(ids)
  {
    var seen: set<nat> := {};
    for i := 0 to |ids|
      invariant seen == SetOf(ids[..i]) && Unique(ids[..i])
    {
      if ids[i] in seen {
        var j :| 0 <= j < i && ids[..i][j] == ids[i];
        assert ids[j] == ids[i];
        return false;
      }
      assert ids[..i + 1] == ids[..i] + [ids[i]];
      seen := seen + {ids[i]};
    }
    assert ids[..|ids|] == ids;
    return true;
  }

  /** The generator's checks, one after the other. */
  method ValidateSyntheticWorkload(config: WorkloadConfig) returns (ok: bool)
    ensures ok <==> Acceptable(config)
  {
    if config.nodes == [] {
      return false;
    }
    var unique := NodesUnique(config.nodes);
    if !unique || config.objectCount == 0 || config.memoryChannels == 0 ||
       config.hotChannels > config.memoryChannels || config.size == 0 || config.small == 0 || config.large == 0 ||
       config.small > config.large || config.requestsPerEpoch == 0 || config.epochs == 0 || config.hotSetSize == 0 ||
       config.hotSetSize > config.objectCount
    {
      return false;
    }
    if config.hotProbability < 0.0 || config.hotProbability > 1.0 || config.churn < 0.0 || config.churn > 1.0 ||
       config.largeProbability < 0.0 || config.largeProbability > 1.0 || config.burstSize == 0 ||
       config.burstInterval == 0
    {
      return false;
    }
    if config.issueMode == ScheduledBursty && config.burstSize > 1 {
      var span := (config.burstSize - 1) * config.intraBurstGap;
      if config.burstInterval < span {
        return false;
      }
    }
    var eligible := EligibleHotObjectCount(config);
    if RequiredPerEpoch(config) > eligible {
      return false;
    }
    var churn := EffectiveChurn(config);
    if churn > 0.0 && churn < 1.0 {
      if RequiredPerEpoch(config) + TotalReplacements(config, churn) > eligible {
        return false;
      }
    }
    return true;
  }

  /* ---- Layouts ---- */

  /** A layout of the configured shape, without repetition, over the candidates. */
  predicate GoodLayout(config: WorkloadConfig, candidates: seq<nat>, s: Segments) {
    Sized(s, SharedCount(config), PrivateCount(config), |config.nodes|) && NoRepeats(All(s)) &&
    Union(All(s)) <= SetOf(candidates)
  }

  predicate LaidOutFrom(config: WorkloadConfig, candidates: seq<nat>, s: Segments, start: nat) {
    |All(s)| == |config.nodes| + 1 &&
    forall i :: 0 <= i <= |config.nodes| ==>
      Run(candidates, All(s)[i], StartOf(start, SharedCount(config), PrivateCount(config), i))
  }

  /** How the layout of an epoch follows from the one before. */
  predicate Follows(config: WorkloadConfig, candidates: seq<nat>, epoch: nat, before: Segments, after: Segments) {
    var churn := EffectiveChurn(config);
    if churn >= 1.0 then
      candidates != [] && LaidOutFrom(config, candidates, after, (epoch * RequiredPerEpoch(config)) % |candidates|)
    else if churn > 0.0 then AllChurned(All(before), All(after), candidates, churn)
    else after == before
  }

  /** A partial churn goes on in the list of candidates where the cursor stands. */
  ghost predicate Resumes(config: WorkloadConfig, candidates: seq<nat>, before: Segments, after: Segments, cursor: nat,
                          next: nat)
  {
    var churn := EffectiveChurn(config);
    0.0 < churn < 1.0 ==> PicksNext(All(before), All(after), candidates, cursor, next, churn)
  }

  lemma RunWithin(objects: seq<nat>, segment: seq<nat>, start: nat)
    requires Run(objects, segment, start)
    ensures SetOf(segment) <= SetOf(objects)
  {
    forall o | o in segment ensures o in objects {
      var i :| 0 <= i < |segment| && segment[i] == o;
      assert ObjectAt(objects, start + i) in objects;
    }
  }

  lemma LaidOutIsGood(config: WorkloadConfig, candidates: seq<nat>, s: Segments, start: nat)
    requires Sized(s, SharedCount(config), PrivateCount(config), |config.nodes|) && Unique(candidates)
    requires LaidOutFrom(config, candidates, s, start) && RequiredPerEpoch(config) <= |candidates|
    ensures GoodLayout(config, candidates, s)
  {
    LaidOutNoRepeats(candidates, s, start, SharedCount(config), PrivateCount(config), |config.nodes|);
    forall o | o in Union(All(s)) ensures o in SetOf(candidates) {
      var i :| 0 <= i < |All(s)| && o in All(s)[i];
      RunWithin(candidates, All(s)[i], StartOf(start, SharedCount(config), PrivateCount(config), i));
    }
  }

  lemma ChurnedIsSized(config: WorkloadConfig, before: Segments, after: Segments, candidates: seq<nat>, churn: real)
    requires Sized(before, SharedCount(config), PrivateCount(config), |config.nodes|)
    requires AllChurned(All(before), All(after), candidates, churn)
    ensures Sized(after, SharedCount(config), PrivateCount(config), |config.nodes|)
  {
    assert SegmentChurned(All(before)[0], All(after)[0], candidates, Union(All(before)), churn);
    forall i | 0 <= i < |config.nodes| ensures |after.private[i]| == PrivateCount(config) {
      assert SegmentChurned(All(before)[i + 1], All(after)[i + 1], candidates, Union(All(before)), churn);
    }
  }

  lemma SegmentWithin(before: seq<nat>, after: seq<nat>, candidates: seq<nat>, hot: set<nat>, churn: real)
    requires SegmentChurned(before, after, candidates, hot, churn) && SetOf(before) <= SetOf(candidates)
    ensures SetOf(after) <= SetOf(candidates)
  {
    var keep := KeepPrefix(before, churn);
    forall j | 0 <= j < |after| ensures after[j] in SetOf(candidates) {
      if j < |keep| {
        assert keep[j] == after[..|keep|][j] && keep[j] in SetOf(before);
      }
    }
  }

  lemma ChurnedWithin(before: seq<seq<nat>>, after: seq<seq<nat>>, candidates: seq<nat>, churn: real)
    requires AllChurned(before, after, candidates, churn) && Union(before) <= SetOf(candidates)
    ensures Union(after) <= SetOf(candidates)
  {
    hide SegmentChurned;
    forall i | 0 <= i < |after| ensures SetOf(after[i]) <= SetOf(candidates) {
      ListedInUnion(before, i);
      SegmentWithin(before[i], after[i], candidates, Union(before), churn);
    }
    forall o | o in Union(after) ensures o in SetOf(candidates) {
      var i :| 0 <= i < |after| && o in after[i];
      assert o in SetOf(after[i]);
    }
  }

  lemma {:induction false} ReplacingAll(parts: seq<seq<nat>>, size: nat, churn: real)
    requires forall i :: 0 <= i < |parts| ==> |parts[i]| == size
    ensures SumBy(Replacing(churn), parts) == |parts| * ReplacementCount(size, churn)
  {
    if parts != [] {
      ReplacingAll(parts[..|parts| - 1], size, churn);
      OneMoreGroup(|parts| - 1, ReplacementCount(size, churn));
    }
  }

  lemma {:induction false} UnionCount(all: seq<seq<nat>>, size: nat)
    requires forall i :: 0 <= i < |all| ==> |all[i]| == size
    ensures |Union(all)| <= |all| * size
  {
    if all == [] {
      assert Union(all) == {};
    } else {
      var n := |all| - 1;
      UnionCount(all[..n], size);
      assert all == all[..n] + [all[n]];
      UnionNext(all[..n], all[n]);
      SetOfCount(all[n]);
      OneMoreGroup(n, size);
    }
  }

  /** The capacity check leaves enough candidates for a partial churn, so that it never runs out. */
  lemma ChurnHasEnough(config: WorkloadConfig, candidates: seq<nat>, s: Segments, churn: real)
    requires GoodLayout(config, candidates, s) && Unique(candidates)
    requires RequiredPerEpoch(config) + TotalReplacements(config, churn) <= |candidates|
    ensures Enough(All(s), candidates, churn)
  {
    hide NoRepeats, ReplacementCount;
    UniqueCount(candidates);
    var nodes, size := |config.nodes|, PrivateCount(config);
    ReplacingAll(s.private, size, churn);
    SumByConcat(Replacing(churn), [s.shared], s.private);
    assert SumBy(Replacing(churn), [s.shared]) == ReplacementCount(SharedCount(config), churn) by {
      assert [s.shared] == [] + [s.shared];
      SumByAppend(Replacing(churn), [], s.shared);
    }
    UnionCount(s.private, size);
    SetOfCount(s.shared);
    assert Union(All(s)) == SetOf(s.shared) + Union(s.private) by { UnionParts(s); }
    Grows(nodes, nodes, size);
    Grows(nodes, nodes, ReplacementCount(size, churn));
  }

  lemma UnionParts(s: Segments)
    ensures Union(All(s)) == SetOf(s.shared) + Union(s.private)
  {
    forall o | o in Union(All(s)) ensures o in SetOf(s.shared) + Union(s.private) {
      var i :| 0 <= i < |All(s)| && o in All(s)[i];
      assert i > 0 ==> o in s.private[i - 1];
    }
    forall o | o in SetOf(s.shared) + Union(s.private) ensures o in Union(All(s)) {
      if o in s.shared {
        assert o in All(s)[0];
      } else {
        var i :| 0 <= i < |s.private| && o in s.private[i];
        assert o in All(s)[i + 1];
      }
    }
  }

  /** The layout of the next epoch. */
  method NextLayout(config: WorkloadConfig, candidates: seq<nat>, epoch: nat, before: Segments, cursor: nat)
    returns (ok: bool, after: Segments, next: nat)
    requires config.memoryChannels > 0 && CapacityChecks(config) && Unique(candidates) && candidates != []
    requires |candidates| == EligibleUpTo(config, config.objectCount) && GoodLayout(config, candidates, before)
    ensures ok && GoodLayout(config, candidates, after) && Follows(config, candidates, epoch, before, after)
    ensures Resumes(config, candidates, before, after, cursor, next)
  {
    hide NoRepeats, Union, AllChurned, Enough, PicksNext;
    var churn := EffectiveChurn(config);
    ok, after, next := true, before, cursor;
    if churn >= 1.0 {
      var start := (epoch * RequiredPerEpoch(config)) % |candidates|;
      after, next :=
        AllocateHotSetSegments(SharedCount(config), PrivateCount(config), |config.nodes|, candidates, start);
      LaidOutIsGood(config, candidates, after, start);
    } else if churn > 0.0 {
      ChurnHasEnough(config, candidates, before, churn);
      ok, after, next := ChurnHotSetSegments(before, candidates, cursor, churn);
      ChurnedIsSized(config, before, after, candidates, churn);
      ChurnedWithin(All(before), All(after), candidates, churn);
    }
  }

  /* ---- Requests ---- */

  method ColdObjectsForNode(objects: seq<nat>, hot: seq<nat>) returns (cold: seq<nat>)
    ensures forall o :: o in cold <==> o in objects && o !in hot
  {
    cold := [];
    for i := 0 to |objects|
      invariant forall o :: o in cold <==> o in objects[..i] && o !in hot
    {
      assert objects[..i + 1] == objects[..i] + [objects[i]];
      if objects[i] !in hot {
        cold := cold + [objects[i]];
      }
    }
    assert objects[..|objects|] == objects;
  }

  function Choose(hot: seq<nat>, cold: seq<nat>, choosesHot: bool, pick: nat): nat
    requires hot != []
  {
    var candidates := if choosesHot || cold == [] then hot else cold;
    candidates[pick % |candidates|]
  }

  function SizeOf(config: WorkloadConfig, draws: Draws, obj: nat): nat {
    if config.sizeMode == Fixed then config.size
    else if draws.isLarge(obj) then config.large else config.small
  }

  /** One size for each object from 1 to the object count, at the object's own index. */
  method ObjectSizes(config: WorkloadConfig, draws: Draws) returns (sizes: seq<nat>)
    ensures |sizes| == config.objectCount + 1
    ensures forall o :: 1 <= o <= config.objectCount ==> sizes[o] == SizeOf(config, draws, o)
  {
    sizes := [0];
    for o := 1 to config.objectCount + 1
      invariant |sizes| == o && forall k :: 1 <= k < o ==> sizes[k] == SizeOf(config, draws, k)
    {
      sizes := sizes + [SizeOf(config, draws, o)];
    }
  }

  function Jitter(config: WorkloadConfig, draws: Draws, id: nat, epoch: nat): (j: nat)
    ensures j <= config.jitter
  {
    if config.jitter == 0 then 0 else draws.jitters(id, epoch) % (config.jitter + 1)
  }

  /** A request for an object of the universe, of that object's size, hot if it was drawn to be. */
  predicate RequestOk(config: WorkloadConfig, draws: Draws, node: nat, epoch: nat, i: nat, hot: seq<nat>,
                      r: RequestSpec)
    requires config.burstSize > 0 && node < |config.nodes|
  {
    && r.epoch == epoch && 1 <= r.obj <= config.objectCount && r.size == SizeOf(config, draws, r.obj)
    && r.offset == IssueOffset(config, Jitter(config, draws, config.nodes[node], epoch), i)
    && (draws.choosesHot(epoch, node, i) ==> r.obj in hot)
    && (r.obj in hot ==> draws.choosesHot(epoch, node, i) || forall o :: 1 <= o <= config.objectCount ==> o in hot)
  }

  predicate EpochOk(config: WorkloadConfig, draws: Draws, node: nat, epoch: nat, hot: seq<nat>,
                    requests: seq<RequestSpec>)
    requires config.burstSize > 0 && node < |config.nodes|
  {
    forall i :: 0 <= i < |requests| ==> RequestOk(config, draws, node, epoch, i, hot, requests[i])
  }

  /** The requests of one node in one epoch. */
  method GenerateRequests(config: WorkloadConfig, draws: Draws, sizes: seq<nat>, node: nat, epoch: nat, hot: seq<nat>)
    returns (requests: seq<RequestSpec>)
    requires config.burstSize > 0 && node < |config.nodes| && IsShuffle(config, draws.shuffled)
    requires hot != [] && SetOf(hot) <= SetOf(draws.shuffled)
    requires |sizes| == config.objectCount + 1
    requires forall o :: 1 <= o <= config.objectCount ==> sizes[o] == SizeOf(config, draws, o)
    ensures |requests| == config.requestsPerEpoch && EpochOk(config, draws, node, epoch, hot, requests)
  {
    var cold := ColdObjectsForNode(draws.shuffled, hot);
    requests := [];
    for i := 0 to config.requestsPerEpoch
      invariant |requests| == i && EpochOk(config, draws, node, epoch, hot, requests)
    {
      var obj := Choose(hot, cold, draws.choosesHot(epoch, node, i), draws.picks(epoch, node, i));
      ChosenIsKnown(config, draws, hot, cold, draws.choosesHot(epoch, node, i), draws.picks(epoch, node, i));
      var offset := IssueOffset(config, Jitter(config, draws, config.nodes[node], epoch), i);
      requests := requests + [RequestSpec(obj, sizes[obj], epoch, offset)];
    }
  }

  lemma ChosenIsKnown(config: WorkloadConfig, draws: Draws, hot: seq<nat>, cold: seq<nat>, choosesHot: bool, pick: nat)
    requires IsShuffle(config, draws.shuffled) && hot != [] && SetOf(hot) <= SetOf(draws.shuffled)
    requires forall o :: o in cold <==> o in draws.shuffled && o !in hot
    ensures var o := Choose(hot, cold, choosesHot, pick);
            && 1 <= o <= config.objectCount && (choosesHot ==> o in hot)
            && (o in hot ==> choosesHot || forall k :: 1 <= k <= config.objectCount ==> k in hot)
  {
    var candidates := if choosesHot || cold == [] then hot else cold;
    var o := candidates[pick % |candidates|];
    assert o in candidates;
    assert o in hot ==> o in SetOf(draws.shuffled);
    if cold == [] {
      forall k | 1 <= k <= config.objectCount ensures k in hot {
        assert k in draws.shuffled && k !in cold;
      }
    }
  }

  /* ---- Whole workloads ---- */

  /** The stream of one node: epoch after epoch, each with its own hot set. */
  ghost predicate StreamOk(config: WorkloadConfig, draws: Draws, layouts: seq<Segments>, node: nat,
                           requests: seq<RequestSpec>)
    requires config.burstSize > 0 && node < |config.nodes|
  {
    && |requests| == |layouts| * config.requestsPerEpoch
    && forall e, i {:trigger InEpoch(config, draws, layouts, node, requests, e, i)} ::
         0 <= e < |layouts| && 0 <= i < config.requestsPerEpoch ==> InEpoch(config, draws, layouts, node, requests,
             e, i)
  }

  predicate InEpoch(config: WorkloadConfig, draws: Draws, layouts: seq<Segments>, node: nat,
                    requests: seq<RequestSpec>, e: nat, i: nat)
    requires config.burstSize > 0 && node < |config.nodes| && e < |layouts|
  {
    node < |layouts[e].private| && e * config.requestsPerEpoch + i < |requests| &&
    RequestOk(config, draws, node, e, i, HotSetForNode(layouts[e], node), requests[e * config.requestsPerEpoch + i])
  }

  /** The hot sets of all epochs. */
  ghost predicate LayoutsOk(config: WorkloadConfig, candidates: seq<nat>, layouts: seq<Segments>) {
    && (forall e :: 0 <= e < |layouts| ==> GoodLayout(config, candidates, layouts[e]))
    && (forall e :: 0 < e < |layouts| ==> Follows(config, candidates, e, layouts[e - 1], layouts[e]))
  }

  /** Where the cursor stands after each epoch: behind the first layout, and then wherever each churn has left it. */
  ghost predicate CursorsOk(config: WorkloadConfig, candidates: seq<nat>, layouts: seq<Segments>, cursors: seq<nat>) {
    && |cursors| == |layouts| && (cursors != [] ==> cursors[0] == RequiredPerEpoch(config))
    && forall e {:trigger layouts[e]} :: 0 < e < |layouts| ==>
         Resumes(config, candidates, layouts[e - 1], layouts[e], cursors[e - 1], cursors[e])
  }

  lemma StreamGrows(config: WorkloadConfig, draws: Draws, layouts: seq<Segments>, s: Segments, node: nat,
                    requests: seq<RequestSpec>, more: seq<RequestSpec>)
    requires config.burstSize > 0 && node < |config.nodes| && node < |s.private|
    requires StreamOk(config, draws, layouts, node, requests)
    requires |more| == config.requestsPerEpoch
    requires EpochOk(config, draws, node, |layouts|, HotSetForNode(s, node), more)
    ensures StreamOk(config, draws, layouts + [s], node, requests + more)
  {
    hide RequestOk;
    var layouts', requests', n := layouts + [s], requests + more, config.requestsPerEpoch;
    OneMoreGroup(|layouts|, n);
    forall e, i | 0 <= e < |layouts'| && 0 <= i < n ensures InEpoch(config, draws, layouts', node, requests', e, i) {
      if e < |layouts| {
        assert InEpoch(config, draws, layouts, node, requests, e, i);
      } else {
        assert requests'[e * n + i] == more[i];
      }
    }
  }

  ghost predicate FirstStreamsOk(config: WorkloadConfig, draws: Draws, layouts: seq<Segments>, nodes: seq<NodeConfig>)
    requires config.burstSize > 0
  {
    |nodes| <= |config.nodes| &&
    forall i {:trigger StreamOk(config, draws, layouts, i, nodes[i].requests)} :: 0 <= i < |nodes| ==>
      nodes[i].id == config.nodes[i] && StreamOk(config, draws, layouts, i, nodes[i].requests)
  }

  ghost predicate AllStreamsOk(config: WorkloadConfig, draws: Draws, layouts: seq<Segments>, nodes: seq<NodeConfig>)
    requires config.burstSize > 0
  {
    |nodes| == |config.nodes| && FirstStreamsOk(config, draws, layouts, nodes)
  }

  lemma OneMoreStream(config: WorkloadConfig, draws: Draws, layouts: seq<Segments>, nodes: seq<NodeConfig>,
                      node: NodeConfig)
    requires config.burstSize > 0 && FirstStreamsOk(config, draws, layouts, nodes) && |nodes| < |config.nodes|
    requires node.id == config.nodes[|nodes|] && StreamOk(config, draws, layouts, |nodes|, node.requests)
    ensures FirstStreamsOk(config, draws, layouts, nodes + [node])
  {
    var more := nodes + [node];
    forall i | 0 <= i < |more|
      ensures more[i].id == config.nodes[i] && StreamOk(config, draws, layouts, i, more[i].requests)
    {
      assert i < |nodes| ==> StreamOk(config, draws, layouts, i, nodes[i].requests);
    }
  }

  lemma HotSetKnown(config: WorkloadConfig, draws: Draws, candidates: seq<nat>, s: Segments, node: nat)
    requires config.memoryChannels > 0 && GoodLayout(config, candidates, s) && node < |config.nodes|
    requires IsShuffle(config, draws.shuffled) && SetOf(candidates) == EligibleSet(config, config.objectCount)
    ensures node < |s.private| && |HotSetForNode(s, node)| == config.hotSetSize
    ensures SetOf(HotSetForNode(s, node)) <= SetOf(draws.shuffled)
  {
    forall o | o in HotSetForNode(s, node) ensures o in draws.shuffled {
      ListedInUnion(All(s), 0);
      ListedInUnion(All(s), node + 1);
      assert o in SetOf(All(s)[0]) || o in SetOf(All(s)[node + 1]);
      assert o in SetOf(candidates);
    }
  }

  /** One epoch of every node's stream. */
  method GenerateEpoch(config: WorkloadConfig, draws: Draws, sizes: seq<nat>, ghost candidates: seq<nat>,
                       ghost layouts: seq<Segments>, s: Segments, epoch: nat, nodes: seq<NodeConfig>)
    returns (longer: seq<NodeConfig>, hotSets: seq<seq<nat>>)
    requires config.burstSize > 0 && config.memoryChannels > 0 && config.hotSetSize > 0
    requires IsShuffle(config, draws.shuffled) && GoodLayout(config, candidates, s)
    requires SetOf(candidates) == EligibleSet(config, config.objectCount) && epoch == |layouts|
    requires |sizes| == config.objectCount + 1
    requires forall o :: 1 <= o <= config.objectCount ==> sizes[o] == SizeOf(config, draws, o)
    requires AllStreamsOk(config, draws, layouts, nodes)
    ensures AllStreamsOk(config, draws, layouts + [s], longer)
    ensures |hotSets| == |config.nodes| == |s.private|
    ensures forall i :: 0 <= i < |hotSets| ==> hotSets[i] == HotSetForNode(s, i)
  {
    longer, hotSets := [], [];
    for i := 0 to |nodes|
      invariant |longer| == |hotSets| == i && |s.private| == |config.nodes|
      invariant FirstStreamsOk(config, draws, layouts + [s], longer)
      invariant forall k :: 0 <= k < i ==> hotSets[k] == HotSetForNode(s, k)
    {
      HotSetKnown(config, draws, candidates, s, i);
      var hot := HotSetForNode(s, i);
      var more := GenerateRequests(config, draws, sizes, i, epoch, hot);
      assert StreamOk(config, draws, layouts, i, nodes[i].requests);
      StreamGrows(config, draws, layouts, s, i, nodes[i].requests, more);
      OneMoreStream(config, draws, layouts + [s], longer, NodeConfig(nodes[i].id, nodes[i].requests + more));
      longer := longer + [NodeConfig(nodes[i].id, nodes[i].requests + more)];
      hotSets := hotSets + [hot];
    }
  }

  /** A generated workload: the streams of all nodes, and the hot sets by epoch and node. */
  datatype Workload = Workload(nodes: seq<NodeConfig>, hotSets: seq<seq<seq<nat>>>)

  /** The hot sets of all nodes in the epoch that is laid out so. */
  predicate HotSetsAt(config: WorkloadConfig, hot: seq<seq<nat>>, s: Segments) {
    |hot| == |config.nodes| == |s.private| && forall i :: 0 <= i < |hot| ==> hot[i] == HotSetForNode(s, i)
  }

  predicate HotSetsOf(config: WorkloadConfig, hotSets: seq<seq<seq<nat>>>, layouts: seq<Segments>) {
    |hotSets| == |layouts| &&
    forall e {:trigger HotSetsAt(config, hotSets[e], layouts[e])} :: 0 <= e < |layouts| ==>
      HotSetsAt(config, hotSets[e], layouts[e])
  }

  lemma HotSetsGrow(config: WorkloadConfig, hotSets: seq<seq<seq<nat>>>, layouts: seq<Segments>, hot: seq<seq<nat>>,
                    s: Segments)
    requires HotSetsOf(config, hotSets, layouts) && HotSetsAt(config, hot, s)
    ensures HotSetsOf(config, hotSets + [hot], layouts + [s])
  {
    hide HotSetsAt;
    var hotSets', layouts' := hotSets + [hot], layouts + [s];
    forall e | 0 <= e < |layouts'| ensures HotSetsAt(config, hotSets'[e], layouts'[e]) {
      assert e < |layouts| ==> HotSetsAt(config, hotSets[e], layouts[e]);
    }
  }

  method EmptyStreams(config: WorkloadConfig, draws: Draws) returns (nodes: seq<NodeConfig>)
    requires config.burstSize > 0
    ensures AllStreamsOk(config, draws, [], nodes)
  {
    nodes := [];
    for i := 0 to |config.nodes|
      invariant |nodes| == i && forall k :: 0 <= k < i ==> nodes[k] == NodeConfig(config.nodes[k], [])
    {
      nodes := nodes + [NodeConfig(config.nodes[i], [])];
    }
  }

  /**
   * Generation fails exactly for a configuration that is not acceptable; in particular a partial churn that was
   * accepted never runs out of objects.
   */
  method GenerateSyntheticWorkload(config: WorkloadConfig, draws: Draws)
    returns (workload: Option<Workload>, ghost candidates: seq<nat>, ghost layouts: seq<Segments>,
             ghost cursors: seq<nat>)
    requires IsShuffle(config, draws.shuffled)
    ensures workload.None? <==> !Acceptable(config)
    ensures workload.Some? ==>
              && AllStreamsOk(config, draws, layouts, workload.value.nodes)
              && LayoutsOk(config, candidates, layouts) && |layouts| == config.epochs
              && Unique(candidates) && SetOf(candidates) == EligibleSet(config, config.objectCount)
              && candidates == EligibleOf(config, draws.shuffled)
              && LaidOutFrom(config, candidates, layouts[0], 0) && HotSetsOf(config, workload.value.hotSets, layouts)
              && CursorsOk(config, candidates, layouts, cursors)
  {
    hide EligibleOf, RequestOk, GoodLayout, Follows, AllStreamsOk, LayoutsOk, CursorsOk, LaidOut, LaidOutFrom,
         EligibleSet, CapacityChecks, IsShuffle, HotSetsOf, Resumes, Unique, Sized;
    candidates, layouts, cursors := [], [], [];
    var ok := ValidateSyntheticWorkload(config);
    if !ok {
      return None, candidates, layouts, cursors;
    }
    var eligible := EligibleHotObjects(config, draws.shuffled);
    candidates := eligible;
    var sizes := ObjectSizes(config, draws);
    var nodes := EmptyStreams(config, draws);
    var hotSets: seq<seq<seq<nat>>> := [];
    RequiredIsPositive(config);
    NoHotSets(config);
    var layout, cursor :=
      AllocateHotSetSegments(SharedCount(config), PrivateCount(config), |config.nodes|, eligible, 0);
    FirstLayoutIsGood(config, eligible, layout);
    LaidOutStarts(config, eligible, layout, cursor);
    for epoch := 0 to config.epochs
      invariant |layouts| == epoch && LaidOut(config, eligible, layouts, cursors, layout, cursor)
      invariant AllStreamsOk(config, draws, layouts, nodes) && HotSetsOf(config, hotSets, layouts)
    {
      var after, next := layout, cursor;
      LaidOutHere(config, eligible, layouts, cursors, layout, cursor);
      if epoch > 0 {
        ok, after, next := NextLayout(config, eligible, epoch, layout, cursor);
      }
      var hot;
      nodes, hot := GenerateEpoch(config, draws, sizes, eligible, layouts, after, epoch, nodes);
      HotSetsGrow(config, hotSets, layouts, hot, after);
      LaidOutNext(config, eligible, layouts, cursors, layout, cursor, after, next);
      layout, cursor := after, next;
      layouts, cursors := layouts + [layout], cursors + [cursor];
      hotSets := hotSets + [hot];
    }
    LaidOutEnds(config, eligible, layouts, cursors, layout, cursor);
    workload := Some(Workload(nodes, hotSets));
  }

  /** The layouts so far, with the cursor after each; before the first epoch, the layout that is to be its own. */
  ghost predicate LaidOut(config: WorkloadConfig, candidates: seq<nat>, layouts: seq<Segments>, cursors: seq<nat>,
                          layout: Segments, cursor: nat)
  {
    && LayoutsOk(config, candidates, layouts) && CursorsOk(config, candidates, layouts, cursors)
    && GoodLayout(config, candidates, layout)
    && if layouts == [] then LaidOutFrom(config, candidates, layout, 0) && cursor == RequiredPerEpoch(config)
       else layout == layouts[|layouts| - 1] && cursor == cursors[|layouts| - 1] &&
            LaidOutFrom(config, candidates, layouts[0], 0)
  }

  lemma NoHotSets(config: WorkloadConfig)
    ensures HotSetsOf(config, [], [])
  {
  }

  lemma LaidOutStarts(config: WorkloadConfig, candidates: seq<nat>, layout: Segments, cursor: nat)
    requires GoodLayout(config, candidates, layout) && LaidOutFrom(config, candidates, layout, 0)
    requires cursor == SharedCount(config) + |config.nodes| * PrivateCount(config)
    ensures LaidOut(config, candidates, [], [], layout, cursor)
  {
    Grows(|config.nodes|, |config.nodes|, PrivateCount(config));
  }

  lemma LaidOutHere(config: WorkloadConfig, candidates: seq<nat>, layouts: seq<Segments>, cursors: seq<nat>,
                    layout: Segments, cursor: nat)
    requires LaidOut(config, candidates, layouts, cursors, layout, cursor)
    ensures GoodLayout(config, candidates, layout)
  {
  }

  /** One epoch more. */
  lemma LaidOutNext(config: WorkloadConfig, candidates: seq<nat>, layouts: seq<Segments>, cursors: seq<nat>,
                    layout: Segments, cursor: nat, after: Segments, next: nat)
    requires LaidOut(config, candidates, layouts, cursors, layout, cursor) && GoodLayout(config, candidates, after)
    requires if layouts == [] then after == layout && next == cursor
             else Follows(config, candidates, |layouts|, layout, after) &&
                  Resumes(config, candidates, layout, after, cursor, next)
    ensures LaidOut(config, candidates, layouts + [after], cursors + [next], after, next)
  {
    hide GoodLayout, Follows, Resumes, LaidOutFrom, LayoutsOk, CursorsOk;
    LayoutsNext(config, candidates, layouts, after);
    CursorsNext(config, candidates, layouts, cursors, after, next);
    SameCount(config, candidates, layouts, cursors);
    assert (layouts + [after])[|layouts|] == after && (cursors + [next])[|layouts|] == next;
    assert layouts != [] ==> (layouts + [after])[0] == layouts[0];
  }

  lemma SameCount(config: WorkloadConfig, candidates: seq<nat>, layouts: seq<Segments>, cursors: seq<nat>)
    requires CursorsOk(config, candidates, layouts, cursors)
    ensures |cursors| == |layouts|
  {
  }

  lemma LayoutsNext(config: WorkloadConfig, candidates: seq<nat>, layouts: seq<Segments>, after: Segments)
    requires LayoutsOk(config, candidates, layouts) && GoodLayout(config, candidates, after)
    requires layouts == [] || Follows(config, candidates, |layouts|, layouts[|layouts| - 1], after)
    ensures LayoutsOk(config, candidates, layouts + [after])
  {
    hide GoodLayout, Follows;
    var layouts' := layouts + [after];
    forall e | 0 < e < |layouts'| ensures Follows(config, candidates, e, layouts'[e - 1], layouts'[e]) {
      assert e < |layouts| ==> Follows(config, candidates, e, layouts[e - 1], layouts[e]);
    }
  }

  lemma CursorsNext(config: WorkloadConfig, candidates: seq<nat>, layouts: seq<Segments>, cursors: seq<nat>,
                    after: Segments, next: nat)
    requires CursorsOk(config, candidates, layouts, cursors)
    requires if layouts == [] then next == RequiredPerEpoch(config)
             else Resumes(config, candidates, layouts[|layouts| - 1], after, cursors[|layouts| - 1], next)
    ensures CursorsOk(config, candidates, layouts + [after], cursors + [next])
  {
    hide Resumes, RequiredPerEpoch;
    var layouts', cursors' := layouts + [after], cursors + [next];
    forall e | 0 < e < |layouts'|
      ensures Resumes(config, candidates, layouts'[e - 1], layouts'[e], cursors'[e - 1], cursors'[e])
    {
      if e < |layouts| {
        assert layouts'[e] == layouts[e] && layouts'[e - 1] == layouts[e - 1];
        assert Resumes(config, candidates, layouts[e - 1], layouts[e], cursors[e - 1], cursors[e]);
      }
    }
  }

  lemma LaidOutEnds(config: WorkloadConfig, candidates: seq<nat>, layouts: seq<Segments>, cursors: seq<nat>,
                    layout: Segments, cursor: nat)
    requires LaidOut(config, candidates, layouts, cursors, layout, cursor) && layouts != []
    ensures LayoutsOk(config, candidates, layouts) && CursorsOk(config, candidates, layouts, cursors)
    ensures LaidOutFrom(config, candidates, layouts[0], 0)
  {
  }

  lemma RequiredIsPositive(config: WorkloadConfig)
    requires Acceptable(config)
    ensures EligibleUpTo(config, config.objectCount) >= RequiredPerEpoch(config) > 0
  {
    Grows(1, |config.nodes|, PrivateCount(config));
  }

  lemma FirstLayoutIsGood(config: WorkloadConfig, candidates: seq<nat>, s: Segments)
    requires Acceptable(config) && Unique(candidates) && |candidates| == EligibleUpTo(config, config.objectCount)
    requires Sized(s, SharedCount(config), PrivateCount(config), |config.nodes|)
    requires forall i :: 0 <= i <= |config.nodes| ==>
               Run(candidates, All(s)[i], StartOf(0, SharedCount(config), PrivateCount(config), i))
    ensures GoodLayout(config, candidates, s) && LaidOutFrom(config, candidates, s, 0)
  {
    LaidOutIsGood(config, candidates, s, 0);
  }

  /* ---- What every generated workload is ---- */

  lemma StreamAt(config: WorkloadConfig, draws: Draws, layouts: seq<Segments>, node: nat, requests: seq<RequestSpec>,
                 j: nat)
    requires config.burstSize > 0 && node < |config.nodes| && StreamOk(config, draws, layouts, node, requests)
    requires config.requestsPerEpoch > 0 && j < |requests|
    ensures var n := config.requestsPerEpoch;
            && requests[j].epoch == j / n < |layouts|
            && requests[j].offset == IssueOffset(config, Jitter(config, draws, config.nodes[node], j / n), j % n)
  {
    var n := config.requestsPerEpoch;
    var e, i := j / n, j % n;
    assert e * n + i == j;
    if e >= |layouts| {
      Grows(|layouts|, e, n);
    }
    assert InEpoch(config, draws, layouts, node, requests, e, i);
  }

  lemma EpochsGoOn(n: nat, i: nat, j: nat)
    requires n > 0 && i <= j
    ensures i / n <= j / n && (i / n == j / n ==> i % n <= j % n)
  {
    if i / n > j / n {
      OneMoreGroup(j / n, n);
      Grows(j / n + 1, i / n, n);
    }
    assert i == (i / n) * n + i % n && j == (j / n) * n + j % n;
  }

  /** A generated stream is sorted by epoch, and no request of an epoch is due before its predecessor. */
  lemma StreamIsValid(config: WorkloadConfig, draws: Draws, layouts: seq<Segments>, node: nat,
                      requests: seq<RequestSpec>)
    requires Acceptable(config) && node < |config.nodes| && StreamOk(config, draws, layouts, node, requests)
    ensures SortedByEpoch(requests) && OffsetsAscend(requests)
  {
    hide StreamOk, IssueOffset;
    var n := config.requestsPerEpoch;
    forall i, j | 0 <= i < j < |requests|
      ensures requests[i].epoch <= requests[j].epoch
      ensures requests[i].epoch == requests[j].epoch ==> requests[i].offset <= requests[j].offset
    {
      StreamAt(config, draws, layouts, node, requests, i);
      StreamAt(config, draws, layouts, node, requests, j);
      EpochsGoOn(n, i, j);
      if i / n == j / n {
        OffsetsAscending(config, Jitter(config, draws, config.nodes[node], i / n), i % n, j % n);
      }
    }
  }

  /** The simulator accepts every generated workload, whichever way its requests are issued. */
  lemma GeneratedIsAccepted(config: WorkloadConfig, draws: Draws, layouts: seq<Segments>, cfg: Config)
    requires Acceptable(config) && AllStreamsOk(config, draws, layouts, cfg.nodes)
    requires cfg.mode == config.issueMode && cfg.channels > 0 && cfg.bandwidth > 0
    requires forall i :: 0 <= i < |cfg.nodes| ==> cfg.nodes[i].id != cfg.memoryNode
    ensures ValidConfig(cfg)
  {
    hide StreamOk;
    forall i | 0 <= i < |cfg.nodes|
      ensures SortedByEpoch(cfg.nodes[i].requests) && OffsetsAscend(cfg.nodes[i].requests)
    {
      assert StreamOk(config, draws, layouts, i, cfg.nodes[i].requests);
      StreamIsValid(config, draws, layouts, i, cfg.nodes[i].requests);
    }
    forall i, j | 0 <= i < j < |cfg.nodes| ensures cfg.nodes[i].id != cfg.nodes[j].id {
      assert StreamOk(config, draws, layouts, i, cfg.nodes[i].requests);
      assert StreamOk(config, draws, layouts, j, cfg.nodes[j].requests);
    }
  }

  /** What the hot sets of one epoch promise: their size, their channels, and what two nodes have in common. */
  lemma HotSetsKept(config: WorkloadConfig, candidates: seq<nat>, layouts: seq<Segments>, hotSets: seq<seq<seq<nat>>>,
                    e: nat, a: nat, b: nat)
    requires Acceptable(config) && LayoutsOk(config, candidates, layouts) && HotSetsOf(config, hotSets, layouts)
    requires SetOf(candidates) == EligibleSet(config, config.objectCount)
    requires e < |layouts| && a < |config.nodes| && b < |config.nodes| && a != b
    ensures |hotSets[e]| == |config.nodes|
    ensures Unique(hotSets[e][a]) && |hotSets[e][a]| == config.hotSetSize
    ensures forall o :: o in hotSets[e][a] ==> 1 <= o <= config.objectCount && Eligible(config, o)
    ensures SetOf(hotSets[e][a]) * SetOf(hotSets[e][b]) == SetOf(layouts[e].shared)
    ensures |SetOf(hotSets[e][a]) * SetOf(hotSets[e][b])| == SharedCount(config)
  {
    var s := layouts[e];
    assert GoodLayout(config, candidates, s) && HotSetsAt(config, hotSets[e], s);
    HotSetsMeetInShared(s, a, b);
    assert All(s)[0] == s.shared;
    UniqueCount(s.shared);
    forall o | o in hotSets[e][a] ensures 1 <= o <= config.objectCount && Eligible(config, o) {
      ListedInUnion(All(s), 0);
      ListedInUnion(All(s), a + 1);
      assert o in SetOf(All(s)[0]) || o in SetOf(All(s)[a + 1]);
      assert o in SetOf(candidates);
    }
  }

  /** Under partial churn a node's new hot objects were hot for no node in the previous epoch. */
  lemma ReplacementsAreNew(config: WorkloadConfig, candidates: seq<nat>, layouts: seq<Segments>, e: nat, node: nat,
                           o: nat)
    requires Acceptable(config) && LayoutsOk(config, candidates, layouts) && 0 < e < |layouts|
    requires 0.0 < EffectiveChurn(config) < 1.0 && node < |config.nodes|
    ensures |layouts[e].private| == |layouts[e - 1].private| == |config.nodes|
    ensures o in HotSetForNode(layouts[e], node) ==>
              o in HotSetForNode(layouts[e - 1], node) || o !in Union(All(layouts[e - 1]))
  {
    var before, after, churn := layouts[e - 1], layouts[e], EffectiveChurn(config);
    assert GoodLayout(config, candidates, before) && GoodLayout(config, candidates, after);
    assert Follows(config, candidates, e, before, after);
    if o in HotSetForNode(after, node) {
      assert SegmentChurned(All(before)[0], All(after)[0], candidates, Union(All(before)), churn);
      assert SegmentChurned(All(before)[node + 1], All(after)[node + 1], candidates, Union(All(before)), churn);
      if o in after.shared {
        ChurnedMember(before.shared, after.shared, candidates, Union(All(before)), churn, o);
      } else {
        ChurnedMember(before.private[node], after.private[node], candidates, Union(All(before)), churn, o);
      }
    }
  }

  lemma ChurnedMember(before: seq<nat>, after: seq<nat>, candidates: seq<nat>, hot: set<nat>, churn: real, o: nat)
    requires SegmentChurned(before, after, candidates, hot, churn) && o in after
    ensures o in before || o !in hot
  {
    var keep := KeepPrefix(before, churn);
    var j :| 0 <= j < |after| && after[j] == o;
    if j < |keep| {
      assert keep[j] == after[..|keep|][j];
    }
  }
}
