/** The statistics of each node, the latency samples in order, and the peaks, in the terms of requests and queues. */
module Tallies {
  import opened Model
  import opened Totals
  import opened Cache
  import opened Scheduling
  import opened Statistics
  import opened Protocol
  import opened Invariants
  import opened Steps
  import opened Runs
  import opened Barriers
  import opened StatsLaws
  import opened OracleRuns
  import opened PolicyTraces

  /* ---- What a node has counted ---- */

  function HitBy(id: nat): Track -> nat { (t: Track) => if t.request.source == id && t.hit then 1 else 0 }

  /** A request that has been looked up in vain. */
  function MissBy(id: nat): Track -> nat {
    (t: Track) => if t.request.source == id && !t.hit && t.phase != Looking then 1 else 0
  }

  function CountOf(counts: map<nat, nat>, id: nat): nat { if id in counts then counts[id] else 0 }

  /** The latencies of a node's responses, in the order in which they came. */
  function SamplesOf(tracks: seq<Track>, responses: seq<Response>, id: nat): seq<nat> {
    if responses == [] then []
    else
      var n := |responses| - 1;
      var last := responses[n];
      SamplesOf(tracks, responses[..n], id) +
      (if Numbered(tracks, last.request) && tracks[last.request - 1].request.source == id then [last.latency] else [])
  }

  function Sum(s: seq<nat>): nat { if s == [] then 0 else Sum(s[..|s| - 1]) + s[|s| - 1] }

  function LatenciesAt(stats: StatsState, id: nat): NodeLatency {
    if id in stats.nodeLatencies then stats.nodeLatencies[id] else NodeLatency(0, [])
  }

  /** Node `id` has counted its own hits and misses, and keeps the latencies of its own responses. */
  ghost predicate TalliedAt(stats: StatsState, l: Ledger, id: nat) {
    && CountOf(stats.nodeHits, id) == SumBy(HitBy(id), l.tracks)
    && CountOf(stats.nodeMisses, id) == SumBy(MissBy(id), l.tracks)
    && LatenciesAt(stats, id).samples == SamplesOf(l.tracks, l.responses, id)
    && LatenciesAt(stats, id).total == Sum(LatenciesAt(stats, id).samples)
  }

  /** So has every node, and the samples of all nodes are the latencies of all responses in order. */
  ghost predicate Tallied(stats: StatsState, l: Ledger) {
    && (forall id: nat {:trigger TalliedAt(stats, l, id)} :: TalliedAt(stats, l, id))
    && |stats.latencies| == |l.responses|
    && (forall j :: 0 <= j < |l.responses| ==> stats.latencies[j] == l.responses[j].latency)
  }

  /* ---- One request moves ---- */

  /** The same node's request, counted alike. */
  predicate CountsAlike(t: Track, u: Track) {
    u.request.source == t.request.source && u.hit == t.hit && (u.phase == Looking <==> t.phase == Looking)
  }

  lemma {:induction false} SamplesSame(tracks: seq<Track>, tracks': seq<Track>, responses: seq<Response>, id: nat)
    requires |tracks| <= |tracks'|
    requires forall i :: 0 <= i < |tracks| ==> tracks'[i].request.source == tracks[i].request.source
    requires forall j :: 0 <= j < |responses| ==> Numbered(tracks, responses[j].request)
    ensures SamplesOf(tracks', responses, id) == SamplesOf(tracks, responses, id)
  {
    if responses != [] {
      SamplesSame(tracks, tracks', responses[..|responses| - 1], id);
    }
  }

  /** Memory moves a request; nobody counts anything. */
  lemma MoveTallied(stats: StatsState, stats': StatsState, l: Ledger, l': Ledger, i: nat)
    requires Tallied(stats, l) && i < |l.tracks| == |l'.tracks| && l'.tracks == l.tracks[i := l'.tracks[i]]
    requires CountsAlike(l.tracks[i], l'.tracks[i]) && l'.responses == l.responses
    requires stats'.nodeHits == stats.nodeHits && stats'.nodeMisses == stats.nodeMisses
    requires stats'.nodeLatencies == stats.nodeLatencies && stats'.latencies == stats.latencies
    requires forall j :: 0 <= j < |l.responses| ==> Numbered(l.tracks, l.responses[j].request)
    ensures Tallied(stats', l')
  {
    forall id: nat ensures TalliedAt(stats', l', id) {
      assert TalliedAt(stats, l, id);
      SumByUpdate(HitBy(id), l.tracks, i, l'.tracks[i]);
      SumByUpdate(MissBy(id), l.tracks, i, l'.tracks[i]);
      SamplesSame(l.tracks, l'.tracks, l.responses, id);
    }
  }

  /** A node issues a request; nobody counts anything yet. */
  lemma IssueTallied(stats: StatsState, l: Ledger, l': Ledger)
    requires Tallied(stats, l) && |l'.tracks| == |l.tracks| + 1 && l'.tracks == l.tracks + [l'.tracks[|l.tracks|]]
    requires l'.tracks[|l.tracks|].phase == Looking && !l'.tracks[|l.tracks|].hit && l'.responses == l.responses
    requires forall j :: 0 <= j < |l.responses| ==> Numbered(l.tracks, l.responses[j].request)
    ensures Tallied(stats, l')
  {
    forall id: nat ensures TalliedAt(stats, l', id) {
      assert TalliedAt(stats, l, id);
      SumByAppend(HitBy(id), l.tracks, l'.tracks[|l.tracks|]);
      SumByAppend(MissBy(id), l.tracks, l'.tracks[|l.tracks|]);
      SamplesSame(l.tracks, l'.tracks, l.responses, id);
    }
  }

  /** A node looks up a request, and counts a hit or a miss of its own. */
  lemma LookTallied(stats: StatsState, l: Ledger, l': Ledger, i: nat, node: nat)
    requires Tallied(stats, l) && i < |l.tracks| == |l'.tracks| && l'.tracks == l.tracks[i := l'.tracks[i]]
    requires var t, u := l.tracks[i], l'.tracks[i];
             u.request.source == t.request.source == node && t.phase == Looking && !t.hit && u.phase != Looking
    requires l'.responses == l.responses
    requires forall j :: 0 <= j < |l.responses| ==> Numbered(l.tracks, l.responses[j].request)
    ensures Tallied(if l'.tracks[i].hit then RecordHit(stats, node) else RecordMiss(stats, node), l')
  {
    var stats' := if l'.tracks[i].hit then RecordHit(stats, node) else RecordMiss(stats, node);
    forall id: nat ensures TalliedAt(stats', l', id) {
      assert TalliedAt(stats, l, id);
      SumByUpdate(HitBy(id), l.tracks, i, l'.tracks[i]);
      SumByUpdate(MissBy(id), l.tracks, i, l'.tracks[i]);
      SamplesSame(l.tracks, l'.tracks, l.responses, id);
    }
  }

  lemma SumNext(s: seq<nat>, x: nat)
    ensures Sum(s + [x]) == Sum(s) + x
  {
    assert (s + [x])[..|s|] == s;
  }

  /** A node answers a request, and keeps its latency. */
  lemma AnswerTallied(stats: StatsState, l: Ledger, l': Ledger, i: nat, node: nat)
    requires Tallied(stats, l) && i < |l.tracks| == |l'.tracks| && l'.tracks == l.tracks[i := l'.tracks[i]]
    requires CountsAlike(l.tracks[i], l'.tracks[i]) && l.tracks[i].request.source == node
    requires |l'.responses| == |l.responses| + 1 && l'.responses == l.responses + [l'.responses[|l.responses|]]
    requires l'.responses[|l.responses|].request == i + 1
    requires forall j :: 0 <= j < |l.responses| ==> Numbered(l.tracks, l.responses[j].request)
    ensures Tallied(RecordLatency(stats, node, l'.responses[|l.responses|].latency), l')
  {
    hide TalliedAt, RecordLatency, SamplesOf, SumBy, CountsAlike;
    var last := l'.responses[|l.responses|];
    var stats' := RecordLatency(stats, node, last.latency);
    LatencyRecorded(stats, node, last.latency);
    forall id: nat ensures TalliedAt(stats', l', id) {
      assert TalliedAt(stats, l, id);
      SameCounts(l.tracks, l'.tracks, i, id);
      SampleAdded(l, l', i, id);
      AnswerAt(stats, stats', l, l', node, last.latency, id);
    }
  }

  lemma LatencyRecorded(stats: StatsState, node: nat, latency: nat)
    ensures var stats' := RecordLatency(stats, node, latency);
            && stats'.nodeHits == stats.nodeHits && stats'.nodeMisses == stats.nodeMisses
            && stats'.latencies == stats.latencies + [latency]
            && forall id: nat {:trigger LatenciesAt(stats', id)} ::
                 LatenciesAt(stats', id) ==
                 var before := LatenciesAt(stats, id);
                 if id == node then NodeLatency(before.total + latency, before.samples + [latency]) else before
  {
  }

  lemma SameCounts(tracks: seq<Track>, tracks': seq<Track>, i: nat, id: nat)
    requires i < |tracks| == |tracks'| && tracks' == tracks[i := tracks'[i]] && CountsAlike(tracks[i], tracks'[i])
    ensures SumBy(HitBy(id), tracks') == SumBy(HitBy(id), tracks)
    ensures SumBy(MissBy(id), tracks') == SumBy(MissBy(id), tracks)
  {
    SumByUpdate(HitBy(id), tracks, i, tracks'[i]);
    SumByUpdate(MissBy(id), tracks, i, tracks'[i]);
  }

  lemma SampleAdded(l: Ledger, l': Ledger, i: nat, id: nat)
    requires i < |l.tracks| == |l'.tracks| && l'.tracks == l.tracks[i := l'.tracks[i]]
    requires CountsAlike(l.tracks[i], l'.tracks[i])
    requires |l'.responses| == |l.responses| + 1 && l'.responses == l.responses + [l'.responses[|l.responses|]]
    requires l'.responses[|l.responses|].request == i + 1
    requires forall j :: 0 <= j < |l.responses| ==> Numbered(l.tracks, l.responses[j].request)
    ensures SamplesOf(l'.tracks, l'.responses, id) ==
            SamplesOf(l.tracks, l.responses, id) +
            if l.tracks[i].request.source == id then [l'.responses[|l.responses|].latency] else []
  {
    assert l'.responses[..|l.responses|] == l.responses;
    SamplesSame(l.tracks, l'.tracks, l.responses, id);
  }

  lemma AnswerAt(stats: StatsState, stats': StatsState, l: Ledger, l': Ledger, node: nat, latency: nat, id: nat)
    requires TalliedAt(stats, l, id)
    requires stats'.nodeHits == stats.nodeHits && stats'.nodeMisses == stats.nodeMisses
    requires LatenciesAt(stats', id) ==
             var before := LatenciesAt(stats, id);
             if id == node then NodeLatency(before.total + latency, before.samples + [latency]) else before
    requires SumBy(HitBy(id), l'.tracks) == SumBy(HitBy(id), l.tracks)
    requires SumBy(MissBy(id), l'.tracks) == SumBy(MissBy(id), l.tracks)
    requires SamplesOf(l'.tracks, l'.responses, id) ==
             SamplesOf(l.tracks, l.responses, id) + if id == node then [latency] else []
    ensures TalliedAt(stats', l', id)
  {
    hide SamplesOf, SumBy, LatenciesAt;
    SumNext(LatenciesAt(stats, id).samples, latency);
  }

  /* ---- Handlers ---- */

  predicate AllNumbered(l: Ledger) {
    forall j :: 0 <= j < |l.responses| ==> Numbered(l.tracks, l.responses[j].request)
  }

  lemma ResponsesNumbered(cfg: Config, s: State)
    requires Core(cfg, s)
    ensures AllNumbered(s.shared.ledger)
  {
    var l := s.shared.ledger;
    forall j | 0 <= j < |l.responses| ensures Numbered(l.tracks, l.responses[j].request) {
      assert Answers(l.tracks, l.responses[j], j);
    }
  }

  lemma MemoryTallies(cfg: Config, m: MemoryState, sh: Shared, e: Event)
    requires MemoryShape(cfg, m) && MemoryHandle(cfg, m, sh, e).Ok? && Known(sh, e.request)
    requires TrackOf(sh, e.request).phase in {Forwarding, Queued, Serving}
    requires Tallied(sh.stats, sh.ledger) && AllNumbered(sh.ledger)
    ensures var sh' := MemoryHandle(cfg, m, sh, e).value.1; Tallied(sh'.stats, sh'.ledger)
  {
    hide Schedule, Stamp, Tallied, Put, Cell;
    var sh' := MemoryHandle(cfg, m, sh, e).value.1;
    MoveTallied(sh.stats, sh'.stats, sh.ledger, sh'.ledger, e.request - 1);
  }

  lemma LookupTallies(cfg: Config, id: nat, n: NodeState, sh: Shared, e: Event)
    requires Known(sh, e.request) && Tallied(sh.stats, sh.ledger) && AllNumbered(sh.ledger)
    requires var t := TrackOf(sh, e.request); t.request.source == id && t.phase == Looking && !t.hit
    ensures NodeLookup(cfg, id, n, sh, e).Ok?
    ensures var sh' := NodeLookup(cfg, id, n, sh, e).value.1; Tallied(sh'.stats, sh'.ledger)
  {
    hide Schedule, Stamp, Lookup, Tallied, RecordHit, RecordMiss;
    var sh' := NodeLookup(cfg, id, n, sh, e).value.1;
    LookTallied(sh.stats, sh.ledger, sh'.ledger, e.request - 1, id);
  }

  lemma RespondTallies(id: nat, n: NodeState, sh: Shared, e: Event, tier: Tier, bytes: nat)
    requires Known(sh, e.request) && Tallied(sh.stats, sh.ledger) && AllNumbered(sh.ledger)
    requires TrackOf(sh, e.request).request.source == id && TrackOf(sh, e.request).phase != Looking
    requires Respond(id, n, sh, e, tier, bytes).Ok?
    ensures var sh' := Respond(id, n, sh, e, tier, bytes).value.1; Tallied(sh'.stats, sh'.ledger)
  {
    hide Schedule, Stamp, Tallied, RecordLatency;
    var sh' := Respond(id, n, sh, e, tier, bytes).value.1;
    AnswerTallied(sh.stats, sh.ledger, sh'.ledger, e.request - 1, id);
  }

  lemma NodeTallies(cfg: Config, id: nat, n: NodeState, sh: Shared, e: Event)
    requires NodeHandle(cfg, id, n, sh, e).Ok? && Known(sh, e.request) && e.kind != GenerateRequest
    requires var t := TrackOf(sh, e.request);
             t.request.source == id && (e.kind == LocalCacheLookup <==> t.phase == Looking) &&
             (t.phase == Looking ==> !t.hit)
    requires Tallied(sh.stats, sh.ledger) && AllNumbered(sh.ledger)
    ensures var sh' := NodeHandle(cfg, id, n, sh, e).value.1; Tallied(sh'.stats, sh'.ledger)
  {
    hide Schedule, Stamp, Tallied, NodeLookup, Respond, Admit;
    var sh' := NodeHandle(cfg, id, n, sh, e).value.1;
    match e.kind
    case LocalCacheLookup => LookupTallies(cfg, id, n, sh, e);
    case LocalCacheHitComplete => RespondTallies(id, n, sh, e, LocalTier, 0);
    case ReturnResponse =>
      var r := TrackOf(sh, e.request).request;
      RespondTallies(id, n.(cache := Admit(n.cache, r, e.time)), sh, e, MemoryTier, r.size);
    case RequestComplete => MoveTallied(sh.stats, sh'.stats, sh.ledger, sh'.ledger, e.request - 1);
    case _ =>
  }

  /* ---- Whole runs ---- */

  ghost predicate RunTallied(s: State) { Tallied(s.shared.stats, s.shared.ledger) }

  lemma IssueRecords(cfg: Config, s: State, e: Event)
    requires MemoryShape(cfg, s.memory) && Dispatch(cfg, s, e).Ok? && e.kind == GenerateRequest && e.target in s.nodes
    requires NextSpec(s.nodes[e.target]).Some?
    ensures var l, l' := s.shared.ledger, Dispatch(cfg, s, e).value.shared.ledger;
            && Dispatch(cfg, s, e).value.shared.stats == s.shared.stats && l'.responses == l.responses
            && |l'.tracks| == |l.tracks| + 1 && !l'.tracks[|l.tracks|].hit
  {
    hide Schedule, Stamp, StartEpoch;
  }

  lemma LookedUpOnce(cfg: Config, s: State, e: Event)
    requires Due(cfg, s, e) && e.target in s.nodes && e.kind != GenerateRequest
    ensures Known(s.shared, e.request)
    ensures TrackOf(s.shared, e.request).phase == Looking ==> !TrackOf(s.shared, e.request).hit
  {
    SourceAtNode(cfg, s, e);
    assert Timed(cfg, s.shared.ledger.tracks[e.request - 1]);
  }

  lemma HandledTallies(cfg: Config, s: State, e: Event)
    requires Due(cfg, s, e) && RunTallied(s)
    ensures Dispatch(cfg, Pick(s, e), e).Ok? && RunTallied(Dispatch(cfg, Pick(s, e), e).value)
  {
    hide Tallied, NodeHandle, MemoryHandle, Core, AllNumbered;
    DispatchKeeps(cfg, s, e);
    ShapeOf(cfg, s);
    ResponsesNumbered(cfg, s);
    var p, d := Pick(s, e), Dispatch(cfg, Pick(s, e), e).value;
    if e.kind == GenerateRequest {
      var i := IssuerOf(cfg, s, e);
      IssuesNext(cfg, p, e);
      IssueRecords(cfg, p, e);
      IssueOfKnown(p, d);
    } else if e.target in s.nodes {
      SourceAtNode(cfg, s, e);
      LookedUpOnce(cfg, s, e);
      NodeTallies(cfg, e.target, s.nodes[e.target], p.shared, e);
    } else {
      PhaseAtMemory(cfg, s, e);
      MemoryTallies(cfg, s.memory, p.shared, e);
    }
  }

  lemma IssueOfKnown(s: State, d: State)
    requires RunTallied(s) && AllNumbered(s.shared.ledger) && d.shared.stats == s.shared.stats
    requires var l, l' := s.shared.ledger, d.shared.ledger;
             && l'.responses == l.responses && |l'.tracks| == |l.tracks| + 1
             && l'.tracks == l.tracks + [l'.tracks[|l.tracks|]] && !l'.tracks[|l.tracks|].hit
             && l'.tracks[|l.tracks|].phase == Looking
    ensures RunTallied(d)
  {
    IssueTallied(s.shared.stats, s.shared.ledger, d.shared.ledger);
  }

  lemma TurnTallies(cfg: Config, s: State)
    requires Inv(cfg, s) && RunTallied(s)
    ensures RunTallied(Turn(cfg, s))
  {
    if s.shared.queue.pending != {} {
      hide Dispatch, Tallied, Release;
      HandledTallies(cfg, s, Least(s.shared.queue));
      TurnIsRelease(cfg, s);
      ReleaseFrame(cfg, Handled(cfg, s));
    }
  }

  lemma NothingTallied()
    ensures Tallied(NoStats, Ledger([], []))
  {
    forall id: nat ensures TalliedAt(NoStats, Ledger([], []), id) {
    }
  }

  /**
   * In every reachable state each node has counted its own hits and misses, and keeps the latencies of its own
   * responses in order; the samples of all nodes together are the latencies of all responses in order.
   */
  lemma {:induction false} NodesTally(cfg: Config, k: nat)
    requires ValidConfig(cfg)
    ensures RunTallied(Run(cfg, k))
  {
    hide Turn, Inv, Core, Release, Tallied;
    if k == 0 {
      NothingTallied();
      ReleaseFrame(cfg, Initial(cfg));
    } else {
      NodesTally(cfg, k - 1);
      RunKeeps(cfg, k - 1);
      TurnTallies(cfg, Run(cfg, k - 1));
    }
  }
}
