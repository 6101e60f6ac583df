/** The private caches in whole runs: when each resident was last accessed, and what every placement record tells. */
module Recency {
  import opened Model
  import opened Policies
  import opened Cache
  import opened CacheLaws
  import opened Scheduling
  import opened Statistics
  import opened Protocol
  import opened Invariants
  import opened HandlerTokens
  import opened Releases
  import opened Steps
  import opened Runs
  import opened Barriers
  import opened StatsLaws
  import opened OracleRuns
  import opened Telemetries
  import opened CacheRuns
  import opened Placements
  import opened Histories

  ghost predicate AllHistories(nodes: map<nat, NodeState>, tracks: seq<Track>, now: nat) {
    forall id {:trigger History(id, nodes[id].cache, tracks, now)} :: id in nodes ==>
      History(id, nodes[id].cache, tracks, now)
  }

  ghost predicate Remembered(s: State) { AllHistories(s.nodes, s.shared.ledger.tracks, s.shared.queue.now) }

  /* ---- Requests that move at memory ---- */

  lemma MemoryQuiet(cfg: Config, m: MemoryState, sh: Shared, e: Event, id: nat, now: nat)
    requires MemoryShape(cfg, m) && MemoryHandle(cfg, m, sh, e).Ok? && Known(sh, e.request)
    requires TrackOf(sh, e.request).phase in {Forwarding, Queued, Serving}
    ensures Quiet(sh.ledger.tracks, MemoryHandle(cfg, m, sh, e).value.1.ledger.tracks, id, now)
  {
    hide Schedule, Stamp, ArrivalStats, RecordQueueWait, RecordMemoryWait, RecordService;
  }

  lemma MemoryRemembers(cfg: Config, s: State, e: Event)
    requires Due(cfg, s, e) && e.target !in s.nodes && Dispatch(cfg, Pick(s, e), e).Ok?
    requires Remembered(Pick(s, e))
    ensures Remembered(Dispatch(cfg, Pick(s, e), e).value)
  {
    hide History, MemoryHandle, Core, Quiet;
    ShapeOf(cfg, s);
    PhaseAtMemory(cfg, s, e);
    DispatchKeepsTime(cfg, Pick(s, e), e);
    var p, d := Pick(s, e), Dispatch(cfg, Pick(s, e), e).value;
    forall id | id in d.nodes ensures History(id, d.nodes[id].cache, d.shared.ledger.tracks, d.shared.queue.now) {
      assert History(id, p.nodes[id].cache, p.shared.ledger.tracks, p.shared.queue.now);
      MemoryQuiet(cfg, s.memory, p.shared, e, id, p.shared.queue.now);
      RestsAs(id, p.nodes[id].cache, p.shared.ledger.tracks, d.shared.ledger.tracks, p.shared.queue.now);
    }
  }

  lemma RestsAs(id: nat, c: CacheState, tracks: seq<Track>, tracks': seq<Track>, now: nat)
    requires History(id, c, tracks, now) && Quiet(tracks, tracks', id, now)
    ensures History(id, c, tracks', now)
  {
    HistoryRests(id, c, c, tracks, tracks', now);
  }

  /* ---- Requests that are issued ---- */

  lemma IssueQuiet(cfg: Config, s: State, e: Event, id: nat)
    requires MemoryShape(cfg, s.memory) && Dispatch(cfg, s, e).Ok? && e.kind == GenerateRequest && e.target in s.nodes
    requires NextSpec(s.nodes[e.target]).Some? && e.time == s.shared.queue.now
    ensures Quiet(s.shared.ledger.tracks, Dispatch(cfg, s, e).value.shared.ledger.tracks, id, s.shared.queue.now)
  {
    hide Schedule, Stamp, StartEpoch;
  }

  lemma EpochHistory(cfg: Config, id: nat, n: NodeState, epoch: nat, time: nat, seen: Telemetry, tracks: seq<Track>)
    requires History(id, n.cache, tracks, time) && Sound(n.cache)
    ensures History(id, StartEpoch(cfg, id, n, epoch, time, seen).cache, tracks, time)
  {
    hide Install, OnEpochStart, History, Sound;
    if n.epoch != Some(epoch) {
      var c := EpochStart(n.cache, epoch, seen);
      StartRests(id, n.cache, epoch, seen, tracks, time);
      StartSound(n.cache, epoch, seen);
      if cfg.plan.Some? {
        InstallHistory(id, c, if epoch in cfg.plan.value then cfg.plan.value[epoch] else [], tracks, time, epoch);
      }
    }
  }

  lemma StartRests(id: nat, c: CacheState, epoch: nat, seen: Telemetry, tracks: seq<Track>, now: nat)
    requires History(id, c, tracks, now)
    ensures History(id, EpochStart(c, epoch, seen), tracks, now)
  {
    hide HotnessEpochStart, ContentionEpochStart, Recent, Told, Credited;
    NoneConcerned(id, tracks, now);
    HistoryRests(id, c, EpochStart(c, epoch, seen), tracks, tracks, now);
  }

  lemma NoneConcerned(id: nat, tracks: seq<Track>, now: nat)
    ensures Quiet(tracks, tracks, id, now)
  {
  }

  lemma StartSound(c: CacheState, epoch: nat, seen: Telemetry)
    requires Sound(c)
    ensures Sound(EpochStart(c, epoch, seen))
  {
    hide HotnessEpochStart, ContentionEpochStart;
  }

  lemma IssueRemembers(cfg: Config, s: State, e: Event)
    requires Due(cfg, s, e) && e.kind == GenerateRequest && Dispatch(cfg, Pick(s, e), e).Ok?
    requires Remembered(Pick(s, e))
    ensures Remembered(Dispatch(cfg, Pick(s, e), e).value)
  {
    hide History, Core, Quiet, StartEpoch, NodeGenerate, Sound;
    ShapeOf(cfg, s);
    var i := IssuerOf(cfg, s, e);
    var p, n := Pick(s, e), s.nodes[e.target];
    DispatchKeepsTime(cfg, p, e);
    IssuesNext(cfg, p, e);
    CacheInOrder(cfg, s, e.target);
    var d := Dispatch(cfg, p, e).value;
    GenerateStarts(cfg, e.target, n, p.shared, e);
    assert History(e.target, n.cache, p.shared.ledger.tracks, e.time);
    var base := if cfg.mode == ScheduledBursty then Since(NextSpec(n).value.offset, e.time) else n.epochStart;
    EpochHistory(cfg, e.target, n.(epochStart := base), NextSpec(n).value.epoch, e.time, p.shared.stats.objects,
                 p.shared.ledger.tracks);
    forall id | id in d.nodes ensures History(id, d.nodes[id].cache, d.shared.ledger.tracks, d.shared.queue.now) {
      assert History(id, p.nodes[id].cache, p.shared.ledger.tracks, e.time);
      IssueQuiet(cfg, p, e, id);
      RestsAs(id, d.nodes[id].cache, p.shared.ledger.tracks, d.shared.ledger.tracks, e.time);
    }
  }

  /* ---- Requests that move at their node ---- */

  /** Whatever a node does with one of its own requests does not concern the others. */
  lemma OthersQuiet(cfg: Config, source: nat, n: NodeState, sh: Shared, e: Event, id: nat, now: nat)
    requires NodeHandle(cfg, source, n, sh, e).Ok? && e.kind != GenerateRequest && Known(sh, e.request)
    requires TrackOf(sh, e.request).request.source == source != id
    ensures Quiet(sh.ledger.tracks, NodeHandle(cfg, source, n, sh, e).value.1.ledger.tracks, id, now)
  {
    hide Schedule, Stamp, Lookup, Admit;
  }

  /** Nor does completing a hit, or a request that has been answered, concern its own. */
  lemma CompletionQuiet(cfg: Config, id: nat, n: NodeState, sh: Shared, e: Event, now: nat)
    requires NodeHandle(cfg, id, n, sh, e).Ok? && e.kind in {LocalCacheHitComplete, RequestComplete}
    requires Known(sh, e.request) && KindOf(TrackOf(sh, e.request).phase) == e.kind && HitSoFar(TrackOf(sh, e.request))
    requires TrackOf(sh, e.request).phase != Queued
    ensures Quiet(sh.ledger.tracks, NodeHandle(cfg, id, n, sh, e).value.1.ledger.tracks, id, now)
    ensures NodeHandle(cfg, id, n, sh, e).value.0.cache == n.cache
  {
    hide Schedule, Stamp, Lookup, Admit;
  }

  lemma NodeLooksUp(cfg: Config, id: nat, n: NodeState, sh: Shared, e: Event)
    requires e.kind == LocalCacheLookup && Known(sh, e.request)
    requires var t := TrackOf(sh, e.request);
             t.request.source == id && t.phase == Looking && !t.hit && t.request.issueTime == e.time
    ensures NodeHandle(cfg, id, n, sh, e).Ok?
    ensures var (n', sh') := NodeHandle(cfg, id, n, sh, e).value;
            var r := TrackOf(sh, e.request).request.(stage := LocalLookup);
            && LooksUp(sh.ledger.tracks, sh'.ledger.tracks, e.request - 1, id, n.cache, e.time)
            && n'.cache == Lookup(n.cache, r, e.time, sh.stats.objects)
  {
    hide Schedule, Stamp, Lookup;
  }

  lemma NodeAnswers(cfg: Config, id: nat, n: NodeState, sh: Shared, e: Event)
    requires e.kind == ReturnResponse && Known(sh, e.request) && NodeHandle(cfg, id, n, sh, e).Ok?
    requires var t := TrackOf(sh, e.request);
             t.request.source == id && t.phase == Returning && !t.hit && t.request.issueTime <= e.time &&
             t.request.id == e.request
    ensures var (n', sh') := NodeHandle(cfg, id, n, sh, e).value;
            && Histories.Answers(sh.ledger.tracks, sh'.ledger.tracks, e.request - 1, id, e.time)
            && n'.cache == Admit(n.cache, TrackOf(sh, e.request).request, e.time)
  {
    hide Schedule, Stamp, Admit;
  }

  /** What is known of the request that a node handles. */
  lemma RequestThere(cfg: Config, s: State, e: Event)
    requires Due(cfg, s, e) && e.target in s.nodes && e.kind != GenerateRequest
    ensures Known(s.shared, e.request)
    ensures var t := TrackOf(s.shared, e.request);
            && KindOf(t.phase) == e.kind && t.phase != Queued && t.request.source == e.target && HitSoFar(t)
            && t.request.id == e.request && (t.phase == Looking ==> !t.hit && t.request.issueTime == e.time)
            && (t.phase == Returning ==> !t.hit)
  {
    Addressed(cfg, s, e);
    RequestAtNode(cfg, s.memory, s.shared, s.nodes, e);
    assert Timed(cfg, s.shared.ledger.tracks[e.request - 1]);
  }

  lemma OwnRemembers(cfg: Config, s: State, e: Event)
    requires Due(cfg, s, e) && e.target in s.nodes && e.kind != GenerateRequest && Dispatch(cfg, Pick(s, e), e).Ok?
    requires Remembered(Pick(s, e))
    ensures var p, d := Pick(s, e), Dispatch(cfg, Pick(s, e), e).value;
            e.target in d.nodes && History(e.target, d.nodes[e.target].cache, d.shared.ledger.tracks, e.time)
  {
    hide History, Core, Quiet, NodeHandle, Sound, KindOf, HitSoFar;
    ShapeOf(cfg, s);
    RequestThere(cfg, s, e);
    CacheInOrder(cfg, s, e.target);
    KindsAtNode(cfg, s, e);
    var p, n := Pick(s, e), s.nodes[e.target];
    assert History(e.target, n.cache, p.shared.ledger.tracks, e.time);
    NodeHistory(cfg, e.target, n, p.shared, e);
  }

  /** What a node does with one of its own requests keeps the history of its cache. */
  lemma NodeHistory(cfg: Config, id: nat, n: NodeState, sh: Shared, e: Event)
    requires NodeHandle(cfg, id, n, sh, e).Ok? && Known(sh, e.request) && Sound(n.cache)
    requires e.kind in {LocalCacheLookup, LocalCacheHitComplete, ReturnResponse, RequestComplete}
    requires History(id, n.cache, sh.ledger.tracks, e.time)
    requires var t := TrackOf(sh, e.request);
             && KindOf(t.phase) == e.kind && t.phase != Queued && t.request.source == id && HitSoFar(t)
             && t.request.id == e.request && (t.phase == Looking ==> !t.hit && t.request.issueTime == e.time)
             && (t.phase == Returning ==> !t.hit)
             && (e.kind == LocalCacheLookup <==> t.phase == Looking)
             && (e.kind == ReturnResponse <==> t.phase == Returning)
    ensures var (n', sh') := NodeHandle(cfg, id, n, sh, e).value; History(id, n'.cache, sh'.ledger.tracks, e.time)
  {
    hide History, Quiet, NodeHandle, Sound, KindOf, HitSoFar, Lookup, Admit, LooksUp, Histories.Answers;
    var tracks, i := sh.ledger.tracks, e.request - 1;
    var sh' := NodeHandle(cfg, id, n, sh, e).value.1;
    if e.kind == LocalCacheLookup {
      NodeLooksUp(cfg, id, n, sh, e);
      LookupHistory(id, n.cache, tracks[i].request.(stage := LocalLookup), tracks, sh'.ledger.tracks, i, e.time,
                    sh.stats.objects);
    } else if e.kind == ReturnResponse {
      IssuedBefore(id, n.cache, tracks, i, e.time);
      NodeAnswers(cfg, id, n, sh, e);
      AdmitHistory(id, n.cache, tracks[i].request, tracks, sh'.ledger.tracks, i, e.time);
    } else {
      CompletionQuiet(cfg, id, n, sh, e, e.time);
      RestsAs(id, n.cache, tracks, sh'.ledger.tracks, e.time);
    }
  }

  lemma KindsAtNode(cfg: Config, s: State, e: Event)
    requires Due(cfg, s, e) && e.target in s.nodes && e.kind != GenerateRequest
    ensures e.kind in {LocalCacheLookup, LocalCacheHitComplete, ReturnResponse, RequestComplete}
    ensures Known(s.shared, e.request)
    ensures var t := TrackOf(s.shared, e.request);
            && (e.kind == LocalCacheLookup <==> t.phase == Looking)
            && (e.kind == ReturnResponse <==> t.phase == Returning)
  {
    Addressed(cfg, s, e);
    RequestThere(cfg, s, e);
  }

  lemma IssuedBefore(id: nat, c: CacheState, tracks: seq<Track>, i: nat, now: nat)
    requires History(id, c, tracks, now) && i < |tracks|
    ensures tracks[i].request.issueTime <= now
  {
  }

  lemma NodeRemembers(cfg: Config, s: State, e: Event)
    requires Due(cfg, s, e) && e.target in s.nodes && e.kind != GenerateRequest && Dispatch(cfg, Pick(s, e), e).Ok?
    requires Remembered(Pick(s, e))
    ensures Remembered(Dispatch(cfg, Pick(s, e), e).value)
  {
    hide History, Core, Quiet, NodeHandle;
    ShapeOf(cfg, s);
    RequestThere(cfg, s, e);
    DispatchKeepsTime(cfg, Pick(s, e), e);
    OwnRemembers(cfg, s, e);
    var p, d := Pick(s, e), Dispatch(cfg, Pick(s, e), e).value;
    forall id | id in d.nodes ensures History(id, d.nodes[id].cache, d.shared.ledger.tracks, d.shared.queue.now) {
      if id != e.target {
        assert History(id, p.nodes[id].cache, p.shared.ledger.tracks, e.time);
        OthersQuiet(cfg, e.target, s.nodes[e.target], p.shared, e, id, e.time);
        RestsAs(id, p.nodes[id].cache, p.shared.ledger.tracks, d.shared.ledger.tracks, e.time);
      }
    }
  }

  /* ---- Whole runs ---- */

  lemma PickRemembers(cfg: Config, s: State, e: Event)
    requires Due(cfg, s, e) && Remembered(s)
    ensures Remembered(Pick(s, e))
  {
    hide History;
    var p := Pick(s, e);
    forall id | id in p.nodes ensures History(id, p.nodes[id].cache, p.shared.ledger.tracks, p.shared.queue.now) {
      assert History(id, s.nodes[id].cache, s.shared.ledger.tracks, s.shared.queue.now);
      HistoryLater(id, s.nodes[id].cache, s.shared.ledger.tracks, s.shared.queue.now, e.time);
    }
  }

  lemma HandledRemembers(cfg: Config, s: State, e: Event)
    requires Due(cfg, s, e) && Remembered(s)
    ensures Dispatch(cfg, Pick(s, e), e).Ok? && Remembered(Dispatch(cfg, Pick(s, e), e).value)
  {
    hide Remembered, Dispatch, Core, Pick;
    DispatchKeeps(cfg, s, e);
    PickRemembers(cfg, s, e);
    if e.kind == GenerateRequest {
      IssueRemembers(cfg, s, e);
    } else if e.target in s.nodes {
      NodeRemembers(cfg, s, e);
    } else {
      MemoryRemembers(cfg, s, e);
    }
  }

  lemma ReleaseRemembers(cfg: Config, s: State)
    requires Remembered(s)
    ensures Remembered(Release(cfg, s))
  {
    hide Release, History;
    ReleaseSame(cfg, s);
    ReleaseFrame(cfg, s);
    var r := Release(cfg, s);
    forall id | id in r.nodes ensures History(id, r.nodes[id].cache, r.shared.ledger.tracks, r.shared.queue.now) {
      assert SameButGenerating(r.nodes[id], s.nodes[id]);
      assert History(id, s.nodes[id].cache, s.shared.ledger.tracks, s.shared.queue.now);
    }
  }

  lemma TurnRemembers(cfg: Config, s: State)
    requires Inv(cfg, s) && Remembered(s)
    ensures Remembered(Turn(cfg, s))
  {
    if s.shared.queue.pending != {} {
      hide Dispatch, Remembered, Release;
      HandledRemembers(cfg, s, Least(s.shared.queue));
      TurnIsRelease(cfg, s);
      ReleaseRemembers(cfg, Handled(cfg, s));
    }
  }

  lemma InitialRemembers(cfg: Config)
    requires ValidConfig(cfg) && !cfg.policy.AlwaysRemote?
    ensures Remembered(Initial(cfg))
  {
    InitialNodesAre(cfg, |cfg.nodes|);
    var s := Initial(cfg);
    forall id | id in s.nodes ensures History(id, s.nodes[id].cache, s.shared.ledger.tracks, s.shared.queue.now) {
      var i :| 0 <= i < |cfg.nodes| && cfg.nodes[i].id == id;
      forall obj: nat ensures Credits([], obj) == Hits([], id, obj) {
      }
    }
  }

  lemma {:induction false} RunRemembers(cfg: Config, k: nat)
    requires ValidConfig(cfg) && !cfg.policy.AlwaysRemote?
    ensures Remembered(Run(cfg, k))
  {
    hide Turn, Inv, Core, Release, Remembered;
    if k == 0 {
      InitialRemembers(cfg);
      ReleaseRemembers(cfg, Initial(cfg));
    } else {
      RunRemembers(cfg, k - 1);
      RunKeeps(cfg, k - 1);
      TurnRemembers(cfg, Run(cfg, k - 1));
    }
  }

  /* ---- What every state remembers ---- */

  /**
   * In every reachable state, each resident was last accessed when its node last hit it or brought it in, whichever
   * is later: a request that hit is found in the table under its own time, an admission or installation in the records.
   */
  lemma AccessesAreTheLatest(cfg: Config, k: nat, id: nat, obj: nat)
    requires ValidConfig(cfg) && !cfg.policy.AlwaysRemote? && id in Run(cfg, k).nodes
    requires obj in Run(cfg, k).nodes[id].cache.entries
    ensures var s := Run(cfg, k);
            var c := s.nodes[id].cache;
            LastAccessed(id, obj, c.entries[obj].lastAccess, c.records, s.shared.ledger.tracks)
  {
    hide Run, LastAccessed;
    RunRemembers(cfg, k);
    var s := Run(cfg, k);
    assert History(id, s.nodes[id].cache, s.shared.ledger.tracks, s.shared.queue.now);
  }

  /**
   * In every reachable state, a node has exactly one record for each of its answered misses, made when the response
   * came, and none for other requests; every other record is that of a replica, and only what was admitted is evicted.
   */
  lemma RecordsTellMisses(cfg: Config, k: nat, id: nat)
    requires ValidConfig(cfg) && !cfg.policy.AlwaysRemote? && id in Run(cfg, k).nodes
    ensures var s := Run(cfg, k); Told(id, s.nodes[id].cache, s.shared.ledger.tracks, s.shared.queue.now)
  {
    hide Run, Told;
    RunRemembers(cfg, k);
    var s := Run(cfg, k);
    assert History(id, s.nodes[id].cache, s.shared.ledger.tracks, s.shared.queue.now);
  }

  /** In every reachable state, the placements of an object have been credited with the node's hits on that object. */
  lemma HitsAreCredited(cfg: Config, k: nat, id: nat, obj: nat)
    requires ValidConfig(cfg) && !cfg.policy.AlwaysRemote? && id in Run(cfg, k).nodes
    ensures var s := Run(cfg, k);
            Credits(s.nodes[id].cache.records, obj) == Hits(s.shared.ledger.tracks, id, obj)
  {
    hide Run, Credits, Hits;
    RunRemembers(cfg, k);
    var s := Run(cfg, k);
    assert History(id, s.nodes[id].cache, s.shared.ledger.tracks, s.shared.queue.now);
  }

  /** In every reachable state a cache has counted the lookups of its node that hit, and those that missed. */
  lemma CachesCount(cfg: Config, k: nat, id: nat)
    requires ValidConfig(cfg) && !cfg.policy.AlwaysRemote? && id in Run(cfg, k).nodes
    ensures var s := Run(cfg, k); Counted(id, s.nodes[id].cache, s.shared.ledger.tracks)
  {
    hide Run, Counted;
    RunRemembers(cfg, k);
    var s := Run(cfg, k);
    assert History(id, s.nodes[id].cache, s.shared.ledger.tracks, s.shared.queue.now);
  }

  /* ---- Victims under LRU ---- */

  /** `a` was last accessed before `b`, or at the same time and has the smaller identifier. */
  ghost predicate LongerAgo(id: nat, a: nat, b: nat, records: seq<Record>, tracks: seq<Track>) {
    forall s, t {:trigger LastAccessed(id, a, s, records, tracks), LastAccessed(id, b, t, records, tracks)} ::
      LastAccessed(id, a, s, records, tracks) && LastAccessed(id, b, t, records, tracks) ==>
        s < t || (s == t && a < b)
  }

  lemma LastAccessOnce(id: nat, obj: nat, s: nat, t: nat, records: seq<Record>, tracks: seq<Track>)
    requires LastAccessed(id, obj, s, records, tracks) && LastAccessed(id, obj, t, records, tracks)
    ensures s == t
  {
  }

  /** The victims that an attempt records are residents in the policy's order. */
  lemma RecordedVictims(c: CacheState, r: Request, time: nat)
    requires Sound(c)
    ensures var d := Admit(c, r, time);
            |d.records| == |c.records| + 1 && ColdestFirst(c.policy, c.entries, d.records[|c.records|].victims)
  {
    AdmitContinues(c, r, time);
    AttemptVictims(c, r, time);
    PlanIsGreedy(c.policy, c.entries, c.occupancy, c.capacity, r);
    NothingPlanned(c.policy, c.entries, c.occupancy, c.capacity, r.size);
  }

  lemma AttemptVictims(c: CacheState, r: Request, time: nat)
    requires |Admit(c, r, time).records| == |c.records| + 1
    ensures var victims := Admit(c, r, time).records[|c.records|].victims;
            victims == [] || victims == PlanVictims(c.policy, c.entries, c.occupancy, c.capacity, r).victims
  {
    hide PlanVictims, Admits, EvictAll;
  }

  lemma LruColder(entries: map<nat, Entry>, a: nat, b: nat)
    requires a in entries && b in entries && Colder(Lru, entries, a, b)
    ensures entries[a].lastAccess < entries[b].lastAccess || (entries[a].lastAccess == entries[b].lastAccess && a < b)
  {
  }

  lemma ColderIsLongerAgo(id: nat, c: CacheState, tracks: seq<Track>, a: nat, b: nat)
    requires c.policy == Lru && a in c.entries && b in c.entries && Colder(Lru, c.entries, a, b)
    requires Recent(id, c, tracks)
    ensures LongerAgo(id, a, b, c.records, tracks)
  {
    hide LastAccessed, Colder;
    LruColder(c.entries, a, b);
    forall s, t | LastAccessed(id, a, s, c.records, tracks) && LastAccessed(id, b, t, c.records, tracks)
      ensures s < t || (s == t && a < b)
    {
      assert LastAccessed(id, a, c.entries[a].lastAccess, c.records, tracks);
      assert LastAccessed(id, b, c.entries[b].lastAccess, c.records, tracks);
      LastAccessOnce(id, a, s, c.entries[a].lastAccess, c.records, tracks);
      LastAccessOnce(id, b, t, c.entries[b].lastAccess, c.records, tracks);
    }
  }

  /** Each victim was accessed longer ago than the next, and than every resident that is not a victim. */
  ghost predicate OldestFirst(id: nat, c: CacheState, tracks: seq<Track>, victims: seq<nat>) {
    && (forall v :: v in victims ==> v in c.entries)
    && (forall i, j {:trigger LongerAgo(id, victims[i], victims[j], c.records, tracks)} ::
          0 <= i < j < |victims| ==> LongerAgo(id, victims[i], victims[j], c.records, tracks))
    && (forall i, o {:trigger LongerAgo(id, victims[i], o, c.records, tracks)} ::
          0 <= i < |victims| && o in c.entries && o !in victims ==> LongerAgo(id, victims[i], o, c.records, tracks))
  }

  lemma ColdestIsOldest(id: nat, c: CacheState, tracks: seq<Track>, victims: seq<nat>)
    requires c.policy == Lru && Recent(id, c, tracks) && ColdestFirst(Lru, c.entries, victims)
    ensures OldestFirst(id, c, tracks, victims)
  {
    hide LongerAgo, Colder, Recent;
    forall i, j | 0 <= i < j < |victims| ensures LongerAgo(id, victims[i], victims[j], c.records, tracks) {
      assert victims[i] in victims && victims[j] in victims;
      ColderIsLongerAgo(id, c, tracks, victims[i], victims[j]);
    }
    forall i, o | 0 <= i < |victims| && o in c.entries && o !in victims
      ensures LongerAgo(id, victims[i], o, c.records, tracks)
    {
      assert victims[i] in victims;
      ColderIsLongerAgo(id, c, tracks, victims[i], o);
    }
  }

  /**
   * Under LRU, when the response of a miss is admitted, the residents evicted for it are those that their node had not
   * hit or brought in for the longest time.
   */
  lemma LruEvictsTheOldest(cfg: Config, k: nat, id: nat, r: Request)
    requires ValidConfig(cfg) && cfg.policy == Lru && Returns(cfg, Run(cfg, k), id, r)
    ensures id in Run(cfg, k + 1).nodes
    ensures var s := Run(cfg, k);
            var c, d := s.nodes[id].cache, Run(cfg, k + 1).nodes[id].cache;
            && |d.records| == |c.records| + 1
            && OldestFirst(id, c, s.shared.ledger.tracks, d.records[|c.records|].victims)
            && (d.records[|c.records|].admitted ==>
                  d.entries.Keys == c.entries.Keys - (set v | v in d.records[|c.records|].victims) + {r.obj})
            && (!d.records[|c.records|].admitted ==> d.entries == c.entries)
  {
    hide Turn, Admit, Core, Sound, OldestFirst, ColdestFirst, Recent;
    var s := Run(cfg, k);
    var c := s.nodes[id].cache;
    RunKeeps(cfg, k);
    PoliciesStand(cfg, k);
    assert Keeping(cfg, c);
    CachesAt(cfg, s, id);
    TurnAdmits(cfg, s, id, r);
    var time := Least(s.shared.queue).time;
    RecordedVictims(c, r, time);
    RunRemembers(cfg, k);
    assert History(id, c, s.shared.ledger.tracks, s.shared.queue.now);
    ColdestIsOldest(id, c, s.shared.ledger.tracks, Admit(c, r, time).records[|c.records|].victims);
    AdmittedOrNot(c, r, time);
  }

  lemma AdmittedOrNot(c: CacheState, r: Request, time: nat)
    requires Sound(c)
    ensures var d := Admit(c, r, time);
            && |d.records| == |c.records| + 1
            && (d.records[|c.records|].admitted ==>
                  d.entries.Keys == c.entries.Keys - (set v | v in d.records[|c.records|].victims) + {r.obj})
            && (!d.records[|c.records|].admitted ==> d.entries == c.entries)
  {
    AdmitContinues(c, r, time);
    hide Admits, PlanVictims, EvictAll, Sound;
    if Succeeds(c, r) {
      AdmitEvictsShortestPrefix(c, r, time);
    }
  }

  /* ---- Records stand ---- */

  lemma EpochContinues(cfg: Config, id: nat, n: NodeState, epoch: nat, time: nat, seen: Telemetry)
    requires Sound(n.cache)
    ensures AllContinue(n.cache.records, StartEpoch(cfg, id, n, epoch, time, seen).cache.records, time)
  {
    hide Install, OnEpochStart, AllContinue, Sound;
    NoneContinues(n.cache.records, time);
    if n.epoch != Some(epoch) && cfg.plan.Some? {
      var c := EpochStart(n.cache, epoch, seen);
      StartSound(n.cache, epoch, seen);
      InstallContinues(c, if epoch in cfg.plan.value then cfg.plan.value[epoch] else [], time, id, epoch);
    }
  }

  lemma NodeContinues(cfg: Config, id: nat, n: NodeState, sh: Shared, e: Event)
    requires NodeHandle(cfg, id, n, sh, e).Ok? && Sound(n.cache)
    ensures AllContinue(n.cache.records, NodeHandle(cfg, id, n, sh, e).value.0.cache.records, e.time)
  {
    hide StartEpoch, Lookup, Admit, AllContinue, Sound, Schedule, Stamp;
    NoneContinues(n.cache.records, e.time);
    match e.kind
    case GenerateRequest =>
      if NextSpec(n).Some? {
        var base := if cfg.mode == ScheduledBursty then Since(NextSpec(n).value.offset, e.time) else n.epochStart;
        EpochContinues(cfg, id, n.(epochStart := base), NextSpec(n).value.epoch, e.time, sh.stats.objects);
      }
    case LocalCacheLookup =>
      LookupContinues(n.cache, TrackOf(sh, e.request).request.(stage := LocalLookup), e.time, sh.stats.objects);
    case ReturnResponse => AdmitContinues(n.cache, TrackOf(sh, e.request).request, e.time);
    case _ =>
  }

  lemma DispatchContinues(cfg: Config, s: State, e: Event, id: nat)
    requires MemoryShape(cfg, s.memory) && Dispatch(cfg, s, e).Ok? && id in s.nodes && Sound(s.nodes[id].cache)
    ensures id in Dispatch(cfg, s, e).value.nodes
    ensures AllContinue(s.nodes[id].cache.records, Dispatch(cfg, s, e).value.nodes[id].cache.records, e.time)
  {
    hide NodeHandle, MemoryHandle, AllContinue, Sound;
    NoneContinues(s.nodes[id].cache.records, e.time);
    if e.target == id {
      NodeContinues(cfg, id, s.nodes[id], s.shared, e);
    }
  }

  lemma TurnContinues(cfg: Config, s: State, id: nat)
    requires Inv(cfg, s) && id in s.nodes
    ensures id in Turn(cfg, s).nodes
    ensures AllContinue(s.nodes[id].cache.records, Turn(cfg, s).nodes[id].cache.records, Turn(cfg, s).shared.queue.now)
  {
    hide Dispatch, AllContinue, Release, Sound;
    CachesAt(cfg, s, id);
    NoneContinues(s.nodes[id].cache.records, s.shared.queue.now);
    if s.shared.queue.pending != {} {
      var e := Least(s.shared.queue);
      DispatchKeeps(cfg, s, e);
      DispatchContinues(cfg, Pick(s, e), e, id);
      DispatchKeepsTime(cfg, Pick(s, e), e);
      TurnIsRelease(cfg, s);
      ReleaseSame(cfg, Handled(cfg, s));
      ReleaseFrame(cfg, Handled(cfg, s));
      assert SameButGenerating(Release(cfg, Handled(cfg, s)).nodes[id], Handled(cfg, s).nodes[id]);
    }
  }

  /** Later records are the earlier ones, with more hits or closed since, and new ones behind them. */
  predicate Stand(before: seq<Record>, after: seq<Record>) {
    |before| <= |after| &&
    forall j {:trigger Continues(before[j], after[j], after[j].evictionTime)} :: 0 <= j < |before| ==>
      Continues(before[j], after[j], after[j].evictionTime)
  }

  lemma ContinueStands(a: seq<Record>, b: seq<Record>, c: seq<Record>, time: nat)
    requires Stand(a, b) && AllContinue(b, c, time)
    ensures Stand(a, c)
  {
    forall j | 0 <= j < |a| ensures Continues(a[j], c[j], c[j].evictionTime) {
      assert Continues(a[j], b[j], b[j].evictionTime) && Continues(b[j], c[j], time);
    }
  }

  /** Whatever a placement record says stays so: it may gain hits until it is closed, and is then final. */
  lemma {:induction false} RecordsStand(cfg: Config, k: nat, l: nat, id: nat)
    requires ValidConfig(cfg) && k <= l && id in Run(cfg, k).nodes
    ensures id in Run(cfg, l).nodes
    ensures Stand(Run(cfg, k).nodes[id].cache.records, Run(cfg, l).nodes[id].cache.records)
    decreases l
  {
    hide Turn, Inv, Release, AllContinue;
    if k < l {
      RecordsStand(cfg, k, l - 1, id);
      RunKeeps(cfg, l - 1);
      TurnContinues(cfg, Run(cfg, l - 1), id);
      ContinueStands(Run(cfg, k).nodes[id].cache.records, Run(cfg, l - 1).nodes[id].cache.records,
                     Run(cfg, l).nodes[id].cache.records, Run(cfg, l).shared.queue.now);
    }
  }

  /** A record that a turn closes is closed at the time of that turn. */
  lemma ClosedWhenEvicted(cfg: Config, k: nat, id: nat, j: nat)
    requires ValidConfig(cfg) && id in Run(cfg, k).nodes && j < |Run(cfg, k).nodes[id].cache.records|
    requires !Run(cfg, k).nodes[id].cache.records[j].evicted
    ensures id in Run(cfg, k + 1).nodes && j < |Run(cfg, k + 1).nodes[id].cache.records|
    ensures Run(cfg, k + 1).nodes[id].cache.records[j].evicted ==>
              Run(cfg, k + 1).nodes[id].cache.records[j].evictionTime == Run(cfg, k + 1).shared.queue.now
  {
    hide Turn, Inv;
    RunKeeps(cfg, k);
    TurnContinues(cfg, Run(cfg, k), id);
    assert Continues(Run(cfg, k).nodes[id].cache.records[j], Run(cfg, k + 1).nodes[id].cache.records[j],
                     Run(cfg, k + 1).shared.queue.now);
  }
}
