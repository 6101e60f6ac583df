/** The private caches in whole runs: bytes, records, the absence of missed objects, and what LRU admits. */
module CacheRuns {
  import opened Model
  import opened Policies
  import opened Cache
  import opened CacheLaws
  import opened Scheduling
  import opened Protocol
  import opened Invariants
  import opened HandlerTokens
  import opened HandlerCaches
  import opened Releases
  import opened Steps
  import opened Runs
  import opened Barriers

  /**
   * In every reachable state the resident bytes fit the counted occupancy, which fits the capacity; residents and
   * open records pair off; the counters are the sums over the records. Nodes that wait for each response count
   * their occupancy exactly.
   */
  lemma CachesHold(cfg: Config, k: nat, id: nat)
    requires ValidConfig(cfg) && id in Run(cfg, k).nodes
    ensures Sound(Run(cfg, k).nodes[id].cache)
    ensures cfg.mode == CompletionDriven ==> Exact(Run(cfg, k).nodes[id].cache)
  {
    hide Turn;
    RunKeeps(cfg, k);
    CachesAt(cfg, Run(cfg, k), id);
  }

  lemma CachesAt(cfg: Config, s: State, id: nat)
    requires Inv(cfg, s) && id in s.nodes
    ensures Sound(s.nodes[id].cache) && (cfg.mode == CompletionDriven ==> Exact(s.nodes[id].cache))
  {
    assert Sound(s.nodes[id].cache) && (cfg.mode == CompletionDriven ==> Exact(s.nodes[id].cache));
  }

  ghost predicate AbsentAt(s: State, i: nat)
    requires i < |s.shared.ledger.tracks|
  {
    var r := s.shared.ledger.tracks[i].request;
    r.source in s.nodes && r.obj !in s.nodes[r.source].cache.entries
  }

  lemma MissesAbsent(cfg: Config, s: State, i: nat)
    requires Inv(cfg, s) && cfg.mode == CompletionDriven && i < |s.shared.ledger.tracks|
    requires Missing(s.shared.ledger.tracks[i].phase)
    ensures AbsentAt(s, i)
  {
    assert Issued(cfg, s.shared.ledger.tracks[i], s.nodes, s.released, s.releases);
    assert AbsentWhileMissing(s.nodes, s.shared.ledger.tracks[i]);
  }

  /** Nodes that wait for each response do not cache a missed object before its response comes. */
  lemma MissedStaysAbsent(cfg: Config, k: nat, i: nat)
    requires ValidConfig(cfg) && cfg.mode == CompletionDriven && i < |Run(cfg, k).shared.ledger.tracks|
    requires Missing(Run(cfg, k).shared.ledger.tracks[i].phase)
    ensures AbsentAt(Run(cfg, k), i)
  {
    hide Turn;
    RunKeeps(cfg, k);
    MissesAbsent(cfg, Run(cfg, k), i);
  }

  /* ---- Policies without state ---- */

  predicate Stateless(p: Policy) { p.Lru? || p.AlwaysRemote? || p.GlobalHottest? }

  predicate Keeping(cfg: Config, c: CacheState) {
    c.capacity == cfg.capacity && (Stateless(cfg.policy) ==> c.policy == cfg.policy)
  }

  ghost predicate AllKeeping(cfg: Config, nodes: map<nat, NodeState>) {
    forall id {:trigger Keeping(cfg, nodes[id].cache)} :: id in nodes ==> Keeping(cfg, nodes[id].cache)
  }

  lemma EpochStartKeeping(cfg: Config, id: nat, n: NodeState, epoch: nat, time: nat, telemetry: Telemetry)
    requires Keeping(cfg, n.cache)
    ensures Keeping(cfg, StartEpoch(cfg, id, n, epoch, time, telemetry).cache)
  {
    hide Install, HotnessEpochStart, ContentionEpochStart;
    var replicas := if cfg.plan.Some? && epoch in cfg.plan.value then cfg.plan.value[epoch] else [];
    InstallSamePolicy(EpochStart(n.cache, epoch, telemetry), replicas, time, id, epoch);
  }

  lemma NodeKeeping(cfg: Config, id: nat, n: NodeState, sh: Shared, e: Event)
    requires NodeHandle(cfg, id, n, sh, e).Ok? && Keeping(cfg, n.cache)
    ensures Keeping(cfg, NodeHandle(cfg, id, n, sh, e).value.0.cache)
  {
    hide StartEpoch, Admit, HotnessLookup, ContentionLookup;
    match e.kind
    case GenerateRequest =>
      if NextSpec(n).Some? {
        var base := if cfg.mode == ScheduledBursty then Since(NextSpec(n).value.offset, e.time) else n.epochStart;
        EpochStartKeeping(cfg, id, n.(epochStart := base), NextSpec(n).value.epoch, e.time, sh.stats.objects);
      }
    case ReturnResponse => AdmitSamePolicy(n.cache, TrackOf(sh, e.request).request, e.time);
    case _ =>
  }

  lemma DispatchKeeping(cfg: Config, s: State, e: Event)
    requires MemoryShape(cfg, s.memory) && Dispatch(cfg, s, e).Ok? && AllKeeping(cfg, s.nodes)
    ensures AllKeeping(cfg, Dispatch(cfg, s, e).value.nodes)
  {
    hide NodeHandle, MemoryHandle, Keeping;
    if e.target in s.nodes {
      assert Keeping(cfg, s.nodes[e.target].cache);
      NodeKeeping(cfg, e.target, s.nodes[e.target], s.shared, e);
    }
    forall id | id in s.nodes ensures Keeping(cfg, Dispatch(cfg, s, e).value.nodes[id].cache) {
      assert Keeping(cfg, s.nodes[id].cache);
    }
  }

  lemma ReleaseKeeping(cfg: Config, s: State)
    requires AllKeeping(cfg, s.nodes)
    ensures AllKeeping(cfg, Release(cfg, s).nodes)
  {
    hide Release;
    ReleaseSame(cfg, s);
    forall id | id in s.nodes ensures Keeping(cfg, Release(cfg, s).nodes[id].cache) {
      assert SameButGenerating(Release(cfg, s).nodes[id], s.nodes[id]) && Keeping(cfg, s.nodes[id].cache);
    }
  }

  lemma TurnKeeping(cfg: Config, s: State)
    requires Inv(cfg, s) && AllKeeping(cfg, s.nodes)
    ensures AllKeeping(cfg, Turn(cfg, s).nodes)
  {
    if s.shared.queue.pending != {} {
      var e := Least(s.shared.queue);
      DispatchKeeps(cfg, s, e);
      DispatchKeeping(cfg, Pick(s, e), e);
      TurnIsRelease(cfg, s);
      ReleaseKeeping(cfg, Handled(cfg, s));
    }
  }

  lemma {:induction false} PoliciesStand(cfg: Config, k: nat)
    requires ValidConfig(cfg)
    ensures AllKeeping(cfg, Run(cfg, k).nodes)
  {
    hide Turn, Inv, Core, Release, AllKeeping;
    if k == 0 {
      InitialKeeping(cfg);
      ReleaseKeeping(cfg, Initial(cfg));
    } else {
      PoliciesStand(cfg, k - 1);
      RunKeeps(cfg, k - 1);
      TurnKeeping(cfg, Run(cfg, k - 1));
    }
  }

  lemma InitialKeeping(cfg: Config)
    requires ValidConfig(cfg)
    ensures AllKeeping(cfg, Initial(cfg).nodes)
  {
    InitialNodesAre(cfg, |cfg.nodes|);
    var nodes := Initial(cfg).nodes;
    forall id | id in nodes ensures Keeping(cfg, nodes[id].cache) {
      var i :| 0 <= i < |cfg.nodes| && cfg.nodes[i].id == id;
    }
  }

  /* ---- LRU ---- */

  /** The next event brings the response of a miss to a node. */
  ghost predicate Returns(cfg: Config, s: State, id: nat, r: Request) {
    Orderly(s.shared.queue) && s.shared.queue.pending != {} &&
    var e := Least(s.shared.queue);
    e.kind == ReturnResponse && e.target == id && id in s.nodes && Known(s.shared, e.request) &&
    TrackOf(s.shared, e.request).request == r
  }

  lemma ReturnAdmits(cfg: Config, s: State, e: Event)
    requires MemoryShape(cfg, s.memory) && e.kind == ReturnResponse && e.target in s.nodes
    requires Known(s.shared, e.request) && Dispatch(cfg, s, e).Ok?
    ensures Dispatch(cfg, s, e).value.nodes.Keys == s.nodes.Keys
    ensures Dispatch(cfg, s, e).value.nodes[e.target].cache ==
            Admit(s.nodes[e.target].cache, TrackOf(s.shared, e.request).request, e.time)
  {
    hide Admit;
  }

  lemma TurnAdmits(cfg: Config, s: State, id: nat, r: Request)
    requires Inv(cfg, s) && Returns(cfg, s, id, r)
    ensures var t := Turn(cfg, s);
            id in t.nodes && t.nodes[id].cache == Admit(s.nodes[id].cache, r, Least(s.shared.queue).time)
  {
    var e := Least(s.shared.queue);
    DispatchKeeps(cfg, s, e);
    ReturnAdmits(cfg, Pick(s, e), e);
    TurnIsRelease(cfg, s);
    ReleaseSame(cfg, Handled(cfg, s));
    assert SameButGenerating(Turn(cfg, s).nodes[id], Handled(cfg, s).nodes[id]);
  }

  lemma LruAdmitsFitting(c: CacheState, r: Request, time: nat)
    requires Sound(c) && Exact(c) && c.policy == Lru && r.obj !in c.entries
    ensures r.obj in Admit(c, r, time).entries <==> r.size <= c.capacity
    ensures Exact(Admit(c, r, time))
  {
    AdmitKeeps(c, r, time);
    LruAdmitsExactly(c, r);
  }

  lemma MissReturns(cfg: Config, s: State, id: nat, r: Request)
    requires Inv(cfg, s) && cfg.mode == CompletionDriven && Returns(cfg, s, id, r)
    ensures r.obj !in s.nodes[id].cache.entries
  {
    var e := Least(s.shared.queue);
    RequestAtNode(cfg, s.memory, s.shared, s.nodes, e);
    MissesAbsent(cfg, s, e.request - 1);
  }

  /** Nodes that wait for each response and evict by recency cache exactly the missed objects that fit at all. */
  lemma LruCachesEveryFittingMiss(cfg: Config, k: nat, id: nat, r: Request)
    requires ValidConfig(cfg) && cfg.mode == CompletionDriven && cfg.policy == Lru
    requires Returns(cfg, Run(cfg, k), id, r)
    ensures id in Run(cfg, k + 1).nodes
    ensures r.obj in Run(cfg, k + 1).nodes[id].cache.entries <==> r.size <= cfg.capacity
  {
    hide Turn, Admit, Core, Sound;
    var s := Run(cfg, k);
    RunKeeps(cfg, k);
    PoliciesStand(cfg, k);
    assert Keeping(cfg, s.nodes[id].cache);
    CachesAt(cfg, s, id);
    MissReturns(cfg, s, id, r);
    TurnAdmits(cfg, s, id, r);
    LruAdmitsFitting(s.nodes[id].cache, r, Least(s.shared.queue).time);
  }

  /* ---- Time ---- */

  lemma DispatchKeepsTime(cfg: Config, s: State, e: Event)
    requires MemoryShape(cfg, s.memory) && Dispatch(cfg, s, e).Ok?
    ensures Dispatch(cfg, s, e).value.shared.queue.now == s.shared.queue.now
  {
    hide StartEpoch, Lookup, Admit;
  }

  lemma TurnGoesForward(cfg: Config, s: State)
    requires Inv(cfg, s)
    ensures s.shared.queue.now <= Turn(cfg, s).shared.queue.now
    ensures s.shared.queue.pending != {} ==> Turn(cfg, s).shared.queue.now == Least(s.shared.queue).time
  {
    if s.shared.queue.pending != {} {
      var e := Least(s.shared.queue);
      DispatchKeeps(cfg, s, e);
      DispatchKeepsTime(cfg, Pick(s, e), e);
      TurnIsRelease(cfg, s);
      ReleaseFrame(cfg, Handled(cfg, s));
    }
  }

  /** Simulated time never goes back. */
  lemma {:induction false} TimeGoesForward(cfg: Config, k: nat, l: nat)
    requires ValidConfig(cfg) && k <= l
    ensures Run(cfg, k).shared.queue.now <= Run(cfg, l).shared.queue.now
    decreases l - k
  {
    hide Turn, Inv, Core;
    if k < l {
      RunKeeps(cfg, k);
      TurnGoesForward(cfg, Run(cfg, k));
      TimeGoesForward(cfg, k + 1, l);
    }
  }
}
