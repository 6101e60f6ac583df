/** Caches stay sound; one request at a time keeps them exact, with the object of every miss absent. */
module HandlerCaches {
  import opened Model
  import opened Cache
  import opened CacheLaws
  import opened Scheduling
  import opened Protocol
  import opened Invariants
  import opened HandlerTokens

  ghost predicate Alone(cfg: Config, tracks: seq<Track>, nodes: map<nat, NodeState>) {
    OneAtATime(cfg, tracks, nodes) && CachesSound(nodes) && CachesExact(cfg, tracks, nodes)
  }

  /** Whether a request in this phase has missed and waits for memory. */
  predicate Missing(p: Phase) { p in {Forwarding, Queued, Serving, Returning} }

  /** Memory moves a request; no cache changes. */
  lemma MemoryAlone(cfg: Config, tracks: seq<Track>, nodes: map<nat, NodeState>, i: nat, t: Track)
    requires Alone(cfg, tracks, nodes) && i < |tracks| && Missing(tracks[i].phase) && Missing(t.phase)
    requires t.request.source == tracks[i].request.source && t.request.obj == tracks[i].request.obj
    ensures Alone(cfg, tracks[i := t], nodes)
  {
    var tracks' := tracks[i := t];
    if cfg.mode == CompletionDriven {
      forall j, k | 0 <= j < |tracks'| && 0 <= k < |tracks'| ensures NotBoth(tracks', j, k) {
        assert NotBoth(tracks, j, k);
      }
      forall j | 0 <= j < |tracks'|
        ensures IdleToGenerate(nodes, tracks'[j]) && AbsentWhileMissing(nodes, tracks'[j])
      {
        assert IdleToGenerate(nodes, tracks[j]) && AbsentWhileMissing(nodes, tracks[j]);
      }
    }
  }

  /** A request moves on at its node, whose cache changes; no other request of the node is on its way. */
  lemma NodeAlone(cfg: Config, tracks: seq<Track>, nodes: map<nat, NodeState>, i: nat, t: Track, n: NodeState)
    requires Alone(cfg, tracks, nodes) && i < |tracks| && tracks[i].phase != Finished
    requires var id := t.request.source;
             && id == tracks[i].request.source && id in nodes
             && (n.generating == nodes[id].generating || t.phase == Finished)
             && Sound(n.cache) && (cfg.mode == CompletionDriven ==> Exact(n.cache))
             && (Missing(t.phase) ==> t.request.obj !in n.cache.entries)
    ensures Alone(cfg, tracks[i := t], nodes[t.request.source := n])
  {
    var id := t.request.source;
    var tracks', nodes' := tracks[i := t], nodes[id := n];
    forall k | k in nodes' ensures Sound(nodes'[k].cache) {
      assert k != id ==> Sound(nodes[k].cache);
    }
    if cfg.mode == CompletionDriven {
      forall k | k in nodes' ensures Exact(nodes'[k].cache) {
        assert k != id ==> Exact(nodes[k].cache);
      }
      forall j, k | 0 <= j < |tracks'| && 0 <= k < |tracks'| ensures NotBoth(tracks', j, k) {
        assert NotBoth(tracks, j, k);
      }
      forall j | 0 <= j < |tracks'|
        ensures IdleToGenerate(nodes', tracks'[j]) && AbsentWhileMissing(nodes', tracks'[j])
      {
        assert IdleToGenerate(nodes, tracks[j]) && AbsentWhileMissing(nodes, tracks[j]);
        assert IdleToGenerate(nodes, tracks[i]);
        assert NotBoth(tracks, i, j);
      }
    }
  }

  /** A node issues a request; it had none on its way. */
  lemma EnterAlone(cfg: Config, tracks: seq<Track>, nodes: map<nat, NodeState>, t: Track, n: NodeState)
    requires Alone(cfg, tracks, nodes)
    requires var id := t.request.source;
             && id in nodes && nodes[id].generating.Some? && (cfg.mode == CompletionDriven ==> n.generating.None?)
             && Sound(n.cache) && (cfg.mode == CompletionDriven ==> Exact(n.cache)) && !Missing(t.phase)
    ensures Alone(cfg, tracks + [t], nodes[t.request.source := n])
  {
    var id := t.request.source;
    var tracks', nodes' := tracks + [t], nodes[id := n];
    forall k | k in nodes' ensures Sound(nodes'[k].cache) {
      assert k != id ==> Sound(nodes[k].cache);
    }
    if cfg.mode == CompletionDriven {
      forall k | k in nodes' ensures Exact(nodes'[k].cache) {
        assert k != id ==> Exact(nodes[k].cache);
      }
      forall j | 0 <= j < |tracks| ensures tracks[j].request.source == id ==> tracks[j].phase == Finished {
        assert IdleToGenerate(nodes, tracks[j]);
      }
      forall j, k | 0 <= j < |tracks'| && 0 <= k < |tracks'| ensures NotBoth(tracks', j, k) {
        assert j < |tracks| && k < |tracks| ==> NotBoth(tracks, j, k);
      }
      forall j | 0 <= j < |tracks'|
        ensures IdleToGenerate(nodes', tracks'[j]) && AbsentWhileMissing(nodes', tracks'[j])
      {
        assert j < |tracks| ==> IdleToGenerate(nodes, tracks[j]) && AbsentWhileMissing(nodes, tracks[j]);
      }
    }
  }

  lemma LookupAlone(cfg: Config, m: MemoryState, sh: Shared, nodes: map<nat, NodeState>, e: Event)
    requires MemoryShape(cfg, m) && AtNode(cfg, m, sh, nodes, e) && e.kind == LocalCacheLookup
    requires Alone(cfg, sh.ledger.tracks, nodes)
    ensures NodeLookup(cfg, e.target, nodes[e.target], Taken(sh, e), e).Ok?
    ensures var (n', sh') := NodeLookup(cfg, e.target, nodes[e.target], Taken(sh, e), e).value;
            Alone(cfg, sh'.ledger.tracks, nodes[e.target := n'])
  {
    RequestAtNode(cfg, m, sh, nodes, e);
    var tracks, i, n := sh.ledger.tracks, e.request - 1, nodes[e.target];
    assert Sound(n.cache) && (cfg.mode == CompletionDriven ==> Exact(n.cache));
    LookupKeeps(n.cache, tracks[i].request.(stage := LocalLookup), e.time, sh.stats.objects);
    var (n', sh') := NodeLookup(cfg, e.target, n, Taken(sh, e), e).value;
    assert sh'.ledger.tracks == tracks[i := sh'.ledger.tracks[i]];
    NodeAlone(cfg, tracks, nodes, i, sh'.ledger.tracks[i], n');
  }

  /** The cache of a node after the response of a miss. */
  lemma AdmitAlone(cfg: Config, m: MemoryState, sh: Shared, nodes: map<nat, NodeState>, e: Event)
    requires MemoryShape(cfg, m) && AtNode(cfg, m, sh, nodes, e) && e.kind == ReturnResponse
    requires Alone(cfg, sh.ledger.tracks, nodes)
    ensures Numbered(sh.ledger.tracks, e.request)
    ensures var n, r := nodes[e.target], sh.ledger.tracks[e.request - 1].request;
            && Sound(Admit(n.cache, r, e.time))
            && (cfg.mode == CompletionDriven ==> r.obj !in n.cache.entries && Exact(Admit(n.cache, r, e.time)))
  {
    RequestAtNode(cfg, m, sh, nodes, e);
    var n, t := nodes[e.target], sh.ledger.tracks[e.request - 1];
    assert Sound(n.cache) && (cfg.mode == CompletionDriven ==> Exact(n.cache));
    assert cfg.mode == CompletionDriven ==> AbsentWhileMissing(nodes, t);
    AdmitKeeps(n.cache, t.request, e.time);
  }

  lemma RespondAlone(cfg: Config, m: MemoryState, sh: Shared, nodes: map<nat, NodeState>, e: Event,
                     n: NodeState, tier: Tier, bytes: nat)
    requires MemoryShape(cfg, m) && AtNode(cfg, m, sh, nodes, e)
    requires e.kind == LocalCacheHitComplete || e.kind == ReturnResponse
    requires Alone(cfg, sh.ledger.tracks, nodes)
    requires Known(Taken(sh, e), e.request) && n == nodes[e.target].(cache := n.cache) && n.outstanding > 0
    requires Sound(n.cache) && (cfg.mode == CompletionDriven ==> Exact(n.cache))
    ensures var (n', sh') := Respond(e.target, n, Taken(sh, e), e, tier, bytes).value;
            Alone(cfg, sh'.ledger.tracks, nodes[e.target := n'])
  {
    RequestAtNode(cfg, m, sh, nodes, e);
    var tracks, i := sh.ledger.tracks, e.request - 1;
    var (n', sh') := Respond(e.target, n, Taken(sh, e), e, tier, bytes).value;
    assert sh'.ledger.tracks == tracks[i := sh'.ledger.tracks[i]];
    NodeAlone(cfg, tracks, nodes, i, sh'.ledger.tracks[i], n');
  }

  lemma FinishAlone(cfg: Config, m: MemoryState, sh: Shared, nodes: map<nat, NodeState>, e: Event)
    requires MemoryShape(cfg, m) && AtNode(cfg, m, sh, nodes, e) && e.kind == RequestComplete
    requires Alone(cfg, sh.ledger.tracks, nodes)
    ensures cfg.mode == CompletionDriven ==> nodes[e.target].generating.None?
    ensures var (n', sh') := NodeComplete(cfg, e.target, nodes[e.target], Taken(sh, e), e).value;
            Alone(cfg, sh'.ledger.tracks, nodes[e.target := n'])
  {
    RequestAtNode(cfg, m, sh, nodes, e);
    var tracks, i, n := sh.ledger.tracks, e.request - 1, nodes[e.target];
    var (n', sh') := NodeComplete(cfg, e.target, n, Taken(sh, e), e).value;
    assert sh'.ledger.tracks == tracks[i := sh'.ledger.tracks[i]];
    assert Sound(n.cache) && (cfg.mode == CompletionDriven ==> Exact(n.cache));
    assert cfg.mode == CompletionDriven ==> IdleToGenerate(nodes, tracks[i]);
    NodeAlone(cfg, tracks, nodes, i, sh'.ledger.tracks[i], n');
  }

  lemma StartEpochKeeps(cfg: Config, id: nat, n: NodeState, epoch: nat, time: nat, telemetry: Telemetry)
    requires Sound(n.cache)
    ensures var n' := StartEpoch(cfg, id, n, epoch, time, telemetry);
            Sound(n'.cache) && (Exact(n.cache) ==> Exact(n'.cache))
  {
    var cache := EpochStart(n.cache, epoch, telemetry);
    if cfg.plan.Some? {
      InstallKeeps(cache, if epoch in cfg.plan.value then cfg.plan.value[epoch] else [], time, id, epoch);
    }
  }

  lemma GenerateAlone(cfg: Config, m: MemoryState, sh: Shared, nodes: map<nat, NodeState>, e: Event)
    requires MemoryShape(cfg, m) && AtNode(cfg, m, sh, nodes, e) && e.kind == GenerateRequest
    requires Alone(cfg, sh.ledger.tracks, nodes) && NextSpec(nodes[e.target]).Some?
    ensures var (n', sh') := NodeGenerate(cfg, e.target, nodes[e.target], Taken(sh, e), e).value;
            Alone(cfg, sh'.ledger.tracks, nodes[e.target := n'])
  {
    var tracks, id, n := sh.ledger.tracks, e.target, nodes[e.target];
    assert Owned(cfg, tracks, m, nodes, e);
    assert Sound(n.cache) && (cfg.mode == CompletionDriven ==> Exact(n.cache));
    var spec := NextSpec(n).value;
    var base := if cfg.mode == ScheduledBursty then Since(spec.offset, e.time) else n.epochStart;
    StartEpochKeeps(cfg, id, n.(epochStart := base), spec.epoch, e.time, sh.stats.objects);
    var (n', sh') := NodeGenerate(cfg, id, n, Taken(sh, e), e).value;
    var t := sh'.ledger.tracks[|tracks|];
    assert sh'.ledger.tracks == tracks + [t];
    EnterAlone(cfg, tracks, nodes, t, n');
  }
}
