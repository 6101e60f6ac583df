/** One turn of the event loop keeps the invariant and throws nothing. */
module Steps {
  import opened Model
  import opened Cache
  import opened Scheduling
  import opened Protocol
  import opened Invariants
  import opened HandlerTokens
  import opened HandlerTimes
  import opened HandlerChannels
  import opened HandlerStreams
  import opened HandlerCaches
  import opened HandlerCounts
  import opened Releases

  function Pick(s: State, e: Event): State {
    s.(shared := Taken(s.shared, e))
  }

  /** `e` is the next event of a state that is in order. */
  ghost predicate Due(cfg: Config, s: State, e: Event) {
    Core(cfg, s) && IsLeast(s.shared.queue.pending, e)
  }

  lemma ShapeOf(cfg: Config, s: State)
    requires Core(cfg, s)
    ensures ValidConfig(cfg) && MemoryShape(cfg, s.memory) && Orderly(s.shared.queue)
  {
  }

  lemma MemoryIsNoNode(cfg: Config, nodes: map<nat, NodeState>)
    requires ValidConfig(cfg) && Configured(cfg, nodes)
    ensures cfg.memoryNode !in nodes
  {
  }

  /** Every event goes to the node it was meant for, and is of a kind that node handles. */
  lemma Addressed(cfg: Config, s: State, e: Event)
    requires Due(cfg, s, e)
    ensures if e.kind in {ForwardToMemory, MemoryServiceStart, MemoryServiceComplete}
            then e.target == cfg.memoryNode && e.target !in s.nodes
            else e.target in s.nodes &&
                 e.kind in {GenerateRequest, LocalCacheLookup, LocalCacheHitComplete, ReturnResponse, RequestComplete}
  {
    hide Times, Responses, Channels, OneAtATime, EventsCounted, StatsCounted, CachesSound, CachesExact;
    var tracks := s.shared.ledger.tracks;
    MemoryIsNoNode(cfg, s.nodes);
    assert Owned(cfg, tracks, s.memory, s.nodes, e);
    if e.kind == MemoryServiceStart {
      var c := ChannelOf(tracks[e.request - 1].request.obj, cfg.channels);
      assert ChannelToken(cfg, s.shared.queue, tracks, c, s.memory.channels[c], s.memory.logs[c]);
    } else if e.kind != GenerateRequest {
      assert TrackToken(cfg, s.shared.queue, e.request - 1, tracks[e.request - 1]);
      assert Issued(cfg, tracks[e.request - 1], s.nodes, s.released, s.releases);
    }
  }

  lemma MemoryRequestIsMissing(cfg: Config, s: State, e: Event)
    requires Due(cfg, s, e) && e.kind in {ForwardToMemory, MemoryServiceStart, MemoryServiceComplete}
    ensures Numbered(s.shared.ledger.tracks, e.request)
    ensures s.shared.ledger.tracks[e.request - 1].phase in {Forwarding, Queued, Serving}
  {
    var tracks := s.shared.ledger.tracks;
    assert Owned(cfg, tracks, s.memory, s.nodes, e);
    if e.kind == MemoryServiceStart {
      StartOnTime(cfg, s.memory, s.shared, s.nodes, e);
    } else {
      assert TrackToken(cfg, s.shared.queue, e.request - 1, tracks[e.request - 1]);
    }
  }

  function Logged(s: State, e: Event): State {
    s.(log := s.log + [EventRecord(e.time, e.kind, e.target, e.request)])
  }

  lemma MemoryMovesOne(cfg: Config, m: MemoryState, sh: Shared, e: Event)
    requires MemoryShape(cfg, m) && MemoryHandle(cfg, m, sh, e).Ok?
    ensures Numbered(sh.ledger.tracks, e.request)
    ensures var tracks, tracks' := sh.ledger.tracks, MemoryHandle(cfg, m, sh, e).value.1.ledger.tracks;
            var i := e.request - 1;
            && |tracks'| == |tracks| && tracks' == tracks[i := tracks'[i]]
            && SameRequest(tracks[i], tracks'[i]) && Missing(tracks'[i].phase)
  {
  }

  /** Memory has moved one request; nodes and caches are as they were. */
  lemma MemoryCore(cfg: Config, s: State, e: Event, m: MemoryState, sh: Shared, i: nat)
    requires Due(cfg, s, e) && i < |s.shared.ledger.tracks| == |sh.ledger.tracks|
    requires sh.ledger.tracks == s.shared.ledger.tracks[i := sh.ledger.tracks[i]]
    requires SameRequest(s.shared.ledger.tracks[i], sh.ledger.tracks[i])
    requires Missing(s.shared.ledger.tracks[i].phase) && Missing(sh.ledger.tracks[i].phase)
    requires Afterwards(cfg, m, sh, s.nodes) && Recorded(cfg, sh.ledger) && Channels(cfg, sh, m)
    requires Counted(cfg, |s.log| + 1, sh.ledger, s.nodes, sh.stats)
    ensures Core(cfg, Logged(s, e).(shared := sh, memory := m))
  {
    var tracks, t := s.shared.ledger.tracks, sh.ledger.tracks[i];
    MemoryMoves(cfg, tracks, s.nodes, s.released, s.releases, i, t);
    MemoryAlone(cfg, tracks, s.nodes, i, t);
  }

  /** A node has handled an event; memory is as it was. */
  lemma NodeCore(cfg: Config, s: State, e: Event, n: NodeState, sh: Shared)
    requires ValidConfig(cfg) && MemoryShape(cfg, s.memory)
    requires var nodes := s.nodes[e.target := n];
             && Afterwards(cfg, s.memory, sh, nodes) && Recorded(cfg, sh.ledger) && Channels(cfg, sh, s.memory)
             && Streams(cfg, sh.ledger.tracks, nodes, s.released, s.releases) && Alone(cfg, sh.ledger.tracks, nodes)
             && Counted(cfg, |s.log| + 1, sh.ledger, nodes, sh.stats)
    ensures Core(cfg, Logged(s, e).(shared := sh, nodes := s.nodes[e.target := n]))
  {
    hide Tokens, Times, Responses, Channels, OneAtATime, EventsCounted, StatsCounted, CachesSound, CachesExact, Streams;
  }

  lemma ForwardKeeps(cfg: Config, s: State, e: Event)
    requires Due(cfg, s, e) && e.kind == ForwardToMemory
    ensures Dispatch(cfg, Pick(s, e), e).Ok? && Core(cfg, Dispatch(cfg, Pick(s, e), e).value)
  {
    hide Tokens, Times, Responses, Channels, OneAtATime, EventsCounted, StatsCounted, CachesSound, CachesExact, Streams;
    var tracks, i := s.shared.ledger.tracks, e.request - 1;
    Addressed(cfg, s, e);
    MemoryRequestIsMissing(cfg, s, e);
    ForwardTokens(cfg, s.memory, s.shared, s.nodes, e);
    ForwardTimes(cfg, s.memory, s.shared, s.nodes, e);
    ForwardChannels(cfg, s.memory, s.shared, s.nodes, e);
    ForwardCounts(cfg, s.memory, s.shared, s.nodes, e, |s.log|);
    var (m', sh') := MemoryForward(cfg, s.memory, Taken(s.shared, e), e).value;
    MemoryMovesOne(cfg, s.memory, Taken(s.shared, e), e);
    MemoryCore(cfg, s, e, m', sh', i);
  }

  lemma StartKeeps(cfg: Config, s: State, e: Event)
    requires Due(cfg, s, e) && e.kind == MemoryServiceStart
    ensures Dispatch(cfg, Pick(s, e), e).Ok? && Core(cfg, Dispatch(cfg, Pick(s, e), e).value)
  {
    hide Tokens, Times, Responses, Channels, OneAtATime, EventsCounted, StatsCounted, CachesSound, CachesExact, Streams;
    var tracks, i := s.shared.ledger.tracks, e.request - 1;
    Addressed(cfg, s, e);
    MemoryRequestIsMissing(cfg, s, e);
    StartTokens(cfg, s.memory, s.shared, s.nodes, e);
    StartTimes(cfg, s.memory, s.shared, s.nodes, e);
    StartChannels(cfg, s.memory, s.shared, s.nodes, e);
    StartCounts(cfg, s.memory, s.shared, s.nodes, e, |s.log|);
    var (m', sh') := MemoryStart(cfg, s.memory, Taken(s.shared, e), e).value;
    MemoryMovesOne(cfg, s.memory, Taken(s.shared, e), e);
    MemoryCore(cfg, s, e, m', sh', i);
  }

  lemma CompleteKeeps(cfg: Config, s: State, e: Event)
    requires Due(cfg, s, e) && e.kind == MemoryServiceComplete
    ensures Dispatch(cfg, Pick(s, e), e).Ok? && Core(cfg, Dispatch(cfg, Pick(s, e), e).value)
  {
    hide Tokens, Times, Responses, Channels, OneAtATime, EventsCounted, StatsCounted, CachesSound, CachesExact, Streams;
    var tracks, i := s.shared.ledger.tracks, e.request - 1;
    Addressed(cfg, s, e);
    MemoryRequestIsMissing(cfg, s, e);
    CompleteTokens(cfg, s.memory, s.shared, s.nodes, e);
    CompleteTimes(cfg, s.memory, s.shared, s.nodes, e);
    CompleteChannels(cfg, s.memory, s.shared, s.nodes, e);
    CompleteCounts(cfg, s.memory, s.shared, s.nodes, e, |s.log|);
    var (m', sh') := MemoryComplete(cfg, s.memory, Taken(s.shared, e), e).value;
    MemoryMovesOne(cfg, s.memory, Taken(s.shared, e), e);
    MemoryCore(cfg, s, e, m', sh', i);
  }

  lemma LookupKeeps(cfg: Config, s: State, e: Event)
    requires Due(cfg, s, e) && e.kind == LocalCacheLookup
    ensures Dispatch(cfg, Pick(s, e), e).Ok? && Core(cfg, Dispatch(cfg, Pick(s, e), e).value)
  {
    Addressed(cfg, s, e);
    LookupTokens(cfg, s.memory, s.shared, s.nodes, e);
    LookupTimes(cfg, s.memory, s.shared, s.nodes, e);
    LookupChannels(cfg, s.memory, s.shared, s.nodes, e);
    LookupStreams(cfg, s.memory, s.shared, s.nodes, e, s.released, s.releases);
    LookupAlone(cfg, s.memory, s.shared, s.nodes, e);
    LookupCounts(cfg, s.memory, s.shared, s.nodes, e, |s.log|);
    var (n', sh') := NodeLookup(cfg, e.target, s.nodes[e.target], Taken(s.shared, e), e).value;
    hide Core, Recorded, Alone, Counted, Afterwards;
    NodeCore(cfg, s, e, n', sh');
  }

  /** A node whose request is answered still counts it, so the count cannot underflow. */
  lemma StillCounted(cfg: Config, s: State, e: Event)
    requires Due(cfg, s, e) && e.kind in {LocalCacheHitComplete, ReturnResponse} && e.target in s.nodes
    ensures Known(s.shared, e.request)
    ensures s.nodes[e.target].outstanding == CountInFlight(s.shared.ledger.tracks, e.target) > 0
  {
    RequestAtNode(cfg, s.memory, s.shared, s.nodes, e);
    InFlightCounted(s.shared.ledger.tracks, e.request - 1);
  }

  lemma RespondAtMemory(cfg: Config, s: State, e: Event, n: NodeState, tier: Tier, bytes: nat)
    requires Due(cfg, s, e) && e.kind in {LocalCacheHitComplete, ReturnResponse} && e.target in s.nodes
    requires Known(s.shared, e.request)
    requires tier == (if e.kind == LocalCacheHitComplete then LocalTier else MemoryTier)
    requires bytes == (if e.kind == LocalCacheHitComplete then 0 else TrackOf(s.shared, e.request).request.size)
    requires n == s.nodes[e.target].(cache := n.cache)
    requires Sound(n.cache) && (cfg.mode == CompletionDriven ==> Exact(n.cache))
    ensures Respond(e.target, n, Taken(s.shared, e), e, tier, bytes).Ok?
    ensures var (n', sh') := Respond(e.target, n, Taken(s.shared, e), e, tier, bytes).value;
            Afterwards(cfg, s.memory, sh', s.nodes[e.target := n']) && Recorded(cfg, sh'.ledger) &&
            Channels(cfg, sh', s.memory)
  {
    hide Respond, Sound, Exact, Tokens, Times, Responses, Channels, OneAtATime, EventsCounted, StatsCounted,
         CachesSound, CachesExact, Streams;
    StillCounted(cfg, s, e);
    RespondTokens(cfg, s.memory, s.shared, s.nodes, e, n, tier, bytes);
    RespondTimes(cfg, s.memory, s.shared, s.nodes, e, n);
    RespondChannels(cfg, s.memory, s.shared, s.nodes, e, n, tier, bytes);
  }

  lemma RespondAtNodes(cfg: Config, s: State, e: Event, n: NodeState, tier: Tier, bytes: nat)
    requires Due(cfg, s, e) && e.kind in {LocalCacheHitComplete, ReturnResponse} && e.target in s.nodes
    requires Known(s.shared, e.request)
    requires tier == (if e.kind == LocalCacheHitComplete then LocalTier else MemoryTier)
    requires bytes == (if e.kind == LocalCacheHitComplete then 0 else TrackOf(s.shared, e.request).request.size)
    requires n == s.nodes[e.target].(cache := n.cache)
    requires Sound(n.cache) && (cfg.mode == CompletionDriven ==> Exact(n.cache))
    ensures Respond(e.target, n, Taken(s.shared, e), e, tier, bytes).Ok?
    ensures var (n', sh') := Respond(e.target, n, Taken(s.shared, e), e, tier, bytes).value;
            var nodes := s.nodes[e.target := n'];
            Streams(cfg, sh'.ledger.tracks, nodes, s.released, s.releases) && Alone(cfg, sh'.ledger.tracks, nodes) &&
            Counted(cfg, |s.log| + 1, sh'.ledger, nodes, sh'.stats)
  {
    StillCounted(cfg, s, e);
    hide Sound, Exact, Tokens, Times, Responses, Channels, OneAtATime, EventsCounted, StatsCounted, CachesSound,
         CachesExact, Streams;
    assert Respond(e.target, n, Taken(s.shared, e), e, tier, bytes).Ok?;
    hide Respond;
    RespondStreams(cfg, s.memory, s.shared, s.nodes, e, n, tier, bytes, s.released, s.releases);
    RespondAlone(cfg, s.memory, s.shared, s.nodes, e, n, tier, bytes);
    RespondCounts(cfg, s.memory, s.shared, s.nodes, e, n, tier, bytes, |s.log|);
  }

  lemma RespondKeeps(cfg: Config, s: State, e: Event, n: NodeState, tier: Tier, bytes: nat)
    requires Due(cfg, s, e) && e.kind in {LocalCacheHitComplete, ReturnResponse} && e.target in s.nodes
    requires Known(s.shared, e.request)
    requires tier == (if e.kind == LocalCacheHitComplete then LocalTier else MemoryTier)
    requires bytes == (if e.kind == LocalCacheHitComplete then 0 else TrackOf(s.shared, e.request).request.size)
    requires n == s.nodes[e.target].(cache := n.cache)
    requires Sound(n.cache) && (cfg.mode == CompletionDriven ==> Exact(n.cache))
    ensures Respond(e.target, n, Taken(s.shared, e), e, tier, bytes).Ok?
    ensures var (n', sh') := Respond(e.target, n, Taken(s.shared, e), e, tier, bytes).value;
            Core(cfg, Logged(s, e).(shared := sh', nodes := s.nodes[e.target := n']))
  {
    hide Core, Recorded, Alone, Counted, Afterwards, Respond, Streams, Channels;
    RespondAtMemory(cfg, s, e, n, tier, bytes);
    RespondAtNodes(cfg, s, e, n, tier, bytes);
    ShapeOf(cfg, s);
    var (n', sh') := Respond(e.target, n, Taken(s.shared, e), e, tier, bytes).value;
    NodeCore(cfg, s, e, n', sh');
  }

  lemma CacheInOrder(cfg: Config, s: State, id: nat)
    requires Core(cfg, s) && id in s.nodes
    ensures Sound(s.nodes[id].cache) && (cfg.mode == CompletionDriven ==> Exact(s.nodes[id].cache))
  {
  }

  lemma HitCompleteKeeps(cfg: Config, s: State, e: Event)
    requires Due(cfg, s, e) && e.kind == LocalCacheHitComplete
    ensures Dispatch(cfg, Pick(s, e), e).Ok? && Core(cfg, Dispatch(cfg, Pick(s, e), e).value)
  {
    hide Core, Respond, Sound, Exact;
    ShapeOf(cfg, s);
    Addressed(cfg, s, e);
    StillCounted(cfg, s, e);
    CacheInOrder(cfg, s, e.target);
    RespondKeeps(cfg, s, e, s.nodes[e.target], LocalTier, 0);
  }

  lemma AdmitKept(cfg: Config, s: State, e: Event)
    requires Due(cfg, s, e) && e.kind == ReturnResponse && e.target in s.nodes
    ensures Known(s.shared, e.request)
    ensures var cache := Admit(s.nodes[e.target].cache, TrackOf(s.shared, e.request).request, e.time);
            Sound(cache) && (cfg.mode == CompletionDriven ==> Exact(cache))
  {
    hide Admit, Sound, Exact, Tokens, Times, Responses, Channels, OneAtATime, EventsCounted, StatsCounted,
         CachesSound, CachesExact, Streams;
    RequestAtNode(cfg, s.memory, s.shared, s.nodes, e);
    AdmitAlone(cfg, s.memory, s.shared, s.nodes, e);
  }

  lemma ReturnIs(cfg: Config, s: State, e: Event)
    requires MemoryShape(cfg, s.memory) && e.kind == ReturnResponse && e.target in s.nodes && Known(s.shared, e.request)
    ensures var r := TrackOf(s.shared, e.request).request;
            var n := s.nodes[e.target].(cache := Admit(s.nodes[e.target].cache, r, e.time));
            var out := Respond(e.target, n, s.shared, e, MemoryTier, r.size);
            out.Ok? ==> Dispatch(cfg, s, e) == Ok(Logged(s, e).(shared := out.value.1,
                nodes := s.nodes[e.target := out.value.0]))
  {
    hide Admit, Respond;
  }

  lemma ReturnKeeps(cfg: Config, s: State, e: Event)
    requires Due(cfg, s, e) && e.kind == ReturnResponse
    ensures Dispatch(cfg, Pick(s, e), e).Ok? && Core(cfg, Dispatch(cfg, Pick(s, e), e).value)
  {
    Addressed(cfg, s, e);
    StillCounted(cfg, s, e);
    AdmitKept(cfg, s, e);
    var r := TrackOf(s.shared, e.request).request;
    var n := s.nodes[e.target].(cache := Admit(s.nodes[e.target].cache, r, e.time));
    ShapeOf(cfg, s);
    ReturnIs(cfg, Pick(s, e), e);
    hide Admit, Sound, Exact, Core, Respond, Dispatch;
    RespondKeeps(cfg, s, e, n, MemoryTier, r.size);
  }

  lemma NodeStreamValid(cfg: Config, nodes: map<nat, NodeState>, id: nat)
    requires ValidConfig(cfg) && Configured(cfg, nodes) && id in nodes
    ensures SortedByEpoch(nodes[id].requests)
    ensures cfg.mode == ScheduledBursty ==> OffsetsAscend(nodes[id].requests)
  {
    var i :| 0 <= i < |cfg.nodes| && cfg.nodes[i].id == id;
  }

  lemma FinishAtNodes(cfg: Config, s: State, e: Event)
    requires Due(cfg, s, e) && e.kind == RequestComplete && e.target in s.nodes
    ensures cfg.mode == CompletionDriven ==> s.nodes[e.target].generating.None?
    ensures var (n', sh') := NodeComplete(cfg, e.target, s.nodes[e.target], Taken(s.shared, e), e).value;
            var nodes := s.nodes[e.target := n'];
            Streams(cfg, sh'.ledger.tracks, nodes, s.released, s.releases) && Alone(cfg, sh'.ledger.tracks, nodes) &&
            Counted(cfg, |s.log| + 1, sh'.ledger, nodes, sh'.stats)
  {
    NodeStreamValid(cfg, s.nodes, e.target);
    assert NodeComplete(cfg, e.target, s.nodes[e.target], Taken(s.shared, e), e).Ok?;
    hide NodeComplete, SortedByEpoch, Tokens, Times, Responses, Channels, OneAtATime, EventsCounted, StatsCounted,
         CachesSound, CachesExact, Streams;
    FinishAlone(cfg, s.memory, s.shared, s.nodes, e);
    FinishStreams(cfg, s.memory, s.shared, s.nodes, e, s.released, s.releases);
    FinishCounts(cfg, s.memory, s.shared, s.nodes, e, |s.log|);
  }

  lemma FinishAtMemory(cfg: Config, s: State, e: Event)
    requires Due(cfg, s, e) && e.kind == RequestComplete && e.target in s.nodes
    requires cfg.mode == CompletionDriven ==> s.nodes[e.target].generating.None?
    ensures NodeComplete(cfg, e.target, s.nodes[e.target], Taken(s.shared, e), e).Ok?
    ensures var (n', sh') := NodeComplete(cfg, e.target, s.nodes[e.target], Taken(s.shared, e), e).value;
            Afterwards(cfg, s.memory, sh', s.nodes[e.target := n']) && Recorded(cfg, sh'.ledger) &&
            Channels(cfg, sh', s.memory)
  {
    hide NodeComplete, Tokens, Times, Responses, Channels, OneAtATime, EventsCounted, StatsCounted, CachesSound,
         CachesExact, Streams;
    FinishTokens(cfg, s.memory, s.shared, s.nodes, e);
    FinishTimes(cfg, s.memory, s.shared, s.nodes, e);
    FinishChannels(cfg, s.memory, s.shared, s.nodes, e);
  }

  lemma FinishKeeps(cfg: Config, s: State, e: Event)
    requires Due(cfg, s, e) && e.kind == RequestComplete
    ensures Dispatch(cfg, Pick(s, e), e).Ok? && Core(cfg, Dispatch(cfg, Pick(s, e), e).value)
  {
    hide Core, Recorded, Alone, Counted, Afterwards, NodeComplete;
    Addressed(cfg, s, e);
    FinishAtNodes(cfg, s, e);
    FinishAtMemory(cfg, s, e);
    ShapeOf(cfg, s);
    var (n', sh') := NodeComplete(cfg, e.target, s.nodes[e.target], Taken(s.shared, e), e).value;
    NodeCore(cfg, s, e, n', sh');
  }

  lemma GenerateKeeps(cfg: Config, s: State, e: Event)
    requires Due(cfg, s, e) && e.kind == GenerateRequest
    ensures Dispatch(cfg, Pick(s, e), e).Ok? && Core(cfg, Dispatch(cfg, Pick(s, e), e).value)
  {
    Addressed(cfg, s, e);
    NodeStreamValid(cfg, s.nodes, e.target);
    assert NodeOk(cfg, s.nodes[e.target], s.released, s.releases);
    GenerateTokens(cfg, s.memory, s.shared, s.nodes, e, s.released, s.releases);
    GenerateStreams(cfg, s.memory, s.shared, s.nodes, e, s.released, s.releases);
    GenerateTimes(cfg, s.nodes[e.target], s.shared, e);
    GenerateChannels(cfg, s.memory, s.shared, s.nodes[e.target], e);
    GenerateAlone(cfg, s.memory, s.shared, s.nodes, e);
    GenerateCounts(cfg, s.shared, s.nodes, e, |s.log|);
    var (n', sh') := NodeGenerate(cfg, e.target, s.nodes[e.target], Taken(s.shared, e), e).value;
    hide Core, Recorded, Alone, Counted, Afterwards;
    NodeCore(cfg, s, e, n', sh');
  }

  /** No reachable state throws, whichever event is next. */
  lemma DispatchKeeps(cfg: Config, s: State, e: Event)
    requires Due(cfg, s, e)
    ensures Dispatch(cfg, Pick(s, e), e).Ok? && Core(cfg, Dispatch(cfg, Pick(s, e), e).value)
  {
    Addressed(cfg, s, e);
    match e.kind
    case ForwardToMemory => ForwardKeeps(cfg, s, e);
    case MemoryServiceStart => StartKeeps(cfg, s, e);
    case MemoryServiceComplete => CompleteKeeps(cfg, s, e);
    case LocalCacheLookup => LookupKeeps(cfg, s, e);
    case LocalCacheHitComplete => HitCompleteKeeps(cfg, s, e);
    case ReturnResponse => ReturnKeeps(cfg, s, e);
    case RequestComplete => FinishKeeps(cfg, s, e);
    case GenerateRequest => GenerateKeeps(cfg, s, e);
    case _ =>
  }

  lemma StepKeeps(cfg: Config, s: State)
    requires Inv(cfg, s) && s.shared.queue.pending != {}
    ensures Step(cfg, s).Ok? && Inv(cfg, Step(cfg, s).value)
  {
    var e := Least(s.shared.queue);
    DispatchKeeps(cfg, s, e);
    ReleaseKeeps(cfg, Dispatch(cfg, Pick(s, e), e).value);
  }
}
