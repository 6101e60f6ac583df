/** Bursty runs in which two misses on one object overlap: the counted occupancy outgrows the resident bytes. */
module Overlaps {
  import opened Model
  import opened Totals
  import opened Policies
  import opened Cache
  import opened CacheLaws
  import opened Scheduling
  import opened Statistics
  import opened Protocol
  import opened Invariants
  import opened HandlerTokens
  import opened Releases
  import opened Steps
  import opened Runs
  import opened Barriers
  import opened StatsLaws
  import opened Accounts
  import opened OracleRuns
  import opened Telemetries

  /** One node that evicts by recency asks twice, at once, for an object that would fit twice. */
  predicate AsksTwice(cfg: Config) {
    && ValidConfig(cfg) && cfg.mode == ScheduledBursty && cfg.policy == Lru && cfg.plan == None && cfg.linkLatency > 0
    && |cfg.nodes| == 1 && |cfg.nodes[0].requests| == 2 && cfg.nodes[0].requests[1] == cfg.nodes[0].requests[0]
    && var r := cfg.nodes[0].requests[0]; r.size > 0 && 2 * r.size <= cfg.capacity && r.epoch == r.offset == 0
  }

  function Asked(cfg: Config): RequestSpec
    requires AsksTwice(cfg)
  {
    cfg.nodes[0].requests[0]
  }

  function Asker(cfg: Config): nat
    requires AsksTwice(cfg)
  {
    cfg.nodes[0].id
  }

  /** Whether the object of this miss has come back. */
  function IsBack(t: Track): nat { if Answered(t.phase) && !t.hit then 1 else 0 }

  /** Every response that has come back has been counted in full, though the object is resident once at most. */
  ghost predicate CountsTwice(cfg: Config, c: CacheState, back: nat, now: nat)
    requires AsksTwice(cfg)
  {
    && c.policy == Lru && c.capacity == cfg.capacity && c.entries.Keys <= {Asked(cfg).obj}
    && (forall o :: o in c.entries ==> c.entries[o].size == Asked(cfg).size)
    && c.occupancy == back * Asked(cfg).size && (back > 0 ==> now > 0) && (back == 0 ==> c.entries == map[])
  }

  ghost predicate Overlap(cfg: Config, s: State)
    requires AsksTwice(cfg)
  {
    && (forall i :: 0 <= i < |s.shared.ledger.tracks| ==> !s.shared.ledger.tracks[i].hit)
    && s.nodes.Keys == {Asker(cfg)} && 0 in s.releases && s.releases[0] == 0
    && CountsTwice(cfg, s.nodes[Asker(cfg)].cache, SumBy(IsBack, s.shared.ledger.tracks), s.shared.queue.now)
  }

  /* ---- Handlers ---- */

  lemma OneMoreBack(cfg: Config, c: CacheState, r: Request, time: nat, back: nat, now: nat)
    requires AsksTwice(cfg) && CountsTwice(cfg, c, back, now) && back <= 1 && time > 0
    requires r.obj == Asked(cfg).obj && r.size == Asked(cfg).size
    ensures CountsTwice(cfg, Admit(c, r, time), back + 1, time)
  {
    assert back == 0 || back == 1;
    AdmitWithRoom(c, r, time);
  }

  /** The requests of a reachable state: at most two, all for the one object, all issued at time zero. */
  lemma AllAsked(cfg: Config, s: State, i: nat)
    requires AsksTwice(cfg) && Core(cfg, s) && Overlap(cfg, s) && i < |s.shared.ledger.tracks|
    ensures |s.shared.ledger.tracks| <= 2
    ensures var r := s.shared.ledger.tracks[i].request;
            r.obj == Asked(cfg).obj && r.size == Asked(cfg).size && r.source == Asker(cfg) && r.issueTime == 0
  {
    hide Tokens, Times, Responses, Channels, OneAtATime, StatsCounted, CachesSound, CachesExact, CountsTwice;
    var t := s.shared.ledger.tracks[i];
    assert Issued(cfg, t, s.nodes, s.released, s.releases);
    TwoRequests(cfg);
  }

  lemma TwoRequests(cfg: Config)
    requires AsksTwice(cfg)
    ensures RequestCount(cfg.nodes) == 2
  {
    assert cfg.nodes[..0] == [];
  }

  /** The request that the node handles, which has not hit. */
  lemma AtAsker(cfg: Config, s: State, e: Event)
    requires AsksTwice(cfg) && Due(cfg, s, e) && Overlap(cfg, s) && e.target in s.nodes && e.kind != GenerateRequest
    ensures Known(s.shared, e.request) && KindOf(TrackOf(s.shared, e.request).phase) == e.kind
    ensures e.kind in {LocalCacheLookup, ReturnResponse, RequestComplete} && e.target == Asker(cfg)
    ensures TrackOf(s.shared, e.request).phase !in {Queued, Finished}
    ensures e.kind == LocalCacheLookup ==> e.time == TrackOf(s.shared, e.request).request.issueTime
    ensures e.kind == ReturnResponse ==> e.time > 0
    ensures s.shared.queue.now <= e.time
  {
    hide Responses, Channels, Streams, OneAtATime, EventsCounted, StatsCounted, CachesSound, CachesExact, CountsTwice;
    PhaseAtNode(cfg, s, e);
    Addressed(cfg, s, e);
    RequestAtNode(cfg, s.memory, s.shared, s.nodes, e);
    assert Timed(cfg, s.shared.ledger.tracks[e.request - 1]);
  }

  lemma {:induction false} BackAtMost(tracks: seq<Track>)
    ensures SumBy(IsBack, tracks) <= |tracks|
  {
    if tracks != [] {
      BackAtMost(tracks[..|tracks| - 1]);
    }
  }

  /** One request moves without a hit; what has come back is counted. */
  ghost predicate MovesOn(tracks: seq<Track>, tracks': seq<Track>, i: nat, back: nat) {
    i < |tracks| == |tracks'| && tracks' == tracks[i := tracks'[i]] && tracks'[i].hit == tracks[i].hit &&
    IsBack(tracks'[i]) == IsBack(tracks[i]) + back
  }

  lemma OverlapMoves(cfg: Config, s: State, d: State, i: nat, back: nat)
    requires AsksTwice(cfg) && Overlap(cfg, s) && MovesOn(s.shared.ledger.tracks, d.shared.ledger.tracks, i, back)
    requires d.nodes.Keys == s.nodes.Keys && d.releases == s.releases
    requires CountsTwice(cfg, d.nodes[Asker(cfg)].cache, SumBy(IsBack, s.shared.ledger.tracks) + back,
                         d.shared.queue.now)
    ensures Overlap(cfg, d)
  {
    hide CountsTwice, IsBack;
    SumByUpdate(IsBack, s.shared.ledger.tracks, i, d.shared.ledger.tracks[i]);
  }

  lemma MemoryMovesOn(cfg: Config, m: MemoryState, sh: Shared, e: Event)
    requires MemoryShape(cfg, m) && MemoryHandle(cfg, m, sh, e).Ok?
    requires Known(sh, e.request) && Staged(e.kind, TrackOf(sh, e.request))
    ensures MovesOn(sh.ledger.tracks, MemoryHandle(cfg, m, sh, e).value.1.ledger.tracks, e.request - 1, 0)
    ensures MemoryHandle(cfg, m, sh, e).value.1.queue.now == sh.queue.now
  {
    hide ArrivalStats, RecordQueueWait, RecordMemoryWait, RecordService;
  }

  lemma Later(cfg: Config, c: CacheState, back: nat, now: nat, later: nat)
    requires AsksTwice(cfg) && CountsTwice(cfg, c, back, now) && now <= later
    ensures CountsTwice(cfg, c, back, later)
  {
  }

  lemma MemoryOverlap(cfg: Config, s: State, e: Event)
    requires AsksTwice(cfg) && Due(cfg, s, e) && Overlap(cfg, s) && e.target !in s.nodes
    requires Dispatch(cfg, Pick(s, e), e).Ok?
    ensures Overlap(cfg, Dispatch(cfg, Pick(s, e), e).value)
  {
    hide MemoryHandle, CountsTwice, Core;
    ShapeOf(cfg, s);
    MemoryStages(cfg, s, e);
    MemoryMovesOn(cfg, s.memory, Taken(s.shared, e), e);
    var d := Dispatch(cfg, Pick(s, e), e).value;
    Later(cfg, s.nodes[Asker(cfg)].cache, SumBy(IsBack, s.shared.ledger.tracks), s.shared.queue.now, e.time);
    OverlapMoves(cfg, s, d, e.request - 1, 0);
  }

  /** The node looks an object up that has not come back. */
  lemma LookupMovesOn(cfg: Config, id: nat, n: NodeState, sh: Shared, e: Event)
    requires Known(sh, e.request) && TrackOf(sh, e.request).phase == Looking && n.cache.entries == map[]
    requires n.cache.policy == Lru
    ensures NodeLookup(cfg, id, n, sh, e).Ok?
    ensures var (n', sh') := NodeLookup(cfg, id, n, sh, e).value;
            && MovesOn(sh.ledger.tracks, sh'.ledger.tracks, e.request - 1, 0) && sh'.queue.now == sh.queue.now
            && n'.cache == n.cache.(misses := n.cache.misses + 1)
  {
  }

  lemma ReturnMovesOn(cfg: Config, id: nat, n: NodeState, sh: Shared, e: Event)
    requires NodeReturn(id, n, sh, e).Ok? && Known(sh, e.request) && TrackOf(sh, e.request).phase == Returning
    requires !TrackOf(sh, e.request).hit
    ensures var (n', sh') := NodeReturn(id, n, sh, e).value;
            && MovesOn(sh.ledger.tracks, sh'.ledger.tracks, e.request - 1, 1) && sh'.queue.now == sh.queue.now
            && n'.cache == Admit(n.cache, TrackOf(sh, e.request).request, e.time)
  {
    hide Admit;
  }

  lemma CompleteMovesOn(cfg: Config, id: nat, n: NodeState, sh: Shared, e: Event)
    requires Known(sh, e.request) && TrackOf(sh, e.request).phase == Finishing
    ensures NodeComplete(cfg, id, n, sh, e).Ok?
    ensures var (n', sh') := NodeComplete(cfg, id, n, sh, e).value;
            && MovesOn(sh.ledger.tracks, sh'.ledger.tracks, e.request - 1, 0) && sh'.queue.now == sh.queue.now
            && n'.cache == n.cache
  {
  }

  lemma LookupOverlap(cfg: Config, s: State, e: Event)
    requires AsksTwice(cfg) && Due(cfg, s, e) && Overlap(cfg, s) && e.target in s.nodes && e.kind == LocalCacheLookup
    requires Dispatch(cfg, Pick(s, e), e).Ok?
    ensures Overlap(cfg, Dispatch(cfg, Pick(s, e), e).value)
  {
    hide NodeLookup, NodeReturn, NodeComplete, CountsTwice, Core, Admit, MovesOn;
    ShapeOf(cfg, s);
    AtAsker(cfg, s, e);
    var n, back, d := s.nodes[e.target], SumBy(IsBack, s.shared.ledger.tracks), Dispatch(cfg, Pick(s, e), e).value;
    AllAsked(cfg, s, e.request - 1);
    NothingBack(cfg, n.cache, back);
    LookupMovesOn(cfg, e.target, n, Taken(s.shared, e), e);
    MissKeeps(cfg, n.cache, back, s.shared.queue.now);
    OverlapMoves(cfg, s, d, e.request - 1, 0);
  }

  lemma ReturnOverlap(cfg: Config, s: State, e: Event)
    requires AsksTwice(cfg) && Due(cfg, s, e) && Overlap(cfg, s) && e.target in s.nodes && e.kind == ReturnResponse
    requires Dispatch(cfg, Pick(s, e), e).Ok?
    ensures Overlap(cfg, Dispatch(cfg, Pick(s, e), e).value)
  {
    hide NodeLookup, NodeReturn, NodeComplete, CountsTwice, Core, Admit, MovesOn;
    ShapeOf(cfg, s);
    AtAsker(cfg, s, e);
    var n, back, d := s.nodes[e.target], SumBy(IsBack, s.shared.ledger.tracks), Dispatch(cfg, Pick(s, e), e).value;
    AllAsked(cfg, s, e.request - 1);
    ReturnMovesOn(cfg, e.target, n, Taken(s.shared, e), e);
    OneOfTwoBack(s.shared.ledger.tracks, d.shared.ledger.tracks, e.request - 1);
    OneMoreBack(cfg, n.cache, TrackOf(s.shared, e.request).request, e.time, back, s.shared.queue.now);
    OverlapMoves(cfg, s, d, e.request - 1, 1);
  }

  lemma CompleteOverlap(cfg: Config, s: State, e: Event)
    requires AsksTwice(cfg) && Due(cfg, s, e) && Overlap(cfg, s) && e.target in s.nodes && e.kind == RequestComplete
    requires Dispatch(cfg, Pick(s, e), e).Ok?
    ensures Overlap(cfg, Dispatch(cfg, Pick(s, e), e).value)
  {
    hide NodeLookup, NodeReturn, NodeComplete, CountsTwice, Core, Admit, MovesOn;
    ShapeOf(cfg, s);
    AtAsker(cfg, s, e);
    var n, back, d := s.nodes[e.target], SumBy(IsBack, s.shared.ledger.tracks), Dispatch(cfg, Pick(s, e), e).value;
    CompleteMovesOn(cfg, e.target, n, Taken(s.shared, e), e);
    Later(cfg, n.cache, back, s.shared.queue.now, e.time);
    OverlapMoves(cfg, s, d, e.request - 1, 0);
  }

  lemma NothingBack(cfg: Config, c: CacheState, back: nat)
    requires AsksTwice(cfg) && CountsTwice(cfg, c, back, 0)
    ensures c.entries == map[] && c.policy == Lru
  {
  }

  lemma MissKeeps(cfg: Config, c: CacheState, back: nat, now: nat)
    requires AsksTwice(cfg) && CountsTwice(cfg, c, back, now)
    ensures CountsTwice(cfg, c.(misses := c.misses + 1), back, now) && c.policy == Lru
  {
  }

  lemma OneOfTwoBack(tracks: seq<Track>, tracks': seq<Track>, i: nat)
    requires MovesOn(tracks, tracks', i, 1)
    ensures SumBy(IsBack, tracks) + 1 <= |tracks|
  {
    SumByUpdate(IsBack, tracks, i, tracks'[i]);
    BackAtMost(tracks');
  }

  lemma IssueOverlap(cfg: Config, s: State, e: Event)
    requires AsksTwice(cfg) && Due(cfg, s, e) && Overlap(cfg, s) && e.kind == GenerateRequest
    requires Dispatch(cfg, Pick(s, e), e).Ok?
    ensures Overlap(cfg, Dispatch(cfg, Pick(s, e), e).value)
  {
    hide CountsTwice, Core, NodeGenerate;
    ShapeOf(cfg, s);
    var i := IssuerOf(cfg, s, e);
    var d, tracks := Dispatch(cfg, Pick(s, e), e).value, s.shared.ledger.tracks;
    InOrderNow(cfg, s, e);
    IssuesNext(cfg, Pick(s, e), e);
    NewIsUnanswered(cfg, e.target, s.nodes[e.target], Taken(s.shared, e), e);
    SumByAppend(IsBack, tracks, d.shared.ledger.tracks[|tracks|]);
    MissKeeps(cfg, s.nodes[e.target].cache, SumBy(IsBack, tracks), s.shared.queue.now);
    LruCacheStays(cfg, s, e);
    Later(cfg, s.nodes[e.target].cache, SumBy(IsBack, tracks), s.shared.queue.now, e.time);
  }

  lemma InOrderNow(cfg: Config, s: State, e: Event)
    requires Due(cfg, s, e)
    ensures s.shared.queue.now <= e.time
  {
  }

  lemma NewIsUnanswered(cfg: Config, id: nat, n: NodeState, sh: Shared, e: Event)
    requires NextSpec(n).Some?
    ensures NodeGenerate(cfg, id, n, sh, e).Ok?
    ensures var sh' := NodeGenerate(cfg, id, n, sh, e).value.1;
            && |sh'.ledger.tracks| == |sh.ledger.tracks| + 1 && sh'.queue.now == sh.queue.now
            && !sh'.ledger.tracks[|sh.ledger.tracks|].hit && IsBack(sh'.ledger.tracks[|sh.ledger.tracks|]) == 0
  {
    hide StartEpoch;
  }

  lemma LruCacheStays(cfg: Config, s: State, e: Event)
    requires AsksTwice(cfg) && e.target in s.nodes && NextSpec(s.nodes[e.target]).Some?
    requires s.nodes[e.target].cache.policy == Lru
    ensures NodeGenerate(cfg, e.target, s.nodes[e.target], Taken(s.shared, e), e).Ok?
    ensures NodeGenerate(cfg, e.target, s.nodes[e.target], Taken(s.shared, e), e).value.0.cache ==
            s.nodes[e.target].cache
  {
    GenerateStarts(cfg, e.target, s.nodes[e.target], Taken(s.shared, e), e);
  }

  /* ---- Whole runs ---- */

  lemma HandledOverlap(cfg: Config, s: State, e: Event)
    requires AsksTwice(cfg) && Due(cfg, s, e) && Overlap(cfg, s)
    ensures Dispatch(cfg, Pick(s, e), e).Ok? && Overlap(cfg, Dispatch(cfg, Pick(s, e), e).value)
  {
    hide Dispatch, Core;
    DispatchKeeps(cfg, s, e);
    if e.kind == GenerateRequest {
      IssueOverlap(cfg, s, e);
    } else if e.target in s.nodes {
      AtAsker(cfg, s, e);
      if e.kind == LocalCacheLookup {
        LookupOverlap(cfg, s, e);
      } else if e.kind == ReturnResponse {
        ReturnOverlap(cfg, s, e);
      } else {
        CompleteOverlap(cfg, s, e);
      }
    } else {
      MemoryOverlap(cfg, s, e);
    }
  }

  lemma ReleaseOverlap(cfg: Config, s: State)
    requires AsksTwice(cfg) && Core(cfg, s) && ReleasesBounded(s)
    requires Overlap(cfg, s)
    ensures Overlap(cfg, Release(cfg, s))
  {
    hide Release, Core, CountsTwice;
    ReleaseFrame(cfg, s);
    ReleaseSame(cfg, s);
    ReleaseGoesOn(cfg, s);
    assert SameButGenerating(Release(cfg, s).nodes[Asker(cfg)], s.nodes[Asker(cfg)]);
  }

  lemma TurnOverlap(cfg: Config, s: State)
    requires AsksTwice(cfg) && Inv(cfg, s) && ReleasesBounded(s) && Overlap(cfg, s)
    ensures Overlap(cfg, Turn(cfg, s))
  {
    if s.shared.queue.pending != {} {
      hide Dispatch, Overlap, Release, Core;
      HandledOverlap(cfg, s, Least(s.shared.queue));
      TurnIsRelease(cfg, s);
      ReleaseOverlap(cfg, Handled(cfg, s));
    }
  }

  /** The first release is of epoch zero, at time zero. */
  lemma FirstOverlap(cfg: Config)
    requires AsksTwice(cfg)
    ensures Overlap(cfg, Run(cfg, 0))
  {
    hide ReleaseNodes;
    InitialNodesAre(cfg, 1);
    var s := Initial(cfg);
    assert NextEpoch(cfg, s, 0) == None && NextEpoch(cfg, s, 1) == Some(0);
    ReleaseNodesFrame(cfg, Announce(s, 0), 0, 1);
    ReleaseNodesSame(cfg, Announce(s, 0), 0, 1);
    assert SameButGenerating(Release(cfg, s).nodes[Asker(cfg)], s.nodes[Asker(cfg)]);
  }

  lemma {:induction false} RunOverlap(cfg: Config, k: nat)
    requires AsksTwice(cfg)
    ensures Overlap(cfg, Run(cfg, k))
  {
    hide Turn, Inv, Core, Release, Overlap, ReleasesBounded;
    if k == 0 {
      FirstOverlap(cfg);
    } else {
      RunOverlap(cfg, k - 1);
      RunKeeps(cfg, k - 1);
      ReleasesStand(cfg, k - 1, k - 1);
      TurnOverlap(cfg, Run(cfg, k - 1));
    }
  }

  lemma {:induction false} AllBack(tracks: seq<Track>)
    requires AllFinished(tracks) && forall i :: 0 <= i < |tracks| ==> !tracks[i].hit
    ensures SumBy(IsBack, tracks) == |tracks|
  {
    if tracks != [] {
      AllBack(tracks[..|tracks| - 1]);
    }
  }

  lemma OnceResident(cfg: Config, c: CacheState, back: nat, now: nat)
    requires AsksTwice(cfg) && CountsTwice(cfg, c, back, now)
    ensures Total(Sizes(c.entries)) <= Asked(cfg).size
  {
    var o := Asked(cfg).obj;
    if o in c.entries {
      SizesWithout(c.entries, o);
      assert c.entries - {o} == map[];
    } else {
      assert c.entries == map[];
    }
    assert Sizes(map[]) == map[];
  }

  /**
   * Every such run ends with the object counted twice though it is resident once: the inequality between resident
   * bytes and occupancy is strict in a state that a run reaches.
   */
  lemma OverlappingRunIsInexact(cfg: Config)
    requires AsksTwice(cfg)
    ensures var s := Final(cfg);
            && Asker(cfg) in s.nodes && s.nodes[Asker(cfg)].cache.occupancy == 2 * Asked(cfg).size
            && Total(Sizes(s.nodes[Asker(cfg)].cache.entries)) <= Asked(cfg).size
            && !Exact(s.nodes[Asker(cfg)].cache)
  {
    hide Run;
    RunOverlap(cfg, Turns(cfg));
    FinalIsFinished(cfg);
    EventsPerRequest(cfg);
    TwoRequests(cfg);
    var s := Final(cfg);
    AllBack(s.shared.ledger.tracks);
    OnceResident(cfg, s.nodes[Asker(cfg)].cache, 2, s.shared.queue.now);
  }

  /** There is such a configuration. */
  lemma SomeoneAsksTwice()
    ensures var r := RequestSpec(1, 1, 0, 0);
            AsksTwice(Config([NodeConfig(1, [r, r])], 0, 1, 1, 1, 1, 1, 2, Lru, ScheduledBursty, None))
  {
  }
}
