/** What the policies have observed in a run: each node's policy counts exactly the requests the node has looked up. */
module PolicyTraces {
  import opened Model
  import opened Totals
  import opened Policies
  import opened Cache
  import opened CacheLaws
  import opened Scheduling
  import opened Statistics
  import opened Protocol
  import opened Invariants
  import opened HandlerTokens
  import opened Releases
  import opened Steps
  import opened Runs
  import opened Barriers
  import opened StatsLaws
  import opened OracleRuns
  import opened Telemetries
  import opened Windows

  /* ---- Traces of nodes ---- */

  /** Lookups of one object by one node, in the epochs from `first` on. */
  ghost function LookedUp(id: nat, obj: nat, first: nat): Track -> nat {
    (t: Track) => if t.request.source == id && t.request.obj == obj && t.request.epoch >= first && t.phase != Looking
                  then 1 else 0
  }

  ghost function Lookups(tracks: seq<Track>, id: nat, obj: nat, first: nat): nat {
    SumBy(LookedUp(id, obj, first), tracks)
  }

  /** The policy is in the state that the trace leads to. */
  ghost predicate Observes(p: Policy, initial: Policy, trace: seq<Access>, telemetry: seq<Telemetry>)
    requires |telemetry| == |trace|
  {
    && (initial.Hotness? ==>
          p.Hotness? && p.hotness == initial.hotness && p.window == HotnessAfter(initial.hotness, trace))
    && (initial.ContentionAware? ==>
          p.ContentionAware? && p.contention == initial.contention &&
          p.state == ContentionAfter(initial.contention, trace, telemetry))
  }

  ghost predicate SameLooks(trace: seq<Access>, tracks: seq<Track>, id: nat) {
    forall obj: nat, first: nat {:trigger LooksFrom(trace, obj, first)} ::
      LooksFrom(trace, obj, first) == Lookups(tracks, id, obj, first)
  }

  /** A trace of starts and lookups that has brought the policy of node `id` to its state. */
  ghost predicate TraceOf(initial: Policy, id: nat, n: NodeState, tracks: seq<Track>, trace: seq<Access>,
                          telemetry: seq<Telemetry>)
  {
    && |telemetry| == |trace| && Sequential(trace) && Announced(trace) && FreshStarts(trace)
    && Latest(trace) == n.epoch && Started(trace) == n.epoch
    && Observes(n.cache.policy, initial, trace, telemetry) && SameLooks(trace, tracks, id)
  }

  ghost predicate Traced(initial: Policy, id: nat, n: NodeState, tracks: seq<Track>) {
    exists trace, telemetry :: TraceOf(initial, id, n, tracks, trace, telemetry)
  }

  ghost predicate AllTraced(cfg: Config, nodes: map<nat, NodeState>, tracks: seq<Track>) {
    forall id {:trigger Traced(cfg.policy, id, nodes[id], tracks)} :: id in nodes ==>
      Traced(cfg.policy, id, nodes[id], tracks)
  }

  /* ---- One more access ---- */

  lemma TraceGrows(trace: seq<Access>, a: Access)
    requires Sequential(trace) && Announced(trace) && (Latest(trace).Some? ==> Latest(trace).value <= a.epoch)
    requires if a.Look? then Started(trace) == Some(a.epoch) else Latest(trace) != Some(a.epoch)
    requires FreshStarts(trace)
    ensures Sequential(trace + [a]) && Announced(trace + [a]) && FreshStarts(trace + [a])
    ensures Latest(trace + [a]) == Started(trace + [a]) == Some(a.epoch)
  {
    var longer := trace + [a];
    assert longer[..|trace|] == trace;
    forall i | 0 <= i < |longer| && longer[i].Look? ensures Started(longer[..i]) == Some(longer[i].epoch) {
      if i < |trace| {
        assert longer[..i] == trace[..i] && trace[i].Look?;
      }
    }
    forall i | 0 <= i < |trace| ensures trace[i].epoch <= a.epoch {
      assert trace[i].epoch <= trace[|trace| - 1].epoch;
    }
  }

  lemma LooksGrow(trace: seq<Access>, a: Access, obj: nat, first: nat)
    ensures LooksFrom(trace + [a], obj, first) ==
            LooksFrom(trace, obj, first) + (if a.Look? && a.obj == obj && a.epoch >= first then 1 else 0)
  {
    assert (trace + [a])[..|trace|] == trace;
  }

  lemma ObservesMore(p: Policy, initial: Policy, trace: seq<Access>, telemetry: seq<Telemetry>, a: Access,
                     seen: Telemetry)
    requires |telemetry| == |trace| && Observes(p, initial, trace, telemetry)
    ensures var q := if a.Start? then OnEpochStart(p, a.epoch, seen) else OnLookup(p, a.epoch, a.obj, seen);
            Observes(q, initial, trace + [a], telemetry + [seen])
  {
    assert (trace + [a])[..|trace|] == trace && (telemetry + [seen])[..|trace|] == telemetry;
    hide HotnessEpochStart, HotnessLookup, ContentionEpochStart, ContentionLookup;
  }

  /* ---- What handlers do to requests ---- */

  /** No node has looked up more. */
  ghost predicate NoMoreLookups(tracks: seq<Track>, tracks': seq<Track>, id: nat) {
    forall obj: nat, first: nat {:trigger Lookups(tracks', id, obj, first)} ::
      Lookups(tracks', id, obj, first) == Lookups(tracks, id, obj, first)
  }

  lemma EntersUnlooked(tracks: seq<Track>, t: Track, id: nat)
    requires t.phase == Looking
    ensures NoMoreLookups(tracks, tracks + [t], id)
  {
    forall obj: nat, first: nat ensures Lookups(tracks + [t], id, obj, first) == Lookups(tracks, id, obj, first) {
      SumByAppend(LookedUp(id, obj, first), tracks, t);
    }
  }

  /** A request moves on, but not from its lookup, or it belongs to another node. */
  lemma MovesLooked(tracks: seq<Track>, i: nat, t: Track, id: nat)
    requires i < |tracks| && t.request.source == tracks[i].request.source && t.request.obj == tracks[i].request.obj
    requires t.request.epoch == tracks[i].request.epoch
    requires t.request.source == id ==> (t.phase == Looking <==> tracks[i].phase == Looking)
    ensures NoMoreLookups(tracks, tracks[i := t], id)
  {
    var tracks' := tracks[i := t];
    forall obj: nat, first: nat ensures Lookups(tracks', id, obj, first) == Lookups(tracks, id, obj, first) {
      SumByUpdate(LookedUp(id, obj, first), tracks, i, t);
    }
  }

  /** A node's trace stands while its policy and epoch do and it looks up nothing. */
  lemma TraceStands(initial: Policy, id: nat, n: NodeState, n': NodeState, tracks: seq<Track>, tracks': seq<Track>)
    requires Traced(initial, id, n, tracks) && n'.cache.policy == n.cache.policy && n'.epoch == n.epoch
    requires NoMoreLookups(tracks, tracks', id)
    ensures Traced(initial, id, n', tracks')
  {
    var trace, telemetry :| TraceOf(initial, id, n, tracks, trace, telemetry);
    hide Lookups, LooksFrom, Observes, Sequential, Announced;
    forall obj: nat, first: nat ensures LooksFrom(trace, obj, first) == Lookups(tracks', id, obj, first) {
      assert Lookups(tracks', id, obj, first) == Lookups(tracks, id, obj, first);
    }
    assert TraceOf(initial, id, n', tracks', trace, telemetry);
  }

  /** A node starts an epoch. */
  lemma TraceStarts(initial: Policy, id: nat, n: NodeState, n': NodeState, tracks: seq<Track>, epoch: nat,
                    seen: Telemetry)
    requires Traced(initial, id, n, tracks) && (n.epoch.Some? ==> n.epoch.value < epoch)
    requires n'.cache.policy == OnEpochStart(n.cache.policy, epoch, seen) && n'.epoch == Some(epoch)
    ensures Traced(initial, id, n', tracks)
  {
    var trace, telemetry :| TraceOf(initial, id, n, tracks, trace, telemetry);
    var longer := trace + [Start(epoch)];
    hide Lookups, LooksFrom, OnEpochStart, Observes, Sequential, Announced;
    TraceGrows(trace, Start(epoch));
    ObservesMore(n.cache.policy, initial, trace, telemetry, Start(epoch), seen);
    forall obj: nat, first: nat ensures LooksFrom(longer, obj, first) == Lookups(tracks, id, obj, first) {
      LooksGrow(trace, Start(epoch), obj, first);
    }
    assert TraceOf(initial, id, n', tracks, longer, telemetry + [seen]);
  }

  /** A node looks up a request of its epoch. */
  lemma TraceLooks(initial: Policy, id: nat, n: NodeState, n': NodeState, tracks: seq<Track>, i: nat, t: Track,
                   seen: Telemetry)
    requires Traced(initial, id, n, tracks) && i < |tracks| && tracks[i].phase == Looking && t.phase != Looking
    requires var r := t.request;
             && r.source == tracks[i].request.source == id && r.obj == tracks[i].request.obj
             && r.epoch == tracks[i].request.epoch && n.epoch == Some(r.epoch) && n'.epoch == n.epoch
             && n'.cache.policy == OnLookup(n.cache.policy, r.epoch, r.obj, seen)
    ensures Traced(initial, id, n', tracks[i := t])
  {
    var trace, telemetry :| TraceOf(initial, id, n, tracks, trace, telemetry);
    var a := Look(t.request.epoch, t.request.obj);
    var longer, tracks' := trace + [a], tracks[i := t];
    hide LooksFrom, OnLookup, Observes, Sequential, Announced, SumBy;
    TraceGrows(trace, a);
    ObservesMore(n.cache.policy, initial, trace, telemetry, a, seen);
    forall obj: nat, first: nat ensures LooksFrom(longer, obj, first) == Lookups(tracks', id, obj, first) {
      LooksGrow(trace, a, obj, first);
      assert LooksFrom(trace, obj, first) == Lookups(tracks, id, obj, first);
      SumByUpdate(LookedUp(id, obj, first), tracks, i, t);
    }
    assert TraceOf(initial, id, n', tracks', longer, telemetry + [seen]);
  }

  /* ---- Handlers ---- */

  lemma EpochPolicy(cfg: Config, id: nat, n: NodeState, epoch: nat, time: nat, seen: Telemetry)
    ensures StartEpoch(cfg, id, n, epoch, time, seen).cache.policy ==
            if n.epoch == Some(epoch) then n.cache.policy else OnEpochStart(n.cache.policy, epoch, seen)
  {
    hide Install, OnEpochStart;
    var replicas := if cfg.plan.Some? && epoch in cfg.plan.value then cfg.plan.value[epoch] else [];
    InstallSamePolicy(EpochStart(n.cache, epoch, seen), replicas, time, id, epoch);
  }

  lemma GenerateTraced(cfg: Config, initial: Policy, id: nat, n: NodeState, sh: Shared, e: Event)
    requires NextSpec(n).Some? && (n.epoch.Some? ==> n.epoch.value <= NextSpec(n).value.epoch)
    requires Traced(initial, id, n, sh.ledger.tracks)
    ensures Traced(initial, id, NodeGenerate(cfg, id, n, sh, e).value.0, sh.ledger.tracks)
  {
    hide Traced, NodeGenerate, StartEpoch;
    var spec := NextSpec(n).value;
    var base := if cfg.mode == ScheduledBursty then Since(spec.offset, e.time) else n.epochStart;
    GenerateStarts(cfg, id, n, sh, e);
    var n' := NodeGenerate(cfg, id, n, sh, e).value.0;
    EpochPolicy(cfg, id, n.(epochStart := base), spec.epoch, e.time, sh.stats.objects);
    if n.epoch == Some(spec.epoch) {
      NoneMoves(sh.ledger.tracks, id);
      TraceStands(initial, id, n, n', sh.ledger.tracks, sh.ledger.tracks);
    } else {
      TraceStarts(initial, id, n, n', sh.ledger.tracks, spec.epoch, sh.stats.objects);
    }
  }

  lemma NoneMoves(tracks: seq<Track>, id: nat)
    ensures NoMoreLookups(tracks, tracks, id)
  {
  }

  /** What a handler does to the request that it moves. */
  predicate MovesTo(tracks: seq<Track>, tracks': seq<Track>, i: nat) {
    && i < |tracks| == |tracks'| && tracks' == tracks[i := tracks'[i]] && tracks'[i].phase != Looking
    && tracks'[i].request.source == tracks[i].request.source && tracks'[i].request.obj == tracks[i].request.obj
    && tracks'[i].request.epoch == tracks[i].request.epoch
  }

  lemma NodeMovesTo(cfg: Config, id: nat, n: NodeState, sh: Shared, e: Event)
    requires NodeHandle(cfg, id, n, sh, e).Ok? && e.kind != GenerateRequest && Known(sh, e.request)
    requires KindOf(TrackOf(sh, e.request).phase) == e.kind
    ensures var (n', sh') := NodeHandle(cfg, id, n, sh, e).value;
            var r := TrackOf(sh, e.request).request;
            && MovesTo(sh.ledger.tracks, sh'.ledger.tracks, e.request - 1) && n'.epoch == n.epoch
            && n'.cache.policy == if e.kind == LocalCacheLookup
                                  then OnLookup(n.cache.policy, r.epoch, r.obj, sh.stats.objects) else n.cache.policy
  {
    hide Schedule, Stamp, OnLookup, Admit;
    if e.kind == ReturnResponse {
      AdmitSamePolicy(n.cache, TrackOf(sh, e.request).request, e.time);
    }
  }

  lemma MemoryMovesTo(cfg: Config, m: MemoryState, sh: Shared, e: Event)
    requires MemoryShape(cfg, m) && MemoryHandle(cfg, m, sh, e).Ok? && Known(sh, e.request)
    ensures MovesTo(sh.ledger.tracks, MemoryHandle(cfg, m, sh, e).value.1.ledger.tracks, e.request - 1)
  {
    hide Schedule, Stamp, ArrivalStats, RecordQueueWait, RecordMemoryWait, RecordService;
  }

  /* ---- Whole runs ---- */

  ghost predicate RunTraced(cfg: Config, s: State) { AllTraced(cfg, s.nodes, s.shared.ledger.tracks) }

  lemma IssuerEpoch(cfg: Config, s: State, e: Event)
    requires Due(cfg, s, e) && e.kind == GenerateRequest
    ensures e.target in s.nodes && NextSpec(s.nodes[e.target]).Some?
    ensures var n := s.nodes[e.target]; n.epoch.Some? ==> n.epoch.value <= NextSpec(n).value.epoch
  {
    var i := IssuerOf(cfg, s, e);
    assert NodeOk(cfg, s.nodes[e.target], s.released, s.releases);
    NodeStreamValid(cfg, s.nodes, e.target);
  }

  lemma IssueTraced(cfg: Config, s: State, e: Event)
    requires Due(cfg, s, e) && RunTraced(cfg, s) && e.kind == GenerateRequest && Dispatch(cfg, Pick(s, e), e).Ok?
    ensures RunTraced(cfg, Dispatch(cfg, Pick(s, e), e).value)
  {
    hide Traced, NoMoreLookups, NodeGenerate, Core;
    ShapeOf(cfg, s);
    IssuerEpoch(cfg, s, e);
    var tracks, n, p := s.shared.ledger.tracks, s.nodes[e.target], Pick(s, e);
    var d := Dispatch(cfg, p, e).value;
    IssuesNext(cfg, p, e);
    assert Traced(cfg.policy, e.target, n, tracks);
    GenerateTraced(cfg, cfg.policy, e.target, n, Taken(s.shared, e), e);
    forall id | id in d.nodes ensures Traced(cfg.policy, id, d.nodes[id], d.shared.ledger.tracks) {
      assert Traced(cfg.policy, id, s.nodes[id], tracks);
      EntersUnlooked(tracks, d.shared.ledger.tracks[|tracks|], id);
      TraceStands(cfg.policy, id, d.nodes[id], d.nodes[id], tracks, d.shared.ledger.tracks);
    }
  }

  /** A request moves; at most its own node's policy has observed it. */
  lemma MoveTraced(cfg: Config, id: nat, n: NodeState, n': NodeState, tracks: seq<Track>, tracks': seq<Track>, i: nat)
    requires Traced(cfg.policy, id, n, tracks) && MovesTo(tracks, tracks', i)
    requires n'.cache.policy == n.cache.policy && n'.epoch == n.epoch
    requires tracks[i].request.source == id ==> tracks[i].phase != Looking
    ensures Traced(cfg.policy, id, n', tracks')
  {
    hide Traced, NoMoreLookups;
    MovesLooked(tracks, i, tracks'[i], id);
    TraceStands(cfg.policy, id, n, n', tracks, tracks');
  }

  lemma NodeTraced(cfg: Config, s: State, e: Event)
    requires Due(cfg, s, e) && RunTraced(cfg, s) && e.kind != GenerateRequest && e.target in s.nodes
    requires Dispatch(cfg, Pick(s, e), e).Ok?
    ensures RunTraced(cfg, Dispatch(cfg, Pick(s, e), e).value)
  {
    hide Traced, NodeHandle, Core, OnLookup, KindOf;
    ShapeOf(cfg, s);
    PhaseAtNode(cfg, s, e);
    SourceAtNode(cfg, s, e);
    var tracks, n, i := s.shared.ledger.tracks, s.nodes[e.target], e.request - 1;
    var d := Dispatch(cfg, Pick(s, e), e).value;
    var tracks' := d.shared.ledger.tracks;
    NodeMovesTo(cfg, e.target, n, Taken(s.shared, e), e);
    forall id | id in d.nodes ensures Traced(cfg.policy, id, d.nodes[id], tracks') {
      assert Traced(cfg.policy, id, s.nodes[id], tracks);
      if id == e.target && e.kind == LocalCacheLookup {
        LooksUpItsEpoch(cfg, s, e);
        TraceLooks(cfg.policy, id, n, d.nodes[id], tracks, i, tracks'[i], s.shared.stats.objects);
      } else {
        MoveTraced(cfg, id, s.nodes[id], d.nodes[id], tracks, tracks', i);
      }
    }
  }

  /** The request that a node handles is its own, and is at its lookup exactly if the event is one. */
  lemma SourceAtNode(cfg: Config, s: State, e: Event)
    requires Due(cfg, s, e) && e.target in s.nodes && e.kind != GenerateRequest
    ensures Known(s.shared, e.request) && TrackOf(s.shared, e.request).request.source == e.target
    ensures TrackOf(s.shared, e.request).phase == Looking <==> e.kind == LocalCacheLookup
  {
    Addressed(cfg, s, e);
    RequestAtNode(cfg, s.memory, s.shared, s.nodes, e);
  }

  lemma MemoryTraced(cfg: Config, s: State, e: Event)
    requires Due(cfg, s, e) && RunTraced(cfg, s) && e.target !in s.nodes && Dispatch(cfg, Pick(s, e), e).Ok?
    ensures RunTraced(cfg, Dispatch(cfg, Pick(s, e), e).value)
  {
    hide Traced, MemoryHandle, Core;
    ShapeOf(cfg, s);
    PhaseAtMemory(cfg, s, e);
    var tracks, d := s.shared.ledger.tracks, Dispatch(cfg, Pick(s, e), e).value;
    MemoryMovesTo(cfg, s.memory, Taken(s.shared, e), e);
    forall id | id in d.nodes ensures Traced(cfg.policy, id, d.nodes[id], d.shared.ledger.tracks) {
      assert Traced(cfg.policy, id, s.nodes[id], tracks);
      MoveTraced(cfg, id, s.nodes[id], d.nodes[id], tracks, d.shared.ledger.tracks, e.request - 1);
    }
  }

  lemma HandledTraced(cfg: Config, s: State, e: Event)
    requires Due(cfg, s, e) && RunTraced(cfg, s)
    ensures Dispatch(cfg, Pick(s, e), e).Ok? && RunTraced(cfg, Dispatch(cfg, Pick(s, e), e).value)
  {
    hide RunTraced, Dispatch, Core;
    DispatchKeeps(cfg, s, e);
    if e.kind == GenerateRequest {
      IssueTraced(cfg, s, e);
    } else if e.target in s.nodes {
      NodeTraced(cfg, s, e);
    } else {
      MemoryTraced(cfg, s, e);
    }
  }

  lemma ReleaseTraced(cfg: Config, s: State)
    requires RunTraced(cfg, s)
    ensures RunTraced(cfg, Release(cfg, s))
  {
    hide Release, Traced;
    ReleaseSame(cfg, s);
    ReleaseFrame(cfg, s);
    var tracks := s.shared.ledger.tracks;
    forall id | id in s.nodes ensures Traced(cfg.policy, id, Release(cfg, s).nodes[id], tracks) {
      assert SameButGenerating(Release(cfg, s).nodes[id], s.nodes[id]) && Traced(cfg.policy, id, s.nodes[id], tracks);
      NoneMoves(tracks, id);
      TraceStands(cfg.policy, id, s.nodes[id], Release(cfg, s).nodes[id], tracks, tracks);
    }
  }

  lemma TurnTraced(cfg: Config, s: State)
    requires Inv(cfg, s) && RunTraced(cfg, s)
    ensures RunTraced(cfg, Turn(cfg, s))
  {
    if s.shared.queue.pending != {} {
      hide Dispatch, RunTraced, Release;
      HandledTraced(cfg, s, Least(s.shared.queue));
      TurnIsRelease(cfg, s);
      ReleaseTraced(cfg, Handled(cfg, s));
    }
  }

  /** The policy has observed nothing yet. */
  predicate IsFresh(p: Policy) {
    (p.Hotness? ==> p.window == Window(map[], map[])) && (p.ContentionAware? ==> p.state == FreshContention)
  }

  lemma NewNodeTraced(cfg: Config, id: nat, requests: seq<RequestSpec>)
    requires IsFresh(cfg.policy)
    ensures Traced(cfg.policy, id, NewNode(cfg, requests), [])
  {
    assert SameLooks([], [], id);
    assert TraceOf(cfg.policy, id, NewNode(cfg, requests), [], [], []);
  }

  lemma InitialTraced(cfg: Config)
    requires ValidConfig(cfg) && IsFresh(cfg.policy)
    ensures RunTraced(cfg, Initial(cfg))
  {
    hide Traced;
    InitialNodesAre(cfg, |cfg.nodes|);
    forall id | id in Initial(cfg).nodes ensures Traced(cfg.policy, id, Initial(cfg).nodes[id], []) {
      NewNodeTraced(cfg, id, Initial(cfg).nodes[id].requests);
    }
  }

  /**
   * In every reachable state the policy of a node is in the state that some trace of starts and lookups leads to; the
   * trace is in order, announces every epoch once, and has exactly the lookups of the node's own requests.
   */
  lemma {:induction false} PoliciesTraced(cfg: Config, k: nat)
    requires ValidConfig(cfg) && IsFresh(cfg.policy)
    ensures AllTraced(cfg, Run(cfg, k).nodes, Run(cfg, k).shared.ledger.tracks)
  {
    hide Turn, Inv, Core, Release, AllTraced;
    if k == 0 {
      InitialTraced(cfg);
      ReleaseTraced(cfg, Initial(cfg));
    } else {
      PoliciesTraced(cfg, k - 1);
      RunKeeps(cfg, k - 1);
      TurnTraced(cfg, Run(cfg, k - 1));
    }
  }

  /** The first epoch in the window of a node. */
  function FirstOf(n: NodeState, window: nat): nat {
    if n.epoch.None? then 0 else FirstRetained(n.epoch.value, window)
  }

  /** In every reachable state the windowed count of an object is the number of a node's own lookups in the window. */
  lemma WindowsCountLookups(cfg: Config, k: nat, id: nat, obj: nat)
    requires ValidConfig(cfg) && IsFresh(cfg.policy) && id in Run(cfg, k).nodes
    requires cfg.policy.Hotness? && cfg.policy.hotness.mode.Windowed? && cfg.policy.hotness.window > 0
    ensures var s := Run(cfg, k);
            var n := s.nodes[id];
            && n.cache.policy.Hotness?
            && CountIn(n.cache.policy.window.counts, obj) ==
               Lookups(s.shared.ledger.tracks, id, obj, FirstOf(n, cfg.policy.hotness.window))
  {
    hide Run;
    PoliciesTraced(cfg, k);
    var s := Run(cfg, k);
    assert Traced(cfg.policy, id, s.nodes[id], s.shared.ledger.tracks);
    var trace, telemetry :| TraceOf(cfg.policy, id, s.nodes[id], s.shared.ledger.tracks, trace, telemetry);
    WindowedCount(cfg.policy.hotness, trace, obj);
  }

  /** So is the count by which a contention policy confirms. */
  lemma ConfirmationsCountLookups(cfg: Config, k: nat, id: nat, obj: nat)
    requires ValidConfig(cfg) && IsFresh(cfg.policy) && id in Run(cfg, k).nodes
    requires cfg.policy.ContentionAware? && cfg.policy.contention.Confirms()
    ensures var s := Run(cfg, k);
            var n := s.nodes[id];
            && n.cache.policy.ContentionAware?
            && CountIn(n.cache.policy.state.confirmations.counts, obj) ==
               Lookups(s.shared.ledger.tracks, id, obj, FirstOf(n, cfg.policy.contention.ConfirmationWindow()))
  {
    hide Run;
    PoliciesTraced(cfg, k);
    var s := Run(cfg, k);
    assert Traced(cfg.policy, id, s.nodes[id], s.shared.ledger.tracks);
    var trace, telemetry :| TraceOf(cfg.policy, id, s.nodes[id], s.shared.ledger.tracks, trace, telemetry);
    ConfirmationCount(cfg.policy.contention, trace, telemetry, obj);
  }

  /** The epoch that a node is in, before the first of which it has looked up nothing. */
  function EpochOf(n: NodeState): nat { if n.epoch.None? then 0 else n.epoch.value }

  /**
   * Without a window, the count of an object is the number of a node's own lookups of it: in the epoch the node is in,
   * or in all epochs if counts are kept.
   */
  lemma CountsAreLookups(cfg: Config, k: nat, id: nat, obj: nat)
    requires ValidConfig(cfg) && IsFresh(cfg.policy) && id in Run(cfg, k).nodes
    requires cfg.policy.Hotness? && !cfg.policy.hotness.mode.Windowed?
    ensures var s := Run(cfg, k);
            var n := s.nodes[id];
            && n.cache.policy.Hotness?
            && CountIn(n.cache.policy.window.counts, obj) ==
               Lookups(s.shared.ledger.tracks, id, obj, if cfg.policy.hotness.mode.EpochOnly? then EpochOf(n) else 0)
  {
    hide Run;
    PoliciesTraced(cfg, k);
    var s := Run(cfg, k);
    assert Traced(cfg.policy, id, s.nodes[id], s.shared.ledger.tracks);
    var trace, telemetry :| TraceOf(cfg.policy, id, s.nodes[id], s.shared.ledger.tracks, trace, telemetry);
    if cfg.policy.hotness.mode.EpochOnly? {
      EpochCount(cfg.policy.hotness, trace, obj);
      SinceStartIsEpoch(trace, obj);
    } else {
      CumulativeCount(cfg.policy.hotness, trace, obj);
    }
  }

  /** So is the local count of a contention policy, with or without a reset at every epoch. */
  lemma LocalCountsLookups(cfg: Config, k: nat, id: nat, obj: nat)
    requires ValidConfig(cfg) && IsFresh(cfg.policy) && id in Run(cfg, k).nodes && cfg.policy.ContentionAware?
    ensures var s := Run(cfg, k);
            var n := s.nodes[id];
            && n.cache.policy.ContentionAware?
            && CountIn(n.cache.policy.state.local, obj) ==
               Lookups(s.shared.ledger.tracks, id, obj,
                       if cfg.policy.contention.resetOnEpochChange then EpochOf(n) else 0)
  {
    hide Run;
    PoliciesTraced(cfg, k);
    var s := Run(cfg, k);
    assert Traced(cfg.policy, id, s.nodes[id], s.shared.ledger.tracks);
    var trace, telemetry :| TraceOf(cfg.policy, id, s.nodes[id], s.shared.ledger.tracks, trace, telemetry);
    LocalCount(cfg.policy.contention, trace, telemetry, obj);
  }
}
