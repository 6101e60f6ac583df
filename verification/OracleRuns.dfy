/** Under the oracle plan a run has exactly the local hits that the installed objects cover. */
module OracleRuns {
  import opened Model
  import opened Totals
  import opened Policies
  import opened Cache
  import opened CacheLaws
  import opened Scheduling
  import opened Statistics
  import opened Protocol
  import opened Invariants
  import opened Releases
  import opened Steps
  import opened Runs
  import opened Barriers
  import opened Telemetries
  import opened Oracle
  import opened Choices

  /* ---- Every stream's requests are the requests that run ---- */

  /** A measure of requests, taken on the requests that have been issued. */
  function OnTracks(epoch: nat, objs: set<nat>): Track -> nat {
    (t: Track) => if t.request.epoch == epoch && t.request.obj in objs then 1 else 0
  }

  /** The requests that the first `k` nodes have issued, of one epoch and for one of the given objects. */
  ghost function IssuedCovers(cfg: Config, nodes: map<nat, NodeState>, k: nat, epoch: nat, objs: set<nat>): nat
    requires k <= |cfg.nodes|
  {
    if k == 0 then 0
    else
      IssuedCovers(cfg, nodes, k - 1, epoch, objs) +
      IssuedBy(nodes, cfg.nodes[k - 1], epoch, objs)
  }

  ghost function IssuedBy(nodes: map<nat, NodeState>, node: NodeConfig, epoch: nat, objs: set<nat>): nat {
    if node.id in nodes && nodes[node.id].next <= |node.requests|
    then SumBy(Covers(epoch, objs), node.requests[..nodes[node.id].next]) else 0
  }

  ghost predicate Accounted(cfg: Config, s: State, epoch: nat, objs: set<nat>) {
    SumBy(OnTracks(epoch, objs), s.shared.ledger.tracks) == IssuedCovers(cfg, s.nodes, |cfg.nodes|, epoch, objs)
  }

  lemma {:induction false} IssuedKept(cfg: Config, nodes: map<nat, NodeState>, nodes': map<nat, NodeState>, k: nat,
                                      epoch: nat, objs: set<nat>)
    requires k <= |cfg.nodes| && nodes'.Keys == nodes.Keys
    requires forall id :: id in nodes ==> nodes'[id].next == nodes[id].next
    ensures IssuedCovers(cfg, nodes', k, epoch, objs) == IssuedCovers(cfg, nodes, k, epoch, objs)
  {
    if k > 0 {
      IssuedKept(cfg, nodes, nodes', k - 1, epoch, objs);
    }
  }

  lemma {:induction false} OneMoreIssued(cfg: Config, nodes: map<nat, NodeState>, i: nat, n: NodeState, k: nat,
                                         epoch: nat, objs: set<nat>)
    requires i < |cfg.nodes| && k <= |cfg.nodes| && cfg.nodes[i].id in nodes
    requires forall a, b :: 0 <= a < b < |cfg.nodes| ==> cfg.nodes[a].id != cfg.nodes[b].id
    requires n.next == nodes[cfg.nodes[i].id].next + 1 <= |cfg.nodes[i].requests|
    ensures IssuedCovers(cfg, nodes[cfg.nodes[i].id := n], k, epoch, objs) ==
            IssuedCovers(cfg, nodes, k, epoch, objs) +
            (if i < k then Covers(epoch, objs)(cfg.nodes[i].requests[n.next - 1]) else 0)
  {
    if k > 0 {
      OneMoreIssued(cfg, nodes, i, n, k - 1, epoch, objs);
      if i == k - 1 {
        var requests := cfg.nodes[i].requests;
        assert requests[..n.next] == requests[..n.next - 1] + [requests[n.next - 1]];
        SumByAppend(Covers(epoch, objs), requests[..n.next - 1], requests[n.next - 1]);
      }
    }
  }

  /** A handler that is not to issue a request moves one, and keeps what it is for. */
  lemma MovesSame(cfg: Config, s: State, e: Event)
    requires MemoryShape(cfg, s.memory) && Dispatch(cfg, s, e).Ok? && Known(s.shared, e.request)
    requires e.kind != GenerateRequest
    ensures var d := Dispatch(cfg, s, e).value;
            var tracks, tracks', i := s.shared.ledger.tracks, d.shared.ledger.tracks, e.request - 1;
            && |tracks'| == |tracks| && tracks' == tracks[i := tracks'[i]]
            && tracks'[i].request.obj == tracks[i].request.obj && tracks'[i].request.epoch == tracks[i].request.epoch
            && d.nodes.Keys == s.nodes.Keys && (forall id :: id in s.nodes ==> d.nodes[id].next == s.nodes[id].next)
  {
    hide Schedule, Stamp, Lookup, Admit, ArrivalStats, RecordQueueWait, RecordService, RecordMemoryWait;
  }

  lemma MoveAccounted(cfg: Config, s: State, e: Event, epoch: nat, objs: set<nat>)
    requires MemoryShape(cfg, s.memory) && Dispatch(cfg, s, e).Ok? && Known(s.shared, e.request)
    requires e.kind != GenerateRequest && Accounted(cfg, s, epoch, objs)
    ensures Accounted(cfg, Dispatch(cfg, s, e).value, epoch, objs)
  {
    hide Dispatch;
    MovesSame(cfg, s, e);
    var d, i := Dispatch(cfg, s, e).value, e.request - 1;
    SumByUpdate(OnTracks(epoch, objs), s.shared.ledger.tracks, i, d.shared.ledger.tracks[i]);
    IssuedKept(cfg, s.nodes, d.nodes, |cfg.nodes|, epoch, objs);
  }

  lemma IssuesNext(cfg: Config, s: State, e: Event)
    requires MemoryShape(cfg, s.memory) && Dispatch(cfg, s, e).Ok? && e.kind == GenerateRequest && e.target in s.nodes
    requires NextSpec(s.nodes[e.target]).Some?
    ensures var d, n := Dispatch(cfg, s, e).value, s.nodes[e.target];
            var tracks, tracks' := s.shared.ledger.tracks, d.shared.ledger.tracks;
            && |tracks'| == |tracks| + 1 && tracks' == tracks + [tracks'[|tracks|]]
            && tracks'[|tracks|].phase == Looking
            && tracks'[|tracks|].request.obj == n.requests[n.next].obj
            && tracks'[|tracks|].request.epoch == n.requests[n.next].epoch
            && e.target in d.nodes && d.nodes[e.target].next == n.next + 1
            && d.nodes == s.nodes[e.target := d.nodes[e.target]]
  {
    hide Schedule, Stamp, StartEpoch;
  }

  lemma IssueAccounted(cfg: Config, s: State, e: Event, i: nat, epoch: nat, objs: set<nat>)
    requires ValidConfig(cfg) && MemoryShape(cfg, s.memory) && Dispatch(cfg, s, e).Ok? && e.kind == GenerateRequest
    requires i < |cfg.nodes| && cfg.nodes[i].id == e.target && e.target in s.nodes
    requires s.nodes[e.target].requests == cfg.nodes[i].requests && NextSpec(s.nodes[e.target]).Some?
    requires Accounted(cfg, s, epoch, objs)
    ensures Accounted(cfg, Dispatch(cfg, s, e).value, epoch, objs)
  {
    hide Dispatch;
    IssuesNext(cfg, s, e);
    var d, tracks := Dispatch(cfg, s, e).value, s.shared.ledger.tracks;
    SumByAppend(OnTracks(epoch, objs), tracks, d.shared.ledger.tracks[|tracks|]);
    OneMoreIssued(cfg, s.nodes, i, d.nodes[e.target], |cfg.nodes|, epoch, objs);
  }

  lemma IssuerOf(cfg: Config, s: State, e: Event) returns (i: nat)
    requires Due(cfg, s, e) && e.kind == GenerateRequest
    ensures i < |cfg.nodes| && cfg.nodes[i].id == e.target && e.target in s.nodes
    ensures s.nodes[e.target].requests == cfg.nodes[i].requests && NextSpec(s.nodes[e.target]).Some?
  {
    Addressed(cfg, s, e);
    assert Owned(cfg, s.shared.ledger.tracks, s.memory, s.nodes, e);
    assert NodeOk(cfg, s.nodes[e.target], s.released, s.releases);
    i :| 0 <= i < |cfg.nodes| && cfg.nodes[i].id == e.target;
  }

  lemma RequestKnown(cfg: Config, s: State, e: Event)
    requires Due(cfg, s, e) && e.kind != GenerateRequest
    ensures Known(s.shared, e.request)
  {
    assert Owned(cfg, s.shared.ledger.tracks, s.memory, s.nodes, e);
  }

  lemma TurnAccounted(cfg: Config, s: State, epoch: nat, objs: set<nat>)
    requires Inv(cfg, s) && Accounted(cfg, s, epoch, objs)
    ensures Accounted(cfg, Turn(cfg, s), epoch, objs)
  {
    hide Accounted;
    if s.shared.queue.pending != {} {
      var e := Least(s.shared.queue);
      DispatchKeeps(cfg, s, e);
      PickAccounted(cfg, s, e, epoch, objs);
      if e.kind == GenerateRequest {
        var i := IssuerOf(cfg, s, e);
        IssueAccounted(cfg, Pick(s, e), e, i, epoch, objs);
      } else {
        RequestKnown(cfg, s, e);
        MoveAccounted(cfg, Pick(s, e), e, epoch, objs);
      }
      TurnIsRelease(cfg, s);
      ReleaseAccounted(cfg, Handled(cfg, s), epoch, objs);
    }
  }

  lemma PickAccounted(cfg: Config, s: State, e: Event, epoch: nat, objs: set<nat>)
    requires Accounted(cfg, s, epoch, objs)
    ensures Accounted(cfg, Pick(s, e), epoch, objs)
  {
  }

  lemma ReleaseAccounted(cfg: Config, s: State, epoch: nat, objs: set<nat>)
    requires Accounted(cfg, s, epoch, objs)
    ensures Accounted(cfg, Release(cfg, s), epoch, objs)
  {
    hide Release;
    ReleaseFrame(cfg, s);
    ReleaseSame(cfg, s);
    var r := Release(cfg, s);
    forall id | id in s.nodes ensures r.nodes[id].next == s.nodes[id].next {
      assert SameButGenerating(r.nodes[id], s.nodes[id]);
    }
    IssuedKept(cfg, s.nodes, r.nodes, |cfg.nodes|, epoch, objs);
  }

  lemma {:induction false} NothingIssued(cfg: Config, k: nat, epoch: nat, objs: set<nat>)
    requires ValidConfig(cfg) && k <= |cfg.nodes|
    ensures IssuedCovers(cfg, InitialNodes(cfg, |cfg.nodes|), k, epoch, objs) == 0
  {
    if k > 0 {
      NothingIssued(cfg, k - 1, epoch, objs);
      InitialNodesAre(cfg, |cfg.nodes|);
    }
  }

  lemma {:induction false} RunAccounted(cfg: Config, k: nat, epoch: nat, objs: set<nat>)
    requires ValidConfig(cfg)
    ensures Accounted(cfg, Run(cfg, k), epoch, objs)
  {
    hide Turn, Inv, Core, Release, Accounted;
    if k == 0 {
      InitialAccounted(cfg, epoch, objs);
      ReleaseAccounted(cfg, Initial(cfg), epoch, objs);
    } else {
      RunAccounted(cfg, k - 1, epoch, objs);
      RunKeeps(cfg, k - 1);
      TurnAccounted(cfg, Run(cfg, k - 1), epoch, objs);
    }
  }

  lemma InitialAccounted(cfg: Config, epoch: nat, objs: set<nat>)
    requires ValidConfig(cfg)
    ensures Accounted(cfg, Initial(cfg), epoch, objs)
  {
    NothingIssued(cfg, |cfg.nodes|, epoch, objs);
  }

  /* ---- Within an epoch the residents are the installed replicas ---- */

  /** The oracle policy runs with the plan of this configuration's streams. */
  ghost predicate RunsOracle(cfg: Config) {
    cfg.policy == GlobalHottest && cfg.plan.Some? && IsPlan(cfg.nodes, cfg.plan.value)
  }

  /** The objects that every node holds throughout an epoch. */
  function Residents(cfg: Config, epoch: nat): set<nat> {
    if cfg.plan.Some? then Installed(cfg.capacity, 0, {}, PlannedFor(cfg.plan.value, epoch)) else {}
  }

  ghost predicate HoldsReplicas(cfg: Config, n: NodeState) {
    n.cache.policy == GlobalHottest && n.cache.capacity == cfg.capacity &&
    (n.epoch.Some? ==> n.cache.entries.Keys == Residents(cfg, n.epoch.value))
  }

  predicate HitIfResident(cfg: Config, t: Track) {
    t.phase != Looking ==> (t.hit <==> t.request.obj in Residents(cfg, t.request.epoch))
  }

  ghost predicate Replicated(cfg: Config, s: State) {
    (forall id {:trigger HoldsReplicas(cfg, s.nodes[id])} :: id in s.nodes ==> HoldsReplicas(cfg, s.nodes[id])) &&
    (forall i {:trigger HitIfResident(cfg, s.shared.ledger.tracks[i])} ::
       0 <= i < |s.shared.ledger.tracks| ==> HitIfResident(cfg, s.shared.ledger.tracks[i]))
  }

  lemma StartEpochReplicates(cfg: Config, id: nat, n: NodeState, epoch: nat, time: nat, telemetry: Telemetry)
    requires RunsOracle(cfg) && HoldsReplicas(cfg, n)
    ensures HoldsReplicas(cfg, StartEpoch(cfg, id, n, epoch, time, telemetry))
    ensures StartEpoch(cfg, id, n, epoch, time, telemetry).epoch == Some(epoch)
  {
    hide Install, Installed;
    var replicas := PlannedFor(cfg.plan.value, epoch);
    InstallReplaces(EpochStart(n.cache, epoch, telemetry), replicas, time, id, epoch);
    InstallSamePolicy(EpochStart(n.cache, epoch, telemetry), replicas, time, id, epoch);
  }

  lemma GenerateReplicates(cfg: Config, id: nat, n: NodeState, sh: Shared, e: Event)
    requires RunsOracle(cfg) && HoldsReplicas(cfg, n)
    ensures HoldsReplicas(cfg, NodeGenerate(cfg, id, n, sh, e).value.0)
  {
    hide StartEpoch, Residents;
    if NextSpec(n).Some? {
      var base := if cfg.mode == ScheduledBursty then Since(NextSpec(n).value.offset, e.time) else n.epochStart;
      GenerateStarts(cfg, id, n, sh, e);
      StartEpochReplicates(cfg, id, n.(epochStart := base), NextSpec(n).value.epoch, e.time, sh.stats.objects);
    }
  }

  lemma LookupReplicates(cfg: Config, id: nat, n: NodeState, sh: Shared, e: Event)
    requires HoldsReplicas(cfg, n) && Known(sh, e.request) && n.epoch == Some(TrackOf(sh, e.request).request.epoch)
    requires TrackOf(sh, e.request).phase == Looking && !TrackOf(sh, e.request).hit
    ensures NodeLookup(cfg, id, n, sh, e).Ok?
    ensures var (n', sh') := NodeLookup(cfg, id, n, sh, e).value;
            HoldsReplicas(cfg, n') && Known(sh', e.request) && HitIfResident(cfg, TrackOf(sh', e.request))
  {
    hide Residents, Schedule, Stamp;
    var r := TrackOf(sh, e.request).request.(stage := LocalLookup);
    LookupKeepsKeys(n.cache, r, e.time, sh.stats.objects);
  }

  lemma LookupKeepsKeys(c: CacheState, r: Request, time: nat, telemetry: Telemetry)
    requires c.policy == GlobalHottest
    ensures var d := Lookup(c, r, time, telemetry);
            d.entries.Keys == c.entries.Keys && d.policy == c.policy && d.capacity == c.capacity
  {
  }

  lemma OthersReplicate(cfg: Config, id: nat, n: NodeState, sh: Shared, e: Event)
    requires HoldsReplicas(cfg, n) && e.kind in {LocalCacheHitComplete, ReturnResponse, RequestComplete}
    requires NodeHandle(cfg, id, n, sh, e).Ok? && Known(sh, e.request) && HitIfResident(cfg, TrackOf(sh, e.request))
    requires TrackOf(sh, e.request).phase != Looking
    ensures var (n', sh') := NodeHandle(cfg, id, n, sh, e).value;
            HoldsReplicas(cfg, n') && Known(sh', e.request) && HitIfResident(cfg, TrackOf(sh', e.request))
  {
    hide Residents, Schedule, Stamp;
  }

  lemma MemoryReplicates(cfg: Config, m: MemoryState, sh: Shared, e: Event)
    requires MemoryShape(cfg, m) && MemoryHandle(cfg, m, sh, e).Ok?
    requires Known(sh, e.request) && HitIfResident(cfg, TrackOf(sh, e.request))
    requires TrackOf(sh, e.request).phase != Looking
    ensures var sh' := MemoryHandle(cfg, m, sh, e).value.1;
            Known(sh', e.request) && HitIfResident(cfg, TrackOf(sh', e.request))
  {
    hide Residents, Schedule, Stamp, ArrivalStats, RecordQueueWait, RecordService, RecordMemoryWait;
  }

  /** The changed request and the changed node are all that has to be looked at. */
  lemma OneReplicates(cfg: Config, s: State, e: Event)
    requires MemoryShape(cfg, s.memory) && Dispatch(cfg, s, e).Ok? && e.kind != GenerateRequest && Replicated(cfg, s)
    requires Known(s.shared, e.request)
    requires var d := Dispatch(cfg, s, e).value;
             |d.shared.ledger.tracks| == |s.shared.ledger.tracks| &&
             HitIfResident(cfg, d.shared.ledger.tracks[e.request - 1]) &&
             (e.target in s.nodes ==> e.target in d.nodes && HoldsReplicas(cfg, d.nodes[e.target]))
    ensures Replicated(cfg, Dispatch(cfg, s, e).value)
  {
    MovesSame(cfg, s, e);
    var d := Dispatch(cfg, s, e).value;
    assert forall id :: id in s.nodes && id != e.target ==> d.nodes[id] == s.nodes[id] by { OthersStay(cfg, s, e); }
    hide Dispatch, HoldsReplicas, HitIfResident;
    forall id | id in d.nodes ensures HoldsReplicas(cfg, d.nodes[id]) {
      assert HoldsReplicas(cfg, s.nodes[id]);
    }
    forall i | 0 <= i < |d.shared.ledger.tracks| ensures HitIfResident(cfg, d.shared.ledger.tracks[i]) {
      assert HitIfResident(cfg, s.shared.ledger.tracks[i]);
    }
  }

  lemma OthersStay(cfg: Config, s: State, e: Event)
    requires MemoryShape(cfg, s.memory) && Dispatch(cfg, s, e).Ok?
    ensures forall id :: id in s.nodes && id != e.target ==>
              id in Dispatch(cfg, s, e).value.nodes && Dispatch(cfg, s, e).value.nodes[id] == s.nodes[id]
  {
    hide NodeHandle, MemoryHandle;
  }

  lemma IssueReplicates(cfg: Config, s: State, e: Event)
    requires RunsOracle(cfg) && MemoryShape(cfg, s.memory) && Dispatch(cfg, s, e).Ok? && Replicated(cfg, s)
    requires e.kind == GenerateRequest && e.target in s.nodes && NextSpec(s.nodes[e.target]).Some?
    ensures Replicated(cfg, Dispatch(cfg, s, e).value)
  {
    IssuesNext(cfg, s, e);
    assert HoldsReplicas(cfg, s.nodes[e.target]);
    GenerateReplicates(cfg, e.target, s.nodes[e.target], s.shared, e);
    var d := Dispatch(cfg, s, e).value;
    assert d.nodes[e.target] == NodeGenerate(cfg, e.target, s.nodes[e.target], s.shared, e).value.0;
    hide Dispatch, NodeGenerate, HoldsReplicas;
    forall id | id in d.nodes ensures HoldsReplicas(cfg, d.nodes[id]) {
      assert HoldsReplicas(cfg, s.nodes[id]);
    }
    forall i | 0 <= i < |d.shared.ledger.tracks| ensures HitIfResident(cfg, d.shared.ledger.tracks[i]) {
      assert i < |s.shared.ledger.tracks| ==> HitIfResident(cfg, s.shared.ledger.tracks[i]);
    }
  }

  /** The request that an event belongs to, with its phase. */
  lemma PhaseOf(cfg: Config, s: State, e: Event)
    requires Due(cfg, s, e) && e.kind != GenerateRequest
    ensures Known(s.shared, e.request)
    ensures e.kind == LocalCacheLookup <==> TrackOf(s.shared, e.request).phase == Looking
    ensures e.kind == LocalCacheLookup ==> !TrackOf(s.shared, e.request).hit
  {
    hide Responses, Channels, Streams, OneAtATime, EventsCounted, StatsCounted, CachesSound, CachesExact;
    RequestKnown(cfg, s, e);
    var t := s.shared.ledger.tracks[e.request - 1];
    Addressed(cfg, s, e);
    assert Owned(cfg, s.shared.ledger.tracks, s.memory, s.nodes, e);
    assert TrackToken(cfg, s.shared.queue, e.request - 1, t) && Timed(cfg, t);
    if e.kind == MemoryServiceStart {
      MemoryRequestIsMissing(cfg, s, e);
    }
  }

  lemma DispatchReplicates(cfg: Config, s: State, e: Event)
    requires RunsOracle(cfg) && Due(cfg, s, e) && Replicated(cfg, s)
    ensures Dispatch(cfg, Pick(s, e), e).Ok? && Replicated(cfg, Dispatch(cfg, Pick(s, e), e).value)
  {
    hide Core, HoldsReplicas, HitIfResident, RunsOracle;
    DispatchKeeps(cfg, s, e);
    Addressed(cfg, s, e);
    assert MemoryShape(cfg, s.memory) by { ShapeOf(cfg, s); }
    if e.kind == GenerateRequest {
      var i := IssuerOf(cfg, s, e);
      IssueReplicates(cfg, Pick(s, e), e);
    } else {
      PhaseOf(cfg, s, e);
      var p := Pick(s, e);
      assert HitIfResident(cfg, p.shared.ledger.tracks[e.request - 1]);
      MovesSame(cfg, p, e);
      if e.target !in s.nodes {
        MemoryReplicates(cfg, s.memory, p.shared, e);
      } else {
        assert HoldsReplicas(cfg, p.nodes[e.target]);
        if e.kind == LocalCacheLookup {
          LooksUpItsEpoch(cfg, s, e);
          LookupReplicates(cfg, e.target, s.nodes[e.target], p.shared, e);
        } else {
          OthersReplicate(cfg, e.target, s.nodes[e.target], p.shared, e);
        }
      }
      hide NodeHandle, MemoryHandle;
      OneReplicates(cfg, p, e);
    }
  }

  lemma ReleaseReplicates(cfg: Config, s: State)
    requires Replicated(cfg, s)
    ensures Replicated(cfg, Release(cfg, s))
  {
    hide Release, Residents;
    ReleaseFrame(cfg, s);
    ReleaseSame(cfg, s);
    var r := Release(cfg, s);
    forall id | id in r.nodes ensures HoldsReplicas(cfg, r.nodes[id]) {
      assert SameButGenerating(r.nodes[id], s.nodes[id]) && HoldsReplicas(cfg, s.nodes[id]);
    }
    forall i | 0 <= i < |r.shared.ledger.tracks| ensures HitIfResident(cfg, r.shared.ledger.tracks[i]) {
      assert HitIfResident(cfg, s.shared.ledger.tracks[i]);
    }
  }

  lemma TurnReplicates(cfg: Config, s: State)
    requires RunsOracle(cfg) && Inv(cfg, s) && Replicated(cfg, s)
    ensures Replicated(cfg, Turn(cfg, s))
  {
    hide Replicated;
    if s.shared.queue.pending != {} {
      DispatchReplicates(cfg, s, Least(s.shared.queue));
      TurnIsRelease(cfg, s);
      ReleaseReplicates(cfg, Handled(cfg, s));
    }
  }

  lemma {:induction false} RunReplicates(cfg: Config, k: nat)
    requires ValidConfig(cfg) && RunsOracle(cfg)
    ensures Replicated(cfg, Run(cfg, k))
  {
    hide Turn, Inv, Core, Release, Replicated, RunsOracle;
    if k == 0 {
      InitialReplicated(cfg);
      ReleaseReplicates(cfg, Initial(cfg));
    } else {
      RunReplicates(cfg, k - 1);
      RunKeeps(cfg, k - 1);
      TurnReplicates(cfg, Run(cfg, k - 1));
    }
  }

  lemma InitialReplicated(cfg: Config)
    requires ValidConfig(cfg) && RunsOracle(cfg)
    ensures Replicated(cfg, Initial(cfg))
  {
    hide Residents;
    InitialNodesAre(cfg, |cfg.nodes|);
    var nodes := Initial(cfg).nodes;
    forall id | id in nodes ensures HoldsReplicas(cfg, nodes[id]) {
      var i :| 0 <= i < |cfg.nodes| && cfg.nodes[i].id == id;
    }
  }

  /* ---- Hits ---- */

  function HitsIn(epoch: nat): Track -> nat {
    (t: Track) => if t.hit && t.request.epoch == epoch then 1 else 0
  }

  lemma {:induction false} AllIssuedCovers(cfg: Config, nodes: map<nat, NodeState>, k: nat, epoch: nat, objs: set<nat>)
    requires k <= |cfg.nodes| && Configured(cfg, nodes)
    requires forall id :: id in nodes ==> nodes[id].next == |nodes[id].requests|
    ensures IssuedCovers(cfg, nodes, k, epoch, objs) == Covered(cfg.nodes[..k], epoch, objs)
  {
    hide IssuedBy, NodeCovers;
    if k > 0 {
      AllIssuedCovers(cfg, nodes, k - 1, epoch, objs);
      assert cfg.nodes[..k] == cfg.nodes[..k - 1] + [cfg.nodes[k - 1]];
      SumByAppend(NodeCovers(epoch, objs), cfg.nodes[..k - 1], cfg.nodes[k - 1]);
      AllOfNode(nodes, cfg.nodes[k - 1], epoch, objs);
    }
  }

  lemma AllOfNode(nodes: map<nat, NodeState>, node: NodeConfig, epoch: nat, objs: set<nat>)
    requires node.id in nodes && nodes[node.id].requests == node.requests
    requires nodes[node.id].next == |node.requests|
    ensures IssuedBy(nodes, node, epoch, objs) == NodeCovers(epoch, objs)(node)
  {
    assert node.requests[..|node.requests|] == node.requests;
  }

  lemma FinalConfigured(cfg: Config, s: State)
    requires Inv(cfg, s)
    ensures Configured(cfg, s.nodes)
  {
  }

  lemma HitsAreCovered(cfg: Config, tracks: seq<Track>, epoch: nat)
    requires AllFinished(tracks) && forall i :: 0 <= i < |tracks| ==> HitIfResident(cfg, tracks[i])
    ensures SumBy(HitsIn(epoch), tracks) == SumBy(OnTracks(epoch, Residents(cfg, epoch)), tracks)
  {
    forall t | t in tracks ensures HitsIn(epoch)(t) == OnTracks(epoch, Residents(cfg, epoch))(t) {
      var i :| 0 <= i < |tracks| && tracks[i] == t;
      assert HitIfResident(cfg, tracks[i]);
    }
    SumByEqual(HitsIn(epoch), OnTracks(epoch, Residents(cfg, epoch)), tracks);
  }

  /** In every epoch the local hits of all nodes are exactly the requests that the installed objects cover. */
  lemma OracleHits(cfg: Config, epoch: nat)
    requires ValidConfig(cfg) && RunsOracle(cfg)
    ensures SumBy(HitsIn(epoch), Final(cfg).shared.ledger.tracks) == Covered(cfg.nodes, epoch, Residents(cfg, epoch))
  {
    hide Run, Covered, Residents, RunsOracle;
    var s, objs := Final(cfg), Residents(cfg, epoch);
    RunReplicates(cfg, Turns(cfg));
    RunAccounted(cfg, Turns(cfg), epoch, objs);
    FinalIsFinished(cfg);
    HitsAreCovered(cfg, s.shared.ledger.tracks, epoch);
    assert Configured(cfg, s.nodes) by {
      RunKeeps(cfg, Turns(cfg));
      FinalConfigured(cfg, s);
    }
    AllIssuedCovers(cfg, s.nodes, |cfg.nodes|, epoch, objs);
    assert cfg.nodes[..|cfg.nodes|] == cfg.nodes;
  }

  /** Wherever the installed objects dominate, no other choice that fits could have had more local hits in an epoch. */
  lemma OracleHitsBest(cfg: Config, epoch: nat, other: set<nat>)
    requires ValidConfig(cfg) && RunsOracle(cfg)
    requires var replicas := PlannedFor(cfg.plan.value, epoch);
             Dominates(replicas, Residents(cfg, epoch), cfg.capacity) && Fit(replicas, other, cfg.capacity)
    ensures SumBy(HitsIn(epoch), Final(cfg).shared.ledger.tracks) >= Covered(cfg.nodes, epoch, other)
  {
    hide Run, Covered, Dominates, Fit, RankedByDemand;
    OracleHits(cfg, epoch);
    if epoch in cfg.plan.value {
      DominantIsOptimal(cfg.nodes, epoch, cfg.plan.value[epoch], Residents(cfg, epoch), cfg.capacity);
    } else {
      NoRequestsNothingCovered(cfg.nodes, epoch, other);
    }
  }

  /** With objects of one size, no other choice of objects that fits could have had more local hits in an epoch. */
  lemma OracleHitsMost(cfg: Config, epoch: nat, size: nat, other: set<nat>)
    requires ValidConfig(cfg) && RunsOracle(cfg) && SameSize(cfg.nodes, epoch, size) && |other| * size <= cfg.capacity
    ensures SumBy(HitsIn(epoch), Final(cfg).shared.ledger.tracks) >= Covered(cfg.nodes, epoch, other)
  {
    hide Run, Covered;
    OracleHits(cfg, epoch);
    OracleIsOptimal(cfg.nodes, cfg.plan.value, epoch, size, cfg.capacity, other);
  }
}
