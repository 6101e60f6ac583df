/** What a contention policy reads at the start of an epoch is the final telemetry of the epochs before it. */
module Telemetries {
  import opened Model
  import opened Policies
  import opened Cache
  import opened CacheLaws
  import opened Scheduling
  import opened Statistics
  import opened Protocol
  import opened Invariants
  import opened HandlerTokens
  import opened Releases
  import opened Steps
  import opened Runs
  import opened Barriers

  /* ---- Telemetry of earlier epochs is frozen ---- */

  /** The two agree on every epoch before `epoch`. */
  predicate AgreeBefore(a: Telemetry, b: Telemetry, epoch: nat) {
    forall e: nat :: e < epoch ==> EpochTelemetry(a, e) == EpochTelemetry(b, e)
  }

  lemma PutAgrees(objects: Telemetry, epoch: nat, obj: nat, b: ObjectBucket)
    ensures AgreeBefore(objects, Put(objects, epoch, obj, b), epoch)
  {
  }

  lemma MemoryWritesItsEpoch(cfg: Config, m: MemoryState, sh: Shared, e: Event)
    requires MemoryShape(cfg, m) && MemoryHandle(cfg, m, sh, e).Ok?
    ensures Known(sh, e.request)
    ensures var epoch := TrackOf(sh, e.request).request.epoch;
            exists obj, b :: MemoryHandle(cfg, m, sh, e).value.1.stats.objects == Put(sh.stats.objects, epoch, obj, b)
  {
    hide Schedule, Stamp, Put, AccessedObject, WaitedObject, ServedObject, AccessedChannel, WaitedChannel,
         ServedChannel;
    var r := TrackOf(sh, e.request).request;
    var objects' := MemoryHandle(cfg, m, sh, e).value.1.stats.objects;
    if e.kind == ForwardToMemory {
      var c := ChannelOf(r.obj, cfg.channels);
      var q, depth := r.(enqueueTime := e.time), |m.channels[c].queued + [e.request]|;
      assert objects' == Put(sh.stats.objects, r.epoch, r.obj, AccessedObject(ObserveDepth(sh.stats, depth), q, depth));
    } else if e.kind == MemoryServiceStart {
      var q, wait := r.(stage := WaitingForResponse), Since(r.enqueueTime, e.time);
      assert objects' == Put(sh.stats.objects, r.epoch, r.obj, WaitedObject(RecordMemoryWait(sh.stats, wait), q, wait));
    } else {
      var service := ServiceTime(cfg, r.size);
      assert objects' == Put(sh.stats.objects, r.epoch, r.obj, ServedObject(sh.stats, r, service));
    }
  }

  lemma DispatchWrites(cfg: Config, s: State, e: Event, epoch: nat)
    requires MemoryShape(cfg, s.memory) && Dispatch(cfg, s, e).Ok?
    requires e.target !in s.nodes && Known(s.shared, e.request) ==> TrackOf(s.shared, e.request).request.epoch >= epoch
    ensures AgreeBefore(s.shared.stats.objects, Dispatch(cfg, s, e).value.shared.stats.objects, epoch)
  {
    hide NodeHandle, MemoryHandle;
    if e.target in s.nodes {
      NodesRecordNothing(cfg, e.target, s.nodes[e.target], s.shared, e);
    } else {
      MemoryWritesItsEpoch(cfg, s.memory, s.shared, e);
      var obj, b :| Dispatch(cfg, s, e).value.shared.stats.objects ==
                    Put(s.shared.stats.objects, TrackOf(s.shared, e.request).request.epoch, obj, b);
      PutAgrees(s.shared.stats.objects, TrackOf(s.shared, e.request).request.epoch, obj, b);
    }
  }

  /** A request that comes to memory belongs to the released epoch. */
  lemma MemoryServesReleased(cfg: Config, s: State, e: Event)
    requires Due(cfg, s, e) && e.target !in s.nodes
    ensures Known(s.shared, e.request) && s.released == Some(TrackOf(s.shared, e.request).request.epoch)
  {
    Addressed(cfg, s, e);
    MemoryRequestIsMissing(cfg, s, e);
    assert Issued(cfg, s.shared.ledger.tracks[e.request - 1], s.nodes, s.released, s.releases);
  }

  function ReleasedBound(s: State): nat { if s.released.Some? then s.released.value else 0 }

  lemma TurnAgrees(cfg: Config, s: State)
    requires Inv(cfg, s)
    ensures AgreeBefore(s.shared.stats.objects, Turn(cfg, s).shared.stats.objects, ReleasedBound(s))
  {
    if s.shared.queue.pending != {} {
      var e := Least(s.shared.queue);
      if e.target !in s.nodes {
        MemoryServesReleased(cfg, s, e);
      }
      DispatchKeeps(cfg, s, e);
      DispatchWrites(cfg, Pick(s, e), e, ReleasedBound(s));
      TurnIsRelease(cfg, s);
      ReleaseSame(cfg, Handled(cfg, s));
    }
  }

  /** Telemetry of the epochs before the released one never changes again. */
  lemma {:induction false} TelemetryFrozen(cfg: Config, k: nat, l: nat)
    requires ValidConfig(cfg) && k <= l
    ensures var s, t := Run(cfg, k), Run(cfg, l);
            AgreeBefore(s.shared.stats.objects, t.shared.stats.objects, ReleasedBound(s))
    decreases l - k
  {
    hide Turn, Inv, Core;
    if k < l {
      RunKeeps(cfg, k);
      TurnAgrees(cfg, Run(cfg, k));
      TelemetryFrozen(cfg, k + 1, l);
      ReleasesStand(cfg, k, k + 1);
    }
  }

  /* ---- Snapshots ---- */

  lemma {:induction false} SnapshotLooksBack(a: Telemetry, b: Telemetry, epoch: nat, ages: nat, decay: real)
    requires AgreeBefore(a, b, epoch)
    ensures Snapshot(a, epoch, ages, decay) == Snapshot(b, epoch, ages, decay)
  {
    if ages > 0 {
      SnapshotLooksBack(a, b, epoch, ages - 1, decay);
    }
  }

  /** A policy of this configuration; one that has taken a snapshot took it of this telemetry. */
  ghost predicate SnapshotOf(p: Policy, initial: Policy, epoch: Option<nat>, telemetry: Telemetry) {
    initial.ContentionAware? ==>
      && p.ContentionAware? && p.contention == initial.contention && p.capacity == initial.capacity
      && p.state.epoch == epoch
      && (epoch.Some? ==>
            && p.state.snapshot == Snapshot(telemetry, epoch.value, p.contention.History(), p.contention.decay)
            && p.state.maxima == MaximaOf(p.state.snapshot))
  }

  lemma SnapshotStands(p: Policy, initial: Policy, epoch: Option<nat>, a: Telemetry, b: Telemetry, bound: nat)
    requires SnapshotOf(p, initial, epoch, a) && AgreeBefore(a, b, bound) && (epoch.Some? ==> epoch.value <= bound)
    ensures SnapshotOf(p, initial, epoch, b)
  {
    if epoch.Some? && initial.ContentionAware? {
      SnapshotLooksBack(a, b, epoch.value, p.contention.History(), p.contention.decay);
    }
  }

  ghost predicate Snapshots(cfg: Config, s: State) {
    cfg.policy.ContentionAware? && cfg.policy.state.epoch.None? ==>
      forall id
        {:trigger SnapshotOf(s.nodes[id].cache.policy, cfg.policy, s.nodes[id].epoch, s.shared.stats.objects)} ::
        id in s.nodes ==> SnapshotOf(s.nodes[id].cache.policy, cfg.policy, s.nodes[id].epoch, s.shared.stats.objects)
  }

  lemma EpochStartSnapshots(cfg: Config, id: nat, n: NodeState, epoch: nat, time: nat, telemetry: Telemetry)
    requires cfg.policy.ContentionAware? && SnapshotOf(n.cache.policy, cfg.policy, n.epoch, telemetry)
    ensures var n' := StartEpoch(cfg, id, n, epoch, time, telemetry);
            SnapshotOf(n'.cache.policy, cfg.policy, Some(epoch), telemetry)
  {
    hide Snapshot, MaximaOf, Prune, Install;
    var replicas := if cfg.plan.Some? && epoch in cfg.plan.value then cfg.plan.value[epoch] else [];
    InstallSamePolicy(EpochStart(n.cache, epoch, telemetry), replicas, time, id, epoch);
  }

  lemma GenerateStarts(cfg: Config, id: nat, n: NodeState, sh: Shared, e: Event)
    requires NextSpec(n).Some?
    ensures NodeGenerate(cfg, id, n, sh, e).Ok?
    ensures var (n', sh') := NodeGenerate(cfg, id, n, sh, e).value;
            var epoch := NextSpec(n).value.epoch;
            var base := if cfg.mode == ScheduledBursty then Since(NextSpec(n).value.offset, e.time) else n.epochStart;
            && n'.cache == StartEpoch(cfg, id, n.(epochStart := base), epoch, e.time, sh.stats.objects).cache
            && n'.epoch == Some(epoch) && sh'.stats == sh.stats
  {
    hide EpochStart, Install;
  }

  lemma LookupSnapshots(p: Policy, initial: Policy, epoch: nat, obj: nat, telemetry: Telemetry)
    requires initial.ContentionAware? && SnapshotOf(p, initial, Some(epoch), telemetry)
    ensures SnapshotOf(OnLookup(p, epoch, obj, telemetry), initial, Some(epoch), telemetry)
  {
    hide Snapshot, MaximaOf, Prune, Bump;
  }

  lemma NodeSnapshots(cfg: Config, id: nat, n: NodeState, sh: Shared, e: Event)
    requires NodeHandle(cfg, id, n, sh, e).Ok?
    requires cfg.policy.ContentionAware? && SnapshotOf(n.cache.policy, cfg.policy, n.epoch, sh.stats.objects)
    requires e.kind == LocalCacheLookup && Known(sh, e.request) ==>
               n.epoch == Some(TrackOf(sh, e.request).request.epoch)
    ensures var (n', sh') := NodeHandle(cfg, id, n, sh, e).value;
            SnapshotOf(n'.cache.policy, cfg.policy, n'.epoch, sh'.stats.objects)
  {
    hide SnapshotOf, StartEpoch, OnLookup, Admit;
    match e.kind
    case GenerateRequest =>
      if NextSpec(n).Some? {
        var base := if cfg.mode == ScheduledBursty then Since(NextSpec(n).value.offset, e.time) else n.epochStart;
        GenerateStarts(cfg, id, n, sh, e);
        EpochStartSnapshots(cfg, id, n.(epochStart := base), NextSpec(n).value.epoch, e.time, sh.stats.objects);
      }
    case LocalCacheLookup =>
      var r := TrackOf(sh, e.request).request;
      LookupSnapshots(n.cache.policy, cfg.policy, r.epoch, r.obj, sh.stats.objects);
    case ReturnResponse => AdmitSamePolicy(n.cache, TrackOf(sh, e.request).request, e.time);
    case _ =>
  }

  /** The request that a node looks up belongs to the epoch that the node is in. */
  lemma LooksUpItsEpoch(cfg: Config, s: State, e: Event)
    requires Due(cfg, s, e) && e.kind == LocalCacheLookup
    ensures e.target in s.nodes && Known(s.shared, e.request)
    ensures s.nodes[e.target].epoch == Some(TrackOf(s.shared, e.request).request.epoch)
  {
    Addressed(cfg, s, e);
    RequestAtNode(cfg, s.memory, s.shared, s.nodes, e);
    NodeStreamValid(cfg, s.nodes, e.target);
    var n, t := s.nodes[e.target], s.shared.ledger.tracks[e.request - 1];
    assert Issued(cfg, t, s.nodes, s.released, s.releases) && NodeOk(cfg, n, s.released, s.releases);
    assert n.requests[t.index].epoch <= n.requests[n.next - 1].epoch;
  }

  lemma DispatchSnapshots(cfg: Config, s: State, e: Event)
    requires MemoryShape(cfg, s.memory) && Dispatch(cfg, s, e).Ok? && Snapshots(cfg, s)
    requires e.kind == LocalCacheLookup && e.target in s.nodes && Known(s.shared, e.request) ==>
               s.nodes[e.target].epoch == Some(TrackOf(s.shared, e.request).request.epoch)
    requires AgreeBefore(s.shared.stats.objects, Dispatch(cfg, s, e).value.shared.stats.objects, ReleasedBound(s))
    requires forall id :: id in s.nodes && s.nodes[id].epoch.Some? ==> s.nodes[id].epoch.value <= ReleasedBound(s)
    ensures Snapshots(cfg, Dispatch(cfg, s, e).value)
  {
    if cfg.policy.ContentionAware? && cfg.policy.state.epoch.None? {
      var d := Dispatch(cfg, s, e).value;
      if e.target in s.nodes {
        NodeSnapshots(cfg, e.target, s.nodes[e.target], s.shared, e);
      }
      forall id | id in d.nodes
        ensures SnapshotOf(d.nodes[id].cache.policy, cfg.policy, d.nodes[id].epoch, d.shared.stats.objects)
      {
        assert SnapshotOf(s.nodes[id].cache.policy, cfg.policy, s.nodes[id].epoch, s.shared.stats.objects);
        if id != e.target {
          SnapshotStands(s.nodes[id].cache.policy, cfg.policy, s.nodes[id].epoch, s.shared.stats.objects,
                         d.shared.stats.objects, ReleasedBound(s));
        }
      }
    }
  }

  lemma TurnSnapshots(cfg: Config, s: State)
    requires Inv(cfg, s) && Snapshots(cfg, s)
    ensures Snapshots(cfg, Turn(cfg, s))
  {
    hide SnapshotOf, Core, Dispatch, Release, AgreeBefore;
    ShapeOf(cfg, s);
    if s.shared.queue.pending != {} {
      var e := Least(s.shared.queue);
      if e.kind == LocalCacheLookup {
        LooksUpItsEpoch(cfg, s, e);
      }
      if e.target !in s.nodes {
        MemoryServesReleased(cfg, s, e);
      }
      DispatchKeeps(cfg, s, e);
      DispatchWrites(cfg, Pick(s, e), e, ReleasedBound(s));
      EpochsBounded(cfg, s);
      DispatchSnapshots(cfg, Pick(s, e), e);
      TurnIsRelease(cfg, s);
      ReleaseSnapshots(cfg, Handled(cfg, s));
    }
  }

  lemma EpochsBounded(cfg: Config, s: State)
    requires Inv(cfg, s)
    ensures forall id :: id in s.nodes && s.nodes[id].epoch.Some? ==> s.nodes[id].epoch.value <= ReleasedBound(s)
  {
    forall id | id in s.nodes && s.nodes[id].epoch.Some? ensures s.nodes[id].epoch.value <= ReleasedBound(s) {
      assert NodeOk(cfg, s.nodes[id], s.released, s.releases);
    }
  }

  lemma ReleaseSnapshots(cfg: Config, s: State)
    requires Snapshots(cfg, s)
    ensures Snapshots(cfg, Release(cfg, s))
  {
    var r := Release(cfg, s);
    ReleaseSame(cfg, s);
    if cfg.policy.ContentionAware? && cfg.policy.state.epoch.None? {
      forall id | id in r.nodes
        ensures SnapshotOf(r.nodes[id].cache.policy, cfg.policy, r.nodes[id].epoch, r.shared.stats.objects)
      {
        assert SameButGenerating(r.nodes[id], s.nodes[id]);
        assert SnapshotOf(s.nodes[id].cache.policy, cfg.policy, s.nodes[id].epoch, s.shared.stats.objects);
      }
    }
  }

  lemma {:induction false} SnapshotsHold(cfg: Config, k: nat)
    requires ValidConfig(cfg)
    ensures Snapshots(cfg, Run(cfg, k))
  {
    hide Turn, Inv, Core, Release, Snapshots;
    if k == 0 {
      InitialSnapshots(cfg);
      ReleaseSnapshots(cfg, Initial(cfg));
    } else {
      SnapshotsHold(cfg, k - 1);
      RunKeeps(cfg, k - 1);
      TurnSnapshots(cfg, Run(cfg, k - 1));
    }
  }

  lemma InitialSnapshots(cfg: Config)
    requires ValidConfig(cfg)
    ensures Snapshots(cfg, Initial(cfg))
  {
    InitialNodesAre(cfg, |cfg.nodes|);
    var nodes := Initial(cfg).nodes;
    forall id | id in nodes ensures nodes[id].cache.policy == cfg.policy && nodes[id].epoch == None {
      var i :| 0 <= i < |cfg.nodes| && cfg.nodes[i].id == id;
    }
  }

  /**
   * Whichever node scores by it, and whenever it is used, the snapshot of an epoch is the weighted telemetry of the
   * epochs before it as it stands at the end of the run.
   */
  lemma SnapshotsAreFinal(cfg: Config, k: nat, id: nat)
    requires ValidConfig(cfg) && cfg.policy.ContentionAware? && cfg.policy.state.epoch.None?
    requires k <= Turns(cfg) && id in Run(cfg, k).nodes
    ensures SnapshotOf(Run(cfg, k).nodes[id].cache.policy, cfg.policy, Run(cfg, k).nodes[id].epoch,
                       Final(cfg).shared.stats.objects)
  {
    hide Turn, Core, Inv, Run, SnapshotOf;
    var s := Run(cfg, k);
    SnapshotsHold(cfg, k);
    RunKeeps(cfg, k);
    EpochsBounded(cfg, s);
    TelemetryFrozen(cfg, k, Turns(cfg));
    SnapshotStands(s.nodes[id].cache.policy, cfg.policy, s.nodes[id].epoch, s.shared.stats.objects,
                   Final(cfg).shared.stats.objects, ReleasedBound(s));
  }
}
