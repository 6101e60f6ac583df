/** Smoothing that makes no difference: over whole runs, a redundantly smoothed policy is the plain one. */
module Smoothing {
  import opened Model
  import opened Policies
  import opened Cache
  import opened Scheduling
  import opened Protocol
  import opened Scoring
  import opened Windows
  import opened Runs

  /* ---- Snapshots ---- */

  /** The two snapshots give every object the same signals; a missing object has none. */
  ghost predicate SameSignals(a: map<nat, Signals>, b: map<nat, Signals>) {
    forall o: nat :: SignalsOf(a, o) == SignalsOf(b, o)
  }

  lemma LargestOfSame(g: Signals -> real, a: map<nat, Signals>, b: map<nat, Signals>, m: real)
    requires SameSignals(a, b) && g(NoSignals) == 0.0 && IsLargest(g, a, m)
    ensures IsLargest(g, b, m)
  {
    forall o | o in b ensures g(b[o]) <= m {
      assert SignalsOf(a, o) == SignalsOf(b, o);
    }
    if m != 0.0 {
      var o :| o in a && g(a[o]) == m;
      assert SignalsOf(a, o) == SignalsOf(b, o);
      assert o in b;
    }
  }

  lemma MaximaOfSame(a: map<nat, Signals>, b: map<nat, Signals>)
    requires SameSignals(a, b)
    ensures MaximaOf(a) == MaximaOf(b)
  {
    var m := MaximaOf(a);
    MaximaAreLargest(a);
    LargestOfSame(Accesses, a, b, m.accesses);
    LargestOfSame(Requesters, a, b, m.requesters);
    LargestOfSame(QueueWait, a, b, m.queueWait);
    LargestOfSame(ServiceTimeOf, a, b, m.serviceTime);
    LargestOfSame(CostPerByte, a, b, m.density);
    MaximaUnique(b, m);
  }

  /** An object without signals scores like a missing one. */
  lemma ScoreOfSame(config: ContentionConfig, other: ContentionConfig, capacity: nat, c: Contention, d: Contention,
                    obj: nat, size: nat)
    requires other == config.(variant := other.variant) && c.local == d.local && c.maxima == d.maxima
    requires SignalsOf(c.snapshot, obj) == SignalsOf(d.snapshot, obj)
    ensures Score(config, capacity, c, obj, size) == Score(other, capacity, d, obj, size)
  {
    assert ComponentsOf(config, capacity, c, obj, size) == ComponentsOf(other, capacity, d, obj, size) by {
      NoSignalsNormalized(c.maxima.accesses);
      NoSignalsNormalized(c.maxima.requesters);
      NoSignalsNormalized(c.maxima.queueWait);
      NoSignalsNormalized(c.maxima.serviceTime);
      NoSignalsNormalized(c.maxima.density);
    }
  }

  lemma {:induction false} ZeroPower(exponent: nat)
    ensures Power(0.0, exponent) == (if exponent == 0 then 1.0 else 0.0)
  {
  }

  lemma NothingAdded(s: Signals, b: ObjectBucket)
    ensures AddSignals(s, b, 0.0) == s
  {
  }

  lemma {:induction false} NoDecayNoHistory(telemetry: Telemetry, epoch: nat, ages: nat)
    requires ages > 0
    ensures SameSignals(Snapshot(telemetry, epoch, ages, 0.0), Snapshot(telemetry, epoch, 1, 0.0))
  {
    if ages > 1 {
      NoDecayNoHistory(telemetry, epoch, ages - 1);
      ZeroPower(ages - 1);
      var before := Snapshot(telemetry, epoch, ages - 1, 0.0);
      forall o: nat ensures SignalsOf(Snapshot(telemetry, epoch, ages, 0.0), o) == SignalsOf(before, o) {
        if epoch >= ages && o in EpochTelemetry(telemetry, epoch - ages) {
          NothingAdded(SignalsOf(before, o), EpochTelemetry(telemetry, epoch - ages)[o]);
        }
      }
    }
  }

  /** Smoothing adds nothing to the epoch before: it looks back no further, or lets everything else decay at once. */
  predicate Redundant(config: ContentionConfig) {
    config.variant == Smoothed && config.historyEpochs > 0 && (config.historyEpochs == 1 || config.decay == 0.0)
  }

  function Plain(config: ContentionConfig): ContentionConfig { config.(variant := V1) }

  lemma RedundantSnapshot(config: ContentionConfig, epoch: nat, telemetry: Telemetry)
    requires Redundant(config)
    ensures var a := Snapshot(telemetry, epoch, config.History(), config.decay);
            var b := Snapshot(telemetry, epoch, 1, config.decay);
            SameSignals(a, b) && MaximaOf(a) == MaximaOf(b)
  {
    if config.historyEpochs != 1 {
      NoDecayNoHistory(telemetry, epoch, config.historyEpochs);
    }
    MaximaOfSame(Snapshot(telemetry, epoch, config.historyEpochs, config.decay),
                 Snapshot(telemetry, epoch, 1, config.decay));
  }

  /* ---- Policies ---- */

  /** The two states differ at most in objects without signals. */
  ghost predicate AlikeStates(c: Contention, d: Contention) {
    c.epoch == d.epoch && c.local == d.local && c.confirmations == d.confirmations &&
    SameSignals(c.snapshot, d.snapshot) && c.maxima == d.maxima
  }

  lemma StartAlike(config: ContentionConfig, c: Contention, d: Contention, epoch: nat, telemetry: Telemetry)
    requires Redundant(config) && AlikeStates(c, d)
    ensures AlikeStates(ContentionEpochStart(config, c, epoch, telemetry),
                        ContentionEpochStart(Plain(config), d, epoch, telemetry))
  {
    hide SameSignals, Snapshot, MaximaOf;
    RedundantSnapshot(config, epoch, telemetry);
  }

  lemma LookAlike(config: ContentionConfig, c: Contention, d: Contention, epoch: nat, obj: nat, telemetry: Telemetry)
    requires Redundant(config) && AlikeStates(c, d)
    ensures AlikeStates(ContentionLookup(config, c, epoch, obj, telemetry),
                        ContentionLookup(Plain(config), d, epoch, obj, telemetry))
  {
    hide SameSignals, ContentionEpochStart;
    StartAlike(config, c, d, epoch, telemetry);
  }

  /** A contention policy with redundant smoothing, and its plain counterpart. */
  ghost predicate AlikePolicies(p: Policy, q: Policy) {
    && p.ContentionAware? && q.ContentionAware? && Redundant(p.contention)
    && q.contention == Plain(p.contention) && q.capacity == p.capacity && AlikeStates(p.state, q.state)
  }

  lemma AlikeWorth(p: Policy, q: Policy, obj: nat, size: nat)
    requires AlikePolicies(p, q)
    ensures Worth(p, obj, size) == Worth(q, obj, size) && Admits(p, obj, size) == Admits(q, obj, size)
  {
    ScoreOfSame(p.contention, q.contention, p.capacity, p.state, q.state, obj, size);
  }

  lemma AlikeVictim(p: Policy, q: Policy, entries: map<nat, Entry>, obj: nat, size: nat)
    requires AlikePolicies(p, q)
    ensures SelectVictim(p, entries, obj, size) == SelectVictim(q, entries, obj, size)
  {
    if entries != map[] {
      var v := Coldest(p, entries);
      forall k | k in entries ensures Worth(p, k, entries[k].size) == Worth(q, k, entries[k].size) {
        AlikeWorth(p, q, k, entries[k].size);
      }
      forall k | k in entries && k != v ensures Colder(q, entries, v, k) {
        assert Colder(p, entries, v, k);
      }
      ColdestUnique(q, entries, v);
      AlikeWorth(p, q, obj, size);
    }
  }

  lemma {:induction false} AlikeAlong(config: ContentionConfig, trace: seq<Access>, telemetry: seq<Telemetry>)
    requires Redundant(config) && |telemetry| == |trace|
    ensures AlikeStates(ContentionAfter(config, trace, telemetry), ContentionAfter(Plain(config), trace, telemetry))
  {
    if trace != [] {
      var n := |trace| - 1;
      AlikeAlong(config, trace[..n], telemetry[..n]);
      var c := ContentionAfter(config, trace[..n], telemetry[..n]);
      var d := ContentionAfter(Plain(config), trace[..n], telemetry[..n]);
      match trace[n]
      case Start(epoch) => StartAlike(config, c, d, epoch, telemetry[n]);
      case Look(epoch, obj) => LookAlike(config, c, d, epoch, obj, telemetry[n]);
    }
  }

  /**
   * With a history of one epoch, or no decay at all, the smoothed policy scores, admits and evicts as the plain one
   * does, after any trace of epoch starts and lookups and whatever telemetry it has read.
   */
  lemma SmoothingAway(config: ContentionConfig, capacity: nat, trace: seq<Access>, telemetry: seq<Telemetry>,
                      entries: map<nat, Entry>, obj: nat, size: nat)
    requires |telemetry| == |trace| && config.variant == Smoothed && config.historyEpochs > 0
    requires config.historyEpochs == 1 || config.decay == 0.0
    ensures var plain := config.(variant := V1);
            var c, d := ContentionAfter(config, trace, telemetry), ContentionAfter(plain, trace, telemetry);
            && Score(config, capacity, c, obj, size) == Score(plain, capacity, d, obj, size)
            && ContentionAdmits(config, capacity, c, obj, size) == ContentionAdmits(plain, capacity, d, obj, size)
            && SelectVictim(ContentionAware(config, capacity, c), entries, obj, size) ==
               SelectVictim(ContentionAware(plain, capacity, d), entries, obj, size)
  {
    AlikeAlong(config, trace, telemetry);
    var p := ContentionAware(config, capacity, ContentionAfter(config, trace, telemetry));
    var q := ContentionAware(Plain(config), capacity, ContentionAfter(Plain(config), trace, telemetry));
    hide ContentionAfter, AlikeStates;
    AlikeWorth(p, q, obj, size);
    AlikeVictim(p, q, entries, obj, size);
  }

  /* ---- Caches ---- */

  /** The two caches differ in their policies only. */
  ghost predicate AlikeCaches(c: CacheState, d: CacheState) {
    AlikePolicies(c.policy, d.policy) && d == c.(policy := d.policy)
  }

  lemma {:induction false} AlikePlans(p: Policy, q: Policy, entries: map<nat, Entry>, occupancy: int, capacity: nat,
                                      r: Request)
    requires AlikePolicies(p, q)
    ensures PlanVictims(p, entries, occupancy, capacity, r) == PlanVictims(q, entries, occupancy, capacity, r)
    decreases |entries|
  {
    hide AlikePolicies, SelectVictim;
    AlikeVictim(p, q, entries, r.obj, r.size);
    var v := SelectVictim(p, entries, r.obj, r.size);
    if v.Some? {
      VictimListed(p, entries, r.obj, r.size);
      AlikePlans(p, q, entries - {v.value}, occupancy - entries[v.value].size, capacity, r);
    }
  }

  lemma VictimListed(p: Policy, entries: map<nat, Entry>, obj: nat, size: nat)
    ensures var v := SelectVictim(p, entries, obj, size); v.Some? ==> v.value in entries
  {
  }

  lemma {:induction false} AlikeEvictions(c: CacheState, p: Policy, victims: seq<nat>, time: nat)
    ensures EvictAll(c.(policy := p), victims, time) == EvictAll(c, victims, time).(policy := p)
    ensures EvictAll(c, victims, time).policy == c.policy
    decreases |victims|
  {
    if victims != [] {
      assert Evict(c.(policy := p), victims[0], time) == Evict(c, victims[0], time).(policy := p);
      AlikeEvictions(Evict(c, victims[0], time), p, victims[1..], time);
    }
  }

  lemma AlikeAdmissions(c: CacheState, d: CacheState, r: Request, time: nat)
    requires AlikeCaches(c, d)
    ensures AlikeCaches(Admit(c, r, time), Admit(d, r, time))
  {
    AlikeWorth(c.policy, d.policy, r.obj, r.size);
    AlikePlans(c.policy, d.policy, c.entries, c.occupancy, c.capacity, r);
    hide Admits, PlanVictims, EvictAll, AlikePolicies;
    AlikeEvictions(c, d.policy, PlanVictims(c.policy, c.entries, c.occupancy, c.capacity, r).victims, time);
    AlikeTouch(c.policy, d.policy, Entry(r.size, time, time), time);
  }

  lemma AlikeTouch(p: Policy, q: Policy, entry: Entry, time: nat)
    requires AlikePolicies(p, q)
    ensures Touch(p, entry, time) == Touch(q, entry, time)
  {
  }

  lemma AlikeLookups(c: CacheState, d: CacheState, r: Request, time: nat, telemetry: Telemetry)
    requires AlikeCaches(c, d)
    ensures AlikeCaches(Lookup(c, r, time, telemetry), Lookup(d, r, time, telemetry))
  {
    hide AlikeStates, ContentionLookup;
    LookAlike(c.policy.contention, c.policy.state, d.policy.state, r.epoch, r.obj, telemetry);
  }

  lemma AlikeStarts(c: CacheState, d: CacheState, epoch: nat, telemetry: Telemetry)
    requires AlikeCaches(c, d)
    ensures AlikeCaches(EpochStart(c, epoch, telemetry), EpochStart(d, epoch, telemetry))
  {
    hide AlikeStates, ContentionEpochStart;
    StartAlike(c.policy.contention, c.policy.state, d.policy.state, epoch, telemetry);
  }

  lemma {:induction false} AlikeInstalled(c: CacheState, p: Policy, replicas: seq<Replica>, time: nat, node: nat,
                                          epoch: nat)
    ensures InstallFrom(c.(policy := p), replicas, time, node, epoch) ==
            InstallFrom(c, replicas, time, node, epoch).(policy := p)
    ensures InstallFrom(c, replicas, time, node, epoch).policy == c.policy
    decreases |replicas|
  {
    if replicas != [] {
      var first := replicas[0];
      var placed := Place(c, first.obj, Entry(first.size, time, time), ReplicaRecord(first, time, node, epoch));
      AlikeInstalled(c, p, replicas[1..], time, node, epoch);
      AlikeInstalled(placed, p, replicas[1..], time, node, epoch);
    }
  }

  lemma AlikeInstalls(c: CacheState, d: CacheState, replicas: seq<Replica>, time: nat, node: nat, epoch: nat)
    requires AlikeCaches(c, d)
    ensures AlikeCaches(Install(c, replicas, time, node, epoch), Install(d, replicas, time, node, epoch))
  {
    hide InstallFrom, AlikePolicies;
    assert Clear(d, time) == Clear(c, time).(policy := d.policy);
    AlikeInstalled(Clear(c, time), d.policy, replicas, time, node, epoch);
  }

  /* ---- Nodes ---- */

  ghost predicate AlikeNodes(n: NodeState, m: NodeState) {
    AlikeCaches(n.cache, m.cache) && m == n.(cache := m.cache)
  }

  /** Two configurations that differ in the policy only. */
  predicate SameButPolicy(cfg: Config, other: Config) { other == cfg.(policy := other.policy) }

  lemma AlikeEpochs(cfg: Config, other: Config, id: nat, n: NodeState, m: NodeState, epoch: nat, time: nat,
                    telemetry: Telemetry)
    requires SameButPolicy(cfg, other) && AlikeNodes(n, m)
    ensures AlikeNodes(StartEpoch(cfg, id, n, epoch, time, telemetry), StartEpoch(other, id, m, epoch, time, telemetry))
  {
    hide AlikeCaches, EpochStart, Install;
    if n.epoch != Some(epoch) {
      AlikeStarts(n.cache, m.cache, epoch, telemetry);
      if cfg.plan.Some? {
        AlikeInstalls(EpochStart(n.cache, epoch, telemetry), EpochStart(m.cache, epoch, telemetry),
                      if epoch in cfg.plan.value then cfg.plan.value[epoch] else [], time, id, epoch);
      }
    }
  }

  /** The two handlers fail alike, or move alike nodes alike and the shared state the same way. */
  ghost predicate AlikeOutcomes(a: Outcome<(NodeState, Shared)>, b: Outcome<(NodeState, Shared)>) {
    a.Ok? == b.Ok? && (a.Fault? ==> a.kind == b.kind) &&
    (a.Ok? ==> AlikeNodes(a.value.0, b.value.0) && a.value.1 == b.value.1)
  }

  lemma AlikeGenerates(cfg: Config, other: Config, id: nat, n: NodeState, m: NodeState, sh: Shared, e: Event)
    requires SameButPolicy(cfg, other) && AlikeNodes(n, m)
    ensures AlikeOutcomes(NodeGenerate(cfg, id, n, sh, e), NodeGenerate(other, id, m, sh, e))
  {
    hide AlikeCaches, StartEpoch, Schedule, Stamp;
    if NextSpec(n).Some? {
      var spec := NextSpec(n).value;
      var base := if cfg.mode == ScheduledBursty then Since(spec.offset, e.time) else n.epochStart;
      AlikeEpochs(cfg, other, id, n.(epochStart := base), m.(epochStart := base), spec.epoch, e.time,
                  sh.stats.objects);
    }
  }

  lemma AlikeHandles(cfg: Config, other: Config, id: nat, n: NodeState, m: NodeState, sh: Shared, e: Event)
    requires SameButPolicy(cfg, other) && AlikeNodes(n, m)
    ensures AlikeOutcomes(NodeHandle(cfg, id, n, sh, e), NodeHandle(other, id, m, sh, e))
  {
    hide AlikeCaches, NodeGenerate, Lookup, Admit, Schedule, Stamp, AlikePolicies;
    match e.kind {
      case GenerateRequest => AlikeGenerates(cfg, other, id, n, m, sh, e);
      case LocalCacheLookup =>
        if Known(sh, e.request) {
          AlikeLookups(n.cache, m.cache, TrackOf(sh, e.request).request.(stage := LocalLookup), e.time,
                       sh.stats.objects);
          SameEntries(n.cache, m.cache);
        }
      case ReturnResponse =>
        if Known(sh, e.request) {
          AlikeAdmissions(n.cache, m.cache, TrackOf(sh, e.request).request, e.time);
        }
      case _ =>
    }
  }

  lemma SameEntries(c: CacheState, d: CacheState)
    requires AlikeCaches(c, d)
    ensures c.entries == d.entries
  {
  }

  /* ---- Runs ---- */

  /** The two states differ in the policies of the nodes' caches only. */
  ghost predicate AlikeRuns(s: State, t: State) {
    && t == s.(nodes := t.nodes) && t.nodes.Keys == s.nodes.Keys
    && forall id {:trigger AlikeNodes(s.nodes[id], t.nodes[id])} :: id in s.nodes ==>
         AlikeNodes(s.nodes[id], t.nodes[id])
  }

  lemma AlikeNodeSet(s: State, t: State, id: nat, n: NodeState, m: NodeState)
    requires AlikeRuns(s, t) && AlikeNodes(n, m)
    ensures AlikeRuns(s.(nodes := s.nodes[id := n]), t.(nodes := t.nodes[id := m]))
  {
    hide AlikeNodes;
    var a, b := s.nodes[id := n], t.nodes[id := m];
    forall k | k in a ensures AlikeNodes(a[k], b[k]) {
      assert k != id ==> AlikeNodes(s.nodes[k], t.nodes[k]);
    }
  }

  lemma SameMemory(cfg: Config, other: Config, m: MemoryState, sh: Shared, e: Event)
    requires SameButPolicy(cfg, other) && MemoryShape(cfg, m)
    ensures MemoryHandle(cfg, m, sh, e) == MemoryHandle(other, m, sh, e)
  {
  }

  lemma AlikeDispatches(cfg: Config, other: Config, s: State, t: State, e: Event)
    requires SameButPolicy(cfg, other) && AlikeRuns(s, t) && MemoryShape(cfg, s.memory)
    ensures Dispatch(cfg, s, e).Ok? == Dispatch(other, t, e).Ok?
    ensures Dispatch(cfg, s, e).Ok? ==> AlikeRuns(Dispatch(cfg, s, e).value, Dispatch(other, t, e).value)
  {
    hide AlikeNodes, NodeHandle, MemoryHandle;
    if e.target in s.nodes {
      assert AlikeNodes(s.nodes[e.target], t.nodes[e.target]);
      AlikeHandles(cfg, other, e.target, s.nodes[e.target], t.nodes[e.target], s.shared, e);
      var a := NodeHandle(cfg, e.target, s.nodes[e.target], s.shared, e);
      if a.Ok? {
        var b := NodeHandle(other, e.target, t.nodes[e.target], t.shared, e);
        var log := s.log + [EventRecord(e.time, e.kind, e.target, e.request)];
        AlikeNodeSet(s.(shared := a.value.1, log := log), t.(shared := b.value.1, log := log), e.target, a.value.0,
                     b.value.0);
      }
    } else {
      SameMemory(cfg, other, s.memory, s.shared, e);
    }
  }

  lemma SameWork(s: State, t: State, id: nat)
    requires AlikeRuns(s, t)
    ensures id in s.nodes ==>
              s.nodes[id].outstanding == t.nodes[id].outstanding && NextSpec(s.nodes[id]) == NextSpec(t.nodes[id])
  {
    if id in s.nodes {
      assert AlikeNodes(s.nodes[id], t.nodes[id]);
    }
  }

  lemma {:induction false} SameNextEpoch(cfg: Config, other: Config, s: State, t: State, k: nat)
    requires SameButPolicy(cfg, other) && AlikeRuns(s, t) && k <= |cfg.nodes|
    ensures NextEpoch(cfg, s, k) == NextEpoch(other, t, k)
  {
    hide AlikeRuns;
    if k > 0 {
      SameNextEpoch(cfg, other, s, t, k - 1);
      SameKeys(s, t);
      SameWork(s, t, cfg.nodes[k - 1].id);
    }
  }

  lemma SameKeys(s: State, t: State)
    requires AlikeRuns(s, t)
    ensures s.nodes.Keys == t.nodes.Keys && s.shared == t.shared && s.released == t.released
  {
  }

  lemma AlikeNodeReleases(s: State, t: State, id: nat, epoch: nat)
    requires AlikeRuns(s, t)
    ensures AlikeRuns(ReleaseNode(s, id, epoch), ReleaseNode(t, id, epoch))
  {
    hide AlikeCaches, Schedule, Stamp;
    SameWork(s, t, id);
    if id in s.nodes && NextSpec(s.nodes[id]).Some? && NextSpec(s.nodes[id]).value.epoch == epoch {
      assert AlikeNodes(s.nodes[id], t.nodes[id]);
      var queue := s.shared.queue;
      var e := GenerateEvent(id, queue.now + NextSpec(s.nodes[id]).value.offset);
      var sh := s.shared.(queue := Schedule(queue, e));
      AlikeNodeSet(s.(shared := sh), t.(shared := sh), id, s.nodes[id].(generating := Some(Stamp(queue, e))),
                   t.nodes[id].(generating := Some(Stamp(queue, e))));
    }
  }

  lemma {:induction false} AlikeEpochReleases(cfg: Config, other: Config, s: State, t: State, epoch: nat, k: nat)
    requires SameButPolicy(cfg, other) && AlikeRuns(s, t) && k <= |cfg.nodes|
    ensures AlikeRuns(ReleaseNodes(cfg, s, epoch, k), ReleaseNodes(other, t, epoch, k))
  {
    hide AlikeRuns, ReleaseNode;
    if k > 0 {
      AlikeEpochReleases(cfg, other, s, t, epoch, k - 1);
      AlikeNodeReleases(ReleaseNodes(cfg, s, epoch, k - 1), ReleaseNodes(other, t, epoch, k - 1),
                        cfg.nodes[k - 1].id, epoch);
    }
  }

  lemma AlikeReleases(cfg: Config, other: Config, s: State, t: State)
    requires SameButPolicy(cfg, other) && AlikeRuns(s, t)
    ensures AlikeRuns(Release(cfg, s), Release(other, t))
  {
    hide AlikeNodes, NextEpoch, ReleaseNodes;
    SameNextEpoch(cfg, other, s, t, |cfg.nodes|);
    forall id | id in s.nodes ensures s.nodes[id].outstanding == t.nodes[id].outstanding {
      SameWork(s, t, id);
    }
    var next := NextEpoch(cfg, s, |cfg.nodes|);
    if next.Some? {
      var releases := s.releases[next.value := s.shared.queue.now];
      AlikeEpochReleases(cfg, other, s.(released := next, releases := releases),
                         t.(released := next, releases := releases), next.value, |cfg.nodes|);
    }
  }

  lemma AlikeTurns(cfg: Config, other: Config, s: State, t: State)
    requires SameButPolicy(cfg, other) && AlikeRuns(s, t)
    ensures AlikeRuns(Turn(cfg, s), Turn(other, t))
  {
    hide AlikeNodes, Dispatch, Release;
    if MemoryShape(cfg, s.memory) && Orderly(s.shared.queue) && s.shared.queue.pending != {} {
      var e, popped := Least(s.shared.queue), s.shared.(queue := Pop(s.shared.queue));
      AlikeDispatches(cfg, other, s.(shared := popped), t.(shared := popped), e);
      var d := Dispatch(cfg, s.(shared := popped), e);
      if d.Ok? {
        AlikeReleases(cfg, other, d.value, Dispatch(other, t.(shared := popped), e).value);
      }
    }
  }

  lemma {:induction false} AlikeInitialNodes(cfg: Config, other: Config, k: nat)
    requires SameButPolicy(cfg, other) && AlikePolicies(cfg.policy, other.policy) && k <= |cfg.nodes|
    ensures var a, b := InitialNodes(cfg, k), InitialNodes(other, k);
            a.Keys == b.Keys && forall id :: id in a ==> AlikeNodes(a[id], b[id])
  {
    hide AlikePolicies;
    if k > 0 {
      AlikeInitialNodes(cfg, other, k - 1);
      assert AlikeNodes(NewNode(cfg, cfg.nodes[k - 1].requests), NewNode(other, cfg.nodes[k - 1].requests));
    }
  }

  /** The same configuration, except that its contention policy does not smooth. */
  function PlainConfig(cfg: Config): Config
    requires cfg.policy.ContentionAware?
  {
    cfg.(policy := cfg.policy.(contention := Plain(cfg.policy.contention)))
  }

  /**
   * A run under a contention policy whose smoothing is redundant is, event by event, the run under the plain policy:
   * every state is the same except for the policies' own states, which score all objects alike.
   */
  lemma {:induction false} SmoothedRunIsPlain(cfg: Config, k: nat)
    requires cfg.policy.ContentionAware? && Redundant(cfg.policy.contention)
    ensures AlikeRuns(Run(cfg, k), Run(PlainConfig(cfg), k))
  {
    hide Turn, Release, AlikeRuns;
    if k == 0 {
      InitialAlike(cfg);
      AlikeReleases(cfg, PlainConfig(cfg), Initial(cfg), Initial(PlainConfig(cfg)));
    } else {
      SmoothedRunIsPlain(cfg, k - 1);
      AlikeTurns(cfg, PlainConfig(cfg), Run(cfg, k - 1), Run(PlainConfig(cfg), k - 1));
    }
  }

  lemma InitialAlike(cfg: Config)
    requires cfg.policy.ContentionAware? && Redundant(cfg.policy.contention)
    ensures AlikeRuns(Initial(cfg), Initial(PlainConfig(cfg)))
  {
    hide AlikeNodes, InitialNodes;
    AlikeInitialNodes(cfg, PlainConfig(cfg), |cfg.nodes|);
  }

  /** In particular, both runs end with the same log, responses, statistics and resident objects. */
  lemma SmoothedOutcomeIsPlain(cfg: Config)
    requires cfg.policy.ContentionAware? && Redundant(cfg.policy.contention)
    ensures var s, t := Final(cfg), Final(PlainConfig(cfg));
            && s.log == t.log && s.shared == t.shared && s.nodes.Keys == t.nodes.Keys
            && forall id :: id in s.nodes ==>
                 s.nodes[id].cache.entries == t.nodes[id].cache.entries &&
                 s.nodes[id].cache.records == t.nodes[id].cache.records
  {
    hide Run;
    SmoothedRunIsPlain(cfg, Turns(cfg));
    var s, t := Final(cfg), Final(PlainConfig(cfg));
    forall id | id in s.nodes
      ensures s.nodes[id].cache.entries == t.nodes[id].cache.entries &&
              s.nodes[id].cache.records == t.nodes[id].cache.records
    {
      assert AlikeNodes(s.nodes[id], t.nodes[id]);
    }
  }
}
