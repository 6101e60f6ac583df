/** Every event is paid for by one request, and every counter is the sum over the requests. */
module HandlerCounts {
  import opened Model
  import opened Totals
  import opened Scheduling
  import opened Statistics
  import opened Protocol
  import opened Invariants
  import opened HandlerTokens
  import opened HandlerTimes

  /* ---- Recorded service time ---- */

  lemma RemoteAccessService(s: StatsState, r: Request, c: nat, depth: nat)
    ensures RecordedService(RecordRemoteAccess(s, r, c, depth).objects) == RecordedService(s.objects)
  {
    PutSum(ServiceOf, s.objects, r.epoch, r.obj, NoObject, AccessedObject(s, r, depth));
  }

  lemma ArrivalCounts(s: StatsState, r: Request, c: nat, depth: nat)
    ensures var s' := ArrivalStats(s, r, c, depth);
            && RecordedService(s'.objects) == RecordedService(s.objects)
            && s'.hits == s.hits && s'.misses == s.misses && s'.totalLatency == s.totalLatency
            && s'.totalWait == s.totalWait && s'.latencies == s.latencies
  {
    RemoteAccessService(ObserveDepth(s, depth), r, c, depth);
  }

  lemma QueueWaitService(s: StatsState, r: Request, c: nat, wait: nat)
    ensures RecordedService(RecordQueueWait(s, r, c, wait).objects) == RecordedService(s.objects)
  {
    PutSum(ServiceOf, s.objects, r.epoch, r.obj, NoObject, WaitedObject(s, r, wait));
  }

  lemma ServiceService(s: StatsState, r: Request, c: nat, service: nat)
    ensures RecordedService(RecordService(s, r, c, service).objects) == RecordedService(s.objects) + service
  {
    PutSum(ServiceOf, s.objects, r.epoch, r.obj, NoObject, ServedObject(s, r, service));
  }

  /* ---- Requests that move on ---- */

  ghost predicate Counted(cfg: Config, logged: nat, l: Ledger, nodes: map<nat, NodeState>, stats: StatsState) {
    EventsCounted(cfg, logged, l.tracks, nodes, stats.hits) && StatsCounted(l, stats)
  }

  /** One event moves one request from `s` to `t`, and the counters by the difference. */
  ghost predicate Pays(s: Track, t: Track, stats: StatsState, stats': StatsState) {
    && Remaining(t) + 1 + 3 * IsHit(t) == Remaining(s) + 3 * IsHit(s)
    && stats'.hits + IsHit(s) == stats.hits + IsHit(t)
    && stats'.misses + IsMiss(s) == stats.misses + IsMiss(t)
    && stats'.totalLatency + s.latency == stats.totalLatency + t.latency
    && stats'.totalWait + s.wait == stats.totalWait + t.wait
    && RecordedService(stats'.objects) + s.service == RecordedService(stats.objects) + t.service
  }

  lemma MoveCounts(cfg: Config, logged: nat, l: Ledger, l': Ledger, nodes: map<nat, NodeState>,
                   nodes': map<nat, NodeState>, stats: StatsState, stats': StatsState, i: nat)
    requires Counted(cfg, logged, l, nodes, stats)
    requires i < |l.tracks| == |l'.tracks| && l'.tracks == l.tracks[i := l'.tracks[i]]
    requires Pays(l.tracks[i], l'.tracks[i], stats, stats')
    requires |stats'.latencies| + |l.responses| == |stats.latencies| + |l'.responses|
    requires |l'.responses| + IsAnswered(l.tracks[i]) == |l.responses| + IsAnswered(l'.tracks[i])
    requires Unissued(cfg, nodes', |cfg.nodes|) == Unissued(cfg, nodes, |cfg.nodes|)
    ensures Counted(cfg, logged + 1, l', nodes', stats')
  {
    var t := l'.tracks[i];
    SumByUpdate(Remaining, l.tracks, i, t);
    SumByUpdate(IsHit, l.tracks, i, t);
    SumByUpdate(IsMiss, l.tracks, i, t);
    SumByUpdate(Latency, l.tracks, i, t);
    SumByUpdate(Wait, l.tracks, i, t);
    SumByUpdate(Service, l.tracks, i, t);
    SumByUpdate(IsAnswered, l.tracks, i, t);
  }

  lemma {:induction false} UnissuedSame(cfg: Config, nodes: map<nat, NodeState>, id: nat, n: NodeState, k: nat)
    requires k <= |cfg.nodes| && id in nodes && n.next == nodes[id].next
    ensures Unissued(cfg, nodes[id := n], k) == Unissued(cfg, nodes, k)
  {
    if k > 0 {
      UnissuedSame(cfg, nodes, id, n, k - 1);
    }
  }

  lemma {:induction false} UnissuedLess(cfg: Config, nodes: map<nat, NodeState>, id: nat, n: NodeState, k: nat)
    requires k <= |cfg.nodes| && id in nodes && Configured(cfg, nodes)
    requires forall i, j :: 0 <= i < j < |cfg.nodes| ==> cfg.nodes[i].id != cfg.nodes[j].id
    requires n.next == nodes[id].next + 1 <= |nodes[id].requests|
    ensures Unissued(cfg, nodes[id := n], k) + (if exists i :: 0 <= i < k && cfg.nodes[i].id == id then 1 else 0) ==
            Unissued(cfg, nodes, k)
  {
    if k > 0 {
      UnissuedLess(cfg, nodes, id, n, k - 1);
      assert nodes[cfg.nodes[k - 1].id].requests == cfg.nodes[k - 1].requests;
    }
  }

  /** Memory moves request `i` on, and the counters by the difference; nothing is answered. */
  ghost predicate MovesAndPays(sh: Shared, sh': Shared, i: nat) {
    && i < |sh.ledger.tracks| == |sh'.ledger.tracks|
    && sh'.ledger == sh.ledger.(tracks := sh.ledger.tracks[i := sh'.ledger.tracks[i]])
    && Pays(sh.ledger.tracks[i], sh'.ledger.tracks[i], sh.stats, sh'.stats)
    && sh'.stats.latencies == sh.stats.latencies
    && IsAnswered(sh'.ledger.tracks[i]) == IsAnswered(sh.ledger.tracks[i])
  }

  lemma MemoryCounts(cfg: Config, logged: nat, sh: Shared, sh': Shared, nodes: map<nat, NodeState>, i: nat)
    requires Counted(cfg, logged, sh.ledger, nodes, sh.stats) && MovesAndPays(sh, sh', i)
    ensures Counted(cfg, logged + 1, sh'.ledger, nodes, sh'.stats)
  {
    hide Counted, Pays;
    MoveCounts(cfg, logged, sh.ledger, sh'.ledger, nodes, nodes, sh.stats, sh'.stats, i);
  }

  lemma ForwardPays(cfg: Config, m: MemoryState, sh: Shared, e: Event)
    requires MemoryShape(cfg, m) && Known(sh, e.request)
    requires TrackOf(sh, e.request).phase == Forwarding && Timed(cfg, TrackOf(sh, e.request))
    ensures MemoryForward(cfg, m, sh, e).Ok? && MovesAndPays(sh, MemoryForward(cfg, m, sh, e).value.1, e.request - 1)
  {
    hide ArrivalStats;
    var sh' := MemoryForward(cfg, m, sh, e).value.1;
    var t := sh'.ledger.tracks[e.request - 1];
    var c := ChannelOf(t.request.obj, cfg.channels);
    ArrivalCounts(sh.stats, t.request, c, |m.channels[c].queued + [e.request]|);
  }

  lemma ForwardCounts(cfg: Config, m: MemoryState, sh: Shared, nodes: map<nat, NodeState>, e: Event, logged: nat)
    requires MemoryShape(cfg, m) && AtMemoryNode(cfg, m, sh, nodes, e) && Times(cfg, sh.ledger)
    requires e.kind == ForwardToMemory && Counted(cfg, logged, sh.ledger, nodes, sh.stats)
    ensures MemoryForward(cfg, m, Taken(sh, e), e).Ok?
    ensures var sh' := MemoryForward(cfg, m, Taken(sh, e), e).value.1;
            Counted(cfg, logged + 1, sh'.ledger, nodes, sh'.stats)
  {
    var tracks, i := sh.ledger.tracks, e.request - 1;
    assert Owned(cfg, tracks, m, nodes, e);
    assert TrackToken(cfg, sh.queue, i, tracks[i]) && Timed(cfg, tracks[i]);
    hide MemoryForward, Counted, MovesAndPays;
    ForwardPays(cfg, m, Taken(sh, e), e);
    MemoryCounts(cfg, logged, Taken(sh, e), MemoryForward(cfg, m, Taken(sh, e), e).value.1, nodes, i);
  }

  lemma StartPays(cfg: Config, m: MemoryState, sh: Shared, e: Event)
    requires MemoryShape(cfg, m) && MemoryStart(cfg, m, sh, e).Ok?
    ensures Known(sh, e.request)
    ensures TrackOf(sh, e.request).phase == Queued && Timed(cfg, TrackOf(sh, e.request)) ==>
              MovesAndPays(sh, MemoryStart(cfg, m, sh, e).value.1, e.request - 1)
  {
    hide RecordQueueWait, ServiceTime;
    var sh' := MemoryStart(cfg, m, sh, e).value.1;
    var t := sh'.ledger.tracks[e.request - 1];
    var c := ChannelOf(t.request.obj, cfg.channels);
    QueueWaitService(RecordMemoryWait(sh.stats, t.wait), t.request, c, t.wait);
    QueueWaitCounts(RecordMemoryWait(sh.stats, t.wait), t.request, c, t.wait);
  }

  lemma QueueWaitCounts(s: StatsState, r: Request, c: nat, wait: nat)
    ensures var s' := RecordQueueWait(s, r, c, wait);
            s'.hits == s.hits && s'.misses == s.misses && s'.totalLatency == s.totalLatency &&
            s'.totalWait == s.totalWait && s'.latencies == s.latencies
  {
  }

  lemma StartCounts(cfg: Config, m: MemoryState, sh: Shared, nodes: map<nat, NodeState>, e: Event, logged: nat)
    requires MemoryShape(cfg, m) && AtMemoryNode(cfg, m, sh, nodes, e) && Times(cfg, sh.ledger)
    requires e.kind == MemoryServiceStart && Counted(cfg, logged, sh.ledger, nodes, sh.stats)
    ensures MemoryStart(cfg, m, Taken(sh, e), e).Ok?
    ensures var sh' := MemoryStart(cfg, m, Taken(sh, e), e).value.1;
            Counted(cfg, logged + 1, sh'.ledger, nodes, sh'.stats)
  {
    StartOnTime(cfg, m, sh, nodes, e);
    assert Timed(cfg, sh.ledger.tracks[e.request - 1]) && MemoryStart(cfg, m, Taken(sh, e), e).Ok?;
    hide MemoryStart, Counted, MovesAndPays;
    StartPays(cfg, m, Taken(sh, e), e);
    MemoryCounts(cfg, logged, Taken(sh, e), MemoryStart(cfg, m, Taken(sh, e), e).value.1, nodes, e.request - 1);
  }

  lemma CompletePays(cfg: Config, m: MemoryState, sh: Shared, e: Event)
    requires MemoryShape(cfg, m) && MemoryComplete(cfg, m, sh, e).Ok?
    ensures Known(sh, e.request)
    ensures TrackOf(sh, e.request).phase == Serving && Timed(cfg, TrackOf(sh, e.request)) ==>
              MovesAndPays(sh, MemoryComplete(cfg, m, sh, e).value.1, e.request - 1)
  {
    hide RecordService, ServiceTime, Schedule;
    var r := TrackOf(sh, e.request).request;
    var c, service := ChannelOf(r.obj, cfg.channels), ServiceTime(cfg, r.size);
    ServiceService(sh.stats, r, c, service);
    ServiceCounts(sh.stats, r, c, service);
  }

  lemma ServiceCounts(s: StatsState, r: Request, c: nat, service: nat)
    ensures var s' := RecordService(s, r, c, service);
            s'.hits == s.hits && s'.misses == s.misses && s'.totalLatency == s.totalLatency &&
            s'.totalWait == s.totalWait && s'.latencies == s.latencies
  {
  }

  lemma CompleteCounts(cfg: Config, m: MemoryState, sh: Shared, nodes: map<nat, NodeState>, e: Event, logged: nat)
    requires MemoryShape(cfg, m) && AtMemoryNode(cfg, m, sh, nodes, e) && Times(cfg, sh.ledger)
    requires e.kind == MemoryServiceComplete && Counted(cfg, logged, sh.ledger, nodes, sh.stats)
    ensures MemoryComplete(cfg, m, Taken(sh, e), e).Ok?
    ensures var sh' := MemoryComplete(cfg, m, Taken(sh, e), e).value.1;
            Counted(cfg, logged + 1, sh'.ledger, nodes, sh'.stats)
  {
    var tracks, i := sh.ledger.tracks, e.request - 1;
    assert Owned(cfg, tracks, m, nodes, e);
    assert TrackToken(cfg, sh.queue, i, tracks[i]) && Timed(cfg, tracks[i]);
    ServingIsBusy(cfg, m, sh, i, ChannelOf(tracks[i].request.obj, cfg.channels));
    assert MemoryComplete(cfg, m, Taken(sh, e), e).Ok?;
    hide MemoryComplete, Counted, MovesAndPays;
    CompletePays(cfg, m, Taken(sh, e), e);
    MemoryCounts(cfg, logged, Taken(sh, e), MemoryComplete(cfg, m, Taken(sh, e), e).value.1, nodes, i);
  }

  lemma LookupPays(cfg: Config, n: NodeState, sh: Shared, e: Event)
    requires cfg.bandwidth > 0 && Known(sh, e.request) && TrackOf(sh, e.request).phase == Looking
    requires Timed(cfg, TrackOf(sh, e.request))
    ensures NodeLookup(cfg, e.target, n, sh, e).Ok?
    ensures var (n', sh') := NodeLookup(cfg, e.target, n, sh, e).value;
            && Known(sh', e.request) && n'.next == n.next && sh'.ledger.responses == sh.ledger.responses
            && Pays(TrackOf(sh, e.request), TrackOf(sh', e.request), sh.stats, sh'.stats)
            && !Answered(TrackOf(sh', e.request).phase) && sh'.stats.latencies == sh.stats.latencies
  {
  }

  lemma LookupCounts(cfg: Config, m: MemoryState, sh: Shared, nodes: map<nat, NodeState>, e: Event, logged: nat)
    requires MemoryShape(cfg, m) && AtNode(cfg, m, sh, nodes, e) && Times(cfg, sh.ledger)
    requires e.kind == LocalCacheLookup && Counted(cfg, logged, sh.ledger, nodes, sh.stats)
    ensures NodeLookup(cfg, e.target, nodes[e.target], Taken(sh, e), e).Ok?
    ensures var (n', sh') := NodeLookup(cfg, e.target, nodes[e.target], Taken(sh, e), e).value;
            Counted(cfg, logged + 1, sh'.ledger, nodes[e.target := n'], sh'.stats)
  {
    RequestAtNode(cfg, m, sh, nodes, e);
    var tracks, i := sh.ledger.tracks, e.request - 1;
    assert Timed(cfg, tracks[i]);
    LookupPays(cfg, nodes[e.target], Taken(sh, e), e);
    var (n', sh') := NodeLookup(cfg, e.target, nodes[e.target], Taken(sh, e), e).value;
    assert sh'.ledger.tracks == tracks[i := sh'.ledger.tracks[i]];
    UnissuedSame(cfg, nodes, e.target, n', |cfg.nodes|);
    MoveCounts(cfg, logged, sh.ledger, sh'.ledger, nodes, nodes[e.target := n'], sh.stats, sh'.stats, i);
  }

  lemma RespondCounts(cfg: Config, m: MemoryState, sh: Shared, nodes: map<nat, NodeState>, e: Event,
                      n: NodeState, tier: Tier, bytes: nat, logged: nat)
    requires MemoryShape(cfg, m) && AtNode(cfg, m, sh, nodes, e) && Times(cfg, sh.ledger)
    requires e.kind == LocalCacheHitComplete || e.kind == ReturnResponse
    requires Counted(cfg, logged, sh.ledger, nodes, sh.stats)
    requires Known(Taken(sh, e), e.request) && n == nodes[e.target].(cache := n.cache) && n.outstanding > 0
    ensures var (n', sh') := Respond(e.target, n, Taken(sh, e), e, tier, bytes).value;
            Counted(cfg, logged + 1, sh'.ledger, nodes[e.target := n'], sh'.stats)
  {
    RequestAtNode(cfg, m, sh, nodes, e);
    var tracks, i := sh.ledger.tracks, e.request - 1;
    assert Timed(cfg, tracks[i]);
    var (n', sh') := Respond(e.target, n, Taken(sh, e), e, tier, bytes).value;
    assert sh'.ledger.tracks == tracks[i := sh'.ledger.tracks[i]];
    UnissuedSame(cfg, nodes, e.target, n', |cfg.nodes|);
    MoveCounts(cfg, logged, sh.ledger, sh'.ledger, nodes, nodes[e.target := n'], sh.stats, sh'.stats, i);
  }

  lemma FinishCounts(cfg: Config, m: MemoryState, sh: Shared, nodes: map<nat, NodeState>, e: Event, logged: nat)
    requires MemoryShape(cfg, m) && AtNode(cfg, m, sh, nodes, e)
    requires e.kind == RequestComplete && Counted(cfg, logged, sh.ledger, nodes, sh.stats)
    ensures var (n', sh') := NodeComplete(cfg, e.target, nodes[e.target], Taken(sh, e), e).value;
            Counted(cfg, logged + 1, sh'.ledger, nodes[e.target := n'], sh'.stats)
  {
    RequestAtNode(cfg, m, sh, nodes, e);
    var tracks, i := sh.ledger.tracks, e.request - 1;
    var (n', sh') := NodeComplete(cfg, e.target, nodes[e.target], Taken(sh, e), e).value;
    assert sh'.ledger.tracks == tracks[i := sh'.ledger.tracks[i]];
    UnissuedSame(cfg, nodes, e.target, n', |cfg.nodes|);
    MoveCounts(cfg, logged, sh.ledger, sh'.ledger, nodes, nodes[e.target := n'], sh.stats, sh'.stats, i);
  }

  /** One event enters a new request. */
  lemma EnterCounts(cfg: Config, logged: nat, l: Ledger, nodes: map<nat, NodeState>, nodes': map<nat, NodeState>,
                    stats: StatsState, t: Track)
    requires Counted(cfg, logged, l, nodes, stats)
    requires t.phase == Looking && !t.hit && t.latency == t.wait == t.service == 0
    requires Unissued(cfg, nodes', |cfg.nodes|) + 1 == Unissued(cfg, nodes, |cfg.nodes|)
    ensures Counted(cfg, logged + 1, l.(tracks := l.tracks + [t]), nodes', stats)
  {
    SumByAppend(Remaining, l.tracks, t);
    SumByAppend(IsHit, l.tracks, t);
    SumByAppend(IsMiss, l.tracks, t);
    SumByAppend(Latency, l.tracks, t);
    SumByAppend(Wait, l.tracks, t);
    SumByAppend(Service, l.tracks, t);
    SumByAppend(IsAnswered, l.tracks, t);
  }

  lemma GenerateCounts(cfg: Config, sh: Shared, nodes: map<nat, NodeState>, e: Event, logged: nat)
    requires ValidConfig(cfg) && Configured(cfg, nodes) && e.target in nodes && NextSpec(nodes[e.target]).Some?
    requires Counted(cfg, logged, sh.ledger, nodes, sh.stats)
    ensures var (n', sh') := NodeGenerate(cfg, e.target, nodes[e.target], Taken(sh, e), e).value;
            Counted(cfg, logged + 1, sh'.ledger, nodes[e.target := n'], sh'.stats)
  {
    var (n', sh') := NodeGenerate(cfg, e.target, nodes[e.target], Taken(sh, e), e).value;
    var t := sh'.ledger.tracks[|sh.ledger.tracks|];
    assert sh'.ledger == sh.ledger.(tracks := sh.ledger.tracks + [t]);
    assert n'.next == nodes[e.target].next + 1;
    UnissuedLess(cfg, nodes, e.target, n', |cfg.nodes|);
    assert exists i :: 0 <= i < |cfg.nodes| && cfg.nodes[i].id == e.target;
    EnterCounts(cfg, logged, sh.ledger, nodes, nodes[e.target := n'], sh.stats, t);
  }
}
