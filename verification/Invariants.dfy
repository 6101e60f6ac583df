/** What holds between any two events of a run. */
module Invariants {
  import opened Model
  import opened Totals
  import opened Cache
  import opened Scheduling
  import opened Statistics
  import opened Protocol

  /* ---- Pending events and what they drive ---- */

  predicate Driven(p: Phase) { p != Queued && p != Finished }

  function KindOf(p: Phase): EventKind {
    match p
    case Looking => LocalCacheLookup
    case Hitting => LocalCacheHitComplete
    case Forwarding => ForwardToMemory
    case Queued => MemoryServiceStart
    case Serving => MemoryServiceComplete
    case Returning => ReturnResponse
    case _ => RequestComplete
  }

  function TargetOf(cfg: Config, t: Track): nat {
    if t.phase == Forwarding || t.phase == Serving then cfg.memoryNode else t.request.source
  }

  /** A driven request has its event pending; a queued request waits for its channel. */
  ghost predicate TrackToken(cfg: Config, q: Queue, i: nat, t: Track) {
    t.request.id == i + 1 &&
    (Driven(t.phase) ==> t.event in q.pending && t.event.kind == KindOf(t.phase) &&
                         t.event.target == TargetOf(cfg, t) && t.event.request == i + 1)
  }

  predicate Numbered(tracks: seq<Track>, request: nat) { 1 <= request <= |tracks| }

  /** A scheduled start is pending, for the request at the head of the queue. */
  ghost predicate ChannelToken(cfg: Config, q: Queue, tracks: seq<Track>, c: nat, ch: ChannelState, log: ChannelLog)
    requires cfg.channels > 0
  {
    ch.startScheduled ==>
      && ch.queued != [] && log.start in q.pending && log.start.kind == MemoryServiceStart
      && log.start.target == cfg.memoryNode && log.start.request == ch.queued[0]
      && Numbered(tracks, ch.queued[0])
      && ChannelOf(tracks[ch.queued[0] - 1].request.obj, cfg.channels) == c
  }

  ghost predicate NodeToken(q: Queue, id: nat, n: NodeState) {
    n.generating.Some? ==>
      n.generating.value in q.pending && n.generating.value.kind == GenerateRequest &&
      n.generating.value.target == id
  }

  /** Every pending event is the one that its request, its channel or its node waits for. */
  ghost predicate Owned(cfg: Config, tracks: seq<Track>, m: MemoryState, nodes: map<nat, NodeState>, e: Event)
    requires MemoryShape(cfg, m)
  {
    match e.kind
    case GenerateRequest => e.target in nodes && nodes[e.target].generating == Some(e)
    case MemoryServiceStart =>
      Numbered(tracks, e.request) &&
      var c := ChannelOf(tracks[e.request - 1].request.obj, cfg.channels);
      m.channels[c].startScheduled && m.logs[c].start == e
    case _ => Numbered(tracks, e.request) && Driven(tracks[e.request - 1].phase) && tracks[e.request - 1].event == e
  }

  ghost predicate Tokens(cfg: Config, q: Queue, tracks: seq<Track>, m: MemoryState, nodes: map<nat, NodeState>)
    requires MemoryShape(cfg, m)
  {
    && (forall i {:trigger TrackToken(cfg, q, i, tracks[i])} :: 0 <= i < |tracks| ==> TrackToken(cfg, q, i, tracks[i]))
    && (forall c {:trigger ChannelToken(cfg, q, tracks, c, m.channels[c], m.logs[c])} ::
          0 <= c < cfg.channels ==> ChannelToken(cfg, q, tracks, c, m.channels[c], m.logs[c]))
    && (forall id {:trigger NodeToken(q, id, nodes[id])} :: id in nodes ==> NodeToken(q, id, nodes[id]))
    && (forall e {:trigger Owned(cfg, tracks, m, nodes, e)} :: e in q.pending ==> Owned(cfg, tracks, m, nodes, e))
  }

  /* ---- Times of a request ---- */

  predicate Answered(p: Phase) { p == Finishing || p == Finished }

  /** What the whole journey of a request takes. */
  function LatencyOf(cfg: Config, t: Track): nat
    requires cfg.bandwidth > 0
  {
    if t.hit then cfg.hitLatency else 2 * cfg.linkLatency + t.wait + ServiceTime(cfg, t.request.size)
  }

  /** The times recorded so far, and the time at which the pending event will come. */
  predicate Timed(cfg: Config, t: Track)
    requires cfg.bandwidth > 0
  {
    var issue, link, svc := t.request.issueTime, cfg.linkLatency, ServiceTime(cfg, t.request.size);
    match t.phase
    case Looking => !t.hit && t.event.time == issue && t.wait == t.service == t.latency == 0
    case Hitting => t.hit && t.event.time == issue + cfg.hitLatency && t.wait == t.service == t.latency == 0
    case Forwarding => !t.hit && t.event.time == issue + link && t.wait == t.service == t.latency == 0
    case Queued => !t.hit && t.request.enqueueTime == issue + link && t.wait == t.service == t.latency == 0
    case Serving =>
      !t.hit && t.request.enqueueTime == issue + link && t.event.time == issue + link + t.wait + svc &&
      t.service == t.latency == 0
    case Returning =>
      !t.hit && t.request.enqueueTime == issue + link && t.event.time == issue + link + t.wait + svc + link &&
      t.service == svc && t.latency == 0
    case _ =>
      t.latency == LatencyOf(cfg, t) &&
      if t.hit then t.wait == t.service == 0 else t.service == svc && t.request.enqueueTime == issue + link
  }

  /** The one response of an answered request. */
  predicate HasResponse(t: Track, responses: seq<Response>) {
    Answered(t.phase) ==>
      t.response < |responses| &&
      responses[t.response] == Response(t.request.id, t.request.obj, if t.hit then LocalTier else MemoryTier,
                                        t.request.issueTime + t.latency, t.latency,
                                        if t.hit then 0 else t.request.size)
  }

  /** Response number `k` belongs to a request that names it. */
  predicate Answers(tracks: seq<Track>, r: Response, k: nat) {
    Numbered(tracks, r.request) && Answered(tracks[r.request - 1].phase) && tracks[r.request - 1].response == k
  }

  /** Requests and responses pair off. */
  predicate Responses(l: Ledger) {
    && (forall i {:trigger HasResponse(l.tracks[i], l.responses)} ::
          0 <= i < |l.tracks| ==> HasResponse(l.tracks[i], l.responses))
    && (forall k {:trigger Answers(l.tracks, l.responses[k], k)} ::
          0 <= k < |l.responses| ==> Answers(l.tracks, l.responses[k], k))
  }

  predicate Times(cfg: Config, l: Ledger)
    requires cfg.bandwidth > 0
  {
    forall i {:trigger Timed(cfg, l.tracks[i])} :: 0 <= i < |l.tracks| ==> Timed(cfg, l.tracks[i])
  }

  /* ---- Channels as first-in first-out servers ---- */

  /** When a server that takes its arrivals in order is free of the first `k` of them. */
  function FreeAt(cfg: Config, arrivals: seq<Arrival>, k: nat): nat
    requires cfg.bandwidth > 0 && k <= |arrivals|
  {
    if k == 0 then 0
    else Max(arrivals[k - 1].time, FreeAt(cfg, arrivals, k - 1)) + ServiceTime(cfg, arrivals[k - 1].size)
  }

  function StartAt(cfg: Config, arrivals: seq<Arrival>, k: nat): nat
    requires cfg.bandwidth > 0 && k < |arrivals|
  {
    Max(arrivals[k].time, FreeAt(cfg, arrivals, k))
  }

  predicate AtMemory(t: Track) {
    t.phase == Queued || t.phase == Serving || t.phase == Returning || (Answered(t.phase) && !t.hit)
  }

  /** The request that came to channel `c` as arrival number `i`. */
  predicate Came(cfg: Config, tracks: seq<Track>, a: Arrival, c: nat, i: nat)
    requires cfg.channels > 0
  {
    1 <= a.request <= |tracks| &&
    var t := tracks[a.request - 1];
    AtMemory(t) && t.place == i && ChannelOf(t.request.obj, cfg.channels) == c &&
    t.request.enqueueTime == a.time && t.request.size == a.size
  }

  /** What has been recorded of arrival number `i`: how far it is, and when it started and was done. */
  predicate ArrivalOk(cfg: Config, tracks: seq<Track>, log: ChannelLog, c: nat, i: nat, now: nat)
    requires cfg.channels > 0 && cfg.bandwidth > 0 && i < |log.arrivals|
  {
    var a := log.arrivals[i];
    && Came(cfg, tracks, a, c, i) && a.time <= now
    && (tracks[a.request - 1].phase == Queued <==> i >= |log.starts|)
    && (tracks[a.request - 1].phase == Serving <==> |log.dones| <= i < |log.starts|)
    && (i < |log.starts| ==> log.starts[i] == StartAt(cfg, log.arrivals, i) == a.time + tracks[a.request - 1].wait)
    && (i < |log.dones| ==> log.dones[i] == FreeAt(cfg, log.arrivals, i + 1) <= now)
  }

  predicate InArrivalOrder(arrivals: seq<Arrival>) {
    forall i, j :: 0 <= i < j < |arrivals| ==> arrivals[i].time <= arrivals[j].time
  }

  /** A channel serves its arrivals in order, one at a time, and is never idle while one waits. */
  ghost predicate ChannelOk(cfg: Config, tracks: seq<Track>, ch: ChannelState, log: ChannelLog, c: nat, now: nat)
    requires cfg.channels > 0 && cfg.bandwidth > 0
  {
    var served := |log.starts|;
    && served <= |log.arrivals| && |ch.queued| == |log.arrivals| - served
    && (forall j {:trigger ch.queued[j]} ::
          0 <= j < |ch.queued| ==> ch.queued[j] == log.arrivals[served + j].request)
    && |log.dones| + (if ch.busy then 1 else 0) == served
    && !(ch.busy && ch.startScheduled)
    && (ch.startScheduled ==> ch.queued != []) && (ch.queued != [] ==> ch.startScheduled || ch.busy)
    && (forall i {:trigger ArrivalOk(cfg, tracks, log, c, i, now)} ::
          0 <= i < |log.arrivals| ==> ArrivalOk(cfg, tracks, log, c, i, now))
    && InArrivalOrder(log.arrivals)
    && (ch.startScheduled ==> log.start.time == StartAt(cfg, log.arrivals, served))
  }

  /** A request that came to memory is found at its place among the arrivals of its channel. */
  predicate Located(cfg: Config, m: MemoryState, i: nat, t: Track)
    requires MemoryShape(cfg, m)
  {
    AtMemory(t) ==>
      var log := m.logs[ChannelOf(t.request.obj, cfg.channels)];
      t.place < |log.arrivals| && log.arrivals[t.place].request == i + 1
  }

  ghost predicate Channels(cfg: Config, sh: Shared, m: MemoryState)
    requires MemoryShape(cfg, m)
  {
    && (forall c {:trigger ChannelOk(cfg, sh.ledger.tracks, m.channels[c], m.logs[c], c, sh.queue.now)} ::
          0 <= c < cfg.channels ==> ChannelOk(cfg, sh.ledger.tracks, m.channels[c], m.logs[c], c, sh.queue.now))
    && (forall i {:trigger Located(cfg, m, i, sh.ledger.tracks[i])} ::
          0 <= i < |sh.ledger.tracks| ==> Located(cfg, m, i, sh.ledger.tracks[i]))
  }

  /* ---- Compute nodes, and the barrier between epochs ---- */

  predicate InFlight(t: Track) { !Answered(t.phase) }

  function CountInFlight(tracks: seq<Track>, id: nat): nat {
    if tracks == [] then 0
    else
      var last := tracks[|tracks| - 1];
      CountInFlight(tracks[..|tracks| - 1], id) + (if last.request.source == id && InFlight(last) then 1 else 0)
  }

  predicate Active(t: Track, id: nat) { t.request.source == id && t.phase != Finished }

  ghost predicate SomeActive(tracks: seq<Track>, id: nat) {
    exists i :: 0 <= i < |tracks| && Active(tracks[i], id)
  }

  /** The nodes are the configured ones, each with its configured stream. */
  ghost predicate Configured(cfg: Config, nodes: map<nat, NodeState>) {
    && nodes.Keys == (set i | 0 <= i < |cfg.nodes| :: cfg.nodes[i].id)
    && (forall i :: 0 <= i < |cfg.nodes| ==>
          cfg.nodes[i].id in nodes && nodes[cfg.nodes[i].id].requests == cfg.nodes[i].requests)
  }

  /** Where a node stands in its stream. */
  predicate NodeOk(cfg: Config, n: NodeState, released: Option<nat>, releases: map<nat, nat>) {
    && n.next <= |n.requests|
    && n.epoch == (if n.next == 0 then None else Some(n.requests[n.next - 1].epoch))
    && (n.next > 0 ==> released.Some? && n.requests[n.next - 1].epoch <= released.value)
    && (n.next < |n.requests| && released.Some? ==> n.requests[n.next].epoch >= released.value)
    && (n.generating.Some? ==> n.next < |n.requests| && released == Some(n.requests[n.next].epoch))
    && (released.Some? ==> released.value in releases)
    && (cfg.mode == ScheduledBursty && n.next > 0 ==>
          n.requests[n.next - 1].epoch in releases && n.epochStart == releases[n.requests[n.next - 1].epoch])
    && (cfg.mode == ScheduledBursty && n.generating.Some? ==>
          n.generating.value.time == releases[released.value] + n.requests[n.next].offset)
  }

  /** A node with requests left in the released epoch has something pending that will issue the next one. */
  ghost predicate Progresses(cfg: Config, tracks: seq<Track>, id: nat, n: NodeState, released: Option<nat>) {
    n.next < |n.requests| && released == Some(n.requests[n.next].epoch) ==>
      n.generating.Some? || (cfg.mode == CompletionDriven && SomeActive(tracks, id))
  }

  /** A request was issued by a node from its stream, in an epoch that has been released. */
  predicate Issued(cfg: Config, t: Track, nodes: map<nat, NodeState>, released: Option<nat>,
                   releases: map<nat, nat>)
  {
    t.request.source in nodes &&
    var n := nodes[t.request.source];
    && t.index < n.next <= |n.requests|
    && t.request.obj == n.requests[t.index].obj && t.request.size == n.requests[t.index].size
    && t.request.epoch == n.requests[t.index].epoch
    && released.Some? && t.request.epoch <= released.value
    && (t.phase != Finished ==> t.request.epoch == released.value)
    && (cfg.mode == ScheduledBursty ==>
          t.request.epoch in releases &&
          t.request.issueTime == releases[t.request.epoch] + n.requests[t.index].offset)
  }

  ghost predicate NodesOk(cfg: Config, tracks: seq<Track>, nodes: map<nat, NodeState>, released: Option<nat>,
                          releases: map<nat, nat>)
  {
    && (forall id {:trigger NodeOk(cfg, nodes[id], released, releases)} ::
          id in nodes ==> NodeOk(cfg, nodes[id], released, releases))
    && (forall id {:trigger CountInFlight(tracks, id)} ::
          id in nodes ==> nodes[id].outstanding == CountInFlight(tracks, id))
    && (forall id {:trigger Progresses(cfg, tracks, id, nodes[id], released)} ::
          id in nodes ==> Progresses(cfg, tracks, id, nodes[id], released))
  }

  ghost predicate AllIssued(cfg: Config, tracks: seq<Track>, nodes: map<nat, NodeState>, released: Option<nat>,
                            releases: map<nat, nat>)
  {
    forall i {:trigger Issued(cfg, tracks[i], nodes, released, releases)} ::
      0 <= i < |tracks| ==> Issued(cfg, tracks[i], nodes, released, releases)
  }

  /** A node lists the requests it has issued, in the order of its stream. */
  ghost predicate Listed(tracks: seq<Track>, id: nat, n: NodeState) {
    |n.issued| == n.next &&
    forall k {:trigger n.issued[k]} :: 0 <= k < |n.issued| ==>
      Numbered(tracks, n.issued[k]) &&
      tracks[n.issued[k] - 1].request.source == id && tracks[n.issued[k] - 1].index == k
  }

  ghost predicate AllListed(tracks: seq<Track>, nodes: map<nat, NodeState>) {
    forall id {:trigger Listed(tracks, id, nodes[id])} :: id in nodes ==> Listed(tracks, id, nodes[id])
  }

  /** Streams, nodes and requests agree, and only requests of the released epoch are on their way. */
  ghost predicate Streams(cfg: Config, tracks: seq<Track>, nodes: map<nat, NodeState>, released: Option<nat>,
                          releases: map<nat, nat>)
  {
    Configured(cfg, nodes) && NodesOk(cfg, tracks, nodes, released, releases) &&
    AllIssued(cfg, tracks, nodes, released, releases) && AllListed(tracks, nodes)
  }

  predicate IsGenerating(nodes: map<nat, NodeState>, id: nat) {
    id in nodes && nodes[id].generating.Some?
  }

  predicate NotBoth(tracks: seq<Track>, i: nat, j: nat)
    requires i < |tracks| && j < |tracks|
  {
    i == j || tracks[i].request.source != tracks[j].request.source ||
    tracks[i].phase == Finished || tracks[j].phase == Finished
  }

  /** A node that is about to issue a request has none on its way. */
  predicate IdleToGenerate(nodes: map<nat, NodeState>, t: Track) {
    IsGenerating(nodes, t.request.source) ==> t.phase == Finished
  }

  /** Without planned arrivals, a node has at most one request on its way, and none while it is to issue one. */
  ghost predicate OneAtATime(cfg: Config, tracks: seq<Track>, nodes: map<nat, NodeState>) {
    cfg.mode == CompletionDriven ==>
      && (forall i, j {:trigger NotBoth(tracks, i, j)} ::
            0 <= i < |tracks| && 0 <= j < |tracks| ==> NotBoth(tracks, i, j))
      && (forall i {:trigger IdleToGenerate(nodes, tracks[i])} ::
            0 <= i < |tracks| ==> IdleToGenerate(nodes, tracks[i]))
  }

  /* ---- Counting ---- */

  /** The events still to come for a request, at most. */
  function Remaining(t: Track): nat {
    match t.phase
    case Looking => 6
    case Hitting => 2
    case Forwarding => 5
    case Queued => 4
    case Serving => 3
    case Returning => 2
    case Finishing => 1
    case Finished => 0
  }

  function IsHit(t: Track): nat { if t.hit then 1 else 0 }

  function IsMiss(t: Track): nat { if !t.hit && t.phase != Looking then 1 else 0 }

  function IsAnswered(t: Track): nat { if Answered(t.phase) then 1 else 0 }

  function Wait(t: Track): nat { t.wait }

  function Service(t: Track): nat { t.service }

  function Latency(t: Track): nat { t.latency }

  /** The requests that the first `k` nodes have not issued. */
  function Unissued(cfg: Config, nodes: map<nat, NodeState>, k: nat): nat
    requires k <= |cfg.nodes|
  {
    if k == 0 then 0
    else
      Unissued(cfg, nodes, k - 1) +
      (if cfg.nodes[k - 1].id in nodes then Since(nodes[cfg.nodes[k - 1].id].next, |cfg.nodes[k - 1].requests|) else 0)
  }

  function RequestCount(nodes: seq<NodeConfig>): nat {
    if nodes == [] then 0 else RequestCount(nodes[..|nodes| - 1]) + |nodes[|nodes| - 1].requests|
  }

  /** All recorded remote service time. */
  ghost function RecordedService(objects: Telemetry): nat {
    TableSum(ServiceOf, objects)
  }

  /** Each of the `logged` events, and each still to come, belongs to one request. */
  ghost predicate EventsCounted(cfg: Config, logged: nat, tracks: seq<Track>, nodes: map<nat, NodeState>, hits: nat) {
    && logged + 7 * Unissued(cfg, nodes, |cfg.nodes|) + SumBy(Remaining, tracks) + 3 * hits ==
       7 * RequestCount(cfg.nodes)
    && Unissued(cfg, nodes, |cfg.nodes|) + |tracks| == RequestCount(cfg.nodes)
  }

  /** The counters are sums over the requests. */
  ghost predicate StatsCounted(l: Ledger, stats: StatsState) {
    && stats.hits == SumBy(IsHit, l.tracks)
    && stats.misses == SumBy(IsMiss, l.tracks)
    && stats.totalLatency == SumBy(Latency, l.tracks)
    && stats.totalWait == SumBy(Wait, l.tracks)
    && RecordedService(stats.objects) == SumBy(Service, l.tracks)
    && |stats.latencies| == |l.responses| == SumBy(IsAnswered, l.tracks)
  }

  /* ---- Caches ---- */

  ghost predicate CachesSound(nodes: map<nat, NodeState>) {
    forall id {:trigger Sound(nodes[id].cache)} :: id in nodes ==> Sound(nodes[id].cache)
  }

  /** Without planned arrivals the object of a miss stays absent until its response is admitted. */
  ghost predicate CachesExact(cfg: Config, tracks: seq<Track>, nodes: map<nat, NodeState>) {
    cfg.mode == CompletionDriven ==>
      && (forall id {:trigger Exact(nodes[id].cache)} :: id in nodes ==> Exact(nodes[id].cache))
      && (forall i {:trigger AbsentWhileMissing(nodes, tracks[i])} ::
            0 <= i < |tracks| ==> AbsentWhileMissing(nodes, tracks[i]))
  }

  predicate AbsentWhileMissing(nodes: map<nat, NodeState>, t: Track) {
    t.phase in {Forwarding, Queued, Serving, Returning} && t.request.source in nodes ==>
      t.request.obj !in nodes[t.request.source].cache.entries
  }

  /* ---- All together ---- */

  /** Holds at every point between two handlers. */
  ghost predicate Core(cfg: Config, s: State) {
    && ValidConfig(cfg) && MemoryShape(cfg, s.memory)
    && Orderly(s.shared.queue) && s.shared.queue.refused == 0
    && Tokens(cfg, s.shared.queue, s.shared.ledger.tracks, s.memory, s.nodes)
    && Times(cfg, s.shared.ledger)
    && Responses(s.shared.ledger)
    && Channels(cfg, s.shared, s.memory)
    && Streams(cfg, s.shared.ledger.tracks, s.nodes, s.released, s.releases)
    && OneAtATime(cfg, s.shared.ledger.tracks, s.nodes)
    && EventsCounted(cfg, |s.log|, s.shared.ledger.tracks, s.nodes, s.shared.stats.hits)
    && StatsCounted(s.shared.ledger, s.shared.stats)
    && CachesSound(s.nodes)
    && CachesExact(cfg, s.shared.ledger.tracks, s.nodes)
  }

  /** When nothing is pending after a release, every stream has been issued. */
  ghost predicate Drained(s: State) {
    s.shared.queue.pending == {} ==> forall id :: id in s.nodes ==> NextSpec(s.nodes[id]).None?
  }

  ghost predicate Inv(cfg: Config, s: State) {
    Core(cfg, s) && Drained(s)
  }
}
