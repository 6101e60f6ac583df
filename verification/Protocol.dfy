/** The event protocol as a deterministic state machine: one handler for each kind of event. */
module Protocol {
  import opened Model
  import opened Policies
  import opened Cache
  import opened Scheduling
  import opened Statistics

  datatype NodeConfig = NodeConfig(id: nat, requests: seq<RequestSpec>)

  datatype Config = Config(nodes: seq<NodeConfig>, memoryNode: nat, linkLatency: nat, baseLatency: nat,
                           bandwidth: nat, channels: nat, hitLatency: nat, capacity: nat, policy: Policy,
                           mode: IssueMode, plan: Option<ReplicaPlan>)

  /** Requests of one node come epoch by epoch. */
  predicate SortedByEpoch(requests: seq<RequestSpec>) {
    forall i, j :: 0 <= i < j < |requests| ==> requests[i].epoch <= requests[j].epoch
  }

  /** Planned arrivals never go back within an epoch. */
  predicate OffsetsAscend(requests: seq<RequestSpec>) {
    forall i, j :: 0 <= i < j < |requests| && requests[i].epoch == requests[j].epoch ==>
                     requests[i].offset <= requests[j].offset
  }

  /** What the simulator checks before a run; a bursty schedule always comes from the generator. */
  predicate ValidConfig(cfg: Config) {
    && cfg.channels > 0 && cfg.bandwidth > 0
    && (forall i, j :: 0 <= i < j < |cfg.nodes| ==> cfg.nodes[i].id != cfg.nodes[j].id)
    && (forall i :: 0 <= i < |cfg.nodes| ==>
                      cfg.nodes[i].id != cfg.memoryNode && SortedByEpoch(cfg.nodes[i].requests))
    && (cfg.mode == ScheduledBursty ==>
          forall i :: 0 <= i < |cfg.nodes| ==> OffsetsAscend(cfg.nodes[i].requests))
  }

  /* ---- State ---- */

  /** How far a request has come; the finer stages behind the simulator's own `stage`. */
  datatype Phase = Looking | Hitting | Forwarding | Queued | Serving | Returning | Finishing | Finished

  /**
   * One row of the request table, with bookkeeping of this model: the phase, the pending event that drives the
   * request, its index in its node's stream, its place among the arrivals of its channel, and its times.
   */
  datatype Track = Track(request: Request, phase: Phase, event: Event, index: nat, hit: bool, place: nat,
                         wait: nat, service: nat, latency: nat, response: nat)

  datatype Ledger = Ledger(tracks: seq<Track>, responses: seq<Response>)

  /** What every component reaches by reference: the scheduler, the request table with the responses, the stats. */
  datatype Shared = Shared(queue: Queue, ledger: Ledger, stats: StatsState)

  datatype ChannelState = ChannelState(queued: seq<nat>, busy: bool, startScheduled: bool)

  datatype Arrival = Arrival(request: nat, time: nat, size: nat)

  /** Bookkeeping of this model: a channel's arrivals, its start and completion times, its last start event. */
  datatype ChannelLog = ChannelLog(arrivals: seq<Arrival>, starts: seq<nat>, dones: seq<nat>, start: Event)

  datatype MemoryState = MemoryState(channels: seq<ChannelState>, logs: seq<ChannelLog>)

  /**
   * `generating` and `issued` are bookkeeping: the pending event that will issue this node's next request, and the
   * numbers of the requests issued so far.
   */
  datatype NodeState = NodeState(requests: seq<RequestSpec>, next: nat, outstanding: nat, epoch: Option<nat>,
                                 epochStart: nat, cache: CacheState, generating: Option<Event>, issued: seq<nat>)

  datatype EventRecord = EventRecord(time: nat, kind: EventKind, target: nat, request: nat)

  /** `releases` is bookkeeping: the time at which each epoch was released. */
  datatype State = State(shared: Shared, memory: MemoryState, nodes: map<nat, NodeState>, released: Option<nat>,
                         log: seq<EventRecord>, releases: map<nat, nat>)

  /** The exceptions that the simulator could throw during a run. */
  datatype FaultKind = UnsupportedEvent | UnknownTarget | UnknownRequest | EmptyChannelQueue | OutOfOrder
                     | IdleChannel | OutstandingUnderflow

  datatype Outcome<+T> = Ok(value: T) | Fault(kind: FaultKind)

  function Known(sh: Shared, request: nat): bool {
    1 <= request <= |sh.ledger.tracks|
  }

  function TrackOf(sh: Shared, request: nat): Track
    requires Known(sh, request)
  {
    sh.ledger.tracks[request - 1]
  }

  function SetTrack(l: Ledger, request: nat, t: Track): Ledger
    requires 1 <= request <= |l.tracks|
  {
    l.(tracks := l.tracks[request - 1 := t])
  }

  function Since(start: nat, time: nat): nat { if time >= start then time - start else 0 }

  /* ---- Memory node ---- */

  function ServiceTime(cfg: Config, size: nat): nat
    requires cfg.bandwidth > 0
  {
    cfg.baseLatency + (size + cfg.bandwidth - 1) / cfg.bandwidth
  }

  function StartEvent(cfg: Config, time: nat, request: nat): Event {
    Event(time, MemoryServiceStart, cfg.memoryNode, request, 0)
  }

  predicate MemoryShape(cfg: Config, m: MemoryState) {
    cfg.channels > 0 && cfg.bandwidth > 0 && |m.channels| == |m.logs| == cfg.channels
  }

  function ArrivalStats(stats: StatsState, r: Request, c: nat, depth: nat): StatsState {
    RecordRemoteAccess(ObserveDepth(stats, depth), r, c, depth)
  }

  function MemoryForward(cfg: Config, m: MemoryState, sh: Shared, e: Event): Outcome<(MemoryState, Shared)>
    requires MemoryShape(cfg, m)
  {
    if !Known(sh, e.request) then Fault(UnknownRequest) else
      var t := TrackOf(sh, e.request);
      var c := ChannelOf(t.request.obj, cfg.channels);
      var r := t.request.(enqueueTime := e.time);
      var ch := m.channels[c].(queued := m.channels[c].queued + [e.request]);
      var log := m.logs[c].(arrivals := m.logs[c].arrivals + [Arrival(e.request, e.time, r.size)]);
      var stats := ArrivalStats(sh.stats, r, c, |ch.queued|);
      var idle := !ch.busy && !ch.startScheduled;
      var start := StartEvent(cfg, e.time, ch.queued[0]);
      Ok((MemoryState(m.channels[c := if idle then ch.(startScheduled := true) else ch],
                      m.logs[c := if idle then log.(start := Stamp(sh.queue, start)) else log]),
          Shared(if idle then Schedule(sh.queue, start) else sh.queue,
                 SetTrack(sh.ledger, e.request, t.(request := r, phase := Queued, place := |m.logs[c].arrivals|)),
                 stats)))
  }

  function MemoryStart(cfg: Config, m: MemoryState, sh: Shared, e: Event): Outcome<(MemoryState, Shared)>
    requires MemoryShape(cfg, m)
  {
    if !Known(sh, e.request) then Fault(UnknownRequest) else
      var t := TrackOf(sh, e.request);
      var c := ChannelOf(t.request.obj, cfg.channels);
      var ch := m.channels[c];
      if ch.queued == [] then Fault(EmptyChannelQueue)
      else if ch.queued[0] != e.request then Fault(OutOfOrder)
      else
        var r := t.request.(stage := WaitingForResponse);
        var wait := Since(r.enqueueTime, e.time);
        var done := Event(e.time + ServiceTime(cfg, r.size), MemoryServiceComplete, cfg.memoryNode, e.request, 0);
        Ok((MemoryState(m.channels[c := ChannelState(ch.queued[1..], true, false)],
                        m.logs[c := m.logs[c].(starts := m.logs[c].starts + [e.time])]),
            Shared(Schedule(sh.queue, done),
                   SetTrack(sh.ledger, e.request,
                            t.(request := r, phase := Serving, event := Stamp(sh.queue, done), wait := wait)),
                   RecordQueueWait(RecordMemoryWait(sh.stats, wait), r, c, wait))))
  }

  function MemoryComplete(cfg: Config, m: MemoryState, sh: Shared, e: Event): Outcome<(MemoryState, Shared)>
    requires MemoryShape(cfg, m)
  {
    if !Known(sh, e.request) then Fault(UnknownRequest) else
      var t := TrackOf(sh, e.request);
      var c := ChannelOf(t.request.obj, cfg.channels);
      var ch := m.channels[c];
      if !ch.busy then Fault(IdleChannel)
      else
        var service := ServiceTime(cfg, t.request.size);
        var back := Event(e.time + cfg.linkLatency, ReturnResponse, t.request.source, e.request, 0);
        var queue := Schedule(sh.queue, back);
        var more := ch.queued != [];
        var start := StartEvent(cfg, e.time, if more then ch.queued[0] else 0);
        var log := m.logs[c].(dones := m.logs[c].dones + [e.time]);
        Ok((MemoryState(m.channels[c := ChannelState(ch.queued, false, more || ch.startScheduled)],
                        m.logs[c := if more then log.(start := Stamp(queue, start)) else log]),
            Shared(if more then Schedule(queue, start) else queue,
                   SetTrack(sh.ledger, e.request,
                            t.(phase := Returning, event := Stamp(sh.queue, back), service := service)),
                   RecordService(sh.stats, t.request, c, service))))
  }

  function MemoryHandle(cfg: Config, m: MemoryState, sh: Shared, e: Event): Outcome<(MemoryState, Shared)>
    requires MemoryShape(cfg, m)
  {
    match e.kind
    case ForwardToMemory => MemoryForward(cfg, m, sh, e)
    case MemoryServiceStart => MemoryStart(cfg, m, sh, e)
    case MemoryServiceComplete => MemoryComplete(cfg, m, sh, e)
    case _ => Fault(UnsupportedEvent)
  }

  /* ---- Compute node ---- */

  function NextSpec(n: NodeState): Option<RequestSpec> {
    if n.next < |n.requests| then Some(n.requests[n.next]) else None
  }

  ghost function StartEpoch(cfg: Config, id: nat, n: NodeState, epoch: nat, time: nat, telemetry: Telemetry)
    : NodeState
  {
    if n.epoch == Some(epoch) then n else
      var cache := EpochStart(n.cache, epoch, telemetry);
      n.(epoch := Some(epoch),
         cache := if cfg.plan.None? then cache
                  else Install(cache, if epoch in cfg.plan.value then cfg.plan.value[epoch] else [],
                               time, id, epoch))
  }

  function GenerateEvent(id: nat, time: nat): Event {
    Event(time, GenerateRequest, id, 0, 0)
  }

  /** In a bursty schedule, issuing one request plans the arrival of the next one of the same epoch. */
  function FollowUp(cfg: Config, id: nat, n: NodeState): Option<Event> {
    if cfg.mode == ScheduledBursty && n.epoch.Some? && NextSpec(n).Some? && NextSpec(n).value.epoch == n.epoch.value
    then Some(GenerateEvent(id, n.epochStart + NextSpec(n).value.offset))
    else None
  }

  ghost function NodeGenerate(cfg: Config, id: nat, n: NodeState, sh: Shared, e: Event)
    : Outcome<(NodeState, Shared)>
  {
    if NextSpec(n).None? then Ok((n.(generating := None), sh)) else
      var spec := NextSpec(n).value;
      var request := Request(|sh.ledger.tracks| + 1, id, spec.obj, e.time, spec.size, spec.epoch, Generated, 0);
      var base := if cfg.mode == ScheduledBursty then Since(spec.offset, e.time) else n.epochStart;
      var started := StartEpoch(cfg, id, n.(epochStart := base), spec.epoch, e.time, sh.stats.objects);
      var issued := started.(next := n.next + 1, outstanding := n.outstanding + 1, issued := n.issued + [request.id]);
      var lookup := Event(e.time, LocalCacheLookup, id, request.id, 0);
      var track := Track(request, Looking, Stamp(sh.queue, lookup), n.next, false, 0, 0, 0, 0, 0);
      var queue := Schedule(sh.queue, lookup);
      var follow := FollowUp(cfg, id, issued);
      var ledger := sh.ledger.(tracks := sh.ledger.tracks + [track]);
      if follow.Some?
      then Ok((issued.(generating := Some(Stamp(queue, follow.value))),
               sh.(queue := Schedule(queue, follow.value), ledger := ledger)))
      else Ok((issued.(generating := None), sh.(queue := queue, ledger := ledger)))
  }

  ghost function NodeLookup(cfg: Config, id: nat, n: NodeState, sh: Shared, e: Event): Outcome<(NodeState, Shared)> {
    if !Known(sh, e.request) then Fault(UnknownRequest) else
      var t := TrackOf(sh, e.request);
      var r := t.request.(stage := LocalLookup);
      var looked := n.(cache := Lookup(n.cache, r, e.time, sh.stats.objects));
      if r.obj in n.cache.entries then
        var done := Event(e.time + cfg.hitLatency, LocalCacheHitComplete, id, e.request, 0);
        Ok((looked,
            Shared(Schedule(sh.queue, done),
                   SetTrack(sh.ledger, e.request,
                            t.(request := r, phase := Hitting, event := Stamp(sh.queue, done), hit := true)),
                   RecordHit(sh.stats, id))))
      else
        var forward := Event(e.time + cfg.linkLatency, ForwardToMemory, cfg.memoryNode, e.request, 0);
        Ok((looked,
            Shared(Schedule(sh.queue, forward),
                   SetTrack(sh.ledger, e.request,
                            t.(request := r.(stage := ForwardedToMemory), phase := Forwarding,
                               event := Stamp(sh.queue, forward))),
                   RecordMiss(sh.stats, id))))
  }

  /** Records a response and schedules the completion of its request. */
  function Respond(id: nat, n: NodeState, sh: Shared, e: Event, tier: Tier, bytes: nat): Outcome<(NodeState, Shared)>
    requires Known(sh, e.request)
  {
    var t := TrackOf(sh, e.request);
    var latency := Since(t.request.issueTime, e.time);
    var done := Event(e.time, RequestComplete, id, e.request, 0);
    if n.outstanding == 0 then Fault(OutstandingUnderflow)
    else
      Ok((n.(outstanding := n.outstanding - 1),
          Shared(Schedule(sh.queue, done),
                 Ledger(sh.ledger.tracks[e.request - 1 :=
                          t.(request := t.request.(stage := Completed), phase := Finishing,
                             event := Stamp(sh.queue, done), latency := latency,
                             response := |sh.ledger.responses|)],
                        sh.ledger.responses + [Response(e.request, t.request.obj, tier, e.time, latency, bytes)]),
                 RecordLatency(sh.stats, id, latency))))
  }

  function NodeHitComplete(id: nat, n: NodeState, sh: Shared, e: Event): Outcome<(NodeState, Shared)> {
    if !Known(sh, e.request) then Fault(UnknownRequest)
    else Respond(id, n, sh, e, LocalTier, 0)
  }

  ghost function NodeReturn(id: nat, n: NodeState, sh: Shared, e: Event): Outcome<(NodeState, Shared)> {
    if !Known(sh, e.request) then Fault(UnknownRequest) else
      var r := TrackOf(sh, e.request).request;
      Respond(id, n.(cache := Admit(n.cache, r, e.time)), sh, e, MemoryTier, r.size)
  }

  function NodeComplete(cfg: Config, id: nat, n: NodeState, sh: Shared, e: Event): Outcome<(NodeState, Shared)> {
    var ledger := if Known(sh, e.request)
                  then SetTrack(sh.ledger, e.request, TrackOf(sh, e.request).(phase := Finished))
                  else sh.ledger;
    if cfg.mode == CompletionDriven && NextSpec(n).Some? && n.epoch == Some(NextSpec(n).value.epoch) then
      var next := GenerateEvent(id, sh.queue.now);
      Ok((n.(generating := Some(Stamp(sh.queue, next))),
          sh.(queue := Schedule(sh.queue, next), ledger := ledger)))
    else Ok((n, sh.(ledger := ledger)))
  }

  ghost function NodeHandle(cfg: Config, id: nat, n: NodeState, sh: Shared, e: Event): Outcome<(NodeState, Shared)> {
    match e.kind
    case GenerateRequest => NodeGenerate(cfg, id, n, sh, e)
    case LocalCacheLookup => NodeLookup(cfg, id, n, sh, e)
    case LocalCacheHitComplete => NodeHitComplete(id, n, sh, e)
    case ReturnResponse => NodeReturn(id, n, sh, e)
    case RequestComplete => NodeComplete(cfg, id, n, sh, e)
    case _ => Fault(UnsupportedEvent)
  }

  /* ---- Simulator ---- */

  ghost function Dispatch(cfg: Config, s: State, e: Event): Outcome<State>
    requires MemoryShape(cfg, s.memory)
  {
    var logged := s.(log := s.log + [EventRecord(e.time, e.kind, e.target, e.request)]);
    if e.target in s.nodes then
      match NodeHandle(cfg, e.target, s.nodes[e.target], s.shared, e)
      case Fault(kind) => Fault(kind)
      case Ok((n, sh)) => Ok(logged.(shared := sh, nodes := s.nodes[e.target := n]))
    else if e.target == cfg.memoryNode then
      match MemoryHandle(cfg, s.memory, s.shared, e)
      case Fault(kind) => Fault(kind)
      case Ok((m, sh)) => Ok(logged.(shared := sh, memory := m))
    else Fault(UnknownTarget)
  }

  predicate AllIdle(s: State) {
    forall n :: n in s.nodes ==> s.nodes[n].outstanding == 0
  }

  /** The next epoch of a node that has not been released yet. */
  function Unreleased(s: State, id: nat): Option<nat> {
    if id in s.nodes && NextSpec(s.nodes[id]).Some? &&
       (s.released.Some? ==> NextSpec(s.nodes[id]).value.epoch > s.released.value)
    then Some(NextSpec(s.nodes[id]).value.epoch) else None
  }

  /** The least unreleased epoch of the first `k` nodes. */
  function NextEpoch(cfg: Config, s: State, k: nat): Option<nat>
    requires k <= |cfg.nodes|
  {
    if k == 0 then None else
      var before, here := NextEpoch(cfg, s, k - 1), Unreleased(s, cfg.nodes[k - 1].id);
      if here.Some? && (before.None? || here.value < before.value) then here else before
  }

  /** Starts a node whose next request belongs to the released epoch. */
  function ReleaseNode(s: State, id: nat, epoch: nat): State {
    if id in s.nodes && NextSpec(s.nodes[id]).Some? && NextSpec(s.nodes[id]).value.epoch == epoch then
      var queue := s.shared.queue;
      var e := GenerateEvent(id, queue.now + NextSpec(s.nodes[id]).value.offset);
      s.(shared := s.shared.(queue := Schedule(queue, e)),
         nodes := s.nodes[id := s.nodes[id].(generating := Some(Stamp(queue, e)))])
    else s
  }

  function ReleaseNodes(cfg: Config, s: State, epoch: nat, k: nat): State
    requires k <= |cfg.nodes|
  {
    if k == 0 then s else ReleaseNode(ReleaseNodes(cfg, s, epoch, k - 1), cfg.nodes[k - 1].id, epoch)
  }

  function Release(cfg: Config, s: State): State {
    if s.shared.queue.pending != {} || !AllIdle(s) then s
    else
      match NextEpoch(cfg, s, |cfg.nodes|)
      case None => s
      case Some(epoch) =>
        ReleaseNodes(cfg, s.(released := Some(epoch), releases := s.releases[epoch := s.shared.queue.now]),
                     epoch, |cfg.nodes|)
  }

  function NewNode(cfg: Config, requests: seq<RequestSpec>): NodeState {
    NodeState(requests, 0, 0, None, 0, NewCache(cfg.capacity, cfg.policy), None, [])
  }

  function InitialNodes(cfg: Config, k: nat): map<nat, NodeState>
    requires k <= |cfg.nodes|
  {
    if k == 0 then map[]
    else InitialNodes(cfg, k - 1)[cfg.nodes[k - 1].id := NewNode(cfg, cfg.nodes[k - 1].requests)]
  }

  function Initial(cfg: Config): State {
    State(Shared(EmptyQueue, Ledger([], []), NoStats),
          MemoryState(seq(cfg.channels, i => ChannelState([], false, false)),
                      seq(cfg.channels, i => ChannelLog([], [], [], Event(0, MemoryServiceStart, 0, 0, 0)))),
          InitialNodes(cfg, |cfg.nodes|), None, [], map[])
  }

  /** One turn of the event loop: pop the next event, handle it, and release an epoch when all is quiet. */
  ghost function Step(cfg: Config, s: State): Outcome<State>
    requires MemoryShape(cfg, s.memory) && Orderly(s.shared.queue) && s.shared.queue.pending != {}
  {
    var e := Least(s.shared.queue);
    match Dispatch(cfg, s.(shared := s.shared.(queue := Pop(s.shared.queue))), e)
    case Fault(kind) => Fault(kind)
    case Ok(t) => Ok(Release(cfg, t))
  }
}
