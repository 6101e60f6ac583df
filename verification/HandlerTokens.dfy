/** Every handler finds the state its event needs, so nothing is thrown, and hands every event an owner. */
module HandlerTokens {
  import opened Model
  import opened Scheduling
  import opened Statistics
  import opened Protocol
  import opened Invariants
  import opened TokenLaws

  function Taken(sh: Shared, e: Event): Shared {
    sh.(queue := Remove(sh.queue, e))
  }

  ghost predicate AtMemoryNode(cfg: Config, m: MemoryState, sh: Shared, nodes: map<nat, NodeState>, e: Event)
    requires MemoryShape(cfg, m)
  {
    Next(sh.queue, e) && Tokens(cfg, sh.queue, sh.ledger.tracks, m, nodes) && Channels(cfg, sh, m)
  }

  ghost predicate Afterwards(cfg: Config, m: MemoryState, sh: Shared, nodes: map<nat, NodeState>) {
    MemoryShape(cfg, m) && InOrder(sh.queue) && Tokens(cfg, sh.queue, sh.ledger.tracks, m, nodes)
  }

  lemma ForwardTokens(cfg: Config, m: MemoryState, sh: Shared, nodes: map<nat, NodeState>, e: Event)
    requires MemoryShape(cfg, m) && AtMemoryNode(cfg, m, sh, nodes, e) && e.kind == ForwardToMemory
    ensures MemoryForward(cfg, m, Taken(sh, e), e).Ok?
    ensures var (m', sh') := MemoryForward(cfg, m, Taken(sh, e), e).value; Afterwards(cfg, m', sh', nodes)
  {
    var q, tracks := sh.queue, sh.ledger.tracks;
    assert Owned(cfg, tracks, m, nodes, e);
    var i := e.request - 1;
    assert TrackToken(cfg, q, i, tracks[i]);
    var (m', sh') := MemoryForward(cfg, m, Taken(sh, e), e).value;
    var tracks' := sh'.ledger.tracks;
    DetachTrack(cfg, q, tracks, m, nodes, e, i, tracks'[i]);
    var c := ChannelOf(tracks[i].request.obj, cfg.channels);
    assert ChannelOk(cfg, tracks, m.channels[c], m.logs[c], c, q.now);
    var ch, log := m'.channels[c], m'.logs[c];
    assert m' == MemoryState(m.channels[c := ch], m.logs[c := log]);
    if !m.channels[c].busy && !m.channels[c].startScheduled {
      assert ch.queued[0] == e.request;
      AttachChannel(cfg, Remove(q, e), tracks', m, nodes, e.time, c, ch, log);
    } else {
      KeepChannel(cfg, Remove(q, e), tracks', m, nodes, c, ch, log);
    }
  }

  lemma StartTokens(cfg: Config, m: MemoryState, sh: Shared, nodes: map<nat, NodeState>, e: Event)
    requires MemoryShape(cfg, m) && AtMemoryNode(cfg, m, sh, nodes, e) && e.kind == MemoryServiceStart
    ensures MemoryStart(cfg, m, Taken(sh, e), e).Ok?
    ensures var (m', sh') := MemoryStart(cfg, m, Taken(sh, e), e).value; Afterwards(cfg, m', sh', nodes)
  {
    var q, tracks := sh.queue, sh.ledger.tracks;
    assert Owned(cfg, tracks, m, nodes, e);
    var i := e.request - 1;
    var c := ChannelOf(tracks[i].request.obj, cfg.channels);
    assert ChannelToken(cfg, q, tracks, c, m.channels[c], m.logs[c]);
    HeadIsQueued(cfg, m, sh, c);
    var (m', sh') := MemoryStart(cfg, m, Taken(sh, e), e).value;
    var ch, log := m'.channels[c], m'.logs[c];
    assert m' == MemoryState(m.channels[c := ch], m.logs[c := log]);
    DetachChannel(cfg, q, tracks, m, nodes, e, c, ch, log);
    var t := sh'.ledger.tracks[i];
    var done := Event(e.time + ServiceTime(cfg, t.request.size), MemoryServiceComplete, cfg.memoryNode, e.request, 0);
    assert TrackToken(cfg, q, i, tracks[i]);
    AttachTrack(cfg, Remove(q, e), tracks, m', nodes, done, i, t);
  }

  lemma HeadIsQueued(cfg: Config, m: MemoryState, sh: Shared, c: nat)
    requires MemoryShape(cfg, m) && Channels(cfg, sh, m) && c < cfg.channels && m.channels[c].queued != []
    ensures var head := m.channels[c].queued[0];
            && Numbered(sh.ledger.tracks, head) && sh.ledger.tracks[head - 1].phase == Queued
            && ChannelOf(sh.ledger.tracks[head - 1].request.obj, cfg.channels) == c
  {
    var log := m.logs[c];
    assert ChannelOk(cfg, sh.ledger.tracks, m.channels[c], log, c, sh.queue.now);
    assert ArrivalOk(cfg, sh.ledger.tracks, log, c, |log.starts|, sh.queue.now);
  }

  lemma ServingIsBusy(cfg: Config, m: MemoryState, sh: Shared, i: nat, c: nat)
    requires MemoryShape(cfg, m) && Channels(cfg, sh, m)
    requires i < |sh.ledger.tracks| && sh.ledger.tracks[i].phase == Serving
    requires c == ChannelOf(sh.ledger.tracks[i].request.obj, cfg.channels)
    ensures m.channels[c].busy && !m.channels[c].startScheduled
  {
    assert Located(cfg, m, i, sh.ledger.tracks[i]);
    assert ChannelOk(cfg, sh.ledger.tracks, m.channels[c], m.logs[c], c, sh.queue.now);
    assert ArrivalOk(cfg, sh.ledger.tracks, m.logs[c], c, sh.ledger.tracks[i].place, sh.queue.now);
  }

  lemma CompleteFinds(cfg: Config, m: MemoryState, sh: Shared, nodes: map<nat, NodeState>, e: Event)
    requires MemoryShape(cfg, m) && AtMemoryNode(cfg, m, sh, nodes, e) && e.kind == MemoryServiceComplete
    ensures Numbered(sh.ledger.tracks, e.request)
    ensures var t := sh.ledger.tracks[e.request - 1];
            var c := ChannelOf(t.request.obj, cfg.channels);
            t.phase == Serving && t.event == e && t.request.id == e.request &&
            m.channels[c].busy && !m.channels[c].startScheduled
  {
    assert Owned(cfg, sh.ledger.tracks, m, nodes, e);
    assert TrackToken(cfg, sh.queue, e.request - 1, sh.ledger.tracks[e.request - 1]);
    ServingIsBusy(cfg, m, sh, e.request - 1, ChannelOf(sh.ledger.tracks[e.request - 1].request.obj, cfg.channels));
  }

  lemma CompleteTokens(cfg: Config, m: MemoryState, sh: Shared, nodes: map<nat, NodeState>, e: Event)
    requires MemoryShape(cfg, m) && AtMemoryNode(cfg, m, sh, nodes, e) && e.kind == MemoryServiceComplete
    ensures MemoryComplete(cfg, m, Taken(sh, e), e).Ok?
    ensures var (m', sh') := MemoryComplete(cfg, m, Taken(sh, e), e).value; Afterwards(cfg, m', sh', nodes)
  {
    hide Tokens, Channels, RecordService;
    CompleteFinds(cfg, m, sh, nodes, e);
    var q, tracks, i := sh.queue, sh.ledger.tracks, e.request - 1;
    var c := ChannelOf(tracks[i].request.obj, cfg.channels);
    var (m', sh') := MemoryComplete(cfg, m, Taken(sh, e), e).value;
    var ch, log, t := m'.channels[c], m'.logs[c], sh'.ledger.tracks[i];
    assert m' == MemoryState(m.channels[c := ch], m.logs[c := log]);
    var back := Event(e.time + cfg.linkLatency, ReturnResponse, t.request.source, e.request, 0);
    MoveTrack(cfg, q, tracks, m, nodes, e, i, back, t);
    var q2 := Schedule(Remove(q, e), back);
    if ch.queued != [] {
      HeadIsQueued(cfg, m, sh, c);
      AttachChannel(cfg, q2, sh'.ledger.tracks, m, nodes, e.time, c, ch, log);
    } else {
      KeepChannel(cfg, q2, sh'.ledger.tracks, m, nodes, c, ch, log);
    }
  }

  /* ---- Compute nodes ---- */

  ghost predicate AtNode(cfg: Config, m: MemoryState, sh: Shared, nodes: map<nat, NodeState>, e: Event)
    requires MemoryShape(cfg, m)
  {
    Next(sh.queue, e) && Tokens(cfg, sh.queue, sh.ledger.tracks, m, nodes) && e.target in nodes
  }

  /** The event of a request that a node handles was scheduled for the request's own node. */
  lemma RequestAtNode(cfg: Config, m: MemoryState, sh: Shared, nodes: map<nat, NodeState>, e: Event)
    requires MemoryShape(cfg, m) && AtNode(cfg, m, sh, nodes, e)
    requires e.kind in {LocalCacheLookup, LocalCacheHitComplete, ReturnResponse, RequestComplete}
    ensures Numbered(sh.ledger.tracks, e.request)
    ensures var t := sh.ledger.tracks[e.request - 1];
            Driven(t.phase) && t.event == e && KindOf(t.phase) == e.kind && t.request.source == e.target &&
            t.request.id == e.request
  {
    assert Owned(cfg, sh.ledger.tracks, m, nodes, e);
    assert TrackToken(cfg, sh.queue, e.request - 1, sh.ledger.tracks[e.request - 1]);
  }

  lemma LookupTokens(cfg: Config, m: MemoryState, sh: Shared, nodes: map<nat, NodeState>, e: Event)
    requires MemoryShape(cfg, m) && AtNode(cfg, m, sh, nodes, e) && e.kind == LocalCacheLookup
    ensures NodeLookup(cfg, e.target, nodes[e.target], Taken(sh, e), e).Ok?
    ensures var (n', sh') := NodeLookup(cfg, e.target, nodes[e.target], Taken(sh, e), e).value;
            Afterwards(cfg, m, sh', nodes[e.target := n'])
  {
    RequestAtNode(cfg, m, sh, nodes, e);
    var (n', sh') := NodeLookup(cfg, e.target, nodes[e.target], Taken(sh, e), e).value;
    var tracks, i := sh.ledger.tracks, e.request - 1;
    var t := sh'.ledger.tracks[i];
    var next := if t.hit && t.phase == Hitting
                then Event(e.time + cfg.hitLatency, LocalCacheHitComplete, e.target, e.request, 0)
                else Event(e.time + cfg.linkLatency, ForwardToMemory, cfg.memoryNode, e.request, 0);
    assert sh'.ledger.tracks == tracks[i := t];
    MoveTrack(cfg, sh.queue, tracks, m, nodes, e, i, next, t);
    KeepNode(cfg, sh'.queue, sh'.ledger.tracks, m, nodes, e.target, n');
  }

  lemma {:induction false} InFlightCounted(tracks: seq<Track>, i: nat)
    requires i < |tracks| && InFlight(tracks[i])
    ensures CountInFlight(tracks, tracks[i].request.source) > 0
  {
    if i < |tracks| - 1 {
      InFlightCounted(tracks[..|tracks| - 1], i);
    }
  }

  /** An answer is recorded, whatever the cache has become. */
  lemma RespondTokens(cfg: Config, m: MemoryState, sh: Shared, nodes: map<nat, NodeState>, e: Event, n: NodeState,
                      tier: Tier, bytes: nat)
    requires MemoryShape(cfg, m) && AtNode(cfg, m, sh, nodes, e)
    requires e.kind == LocalCacheHitComplete || e.kind == ReturnResponse
    requires Known(Taken(sh, e), e.request)
    requires n.generating == nodes[e.target].generating
    requires n.outstanding == CountInFlight(sh.ledger.tracks, e.target)
    ensures Respond(e.target, n, Taken(sh, e), e, tier, bytes).Ok?
    ensures var (n', sh') := Respond(e.target, n, Taken(sh, e), e, tier, bytes).value;
            Afterwards(cfg, m, sh', nodes[e.target := n'])
  {
    RequestAtNode(cfg, m, sh, nodes, e);
    var tracks, i := sh.ledger.tracks, e.request - 1;
    InFlightCounted(tracks, i);
    var (n', sh') := Respond(e.target, n, Taken(sh, e), e, tier, bytes).value;
    var t := sh'.ledger.tracks[i];
    assert sh'.ledger.tracks == tracks[i := t];
    MoveTrack(cfg, sh.queue, tracks, m, nodes, e, i, Event(e.time, RequestComplete, e.target, e.request, 0), t);
    KeepNode(cfg, sh'.queue, sh'.ledger.tracks, m, nodes, e.target, n');
  }

  lemma FinishTokens(cfg: Config, m: MemoryState, sh: Shared, nodes: map<nat, NodeState>, e: Event)
    requires MemoryShape(cfg, m) && AtNode(cfg, m, sh, nodes, e) && e.kind == RequestComplete
    requires cfg.mode == CompletionDriven ==> nodes[e.target].generating.None?
    ensures NodeComplete(cfg, e.target, nodes[e.target], Taken(sh, e), e).Ok?
    ensures var (n', sh') := NodeComplete(cfg, e.target, nodes[e.target], Taken(sh, e), e).value;
            Afterwards(cfg, m, sh', nodes[e.target := n'])
  {
    RequestAtNode(cfg, m, sh, nodes, e);
    var (n', sh') := NodeComplete(cfg, e.target, nodes[e.target], Taken(sh, e), e).value;
    var tracks, i := sh.ledger.tracks, e.request - 1;
    var t := sh'.ledger.tracks[i];
    assert sh'.ledger.tracks == tracks[i := t];
    DetachTrack(cfg, sh.queue, tracks, m, nodes, e, i, t);
    if n'.generating == nodes[e.target].generating {
      KeepNode(cfg, Remove(sh.queue, e), sh'.ledger.tracks, m, nodes, e.target, n');
    } else {
      AttachNode(cfg, Remove(sh.queue, e), sh'.ledger.tracks, m, nodes, e.time, e.target, n');
    }
  }

  /** In a bursty schedule the arrival that follows an issue is never in its past. */
  lemma FollowUpInFuture(cfg: Config, id: nat, n: NodeState, sh: Shared, e: Event, released: Option<nat>,
                         releases: map<nat, nat>)
    requires NodeOk(cfg, n, released, releases) && n.generating == Some(e)
    requires cfg.mode == ScheduledBursty ==> OffsetsAscend(n.requests)
    ensures NextSpec(n).Some?
    ensures var spec := NextSpec(n).value;
            var base := if cfg.mode == ScheduledBursty then Since(spec.offset, e.time) else n.epochStart;
            var started := StartEpoch(cfg, id, n.(epochStart := base), spec.epoch, e.time, sh.stats.objects);
            var follow := FollowUp(cfg, id, started.(next := n.next + 1, outstanding := n.outstanding + 1));
            follow.Some? ==> follow.value.time >= e.time
  {
  }

  lemma GenerateFinds(cfg: Config, m: MemoryState, sh: Shared, nodes: map<nat, NodeState>, e: Event)
    requires MemoryShape(cfg, m) && AtNode(cfg, m, sh, nodes, e) && e.kind == GenerateRequest
    ensures nodes[e.target].generating == Some(e)
  {
    assert Owned(cfg, sh.ledger.tracks, m, nodes, e);
  }

  /** The events that issuing a request schedules: its lookup, and perhaps the arrival of the next one. */
  lemma GenerateSchedules(cfg: Config, id: nat, n: NodeState, sh: Shared, e: Event)
    requires NextSpec(n).Some?
    ensures NodeGenerate(cfg, id, n, sh, e).Ok?
    ensures var (n', sh') := NodeGenerate(cfg, id, n, sh, e).value;
            var rid := |sh.ledger.tracks| + 1;
            var lookup := Event(e.time, LocalCacheLookup, id, rid, 0);
            var t := sh'.ledger.tracks[rid - 1];
            var q := Schedule(sh.queue, lookup);
            && sh'.ledger.tracks == sh.ledger.tracks + [t] && t.phase == Looking && t.event == Stamp(sh.queue, lookup)
            && t.request.id == rid && t.request.source == id
            && (if n'.generating.None? then sh'.queue == q
                else sh'.queue == Schedule(q, GenerateEvent(id, n'.generating.value.time)) &&
                     n'.generating == Some(Stamp(q, GenerateEvent(id, n'.generating.value.time))))
  {
    hide StartEpoch, Schedule;
  }

  lemma GenerateInFuture(cfg: Config, id: nat, n: NodeState, sh: Shared, e: Event, released: Option<nat>,
                         releases: map<nat, nat>)
    requires NodeOk(cfg, n, released, releases) && n.generating == Some(e)
    requires cfg.mode == ScheduledBursty ==> OffsetsAscend(n.requests)
    ensures NextSpec(n).Some? && NodeGenerate(cfg, id, n, sh, e).Ok?
    ensures var n' := NodeGenerate(cfg, id, n, sh, e).value.0;
            n'.generating.Some? ==> n'.generating.value.time >= e.time
  {
    hide StartEpoch, OffsetsAscend, NodeOk;
    FollowUpInFuture(cfg, id, n, sh, e, released, releases);
  }

  lemma GenerateTokens(cfg: Config, m: MemoryState, sh: Shared, nodes: map<nat, NodeState>, e: Event,
                       released: Option<nat>, releases: map<nat, nat>)
    requires MemoryShape(cfg, m) && AtNode(cfg, m, sh, nodes, e) && e.kind == GenerateRequest
    requires NodeOk(cfg, nodes[e.target], released, releases)
    requires cfg.mode == ScheduledBursty ==> OffsetsAscend(nodes[e.target].requests)
    ensures NodeGenerate(cfg, e.target, nodes[e.target], Taken(sh, e), e).Ok?
    ensures var (n', sh') := NodeGenerate(cfg, e.target, nodes[e.target], Taken(sh, e), e).value;
            Afterwards(cfg, m, sh', nodes[e.target := n'])
  {
    hide Tokens, NodeGenerate, NodeOk, OffsetsAscend;
    var id, n, tracks := e.target, nodes[e.target], sh.ledger.tracks;
    GenerateFinds(cfg, m, sh, nodes, e);
    GenerateInFuture(cfg, id, n, Taken(sh, e), e, released, releases);
    GenerateSchedules(cfg, id, n, Taken(sh, e), e);
    var (n', sh') := NodeGenerate(cfg, id, n, Taken(sh, e), e).value;
    var quiet := n'.(generating := None);
    DetachNode(cfg, sh.queue, tracks, m, nodes, e, id, quiet);
    var q := Remove(sh.queue, e);
    var t := sh'.ledger.tracks[|tracks|];
    var lookup := Event(e.time, LocalCacheLookup, id, |tracks| + 1, 0);
    AppendTrack(cfg, q, tracks, m, nodes[id := quiet], lookup, t);
    if n'.generating.Some? {
      AttachNode(cfg, Schedule(q, lookup), tracks + [t], m, nodes[id := quiet], n'.generating.value.time, id, n');
      assert nodes[id := quiet][id := n'] == nodes[id := n'];
    } else {
      assert quiet == n';
    }
  }
}
