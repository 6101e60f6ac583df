/** How single moves keep every pending event with the request, channel or node that waits for it. */
module TokenLaws {
  import opened Model
  import opened Scheduling
  import opened Protocol
  import opened Invariants

  /** The next event is at hand, and no event has ever been refused. */
  ghost predicate Next(q: Queue, e: Event) {
    Orderly(q) && IsLeast(q.pending, e) && q.refused == 0
  }

  ghost predicate InOrder(q: Queue) {
    Orderly(q) && q.refused == 0
  }

  lemma ScheduleInOrder(q: Queue, e: Event)
    requires InOrder(q) && q.now <= e.time
    ensures InOrder(Schedule(q, e)) && Schedule(q, e).pending == q.pending + {Stamp(q, e)}
    ensures Stamp(q, e) !in q.pending
  {
  }

  /** The event that drives a request is popped; the request no longer waits for an event. */
  lemma DetachTrack(cfg: Config, q: Queue, tracks: seq<Track>, m: MemoryState, nodes: map<nat, NodeState>,
                    e: Event, i: nat, t: Track)
    requires MemoryShape(cfg, m) && Next(q, e) && Tokens(cfg, q, tracks, m, nodes)
    requires i < |tracks| && Driven(tracks[i].phase) && tracks[i].event == e
    requires !Driven(t.phase) && t.request.id == i + 1 && t.request.obj == tracks[i].request.obj
    ensures InOrder(Remove(q, e)) && Tokens(cfg, Remove(q, e), tracks[i := t], m, nodes)
  {
    var tracks' := tracks[i := t];
    forall j | 0 <= j < |tracks| ensures TrackToken(cfg, Remove(q, e), j, tracks'[j]) {
      assert TrackToken(cfg, q, j, tracks[j]) && TrackToken(cfg, q, i, tracks[i]);
    }
    assert TrackToken(cfg, q, i, tracks[i]);
    forall c | 0 <= c < cfg.channels ensures ChannelToken(cfg, Remove(q, e), tracks', c, m.channels[c], m.logs[c]) {
      assert ChannelToken(cfg, q, tracks, c, m.channels[c], m.logs[c]);
    }
    forall k | k in nodes ensures NodeToken(Remove(q, e), k, nodes[k]) {
      assert NodeToken(q, k, nodes[k]);
    }
    forall f | f in Remove(q, e).pending ensures Owned(cfg, tracks', m, nodes, f) {
      assert Owned(cfg, tracks, m, nodes, f);
    }
  }

  /** A request that waits for no event is given one. */
  lemma AttachTrack(cfg: Config, q: Queue, tracks: seq<Track>, m: MemoryState, nodes: map<nat, NodeState>,
                    e: Event, i: nat, t: Track)
    requires MemoryShape(cfg, m) && InOrder(q) && Tokens(cfg, q, tracks, m, nodes) && q.now <= e.time
    requires i < |tracks| && !Driven(tracks[i].phase)
    requires Driven(t.phase) && t.event == Stamp(q, e) && t.request.id == i + 1
    requires t.request.obj == tracks[i].request.obj
    requires e.kind == KindOf(t.phase) && e.target == TargetOf(cfg, t) && e.request == i + 1
    ensures InOrder(Schedule(q, e)) && Tokens(cfg, Schedule(q, e), tracks[i := t], m, nodes)
  {
    var tracks' := tracks[i := t];
    ScheduleInOrder(q, e);
    forall j | 0 <= j < |tracks| ensures TrackToken(cfg, Schedule(q, e), j, tracks'[j]) {
      assert TrackToken(cfg, q, j, tracks[j]);
    }
    forall c | 0 <= c < cfg.channels ensures ChannelToken(cfg, Schedule(q, e), tracks', c, m.channels[c], m.logs[c]) {
      assert ChannelToken(cfg, q, tracks, c, m.channels[c], m.logs[c]);
    }
    forall k | k in nodes ensures NodeToken(Schedule(q, e), k, nodes[k]) {
      assert NodeToken(q, k, nodes[k]);
    }
    forall f | f in Schedule(q, e).pending ensures Owned(cfg, tracks', m, nodes, f) {
      assert f != Stamp(q, e) ==> Owned(cfg, tracks, m, nodes, f);
    }
  }

  /** The event that drives a request is popped, and the request is given its next event. */
  lemma MoveTrack(cfg: Config, q: Queue, tracks: seq<Track>, m: MemoryState, nodes: map<nat, NodeState>,
                  e: Event, i: nat, next: Event, t: Track)
    requires MemoryShape(cfg, m) && Next(q, e) && Tokens(cfg, q, tracks, m, nodes)
    requires i < |tracks| && Driven(tracks[i].phase) && tracks[i].event == e && e.time <= next.time
    requires Driven(t.phase) && t.event == Stamp(q, next) && t.request.id == i + 1
    requires t.request.obj == tracks[i].request.obj
    requires next.kind == KindOf(t.phase) && next.target == TargetOf(cfg, t) && next.request == i + 1
    ensures var q' := Schedule(Remove(q, e), next); InOrder(q') && Tokens(cfg, q', tracks[i := t], m, nodes)
  {
    var idle := t.(phase := Finished);
    DetachTrack(cfg, q, tracks, m, nodes, e, i, idle);
    AttachTrack(cfg, Remove(q, e), tracks[i := idle], m, nodes, next, i, t);
    assert tracks[i := idle][i := t] == tracks[i := t];
  }

  /** A new request enters with its first event. */
  lemma AppendTrack(cfg: Config, q: Queue, tracks: seq<Track>, m: MemoryState, nodes: map<nat, NodeState>,
                    e: Event, t: Track)
    requires MemoryShape(cfg, m) && InOrder(q) && Tokens(cfg, q, tracks, m, nodes) && q.now <= e.time
    requires Driven(t.phase) && t.event == Stamp(q, e) && t.request.id == |tracks| + 1
    requires e.kind == KindOf(t.phase) && e.target == TargetOf(cfg, t) && e.request == |tracks| + 1
    ensures InOrder(Schedule(q, e)) && Tokens(cfg, Schedule(q, e), tracks + [t], m, nodes)
  {
    var tracks' := tracks + [t];
    ScheduleInOrder(q, e);
    forall j | 0 <= j < |tracks| ensures TrackToken(cfg, Schedule(q, e), j, tracks'[j]) {
      assert TrackToken(cfg, q, j, tracks[j]);
    }
    forall c | 0 <= c < cfg.channels ensures ChannelToken(cfg, Schedule(q, e), tracks', c, m.channels[c], m.logs[c]) {
      assert ChannelToken(cfg, q, tracks, c, m.channels[c], m.logs[c]);
    }
    forall k | k in nodes ensures NodeToken(Schedule(q, e), k, nodes[k]) {
      assert NodeToken(q, k, nodes[k]);
    }
    forall f | f in Schedule(q, e).pending ensures Owned(cfg, tracks', m, nodes, f) {
      assert f != Stamp(q, e) ==> Owned(cfg, tracks, m, nodes, f);
    }
  }

  /** A channel whose pending start stays as it is changes otherwise. */
  lemma KeepChannel(cfg: Config, q: Queue, tracks: seq<Track>, m: MemoryState, nodes: map<nat, NodeState>,
                    c: nat, ch: ChannelState, log: ChannelLog)
    requires MemoryShape(cfg, m) && Tokens(cfg, q, tracks, m, nodes) && c < cfg.channels
    requires ch.startScheduled == m.channels[c].startScheduled
    requires ch.startScheduled ==> 
                log.start == m.logs[c].start && m.channels[c].queued != [] && ch.queued != [] &&
                ch.queued[0] == m.channels[c].queued[0]
    ensures Tokens(cfg, q, tracks, MemoryState(m.channels[c := ch], m.logs[c := log]), nodes)
  {
    var m' := MemoryState(m.channels[c := ch], m.logs[c := log]);
    forall d | 0 <= d < cfg.channels ensures ChannelToken(cfg, q, tracks, d, m'.channels[d], m'.logs[d]) {
      assert ChannelToken(cfg, q, tracks, d, m.channels[d], m.logs[d]);
    }
    forall f | f in q.pending ensures Owned(cfg, tracks, m', nodes, f) {
      assert Owned(cfg, tracks, m, nodes, f);
    }
  }

  /** The start event of a channel is popped. */
  lemma DetachChannel(cfg: Config, q: Queue, tracks: seq<Track>, m: MemoryState, nodes: map<nat, NodeState>,
                      e: Event, c: nat, ch: ChannelState, log: ChannelLog)
    requires MemoryShape(cfg, m) && Next(q, e) && Tokens(cfg, q, tracks, m, nodes) && c < cfg.channels
    requires e.kind == MemoryServiceStart && m.channels[c].startScheduled && m.logs[c].start == e
    requires Numbered(tracks, e.request) && c == ChannelOf(tracks[e.request - 1].request.obj, cfg.channels)
    requires !ch.startScheduled
    ensures InOrder(Remove(q, e))
    ensures Tokens(cfg, Remove(q, e), tracks, MemoryState(m.channels[c := ch], m.logs[c := log]), nodes)
  {
    var m' := MemoryState(m.channels[c := ch], m.logs[c := log]);
    forall j | 0 <= j < |tracks| ensures TrackToken(cfg, Remove(q, e), j, tracks[j]) {
      assert TrackToken(cfg, q, j, tracks[j]);
    }
    forall d | 0 <= d < cfg.channels ensures ChannelToken(cfg, Remove(q, e), tracks, d, m'.channels[d], m'.logs[d]) {
      assert ChannelToken(cfg, q, tracks, d, m.channels[d], m.logs[d]);
      assert Owned(cfg, tracks, m, nodes, e);
    }
    forall k | k in nodes ensures NodeToken(Remove(q, e), k, nodes[k]) {
      assert NodeToken(q, k, nodes[k]);
    }
    forall f | f in Remove(q, e).pending ensures Owned(cfg, tracks, m', nodes, f) {
      assert Owned(cfg, tracks, m, nodes, f);
    }
  }

  /** A channel with an idle server and a waiting request is given a start event. */
  lemma AttachChannel(cfg: Config, q: Queue, tracks: seq<Track>, m: MemoryState, nodes: map<nat, NodeState>,
                      time: nat, c: nat, ch: ChannelState, log: ChannelLog)
    requires MemoryShape(cfg, m) && InOrder(q) && Tokens(cfg, q, tracks, m, nodes) && c < cfg.channels
    requires !m.channels[c].startScheduled && ch.startScheduled && ch.queued != [] && q.now <= time
    requires log.start == Stamp(q, StartEvent(cfg, time, ch.queued[0]))
    requires Numbered(tracks, ch.queued[0]) && c == ChannelOf(tracks[ch.queued[0] - 1].request.obj, cfg.channels)
    ensures var q' := Schedule(q, StartEvent(cfg, time, ch.queued[0]));
            InOrder(q') && Tokens(cfg, q', tracks, MemoryState(m.channels[c := ch], m.logs[c := log]), nodes)
  {
    var e := StartEvent(cfg, time, ch.queued[0]);
    var q' := Schedule(q, e);
    var m' := MemoryState(m.channels[c := ch], m.logs[c := log]);
    ScheduleInOrder(q, e);
    forall j | 0 <= j < |tracks| ensures TrackToken(cfg, q', j, tracks[j]) {
      assert TrackToken(cfg, q, j, tracks[j]);
    }
    forall d | 0 <= d < cfg.channels ensures ChannelToken(cfg, q', tracks, d, m'.channels[d], m'.logs[d]) {
      assert ChannelToken(cfg, q, tracks, d, m.channels[d], m.logs[d]);
    }
    forall k | k in nodes ensures NodeToken(q', k, nodes[k]) {
      assert NodeToken(q, k, nodes[k]);
    }
    forall f | f in q'.pending ensures Owned(cfg, tracks, m', nodes, f) {
      assert f != Stamp(q, e) ==> Owned(cfg, tracks, m, nodes, f);
    }
  }

  /** A node changes, but not what it waits for. */
  lemma KeepNode(cfg: Config, q: Queue, tracks: seq<Track>, m: MemoryState, nodes: map<nat, NodeState>,
                 id: nat, n: NodeState)
    requires MemoryShape(cfg, m) && Tokens(cfg, q, tracks, m, nodes)
    requires id in nodes && n.generating == nodes[id].generating
    ensures Tokens(cfg, q, tracks, m, nodes[id := n])
  {
    forall k | k in nodes ensures NodeToken(q, k, nodes[id := n][k]) {
      assert NodeToken(q, k, nodes[k]);
    }
    forall f | f in q.pending ensures Owned(cfg, tracks, m, nodes[id := n], f) {
      assert Owned(cfg, tracks, m, nodes, f);
    }
  }

  /** The event by which a node issues its next request is popped. */
  lemma DetachNode(cfg: Config, q: Queue, tracks: seq<Track>, m: MemoryState, nodes: map<nat, NodeState>,
                   e: Event, id: nat, n: NodeState)
    requires MemoryShape(cfg, m) && Next(q, e) && Tokens(cfg, q, tracks, m, nodes)
    requires id in nodes && nodes[id].generating == Some(e) && n.generating.None?
    ensures InOrder(Remove(q, e)) && Tokens(cfg, Remove(q, e), tracks, m, nodes[id := n])
  {
    var nodes' := nodes[id := n];
    assert NodeToken(q, id, nodes[id]);
    forall j | 0 <= j < |tracks| ensures TrackToken(cfg, Remove(q, e), j, tracks[j]) {
      assert TrackToken(cfg, q, j, tracks[j]);
    }
    forall c | 0 <= c < cfg.channels
      ensures ChannelToken(cfg, Remove(q, e), tracks, c, m.channels[c], m.logs[c])
    {
      assert ChannelToken(cfg, q, tracks, c, m.channels[c], m.logs[c]);
    }
    forall k | k in nodes' ensures NodeToken(Remove(q, e), k, nodes'[k]) {
      assert NodeToken(q, k, nodes[k]);
    }
    forall f | f in Remove(q, e).pending ensures Owned(cfg, tracks, m, nodes', f) {
      assert Owned(cfg, tracks, m, nodes, f);
    }
  }

  /** A node is given the event by which it will issue its next request. */
  lemma AttachNode(cfg: Config, q: Queue, tracks: seq<Track>, m: MemoryState, nodes: map<nat, NodeState>,
                   time: nat, id: nat, n: NodeState)
    requires MemoryShape(cfg, m) && InOrder(q) && Tokens(cfg, q, tracks, m, nodes) && q.now <= time
    requires id in nodes && nodes[id].generating.None?
    requires n.generating == Some(Stamp(q, GenerateEvent(id, time)))
    ensures var q' := Schedule(q, GenerateEvent(id, time));
            InOrder(q') && Tokens(cfg, q', tracks, m, nodes[id := n])
  {
    var e := GenerateEvent(id, time);
    var q' := Schedule(q, e);
    var nodes' := nodes[id := n];
    ScheduleInOrder(q, e);
    forall j | 0 <= j < |tracks| ensures TrackToken(cfg, q', j, tracks[j]) {
      assert TrackToken(cfg, q, j, tracks[j]);
    }
    forall c | 0 <= c < cfg.channels ensures ChannelToken(cfg, q', tracks, c, m.channels[c], m.logs[c]) {
      assert ChannelToken(cfg, q, tracks, c, m.channels[c], m.logs[c]);
    }
    forall k | k in nodes' ensures NodeToken(q', k, nodes'[k]) {
      assert NodeToken(q, k, nodes[k]);
    }
    forall f | f in q'.pending ensures Owned(cfg, tracks, m, nodes', f) {
      assert f != Stamp(q, e) ==> Owned(cfg, tracks, m, nodes, f);
    }
  }
}
