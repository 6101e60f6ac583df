/** Every channel keeps behaving as a first-in first-out server. */
module HandlerChannels {
  import opened Model
  import opened Scheduling
  import opened Protocol
  import opened Invariants
  import opened HandlerTokens
  import opened HandlerTimes

  /* ---- The server's recursion ---- */

  lemma {:induction false} FreeAtPrefix(cfg: Config, arrivals: seq<Arrival>, a: Arrival, k: nat)
    requires cfg.bandwidth > 0 && k <= |arrivals|
    ensures FreeAt(cfg, arrivals + [a], k) == FreeAt(cfg, arrivals, k)
  {
    if k > 0 {
      FreeAtPrefix(cfg, arrivals, a, k - 1);
    }
  }

  /* ---- Channels that an event does not touch ---- */

  /** Memory cannot tell the two apart. */
  predicate SameToMemory(s: Track, t: Track) {
    AtMemory(s) && AtMemory(t) && t.place == s.place && t.wait == s.wait && t.request.obj == s.request.obj &&
    t.request.enqueueTime == s.request.enqueueTime && t.request.size == s.request.size &&
    (t.phase == Queued <==> s.phase == Queued) && (t.phase == Serving <==> s.phase == Serving)
  }

  lemma UntouchedChannel(cfg: Config, tracks: seq<Track>, i: nat, t: Track, ch: ChannelState, log: ChannelLog,
                         d: nat, now: nat, later: nat)
    requires cfg.channels > 0 && cfg.bandwidth > 0 && i < |tracks| && now <= later
    requires ChannelOk(cfg, tracks, ch, log, d, now)
    requires AtMemory(tracks[i]) && ChannelOf(tracks[i].request.obj, cfg.channels) == d ==> SameToMemory(tracks[i], t)
    ensures ChannelOk(cfg, tracks[i := t], ch, log, d, later)
  {
    var tracks' := tracks[i := t];
    forall k | 0 <= k < |log.arrivals| ensures ArrivalOk(cfg, tracks', log, d, k, later) {
      assert ArrivalOk(cfg, tracks, log, d, k, now);
    }
  }

  /** A request moves on outside memory, or without memory noticing. */
  lemma MoveElsewhere(cfg: Config, m: MemoryState, sh: Shared, sh': Shared, i: nat, t: Track)
    requires MemoryShape(cfg, m) && Channels(cfg, sh, m) && i < |sh.ledger.tracks|
    requires sh'.ledger.tracks == sh.ledger.tracks[i := t] && sh.queue.now <= sh'.queue.now
    requires SameToMemory(sh.ledger.tracks[i], t) || !(AtMemory(sh.ledger.tracks[i]) || AtMemory(t))
    ensures Channels(cfg, sh', m)
  {
    var tracks, tracks' := sh.ledger.tracks, sh'.ledger.tracks;
    forall c | 0 <= c < cfg.channels
      ensures ChannelOk(cfg, tracks', m.channels[c], m.logs[c], c, sh'.queue.now)
    {
      assert ChannelOk(cfg, tracks, m.channels[c], m.logs[c], c, sh.queue.now);
      UntouchedChannel(cfg, tracks, i, t, m.channels[c], m.logs[c], c, sh.queue.now, sh'.queue.now);
    }
    forall j | 0 <= j < |tracks'| ensures Located(cfg, m, j, tracks'[j]) {
      assert Located(cfg, m, j, tracks[j]);
    }
  }

  /** A request is entered, away from memory. */
  lemma EnterElsewhere(cfg: Config, m: MemoryState, sh: Shared, sh': Shared, t: Track)
    requires MemoryShape(cfg, m) && Channels(cfg, sh, m) && !AtMemory(t)
    requires sh'.ledger.tracks == sh.ledger.tracks + [t] && sh.queue.now <= sh'.queue.now
    ensures Channels(cfg, sh', m)
  {
    var tracks, tracks' := sh.ledger.tracks, sh'.ledger.tracks;
    forall c | 0 <= c < cfg.channels
      ensures ChannelOk(cfg, tracks', m.channels[c], m.logs[c], c, sh'.queue.now)
    {
      var log := m.logs[c];
      assert ChannelOk(cfg, tracks, m.channels[c], log, c, sh.queue.now);
      forall k | 0 <= k < |log.arrivals| ensures ArrivalOk(cfg, tracks', log, c, k, sh'.queue.now) {
        assert ArrivalOk(cfg, tracks, log, c, k, sh.queue.now);
      }
    }
    forall j | 0 <= j < |tracks'| ensures Located(cfg, m, j, tracks'[j]) {
      assert j < |tracks| ==> Located(cfg, m, j, tracks[j]);
    }
  }

  /* ---- The channel that an event touches ---- */

  /** A server that is not at work is free by now. */
  lemma FreeByNow(cfg: Config, tracks: seq<Track>, ch: ChannelState, log: ChannelLog, c: nat, now: nat)
    requires cfg.channels > 0 && cfg.bandwidth > 0 && ChannelOk(cfg, tracks, ch, log, c, now) && !ch.busy
    ensures FreeAt(cfg, log.arrivals, |log.starts|) <= now
  {
    if |log.dones| > 0 {
      assert ArrivalOk(cfg, tracks, log, c, |log.dones| - 1, now);
    }
  }

  /** An arrival is not affected by a later one of another request. */
  lemma StillOk(cfg: Config, tracks: seq<Track>, log: ChannelLog, c: nat, k: nat, now: nat, other: nat, t: Track,
                a: Arrival, start: Event, later: nat)
    requires cfg.channels > 0 && cfg.bandwidth > 0 && k < |log.arrivals| && ArrivalOk(cfg, tracks, log, c, k, now)
    requires Numbered(tracks, other) && !AtMemory(tracks[other - 1]) && now <= later
    ensures ArrivalOk(cfg, tracks[other - 1 := t],
                      ChannelLog(log.arrivals + [a], log.starts, log.dones, start), c, k, later)
  {
    FreeAtPrefix(cfg, log.arrivals, a, k);
    FreeAtPrefix(cfg, log.arrivals, a, k + 1);
  }

  lemma ArriveOk(cfg: Config, tracks: seq<Track>, ch: ChannelState, log: ChannelLog, c: nat, now: nat, e: Event,
                 t: Track, start: Event)
    requires cfg.channels > 0 && cfg.bandwidth > 0 && ChannelOk(cfg, tracks, ch, log, c, now)
    requires Numbered(tracks, e.request) && !AtMemory(tracks[e.request - 1]) && now <= e.time
    requires t.phase == Queued && t.place == |log.arrivals| && ChannelOf(t.request.obj, cfg.channels) == c
    requires t.request.enqueueTime == e.time && start.time == e.time
    ensures var idle := !ch.busy && !ch.startScheduled;
            ChannelOk(cfg, tracks[e.request - 1 := t],
                      ChannelState(ch.queued + [e.request], ch.busy, idle || ch.startScheduled),
                      ChannelLog(log.arrivals + [Arrival(e.request, e.time, t.request.size)], log.starts, log.dones,
                                 if idle then start else log.start), c, e.time)
  {
    var idle := !ch.busy && !ch.startScheduled;
    var a := Arrival(e.request, e.time, t.request.size);
    var tracks' := tracks[e.request - 1 := t];
    var log' := ChannelLog(log.arrivals + [a], log.starts, log.dones, if idle then start else log.start);
    var served := |log.starts|;
    forall k | 0 <= k < |log'.arrivals| ensures ArrivalOk(cfg, tracks', log', c, k, e.time) {
      if k < |log.arrivals| {
        assert ArrivalOk(cfg, tracks, log, c, k, now);
        StillOk(cfg, tracks, log, c, k, now, e.request, t, a, log'.start, e.time);
      }
    }
    assert InArrivalOrder(log'.arrivals) by {
      forall k | 0 <= k < |log.arrivals| ensures log.arrivals[k].time <= e.time {
        assert ArrivalOk(cfg, tracks, log, c, k, now);
      }
    }
    FreeAtPrefix(cfg, log.arrivals, a, served);
    if idle {
      FreeByNow(cfg, tracks, ch, log, c, now);
    }
  }

  lemma BeginOk(cfg: Config, tracks: seq<Track>, ch: ChannelState, log: ChannelLog, c: nat, now: nat, e: Event,
                t: Track)
    requires cfg.channels > 0 && cfg.bandwidth > 0 && ChannelOk(cfg, tracks, ch, log, c, now) && now <= e.time
    requires ch.startScheduled && ch.queued[0] == e.request && Numbered(tracks, e.request)
    requires e.time == StartAt(cfg, log.arrivals, |log.starts|)
    requires var s := tracks[e.request - 1];
             t.phase == Serving && t.place == s.place && t.request == s.request.(stage := t.request.stage) &&
             t.hit == s.hit && t.wait == e.time - s.request.enqueueTime
    ensures ChannelOk(cfg, tracks[e.request - 1 := t], ChannelState(ch.queued[1..], true, false),
                      log.(starts := log.starts + [e.time]), c, e.time)
  {
    var tracks' := tracks[e.request - 1 := t];
    var log' := log.(starts := log.starts + [e.time]);
    assert ArrivalOk(cfg, tracks, log, c, |log.starts|, now);
    forall k | 0 <= k < |log'.arrivals| ensures ArrivalOk(cfg, tracks', log', c, k, e.time) {
      assert ArrivalOk(cfg, tracks, log, c, k, now);
    }
  }

  lemma DoneOk(cfg: Config, tracks: seq<Track>, ch: ChannelState, log: ChannelLog, c: nat, now: nat, e: Event,
               t: Track, start: Event)
    requires cfg.channels > 0 && cfg.bandwidth > 0 && ChannelOk(cfg, tracks, ch, log, c, now) && now <= e.time
    requires ch.busy && Numbered(tracks, e.request)
    requires |log.starts| > 0 && log.arrivals[|log.starts| - 1].request == e.request
    requires var s := tracks[e.request - 1];
             s.request.enqueueTime + s.wait + ServiceTime(cfg, s.request.size) == e.time &&
             t.phase == Returning && t.place == s.place && t.request == s.request && t.hit == s.hit && t.wait == s.wait
    requires start.time == e.time
    ensures ChannelOk(cfg, tracks[e.request - 1 := t], ChannelState(ch.queued, false, ch.queued != []),
                      ChannelLog(log.arrivals, log.starts, log.dones + [e.time],
                                 if ch.queued != [] then start else log.start), c, e.time)
  {
    var tracks' := tracks[e.request - 1 := t];
    var last := |log.starts| - 1;
    var log' := ChannelLog(log.arrivals, log.starts, log.dones + [e.time],
                           if ch.queued != [] then start else log.start);
    assert ArrivalOk(cfg, tracks, log, c, last, now);
    forall k | 0 <= k < |log'.arrivals| ensures ArrivalOk(cfg, tracks', log', c, k, e.time) {
      assert ArrivalOk(cfg, tracks, log, c, k, now);
    }
    if ch.queued != [] {
      assert ArrivalOk(cfg, tracks, log, c, last + 1, now);
    }
  }

  /** One channel and one request at it change; the others are as they were. */
  lemma OneChannelChanges(cfg: Config, m: MemoryState, sh: Shared, m': MemoryState, sh': Shared, c: nat, i: nat)
    requires MemoryShape(cfg, m) && Channels(cfg, sh, m) && c < cfg.channels && i < |sh.ledger.tracks|
    requires |sh'.ledger.tracks| == |sh.ledger.tracks| && sh.queue.now <= sh'.queue.now
    requires MemoryShape(cfg, m') && sh'.ledger.tracks == sh.ledger.tracks[i := sh'.ledger.tracks[i]]
    requires m'.channels == m.channels[c := m'.channels[c]] && m'.logs == m.logs[c := m'.logs[c]]
    requires m.logs[c].arrivals <= m'.logs[c].arrivals
    requires ChannelOf(sh.ledger.tracks[i].request.obj, cfg.channels) == c
    requires ChannelOk(cfg, sh'.ledger.tracks, m'.channels[c], m'.logs[c], c, sh'.queue.now)
    requires Located(cfg, m', i, sh'.ledger.tracks[i])
    ensures Channels(cfg, sh', m')
  {
    var tracks, tracks' := sh.ledger.tracks, sh'.ledger.tracks;
    forall d | 0 <= d < cfg.channels
      ensures ChannelOk(cfg, tracks', m'.channels[d], m'.logs[d], d, sh'.queue.now)
    {
      if d != c {
        assert ChannelOk(cfg, tracks, m.channels[d], m.logs[d], d, sh.queue.now);
        UntouchedChannel(cfg, tracks, i, tracks'[i], m.channels[d], m.logs[d], d, sh.queue.now, sh'.queue.now);
      }
    }
    forall j | 0 <= j < |tracks'| ensures Located(cfg, m', j, tracks'[j]) {
      assert j != i ==> Located(cfg, m, j, tracks[j]);
    }
  }

  /* ---- Handlers ---- */

  lemma ForwardFinds(cfg: Config, m: MemoryState, sh: Shared, nodes: map<nat, NodeState>, e: Event)
    requires MemoryShape(cfg, m) && AtMemoryNode(cfg, m, sh, nodes, e) && Times(cfg, sh.ledger)
    requires e.kind == ForwardToMemory
    ensures Numbered(sh.ledger.tracks, e.request)
    ensures var t := sh.ledger.tracks[e.request - 1]; t.phase == Forwarding && !t.hit && t.event == e
    ensures sh.queue.now <= e.time
  {
    assert Owned(cfg, sh.ledger.tracks, m, nodes, e);
    assert TrackToken(cfg, sh.queue, e.request - 1, sh.ledger.tracks[e.request - 1]);
    assert Timed(cfg, sh.ledger.tracks[e.request - 1]);
  }

  lemma ForwardChannels(cfg: Config, m: MemoryState, sh: Shared, nodes: map<nat, NodeState>, e: Event)
    requires MemoryShape(cfg, m) && AtMemoryNode(cfg, m, sh, nodes, e) && Times(cfg, sh.ledger)
    requires e.kind == ForwardToMemory
    ensures MemoryForward(cfg, m, Taken(sh, e), e).Ok?
    ensures var (m', sh') := MemoryForward(cfg, m, Taken(sh, e), e).value;
            MemoryShape(cfg, m') && Channels(cfg, sh', m')
  {
    hide Tokens, ChannelOk, ArrivalStats;
    ForwardFinds(cfg, m, sh, nodes, e);
    var q, tracks, i := sh.queue, sh.ledger.tracks, e.request - 1;
    var c := ChannelOf(tracks[i].request.obj, cfg.channels);
    var ch, log := m.channels[c], m.logs[c];
    assert ChannelOk(cfg, tracks, ch, log, c, q.now);
    var (m', sh') := MemoryForward(cfg, m, Taken(sh, e), e).value;
    var t := sh'.ledger.tracks[i];
    var start := Stamp(Remove(q, e), StartEvent(cfg, e.time, (ch.queued + [e.request])[0]));
    ArriveOk(cfg, tracks, ch, log, c, q.now, e, t, start);
    assert sh'.ledger.tracks == tracks[i := t];
    OneChannelChanges(cfg, m, sh, m', sh', c, i);
  }

  lemma StartChannels(cfg: Config, m: MemoryState, sh: Shared, nodes: map<nat, NodeState>, e: Event)
    requires MemoryShape(cfg, m) && AtMemoryNode(cfg, m, sh, nodes, e) && Times(cfg, sh.ledger)
    requires e.kind == MemoryServiceStart
    ensures MemoryStart(cfg, m, Taken(sh, e), e).Ok?
    ensures var (m', sh') := MemoryStart(cfg, m, Taken(sh, e), e).value;
            MemoryShape(cfg, m') && Channels(cfg, sh', m')
  {
    StartOnTime(cfg, m, sh, nodes, e);
    var q, tracks, i := sh.queue, sh.ledger.tracks, e.request - 1;
    var c := ChannelOf(tracks[i].request.obj, cfg.channels);
    assert Timed(cfg, tracks[i]) && Located(cfg, m, i, tracks[i]);
    assert ChannelOk(cfg, tracks, m.channels[c], m.logs[c], c, q.now);
    var (m', sh') := MemoryStart(cfg, m, Taken(sh, e), e).value;
    var t := sh'.ledger.tracks[i];
    BeginOk(cfg, tracks, m.channels[c], m.logs[c], c, q.now, e, t);
    assert sh'.ledger.tracks == tracks[i := t];
    OneChannelChanges(cfg, m, sh, m', sh', c, i);
  }

  lemma CompleteChannels(cfg: Config, m: MemoryState, sh: Shared, nodes: map<nat, NodeState>, e: Event)
    requires MemoryShape(cfg, m) && AtMemoryNode(cfg, m, sh, nodes, e) && Times(cfg, sh.ledger)
    requires e.kind == MemoryServiceComplete
    ensures MemoryComplete(cfg, m, Taken(sh, e), e).Ok?
    ensures var (m', sh') := MemoryComplete(cfg, m, Taken(sh, e), e).value;
            MemoryShape(cfg, m') && Channels(cfg, sh', m')
  {
    var q, tracks, i := sh.queue, sh.ledger.tracks, e.request - 1;
    assert Owned(cfg, tracks, m, nodes, e);
    assert TrackToken(cfg, q, i, tracks[i]) && Timed(cfg, tracks[i]) && Located(cfg, m, i, tracks[i]);
    var c := ChannelOf(tracks[i].request.obj, cfg.channels);
    var ch, log := m.channels[c], m.logs[c];
    ServingIsBusy(cfg, m, sh, i, c);
    assert ChannelOk(cfg, tracks, ch, log, c, q.now);
    assert ArrivalOk(cfg, tracks, log, c, tracks[i].place, q.now);
    var (m', sh') := MemoryComplete(cfg, m, Taken(sh, e), e).value;
    var t := sh'.ledger.tracks[i];
    DoneOk(cfg, tracks, ch, log, c, q.now, e, t,
           if ch.queued != [] then m'.logs[c].start else Event(e.time, GenerateRequest, 0, 0, 0));
    assert sh'.ledger.tracks == tracks[i := t];
    OneChannelChanges(cfg, m, sh, m', sh', c, i);
  }

  lemma LookupChannels(cfg: Config, m: MemoryState, sh: Shared, nodes: map<nat, NodeState>, e: Event)
    requires MemoryShape(cfg, m) && AtNode(cfg, m, sh, nodes, e) && Channels(cfg, sh, m)
    requires e.kind == LocalCacheLookup
    ensures NodeLookup(cfg, e.target, nodes[e.target], Taken(sh, e), e).Ok?
    ensures Channels(cfg, NodeLookup(cfg, e.target, nodes[e.target], Taken(sh, e), e).value.1, m)
  {
    RequestAtNode(cfg, m, sh, nodes, e);
    var (n', sh') := NodeLookup(cfg, e.target, nodes[e.target], Taken(sh, e), e).value;
    MoveElsewhere(cfg, m, sh, sh', e.request - 1, sh'.ledger.tracks[e.request - 1]);
  }

  lemma RespondChannels(cfg: Config, m: MemoryState, sh: Shared, nodes: map<nat, NodeState>, e: Event,
                        n: NodeState, tier: Tier, bytes: nat)
    requires MemoryShape(cfg, m) && AtNode(cfg, m, sh, nodes, e) && Channels(cfg, sh, m) && Times(cfg, sh.ledger)
    requires e.kind == LocalCacheHitComplete || e.kind == ReturnResponse
    requires Known(Taken(sh, e), e.request) && n.outstanding > 0
    ensures Channels(cfg, Respond(e.target, n, Taken(sh, e), e, tier, bytes).value.1, m)
  {
    RequestAtNode(cfg, m, sh, nodes, e);
    assert Timed(cfg, sh.ledger.tracks[e.request - 1]);
    var (n', sh') := Respond(e.target, n, Taken(sh, e), e, tier, bytes).value;
    MoveElsewhere(cfg, m, sh, sh', e.request - 1, sh'.ledger.tracks[e.request - 1]);
  }

  lemma FinishChannels(cfg: Config, m: MemoryState, sh: Shared, nodes: map<nat, NodeState>, e: Event)
    requires MemoryShape(cfg, m) && AtNode(cfg, m, sh, nodes, e) && Channels(cfg, sh, m)
    requires e.kind == RequestComplete
    ensures Channels(cfg, NodeComplete(cfg, e.target, nodes[e.target], Taken(sh, e), e).value.1, m)
  {
    RequestAtNode(cfg, m, sh, nodes, e);
    var (n', sh') := NodeComplete(cfg, e.target, nodes[e.target], Taken(sh, e), e).value;
    MoveElsewhere(cfg, m, sh, sh', e.request - 1, sh'.ledger.tracks[e.request - 1]);
  }

  lemma GenerateChannels(cfg: Config, m: MemoryState, sh: Shared, n: NodeState, e: Event)
    requires MemoryShape(cfg, m) && Channels(cfg, sh, m) && NextSpec(n).Some? && sh.queue.now <= e.time
    ensures Channels(cfg, NodeGenerate(cfg, e.target, n, Taken(sh, e), e).value.1, m)
  {
    var (n', sh') := NodeGenerate(cfg, e.target, n, Taken(sh, e), e).value;
    EnterElsewhere(cfg, m, sh, sh', sh'.ledger.tracks[|sh.ledger.tracks|]);
  }
}
