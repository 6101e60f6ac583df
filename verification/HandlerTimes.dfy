/** Every handler records the times of its request, and answers it once. */
module HandlerTimes {
  import opened Model
  import opened Scheduling
  import opened Protocol
  import opened Invariants
  import opened HandlerTokens

  ghost predicate Recorded(cfg: Config, l: Ledger)
    requires cfg.bandwidth > 0
  {
    Times(cfg, l) && Responses(l)
  }

  /** One request moves on without being answered. */
  lemma MoveOn(cfg: Config, l: Ledger, i: nat, t: Track)
    requires cfg.bandwidth > 0 && Recorded(cfg, l) && i < |l.tracks| && Timed(cfg, t)
    requires Answered(l.tracks[i].phase) <==> Answered(t.phase)
    requires Answered(t.phase) ==> HasResponse(t, l.responses) && t.response == l.tracks[i].response
    ensures Recorded(cfg, l.(tracks := l.tracks[i := t]))
  {
    var l' := l.(tracks := l.tracks[i := t]);
    forall j | 0 <= j < |l'.tracks| ensures Timed(cfg, l'.tracks[j]) && HasResponse(l'.tracks[j], l'.responses) {
      assert j != i ==> Timed(cfg, l.tracks[j]) && HasResponse(l.tracks[j], l.responses);
    }
    forall k | 0 <= k < |l'.responses| ensures Answers(l'.tracks, l'.responses[k], k) {
      assert Answers(l.tracks, l.responses[k], k);
    }
  }

  /** One request is answered. */
  lemma Answer(cfg: Config, l: Ledger, i: nat, t: Track, r: Response)
    requires cfg.bandwidth > 0 && Recorded(cfg, l) && i < |l.tracks| && Timed(cfg, t)
    requires !Answered(l.tracks[i].phase) && Answered(t.phase) && t.response == |l.responses|
    requires HasResponse(t, l.responses + [r]) && r.request == i + 1
    ensures Recorded(cfg, Ledger(l.tracks[i := t], l.responses + [r]))
  {
    var l' := Ledger(l.tracks[i := t], l.responses + [r]);
    forall j | 0 <= j < |l'.tracks| ensures Timed(cfg, l'.tracks[j]) && HasResponse(l'.tracks[j], l'.responses) {
      assert j != i ==> Timed(cfg, l.tracks[j]) && HasResponse(l.tracks[j], l.responses);
    }
    forall k | 0 <= k < |l'.responses| ensures Answers(l'.tracks, l'.responses[k], k) {
      assert k < |l.responses| ==> Answers(l.tracks, l.responses[k], k);
    }
  }

  /** A request is entered. */
  lemma Enter(cfg: Config, l: Ledger, t: Track)
    requires cfg.bandwidth > 0 && Recorded(cfg, l) && Timed(cfg, t) && !Answered(t.phase)
    ensures Recorded(cfg, l.(tracks := l.tracks + [t]))
  {
    var l' := l.(tracks := l.tracks + [t]);
    forall j | 0 <= j < |l'.tracks| ensures Timed(cfg, l'.tracks[j]) && HasResponse(l'.tracks[j], l'.responses) {
      assert j < |l.tracks| ==> Timed(cfg, l.tracks[j]) && HasResponse(l.tracks[j], l.responses);
    }
    forall k | 0 <= k < |l'.responses| ensures Answers(l'.tracks, l'.responses[k], k) {
      assert Answers(l.tracks, l.responses[k], k);
    }
  }

  lemma ForwardTimes(cfg: Config, m: MemoryState, sh: Shared, nodes: map<nat, NodeState>, e: Event)
    requires MemoryShape(cfg, m) && AtMemoryNode(cfg, m, sh, nodes, e) && Recorded(cfg, sh.ledger)
    requires e.kind == ForwardToMemory
    ensures MemoryForward(cfg, m, Taken(sh, e), e).Ok?
    ensures Recorded(cfg, MemoryForward(cfg, m, Taken(sh, e), e).value.1.ledger)
  {
    var tracks, i := sh.ledger.tracks, e.request - 1;
    assert Owned(cfg, tracks, m, nodes, e);
    assert TrackToken(cfg, sh.queue, i, tracks[i]) && Timed(cfg, tracks[i]);
    var (m', sh') := MemoryForward(cfg, m, Taken(sh, e), e).value;
    MoveOn(cfg, sh.ledger, i, sh'.ledger.tracks[i]);
  }

  /** A start event comes at the time that the server's order prescribes. */
  lemma StartOnTime(cfg: Config, m: MemoryState, sh: Shared, nodes: map<nat, NodeState>, e: Event)
    requires MemoryShape(cfg, m) && AtMemoryNode(cfg, m, sh, nodes, e) && e.kind == MemoryServiceStart
    ensures Numbered(sh.ledger.tracks, e.request)
    ensures var t := sh.ledger.tracks[e.request - 1];
            var c := ChannelOf(t.request.obj, cfg.channels);
            var log := m.logs[c];
            && t.phase == Queued && m.channels[c].startScheduled && m.channels[c].queued != []
            && m.channels[c].queued[0] == e.request && t.place == |log.starts| < |log.arrivals|
            && log.arrivals[|log.starts|].request == e.request
            && e.time == StartAt(cfg, log.arrivals, |log.starts|) && t.request.enqueueTime <= e.time
            && t.request.enqueueTime == log.arrivals[|log.starts|].time
  {
    var tracks, i := sh.ledger.tracks, e.request - 1;
    assert Owned(cfg, tracks, m, nodes, e);
    var c := ChannelOf(tracks[i].request.obj, cfg.channels);
    assert ChannelToken(cfg, sh.queue, tracks, c, m.channels[c], m.logs[c]);
    assert ChannelOk(cfg, tracks, m.channels[c], m.logs[c], c, sh.queue.now);
    assert m.channels[c].queued[0] == e.request;
    assert ArrivalOk(cfg, tracks, m.logs[c], c, |m.logs[c].starts|, sh.queue.now);
  }

  lemma StartTimes(cfg: Config, m: MemoryState, sh: Shared, nodes: map<nat, NodeState>, e: Event)
    requires MemoryShape(cfg, m) && AtMemoryNode(cfg, m, sh, nodes, e) && Recorded(cfg, sh.ledger)
    requires e.kind == MemoryServiceStart
    ensures MemoryStart(cfg, m, Taken(sh, e), e).Ok?
    ensures Recorded(cfg, MemoryStart(cfg, m, Taken(sh, e), e).value.1.ledger)
  {
    StartOnTime(cfg, m, sh, nodes, e);
    var tracks, i := sh.ledger.tracks, e.request - 1;
    assert Timed(cfg, tracks[i]);
    var (m', sh') := MemoryStart(cfg, m, Taken(sh, e), e).value;
    MoveOn(cfg, sh.ledger, i, sh'.ledger.tracks[i]);
  }

  lemma CompleteTimes(cfg: Config, m: MemoryState, sh: Shared, nodes: map<nat, NodeState>, e: Event)
    requires MemoryShape(cfg, m) && AtMemoryNode(cfg, m, sh, nodes, e) && Recorded(cfg, sh.ledger)
    requires e.kind == MemoryServiceComplete
    ensures MemoryComplete(cfg, m, Taken(sh, e), e).Ok?
    ensures Recorded(cfg, MemoryComplete(cfg, m, Taken(sh, e), e).value.1.ledger)
  {
    var tracks, i := sh.ledger.tracks, e.request - 1;
    assert Owned(cfg, tracks, m, nodes, e);
    assert TrackToken(cfg, sh.queue, i, tracks[i]) && Timed(cfg, tracks[i]);
    ServingIsBusy(cfg, m, sh, i, ChannelOf(tracks[i].request.obj, cfg.channels));
    var (m', sh') := MemoryComplete(cfg, m, Taken(sh, e), e).value;
    MoveOn(cfg, sh.ledger, i, sh'.ledger.tracks[i]);
  }

  lemma LookupTimes(cfg: Config, m: MemoryState, sh: Shared, nodes: map<nat, NodeState>, e: Event)
    requires MemoryShape(cfg, m) && AtNode(cfg, m, sh, nodes, e) && Recorded(cfg, sh.ledger)
    requires e.kind == LocalCacheLookup
    ensures NodeLookup(cfg, e.target, nodes[e.target], Taken(sh, e), e).Ok?
    ensures Recorded(cfg, NodeLookup(cfg, e.target, nodes[e.target], Taken(sh, e), e).value.1.ledger)
  {
    RequestAtNode(cfg, m, sh, nodes, e);
    assert Timed(cfg, sh.ledger.tracks[e.request - 1]);
    var (n', sh') := NodeLookup(cfg, e.target, nodes[e.target], Taken(sh, e), e).value;
    MoveOn(cfg, sh.ledger, e.request - 1, sh'.ledger.tracks[e.request - 1]);
  }

  lemma RespondTimes(cfg: Config, m: MemoryState, sh: Shared, nodes: map<nat, NodeState>, e: Event, n: NodeState)
    requires MemoryShape(cfg, m) && AtNode(cfg, m, sh, nodes, e) && Recorded(cfg, sh.ledger)
    requires e.kind == LocalCacheHitComplete || e.kind == ReturnResponse
    requires Known(Taken(sh, e), e.request) && n.outstanding > 0
    ensures var size := sh.ledger.tracks[e.request - 1].request.size;
            var hit := e.kind == LocalCacheHitComplete;
            Recorded(cfg, Respond(e.target, n, Taken(sh, e), e, if hit then LocalTier else MemoryTier,
                                  if hit then 0 else size).value.1.ledger)
  {
    RequestAtNode(cfg, m, sh, nodes, e);
    var i := e.request - 1;
    var t := sh.ledger.tracks[i];
    assert Timed(cfg, t);
    var hit := e.kind == LocalCacheHitComplete;
    var (n', sh') := Respond(e.target, n, Taken(sh, e), e, if hit then LocalTier else MemoryTier,
                             if hit then 0 else t.request.size).value;
    Answer(cfg, sh.ledger, i, sh'.ledger.tracks[i], sh'.ledger.responses[|sh.ledger.responses|]);
  }

  lemma FinishTimes(cfg: Config, m: MemoryState, sh: Shared, nodes: map<nat, NodeState>, e: Event)
    requires MemoryShape(cfg, m) && AtNode(cfg, m, sh, nodes, e) && Recorded(cfg, sh.ledger)
    requires e.kind == RequestComplete
    ensures Recorded(cfg, NodeComplete(cfg, e.target, nodes[e.target], Taken(sh, e), e).value.1.ledger)
  {
    RequestAtNode(cfg, m, sh, nodes, e);
    var i := e.request - 1;
    assert Timed(cfg, sh.ledger.tracks[i]) && HasResponse(sh.ledger.tracks[i], sh.ledger.responses);
    var (n', sh') := NodeComplete(cfg, e.target, nodes[e.target], Taken(sh, e), e).value;
    MoveOn(cfg, sh.ledger, i, sh'.ledger.tracks[i]);
  }

  lemma GenerateTimes(cfg: Config, n: NodeState, sh: Shared, e: Event)
    requires cfg.bandwidth > 0 && Recorded(cfg, sh.ledger) && NextSpec(n).Some?
    ensures Recorded(cfg, NodeGenerate(cfg, e.target, n, Taken(sh, e), e).value.1.ledger)
  {
    var (n', sh') := NodeGenerate(cfg, e.target, n, Taken(sh, e), e).value;
    Enter(cfg, sh.ledger, sh'.ledger.tracks[|sh.ledger.tracks|]);
  }
}
