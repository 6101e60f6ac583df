/** Whole runs: they end, every request is answered once, epochs do not overlap, and the totals add up. */
module Runs {
  import opened Model
  import opened Totals
  import opened Cache
  import opened Scheduling
  import opened Statistics
  import opened Protocol
  import opened Invariants
  import opened Releases
  import opened Steps

  /* ---- The initial state ---- */

  lemma {:induction false} InitialNodesAre(cfg: Config, k: nat)
    requires ValidConfig(cfg) && k <= |cfg.nodes|
    ensures InitialNodes(cfg, k).Keys == (set i | 0 <= i < k :: cfg.nodes[i].id)
    ensures forall i :: 0 <= i < k ==>
              cfg.nodes[i].id in InitialNodes(cfg, k) &&
              InitialNodes(cfg, k)[cfg.nodes[i].id] == NewNode(cfg, cfg.nodes[i].requests)
  {
    hide NewNode;
    if k > 0 {
      InitialNodesAre(cfg, k - 1);
    }
  }

  lemma {:induction false} AllUnissued(cfg: Config, k: nat)
    requires ValidConfig(cfg) && k <= |cfg.nodes|
    ensures Unissued(cfg, InitialNodes(cfg, |cfg.nodes|), k) == RequestCount(cfg.nodes[..k])
  {
    if k > 0 {
      AllUnissued(cfg, k - 1);
      InitialNodesAre(cfg, |cfg.nodes|);
      assert cfg.nodes[..k][..k - 1] == cfg.nodes[..k - 1];
    }
  }

  lemma InitialStreams(cfg: Config)
    requires ValidConfig(cfg)
    ensures Streams(cfg, [], InitialNodes(cfg, |cfg.nodes|), None, map[])
  {
    InitialNodesAre(cfg, |cfg.nodes|);
    var nodes := InitialNodes(cfg, |cfg.nodes|);
    forall id | id in nodes
      ensures NodeOk(cfg, nodes[id], None, map[]) && nodes[id].outstanding == CountInFlight([], id)
      ensures Progresses(cfg, [], id, nodes[id], None) && Listed([], id, nodes[id])
    {
      var i :| 0 <= i < |cfg.nodes| && cfg.nodes[i].id == id;
    }
  }

  lemma InitialCore(cfg: Config)
    requires ValidConfig(cfg)
    ensures Core(cfg, Initial(cfg))
  {
    var s := Initial(cfg);
    InitialNodesAre(cfg, |cfg.nodes|);
    InitialStreams(cfg);
    AllUnissued(cfg, |cfg.nodes|);
    assert cfg.nodes[..|cfg.nodes|] == cfg.nodes;
    NewCacheIsSound(cfg.capacity, cfg.policy);
    assert RecordedService(map[]) == 0;
    forall id | id in s.nodes
      ensures Sound(s.nodes[id].cache) && Exact(s.nodes[id].cache) && NodeToken(s.shared.queue, id, s.nodes[id])
    {
      var i :| 0 <= i < |cfg.nodes| && cfg.nodes[i].id == id;
    }
    forall c | 0 <= c < cfg.channels
      ensures ChannelOk(cfg, s.shared.ledger.tracks, s.memory.channels[c], s.memory.logs[c], c, s.shared.queue.now)
    {
    }
  }

  /* ---- Runs ---- */

  /** One turn of the loop, or nothing more to do: a drained queue ends the loop, and so would an exception. */
  ghost function Turn(cfg: Config, s: State): State {
    if MemoryShape(cfg, s.memory) && Orderly(s.shared.queue) && s.shared.queue.pending != {} && Step(cfg, s).Ok?
    then Step(cfg, s).value else s
  }

  /** The state after `k` turns of the event loop. */
  ghost function Run(cfg: Config, k: nat): State {
    if k == 0 then Release(cfg, Initial(cfg)) else Turn(cfg, Run(cfg, k - 1))
  }

  lemma {:induction false} RunKeeps(cfg: Config, k: nat)
    requires ValidConfig(cfg)
    ensures Inv(cfg, Run(cfg, k))
  {
    hide Turn, Inv, Core, Release;
    if k == 0 {
      InitialCore(cfg);
      ReleaseKeeps(cfg, Initial(cfg));
    } else {
      RunKeeps(cfg, k - 1);
      TurnKeeps(cfg, Run(cfg, k - 1));
    }
  }

  lemma TurnKeeps(cfg: Config, s: State)
    requires Inv(cfg, s)
    ensures Inv(cfg, Turn(cfg, s))
  {
    if s.shared.queue.pending != {} {
      StepKeeps(cfg, s);
    }
  }

  /** No reachable state throws an exception, and no event has ever been turned away by the scheduler. */
  lemma NothingThrown(cfg: Config, k: nat)
    requires ValidConfig(cfg)
    ensures var s := Run(cfg, k);
            && MemoryShape(cfg, s.memory) && Orderly(s.shared.queue) && s.shared.queue.refused == 0
            && (s.shared.queue.pending != {} ==> Step(cfg, s).Ok?)
  {
    RunKeeps(cfg, k);
    if Run(cfg, k).shared.queue.pending != {} {
      StepKeeps(cfg, Run(cfg, k));
    }
  }

  /* ---- Runs end ---- */

  lemma {:induction false} ReleaseNodesFrame(cfg: Config, s: State, epoch: nat, k: nat)
    requires k <= |cfg.nodes|
    ensures var r := ReleaseNodes(cfg, s, epoch, k);
            && r.log == s.log && r.memory == s.memory && r.shared.ledger == s.shared.ledger
            && r.shared.stats == s.shared.stats && r.released == s.released && r.releases == s.releases
            && r.shared.queue.now == s.shared.queue.now
  {
    if k > 0 {
      ReleaseNodesFrame(cfg, s, epoch, k - 1);
    }
  }

  lemma ReleaseFrame(cfg: Config, s: State)
    ensures var r := Release(cfg, s);
            && r.log == s.log && r.memory == s.memory && r.shared.ledger == s.shared.ledger
            && r.shared.stats == s.shared.stats && r.shared.queue.now == s.shared.queue.now
  {
    if NextEpoch(cfg, s, |cfg.nodes|).Some? {
      var epoch := NextEpoch(cfg, s, |cfg.nodes|).value;
      ReleaseNodesFrame(cfg, Announce(s, epoch), epoch, |cfg.nodes|);
    }
  }

  lemma DispatchLogs(cfg: Config, s: State, e: Event)
    requires MemoryShape(cfg, s.memory)
    ensures Dispatch(cfg, s, e).Ok? ==> |Dispatch(cfg, s, e).value.log| == |s.log| + 1
  {
  }

  lemma StepLogs(cfg: Config, s: State)
    requires MemoryShape(cfg, s.memory) && Orderly(s.shared.queue) && s.shared.queue.pending != {}
    ensures Step(cfg, s).Ok? ==> |Step(cfg, s).value.log| == |s.log| + 1
  {
    var e, t := Least(s.shared.queue), s.(shared := s.shared.(queue := Pop(s.shared.queue)));
    DispatchLogs(cfg, t, e);
    if Dispatch(cfg, t, e).Ok? {
      ReleaseFrame(cfg, Dispatch(cfg, t, e).value);
    }
  }

  lemma TurnLogs(cfg: Config, s: State)
    requires Inv(cfg, s)
    ensures if s.shared.queue.pending == {} then Turn(cfg, s) == s else |Turn(cfg, s).log| == |s.log| + 1
  {
    if s.shared.queue.pending != {} {
      StepKeeps(cfg, s);
      StepLogs(cfg, s);
    }
  }

  lemma {:induction false} OneUnissued(cfg: Config, nodes: map<nat, NodeState>, i: nat, k: nat)
    requires i < k <= |cfg.nodes| && cfg.nodes[i].id in nodes
    requires nodes[cfg.nodes[i].id].next < |cfg.nodes[i].requests|
    ensures Unissued(cfg, nodes, k) > 0
  {
    if i < k - 1 {
      OneUnissued(cfg, nodes, i, k - 1);
    }
  }

  /** A pending event is one of the events that a request has still to come. */
  lemma PendingPays(cfg: Config, s: State)
    requires Core(cfg, s) && s.shared.queue.pending != {}
    ensures 7 * Unissued(cfg, s.nodes, |cfg.nodes|) + SumBy(Remaining, s.shared.ledger.tracks) > 0
  {
    hide Times, Responses, Channels, OneAtATime, EventsCounted, StatsCounted, CachesSound, CachesExact;
    var tracks, e := s.shared.ledger.tracks, Least(s.shared.queue);
    Addressed(cfg, s, e);
    assert Owned(cfg, tracks, s.memory, s.nodes, e);
    if e.kind == GenerateRequest {
      assert NodeOk(cfg, s.nodes[e.target], s.released, s.releases);
      var i :| 0 <= i < |cfg.nodes| && cfg.nodes[i].id == e.target;
      OneUnissued(cfg, s.nodes, i, |cfg.nodes|);
    } else {
      if e.kind == MemoryServiceStart {
        MemoryRequestIsMissing(cfg, s, e);
      }
      SumByMember(Remaining, tracks, e.request - 1);
    }
  }

  lemma NextTurnLogs(cfg: Config, k: nat)
    requires ValidConfig(cfg) && k > 0 && Run(cfg, k).shared.queue.pending != {}
    ensures Run(cfg, k - 1).shared.queue.pending != {}
    ensures |Run(cfg, k).log| == |Run(cfg, k - 1).log| + 1
  {
    hide Turn, Inv;
    RunKeeps(cfg, k - 1);
    TurnLogs(cfg, Run(cfg, k - 1));
  }

  lemma {:induction false} EveryTurnLogs(cfg: Config, k: nat)
    requires ValidConfig(cfg)
    ensures Run(cfg, k).shared.queue.pending != {} ==> |Run(cfg, k).log| >= k
  {
    hide Turn;
    if k > 0 && Run(cfg, k).shared.queue.pending != {} {
      NextTurnLogs(cfg, k);
      EveryTurnLogs(cfg, k - 1);
    }
  }

  /** The turns after which every run has ended. */
  function Turns(cfg: Config): nat {
    7 * RequestCount(cfg.nodes)
  }

  /** The event loop ends. */
  lemma RunEnds(cfg: Config)
    requires ValidConfig(cfg)
    ensures Run(cfg, Turns(cfg)).shared.queue.pending == {}
  {
    var s := Run(cfg, Turns(cfg));
    RunKeeps(cfg, Turns(cfg));
    if s.shared.queue.pending != {} {
      EveryTurnLogs(cfg, Turns(cfg));
      PendingPays(cfg, s);
    }
  }

  ghost function Final(cfg: Config): State {
    Run(cfg, Turns(cfg))
  }

  /* ---- What a run has done when it ends ---- */

  lemma OwnShares(cfg: Config, t: Track)
    requires cfg.bandwidth > 0 && t.phase == Finished && Timed(cfg, t)
    ensures Remaining(t) == 0 && IsAnswered(t) == 1 && IsHit(t) + IsMiss(t) == 1
    ensures Latency(t) == IsHit(t) * cfg.hitLatency + IsMiss(t) * (2 * cfg.linkLatency) + Wait(t) + Service(t)
  {
  }

  lemma {:induction false} FinishedSums(cfg: Config, tracks: seq<Track>)
    requires cfg.bandwidth > 0 && forall i :: 0 <= i < |tracks| ==> tracks[i].phase == Finished && Timed(cfg, tracks[i])
    ensures SumBy(Remaining, tracks) == 0 && SumBy(IsAnswered, tracks) == |tracks|
    ensures SumBy(IsHit, tracks) + SumBy(IsMiss, tracks) == |tracks|
    ensures SumBy(Latency, tracks) ==
            SumBy(IsHit, tracks) * cfg.hitLatency + SumBy(IsMiss, tracks) * (2 * cfg.linkLatency) +
            SumBy(Wait, tracks) + SumBy(Service, tracks)
  {
    hide Timed, Remaining, IsAnswered, IsHit, IsMiss, Latency, Wait, Service;
    if tracks != [] {
      var n := |tracks| - 1;
      FinishedSums(cfg, tracks[..n]);
      OwnShares(cfg, tracks[n]);
      Distribute(SumBy(IsHit, tracks[..n]), IsHit(tracks[n]), cfg.hitLatency);
      Distribute(SumBy(IsMiss, tracks[..n]), IsMiss(tracks[n]), 2 * cfg.linkLatency);
    }
  }

  lemma Distribute(a: nat, b: nat, c: nat)
    ensures (a + b) * c == a * c + b * c
  {
  }

  lemma FinalIsFinished(cfg: Config)
    requires ValidConfig(cfg)
    ensures var s := Final(cfg); forall i ::
        0 <= i < |s.shared.ledger.tracks| ==> s.shared.ledger.tracks[i].phase == Finished
    ensures var s := Final(cfg); forall id :: id in s.nodes ==> s.nodes[id].outstanding == 0
    ensures var s := Final(cfg); forall id :: id in s.nodes ==> s.nodes[id].next == |s.nodes[id].requests|
  {
    RunEnds(cfg);
    RunKeeps(cfg, Turns(cfg));
    var s := Final(cfg);
    Silence(cfg, s);
    forall id | id in s.nodes ensures s.nodes[id].next == |s.nodes[id].requests| {
      assert NodeOk(cfg, s.nodes[id], s.released, s.releases);
    }
  }

  /** A run answers every request, with 4 events for a hit and 7 for a miss. */
  lemma EventsPerRequest(cfg: Config)
    requires ValidConfig(cfg)
    ensures var s := Final(cfg);
            && |s.shared.ledger.tracks| == |s.shared.ledger.responses| == RequestCount(cfg.nodes)
            && s.shared.stats.hits + s.shared.stats.misses == RequestCount(cfg.nodes)
            && |s.log| == 4 * s.shared.stats.hits + 7 * s.shared.stats.misses
  {
    var s := Final(cfg);
    RunKeeps(cfg, Turns(cfg));
    FinalIsFinished(cfg);
    forall i | 0 <= i < |s.shared.ledger.tracks| ensures Timed(cfg, s.shared.ledger.tracks[i]) {
    }
    FinishedSums(cfg, s.shared.ledger.tracks);
    AllExhausted(cfg, s.nodes, |cfg.nodes|);
  }

  lemma {:induction false} AllExhausted(cfg: Config, nodes: map<nat, NodeState>, k: nat)
    requires k <= |cfg.nodes| && Configured(cfg, nodes)
    requires forall id :: id in nodes ==> nodes[id].next == |nodes[id].requests|
    ensures Unissued(cfg, nodes, k) == 0
  {
    if k > 0 {
      AllExhausted(cfg, nodes, k - 1);
      assert nodes[cfg.nodes[k - 1].id].requests == cfg.nodes[k - 1].requests;
    }
  }

  /** Request number `rid` is answered by response number `j`, and by no other. */
  ghost predicate AnsweredBy(responses: seq<Response>, rid: nat, j: nat) {
    j < |responses| && responses[j].request == rid &&
    forall i :: 0 <= i < |responses| && i != j ==> responses[i].request != rid
  }

  /** The answer to a request of a stream: for its object, with its size unless it was a local hit. */
  predicate Answering(r: Response, spec: RequestSpec) {
    r.obj == spec.obj && r.bytes == (if r.tier == LocalTier then 0 else spec.size)
  }

  lemma AnsweredOnce(cfg: Config, s: State, id: nat, k: nat)
    requires Core(cfg, s) && AllFinished(s.shared.ledger.tracks) && id in s.nodes && k < s.nodes[id].next
    ensures k < |s.nodes[id].issued| && s.nodes[id].next <= |s.nodes[id].requests|
    ensures exists j: nat :: AnsweredBy(s.shared.ledger.responses, s.nodes[id].issued[k], j) &&
                        Answering(s.shared.ledger.responses[j], s.nodes[id].requests[k])
  {
    hide Channels, OneAtATime, EventsCounted, StatsCounted, CachesSound, CachesExact, Orderly;
    var tracks, responses := s.shared.ledger.tracks, s.shared.ledger.responses;
    assert Listed(tracks, id, s.nodes[id]) && NodeOk(cfg, s.nodes[id], s.released, s.releases);
    var rid := s.nodes[id].issued[k];
    var t := tracks[rid - 1];
    assert HasResponse(t, responses) && Issued(cfg, t, s.nodes, s.released, s.releases);
    assert TrackToken(cfg, s.shared.queue, rid - 1, t);
    forall m | 0 <= m < |responses| && m != t.response ensures responses[m].request != rid {
      assert Answers(tracks, responses[m], m);
    }
    assert AnsweredBy(responses, rid, t.response);
  }

  /** Every request of every stream gets exactly one response. */
  lemma ExactlyOneResponse(cfg: Config, i: nat, k: nat)
    requires ValidConfig(cfg) && i < |cfg.nodes| && k < |cfg.nodes[i].requests|
    ensures var s, id := Final(cfg), cfg.nodes[i].id;
            && id in s.nodes && k < |s.nodes[id].issued|
            && exists j: nat :: AnsweredBy(s.shared.ledger.responses, s.nodes[id].issued[k], j) &&
                           Answering(s.shared.ledger.responses[j], cfg.nodes[i].requests[k])
  {
    RunKeeps(cfg, Turns(cfg));
    FinalIsFinished(cfg);
    assert cfg.nodes[i].id in Final(cfg).nodes;
    AnsweredOnce(cfg, Final(cfg), cfg.nodes[i].id, k);
  }

  /* ---- Latency ---- */

  /** The share of one response: the hit latency, or two links, the wait in memory and the service. */
  predicate OwnShare(cfg: Config, l: Ledger, r: Response)
    requires cfg.bandwidth > 0
  {
    Numbered(l.tracks, r.request) &&
    var t := l.tracks[r.request - 1];
    r.obj == t.request.obj && r.completionTime == t.request.issueTime + r.latency &&
    r.latency == if r.tier == LocalTier then cfg.hitLatency
                 else 2 * cfg.linkLatency + t.wait + ServiceTime(cfg, t.request.size)
  }

  predicate SharesOk(cfg: Config, l: Ledger)
    requires cfg.bandwidth > 0
  {
    forall j {:trigger OwnShare(cfg, l, l.responses[j])} ::
      0 <= j < |l.responses| ==> OwnShare(cfg, l, l.responses[j])
  }

  lemma ShareOf(cfg: Config, l: Ledger, j: nat)
    requires cfg.bandwidth > 0 && Responses(l) && Times(cfg, l) && j < |l.responses|
    ensures OwnShare(cfg, l, l.responses[j])
  {
    assert Answers(l.tracks, l.responses[j], j);
    var t := l.tracks[l.responses[j].request - 1];
    assert HasResponse(t, l.responses) && Timed(cfg, t);
  }

  /** At any time every response reports its own share of the latency. */
  lemma ResponseLatency(cfg: Config, k: nat)
    requires ValidConfig(cfg)
    ensures SharesOk(cfg, Run(cfg, k).shared.ledger)
  {
    RunKeeps(cfg, k);
    SharesOf(cfg, Run(cfg, k));
  }

  lemma SharesOf(cfg: Config, s: State)
    requires Core(cfg, s)
    ensures SharesOk(cfg, s.shared.ledger)
  {
    var l := s.shared.ledger;
    forall j | 0 <= j < |l.responses| ensures OwnShare(cfg, l, l.responses[j]) {
      ShareOf(cfg, l, j);
    }
  }

  /** At the end the reported latencies are the hits, the links, the memory waits and the service times, in sum. */
  lemma LatencyAddsUp(cfg: Config)
    requires ValidConfig(cfg)
    ensures var stats := Final(cfg).shared.stats;
            stats.totalLatency == stats.hits * cfg.hitLatency + stats.misses * (2 * cfg.linkLatency) +
                                  stats.totalWait + RecordedService(stats.objects)
  {
    var s := Final(cfg);
    RunKeeps(cfg, Turns(cfg));
    FinalIsFinished(cfg);
    forall i | 0 <= i < |s.shared.ledger.tracks| ensures Timed(cfg, s.shared.ledger.tracks[i]) {
    }
    FinishedSums(cfg, s.shared.ledger.tracks);
  }

  /* ---- Channels ---- */

  /** A channel that has so far started and completed its arrivals exactly as an in-order server would. */
  ghost predicate InOrderServer(cfg: Config, ch: ChannelState, log: ChannelLog)
    requires cfg.bandwidth > 0
  {
    && |log.dones| <= |log.starts| <= |log.arrivals|
    && InArrivalOrder(log.arrivals)
    && (forall i :: 0 <= i < |log.starts| ==>
          i <= |log.dones| && log.starts[i] == Max(log.arrivals[i].time, if i == 0 then 0 else log.dones[i - 1]))
    && (forall i :: 0 <= i < |log.dones| ==> log.dones[i] == log.starts[i] + ServiceTime(cfg, log.arrivals[i].size))
    && |ch.queued| == |log.arrivals| - |log.starts|
    && (forall j :: 0 <= j < |ch.queued| ==> ch.queued[j] == log.arrivals[|log.starts| + j].request)
    && (ch.queued != [] ==> ch.busy != ch.startScheduled)
  }

  lemma OkIsInOrder(cfg: Config, tracks: seq<Track>, ch: ChannelState, log: ChannelLog, c: nat, now: nat)
    requires cfg.channels > 0 && cfg.bandwidth > 0 && ChannelOk(cfg, tracks, ch, log, c, now)
    ensures InOrderServer(cfg, ch, log)
  {
    forall i | 0 <= i < |log.starts|
      ensures i <= |log.dones| && log.starts[i] == Max(log.arrivals[i].time, if i == 0 then 0 else log.dones[i - 1])
    {
      assert ArrivalOk(cfg, tracks, log, c, i, now);
      assert i > 0 ==> ArrivalOk(cfg, tracks, log, c, i - 1, now);
    }
    forall i | 0 <= i < |log.dones| ensures log.dones[i] == log.starts[i] + ServiceTime(cfg, log.arrivals[i].size) {
      assert ArrivalOk(cfg, tracks, log, c, i, now);
    }
  }

  lemma AllDone(cfg: Config, tracks: seq<Track>, ch: ChannelState, log: ChannelLog, c: nat, now: nat)
    requires cfg.channels > 0 && cfg.bandwidth > 0 && ChannelOk(cfg, tracks, ch, log, c, now) && AllFinished(tracks)
    ensures |log.dones| == |log.arrivals|
  {
    assert |log.dones| < |log.arrivals| ==> ArrivalOk(cfg, tracks, log, c, |log.dones|, now);
  }

  /** In every reachable state every channel is an in-order server; at the end it has completed all its arrivals. */
  lemma ChannelsAreFifo(cfg: Config, k: nat, c: nat)
    requires ValidConfig(cfg) && c < cfg.channels
    ensures var m := Run(cfg, k).memory;
            && |m.channels| == |m.logs| == cfg.channels && InOrderServer(cfg, m.channels[c], m.logs[c])
            && (k >= Turns(cfg) ==> |m.logs[c].dones| == |m.logs[c].arrivals|)
  {
    var s := Run(cfg, k);
    RunKeeps(cfg, k);
    assert ChannelOk(cfg, s.shared.ledger.tracks, s.memory.channels[c], s.memory.logs[c], c, s.shared.queue.now);
    OkIsInOrder(cfg, s.shared.ledger.tracks, s.memory.channels[c], s.memory.logs[c], c, s.shared.queue.now);
    if k >= Turns(cfg) {
      Stays(cfg, k);
      FinalIsFinished(cfg);
      AllDone(cfg, s.shared.ledger.tracks, s.memory.channels[c], s.memory.logs[c], c, s.shared.queue.now);
    }
  }

  /** A run that has ended stays as it is. */
  lemma {:induction false} Stays(cfg: Config, k: nat)
    requires ValidConfig(cfg) && k >= Turns(cfg)
    ensures Run(cfg, k) == Final(cfg)
  {
    if k > Turns(cfg) {
      Stays(cfg, k - 1);
      RunEnds(cfg);
    }
  }
}
