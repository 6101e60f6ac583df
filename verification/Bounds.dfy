/** Runs in which every node waits for its response before it issues the next request: bounds and exact caches. */
module Bounds {
  import opened Model
  import opened Scheduling
  import opened Statistics
  import opened Protocol
  import opened Invariants
  import opened HandlerTokens
  import opened HandlerChannels
  import opened HandlerTimes
  import opened Steps
  import opened Runs
  import opened Barriers

  /* ---- One request at a time ---- */

  lemma {:induction false} NoneElse(tracks: seq<Track>, id: nat)
    requires forall i :: 0 <= i < |tracks| ==> tracks[i].request.source == id ==> !InFlight(tracks[i])
    ensures CountInFlight(tracks, id) == 0
  {
    if tracks != [] {
      NoneElse(tracks[..|tracks| - 1], id);
    }
  }

  lemma {:induction false} AtMostOne(tracks: seq<Track>, id: nat)
    requires forall i, j {:trigger NotBoth(tracks, i, j)} ::
               0 <= i < |tracks| && 0 <= j < |tracks| ==> NotBoth(tracks, i, j)
    ensures CountInFlight(tracks, id) <= 1
  {
    if tracks != [] {
      var n := |tracks| - 1;
      forall i, j | 0 <= i < n && 0 <= j < n ensures NotBoth(tracks[..n], i, j) {
        assert NotBoth(tracks, i, j);
      }
      if tracks[n].request.source == id && InFlight(tracks[n]) {
        forall i | 0 <= i < n ensures tracks[..n][i].request.source == id ==> !InFlight(tracks[..n][i]) {
          assert NotBoth(tracks, i, n);
        }
        NoneElse(tracks[..n], id);
      } else {
        AtMostOne(tracks[..n], id);
      }
    }
  }

  lemma OutstandingAtMostOne(cfg: Config, s: State, id: nat)
    requires Core(cfg, s) && cfg.mode == CompletionDriven && id in s.nodes
    ensures s.nodes[id].outstanding <= 1
  {
    AtMostOne(s.shared.ledger.tracks, id);
    assert s.nodes[id].outstanding == CountInFlight(s.shared.ledger.tracks, id);
  }

  /* ---- Queue depth ---- */

  function Ids(cfg: Config): set<nat> { set i | 0 <= i < |cfg.nodes| :: cfg.nodes[i].id }

  lemma {:induction false} IdsCount(nodes: seq<NodeConfig>, k: nat)
    requires k <= |nodes|
    ensures |set i | 0 <= i < k :: nodes[i].id| <= k
  {
    if k > 0 {
      IdsCount(nodes, k - 1);
      assert (set i | 0 <= i < k :: nodes[i].id) == (set i | 0 <= i < k - 1 :: nodes[i].id) + {nodes[k - 1].id};
    }
  }

  /** The source of an arrival that has not been completed is a node, and no two of them share it. */
  lemma {:induction false} Distinct(s: seq<nat>, t: set<nat>)
    requires forall i :: 0 <= i < |s| ==> s[i] in t
    requires forall i, j :: 0 <= i < j < |s| ==> s[i] != s[j]
    ensures |s| <= |t|
    decreases |s|
  {
    if s != [] {
      var n := |s| - 1;
      forall i | 0 <= i < n ensures s[..n][i] in t - {s[n]} {
      }
      Distinct(s[..n], t - {s[n]});
    }
  }

  /** An arrival that has not been completed: its request is still at the channel, and a node waits for it. */
  predicate AtChannel(cfg: Config, tracks: seq<Track>, arrivals: seq<Arrival>, i: nat)
    requires i < |arrivals|
  {
    Numbered(tracks, arrivals[i].request) &&
    var t := tracks[arrivals[i].request - 1];
    t.phase in {Queued, Serving} && t.place == i && t.request.source in Ids(cfg)
  }

  lemma UncompletedAtChannel(cfg: Config, s: State, c: nat, i: nat)
    requires Core(cfg, s) && c < cfg.channels
    requires |s.memory.logs[c].dones| <= i < |s.memory.logs[c].arrivals|
    ensures AtChannel(cfg, s.shared.ledger.tracks, s.memory.logs[c].arrivals, i)
  {
    hide Tokens, Times, Responses, OneAtATime, EventsCounted, StatsCounted, CachesSound, CachesExact;
    var tracks, log := s.shared.ledger.tracks, s.memory.logs[c];
    assert ChannelOk(cfg, tracks, s.memory.channels[c], log, c, s.shared.queue.now);
    assert ArrivalOk(cfg, tracks, log, c, i, s.shared.queue.now);
    assert Issued(cfg, tracks[log.arrivals[i].request - 1], s.nodes, s.released, s.releases);
  }

  function SourceAt(tracks: seq<Track>, arrivals: seq<Arrival>, i: nat): nat {
    if i < |arrivals| && Numbered(tracks, arrivals[i].request) then tracks[arrivals[i].request - 1].request.source
    else 0
  }

  lemma DistinctSources(cfg: Config, tracks: seq<Track>, arrivals: seq<Arrival>, d: nat)
    requires d <= |arrivals| && forall i :: d <= i < |arrivals| ==> AtChannel(cfg, tracks, arrivals, i)
    requires forall i, j {:trigger NotBoth(tracks, i, j)} ::
               0 <= i < |tracks| && 0 <= j < |tracks| ==> NotBoth(tracks, i, j)
    ensures |arrivals| <= d + |cfg.nodes|
  {
    var n := |arrivals| - d;
    var sources := seq(n, i requires 0 <= i < n => SourceAt(tracks, arrivals, d + i));
    forall i | 0 <= i < n ensures sources[i] in Ids(cfg) {
      assert AtChannel(cfg, tracks, arrivals, d + i) && sources[i] == SourceAt(tracks, arrivals, d + i);
    }
    forall i, j | 0 <= i < j < n ensures sources[i] != sources[j] {
      assert sources[i] == SourceAt(tracks, arrivals, d + i) && sources[j] == SourceAt(tracks, arrivals, d + j);
      assert AtChannel(cfg, tracks, arrivals, d + i) && AtChannel(cfg, tracks, arrivals, d + j);
      assert NotBoth(tracks, arrivals[d + i].request - 1, arrivals[d + j].request - 1);
    }
    Distinct(sources, Ids(cfg));
    IdsCount(cfg.nodes, |cfg.nodes|);
  }

  lemma ChannelLengths(cfg: Config, s: State, c: nat)
    requires Core(cfg, s) && c < cfg.channels
    ensures |s.memory.logs[c].dones| <= |s.memory.logs[c].starts| <= |s.memory.logs[c].arrivals|
    ensures |s.memory.channels[c].queued| + (if s.memory.channels[c].busy then 1 else 0) ==
            |s.memory.logs[c].arrivals| - |s.memory.logs[c].dones|
  {
    assert ChannelOk(cfg, s.shared.ledger.tracks, s.memory.channels[c], s.memory.logs[c], c, s.shared.queue.now);
  }

  /** No more requests are at a channel, waiting or in service, than there are nodes. */
  lemma FewAtChannel(cfg: Config, s: State, c: nat)
    requires Core(cfg, s) && cfg.mode == CompletionDriven && c < cfg.channels
    ensures |s.memory.logs[c].arrivals| <= |s.memory.logs[c].dones| + |cfg.nodes|
    ensures |s.memory.channels[c].queued| + (if s.memory.channels[c].busy then 1 else 0) <= |cfg.nodes|
  {
    var tracks, log := s.shared.ledger.tracks, s.memory.logs[c];
    ChannelLengths(cfg, s, c);
    forall i | |log.dones| <= i < |log.arrivals| ensures AtChannel(cfg, tracks, log.arrivals, i) {
      UncompletedAtChannel(cfg, s, c, i);
    }
    DistinctSources(cfg, tracks, log.arrivals, |log.dones|);
  }

  /* ---- Waits ---- */

  /** A server that has `k - d` arrivals left of at most `most` each is free in time. */
  lemma {:induction false} FreeSoon(cfg: Config, arrivals: seq<Arrival>, d: nat, k: nat, now: nat, most: nat)
    requires cfg.bandwidth > 0 && d <= k <= |arrivals| && FreeAt(cfg, arrivals, d) <= now
    requires forall i :: 0 <= i < k ==> arrivals[i].time <= now && ServiceTime(cfg, arrivals[i].size) <= most
    ensures FreeAt(cfg, arrivals, k) <= now + (k - d) * most
  {
    hide FreeAt, ServiceTime;
    if k > d {
      FreeSoon(cfg, arrivals, d, k - 1, now, most);
      OneMore(k - 1 - d, most);
      FreeStep(cfg, arrivals, k, now, now + (k - 1 - d) * most, most);
    }
  }

  lemma OneMore(a: nat, b: nat)
    ensures (a + 1) * b == a * b + b
  {
  }

  lemma FreeStep(cfg: Config, arrivals: seq<Arrival>, k: nat, now: nat, bound: nat, most: nat)
    requires cfg.bandwidth > 0 && 0 < k <= |arrivals| && arrivals[k - 1].time <= now <= bound
    requires FreeAt(cfg, arrivals, k - 1) <= bound && ServiceTime(cfg, arrivals[k - 1].size) <= most
    ensures FreeAt(cfg, arrivals, k) <= bound + most
  {
    hide ServiceTime;
  }

  /** The longest wait of an arrival among `nodes` nodes whose services take at most `most` each. */
  function Longest(nodes: nat, most: nat): nat { if nodes == 0 then 0 else (nodes - 1) * most }

  predicate ServicesWithin(cfg: Config, most: nat)
    requires cfg.bandwidth > 0
  {
    forall i, x :: 0 <= i < |cfg.nodes| && 0 <= x < |cfg.nodes[i].requests| ==>
                     ServiceTime(cfg, cfg.nodes[i].requests[x].size) <= most
  }

  /** The start prescribed for an arrival is not later than the bound. */
  predicate StartsWithin(cfg: Config, arrivals: seq<Arrival>, i: nat, bound: nat)
    requires cfg.bandwidth > 0 && i < |arrivals|
  {
    StartAt(cfg, arrivals, i) <= arrivals[i].time + bound
  }

  lemma LastStartsWithin(cfg: Config, s: State, c: nat, most: nat)
    requires Core(cfg, s) && cfg.mode == CompletionDriven && c < cfg.channels && ServicesWithin(cfg, most)
    requires s.memory.logs[c].arrivals != []
    requires var arrivals := s.memory.logs[c].arrivals; arrivals[|arrivals| - 1].time == s.shared.queue.now
    ensures var arrivals := s.memory.logs[c].arrivals;
            StartsWithin(cfg, arrivals, |arrivals| - 1, Longest(|cfg.nodes|, most))
  {
    var tracks, log, now := s.shared.ledger.tracks, s.memory.logs[c], s.shared.queue.now;
    var last, d := |log.arrivals| - 1, |log.dones|;
    ChannelLengths(cfg, s, c);
    FewAtChannel(cfg, s, c);
    ArrivalsWithin(cfg, s, c, most);
    DoneByNow(cfg, s, c);
    if d <= last {
      FreeSoon(cfg, log.arrivals, d, last, now, most);
      Scale(last - d, |cfg.nodes| - 1, most);
    } else {
      DoneInOrder(cfg, log.arrivals, last);
    }
  }

  lemma DoneInOrder(cfg: Config, arrivals: seq<Arrival>, k: nat)
    requires cfg.bandwidth > 0 && k < |arrivals|
    ensures FreeAt(cfg, arrivals, k) <= FreeAt(cfg, arrivals, k + 1)
  {
  }

  lemma Scale(a: nat, b: nat, c: nat)
    requires a <= b
    ensures a * c <= b * c
  {
  }

  lemma DoneByNow(cfg: Config, s: State, c: nat)
    requires Core(cfg, s) && c < cfg.channels
    ensures |s.memory.logs[c].dones| <= |s.memory.logs[c].arrivals|
    ensures FreeAt(cfg, s.memory.logs[c].arrivals, |s.memory.logs[c].dones|) <= s.shared.queue.now
  {
    var tracks, log, now := s.shared.ledger.tracks, s.memory.logs[c], s.shared.queue.now;
    assert ChannelOk(cfg, tracks, s.memory.channels[c], log, c, now);
    if log.dones != [] {
      assert ArrivalOk(cfg, tracks, log, c, |log.dones| - 1, now);
    }
  }

  lemma ArrivalsWithin(cfg: Config, s: State, c: nat, most: nat)
    requires Core(cfg, s) && c < cfg.channels && ServicesWithin(cfg, most)
    ensures forall i :: 0 <= i < |s.memory.logs[c].arrivals| ==>
              s.memory.logs[c].arrivals[i].time <= s.shared.queue.now &&
              ServiceTime(cfg, s.memory.logs[c].arrivals[i].size) <= most
  {
    forall i | 0 <= i < |s.memory.logs[c].arrivals|
      ensures s.memory.logs[c].arrivals[i].time <= s.shared.queue.now
      ensures ServiceTime(cfg, s.memory.logs[c].arrivals[i].size) <= most
    {
      ArrivalWithin(cfg, s, c, i, most);
    }
  }

  lemma ArrivalWithin(cfg: Config, s: State, c: nat, i: nat, most: nat)
    requires Core(cfg, s) && c < cfg.channels && ServicesWithin(cfg, most) && i < |s.memory.logs[c].arrivals|
    ensures s.memory.logs[c].arrivals[i].time <= s.shared.queue.now
    ensures ServiceTime(cfg, s.memory.logs[c].arrivals[i].size) <= most
  {
    hide Tokens, Times, Responses, OneAtATime, EventsCounted, StatsCounted, CachesSound, CachesExact;
    var tracks, log := s.shared.ledger.tracks, s.memory.logs[c];
    assert ChannelOk(cfg, tracks, s.memory.channels[c], log, c, s.shared.queue.now);
    assert ArrivalOk(cfg, tracks, log, c, i, s.shared.queue.now);
    var t := tracks[log.arrivals[i].request - 1];
    assert Issued(cfg, t, s.nodes, s.released, s.releases);
    var n :| 0 <= n < |cfg.nodes| && cfg.nodes[n].id == t.request.source;
    assert cfg.nodes[n].requests[t.index].size == log.arrivals[i].size;
  }

  /** No start comes later than its bound, and neither do the recorded waits and depths exceed theirs. */
  ghost predicate Prompt(cfg: Config, s: State, most: nat)
    requires cfg.bandwidth > 0
  {
    && |s.memory.logs| == cfg.channels
    && (forall c, i {:trigger StartsWithin(cfg, s.memory.logs[c].arrivals, i, Longest(|cfg.nodes|, most))} ::
          0 <= c < cfg.channels && 0 <= i < |s.memory.logs[c].arrivals| ==>
            StartsWithin(cfg, s.memory.logs[c].arrivals, i, Longest(|cfg.nodes|, most)))
    && s.shared.stats.maxWait <= Longest(|cfg.nodes|, most)
    && s.shared.stats.peakDepth <= |cfg.nodes| && s.shared.stats.peakChannelDepth <= |cfg.nodes|
  }

  /** What the arrival of a request does to its channel's arrivals and to the recorded depths. */
  lemma ForwardArrives(cfg: Config, m: MemoryState, sh: Shared, e: Event)
    requires MemoryShape(cfg, m) && Known(sh, e.request)
    ensures MemoryForward(cfg, m, sh, e).Ok?
    ensures var (m', sh') := MemoryForward(cfg, m, sh, e).value;
            var c := ChannelOf(TrackOf(sh, e.request).request.obj, cfg.channels);
            var a := Arrival(e.request, e.time, TrackOf(sh, e.request).request.size);
            && |m'.logs| == |m.logs| && (forall d :: 0 <= d < cfg.channels && d != c ==> m'.logs[d] == m.logs[d])
            && m'.logs[c].arrivals == m.logs[c].arrivals + [a] && |m'.channels| == |m.channels|
            && sh'.stats.maxWait == sh.stats.maxWait && sh'.queue.now == sh.queue.now
            && sh'.stats.peakDepth == Max(sh.stats.peakDepth, |m'.channels[c].queued|)
            && sh'.stats.peakChannelDepth == Max(sh.stats.peakChannelDepth, |m'.channels[c].queued|)
  {
  }

  lemma StartWaits(cfg: Config, m: MemoryState, sh: Shared, e: Event)
    requires MemoryShape(cfg, m) && MemoryStart(cfg, m, sh, e).Ok?
    ensures Known(sh, e.request)
    ensures var (m', sh') := MemoryStart(cfg, m, sh, e).value;
            && |m'.logs| == |m.logs| && (forall d ::
                0 <= d < cfg.channels ==> m'.logs[d].arrivals == m.logs[d].arrivals)
            && sh'.stats.maxWait == Max(sh.stats.maxWait, Since(TrackOf(sh, e.request).request.enqueueTime, e.time))
            && sh'.stats.peakDepth == sh.stats.peakDepth && sh'.stats.peakChannelDepth == sh.stats.peakChannelDepth
  {
  }

  lemma CompleteLeaves(cfg: Config, m: MemoryState, sh: Shared, e: Event)
    requires MemoryShape(cfg, m) && MemoryComplete(cfg, m, sh, e).Ok?
    ensures var (m', sh') := MemoryComplete(cfg, m, sh, e).value;
            && |m'.logs| == |m.logs| && (forall d ::
                0 <= d < cfg.channels ==> m'.logs[d].arrivals == m.logs[d].arrivals)
            && sh'.stats.maxWait == sh.stats.maxWait
            && sh'.stats.peakDepth == sh.stats.peakDepth && sh'.stats.peakChannelDepth == sh.stats.peakChannelDepth
  {
  }

  lemma StillWithin(cfg: Config, arrivals: seq<Arrival>, a: Arrival, i: nat, bound: nat)
    requires cfg.bandwidth > 0 && i < |arrivals| && StartsWithin(cfg, arrivals, i, bound)
    ensures StartsWithin(cfg, arrivals + [a], i, bound)
  {
    FreeAtPrefix(cfg, arrivals, a, i);
  }

  lemma ForwardPrompt(cfg: Config, s: State, e: Event, most: nat)
    requires Due(cfg, s, e) && e.kind == ForwardToMemory && cfg.mode == CompletionDriven
    requires ServicesWithin(cfg, most) && Prompt(cfg, s, most)
    ensures Dispatch(cfg, Pick(s, e), e).Ok? && Prompt(cfg, Dispatch(cfg, Pick(s, e), e).value, most)
  {
    Addressed(cfg, s, e);
    MemoryRequestIsMissing(cfg, s, e);
    DispatchKeeps(cfg, s, e);
    ForwardIsPrompt(cfg, Pick(s, e), Dispatch(cfg, Pick(s, e), e).value, e, most);
  }

  lemma ForwardIsPrompt(cfg: Config, s: State, d: State, e: Event, most: nat)
    requires Core(cfg, d) && cfg.mode == CompletionDriven && ServicesWithin(cfg, most) && Prompt(cfg, s, most)
    requires e.kind == ForwardToMemory && MemoryShape(cfg, s.memory) && Known(s.shared, e.request)
    requires (d.memory, d.shared) == MemoryForward(cfg, s.memory, s.shared, e).value && s.shared.queue.now == e.time
    ensures Prompt(cfg, d, most)
  {
    hide Core, MemoryForward, StartsWithin;
    ForwardArrives(cfg, s.memory, s.shared, e);
    var c := ChannelOf(TrackOf(s.shared, e.request).request.obj, cfg.channels);
    var arrivals, bound := s.memory.logs[c].arrivals, Longest(|cfg.nodes|, most);
    FewAtChannel(cfg, d, c);
    LastStartsWithin(cfg, d, c, most);
    forall k, i | 0 <= k < cfg.channels && 0 <= i < |d.memory.logs[k].arrivals|
      ensures StartsWithin(cfg, d.memory.logs[k].arrivals, i, bound)
    {
      if k == c && i < |arrivals| {
        StillWithin(cfg, arrivals, d.memory.logs[c].arrivals[|arrivals|], i, bound);
      }
    }
  }

  lemma StartPrompt(cfg: Config, s: State, e: Event, most: nat)
    requires Due(cfg, s, e) && e.kind == MemoryServiceStart && Prompt(cfg, s, most)
    ensures Dispatch(cfg, Pick(s, e), e).Ok? && Prompt(cfg, Dispatch(cfg, Pick(s, e), e).value, most)
  {
    hide Core, StartsWithin, MemoryStart;
    ShapeOf(cfg, s);
    Addressed(cfg, s, e);
    DispatchKeeps(cfg, s, e);
    StartWaits(cfg, s.memory, Taken(s.shared, e), e);
    StartIsWithin(cfg, s, e, Longest(|cfg.nodes|, most));
  }

  lemma StartIsWithin(cfg: Config, s: State, e: Event, bound: nat)
    requires Due(cfg, s, e) && e.kind == MemoryServiceStart
    requires forall c, i {:trigger StartsWithin(cfg, s.memory.logs[c].arrivals, i, bound)} ::
               0 <= c < cfg.channels && 0 <= i < |s.memory.logs[c].arrivals| ==>
                 StartsWithin(cfg, s.memory.logs[c].arrivals, i, bound)
    ensures Known(s.shared, e.request)
    ensures Since(TrackOf(s.shared, e.request).request.enqueueTime, e.time) <= bound
  {
    StartOnTime(cfg, s.memory, s.shared, s.nodes, e);
    var c := ChannelOf(TrackOf(s.shared, e.request).request.obj, cfg.channels);
    assert StartsWithin(cfg, s.memory.logs[c].arrivals, |s.memory.logs[c].starts|, bound);
  }

  lemma OthersPrompt(cfg: Config, s: State, e: Event, most: nat)
    requires Due(cfg, s, e) && e.kind != ForwardToMemory && e.kind != MemoryServiceStart && Prompt(cfg, s, most)
    ensures Dispatch(cfg, Pick(s, e), e).Ok? && Prompt(cfg, Dispatch(cfg, Pick(s, e), e).value, most)
  {
    hide Core, StartsWithin, NodeHandle, MemoryComplete;
    ShapeOf(cfg, s);
    Addressed(cfg, s, e);
    DispatchKeeps(cfg, s, e);
    if e.kind == MemoryServiceComplete {
      CompleteLeaves(cfg, s.memory, Taken(s.shared, e), e);
    } else {
      NodesRecordNothing(cfg, e.target, s.nodes[e.target], Taken(s.shared, e), e);
    }
  }

  lemma TurnPrompt(cfg: Config, s: State, most: nat)
    requires Inv(cfg, s) && cfg.mode == CompletionDriven && ServicesWithin(cfg, most) && Prompt(cfg, s, most)
    ensures Prompt(cfg, Turn(cfg, s), most)
  {
    hide Core, Dispatch, Prompt;
    ShapeOf(cfg, s);
    if s.shared.queue.pending != {} {
      var e := Least(s.shared.queue);
      match e.kind {
        case ForwardToMemory => ForwardPrompt(cfg, s, e, most);
        case MemoryServiceStart => StartPrompt(cfg, s, e, most);
        case _ => OthersPrompt(cfg, s, e, most);
      }
      TurnIsRelease(cfg, s);
      ReleasePrompt(cfg, Handled(cfg, s), most);
    }
  }

  lemma ReleasePrompt(cfg: Config, s: State, most: nat)
    requires cfg.bandwidth > 0 && Prompt(cfg, s, most)
    ensures Prompt(cfg, Release(cfg, s), most)
  {
    ReleaseFrame(cfg, s);
  }

  lemma {:induction false} RunPrompt(cfg: Config, k: nat, most: nat)
    requires ValidConfig(cfg) && cfg.mode == CompletionDriven && ServicesWithin(cfg, most)
    ensures Prompt(cfg, Run(cfg, k), most)
  {
    hide Turn, Core, Inv, Release;
    if k == 0 {
      hide Prompt;
      InitialPrompt(cfg, most);
      ReleasePrompt(cfg, Initial(cfg), most);
    } else {
      hide Prompt;
      RunKeeps(cfg, k - 1);
      RunPrompt(cfg, k - 1, most);
      TurnPrompt(cfg, Run(cfg, k - 1), most);
    }
  }

  lemma InitialPrompt(cfg: Config, most: nat)
    requires ValidConfig(cfg)
    ensures Prompt(cfg, Initial(cfg), most)
  {
  }

  /**
   * With `n` nodes that wait for each response, a node has at most one request on its way, a channel at most `n`,
   * and no request waits at memory for more than `n - 1` services.
   */
  lemma WaitingNodesBound(cfg: Config, k: nat, most: nat)
    requires ValidConfig(cfg) && cfg.mode == CompletionDriven && ServicesWithin(cfg, most)
    ensures var s := Run(cfg, k);
            && (forall id :: id in s.nodes ==> s.nodes[id].outstanding <= 1)
            && |s.memory.channels| == cfg.channels
            && (forall c :: 0 <= c < cfg.channels ==> |s.memory.channels[c].queued| <= |cfg.nodes|)
            && s.shared.stats.peakDepth <= |cfg.nodes| && s.shared.stats.peakChannelDepth <= |cfg.nodes|
            && s.shared.stats.maxWait <= Longest(|cfg.nodes|, most)
            && (forall i :: 0 <= i < |s.shared.ledger.tracks| ==>
                  s.shared.ledger.tracks[i].wait <= Longest(|cfg.nodes|, most))
  {
    hide Turn, Run;
    RunKeeps(cfg, k);
    RunPrompt(cfg, k, most);
    BoundsAt(cfg, Run(cfg, k), most);
  }

  lemma BoundsAt(cfg: Config, s: State, most: nat)
    requires Inv(cfg, s) && cfg.mode == CompletionDriven && Prompt(cfg, s, most)
    ensures forall id :: id in s.nodes ==> s.nodes[id].outstanding <= 1
    ensures |s.memory.channels| == cfg.channels
    ensures forall c :: 0 <= c < cfg.channels ==> |s.memory.channels[c].queued| <= |cfg.nodes|
    ensures forall i :: 0 <= i < |s.shared.ledger.tracks| ==>
              s.shared.ledger.tracks[i].wait <= Longest(|cfg.nodes|, most)
  {
    hide Core, Prompt;
    forall id | id in s.nodes ensures s.nodes[id].outstanding <= 1 {
      OutstandingAtMostOne(cfg, s, id);
    }
    assert |s.memory.channels| == cfg.channels by { ShapeOf(cfg, s); }
    forall c | 0 <= c < cfg.channels ensures |s.memory.channels[c].queued| <= |cfg.nodes| {
      FewAtChannel(cfg, s, c);
    }
    forall i | 0 <= i < |s.shared.ledger.tracks|
      ensures s.shared.ledger.tracks[i].wait <= Longest(|cfg.nodes|, most)
    {
      WaitWithin(cfg, s, i, most);
    }
  }

  lemma WaitWithin(cfg: Config, s: State, i: nat, most: nat)
    requires Core(cfg, s) && Prompt(cfg, s, most) && i < |s.shared.ledger.tracks|
    ensures s.shared.ledger.tracks[i].wait <= Longest(|cfg.nodes|, most)
  {
    var tracks, t := s.shared.ledger.tracks, s.shared.ledger.tracks[i];
    assert Timed(cfg, t) && Located(cfg, s.memory, i, t);
    if AtMemory(t) {
      var c := ChannelOf(t.request.obj, cfg.channels);
      assert ChannelOk(cfg, tracks, s.memory.channels[c], s.memory.logs[c], c, s.shared.queue.now);
      assert ArrivalOk(cfg, tracks, s.memory.logs[c], c, t.place, s.shared.queue.now);
      assert StartsWithin(cfg, s.memory.logs[c].arrivals, t.place, Longest(|cfg.nodes|, most));
    }
  }
}
