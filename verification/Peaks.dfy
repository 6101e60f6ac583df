/** The longest waits and the deepest queues, bucket by bucket, in the terms of requests and of channel queues. */
module Peaks {
  import opened Model
  import opened Cache
  import opened Scheduling
  import opened Statistics
  import opened Protocol
  import opened Invariants
  import opened Steps
  import opened Runs
  import opened Barriers
  import opened StatsLaws
  import opened Accounts
  import opened OracleRuns

  /* ---- The longest wait ---- */

  /** The longest wait among the requests that satisfy `p`, or zero. */
  ghost predicate LongestWait(p: Track -> bool, tracks: seq<Track>, m: nat) {
    && (forall i :: 0 <= i < |tracks| && p(tracks[i]) ==> tracks[i].wait <= m)
    && (m == 0 || exists i :: 0 <= i < |tracks| && p(tracks[i]) && tracks[i].wait == m)
  }

  /** The requests for one object, or on one channel, in one epoch. */
  function OfObject(e: nat, o: nat): Track -> bool { (t: Track) => t.request.epoch == e && t.request.obj == o }

  function OfChannel(e: nat, c: nat, channels: nat): Track -> bool
    requires channels > 0
  {
    (t: Track) => t.request.epoch == e && ChannelOf(t.request.obj, channels) == c
  }

  ghost predicate ObjectWaits(stats: StatsState, tracks: seq<Track>, e: nat, o: nat) {
    LongestWait(OfObject(e, o), tracks, Cell(stats.objects, e, o, NoObject).maxQueueWait)
  }

  ghost predicate ChannelWaits(stats: StatsState, tracks: seq<Track>, channels: nat, e: nat, c: nat)
    requires channels > 0
  {
    LongestWait(OfChannel(e, c, channels), tracks, Cell(stats.channels, e, c, NoChannel).maxQueueWait)
  }

  ghost predicate WaitsPeak(channels: nat, stats: StatsState, tracks: seq<Track>)
    requires channels > 0
  {
    && (forall e: nat, o: nat {:trigger ObjectWaits(stats, tracks, e, o)} :: ObjectWaits(stats, tracks, e, o))
    && (forall e: nat, c: nat {:trigger ChannelWaits(stats, tracks, channels, e, c)} ::
          ChannelWaits(stats, tracks, channels, e, c))
  }

  /** One request moves, for the same object, and has waited longer or as long. */
  predicate WaitsMore(t: Track, u: Track) {
    t.request.epoch == u.request.epoch && t.request.obj == u.request.obj && t.wait <= u.wait
  }

  lemma WaitGrows(p: Track -> bool, tracks: seq<Track>, i: nat, u: Track, m: nat)
    requires LongestWait(p, tracks, m) && i < |tracks| && p(u) == p(tracks[i]) && tracks[i].wait <= u.wait
    ensures LongestWait(p, tracks[i := u], if p(u) then Max(m, u.wait) else m)
  {
    var tracks' := tracks[i := u];
    assert tracks'[i] == u;
    if m > 0 && !(p(u) && u.wait >= m) {
      var j :| 0 <= j < |tracks| && p(tracks[j]) && tracks[j].wait == m;
      assert tracks'[j] == tracks[j];
    }
  }

  lemma WaitEnters(p: Track -> bool, tracks: seq<Track>, u: Track, m: nat)
    requires LongestWait(p, tracks, m) && u.wait == 0
    ensures LongestWait(p, tracks + [u], m)
  {
    if m > 0 {
      var j :| 0 <= j < |tracks| && p(tracks[j]) && tracks[j].wait == m;
      assert (tracks + [u])[j] == tracks[j];
    }
  }

  /** How the longest waits of the buckets may move: only those of the request that moves, to its own wait. */
  ghost predicate WaitsMove(channels: nat, stats: StatsState, stats': StatsState, u: Track)
    requires channels > 0
  {
    && (forall e: nat, o: nat {:trigger Cell(stats'.objects, e, o, NoObject)} ::
          Cell(stats'.objects, e, o, NoObject).maxQueueWait ==
          var m := Cell(stats.objects, e, o, NoObject).maxQueueWait;
          if OfObject(e, o)(u) then Max(m, u.wait) else m)
    && (forall e: nat, c: nat {:trigger Cell(stats'.channels, e, c, NoChannel)} ::
          Cell(stats'.channels, e, c, NoChannel).maxQueueWait ==
          var m := Cell(stats.channels, e, c, NoChannel).maxQueueWait;
          if OfChannel(e, c, channels)(u) then Max(m, u.wait) else m)
  }

  /** One bucket of each table is written, and its longest wait becomes that of the request if that is longer. */
  lemma PutMoves(channels: nat, stats: StatsState, stats': StatsState, u: Track, b: ObjectBucket, k: ChannelBucket)
    requires channels > 0
    requires var r, c := u.request, ChannelOf(u.request.obj, channels);
             && stats'.objects == Put(stats.objects, r.epoch, r.obj, b)
             && stats'.channels == Put(stats.channels, r.epoch, c, k)
             && b.maxQueueWait == Max(Cell(stats.objects, r.epoch, r.obj, NoObject).maxQueueWait, u.wait)
             && k.maxQueueWait == Max(Cell(stats.channels, r.epoch, c, NoChannel).maxQueueWait, u.wait)
    ensures WaitsMove(channels, stats, stats', u)
  {
    hide ChannelOf;
    var r, c := u.request, ChannelOf(u.request.obj, channels);
    PutCells(stats.objects, r.epoch, r.obj, b, NoObject);
    PutCells(stats.channels, r.epoch, c, k, NoChannel);
  }

  lemma PutCells<V(!new)>(table: map<nat, map<nat, V>>, epoch: nat, key: nat, v: V, default: V)
    ensures forall e: nat, x: nat {:trigger Cell(Put(table, epoch, key, v), e, x, default)} ::
              Cell(Put(table, epoch, key, v), e, x, default) ==
              if e == epoch && x == key then v else Cell(table, e, x, default)
  {
  }

  lemma MovePeaks(channels: nat, stats: StatsState, stats': StatsState, tracks: seq<Track>, i: nat, u: Track)
    requires channels > 0 && WaitsPeak(channels, stats, tracks) && i < |tracks| && WaitsMore(tracks[i], u)
    requires WaitsMove(channels, stats, stats', u)
    ensures WaitsPeak(channels, stats', tracks[i := u])
  {
    hide LongestWait, Cell;
    var tracks' := tracks[i := u];
    forall e: nat, o: nat ensures ObjectWaits(stats', tracks', e, o) {
      assert ObjectWaits(stats, tracks, e, o);
      WaitGrows(OfObject(e, o), tracks, i, u, Cell(stats.objects, e, o, NoObject).maxQueueWait);
    }
    forall e: nat, c: nat ensures ChannelWaits(stats', tracks', channels, e, c) {
      assert ChannelWaits(stats, tracks, channels, e, c);
      WaitGrows(OfChannel(e, c, channels), tracks, i, u, Cell(stats.channels, e, c, NoChannel).maxQueueWait);
    }
  }

  lemma EnterPeaks(channels: nat, stats: StatsState, tracks: seq<Track>, u: Track)
    requires channels > 0 && WaitsPeak(channels, stats, tracks) && u.wait == 0
    ensures WaitsPeak(channels, stats, tracks + [u])
  {
    hide LongestWait, Cell;
    forall e: nat, o: nat ensures ObjectWaits(stats, tracks + [u], e, o) {
      assert ObjectWaits(stats, tracks, e, o);
      WaitEnters(OfObject(e, o), tracks, u, Cell(stats.objects, e, o, NoObject).maxQueueWait);
    }
    forall e: nat, c: nat ensures ChannelWaits(stats, tracks + [u], channels, e, c) {
      assert ChannelWaits(stats, tracks, channels, e, c);
      WaitEnters(OfChannel(e, c, channels), tracks, u, Cell(stats.channels, e, c, NoChannel).maxQueueWait);
    }
  }

  /* ---- Handlers ---- */

  lemma SameWaits(channels: nat, stats: StatsState, stats': StatsState, tracks: seq<Track>, i: nat, u: Track)
    requires channels > 0 && WaitsPeak(channels, stats, tracks) && i < |tracks| && WaitsMore(tracks[i], u)
    requires u.wait == tracks[i].wait
    requires stats'.objects == stats.objects && stats'.channels == stats.channels
    ensures WaitsPeak(channels, stats', tracks[i := u])
  {
    forall e: nat, o: nat | OfObject(e, o)(u) ensures Cell(stats.objects, e, o, NoObject).maxQueueWait >= u.wait {
      assert ObjectWaits(stats, tracks, e, o);
    }
    forall e: nat, c: nat | OfChannel(e, c, channels)(u)
      ensures Cell(stats.channels, e, c, NoChannel).maxQueueWait >= u.wait
    {
      assert ChannelWaits(stats, tracks, channels, e, c);
    }
    hide LongestWait, Cell;
    MovePeaks(channels, stats, stats', tracks, i, u);
  }

  lemma StartPeaks(cfg: Config, m: MemoryState, sh: Shared, e: Event)
    requires MemoryShape(cfg, m) && MemoryStart(cfg, m, sh, e).Ok? && Known(sh, e.request)
    requires TrackOf(sh, e.request).wait == 0 && WaitsPeak(cfg.channels, sh.stats, sh.ledger.tracks)
    ensures var sh' := MemoryStart(cfg, m, sh, e).value.1; WaitsPeak(cfg.channels, sh'.stats, sh'.ledger.tracks)
  {
    hide WaitsPeak, Schedule, Stamp, Put, Cell, WaitsMove;
    var sh', i := MemoryStart(cfg, m, sh, e).value.1, e.request - 1;
    var t := TrackOf(sh, e.request);
    var r, c, wait := t.request.(stage := WaitingForResponse), ChannelOf(t.request.obj, cfg.channels),
                      Since(t.request.enqueueTime, e.time);
    var stats := RecordMemoryWait(sh.stats, wait);
    PutMoves(cfg.channels, sh.stats, sh'.stats, sh'.ledger.tracks[i], WaitedObject(stats, r, wait),
             WaitedChannel(stats, r, c, wait));
    MovePeaks(cfg.channels, sh.stats, sh'.stats, sh.ledger.tracks, i, sh'.ledger.tracks[i]);
  }

  /** Arrivals and services touch no wait, and the request has waited no longer. */
  lemma OtherPeaks(cfg: Config, m: MemoryState, sh: Shared, e: Event)
    requires MemoryShape(cfg, m) && e.kind != MemoryServiceStart && MemoryHandle(cfg, m, sh, e).Ok?
    requires Known(sh, e.request) && WaitsPeak(cfg.channels, sh.stats, sh.ledger.tracks)
    ensures var sh' := MemoryHandle(cfg, m, sh, e).value.1; WaitsPeak(cfg.channels, sh'.stats, sh'.ledger.tracks)
  {
    var sh', i := MemoryHandle(cfg, m, sh, e).value.1, e.request - 1;
    var u := sh'.ledger.tracks[i];
    OwnWaitsCovered(cfg.channels, sh.stats, sh.ledger.tracks, i);
    OtherMoves(cfg, m, sh, e);
    hide WaitsPeak, MemoryHandle;
    MovePeaks(cfg.channels, sh.stats, sh'.stats, sh.ledger.tracks, i, u);
  }

  /** The request's own wait is covered already. */
  ghost predicate Covered(channels: nat, stats: StatsState, t: Track)
    requires channels > 0
  {
    && Cell(stats.objects, t.request.epoch, t.request.obj, NoObject).maxQueueWait >= t.wait
    && Cell(stats.channels, t.request.epoch, ChannelOf(t.request.obj, channels), NoChannel).maxQueueWait >= t.wait
  }

  lemma OwnWaitsCovered(channels: nat, stats: StatsState, tracks: seq<Track>, i: nat)
    requires channels > 0 && WaitsPeak(channels, stats, tracks) && i < |tracks|
    ensures Covered(channels, stats, tracks[i])
  {
    var r := tracks[i].request;
    assert ObjectWaits(stats, tracks, r.epoch, r.obj);
    assert ChannelWaits(stats, tracks, channels, r.epoch, ChannelOf(r.obj, channels));
    assert OfObject(r.epoch, r.obj)(tracks[i]);
    assert OfChannel(r.epoch, ChannelOf(r.obj, channels), channels)(tracks[i]);
  }

  lemma OtherMoves(cfg: Config, m: MemoryState, sh: Shared, e: Event)
    requires MemoryShape(cfg, m) && e.kind != MemoryServiceStart && MemoryHandle(cfg, m, sh, e).Ok?
    requires Known(sh, e.request) && Covered(cfg.channels, sh.stats, TrackOf(sh, e.request))
    ensures var sh', i := MemoryHandle(cfg, m, sh, e).value.1, e.request - 1;
            && |sh'.ledger.tracks| == |sh.ledger.tracks|
            && sh'.ledger.tracks == sh.ledger.tracks[i := sh'.ledger.tracks[i]]
            && WaitsMore(sh.ledger.tracks[i], sh'.ledger.tracks[i])
            && WaitsMove(cfg.channels, sh.stats, sh'.stats, sh'.ledger.tracks[i])
  {
    hide Schedule, Stamp, Put, Cell, WaitsMove;
    var sh', i := MemoryHandle(cfg, m, sh, e).value.1, e.request - 1;
    var t := TrackOf(sh, e.request);
    var c := ChannelOf(t.request.obj, cfg.channels);
    if e.kind == ForwardToMemory {
      var r, depth := t.request.(enqueueTime := e.time), |m.channels[c].queued + [e.request]|;
      var stats := ObserveDepth(sh.stats, depth);
      PutMoves(cfg.channels, sh.stats, sh'.stats, sh'.ledger.tracks[i], AccessedObject(stats, r, depth),
               AccessedChannel(stats, r, c, depth));
    } else {
      var service := ServiceTime(cfg, t.request.size);
      PutMoves(cfg.channels, sh.stats, sh'.stats, sh'.ledger.tracks[i], ServedObject(sh.stats, t.request, service),
               ServedChannel(sh.stats, t.request, c, service));
    }
  }

  lemma NodePeaks(cfg: Config, id: nat, n: NodeState, sh: Shared, e: Event)
    requires NodeHandle(cfg, id, n, sh, e).Ok? && e.kind != GenerateRequest && Known(sh, e.request)
    requires cfg.channels > 0 && WaitsPeak(cfg.channels, sh.stats, sh.ledger.tracks)
    ensures var sh' := NodeHandle(cfg, id, n, sh, e).value.1; WaitsPeak(cfg.channels, sh'.stats, sh'.ledger.tracks)
  {
    hide WaitsPeak, Schedule, Stamp, Lookup, Admit;
    var sh', i := NodeHandle(cfg, id, n, sh, e).value.1, e.request - 1;
    SameWaits(cfg.channels, sh.stats, sh'.stats, sh.ledger.tracks, i, sh'.ledger.tracks[i]);
  }

  lemma IssuePeaks(cfg: Config, s: State, e: Event)
    requires MemoryShape(cfg, s.memory) && Dispatch(cfg, s, e).Ok? && e.kind == GenerateRequest && e.target in s.nodes
    requires NextSpec(s.nodes[e.target]).Some?
    requires WaitsPeak(cfg.channels, s.shared.stats, s.shared.ledger.tracks)
    ensures var d := Dispatch(cfg, s, e).value; WaitsPeak(cfg.channels, d.shared.stats, d.shared.ledger.tracks)
  {
    hide WaitsPeak, Schedule, Stamp, StartEpoch;
    var tracks, d := s.shared.ledger.tracks, Dispatch(cfg, s, e).value;
    EnterPeaks(cfg.channels, s.shared.stats, tracks, d.shared.ledger.tracks[|tracks|]);
  }

  /* ---- Whole runs ---- */

  ghost predicate RunPeaks(cfg: Config, s: State) {
    cfg.channels > 0 && WaitsPeak(cfg.channels, s.shared.stats, s.shared.ledger.tracks)
  }

  lemma HandledPeaks(cfg: Config, s: State, e: Event)
    requires Due(cfg, s, e) && RunPeaks(cfg, s)
    ensures Dispatch(cfg, Pick(s, e), e).Ok? && RunPeaks(cfg, Dispatch(cfg, Pick(s, e), e).value)
  {
    hide WaitsPeak, NodeHandle, MemoryHandle, Core;
    DispatchKeeps(cfg, s, e);
    ShapeOf(cfg, s);
    var p := Pick(s, e);
    if e.kind == GenerateRequest {
      var i := IssuerOf(cfg, s, e);
      IssuePeaks(cfg, p, e);
    } else if e.target in s.nodes {
      PhaseAtNode(cfg, s, e);
      NodePeaks(cfg, e.target, s.nodes[e.target], p.shared, e);
    } else {
      MemoryStages(cfg, s, e);
      MemoryPeaks(cfg, s.memory, p.shared, e);
    }
  }

  lemma MemoryPeaks(cfg: Config, m: MemoryState, sh: Shared, e: Event)
    requires MemoryShape(cfg, m) && MemoryHandle(cfg, m, sh, e).Ok? && Known(sh, e.request)
    requires Staged(e.kind, TrackOf(sh, e.request)) && WaitsPeak(cfg.channels, sh.stats, sh.ledger.tracks)
    ensures var sh' := MemoryHandle(cfg, m, sh, e).value.1; WaitsPeak(cfg.channels, sh'.stats, sh'.ledger.tracks)
  {
    hide WaitsPeak, MemoryStart, MemoryForward, MemoryComplete;
    if e.kind == MemoryServiceStart {
      StartPeaks(cfg, m, sh, e);
    } else {
      OtherPeaks(cfg, m, sh, e);
    }
  }

  lemma TurnPeaks(cfg: Config, s: State)
    requires Inv(cfg, s) && RunPeaks(cfg, s)
    ensures RunPeaks(cfg, Turn(cfg, s))
  {
    if s.shared.queue.pending != {} {
      hide Dispatch, RunPeaks, Release;
      HandledPeaks(cfg, s, Least(s.shared.queue));
      TurnIsRelease(cfg, s);
      SamePeaks(cfg, Handled(cfg, s));
    }
  }

  lemma SamePeaks(cfg: Config, s: State)
    requires RunPeaks(cfg, s)
    ensures RunPeaks(cfg, Release(cfg, s))
  {
    hide Release, WaitsPeak;
    ReleaseFrame(cfg, s);
  }

  lemma NoPeaks(channels: nat)
    requires channels > 0
    ensures WaitsPeak(channels, NoStats, [])
  {
  }

  /**
   * In every reachable state the longest wait in the bucket of an object, and in that of a channel, is the longest that
   * any of its own requests has had.
   */
  lemma {:induction false} LongestWaits(cfg: Config, k: nat)
    requires ValidConfig(cfg)
    ensures WaitsPeak(cfg.channels, Run(cfg, k).shared.stats, Run(cfg, k).shared.ledger.tracks)
  {
    hide Turn, Inv, Core, Release, WaitsPeak;
    if k == 0 {
      NoPeaks(cfg.channels);
      SamePeaks(cfg, Initial(cfg));
    } else {
      LongestWaits(cfg, k - 1);
      RunKeeps(cfg, k - 1);
      TurnPeaks(cfg, Run(cfg, k - 1));
    }
  }

  /* ---- The deepest queue ---- */

  /** How the greatest depths move with an arrival: the buckets of the request see the queue that it has joined. */
  ghost predicate DepthsMove(channels: nat, stats: StatsState, stats': StatsState, r: Request, depth: nat)
    requires channels > 0
  {
    && (forall e: nat, o: nat {:trigger Cell(stats'.objects, e, o, NoObject)} ::
          Cell(stats'.objects, e, o, NoObject).maxDepth ==
          var m := Cell(stats.objects, e, o, NoObject).maxDepth;
          if r.epoch == e && r.obj == o then Max(m, depth) else m)
    && (forall e: nat, c: nat {:trigger Cell(stats'.channels, e, c, NoChannel)} ::
          Cell(stats'.channels, e, c, NoChannel).maxDepth ==
          var m := Cell(stats.channels, e, c, NoChannel).maxDepth;
          if r.epoch == e && ChannelOf(r.obj, channels) == c then Max(m, depth) else m)
  }

  lemma PutDepths(channels: nat, stats: StatsState, stats': StatsState, r: Request, depth: nat, b: ObjectBucket,
                  k: ChannelBucket)
    requires channels > 0
    requires var c := ChannelOf(r.obj, channels);
             && stats'.objects == Put(stats.objects, r.epoch, r.obj, b)
             && stats'.channels == Put(stats.channels, r.epoch, c, k)
             && b.maxDepth == Max(Cell(stats.objects, r.epoch, r.obj, NoObject).maxDepth, depth)
             && k.maxDepth == Max(Cell(stats.channels, r.epoch, c, NoChannel).maxDepth, depth)
    ensures DepthsMove(channels, stats, stats', r, depth)
  {
    hide ChannelOf;
    PutCells(stats.objects, r.epoch, r.obj, b, NoObject);
    PutCells(stats.channels, r.epoch, ChannelOf(r.obj, channels), k, NoChannel);
  }

  /** The request that arrives joins its channel's queue, and that is the depth that is recorded. */
  lemma ForwardDepths(cfg: Config, m: MemoryState, sh: Shared, e: Event)
    requires MemoryShape(cfg, m) && e.kind == ForwardToMemory && MemoryHandle(cfg, m, sh, e).Ok?
    ensures Known(sh, e.request)
    ensures var (m', sh') := MemoryHandle(cfg, m, sh, e).value;
            var r := TrackOf(sh, e.request).request;
            var c := ChannelOf(r.obj, cfg.channels);
            && |m'.channels| == |m.channels|
            && DepthsMove(cfg.channels, sh.stats, sh'.stats, r, |m'.channels[c].queued|)
  {
    hide Schedule, Stamp, Put, Cell, DepthsMove;
    var (m', sh') := MemoryHandle(cfg, m, sh, e).value;
    var t := TrackOf(sh, e.request);
    var c := ChannelOf(t.request.obj, cfg.channels);
    var depth := |m.channels[c].queued| + 1;
    var r, stats := t.request.(enqueueTime := e.time), ObserveDepth(sh.stats, depth);
    PutDepths(cfg.channels, sh.stats, sh'.stats, t.request, depth, AccessedObject(stats, r, depth),
              AccessedChannel(stats, r, c, depth));
  }

  /** Starts and completions record no depth. */
  lemma OtherDepths(cfg: Config, m: MemoryState, sh: Shared, e: Event)
    requires MemoryShape(cfg, m) && e.kind != ForwardToMemory && MemoryHandle(cfg, m, sh, e).Ok?
    ensures Known(sh, e.request)
    ensures var r := TrackOf(sh, e.request).request;
            DepthsMove(cfg.channels, sh.stats, MemoryHandle(cfg, m, sh, e).value.1.stats, r, 0)
  {
    hide Schedule, Stamp, Put, Cell, DepthsMove;
    var sh', t := MemoryHandle(cfg, m, sh, e).value.1, TrackOf(sh, e.request);
    var c := ChannelOf(t.request.obj, cfg.channels);
    if e.kind == MemoryServiceStart {
      var r, wait := t.request.(stage := WaitingForResponse), Since(t.request.enqueueTime, e.time);
      var stats := RecordMemoryWait(sh.stats, wait);
      PutDepths(cfg.channels, sh.stats, sh'.stats, t.request, 0, WaitedObject(stats, r, wait),
                WaitedChannel(stats, r, c, wait));
    } else {
      var service := ServiceTime(cfg, t.request.size);
      PutDepths(cfg.channels, sh.stats, sh'.stats, t.request, 0, ServedObject(sh.stats, t.request, service),
                ServedChannel(sh.stats, t.request, c, service));
    }
  }

  /** The next event brings a request to memory. */
  ghost predicate Arrives(s: State, r: Request) {
    Orderly(s.shared.queue) && s.shared.queue.pending != {} &&
    var e := Least(s.shared.queue);
    e.kind == ForwardToMemory && Known(s.shared, e.request) && TrackOf(s.shared, e.request).request == r
  }

  /** How many requests wait at a channel. */
  function QueueLength(s: State, c: nat): nat { if c < |s.memory.channels| then |s.memory.channels[c].queued| else 0 }

  /** What one turn does to the greatest depths. */
  ghost predicate DepthsAfter(cfg: Config, s: State, s': State, e: nat, o: nat, c: nat)
    requires cfg.channels > 0
  {
    && Cell(s'.shared.stats.objects, e, o, NoObject).maxDepth ==
       (var m := Cell(s.shared.stats.objects, e, o, NoObject).maxDepth;
        if exists r :: Arrives(s, r) && r.epoch == e && r.obj == o
        then Max(m, QueueLength(s', ChannelOf(o, cfg.channels))) else m)
    && Cell(s'.shared.stats.channels, e, c, NoChannel).maxDepth ==
       (var m := Cell(s.shared.stats.channels, e, c, NoChannel).maxDepth;
        if exists r :: Arrives(s, r) && r.epoch == e && ChannelOf(r.obj, cfg.channels) == c
        then Max(m, QueueLength(s', c)) else m)
  }

  lemma DispatchDepths(cfg: Config, s: State, e: Event)
    requires MemoryShape(cfg, s.memory) && Dispatch(cfg, s, e).Ok? && e.target !in s.nodes
    ensures var d := Dispatch(cfg, s, e).value;
            && Known(s.shared, e.request) && |d.memory.channels| == cfg.channels
            && var r := TrackOf(s.shared, e.request).request;
            DepthsMove(cfg.channels, s.shared.stats, d.shared.stats, r,
                       if e.kind == ForwardToMemory then QueueLength(d, ChannelOf(r.obj, cfg.channels)) else 0)
  {
    hide MemoryHandle, DepthsMove;
    if e.kind == ForwardToMemory {
      ForwardDepths(cfg, s.memory, s.shared, e);
    } else {
      OtherDepths(cfg, s.memory, s.shared, e);
      SameChannels(cfg, s.memory, s.shared, e);
    }
  }

  lemma SameChannels(cfg: Config, m: MemoryState, sh: Shared, e: Event)
    requires MemoryShape(cfg, m) && MemoryHandle(cfg, m, sh, e).Ok?
    ensures |MemoryHandle(cfg, m, sh, e).value.0.channels| == cfg.channels
  {
    hide Schedule, Stamp, ArrivalStats, RecordQueueWait, RecordMemoryWait, RecordService;
  }

  lemma TurnDepths(cfg: Config, s: State, e: nat, o: nat, c: nat)
    requires Inv(cfg, s)
    ensures DepthsAfter(cfg, s, Turn(cfg, s), e, o, c)
  {
    hide Dispatch, Release, Cell, Core;
    ShapeOf(cfg, s);
    if s.shared.queue.pending != {} {
      var ev := Least(s.shared.queue);
      DispatchKeeps(cfg, s, ev);
      Addressed(cfg, s, ev);
      TurnIsRelease(cfg, s);
      ReleaseFrame(cfg, Handled(cfg, s));
      if ev.target in s.nodes {
        NodeDepths(cfg, Pick(s, ev), ev);
      } else {
        DispatchDepths(cfg, Pick(s, ev), ev);
        var r := TrackOf(s.shared, ev.request).request;
        assert ev.kind == ForwardToMemory ==> Arrives(s, r);
      }
    }
  }

  lemma NodeDepths(cfg: Config, s: State, e: Event)
    requires MemoryShape(cfg, s.memory) && Dispatch(cfg, s, e).Ok? && e.target in s.nodes
    ensures SameMemoryStats(s.shared.stats, Dispatch(cfg, s, e).value.shared.stats)
  {
    hide NodeHandle;
    NodesRecordNothing(cfg, e.target, s.nodes[e.target], s.shared, e);
  }

  /** Turn `j` brought a request for object `o` of epoch `e` to memory, and left `depth` requests waiting there. */
  ghost predicate Arrived(cfg: Config, j: nat, e: nat, o: nat, depth: nat)
    requires cfg.channels > 0
  {
    (exists r :: Arrives(Run(cfg, j), r) && r.epoch == e && r.obj == o) &&
    depth == QueueLength(Run(cfg, j + 1), ChannelOf(o, cfg.channels))
  }

  /** The deepest queue that an arrival in the first `k` turns has joined, for one object. */
  ghost predicate Deepest(cfg: Config, k: nat, e: nat, o: nat, m: nat)
    requires cfg.channels > 0
  {
    && (forall j: nat, d: nat {:trigger Arrived(cfg, j, e, o, d)} :: j < k && Arrived(cfg, j, e, o, d) ==> d <= m)
    && (m == 0 || exists j: nat {:trigger Arrived(cfg, j, e, o, m)} :: j < k && Arrived(cfg, j, e, o, m))
  }

  /** The greatest depth in the bucket of an object is the longest queue that any of its requests has joined. */
  lemma {:induction false} DepthsAreSeen(cfg: Config, k: nat, e: nat, o: nat)
    requires ValidConfig(cfg)
    ensures Deepest(cfg, k, e, o, Cell(Run(cfg, k).shared.stats.objects, e, o, NoObject).maxDepth)
  {
    hide Run, Turn, Inv, Cell, Arrives;
    if k == 0 {
      NothingSeen(cfg, e, o);
    } else {
      DepthsAreSeen(cfg, k - 1, e, o);
      RunKeeps(cfg, k - 1);
      TurnDepths(cfg, Run(cfg, k - 1), e, o, 0);
      RunTurns(cfg, k - 1);
      var m, m' := Cell(Run(cfg, k - 1).shared.stats.objects, e, o, NoObject).maxDepth,
                   Cell(Run(cfg, k).shared.stats.objects, e, o, NoObject).maxDepth;
      var d := QueueLength(Run(cfg, k), ChannelOf(o, cfg.channels));
      assert Arrived(cfg, k - 1, e, o, d) <==> exists r :: Arrives(Run(cfg, k - 1), r) && r.epoch == e && r.obj == o;
      if m' > 0 && m' == m {
        var j: nat :| j < k - 1 && Arrived(cfg, j, e, o, m);
      }
    }
  }

  lemma RunTurns(cfg: Config, k: nat)
    ensures Run(cfg, k + 1) == Turn(cfg, Run(cfg, k))
  {
    hide Turn;
  }

  lemma NothingSeen(cfg: Config, e: nat, o: nat)
    ensures Cell(Run(cfg, 0).shared.stats.objects, e, o, NoObject) == NoObject
  {
    hide Release;
    ReleaseFrame(cfg, Initial(cfg));
  }

  /** Likewise for a channel: turn `j` brought some request of epoch `e` to it, and left `depth` requests waiting. */
  ghost predicate Joined(cfg: Config, j: nat, e: nat, c: nat, depth: nat)
    requires cfg.channels > 0
  {
    (exists r :: Arrives(Run(cfg, j), r) && r.epoch == e && ChannelOf(r.obj, cfg.channels) == c) &&
    depth == QueueLength(Run(cfg, j + 1), c)
  }

  ghost predicate DeepestAt(cfg: Config, k: nat, e: nat, c: nat, m: nat)
    requires cfg.channels > 0
  {
    && (forall j: nat, d: nat {:trigger Joined(cfg, j, e, c, d)} :: j < k && Joined(cfg, j, e, c, d) ==> d <= m)
    && (m == 0 || exists j: nat {:trigger Joined(cfg, j, e, c, m)} :: j < k && Joined(cfg, j, e, c, m))
  }

  /** The greatest depth in the bucket of a channel is the longest queue that any request of the epoch has joined. */
  lemma {:induction false} ChannelDepthsAreSeen(cfg: Config, k: nat, e: nat, c: nat)
    requires ValidConfig(cfg)
    ensures DeepestAt(cfg, k, e, c, Cell(Run(cfg, k).shared.stats.channels, e, c, NoChannel).maxDepth)
  {
    hide Run, Turn, Inv, Cell, Arrives;
    if k == 0 {
      NothingSeenAt(cfg, e, c);
    } else {
      ChannelDepthsAreSeen(cfg, k - 1, e, c);
      RunKeeps(cfg, k - 1);
      TurnDepths(cfg, Run(cfg, k - 1), e, 0, c);
      RunTurns(cfg, k - 1);
      var m, m' := Cell(Run(cfg, k - 1).shared.stats.channels, e, c, NoChannel).maxDepth,
                   Cell(Run(cfg, k).shared.stats.channels, e, c, NoChannel).maxDepth;
      var d := QueueLength(Run(cfg, k), c);
      assert Joined(cfg, k - 1, e, c, d) <==>
             exists r :: Arrives(Run(cfg, k - 1), r) && r.epoch == e && ChannelOf(r.obj, cfg.channels) == c;
      if m' > 0 && m' == m {
        var j: nat :| j < k - 1 && Joined(cfg, j, e, c, m);
      }
    }
  }

  lemma NothingSeenAt(cfg: Config, e: nat, c: nat)
    ensures Cell(Run(cfg, 0).shared.stats.channels, e, c, NoChannel) == NoChannel
  {
    hide Release;
    ReleaseFrame(cfg, Initial(cfg));
  }
}
