/** The statistics of whole runs: channel buckets are sums over their objects, global figures sums over channels. */
module StatsLaws {
  import opened Model
  import opened Totals
  import opened Cache
  import opened Scheduling
  import opened Statistics
  import opened Protocol
  import opened Invariants
  import opened HandlerTokens
  import opened HandlerTimes
  import opened Releases
  import opened Steps
  import opened Runs
  import opened Barriers

  /* ---- Channel buckets are sums over objects ---- */

  ghost function OnChannel(f: ObjectBucket -> nat, row: map<nat, ObjectBucket>, c: nat, channels: nat): map<nat, nat>
    requires channels > 0
  {
    map o | o in row && ChannelOf(o, channels) == c :: f(row[o])
  }

  /** The sum of a measure over the objects of one channel, in one epoch. */
  ghost function Share(f: ObjectBucket -> nat, objects: Telemetry, epoch: nat, c: nat, channels: nat): nat
    requires channels > 0
  {
    Total(OnChannel(f, Row(objects, epoch), c, channels))
  }

  type ChannelTable = map<nat, map<nat, ChannelBucket>>

  ghost predicate MatchesAt(f: ObjectBucket -> nat, g: ChannelBucket -> nat, objects: Telemetry, table: ChannelTable,
                            n: nat, e: nat, c: nat)
    requires n > 0
  {
    g(Cell(table, e, c, NoChannel)) == Share(f, objects, e, c, n)
  }

  ghost predicate Matches(f: ObjectBucket -> nat, g: ChannelBucket -> nat, objects: Telemetry, table: ChannelTable,
                          n: nat)
    requires n > 0
  {
    forall e, c {:trigger MatchesAt(f, g, objects, table, n, e, c)} :: 0 <= e && 0 <= c < n ==>
      MatchesAt(f, g, objects, table, n, e, c)
  }

  lemma SharePut(f: ObjectBucket -> nat, objects: Telemetry, epoch: nat, o: nat, b: ObjectBucket, n: nat, e: nat,
                 c: nat)
    requires n > 0 && f(NoObject) == 0
    ensures Share(f, Put(objects, epoch, o, b), e, c, n) +
            (if e == epoch && c == ChannelOf(o, n) then f(Cell(objects, epoch, o, NoObject)) else 0) ==
            Share(f, objects, e, c, n) + (if e == epoch && c == ChannelOf(o, n) then f(b) else 0)
  {
    var row := Row(objects, epoch);
    if e == epoch {
      var sums := OnChannel(f, row, c, n);
      if c == ChannelOf(o, n) {
        TotalUpdate(sums, o, f(b));
        assert OnChannel(f, row[o := b], c, n) == sums[o := f(b)];
      } else {
        assert OnChannel(f, row[o := b], c, n) == sums;
      }
    }
  }

  /** An object's bucket and the bucket of its channel move by the same amount. */
  lemma MatchesPut(f: ObjectBucket -> nat, g: ChannelBucket -> nat, objects: Telemetry, table: ChannelTable, n: nat,
                   epoch: nat, o: nat, b: ObjectBucket, k: ChannelBucket)
    requires n > 0 && Matches(f, g, objects, table, n) && f(NoObject) == 0
    requires f(b) + g(Cell(table, epoch, ChannelOf(o, n), NoChannel)) == g(k) + f(Cell(objects, epoch, o, NoObject))
    ensures Matches(f, g, Put(objects, epoch, o, b), Put(table, epoch, ChannelOf(o, n), k), n)
  {
    forall e: nat, c: nat | c < n
      ensures MatchesAt(f, g, Put(objects, epoch, o, b), Put(table, epoch, ChannelOf(o, n), k), n, e, c)
    {
      assert MatchesAt(f, g, objects, table, n, e, c);
      SharePut(f, objects, epoch, o, b, n, e, c);
    }
  }

  /* ---- Maxima over tables ---- */

  predicate Attained<V(!new)>(f: V -> nat, table: map<nat, map<nat, V>>, m: nat) {
    exists e, k :: e in table && k in table[e] && f(table[e][k]) == m
  }

  predicate Bounded<V(!new)>(f: V -> nat, table: map<nat, map<nat, V>>, m: nat) {
    forall e, k :: e in table && k in table[e] ==> f(table[e][k]) <= m
  }

  /** The largest measure over all buckets of all epochs, or zero. */
  ghost predicate IsMax<V(!new)>(f: V -> nat, table: map<nat, map<nat, V>>, m: nat) {
    Bounded(f, table, m) && (m == 0 || Attained(f, table, m))
  }

  /** One bucket is raised. */
  lemma MaxPut<V(!new)>(f: V -> nat, table: map<nat, map<nat, V>>, epoch: nat, key: nat, default: V, v: V, m: nat,
                 x: nat)
    requires IsMax(f, table, m) && f(default) == 0
    requires f(v) == Max(f(Cell(table, epoch, key, default)), x)
    ensures IsMax(f, Put(table, epoch, key, v), Max(m, x))
  {
    var table' := Put(table, epoch, key, v);
    assert table'[epoch][key] == v;
    if m > x {
      var e, k :| e in table && k in table[e] && f(table[e][k]) == m;
      assert table'[e][k] == (if e == epoch && k == key then v else table[e][k]);
    }
  }

  /* ---- What every record operation keeps ---- */

  function ObjectAccesses(b: ObjectBucket): nat { b.accesses }
  function ObjectBytes(b: ObjectBucket): nat { b.bytes }
  function ObjectWait(b: ObjectBucket): nat { b.queueWait }
  function ObjectSamples(b: ObjectBucket): nat { b.waitSamples }
  function ChannelAccesses(b: ChannelBucket): nat { b.accesses }
  function ChannelBytes(b: ChannelBucket): nat { b.bytes }
  function ChannelService(b: ChannelBucket): nat { b.serviceTime }
  function ChannelWait(b: ChannelBucket): nat { b.queueWait }
  function ChannelSamples(b: ChannelBucket): nat { b.waitSamples }
  function ChannelMaxWait(b: ChannelBucket): nat { b.maxQueueWait }
  function ChannelMaxDepth(b: ChannelBucket): nat { b.maxDepth }

  /** Every figure of a channel's bucket is the sum over the objects that the channel serves. */
  ghost predicate ChannelsSum(s: StatsState, n: nat)
    requires n > 0
  {
    && Matches(ObjectAccesses, ChannelAccesses, s.objects, s.channels, n)
    && Matches(ObjectBytes, ChannelBytes, s.objects, s.channels, n)
    && Matches(ServiceOf, ChannelService, s.objects, s.channels, n)
    && Matches(ObjectWait, ChannelWait, s.objects, s.channels, n)
    && Matches(ObjectSamples, ChannelSamples, s.objects, s.channels, n)
  }

  /** The global figures are sums and maxima over the channels. */
  ghost predicate GlobalSums(s: StatsState) {
    && s.totalWait == TableSum(ChannelWait, s.channels) && s.waitSamples == TableSum(ChannelSamples, s.channels)
    && IsMax(ChannelMaxWait, s.channels, s.maxWait)
    && IsMax(ChannelMaxDepth, s.channels, s.peakDepth) && s.peakChannelDepth == s.peakDepth
  }

  /** Both buckets of one request move by the same amounts. */
  lemma BothMove(s: StatsState, s': StatsState, r: Request, n: nat, b: ObjectBucket, k: ChannelBucket)
    requires n > 0 && ChannelsSum(s, n)
    requires var c := ChannelOf(r.obj, n);
             s'.objects == Put(s.objects, r.epoch, r.obj, b) && s'.channels == Put(s.channels, r.epoch, c, k)
    requires var b0 := Cell(s.objects, r.epoch, r.obj, NoObject);
             var k0 := Cell(s.channels, r.epoch, ChannelOf(r.obj, n), NoChannel);
             && b.accesses + k0.accesses == b0.accesses + k.accesses && b.bytes + k0.bytes == b0.bytes + k.bytes
             && b.serviceTime + k0.serviceTime == b0.serviceTime + k.serviceTime
             && b.queueWait + k0.queueWait == b0.queueWait + k.queueWait
             && b.waitSamples + k0.waitSamples == b0.waitSamples + k.waitSamples
    ensures ChannelsSum(s', n)
  {
    hide Matches, Put, Cell;
    MatchesPut(ObjectAccesses, ChannelAccesses, s.objects, s.channels, n, r.epoch, r.obj, b, k);
    MatchesPut(ObjectBytes, ChannelBytes, s.objects, s.channels, n, r.epoch, r.obj, b, k);
    MatchesPut(ServiceOf, ChannelService, s.objects, s.channels, n, r.epoch, r.obj, b, k);
    MatchesPut(ObjectWait, ChannelWait, s.objects, s.channels, n, r.epoch, r.obj, b, k);
    MatchesPut(ObjectSamples, ChannelSamples, s.objects, s.channels, n, r.epoch, r.obj, b, k);
  }

  lemma ArrivalSums(s: StatsState, r: Request, n: nat, depth: nat)
    requires n > 0 && ChannelsSum(s, n)
    ensures ChannelsSum(ArrivalStats(s, r, ChannelOf(r.obj, n), depth), n)
  {
    hide ChannelsSum, Put, Cell;
    var c := ChannelOf(r.obj, n);
    BothMove(s, ArrivalStats(s, r, c, depth), r, n, AccessedObject(s, r, depth), AccessedChannel(s, r, c, depth));
  }

  lemma ArrivalGlobals(s: StatsState, r: Request, c: nat, depth: nat)
    requires GlobalSums(s)
    ensures GlobalSums(ArrivalStats(s, r, c, depth))
    ensures TableSum(ChannelAccesses, ArrivalStats(s, r, c, depth).channels)
            == TableSum(ChannelAccesses, s.channels) + 1
  {
    var k := AccessedChannel(s, r, c, depth);
    hide TableSum, IsMax, Put, Cell;
    PutSum(ChannelAccesses, s.channels, r.epoch, c, NoChannel, k);
    PutSum(ChannelWait, s.channels, r.epoch, c, NoChannel, k);
    PutSum(ChannelSamples, s.channels, r.epoch, c, NoChannel, k);
    MaxPut(ChannelMaxWait, s.channels, r.epoch, c, NoChannel, k, s.maxWait, 0);
    MaxPut(ChannelMaxDepth, s.channels, r.epoch, c, NoChannel, k, s.peakDepth, depth);
  }

  lemma WaitSums(s: StatsState, r: Request, n: nat, wait: nat)
    requires n > 0 && ChannelsSum(s, n)
    ensures ChannelsSum(RecordQueueWait(RecordMemoryWait(s, wait), r, ChannelOf(r.obj, n), wait), n)
  {
    hide ChannelsSum, Put, Cell;
    var c := ChannelOf(r.obj, n);
    BothMove(s, RecordQueueWait(RecordMemoryWait(s, wait), r, c, wait), r, n, WaitedObject(s, r, wait),
             WaitedChannel(s, r, c, wait));
  }

  lemma WaitGlobals(s: StatsState, r: Request, c: nat, wait: nat)
    requires GlobalSums(s)
    ensures GlobalSums(RecordQueueWait(RecordMemoryWait(s, wait), r, c, wait))
    ensures TableSum(ChannelAccesses, RecordQueueWait(RecordMemoryWait(s, wait), r, c, wait).channels) ==
            TableSum(ChannelAccesses, s.channels)
  {
    var k := WaitedChannel(s, r, c, wait);
    hide TableSum, IsMax, Put, Cell;
    PutSum(ChannelAccesses, s.channels, r.epoch, c, NoChannel, k);
    PutSum(ChannelWait, s.channels, r.epoch, c, NoChannel, k);
    PutSum(ChannelSamples, s.channels, r.epoch, c, NoChannel, k);
    MaxPut(ChannelMaxWait, s.channels, r.epoch, c, NoChannel, k, s.maxWait, wait);
    MaxPut(ChannelMaxDepth, s.channels, r.epoch, c, NoChannel, k, s.peakDepth, 0);
  }

  lemma ServiceSums(s: StatsState, r: Request, n: nat, service: nat)
    requires n > 0 && ChannelsSum(s, n)
    ensures ChannelsSum(RecordService(s, r, ChannelOf(r.obj, n), service), n)
  {
    hide ChannelsSum, Put, Cell;
    var c := ChannelOf(r.obj, n);
    BothMove(s, RecordService(s, r, c, service), r, n, ServedObject(s, r, service), ServedChannel(s, r, c, service));
  }

  lemma ServiceGlobals(s: StatsState, r: Request, c: nat, service: nat)
    requires GlobalSums(s)
    ensures GlobalSums(RecordService(s, r, c, service))
    ensures TableSum(ChannelAccesses, RecordService(s, r, c, service).channels) == TableSum(ChannelAccesses, s.channels)
  {
    var k := ServedChannel(s, r, c, service);
    hide TableSum, IsMax, Put, Cell;
    PutSum(ChannelAccesses, s.channels, r.epoch, c, NoChannel, k);
    PutSum(ChannelWait, s.channels, r.epoch, c, NoChannel, k);
    PutSum(ChannelSamples, s.channels, r.epoch, c, NoChannel, k);
    MaxPut(ChannelMaxWait, s.channels, r.epoch, c, NoChannel, k, s.maxWait, 0);
    MaxPut(ChannelMaxDepth, s.channels, r.epoch, c, NoChannel, k, s.peakDepth, 0);
  }

  /* ---- Whole runs ---- */

  function HasArrived(t: Track): nat { if AtMemory(t) then 1 else 0 }

  ghost predicate Consistent(cfg: Config, s: State)
    requires cfg.channels > 0
  {
    ChannelsSum(s.shared.stats, cfg.channels) && GlobalSums(s.shared.stats) &&
    TableSum(ChannelAccesses, s.shared.stats.channels) == SumBy(HasArrived, s.shared.ledger.tracks)
  }

  /** One request moves from `s` to `t`. */
  ghost predicate Moved(tracks: seq<Track>, tracks': seq<Track>, i: nat, arriving: nat) {
    i < |tracks| == |tracks'| && tracks' == tracks[i := tracks'[i]] &&
    HasArrived(tracks'[i]) == HasArrived(tracks[i]) + arriving
  }

  lemma MovedSum(tracks: seq<Track>, tracks': seq<Track>, i: nat, arriving: nat)
    requires Moved(tracks, tracks', i, arriving)
    ensures SumBy(HasArrived, tracks') == SumBy(HasArrived, tracks) + arriving
  {
    SumByUpdate(HasArrived, tracks, i, tracks'[i]);
  }

  lemma MemoryMoves(cfg: Config, m: MemoryState, sh: Shared, e: Event)
    requires MemoryShape(cfg, m) && MemoryHandle(cfg, m, sh, e).Ok? && Known(sh, e.request)
    requires e.kind == ForwardToMemory <==> TrackOf(sh, e.request).phase == Forwarding
    requires TrackOf(sh, e.request).phase in {Forwarding, Queued, Serving}
    ensures Moved(sh.ledger.tracks, MemoryHandle(cfg, m, sh, e).value.1.ledger.tracks, e.request - 1,
                  if e.kind == ForwardToMemory then 1 else 0)
  {
    hide ArrivalStats, RecordQueueWait, RecordService, RecordMemoryWait, Schedule;
  }

  lemma MemorySums(cfg: Config, m: MemoryState, sh: Shared, e: Event)
    requires MemoryShape(cfg, m) && MemoryHandle(cfg, m, sh, e).Ok? && Known(sh, e.request)
    requires ChannelsSum(sh.stats, cfg.channels) && GlobalSums(sh.stats)
    ensures var stats := MemoryHandle(cfg, m, sh, e).value.1.stats;
            && ChannelsSum(stats, cfg.channels) && GlobalSums(stats)
            && TableSum(ChannelAccesses, stats.channels) ==
               TableSum(ChannelAccesses, sh.stats.channels) + (if e.kind == ForwardToMemory then 1 else 0)
  {
    hide ChannelsSum, GlobalSums, TableSum, ArrivalStats, RecordQueueWait, RecordService, RecordMemoryWait, Schedule;
    var t := TrackOf(sh, e.request);
    var c := ChannelOf(t.request.obj, cfg.channels);
    match e.kind
    case ForwardToMemory =>
      var r, depth := t.request.(enqueueTime := e.time), |m.channels[c].queued + [e.request]|;
      ArrivalSums(sh.stats, r, cfg.channels, depth);
      ArrivalGlobals(sh.stats, r, c, depth);
    case MemoryServiceStart =>
      var r, wait := t.request.(stage := WaitingForResponse), Since(t.request.enqueueTime, e.time);
      WaitSums(sh.stats, r, cfg.channels, wait);
      WaitGlobals(sh.stats, r, c, wait);
    case MemoryServiceComplete =>
      ServiceSums(sh.stats, t.request, cfg.channels, ServiceTime(cfg, t.request.size));
      ServiceGlobals(sh.stats, t.request, c, ServiceTime(cfg, t.request.size));
    case _ =>
  }

  predicate HitSoFar(t: Track) { (t.phase == Hitting ==> t.hit) && (t.phase == Returning ==> !t.hit) }

  /** A node issues a request, or moves one of its own on without bringing it to memory. */
  lemma NodesMove(cfg: Config, id: nat, n: NodeState, sh: Shared, e: Event)
    requires NodeHandle(cfg, id, n, sh, e).Ok?
    requires e.kind != GenerateRequest ==>
               Known(sh, e.request) && KindOf(TrackOf(sh, e.request).phase) == e.kind &&
                   HitSoFar(TrackOf(sh, e.request))
    ensures SumBy(HasArrived, NodeHandle(cfg, id, n, sh, e).value.1.ledger.tracks)
            == SumBy(HasArrived, sh.ledger.tracks)
  {
    hide StartEpoch, Lookup, Admit, SumBy;
    var tracks, tracks' := sh.ledger.tracks, NodeHandle(cfg, id, n, sh, e).value.1.ledger.tracks;
    if e.kind == GenerateRequest {
      if NextSpec(n).Some? {
        SumByAppend(HasArrived, tracks, tracks'[|tracks|]);
        assert tracks' == tracks + [tracks'[|tracks|]];
      }
    } else {
      var t := tracks'[e.request - 1];
      assert tracks' == tracks[e.request - 1 := t];
      assert HasArrived(t) == HasArrived(tracks[e.request - 1]);
      SumByUpdate(HasArrived, tracks, e.request - 1, t);
    }
  }

  lemma HandledConsistent(cfg: Config, s: State, e: Event)
    requires Due(cfg, s, e) && Consistent(cfg, s)
    ensures Dispatch(cfg, Pick(s, e), e).Ok? && Consistent(cfg, Dispatch(cfg, Pick(s, e), e).value)
  {
    hide ChannelsSum, GlobalSums, TableSum, SumBy, NodeHandle, MemoryHandle;
    Addressed(cfg, s, e);
    DispatchKeeps(cfg, s, e);
    if e.target in s.nodes {
      if e.kind != GenerateRequest {
        PhaseAtNode(cfg, s, e);
      }
      NodesRecordNothing(cfg, e.target, s.nodes[e.target], Taken(s.shared, e), e);
      NodesMove(cfg, e.target, s.nodes[e.target], Taken(s.shared, e), e);
      SameSums(s.shared.stats, Dispatch(cfg, Pick(s, e), e).value.shared.stats, cfg.channels);
    } else {
      PhaseAtMemory(cfg, s, e);
      MemorySums(cfg, s.memory, Taken(s.shared, e), e);
      MemoryMoves(cfg, s.memory, Taken(s.shared, e), e);
      MovedSum(s.shared.ledger.tracks, Dispatch(cfg, Pick(s, e), e).value.shared.ledger.tracks, e.request - 1,
               if e.kind == ForwardToMemory then 1 else 0);
    }
  }

  lemma SameSums(s: StatsState, s': StatsState, n: nat)
    requires n > 0 && SameMemoryStats(s, s')
    ensures (ChannelsSum(s, n) <==> ChannelsSum(s', n)) && (GlobalSums(s) <==> GlobalSums(s'))
  {
    hide Matches, IsMax, TableSum;
  }

  lemma PhaseAtNode(cfg: Config, s: State, e: Event)
    requires Due(cfg, s, e) && e.target in s.nodes && e.kind != GenerateRequest
    ensures Known(s.shared, e.request) && KindOf(TrackOf(s.shared, e.request).phase) == e.kind
    ensures HitSoFar(TrackOf(s.shared, e.request))
  {
    Addressed(cfg, s, e);
    RequestAtNode(cfg, s.memory, s.shared, s.nodes, e);
    assert Timed(cfg, s.shared.ledger.tracks[e.request - 1]);
  }

  lemma PhaseAtMemory(cfg: Config, s: State, e: Event)
    requires Due(cfg, s, e) && e.target !in s.nodes
    ensures Known(s.shared, e.request) && TrackOf(s.shared, e.request).phase in {Forwarding, Queued, Serving}
    ensures e.kind == ForwardToMemory <==> TrackOf(s.shared, e.request).phase == Forwarding
  {
    Addressed(cfg, s, e);
    MemoryRequestIsMissing(cfg, s, e);
    assert Owned(cfg, s.shared.ledger.tracks, s.memory, s.nodes, e);
    assert TrackToken(cfg, s.shared.queue, e.request - 1, s.shared.ledger.tracks[e.request - 1]);
    if e.kind == MemoryServiceStart {
      StartOnTime(cfg, s.memory, s.shared, s.nodes, e);
    }
  }

  lemma TurnConsistent(cfg: Config, s: State)
    requires Inv(cfg, s) && Consistent(cfg, s)
    ensures Consistent(cfg, Turn(cfg, s))
  {
    if s.shared.queue.pending != {} {
      hide Dispatch;
      HandledConsistent(cfg, s, Least(s.shared.queue));
      TurnIsRelease(cfg, s);
      ReleaseConsistent(cfg, Handled(cfg, s));
    }
  }

  lemma ReleaseConsistent(cfg: Config, s: State)
    requires cfg.channels > 0 && Consistent(cfg, s)
    ensures Consistent(cfg, Release(cfg, s))
  {
    hide ChannelsSum, GlobalSums, TableSum, SumBy, Release;
    ReleaseFrame(cfg, s);
  }

  lemma NoStatsConsistent(n: nat)
    requires n > 0
    ensures ChannelsSum(NoStats, n) && GlobalSums(NoStats) && TableSum(ChannelAccesses, map[]) == 0
  {
    assert forall e: nat, c: nat, f :: OnChannel(f, Row(map[], e), c, n) == map[];
    assert RowSums(ChannelWait, map[]) == RowSums(ChannelSamples, map[]) == RowSums(ChannelAccesses, map[]) == map[];
  }

  /**
   * Throughout a run the buckets of a channel are the sums over its objects, the global wait is the sum and the
   * peak depth and longest wait the maxima over all channels.
   */
  lemma {:induction false} StatsConsistent(cfg: Config, k: nat)
    requires ValidConfig(cfg)
    ensures Consistent(cfg, Run(cfg, k))
  {
    hide Turn, Inv, Core, Release, Consistent;
    if k == 0 {
      InitialConsistent(cfg);
      ReleaseConsistent(cfg, Initial(cfg));
    } else {
      StatsConsistent(cfg, k - 1);
      RunKeeps(cfg, k - 1);
      TurnConsistent(cfg, Run(cfg, k - 1));
    }
  }

  lemma InitialConsistent(cfg: Config)
    requires ValidConfig(cfg)
    ensures Consistent(cfg, Initial(cfg))
  {
    hide ChannelsSum, GlobalSums, TableSum;
    NoStatsConsistent(cfg.channels);
  }

  lemma {:induction false} ArrivedAreMisses(cfg: Config, tracks: seq<Track>)
    requires AllFinished(tracks)
    ensures SumBy(HasArrived, tracks) == SumBy(IsMiss, tracks)
  {
    if tracks != [] {
      ArrivedAreMisses(cfg, tracks[..|tracks| - 1]);
    }
  }

  /** At the end the remote accesses of all channels are the cache misses. */
  lemma RemoteAccessesAreMisses(cfg: Config)
    requires ValidConfig(cfg)
    ensures TableSum(ChannelAccesses, Final(cfg).shared.stats.channels) == Final(cfg).shared.stats.misses
  {
    hide Run, ChannelsSum, GlobalSums;
    StatsConsistent(cfg, Turns(cfg));
    FinalIsFinished(cfg);
    ArrivedAreMisses(cfg, Final(cfg).shared.ledger.tracks);
    RunKeeps(cfg, Turns(cfg));
    MissesCounted(cfg, Final(cfg));
  }

  lemma MissesCounted(cfg: Config, s: State)
    requires Inv(cfg, s)
    ensures s.shared.stats.misses == SumBy(IsMiss, s.shared.ledger.tracks)
  {
  }
}
