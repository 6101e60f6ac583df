/** The telemetry of an object in an epoch is exactly what its requests of that epoch have been through. */
module Accounts {
  import opened Model
  import opened Totals
  import opened Cache
  import opened Scheduling
  import opened Statistics
  import opened Protocol
  import opened Invariants
  import opened HandlerTokens
  import opened HandlerTimes
  import opened Releases
  import opened Steps
  import opened Runs
  import opened Barriers
  import opened StatsLaws

  /* ---- What the requests of one object in one epoch add up to ---- */

  function HasStarted(t: Track): nat { if AtMemory(t) && t.phase != Queued then 1 else 0 }

  function ServedBytes(t: Track): nat {
    if AtMemory(t) && t.phase != Queued && t.phase != Serving then t.request.size else 0
  }

  predicate IsOf(t: Track, e: nat, o: nat) { t.request.epoch == e && t.request.obj == o }

  /** The measure `g` of the requests for object `o` in epoch `e`. */
  ghost function Only(g: Track -> nat, e: nat, o: nat): Track -> nat {
    t => if IsOf(t, e, o) then g(t) else 0
  }

  ghost function Sources(tracks: seq<Track>, e: nat, o: nat): set<nat> {
    set i | 0 <= i < |tracks| && IsOf(tracks[i], e, o) && AtMemory(tracks[i]) :: tracks[i].request.source
  }

  ghost predicate AccountsAt(f: ObjectBucket -> nat, g: Track -> nat, objects: Telemetry, tracks: seq<Track>, e: nat,
                             o: nat)
  {
    f(Cell(objects, e, o, NoObject)) == SumBy(Only(g, e, o), tracks)
  }

  /** In every bucket the figure `f` is the sum of `g` over the bucket's requests. */
  ghost predicate AccountsFor(f: ObjectBucket -> nat, g: Track -> nat, objects: Telemetry, tracks: seq<Track>) {
    forall e: nat, o: nat {:trigger AccountsAt(f, g, objects, tracks, e, o)} :: AccountsAt(f, g, objects, tracks, e, o)
  }

  ghost predicate SourcesAt(objects: Telemetry, tracks: seq<Track>, e: nat, o: nat) {
    Cell(objects, e, o, NoObject).requesters == Sources(tracks, e, o)
  }

  ghost predicate SourcesAccount(objects: Telemetry, tracks: seq<Track>) {
    forall e: nat, o: nat {:trigger SourcesAt(objects, tracks, e, o)} :: SourcesAt(objects, tracks, e, o)
  }

  /**
   * The accesses, requesters, waits, services and bytes of every bucket are those of the requests that have come to
   * memory, begun their service and ended it.
   */
  ghost predicate BucketsAccount(objects: Telemetry, tracks: seq<Track>) {
    && AccountsFor(ObjectAccesses, HasArrived, objects, tracks)
    && AccountsFor(ObjectSamples, HasStarted, objects, tracks)
    && AccountsFor(ObjectWait, Wait, objects, tracks)
    && AccountsFor(ServiceOf, Service, objects, tracks)
    && AccountsFor(ObjectBytes, ServedBytes, objects, tracks)
    && SourcesAccount(objects, tracks)
  }

  /* ---- One request moves, or enters ---- */

  predicate SameTarget(t: Track, u: Track) {
    t.request.epoch == u.request.epoch && t.request.obj == u.request.obj && t.request.source == u.request.source
  }

  /** One request moves, and its bucket moves by as much. */
  lemma AccountsMove(f: ObjectBucket -> nat, g: Track -> nat, objects: Telemetry, tracks: seq<Track>, i: nat, t: Track,
                     b: ObjectBucket)
    requires AccountsFor(f, g, objects, tracks) && i < |tracks| && SameTarget(tracks[i], t)
    requires var r := t.request; f(b) + g(tracks[i]) == f(Cell(objects, r.epoch, r.obj, NoObject)) + g(t)
    ensures AccountsFor(f, g, Put(objects, t.request.epoch, t.request.obj, b), tracks[i := t])
  {
    var objects', tracks' := Put(objects, t.request.epoch, t.request.obj, b), tracks[i := t];
    forall e: nat, o: nat ensures AccountsAt(f, g, objects', tracks', e, o) {
      assert AccountsAt(f, g, objects, tracks, e, o);
      SumByUpdate(Only(g, e, o), tracks, i, t);
    }
  }

  /** One request moves on without anything to account for. */
  lemma AccountsStay(f: ObjectBucket -> nat, g: Track -> nat, objects: Telemetry, tracks: seq<Track>, i: nat, t: Track)
    requires AccountsFor(f, g, objects, tracks) && i < |tracks| && SameTarget(tracks[i], t) && g(t) == g(tracks[i])
    ensures AccountsFor(f, g, objects, tracks[i := t])
  {
    var tracks' := tracks[i := t];
    forall e: nat, o: nat ensures AccountsAt(f, g, objects, tracks', e, o) {
      assert AccountsAt(f, g, objects, tracks, e, o);
      SumByUpdate(Only(g, e, o), tracks, i, t);
    }
  }

  lemma AccountsEnter(f: ObjectBucket -> nat, g: Track -> nat, objects: Telemetry, tracks: seq<Track>, t: Track)
    requires AccountsFor(f, g, objects, tracks) && g(t) == 0
    ensures AccountsFor(f, g, objects, tracks + [t])
  {
    forall e: nat, o: nat ensures AccountsAt(f, g, objects, tracks + [t], e, o) {
      assert AccountsAt(f, g, objects, tracks, e, o);
      SumByAppend(Only(g, e, o), tracks, t);
    }
  }

  lemma SourcesUpdate(tracks: seq<Track>, i: nat, t: Track, e: nat, o: nat)
    requires i < |tracks| && SameTarget(tracks[i], t) && (AtMemory(tracks[i]) ==> AtMemory(t))
    ensures Sources(tracks[i := t], e, o) ==
            Sources(tracks, e, o) + (if IsOf(t, e, o) && AtMemory(t) then {t.request.source} else {})
  {
    var tracks' := tracks[i := t];
    forall x | x in Sources(tracks, e, o) ensures x in Sources(tracks', e, o) {
      var j :| 0 <= j < |tracks| && IsOf(tracks[j], e, o) && AtMemory(tracks[j]) && tracks[j].request.source == x;
      assert tracks'[j].request.source == x && IsOf(tracks'[j], e, o) && AtMemory(tracks'[j]);
    }
    if IsOf(t, e, o) && AtMemory(t) {
      assert tracks'[i] == t;
    }
  }

  lemma SourcesMove(objects: Telemetry, tracks: seq<Track>, i: nat, t: Track, b: ObjectBucket)
    requires SourcesAccount(objects, tracks) && i < |tracks| && SameTarget(tracks[i], t)
    requires AtMemory(t) && b.requesters == Cell(objects, t.request.epoch, t.request.obj, NoObject).requesters +
                                            {t.request.source}
    ensures SourcesAccount(Put(objects, t.request.epoch, t.request.obj, b), tracks[i := t])
  {
    var objects', tracks' := Put(objects, t.request.epoch, t.request.obj, b), tracks[i := t];
    forall e: nat, o: nat ensures SourcesAt(objects', tracks', e, o) {
      assert SourcesAt(objects, tracks, e, o);
      SourcesUpdate(tracks, i, t, e, o);
    }
  }

  /** A request that is at memory already is among its bucket's sources. */
  lemma SourceListed(objects: Telemetry, tracks: seq<Track>, i: nat)
    requires SourcesAccount(objects, tracks) && i < |tracks| && AtMemory(tracks[i])
    ensures var r := tracks[i].request; r.source in Cell(objects, r.epoch, r.obj, NoObject).requesters
  {
    assert SourcesAt(objects, tracks, tracks[i].request.epoch, tracks[i].request.obj);
  }

  lemma SourcesStay(objects: Telemetry, tracks: seq<Track>, i: nat, t: Track)
    requires SourcesAccount(objects, tracks) && i < |tracks| && SameTarget(tracks[i], t)
    requires AtMemory(t) <==> AtMemory(tracks[i])
    ensures SourcesAccount(objects, tracks[i := t])
  {
    var tracks' := tracks[i := t];
    forall e: nat, o: nat ensures SourcesAt(objects, tracks', e, o) {
      assert SourcesAt(objects, tracks, e, o);
      SourcesUpdate(tracks, i, t, e, o);
      if IsOf(t, e, o) && AtMemory(t) {
        SourceListed(objects, tracks, i);
      }
    }
  }

  lemma SourcesEnter(objects: Telemetry, tracks: seq<Track>, t: Track)
    requires SourcesAccount(objects, tracks) && !AtMemory(t)
    ensures SourcesAccount(objects, tracks + [t])
  {
    forall e: nat, o: nat ensures SourcesAt(objects, tracks + [t], e, o) {
      assert SourcesAt(objects, tracks, e, o);
      forall x | x in Sources(tracks, e, o) ensures x in Sources(tracks + [t], e, o) {
        var j :| 0 <= j < |tracks| && IsOf(tracks[j], e, o) && AtMemory(tracks[j]) && tracks[j].request.source == x;
        assert (tracks + [t])[j] == tracks[j];
      }
    }
  }

  /** The figures that a request stands for. */
  predicate SameFigures(t: Track, u: Track) {
    && (AtMemory(t) <==> AtMemory(u)) && HasStarted(t) == HasStarted(u)
    && t.wait == u.wait && t.service == u.service && ServedBytes(t) == ServedBytes(u)
  }

  lemma AllStay(objects: Telemetry, tracks: seq<Track>, i: nat, t: Track)
    requires BucketsAccount(objects, tracks) && i < |tracks| && SameTarget(tracks[i], t) && SameFigures(tracks[i], t)
    ensures BucketsAccount(objects, tracks[i := t])
  {
    hide AccountsFor, SourcesAccount;
    AccountsStay(ObjectAccesses, HasArrived, objects, tracks, i, t);
    AccountsStay(ObjectSamples, HasStarted, objects, tracks, i, t);
    AccountsStay(ObjectWait, Wait, objects, tracks, i, t);
    AccountsStay(ServiceOf, Service, objects, tracks, i, t);
    AccountsStay(ObjectBytes, ServedBytes, objects, tracks, i, t);
    SourcesStay(objects, tracks, i, t);
  }

  lemma AllEnter(objects: Telemetry, tracks: seq<Track>, t: Track)
    requires BucketsAccount(objects, tracks) && !AtMemory(t) && t.wait == t.service == 0
    ensures BucketsAccount(objects, tracks + [t])
  {
    hide AccountsFor, SourcesAccount;
    AccountsEnter(ObjectAccesses, HasArrived, objects, tracks, t);
    AccountsEnter(ObjectSamples, HasStarted, objects, tracks, t);
    AccountsEnter(ObjectWait, Wait, objects, tracks, t);
    AccountsEnter(ServiceOf, Service, objects, tracks, t);
    AccountsEnter(ObjectBytes, ServedBytes, objects, tracks, t);
    SourcesEnter(objects, tracks, t);
  }

  /** The bucket `b` differs from its predecessor by what request `i` has been through on the way to `t`. */
  ghost predicate BucketMoves(objects: Telemetry, before: Track, t: Track, b: ObjectBucket) {
    var b0 := Cell(objects, t.request.epoch, t.request.obj, NoObject);
    && b.accesses + HasArrived(before) == b0.accesses + HasArrived(t)
    && b.waitSamples + HasStarted(before) == b0.waitSamples + HasStarted(t)
    && b.queueWait + before.wait == b0.queueWait + t.wait
    && b.serviceTime + before.service == b0.serviceTime + t.service
    && b.bytes + ServedBytes(before) == b0.bytes + ServedBytes(t)
    && AtMemory(t) && b.requesters == b0.requesters + (if AtMemory(before) then {} else {t.request.source})
  }

  lemma AllMove(objects: Telemetry, tracks: seq<Track>, i: nat, t: Track, b: ObjectBucket)
    requires BucketsAccount(objects, tracks) && i < |tracks| && SameTarget(tracks[i], t)
    requires BucketMoves(objects, tracks[i], t, b)
    ensures BucketsAccount(Put(objects, t.request.epoch, t.request.obj, b), tracks[i := t])
  {
    hide AccountsFor, SourcesAccount, Cell, Put;
    AccountsMove(ObjectAccesses, HasArrived, objects, tracks, i, t, b);
    AccountsMove(ObjectSamples, HasStarted, objects, tracks, i, t, b);
    AccountsMove(ObjectWait, Wait, objects, tracks, i, t, b);
    AccountsMove(ServiceOf, Service, objects, tracks, i, t, b);
    AccountsMove(ObjectBytes, ServedBytes, objects, tracks, i, t, b);
    if AtMemory(tracks[i]) {
      SourceListed(objects, tracks, i);
    }
    var b0 := Cell(objects, t.request.epoch, t.request.obj, NoObject);
    assert b.requesters == b0.requesters + {t.request.source};
    SourcesMove(objects, tracks, i, t, b);
  }

  /* ---- Handlers ---- */

  /** Memory handles a request that is at the stage that the event is for. */
  predicate Staged(kind: EventKind, t: Track) {
    match kind
    case ForwardToMemory => t.phase == Forwarding && t.wait == t.service == 0
    case MemoryServiceStart => t.phase == Queued && t.wait == t.service == 0
    case MemoryServiceComplete => t.phase == Serving && t.service == 0
    case _ => false
  }

  lemma MemoryStages(cfg: Config, s: State, e: Event)
    requires Due(cfg, s, e) && e.target !in s.nodes
    ensures Known(s.shared, e.request) && Staged(e.kind, TrackOf(s.shared, e.request))
  {
    Addressed(cfg, s, e);
    MemoryRequestIsMissing(cfg, s, e);
    var t := s.shared.ledger.tracks[e.request - 1];
    assert Owned(cfg, s.shared.ledger.tracks, s.memory, s.nodes, e);
    assert TrackToken(cfg, s.shared.queue, e.request - 1, t);
    assert Timed(cfg, t);
    if e.kind == MemoryServiceStart {
      StartOnTime(cfg, s.memory, s.shared, s.nodes, e);
    }
  }

  /** The handler writes one bucket, that of the request it moves, and both change alike. */
  ghost predicate MovesBucket(sh: Shared, sh': Shared, i: nat, b: ObjectBucket)
    requires i < |sh.ledger.tracks| == |sh'.ledger.tracks|
  {
    var t, t' := sh.ledger.tracks[i], sh'.ledger.tracks[i];
    && sh'.ledger.tracks == sh.ledger.tracks[i := t'] && SameTarget(t, t')
    && sh'.stats.objects == Put(sh.stats.objects, t'.request.epoch, t'.request.obj, b)
    && BucketMoves(sh.stats.objects, t, t', b)
  }

  lemma ForwardMovesBucket(cfg: Config, m: MemoryState, sh: Shared, e: Event) returns (b: ObjectBucket)
    requires MemoryShape(cfg, m) && MemoryForward(cfg, m, sh, e).Ok?
    requires Known(sh, e.request) && Staged(ForwardToMemory, TrackOf(sh, e.request))
    ensures var sh' := MemoryForward(cfg, m, sh, e).value.1;
            |sh'.ledger.tracks| == |sh.ledger.tracks| && MovesBucket(sh, sh', e.request - 1, b)
  {
    hide Schedule, Stamp;
    var sh', r := MemoryForward(cfg, m, sh, e).value.1, TrackOf(sh, e.request).request;
    b := sh'.stats.objects[r.epoch][r.obj];
  }

  lemma StartMovesBucket(cfg: Config, m: MemoryState, sh: Shared, e: Event) returns (b: ObjectBucket)
    requires MemoryShape(cfg, m) && MemoryStart(cfg, m, sh, e).Ok?
    requires Known(sh, e.request) && Staged(MemoryServiceStart, TrackOf(sh, e.request))
    ensures var sh' := MemoryStart(cfg, m, sh, e).value.1;
            |sh'.ledger.tracks| == |sh.ledger.tracks| && MovesBucket(sh, sh', e.request - 1, b)
  {
    hide Schedule, Stamp;
    var sh', r := MemoryStart(cfg, m, sh, e).value.1, TrackOf(sh, e.request).request;
    b := sh'.stats.objects[r.epoch][r.obj];
  }

  lemma CompleteMovesBucket(cfg: Config, m: MemoryState, sh: Shared, e: Event) returns (b: ObjectBucket)
    requires MemoryShape(cfg, m) && MemoryComplete(cfg, m, sh, e).Ok?
    requires Known(sh, e.request) && Staged(MemoryServiceComplete, TrackOf(sh, e.request))
    ensures var sh' := MemoryComplete(cfg, m, sh, e).value.1;
            |sh'.ledger.tracks| == |sh.ledger.tracks| && MovesBucket(sh, sh', e.request - 1, b)
  {
    hide Schedule, Stamp;
    var sh', r := MemoryComplete(cfg, m, sh, e).value.1, TrackOf(sh, e.request).request;
    b := sh'.stats.objects[r.epoch][r.obj];
  }

  lemma MemoryAccounts(cfg: Config, m: MemoryState, sh: Shared, e: Event)
    requires MemoryShape(cfg, m) && MemoryHandle(cfg, m, sh, e).Ok?
    requires Known(sh, e.request) && Staged(e.kind, TrackOf(sh, e.request))
    requires BucketsAccount(sh.stats.objects, sh.ledger.tracks)
    ensures var sh' := MemoryHandle(cfg, m, sh, e).value.1; BucketsAccount(sh'.stats.objects, sh'.ledger.tracks)
  {
    hide BucketsAccount, BucketMoves, Put, MemoryForward, MemoryStart, MemoryComplete;
    var sh', i := MemoryHandle(cfg, m, sh, e).value.1, e.request - 1;
    var b: ObjectBucket;
    match e.kind {
      case ForwardToMemory => b := ForwardMovesBucket(cfg, m, sh, e);
      case MemoryServiceStart => b := StartMovesBucket(cfg, m, sh, e);
      case _ => b := CompleteMovesBucket(cfg, m, sh, e);
    }
    AllMove(sh.stats.objects, sh.ledger.tracks, i, sh'.ledger.tracks[i], b);
  }

  lemma NodeAccounts(cfg: Config, id: nat, n: NodeState, sh: Shared, e: Event)
    requires NodeHandle(cfg, id, n, sh, e).Ok? && BucketsAccount(sh.stats.objects, sh.ledger.tracks)
    requires e.kind != GenerateRequest ==>
               Known(sh, e.request) && KindOf(TrackOf(sh, e.request).phase) == e.kind &&
               HitSoFar(TrackOf(sh, e.request))
    ensures var sh' := NodeHandle(cfg, id, n, sh, e).value.1; BucketsAccount(sh'.stats.objects, sh'.ledger.tracks)
  {
    hide StartEpoch, Lookup, Admit, BucketsAccount, Schedule, Stamp;
    NodesRecordNothing(cfg, id, n, sh, e);
    var tracks, tracks' := sh.ledger.tracks, NodeHandle(cfg, id, n, sh, e).value.1.ledger.tracks;
    if e.kind == GenerateRequest {
      if NextSpec(n).Some? {
        assert tracks' == tracks + [tracks'[|tracks|]];
        AllEnter(sh.stats.objects, tracks, tracks'[|tracks|]);
      }
    } else {
      var t := tracks'[e.request - 1];
      assert tracks' == tracks[e.request - 1 := t];
      AllStay(sh.stats.objects, tracks, e.request - 1, t);
    }
  }

  /* ---- Whole runs ---- */

  ghost predicate Accounted(s: State) { BucketsAccount(s.shared.stats.objects, s.shared.ledger.tracks) }

  lemma HandledAccounts(cfg: Config, s: State, e: Event)
    requires Due(cfg, s, e) && Accounted(s)
    ensures Dispatch(cfg, Pick(s, e), e).Ok? && Accounted(Dispatch(cfg, Pick(s, e), e).value)
  {
    hide BucketsAccount, NodeHandle, MemoryHandle;
    Addressed(cfg, s, e);
    DispatchKeeps(cfg, s, e);
    if e.target in s.nodes {
      if e.kind != GenerateRequest {
        PhaseAtNode(cfg, s, e);
      }
      NodeAccounts(cfg, e.target, s.nodes[e.target], Taken(s.shared, e), e);
    } else {
      MemoryStages(cfg, s, e);
      MemoryAccounts(cfg, s.memory, Taken(s.shared, e), e);
    }
  }

  lemma TurnAccounts(cfg: Config, s: State)
    requires Inv(cfg, s) && Accounted(s)
    ensures Accounted(Turn(cfg, s))
  {
    if s.shared.queue.pending != {} {
      hide Dispatch, BucketsAccount;
      HandledAccounts(cfg, s, Least(s.shared.queue));
      TurnIsRelease(cfg, s);
      ReleaseFrame(cfg, Handled(cfg, s));
    }
  }

  lemma NothingToAccount()
    ensures BucketsAccount(map[], [])
  {
    forall e: nat, o: nat ensures Sources([], e, o) == {} {
    }
  }

  /** Throughout a run the telemetry is what the requests so far have been through, bucket by bucket. */
  lemma {:induction false} TelemetryAccounts(cfg: Config, k: nat)
    requires ValidConfig(cfg)
    ensures BucketsAccount(Run(cfg, k).shared.stats.objects, Run(cfg, k).shared.ledger.tracks)
  {
    hide Turn, Inv, Core, Release, BucketsAccount;
    if k == 0 {
      NothingToAccount();
      ReleaseFrame(cfg, Initial(cfg));
    } else {
      TelemetryAccounts(cfg, k - 1);
      RunKeeps(cfg, k - 1);
      TurnAccounts(cfg, Run(cfg, k - 1));
    }
  }

  function MissedBytes(t: Track): nat { if t.hit then 0 else t.request.size }

  lemma {:induction false} FinishedFigures(tracks: seq<Track>, e: nat, o: nat)
    requires AllFinished(tracks)
    ensures SumBy(Only(HasArrived, e, o), tracks) == SumBy(Only(HasStarted, e, o), tracks) ==
            SumBy(Only(IsMiss, e, o), tracks)
    ensures SumBy(Only(ServedBytes, e, o), tracks) == SumBy(Only(MissedBytes, e, o), tracks)
  {
    if tracks != [] {
      var t := tracks[|tracks| - 1];
      assert t.phase == Finished;
      assert HasArrived(t) == HasStarted(t) == IsMiss(t) && ServedBytes(t) == MissedBytes(t);
      assert Only(HasArrived, e, o)(t) == Only(HasStarted, e, o)(t) == Only(IsMiss, e, o)(t);
      assert Only(ServedBytes, e, o)(t) == Only(MissedBytes, e, o)(t);
      FinishedFigures(tracks[..|tracks| - 1], e, o);
    }
  }

  /**
   * At the end the bucket of an object in an epoch counts exactly the misses on it, the bytes they fetched, and the
   * nodes that had them.
   */
  lemma FinalTelemetry(cfg: Config, e: nat, o: nat)
    requires ValidConfig(cfg)
    ensures var s := Final(cfg);
            var b, tracks := Cell(s.shared.stats.objects, e, o, NoObject), s.shared.ledger.tracks;
            && b.accesses == b.waitSamples == SumBy(Only(IsMiss, e, o), tracks)
            && b.bytes == SumBy(Only(MissedBytes, e, o), tracks)
            && b.queueWait == SumBy(Only(Wait, e, o), tracks)
            && b.serviceTime == SumBy(Only(Service, e, o), tracks)
            && forall n :: n in b.requesters <==>
                 exists i :: 0 <= i < |tracks| && IsOf(tracks[i], e, o) && !tracks[i].hit &&
                             tracks[i].request.source == n
  {
    hide Run, Cell, SumBy;
    TelemetryAccounts(cfg, Turns(cfg));
    FinalIsFinished(cfg);
    var objects, tracks := Final(cfg).shared.stats.objects, Final(cfg).shared.ledger.tracks;
    FinishedFigures(tracks, e, o);
    assert AccountsAt(ObjectAccesses, HasArrived, objects, tracks, e, o);
    assert AccountsAt(ObjectSamples, HasStarted, objects, tracks, e, o);
    assert AccountsAt(ObjectWait, Wait, objects, tracks, e, o);
    assert AccountsAt(ServiceOf, Service, objects, tracks, e, o);
    assert AccountsAt(ObjectBytes, ServedBytes, objects, tracks, e, o);
    assert SourcesAt(objects, tracks, e, o);
  }
}
