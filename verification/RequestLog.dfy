/** The log of a run, request by request: one issue, then three events for a hit or six for a miss. */
module RequestLog {
  import opened Totals
  import opened Cache
  import opened Scheduling
  import opened Statistics
  import opened Protocol
  import opened Invariants
  import opened HandlerTokens
  import opened Steps
  import opened Runs
  import opened Barriers
  import opened StatsLaws
  import opened Accounts
  import opened OracleRuns

  /** The log entries for events of a request after its issue. */
  ghost function IsOfRequest(request: nat): EventRecord -> nat {
    (r: EventRecord) => if r.kind != GenerateRequest && r.request == request then 1 else 0
  }

  ghost function Entries(log: seq<EventRecord>, request: nat): nat { SumBy(IsOfRequest(request), log) }

  /** The entries for events that issue requests, in order. */
  function Issues(log: seq<EventRecord>): seq<EventRecord> {
    if log == [] then []
    else
      var last := log[|log| - 1];
      Issues(log[..|log| - 1]) + (if last.kind == GenerateRequest then [last] else [])
  }

  /** The events that a request has been through since it was issued. */
  function EventsSoFar(t: Track): nat {
    match t.phase
    case Looking => 0
    case Hitting => 1
    case Forwarding => 1
    case Queued => 2
    case Serving => 3
    case Returning => 4
    case Finishing => if t.hit then 2 else 5
    case Finished => if t.hit then 3 else 6
  }

  /** The entry by which a request was issued. */
  predicate IssuedBy(t: Track, r: EventRecord) { r.target == t.request.source && r.time == t.request.issueTime }

  ghost predicate EntriesAt(s: State, i: nat)
    requires i < |s.shared.ledger.tracks|
  {
    Entries(s.log, i + 1) == EventsSoFar(s.shared.ledger.tracks[i])
  }

  ghost predicate LogAccounts(s: State) {
    var tracks := s.shared.ledger.tracks;
    && (forall i {:trigger EntriesAt(s, i)} :: 0 <= i < |tracks| ==> EntriesAt(s, i))
    && (forall r: nat {:trigger Entries(s.log, r)} :: r > |tracks| ==> Entries(s.log, r) == 0)
    && |Issues(s.log)| == |tracks|
    && (forall i :: 0 <= i < |tracks| ==> IssuedBy(tracks[i], Issues(s.log)[i]))
  }

  lemma OneMoreEntry(log: seq<EventRecord>, entry: EventRecord, request: nat)
    ensures Entries(log + [entry], request) ==
            Entries(log, request) + (if entry.kind != GenerateRequest && entry.request == request then 1 else 0)
    ensures Issues(log + [entry]) == Issues(log) + (if entry.kind == GenerateRequest then [entry] else [])
  {
    SumByAppend(IsOfRequest(request), log, entry);
    assert (log + [entry])[..|log|] == log;
  }

  /** The entry of an event that issues a request, which is new. */
  lemma IssueLogged(s: State, d: State, entry: EventRecord)
    requires LogAccounts(s) && d.log == s.log + [entry] && entry.kind == GenerateRequest
    requires var tracks, tracks' := s.shared.ledger.tracks, d.shared.ledger.tracks;
             && |tracks'| == |tracks| + 1 && tracks' == tracks + [tracks'[|tracks|]]
             && tracks'[|tracks|].phase == Looking && IssuedBy(tracks'[|tracks|], entry)
    ensures LogAccounts(d)
  {
    var tracks, tracks' := s.shared.ledger.tracks, d.shared.ledger.tracks;
    hide Entries, Issues;
    OneMoreEntry(s.log, entry, 0);
    forall i | 0 <= i < |tracks'| ensures EntriesAt(d, i) {
      OneMoreEntry(s.log, entry, i + 1);
      assert i < |tracks| ==> EntriesAt(s, i);
    }
    forall r: nat | r > |tracks'| ensures Entries(d.log, r) == 0 {
      OneMoreEntry(s.log, entry, r);
    }
  }

  /** The entry of an event that moves a request one step on. */
  lemma MoveLogged(s: State, d: State, entry: EventRecord)
    requires LogAccounts(s) && d.log == s.log + [entry] && entry.kind != GenerateRequest
    requires 0 < entry.request <= |s.shared.ledger.tracks|
    requires var tracks, tracks', i := s.shared.ledger.tracks, d.shared.ledger.tracks, entry.request - 1;
             && |tracks'| == |tracks| && tracks' == tracks[i := tracks'[i]]
             && EventsSoFar(tracks'[i]) == EventsSoFar(tracks[i]) + 1
             && tracks'[i].request.source == tracks[i].request.source
             && tracks'[i].request.issueTime == tracks[i].request.issueTime
    ensures LogAccounts(d)
  {
    var tracks, tracks' := s.shared.ledger.tracks, d.shared.ledger.tracks;
    hide Entries, Issues, EventsSoFar;
    OneMoreEntry(s.log, entry, 0);
    forall j | 0 <= j < |tracks'| ensures EntriesAt(d, j) {
      OneMoreEntry(s.log, entry, j + 1);
      assert EntriesAt(s, j);
    }
    forall r: nat | r > |tracks'| ensures Entries(d.log, r) == 0 {
      OneMoreEntry(s.log, entry, r);
    }
  }

  /** A request moves one step on, and stays the request that was issued. */
  ghost predicate StepsOne(tracks: seq<Track>, tracks': seq<Track>, i: nat) {
    && i < |tracks| == |tracks'| && tracks' == tracks[i := tracks'[i]]
    && EventsSoFar(tracks'[i]) == EventsSoFar(tracks[i]) + 1
    && tracks'[i].request.source == tracks[i].request.source
    && tracks'[i].request.issueTime == tracks[i].request.issueTime
  }

  lemma NodeStepsOne(cfg: Config, id: nat, n: NodeState, sh: Shared, e: Event)
    requires NodeHandle(cfg, id, n, sh, e).Ok? && e.kind != GenerateRequest
    requires Known(sh, e.request) && KindOf(TrackOf(sh, e.request).phase) == e.kind
    requires HitSoFar(TrackOf(sh, e.request)) && TrackOf(sh, e.request).phase !in {Queued, Finished}
    requires TrackOf(sh, e.request).phase == Looking ==> !TrackOf(sh, e.request).hit
    ensures StepsOne(sh.ledger.tracks, NodeHandle(cfg, id, n, sh, e).value.1.ledger.tracks, e.request - 1)
  {
    hide Lookup, Admit, Schedule, Stamp;
  }

  lemma MemoryStepsOne(cfg: Config, m: MemoryState, sh: Shared, e: Event)
    requires MemoryShape(cfg, m) && MemoryHandle(cfg, m, sh, e).Ok?
    requires Known(sh, e.request) && Staged(e.kind, TrackOf(sh, e.request))
    ensures StepsOne(sh.ledger.tracks, MemoryHandle(cfg, m, sh, e).value.1.ledger.tracks, e.request - 1)
  {
    hide Schedule, Stamp, ArrivalStats, RecordQueueWait, RecordMemoryWait, RecordService;
  }

  lemma NodeStage(cfg: Config, s: State, e: Event)
    requires Due(cfg, s, e) && e.target in s.nodes && e.kind != GenerateRequest
    ensures Known(s.shared, e.request) && KindOf(TrackOf(s.shared, e.request).phase) == e.kind
    ensures HitSoFar(TrackOf(s.shared, e.request))
    ensures TrackOf(s.shared, e.request).phase !in {Queued, Finished}
    ensures TrackOf(s.shared, e.request).phase == Looking ==> !TrackOf(s.shared, e.request).hit
  {
    PhaseAtNode(cfg, s, e);
    Addressed(cfg, s, e);
    RequestAtNode(cfg, s.memory, s.shared, s.nodes, e);
    assert Timed(cfg, s.shared.ledger.tracks[e.request - 1]);
  }

  lemma PickKeepsLog(s: State, e: Event)
    requires LogAccounts(s)
    ensures LogAccounts(Pick(s, e))
  {
    hide Entries, Issues;
    forall i | 0 <= i < |s.shared.ledger.tracks| ensures EntriesAt(Pick(s, e), i) {
      assert EntriesAt(s, i);
    }
  }

  lemma IssueHandled(cfg: Config, s: State, e: Event)
    requires Due(cfg, s, e) && LogAccounts(s) && e.kind == GenerateRequest
    requires Dispatch(cfg, Pick(s, e), e).Ok?
    ensures LogAccounts(Dispatch(cfg, Pick(s, e), e).value)
  {
    hide LogAccounts, NodeHandle, MemoryHandle;
    var i := IssuerOf(cfg, s, e);
    ShapeOf(cfg, s);
    PickKeepsLog(s, e);
    IssuesNext(cfg, Pick(s, e), e);
    IssuedHere(cfg, Pick(s, e), e);
    IssueLogged(Pick(s, e), Dispatch(cfg, Pick(s, e), e).value, EventRecord(e.time, e.kind, e.target, e.request));
  }

  lemma MoveHandled(cfg: Config, s: State, e: Event)
    requires Due(cfg, s, e) && LogAccounts(s) && e.kind != GenerateRequest
    requires Dispatch(cfg, Pick(s, e), e).Ok?
    ensures LogAccounts(Dispatch(cfg, Pick(s, e), e).value)
  {
    hide LogAccounts, NodeHandle, MemoryHandle, Core, EventsSoFar;
    ShapeOf(cfg, s);
    PickKeepsLog(s, e);
    if e.target in s.nodes {
      NodeStage(cfg, s, e);
      NodeStepsOne(cfg, e.target, s.nodes[e.target], Taken(s.shared, e), e);
    } else {
      MemoryStages(cfg, s, e);
      MemoryStepsOne(cfg, s.memory, Taken(s.shared, e), e);
    }
    MoveLogged(Pick(s, e), Dispatch(cfg, Pick(s, e), e).value, EventRecord(e.time, e.kind, e.target, e.request));
  }

  lemma HandledLogged(cfg: Config, s: State, e: Event)
    requires Due(cfg, s, e) && LogAccounts(s)
    ensures Dispatch(cfg, Pick(s, e), e).Ok? && LogAccounts(Dispatch(cfg, Pick(s, e), e).value)
  {
    hide LogAccounts, Dispatch, Core;
    DispatchKeeps(cfg, s, e);
    if e.kind == GenerateRequest {
      IssueHandled(cfg, s, e);
    } else {
      MoveHandled(cfg, s, e);
    }
  }

  lemma IssuedHere(cfg: Config, s: State, e: Event)
    requires MemoryShape(cfg, s.memory) && Dispatch(cfg, s, e).Ok? && e.kind == GenerateRequest && e.target in s.nodes
    requires NextSpec(s.nodes[e.target]).Some?
    ensures var tracks, tracks' := s.shared.ledger.tracks, Dispatch(cfg, s, e).value.shared.ledger.tracks;
            |tracks'| == |tracks| + 1 &&
            IssuedBy(tracks'[|tracks|], EventRecord(e.time, e.kind, e.target, e.request))
  {
    hide Schedule, Stamp, StartEpoch;
  }

  lemma ReleaseKeepsLog(cfg: Config, s: State)
    requires LogAccounts(s)
    ensures LogAccounts(Release(cfg, s))
  {
    hide Entries, Issues, Release;
    ReleaseFrame(cfg, s);
    forall i | 0 <= i < |s.shared.ledger.tracks| ensures EntriesAt(Release(cfg, s), i) {
      assert EntriesAt(s, i);
    }
  }

  lemma TurnLogged(cfg: Config, s: State)
    requires Inv(cfg, s) && LogAccounts(s)
    ensures LogAccounts(Turn(cfg, s))
  {
    if s.shared.queue.pending != {} {
      hide Dispatch, LogAccounts, Release;
      HandledLogged(cfg, s, Least(s.shared.queue));
      TurnIsRelease(cfg, s);
      ReleaseKeepsLog(cfg, Handled(cfg, s));
    }
  }

  lemma NothingLogged(cfg: Config)
    ensures LogAccounts(Initial(cfg))
  {
  }

  /**
   * At any time the log has as many entries for a request as it has come stages, and the entries that issued requests
   * are in the order of their numbers.
   */
  lemma {:induction false} RequestsLogged(cfg: Config, k: nat)
    requires ValidConfig(cfg)
    ensures LogAccounts(Run(cfg, k))
  {
    hide Turn, Inv, Core, Release, LogAccounts;
    if k == 0 {
      NothingLogged(cfg);
      ReleaseKeepsLog(cfg, Initial(cfg));
    } else {
      RequestsLogged(cfg, k - 1);
      RunKeeps(cfg, k - 1);
      TurnLogged(cfg, Run(cfg, k - 1));
    }
  }

  /** At the end a hit has caused its issue and three more events, a miss its issue and six more. */
  lemma EventsOfEachRequest(cfg: Config, i: nat)
    requires ValidConfig(cfg) && i < |Final(cfg).shared.ledger.tracks|
    ensures var s := Final(cfg);
            var t := s.shared.ledger.tracks[i];
            && |Issues(s.log)| == |s.shared.ledger.tracks| && IssuedBy(t, Issues(s.log)[i])
            && Entries(s.log, i + 1) == if t.hit then 3 else 6
  {
    hide Run;
    RequestsLogged(cfg, Turns(cfg));
    FinalIsFinished(cfg);
    assert EntriesAt(Final(cfg), i);
  }
}
