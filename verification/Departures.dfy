/** When requests are issued and epochs released: on completions, of the request before or of all earlier epochs. */
module Departures {
  import opened Model
  import opened Cache
  import opened Scheduling
  import opened Statistics
  import opened Protocol
  import opened Invariants
  import opened HandlerTokens
  import opened HandlerStreams
  import opened Releases
  import opened Steps
  import opened Runs
  import opened Barriers
  import opened OracleRuns
  import opened CacheRuns
  import opened Accounts

  /* ---- Completions ---- */

  /** When the response to a request has come. */
  function CompletedAt(t: Track): nat { t.request.issueTime + t.latency }

  /** An answered request has been answered by now; its last event comes with the answer. */
  predicate Ended(t: Track, now: nat) {
    Answered(t.phase) ==> CompletedAt(t) <= now && (t.phase == Finishing ==> t.event.time == CompletedAt(t))
  }

  /** The stage that the simulator keeps of a request, wherever the request is. */
  predicate InStage(t: Track) {
    match t.phase
    case Looking => t.request.stage == Generated
    case Hitting => t.request.stage == LocalLookup
    case Forwarding => t.request.stage == ForwardedToMemory
    case Queued => t.request.stage == ForwardedToMemory
    case Serving => t.request.stage == WaitingForResponse
    case Returning => t.request.stage == WaitingForResponse
    case _ => t.request.stage == Completed
  }

  predicate AllEnded(tracks: seq<Track>, now: nat) {
    && (forall i {:trigger Ended(tracks[i], now)} :: 0 <= i < |tracks| ==> Ended(tracks[i], now))
    && (forall i {:trigger InStage(tracks[i])} :: 0 <= i < |tracks| ==> InStage(tracks[i]))
  }

  /** Nothing has happened yet, or some request completed just now. */
  predicate JustNow(tracks: seq<Track>, now: nat) {
    (tracks == [] && now == 0) || exists i :: 0 <= i < |tracks| && CompletedAt(tracks[i]) == now
  }

  /* ---- Releases ---- */

  /** All requests of the epochs before `epoch` had completed by `time`, and the last of them just then. */
  predicate ReleasedWhen(tracks: seq<Track>, epoch: nat, time: nat) {
    && (forall i :: 0 <= i < |tracks| && tracks[i].request.epoch < epoch ==>
          tracks[i].phase == Finished && CompletedAt(tracks[i]) <= time)
    && (if exists i :: 0 <= i < |tracks| && tracks[i].request.epoch < epoch
        then exists i :: 0 <= i < |tracks| && tracks[i].request.epoch < epoch && CompletedAt(tracks[i]) == time
        else time == 0)
  }

  ghost predicate AllReleasedWhen(tracks: seq<Track>, releases: map<nat, nat>) {
    forall e {:trigger ReleasedWhen(tracks, e, releases[e])} :: e in releases ==> ReleasedWhen(tracks, e, releases[e])
  }

  /* ---- Requests that are driven by completions ---- */

  /**
   * Request number `x` of a stream is due at `time`: the first of an epoch at the release of the epoch plus its offset,
   * every other one when the one before it has completed.
   */
  predicate DueAt(n: NodeState, tracks: seq<Track>, releases: map<nat, nat>, x: nat, time: nat) {
    x < |n.requests| &&
    if x == 0 || n.requests[x - 1].epoch != n.requests[x].epoch
    then n.requests[x].epoch in releases && time == releases[n.requests[x].epoch] + n.requests[x].offset
    else x - 1 < |n.issued| && Numbered(tracks, n.issued[x - 1]) &&
         Answered(tracks[n.issued[x - 1] - 1].phase) && time == CompletedAt(tracks[n.issued[x - 1] - 1])
  }

  /** A request was issued when it was due. */
  predicate Departs(nodes: map<nat, NodeState>, tracks: seq<Track>, releases: map<nat, nat>, t: Track) {
    t.request.source in nodes && DueAt(nodes[t.request.source], tracks, releases, t.index, t.request.issueTime)
  }

  /** The event that will issue a node's next request comes when that request is due. */
  predicate Prepares(nodes: map<nat, NodeState>, tracks: seq<Track>, releases: map<nat, nat>, id: nat)
    requires id in nodes
  {
    nodes[id].generating.Some? ==>
      DueAt(nodes[id], tracks, releases, nodes[id].next, nodes[id].generating.value.time)
  }

  /** Only the request issued last can be on its way. */
  predicate OnlyLast(nodes: map<nat, NodeState>, t: Track) {
    t.phase != Finished ==>
      t.request.source in nodes &&
      var issued := nodes[t.request.source].issued;
      issued != [] && issued[|issued| - 1] == t.request.id
  }

  ghost predicate OnTime(tracks: seq<Track>, nodes: map<nat, NodeState>, releases: map<nat, nat>) {
    && (forall i {:trigger Departs(nodes, tracks, releases, tracks[i])} :: 0 <= i < |tracks| ==>
          Departs(nodes, tracks, releases, tracks[i]))
    && (forall id {:trigger Prepares(nodes, tracks, releases, id)} :: id in nodes ==>
          Prepares(nodes, tracks, releases, id))
    && (forall i {:trigger OnlyLast(nodes, tracks[i])} :: 0 <= i < |tracks| ==> OnlyLast(nodes, tracks[i]))
  }

  ghost predicate Punctual(cfg: Config, s: State) {
    && AllEnded(s.shared.ledger.tracks, s.shared.queue.now)
    && AllReleasedWhen(s.shared.ledger.tracks, s.releases)
    && (cfg.mode == CompletionDriven ==> OnTime(s.shared.ledger.tracks, s.nodes, s.releases))
  }

  /* ---- What was due then is so for ever ---- */

  /** Later tracks: what was answered is, at the same time. */
  predicate Settles(tracks: seq<Track>, tracks': seq<Track>) {
    |tracks| <= |tracks'| &&
    forall i {:trigger CompletedAt(tracks'[i])} :: 0 <= i < |tracks| && Answered(tracks[i].phase) ==>
      Answered(tracks'[i].phase) && CompletedAt(tracks'[i]) == CompletedAt(tracks[i])
  }

  /** A node further in the same stream. */
  predicate Onward(n: NodeState, n': NodeState) { n'.requests == n.requests && n.issued <= n'.issued }

  lemma DueStands(n: NodeState, n': NodeState, tracks: seq<Track>, tracks': seq<Track>, releases: map<nat, nat>,
                  releases': map<nat, nat>, x: nat, time: nat)
    requires DueAt(n, tracks, releases, x, time)
    requires Onward(n, n') && Settles(tracks, tracks') && Extends(releases, releases')
    ensures DueAt(n', tracks', releases', x, time)
  {
    if x > 0 && n.requests[x - 1].epoch == n.requests[x].epoch {
      assert CompletedAt(tracks'[n.issued[x - 1] - 1]) == CompletedAt(tracks[n.issued[x - 1] - 1]);
    }
  }

  lemma DepartsStands(nodes: map<nat, NodeState>, nodes': map<nat, NodeState>, tracks: seq<Track>, tracks': seq<Track>,
                      releases: map<nat, nat>, releases': map<nat, nat>, t: Track, u: Track)
    requires Departs(nodes, tracks, releases, t) && SameRequest(t, u)
    requires nodes'.Keys == nodes.Keys && Onward(nodes[t.request.source], nodes'[t.request.source])
    requires Settles(tracks, tracks') && Extends(releases, releases')
    ensures Departs(nodes', tracks', releases', u)
  {
    DueStands(nodes[t.request.source], nodes'[t.request.source], tracks, tracks', releases, releases', t.index,
              t.request.issueTime);
  }

  /* ---- A request moves ---- */

  /** The request goes on, and keeps its completion once it has one. */
  predicate Moved(t: Track, u: Track) {
    && SameRequest(t, u) && u.request.id == t.request.id && t.phase != Finished
    && (Answered(t.phase) ==> Answered(u.phase) && u.latency == t.latency)
  }

  predicate OneMoves(tracks: seq<Track>, tracks': seq<Track>, i: nat) {
    i < |tracks| == |tracks'| && tracks' == tracks[i := tracks'[i]] && Moved(tracks[i], tracks'[i])
  }

  /** Nodes stand where they stood in their streams. */
  predicate Standing(nodes: map<nat, NodeState>, nodes': map<nat, NodeState>) {
    nodes'.Keys == nodes.Keys &&
    forall id {:trigger nodes'[id]} :: id in nodes ==>
      nodes'[id].requests == nodes[id].requests && nodes'[id].next == nodes[id].next &&
      nodes'[id].issued == nodes[id].issued
  }

  /** What a node plans is as before, or due. */
  ghost predicate StillPlanned(nodes: map<nat, NodeState>, nodes': map<nat, NodeState>, tracks: seq<Track>,
                               releases: map<nat, nat>)
    requires nodes'.Keys == nodes.Keys
  {
    forall id {:trigger Prepares(nodes', tracks, releases, id)} :: id in nodes ==>
      nodes'[id].generating == nodes[id].generating || Prepares(nodes', tracks, releases, id)
  }

  lemma MoveOnTime(tracks: seq<Track>, tracks': seq<Track>, i: nat, nodes: map<nat, NodeState>,
                   nodes': map<nat, NodeState>, releases: map<nat, nat>)
    requires OnTime(tracks, nodes, releases) && OneMoves(tracks, tracks', i) && Standing(nodes, nodes')
    requires StillPlanned(nodes, nodes', tracks', releases)
    ensures OnTime(tracks', nodes', releases)
  {
    hide DueAt, SameRequest;
    MoveSettles(tracks, tracks', i);
    forall j | 0 <= j < |tracks'|
      ensures Departs(nodes', tracks', releases, tracks'[j]) && OnlyLast(nodes', tracks'[j])
    {
      assert Departs(nodes, tracks, releases, tracks[j]) && OnlyLast(nodes, tracks[j]);
      MoveSame(tracks, tracks', i, j);
      DepartsStands(nodes, nodes', tracks, tracks', releases, releases, tracks[j], tracks'[j]);
    }
    forall id | id in nodes' ensures Prepares(nodes', tracks', releases, id) {
      assert Prepares(nodes, tracks, releases, id);
      if nodes'[id].generating == nodes[id].generating && nodes[id].generating.Some? {
        DueStands(nodes[id], nodes'[id], tracks, tracks', releases, releases, nodes[id].next,
                  nodes[id].generating.value.time);
      }
    }
  }

  lemma MoveSettles(tracks: seq<Track>, tracks': seq<Track>, i: nat)
    requires OneMoves(tracks, tracks', i)
    ensures Settles(tracks, tracks')
  {
  }

  lemma MoveSame(tracks: seq<Track>, tracks': seq<Track>, i: nat, j: nat)
    requires OneMoves(tracks, tracks', i) && j < |tracks|
    ensures SameRequest(tracks[j], tracks'[j]) && tracks'[j].request.id == tracks[j].request.id
    ensures tracks'[j].request.source == tracks[j].request.source
    ensures tracks[j].phase == Finished ==> tracks'[j] == tracks[j]
  {
  }

  lemma MoveReleased(tracks: seq<Track>, tracks': seq<Track>, i: nat, releases: map<nat, nat>)
    requires AllReleasedWhen(tracks, releases) && OneMoves(tracks, tracks', i)
    ensures AllReleasedWhen(tracks', releases)
  {
    forall e | e in releases ensures ReleasedWhen(tracks', e, releases[e]) {
      assert ReleasedWhen(tracks, e, releases[e]);
      assert tracks[i].request.epoch >= e;
      if j :| 0 <= j < |tracks| && tracks[j].request.epoch < e && CompletedAt(tracks[j]) == releases[e] {
        assert tracks'[j] == tracks[j];
      }
    }
  }

  lemma MoveEnded(tracks: seq<Track>, tracks': seq<Track>, i: nat, now: nat)
    requires AllEnded(tracks, now) && i < |tracks| == |tracks'| && tracks' == tracks[i := tracks'[i]]
    requires Ended(tracks'[i], now) && InStage(tracks'[i])
    ensures AllEnded(tracks', now)
  {
    forall j | 0 <= j < |tracks'| ensures Ended(tracks'[j], now) && InStage(tracks'[j]) {
      assert Ended(tracks[j], now) && InStage(tracks[j]);
    }
  }

  /* ---- A request is issued ---- */

  /** A node issues its next request, which was due. */
  predicate OneIssued(tracks: seq<Track>, tracks': seq<Track>, nodes: map<nat, NodeState>, nodes': map<nat, NodeState>,
                      id: nat)
  {
    && |tracks'| == |tracks| + 1 && tracks' == tracks + [tracks'[|tracks|]] && tracks'[|tracks|].phase == Looking
    && id in nodes && id in nodes' && nodes' == nodes[id := nodes'[id]]
    && nodes'[id].requests == nodes[id].requests && nodes'[id].next == nodes[id].next + 1
    && var t := tracks'[|tracks|];
    && t.request.source == id && t.index == nodes[id].next && nodes'[id].issued == nodes[id].issued + [t.request.id]
  }

  lemma IssueOnTime(tracks: seq<Track>, tracks': seq<Track>, nodes: map<nat, NodeState>, nodes': map<nat, NodeState>,
                    id: nat, releases: map<nat, nat>)
    requires OnTime(tracks, nodes, releases) && OneIssued(tracks, tracks', nodes, nodes', id)
    requires nodes[id].generating.Some? && nodes'[id].generating.None?
    requires tracks'[|tracks|].request.issueTime == nodes[id].generating.value.time
    requires forall j :: 0 <= j < |tracks| && tracks[j].request.source == id ==> tracks[j].phase == Finished
    ensures OnTime(tracks', nodes', releases)
  {
    hide DueAt;
    assert Settles(tracks, tracks');
    assert Prepares(nodes, tracks, releases, id);
    DueStands(nodes[id], nodes'[id], tracks, tracks', releases, releases, nodes[id].next,
              nodes[id].generating.value.time);
    forall j | 0 <= j < |tracks'|
      ensures Departs(nodes', tracks', releases, tracks'[j]) && OnlyLast(nodes', tracks'[j])
    {
      if j < |tracks| {
        assert Departs(nodes, tracks, releases, tracks[j]) && OnlyLast(nodes, tracks[j]);
        DepartsStands(nodes, nodes', tracks, tracks', releases, releases, tracks[j], tracks'[j]);
      }
    }
    forall d | d in nodes' ensures Prepares(nodes', tracks', releases, d) {
      assert Prepares(nodes, tracks, releases, d);
      if d != id && nodes[d].generating.Some? {
        DueStands(nodes[d], nodes'[d], tracks, tracks', releases, releases, nodes[d].next,
                  nodes[d].generating.value.time);
      }
    }
  }

  lemma IssueReleased(tracks: seq<Track>, t: Track, releases: map<nat, nat>)
    requires AllReleasedWhen(tracks, releases) && forall e :: e in releases ==> t.request.epoch >= e
    ensures AllReleasedWhen(tracks + [t], releases)
  {
    forall e | e in releases ensures ReleasedWhen(tracks + [t], e, releases[e]) {
      assert ReleasedWhen(tracks, e, releases[e]);
      if j :| 0 <= j < |tracks| && tracks[j].request.epoch < e && CompletedAt(tracks[j]) == releases[e] {
        assert (tracks + [t])[j] == tracks[j];
      }
    }
  }

  lemma IssueEnded(tracks: seq<Track>, t: Track, now: nat)
    requires AllEnded(tracks, now) && t.phase == Looking && t.request.stage == Generated
    ensures AllEnded(tracks + [t], now)
  {
    forall j | 0 <= j < |tracks| + 1 ensures Ended((tracks + [t])[j], now) && InStage((tracks + [t])[j]) {
      assert j < |tracks| ==> Ended(tracks[j], now) && InStage(tracks[j]);
    }
  }

  /* ---- Handlers ---- */

  /** What is known of a request that a handler moves. */
  predicate OnItsWay(t: Track, e: Event) {
    && t.phase != Finished && InStage(t) && t.request.issueTime <= e.time
    && (t.phase == Finishing ==> t.event == e && e.time == CompletedAt(t))
  }

  lemma NodeMovesOne(cfg: Config, id: nat, n: NodeState, sh: Shared, e: Event)
    requires NodeHandle(cfg, id, n, sh, e).Ok? && e.kind != GenerateRequest && Known(sh, e.request)
    requires var t := TrackOf(sh, e.request); OnItsWay(t, e) && KindOf(t.phase) == e.kind && t.phase != Queued
    requires sh.queue.now == e.time
    ensures var (n', sh') := NodeHandle(cfg, id, n, sh, e).value;
            var tracks, tracks', i := sh.ledger.tracks, sh'.ledger.tracks, e.request - 1;
            && OneMoves(tracks, tracks', i) && Ended(tracks'[i], e.time) && InStage(tracks'[i])
            && (tracks'[i].phase == Finished ==> e.kind == RequestComplete && CompletedAt(tracks'[i]) == e.time)
            && n'.requests == n.requests && n'.next == n.next && n'.issued == n.issued
            && (e.kind != RequestComplete ==> n'.generating == n.generating)
  {
    hide Schedule, Lookup, Admit;
  }

  lemma MemoryMovesOn(cfg: Config, m: MemoryState, sh: Shared, e: Event)
    requires MemoryShape(cfg, m) && MemoryHandle(cfg, m, sh, e).Ok? && Known(sh, e.request)
    requires var t := TrackOf(sh, e.request);
             InStage(t) && t.phase in {Forwarding, Queued, Serving} &&
             (e.kind == ForwardToMemory <==> t.phase == Forwarding) &&
             (e.kind == MemoryServiceStart <==> t.phase == Queued)
    ensures var sh' := MemoryHandle(cfg, m, sh, e).value.1;
            var tracks, tracks', i := sh.ledger.tracks, sh'.ledger.tracks, e.request - 1;
            && OneMoves(tracks, tracks', i) && Ended(tracks'[i], e.time) && InStage(tracks'[i])
            && tracks'[i].phase != Finished
  {
    hide Schedule, Stamp, ArrivalStats, RecordQueueWait, RecordMemoryWait, RecordService;
  }

  /** The event that a driven node schedules on a completion: its next request is due now. */
  lemma CompletionPlans(cfg: Config, id: nat, n: NodeState, sh: Shared, e: Event, releases: map<nat, nat>)
    requires e.kind == RequestComplete && Known(sh, e.request) && sh.queue.now == e.time
    requires cfg.mode == CompletionDriven && n.generating.None?
    requires OnItsWay(TrackOf(sh, e.request), e) && TrackOf(sh, e.request).phase == Finishing
    requires n.next <= |n.requests| && |n.issued| == n.next
    requires n.epoch == if n.next == 0 then None else Some(n.requests[n.next - 1].epoch)
    requires n.issued != [] && n.issued[|n.issued| - 1] == e.request
    ensures var (n', sh') := NodeComplete(cfg, id, n, sh, e).value;
            n'.generating.Some? ==>
              DueAt(n', sh'.ledger.tracks, releases, n'.next, n'.generating.value.time)
  {
    hide Schedule;
  }

  lemma IssueShape(cfg: Config, s: State, e: Event)
    requires MemoryShape(cfg, s.memory) && Dispatch(cfg, s, e).Ok? && e.kind == GenerateRequest && e.target in s.nodes
    requires NextSpec(s.nodes[e.target]).Some?
    ensures var d := Dispatch(cfg, s, e).value;
            var tracks, tracks' := s.shared.ledger.tracks, d.shared.ledger.tracks;
            && OneIssued(tracks, tracks', s.nodes, d.nodes, e.target)
            && tracks'[|tracks|].request.issueTime == e.time && tracks'[|tracks|].request.stage == Generated
            && tracks'[|tracks|].request.epoch == NextSpec(s.nodes[e.target]).value.epoch
            && (cfg.mode == CompletionDriven ==> d.nodes[e.target].generating.None?)
  {
    hide Schedule, Stamp, StartEpoch;
    StartsSame(cfg, e.target, s.nodes[e.target], e.time, s.shared.stats.objects);
  }

  lemma StartsSame(cfg: Config, id: nat, n: NodeState, time: nat, seen: Telemetry)
    requires NextSpec(n).Some?
    ensures forall base: nat ::
              var m := StartEpoch(cfg, id, n.(epochStart := base), NextSpec(n).value.epoch, time, seen);
              m.requests == n.requests && m.next == n.next && m.issued == n.issued
  {
    hide Install, EpochStart;
  }

  /* ---- Turns ---- */

  lemma PickPunctual(cfg: Config, s: State, e: Event)
    requires Due(cfg, s, e) && Punctual(cfg, s)
    ensures Punctual(cfg, Pick(s, e))
  {
    hide OnTime, AllReleasedWhen;
    var tracks := s.shared.ledger.tracks;
    forall i | 0 <= i < |tracks| ensures Ended(tracks[i], e.time) && InStage(tracks[i]) {
      assert Ended(tracks[i], s.shared.queue.now) && InStage(tracks[i]);
    }
  }

  lemma AtItsNode(cfg: Config, s: State, e: Event)
    requires Due(cfg, s, e) && e.target in s.nodes && e.kind != GenerateRequest
    requires AllEnded(s.shared.ledger.tracks, s.shared.queue.now)
    ensures Known(s.shared, e.request)
    ensures var t := TrackOf(s.shared, e.request);
            && OnItsWay(t, e) && KindOf(t.phase) == e.kind && t.phase != Queued
            && t.request.source == e.target && t.request.id == e.request
  {
    Addressed(cfg, s, e);
    RequestAtNode(cfg, s.memory, s.shared, s.nodes, e);
    var t := s.shared.ledger.tracks[e.request - 1];
    assert Timed(cfg, t) && Ended(t, s.shared.queue.now) && InStage(t);
  }

  lemma AtMemoryStage(cfg: Config, s: State, e: Event)
    requires Due(cfg, s, e) && e.target !in s.nodes && AllEnded(s.shared.ledger.tracks, s.shared.queue.now)
    ensures Known(s.shared, e.request)
    ensures var t := TrackOf(s.shared, e.request);
            InStage(t) && t.phase in {Forwarding, Queued, Serving} &&
            (e.kind == ForwardToMemory <==> t.phase == Forwarding) &&
            (e.kind == MemoryServiceStart <==> t.phase == Queued)
  {
    MemoryStages(cfg, s, e);
    assert InStage(s.shared.ledger.tracks[e.request - 1]);
  }

  /** The node that a completion is for: nothing is planned there, and the request is the last one issued. */
  lemma AtCompletion(cfg: Config, s: State, e: Event)
    requires Due(cfg, s, e) && e.target in s.nodes && e.kind == RequestComplete && cfg.mode == CompletionDriven
    requires Punctual(cfg, s)
    ensures Known(s.shared, e.request) && TrackOf(s.shared, e.request).phase == Finishing
    ensures var n := s.nodes[e.target];
            && n.generating.None? && n.next <= |n.requests| && |n.issued| == n.next
            && n.epoch == (if n.next == 0 then None else Some(n.requests[n.next - 1].epoch))
            && n.issued != [] && n.issued[|n.issued| - 1] == e.request
  {
    hide AllReleasedWhen, AllEnded;
    RequestAtNode(cfg, s.memory, s.shared, s.nodes, e);
    var n, t := s.nodes[e.target], s.shared.ledger.tracks[e.request - 1];
    assert NodeOk(cfg, n, s.released, s.releases) && Listed(s.shared.ledger.tracks, e.target, n);
    assert IdleToGenerate(s.nodes, t) && OnlyLast(s.nodes, t);
  }

  lemma NodePunctual(cfg: Config, s: State, e: Event)
    requires Due(cfg, s, e) && e.target in s.nodes && e.kind != GenerateRequest && Dispatch(cfg, Pick(s, e), e).Ok?
    requires Punctual(cfg, s) && Punctual(cfg, Pick(s, e))
    ensures var d := Dispatch(cfg, Pick(s, e), e).value;
            Punctual(cfg, d) && (AllFinished(d.shared.ledger.tracks) ==> JustNow(d.shared.ledger.tracks, e.time))
  {
    hide Core, OnTime, AllEnded, AllReleasedWhen, NodeHandle, OneMoves, KindOf, OnItsWay;
    ShapeOf(cfg, s);
    AtItsNode(cfg, s, e);
    DispatchKeepsTime(cfg, Pick(s, e), e);
    DispatchKeepsReleases(cfg, Pick(s, e), e);
    var p, d, i, id := Pick(s, e), Dispatch(cfg, Pick(s, e), e).value, e.request - 1, e.target;
    NodeMovesOne(cfg, id, s.nodes[id], p.shared, e);
    MoveInRange(p.shared.ledger.tracks, d.shared.ledger.tracks, i);
    MoveEnded(p.shared.ledger.tracks, d.shared.ledger.tracks, i, e.time);
    MoveReleased(p.shared.ledger.tracks, d.shared.ledger.tracks, i, s.releases);
    if cfg.mode == CompletionDriven {
      if e.kind == RequestComplete {
        AtCompletion(cfg, s, e);
        CompletionIs(cfg, id, s.nodes[id], p.shared, e);
        CompletionPlans(cfg, id, s.nodes[id], p.shared, e, s.releases);
      }
      MoveOnTime(p.shared.ledger.tracks, d.shared.ledger.tracks, i, s.nodes, d.nodes, s.releases);
    }
  }

  lemma CompletionIs(cfg: Config, id: nat, n: NodeState, sh: Shared, e: Event)
    requires e.kind == RequestComplete
    ensures NodeHandle(cfg, id, n, sh, e) == NodeComplete(cfg, id, n, sh, e)
  {
  }

  lemma MoveInRange(tracks: seq<Track>, tracks': seq<Track>, i: nat)
    requires OneMoves(tracks, tracks', i)
    ensures i < |tracks| == |tracks'| && tracks' == tracks[i := tracks'[i]]
  {
  }

  lemma MemoryPunctual(cfg: Config, s: State, e: Event)
    requires Due(cfg, s, e) && e.target !in s.nodes && Dispatch(cfg, Pick(s, e), e).Ok?
    requires Punctual(cfg, s) && Punctual(cfg, Pick(s, e))
    ensures var d := Dispatch(cfg, Pick(s, e), e).value;
            Punctual(cfg, d) && !AllFinished(d.shared.ledger.tracks)
  {
    hide Core, OnTime, AllEnded, AllReleasedWhen, MemoryHandle, OneMoves, InStage;
    ShapeOf(cfg, s);
    AtMemoryStage(cfg, s, e);
    DispatchKeepsTime(cfg, Pick(s, e), e);
    DispatchKeepsReleases(cfg, Pick(s, e), e);
    var p, d, i := Pick(s, e), Dispatch(cfg, Pick(s, e), e).value, e.request - 1;
    MemoryMovesOn(cfg, s.memory, p.shared, e);
    MoveInRange(p.shared.ledger.tracks, d.shared.ledger.tracks, i);
    MoveEnded(p.shared.ledger.tracks, d.shared.ledger.tracks, i, e.time);
    MoveReleased(p.shared.ledger.tracks, d.shared.ledger.tracks, i, s.releases);
    if cfg.mode == CompletionDriven {
      MoveOnTime(p.shared.ledger.tracks, d.shared.ledger.tracks, i, s.nodes, d.nodes, s.releases);
    }
  }

  /** The event of a node that is about to issue is the one it has planned; its requests so far are finished. */
  lemma AtIssue(cfg: Config, s: State, e: Event)
    requires Due(cfg, s, e) && e.kind == GenerateRequest && ReleasesBounded(s)
    ensures e.target in s.nodes && NextSpec(s.nodes[e.target]).Some? && s.nodes[e.target].generating == Some(e)
    ensures forall r :: r in s.releases ==> NextSpec(s.nodes[e.target]).value.epoch >= r
    ensures var tracks := s.shared.ledger.tracks;
            cfg.mode == CompletionDriven ==>
              forall j :: 0 <= j < |tracks| && tracks[j].request.source == e.target ==> tracks[j].phase == Finished
  {
    var i := IssuerOf(cfg, s, e);
    var tracks := s.shared.ledger.tracks;
    assert Owned(cfg, tracks, s.memory, s.nodes, e);
    assert NodeOk(cfg, s.nodes[e.target], s.released, s.releases);
    if cfg.mode == CompletionDriven {
      forall j | 0 <= j < |tracks| && tracks[j].request.source == e.target ensures tracks[j].phase == Finished {
        assert IdleToGenerate(s.nodes, tracks[j]);
      }
    }
  }

  lemma IssuePunctual(cfg: Config, s: State, e: Event)
    requires Due(cfg, s, e) && e.kind == GenerateRequest && Dispatch(cfg, Pick(s, e), e).Ok? && ReleasesBounded(s)
    requires Punctual(cfg, Pick(s, e))
    ensures var d := Dispatch(cfg, Pick(s, e), e).value;
            Punctual(cfg, d) && !AllFinished(d.shared.ledger.tracks)
  {
    hide Core, OnTime, AllEnded, AllReleasedWhen, NodeHandle;
    ShapeOf(cfg, s);
    AtIssue(cfg, s, e);
    DispatchKeepsTime(cfg, Pick(s, e), e);
    DispatchKeepsReleases(cfg, Pick(s, e), e);
    var p, d, tracks := Pick(s, e), Dispatch(cfg, Pick(s, e), e).value, s.shared.ledger.tracks;
    IssueShape(cfg, p, e);
    var t := d.shared.ledger.tracks[|tracks|];
    IssueEnded(tracks, t, e.time);
    IssueReleased(tracks, t, s.releases);
    if cfg.mode == CompletionDriven {
      IssueOnTime(tracks, d.shared.ledger.tracks, s.nodes, d.nodes, e.target, s.releases);
    }
  }

  /** After an event, everything is on time; if nothing is left to be done, some request completed with that event. */
  lemma HandledPunctual(cfg: Config, s: State, e: Event)
    requires Due(cfg, s, e) && Punctual(cfg, s) && ReleasesBounded(s)
    ensures Dispatch(cfg, Pick(s, e), e).Ok?
    ensures var d := Dispatch(cfg, Pick(s, e), e).value;
            && Punctual(cfg, d) && d.shared.queue.now == e.time
            && (AllFinished(d.shared.ledger.tracks) ==> JustNow(d.shared.ledger.tracks, d.shared.queue.now))
  {
    hide Dispatch, Core, Punctual, JustNow, AllFinished;
    DispatchKeeps(cfg, s, e);
    ShapeOf(cfg, s);
    DispatchKeepsTime(cfg, Pick(s, e), e);
    PickPunctual(cfg, s, e);
    if e.kind == GenerateRequest {
      IssuePunctual(cfg, s, e);
    } else if e.target in s.nodes {
      NodePunctual(cfg, s, e);
    } else {
      MemoryPunctual(cfg, s, e);
    }
  }

  /* ---- Releases ---- */

  lemma AnnounceReleased(tracks: seq<Track>, releases: map<nat, nat>, epoch: nat, now: nat)
    requires AllReleasedWhen(tracks, releases) && AllEnded(tracks, now) && AllFinished(tracks) && JustNow(tracks, now)
    requires forall i :: 0 <= i < |tracks| ==> tracks[i].request.epoch < epoch
    ensures AllReleasedWhen(tracks, releases[epoch := now])
  {
    forall i | 0 <= i < |tracks| ensures CompletedAt(tracks[i]) <= now {
      assert Ended(tracks[i], now);
    }
    assert ReleasedWhen(tracks, epoch, now) by {
      if tracks != [] {
        assert tracks[0].request.epoch < epoch;
      }
    }
    var releases' := releases[epoch := now];
    forall e | e in releases' ensures ReleasedWhen(tracks, e, releases'[e]) {
      assert e != epoch ==> ReleasedWhen(tracks, e, releases[e]);
    }
  }

  /** A node that the release starts is to issue the first request of the epoch, at its offset. */
  lemma StartsDue(n: NodeState, m: NodeState, tracks: seq<Track>, releases: map<nat, nat>, epoch: nat, now: nat)
    requires SameButGenerating(m, n) && Starts(m, epoch, now) && n.next <= |n.requests|
    requires epoch in releases && releases[epoch] == now
    requires n.next > 0 ==> n.requests[n.next - 1].epoch < epoch
    ensures m.generating.Some? ==> DueAt(m, tracks, releases, m.next, m.generating.value.time)
  {
  }

  lemma ReleaseOnTime(cfg: Config, s: State, r: State, epoch: nat)
    requires Ready(cfg, s, epoch) && ReleasesBounded(s) && MemoryShape(cfg, r.memory)
    requires Released(cfg, Announce(s, epoch), r, epoch, |cfg.nodes|)
    requires OnTime(s.shared.ledger.tracks, s.nodes, s.releases)
    ensures OnTime(s.shared.ledger.tracks, r.nodes, s.releases[epoch := s.shared.queue.now])
  {
    hide OnTime, Released, Core;
    KeptByRelease(cfg, s, r, epoch);
    PreparedByRelease(cfg, s, r, epoch);
    OnTimeInParts(s.shared.ledger.tracks, r.nodes, s.releases[epoch := s.shared.queue.now]);
  }

  ghost predicate AllDeparted(tracks: seq<Track>, nodes: map<nat, NodeState>, releases: map<nat, nat>) {
    && (forall i {:trigger Departs(nodes, tracks, releases, tracks[i])} :: 0 <= i < |tracks| ==>
          Departs(nodes, tracks, releases, tracks[i]))
    && (forall i {:trigger OnlyLast(nodes, tracks[i])} :: 0 <= i < |tracks| ==> OnlyLast(nodes, tracks[i]))
  }

  ghost predicate AllPrepared(tracks: seq<Track>, nodes: map<nat, NodeState>, releases: map<nat, nat>) {
    forall id {:trigger Prepares(nodes, tracks, releases, id)} :: id in nodes ==> Prepares(nodes, tracks, releases, id)
  }

  lemma OnTimeInParts(tracks: seq<Track>, nodes: map<nat, NodeState>, releases: map<nat, nat>)
    requires AllDeparted(tracks, nodes, releases) && AllPrepared(tracks, nodes, releases)
    ensures OnTime(tracks, nodes, releases)
  {
    hide Departs, OnlyLast, Prepares;
  }

  lemma ReleaseIsNew(cfg: Config, s: State, epoch: nat)
    requires Ready(cfg, s, epoch) && ReleasesBounded(s)
    ensures Extends(s.releases, s.releases[epoch := s.shared.queue.now])
  {
    NextIsAhead(cfg, s, epoch);
  }

  lemma ConfiguredHere(cfg: Config, s: State)
    requires Core(cfg, s)
    ensures Configured(cfg, s.nodes)
  {
  }

  lemma KeptByRelease(cfg: Config, s: State, r: State, epoch: nat)
    requires Ready(cfg, s, epoch) && ReleasesBounded(s) && MemoryShape(cfg, r.memory)
    requires Released(cfg, Announce(s, epoch), r, epoch, |cfg.nodes|)
    requires OnTime(s.shared.ledger.tracks, s.nodes, s.releases)
    ensures AllDeparted(s.shared.ledger.tracks, r.nodes, s.releases[epoch := s.shared.queue.now])
  {
    hide DueAt, Released, Core;
    ReleaseIsNew(cfg, s, epoch);
    ConfiguredHere(cfg, s);
    ReleasedFacts(cfg, s, r, epoch);
    var tracks, releases' := s.shared.ledger.tracks, s.releases[epoch := s.shared.queue.now];
    assert Settles(tracks, tracks);
    forall j | 0 <= j < |tracks|
      ensures Departs(r.nodes, tracks, releases', tracks[j]) && OnlyLast(r.nodes, tracks[j])
    {
      assert Departs(s.nodes, tracks, s.releases, tracks[j]) && OnlyLast(s.nodes, tracks[j]);
      assert SameButGenerating(r.nodes[tracks[j].request.source], s.nodes[tracks[j].request.source]);
      DepartsStands(s.nodes, r.nodes, tracks, tracks, s.releases, releases', tracks[j], tracks[j]);
    }
  }

  /** The requests that a node has issued are of epochs before the one to be released. */
  lemma BeforeRelease(cfg: Config, s: State, epoch: nat, id: nat)
    requires Ready(cfg, s, epoch) && id in s.nodes
    ensures var n := s.nodes[id];
            n.next <= |n.requests| && (n.next > 0 ==> n.requests[n.next - 1].epoch < epoch)
  {
    NextIsAhead(cfg, s, epoch);
    assert NodeOk(cfg, s.nodes[id], s.released, s.releases);
  }

  lemma PreparedByRelease(cfg: Config, s: State, r: State, epoch: nat)
    requires Ready(cfg, s, epoch) && MemoryShape(cfg, r.memory)
    requires Released(cfg, Announce(s, epoch), r, epoch, |cfg.nodes|)
    ensures AllPrepared(s.shared.ledger.tracks, r.nodes, s.releases[epoch := s.shared.queue.now])
  {
    hide DueAt, Released, Core;
    ConfiguredHere(cfg, s);
    ReleasedFacts(cfg, s, r, epoch);
    var tracks, releases' := s.shared.ledger.tracks, s.releases[epoch := s.shared.queue.now];
    forall id | id in r.nodes ensures Prepares(r.nodes, tracks, releases', id) {
      assert SameButGenerating(r.nodes[id], s.nodes[id]);
      BeforeRelease(cfg, s, epoch, id);
      StartsDue(s.nodes[id], r.nodes[id], tracks, releases', epoch, s.shared.queue.now);
    }
  }

  lemma EarlierEpochs(cfg: Config, s: State, epoch: nat)
    requires Ready(cfg, s, epoch)
    ensures AllFinished(s.shared.ledger.tracks)
    ensures forall i :: 0 <= i < |s.shared.ledger.tracks| ==> s.shared.ledger.tracks[i].request.epoch < epoch
  {
    Silence(cfg, s);
    NextIsAhead(cfg, s, epoch);
    var tracks := s.shared.ledger.tracks;
    forall i | 0 <= i < |tracks| ensures tracks[i].request.epoch < epoch {
      assert Issued(cfg, tracks[i], s.nodes, s.released, s.releases);
    }
  }

  lemma ReleasePunctual(cfg: Config, s: State)
    requires Core(cfg, s) && ReleasesBounded(s) && Punctual(cfg, s)
    requires AllFinished(s.shared.ledger.tracks) ==> JustNow(s.shared.ledger.tracks, s.shared.queue.now)
    ensures Punctual(cfg, Release(cfg, s))
  {
    hide OnTime, AllEnded, AllReleasedWhen, Tokens, Times, Responses, Channels, OneAtATime, EventsCounted, StatsCounted,
         CachesSound, CachesExact, JustNow, Streams;
    var next := NextEpoch(cfg, s, |cfg.nodes|);
    if s.shared.queue.pending == {} && AllIdle(s) && next.Some? {
      var a, epoch := Announce(s, next.value), next.value;
      QuietNodes(cfg, s);
      EarlierEpochs(cfg, s, epoch);
      ReleaseSome(cfg, a, epoch, |cfg.nodes|);
      var r := ReleaseNodes(cfg, a, epoch, |cfg.nodes|);
      ReleaseNodesFrame(cfg, a, epoch, |cfg.nodes|);
      AnnounceReleased(s.shared.ledger.tracks, s.releases, epoch, s.shared.queue.now);
      if cfg.mode == CompletionDriven {
        ReleaseOnTime(cfg, s, r, epoch);
      }
    }
  }

  lemma QuietNodes(cfg: Config, s: State)
    requires Core(cfg, s) && s.shared.queue.pending == {}
    ensures forall id :: id in s.nodes ==> s.nodes[id].generating.None?
  {
    Silence(cfg, s);
  }

  lemma TurnPunctual(cfg: Config, s: State)
    requires Inv(cfg, s) && Punctual(cfg, s) && ReleasesBounded(s)
    ensures Punctual(cfg, Turn(cfg, s))
  {
    hide Dispatch, Punctual, Release, JustNow, AllFinished, Core;
    ShapeOf(cfg, s);
    if s.shared.queue.pending != {} {
      HandledPunctual(cfg, s, Least(s.shared.queue));
      TurnIsRelease(cfg, s);
      ReleasePunctual(cfg, Handled(cfg, s));
    }
  }

  lemma InitialPunctual(cfg: Config)
    requires ValidConfig(cfg)
    ensures Punctual(cfg, Initial(cfg)) && ReleasesBounded(Initial(cfg)) && JustNow([], 0)
  {
    InitialNodesAre(cfg, |cfg.nodes|);
    var s := Initial(cfg);
    forall id | id in s.nodes ensures Prepares(s.nodes, s.shared.ledger.tracks, s.releases, id) {
      var i :| 0 <= i < |cfg.nodes| && cfg.nodes[i].id == id;
    }
  }

  lemma {:induction false} RunPunctual(cfg: Config, k: nat)
    requires ValidConfig(cfg)
    ensures Punctual(cfg, Run(cfg, k))
  {
    hide Turn, Inv, Core, Release, Punctual;
    if k == 0 {
      InitialPunctual(cfg);
      InitialCore(cfg);
      ReleasePunctual(cfg, Initial(cfg));
    } else {
      RunPunctual(cfg, k - 1);
      RunKeeps(cfg, k - 1);
      ReleasesStand(cfg, k - 1, k - 1);
      TurnPunctual(cfg, Run(cfg, k - 1));
    }
  }

  /* ---- What every run keeps to ---- */

  /**
   * In every reachable state, each epoch that has been released was released at the very moment at which the last
   * request of the earlier epochs completed, or at time zero if there was none.
   */
  lemma ReleasedOnCompletion(cfg: Config, k: nat, epoch: nat)
    requires ValidConfig(cfg) && epoch in Run(cfg, k).releases
    ensures ReleasedWhen(Run(cfg, k).shared.ledger.tracks, epoch, Run(cfg, k).releases[epoch])
  {
    hide Run, ReleasedWhen;
    RunPunctual(cfg, k);
    var s := Run(cfg, k);
    assert ReleasedWhen(s.shared.ledger.tracks, epoch, s.releases[epoch]);
  }

  /**
   * In a completion-driven run every request was issued when it was due: the first of an epoch at the release plus its
   * offset, every other one at the moment at which the request before it completed.
   */
  lemma IssuedWhenDue(cfg: Config, k: nat, i: nat)
    requires ValidConfig(cfg) && cfg.mode == CompletionDriven && i < |Run(cfg, k).shared.ledger.tracks|
    ensures var s := Run(cfg, k);
            Departs(s.nodes, s.shared.ledger.tracks, s.releases, s.shared.ledger.tracks[i])
  {
    hide Run, Departs;
    RunPunctual(cfg, k);
    var s := Run(cfg, k);
    assert Departs(s.nodes, s.shared.ledger.tracks, s.releases, s.shared.ledger.tracks[i]);
  }

  /** In every reachable state a request is in the stage that its progress calls for, and done by now if it is done. */
  lemma StagesAreKept(cfg: Config, k: nat, i: nat)
    requires ValidConfig(cfg) && i < |Run(cfg, k).shared.ledger.tracks|
    ensures var s := Run(cfg, k);
            InStage(s.shared.ledger.tracks[i]) && Ended(s.shared.ledger.tracks[i], s.shared.queue.now)
  {
    hide Run, InStage, Ended;
    RunPunctual(cfg, k);
    var s := Run(cfg, k);
    assert InStage(s.shared.ledger.tracks[i]) && Ended(s.shared.ledger.tracks[i], s.shared.queue.now);
  }
}
