/** Epochs do not overlap, and what a contention policy reads of earlier epochs is final. */
module Barriers {
  import opened Model
  import opened Cache
  import opened Scheduling
  import opened Statistics
  import opened Protocol
  import opened Invariants
  import opened Releases
  import opened Steps
  import opened Runs

  /* ---- The barrier ---- */

  /** Request number `y` of a node has been issued, and its response has come. */
  ghost predicate Complete(s: State, id: nat, y: nat) {
    id in s.nodes && y < |s.nodes[id].issued| && Numbered(s.shared.ledger.tracks, s.nodes[id].issued[y]) &&
    var t := s.shared.ledger.tracks[s.nodes[id].issued[y] - 1];
    t.phase == Finished && t.request.source == id && t.index == y && t.response < |s.shared.ledger.responses| &&
    s.shared.ledger.responses[t.response].request == s.nodes[id].issued[y]
  }

  ghost predicate HasIssued(s: State, id: nat, x: nat) {
    id in s.nodes && x < s.nodes[id].next
  }

  /** A request of an epoch before the released one is complete. */
  lemma EarlierIsComplete(cfg: Config, s: State, id: nat, y: nat)
    requires Core(cfg, s) && id in s.nodes && s.released.Some? && y < |s.nodes[id].requests|
    requires s.nodes[id].requests[y].epoch < s.released.value
    ensures Complete(s, id, y)
  {
    var tracks, n := s.shared.ledger.tracks, s.nodes[id];
    NodeStreamValid(cfg, s.nodes, id);
    assert NodeOk(cfg, n, s.released, s.releases) && Listed(tracks, id, n);
    var i := n.issued[y] - 1;
    assert Issued(cfg, tracks[i], s.nodes, s.released, s.releases);
    assert HasResponse(tracks[i], s.shared.ledger.responses) && TrackToken(cfg, s.shared.queue, i, tracks[i]);
  }

  lemma IssuedIsReleased(cfg: Config, s: State, id: nat, x: nat)
    requires Core(cfg, s) && HasIssued(s, id, x)
    ensures x < |s.nodes[id].requests| && s.released.Some? && s.nodes[id].requests[x].epoch <= s.released.value
  {
    hide Tokens, Times, Responses, Channels, OneAtATime, EventsCounted, StatsCounted, CachesSound, CachesExact;
    NodeStreamValid(cfg, s.nodes, id);
    var n := s.nodes[id];
    assert NodeOk(cfg, n, s.released, s.releases);
    assert n.requests[x].epoch <= n.requests[n.next - 1].epoch;
  }

  /** Once a request of an epoch has been issued, every request of an earlier epoch, on any node, is complete. */
  lemma EpochBarrier(cfg: Config, k: nat, i: nat, x: nat, j: nat, y: nat)
    requires ValidConfig(cfg) && i < |cfg.nodes| && j < |cfg.nodes|
    requires HasIssued(Run(cfg, k), cfg.nodes[i].id, x)
    requires x < |cfg.nodes[i].requests| && y < |cfg.nodes[j].requests|
    requires cfg.nodes[j].requests[y].epoch < cfg.nodes[i].requests[x].epoch
    ensures Complete(Run(cfg, k), cfg.nodes[j].id, y)
  {
    RunKeeps(cfg, k);
    BarrierAt(cfg, Run(cfg, k), i, x, j, y);
  }

  lemma BarrierAt(cfg: Config, s: State, i: nat, x: nat, j: nat, y: nat)
    requires Core(cfg, s) && i < |cfg.nodes| && j < |cfg.nodes|
    requires HasIssued(s, cfg.nodes[i].id, x) && x < |cfg.nodes[i].requests| && y < |cfg.nodes[j].requests|
    requires cfg.nodes[j].requests[y].epoch < cfg.nodes[i].requests[x].epoch
    ensures Complete(s, cfg.nodes[j].id, y)
  {
    IssuedIsReleased(cfg, s, cfg.nodes[i].id, x);
    EarlierIsComplete(cfg, s, cfg.nodes[j].id, y);
  }

  /* ---- Turns in two halves ---- */

  /** The state between the handler of the next event and the release that may follow. */
  ghost function Handled(cfg: Config, s: State): State
    requires Inv(cfg, s) && s.shared.queue.pending != {}
  {
    var e := Least(s.shared.queue);
    DispatchKeeps(cfg, s, e);
    Dispatch(cfg, Pick(s, e), e).value
  }

  lemma DispatchKeepsReleases(cfg: Config, s: State, e: Event)
    requires MemoryShape(cfg, s.memory) && Dispatch(cfg, s, e).Ok?
    ensures Dispatch(cfg, s, e).value.released == s.released && Dispatch(cfg, s, e).value.releases == s.releases
    ensures Dispatch(cfg, s, e).value.nodes.Keys == s.nodes.Keys
  {
  }

  lemma TurnIsRelease(cfg: Config, s: State)
    requires Inv(cfg, s) && s.shared.queue.pending != {}
    ensures Turn(cfg, s) == Release(cfg, Handled(cfg, s)) && Core(cfg, Handled(cfg, s))
    ensures var d := Handled(cfg, s);
            d.released == s.released && d.releases == s.releases && d.nodes.Keys == s.nodes.Keys
  {
    var e := Least(s.shared.queue);
    DispatchKeeps(cfg, s, e);
    DispatchKeepsReleases(cfg, Pick(s, e), e);
  }

  /** A release changes no node except for the event that will issue its next request. */
  lemma {:induction false} ReleaseNodesSame(cfg: Config, s: State, epoch: nat, k: nat)
    requires k <= |cfg.nodes|
    ensures SameNodes(s.nodes, ReleaseNodes(cfg, s, epoch, k).nodes)
  {
    if k > 0 {
      ReleaseNodesSame(cfg, s, epoch, k - 1);
      var r, id := ReleaseNodes(cfg, s, epoch, k - 1), cfg.nodes[k - 1].id;
      assert id in s.nodes ==> SameButGenerating(r.nodes[id], s.nodes[id]);
      assert forall d :: d in s.nodes ==> SameButGenerating(r.nodes[d], s.nodes[d]);
    }
  }

  lemma ReleaseSame(cfg: Config, s: State)
    ensures SameNodes(s.nodes, Release(cfg, s).nodes)
    ensures Release(cfg, s).shared.stats == s.shared.stats
  {
    ReleaseFrame(cfg, s);
    if NextEpoch(cfg, s, |cfg.nodes|).Some? {
      var epoch := NextEpoch(cfg, s, |cfg.nodes|).value;
      ReleaseNodesSame(cfg, Announce(s, epoch), epoch, |cfg.nodes|);
    }
  }

  /* ---- What nodes do not record ---- */

  /** Telemetry, memory waits and depths do not differ. */
  predicate SameMemoryStats(s: StatsState, s': StatsState) {
    s'.objects == s.objects && s'.channels == s.channels && s'.totalWait == s.totalWait && s'.maxWait == s.maxWait &&
    s'.waitSamples == s.waitSamples && s'.peakDepth == s.peakDepth && s'.peakChannelDepth == s.peakChannelDepth
  }

  lemma NodesRecordNothing(cfg: Config, id: nat, n: NodeState, sh: Shared, e: Event)
    requires NodeHandle(cfg, id, n, sh, e).Ok?
    ensures SameMemoryStats(sh.stats, NodeHandle(cfg, id, n, sh, e).value.1.stats)
  {
    hide StartEpoch, Lookup, Admit, Schedule, Stamp;
    match e.kind
    case GenerateRequest => assert NodeHandle(cfg, id, n, sh, e).value.1.stats == sh.stats;
    case _ =>
  }

  /* ---- Releases ---- */

  predicate Extends(a: map<nat, nat>, b: map<nat, nat>) {
    forall e :: e in a ==> e in b && b[e] == a[e]
  }

  /** Every recorded release lies no later than the released epoch. */
  predicate ReleasesBounded(s: State) {
    forall e :: e in s.releases ==> s.released.Some? && e <= s.released.value
  }

  lemma ReleaseGoesOn(cfg: Config, s: State)
    requires Core(cfg, s) && ReleasesBounded(s)
    ensures var r := Release(cfg, s);
            ReleasesBounded(r) && Extends(s.releases, r.releases) &&
            (s.released.Some? ==> r.released.Some? && s.released.value <= r.released.value)
  {
    hide Core;
    var next := NextEpoch(cfg, s, |cfg.nodes|);
    if s.shared.queue.pending == {} && AllIdle(s) && next.Some? {
      ReleaseNodesFrame(cfg, Announce(s, next.value), next.value, |cfg.nodes|);
      NextIsAhead(cfg, s, next.value);
    }
  }

  lemma TurnGoesOn(cfg: Config, s: State)
    requires Inv(cfg, s) && ReleasesBounded(s)
    ensures var r := Turn(cfg, s);
            ReleasesBounded(r) && Extends(s.releases, r.releases) &&
            (s.released.Some? ==> r.released.Some? && s.released.value <= r.released.value)
  {
    hide Core, Release, Dispatch;
    if s.shared.queue.pending != {} {
      TurnIsRelease(cfg, s);
      ReleaseGoesOn(cfg, Handled(cfg, s));
    }
  }

  /** Epochs are released in increasing order, and the time of a release stands. */
  lemma {:induction false} ReleasesStand(cfg: Config, k: nat, l: nat)
    requires ValidConfig(cfg) && k <= l
    ensures var s, t := Run(cfg, k), Run(cfg, l);
            ReleasesBounded(t) && Extends(s.releases, t.releases) &&
            (s.released.Some? ==> t.released.Some? && s.released.value <= t.released.value)
    decreases l
  {
    hide Turn, Inv, Release;
    if l == 0 {
      FirstRelease(cfg);
    } else {
      RunKeeps(cfg, l - 1);
      ReleasesStand(cfg, if k < l then k else l - 1, l - 1);
      TurnGoesOn(cfg, Run(cfg, l - 1));
    }
  }

  lemma FirstRelease(cfg: Config)
    requires ValidConfig(cfg)
    ensures ReleasesBounded(Run(cfg, 0))
  {
    InitialCore(cfg);
    ReleaseGoesOn(cfg, Initial(cfg));
  }

  /** In a bursty schedule every request is issued at the release of its epoch plus its planned offset. */
  lemma BurstyOnTime(cfg: Config, k: nat, i: nat, x: nat)
    requires ValidConfig(cfg) && cfg.mode == ScheduledBursty && i < |cfg.nodes|
    requires HasIssued(Run(cfg, k), cfg.nodes[i].id, x)
    ensures OnSchedule(Run(cfg, k), cfg.nodes[i], x)
  {
    RunKeeps(cfg, k);
    IssuedOnSchedule(cfg, Run(cfg, k), i, x);
  }

  ghost predicate OnSchedule(s: State, node: NodeConfig, x: nat) {
    node.id in s.nodes && x < |s.nodes[node.id].issued| && x < |node.requests| &&
    Numbered(s.shared.ledger.tracks, s.nodes[node.id].issued[x]) && node.requests[x].epoch in s.releases &&
    s.shared.ledger.tracks[s.nodes[node.id].issued[x] - 1].request.issueTime ==
    s.releases[node.requests[x].epoch] + node.requests[x].offset
  }

  lemma IssuedOnSchedule(cfg: Config, s: State, i: nat, x: nat)
    requires Core(cfg, s) && cfg.mode == ScheduledBursty && i < |cfg.nodes|
    requires HasIssued(s, cfg.nodes[i].id, x)
    ensures OnSchedule(s, cfg.nodes[i], x)
  {
    var n := s.nodes[cfg.nodes[i].id];
    assert NodeOk(cfg, n, s.released, s.releases) && Listed(s.shared.ledger.tracks, cfg.nodes[i].id, n);
    assert Issued(cfg, s.shared.ledger.tracks[n.issued[x] - 1], s.nodes, s.released, s.releases);
  }
}
