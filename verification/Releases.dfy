/** Releasing an epoch: only when nothing is on its way, and then with something to do, or with nothing left. */
module Releases {
  import opened Model
  import opened Cache
  import opened Scheduling
  import opened Protocol
  import opened Invariants
  import opened TokenLaws
  import opened HandlerCaches

  /* ---- Silence means that everything issued is finished ---- */

  /** A request that waits at its channel is never forgotten: the channel has an event pending. */
  lemma QueuedIsPending(cfg: Config, s: State, i: nat)
    requires Core(cfg, s) && i < |s.shared.ledger.tracks| && s.shared.ledger.tracks[i].phase == Queued
    ensures s.shared.queue.pending != {}
  {
    var tracks, m, q := s.shared.ledger.tracks, s.memory, s.shared.queue;
    var c := ChannelOf(tracks[i].request.obj, cfg.channels);
    assert Located(cfg, m, i, tracks[i]);
    assert ChannelOk(cfg, tracks, m.channels[c], m.logs[c], c, q.now);
    assert ArrivalOk(cfg, tracks, m.logs[c], c, tracks[i].place, q.now);
    assert ChannelToken(cfg, q, tracks, c, m.channels[c], m.logs[c]);
    var last := |m.logs[c].dones|;
    assert ArrivalOk(cfg, tracks, m.logs[c], c, last, q.now);
    assert TrackToken(cfg, q, m.logs[c].arrivals[last].request - 1, tracks[m.logs[c].arrivals[last].request - 1]);
  }

  lemma SilentRequest(cfg: Config, s: State, i: nat)
    requires Core(cfg, s) && s.shared.queue.pending == {} && i < |s.shared.ledger.tracks|
    ensures s.shared.ledger.tracks[i].phase == Finished
  {
    assert TrackToken(cfg, s.shared.queue, i, s.shared.ledger.tracks[i]);
    if s.shared.ledger.tracks[i].phase == Queued {
      QueuedIsPending(cfg, s, i);
    }
  }

  lemma {:induction false} NoneInFlight(tracks: seq<Track>, id: nat)
    requires forall i :: 0 <= i < |tracks| ==> tracks[i].phase == Finished
    ensures CountInFlight(tracks, id) == 0
  {
    if tracks != [] {
      NoneInFlight(tracks[..|tracks| - 1], id);
    }
  }

  /** When nothing is pending every request is finished, every node idle, and no epoch half issued. */
  lemma Silence(cfg: Config, s: State)
    requires Core(cfg, s) && s.shared.queue.pending == {}
    ensures forall i :: 0 <= i < |s.shared.ledger.tracks| ==> s.shared.ledger.tracks[i].phase == Finished
    ensures AllIdle(s)
    ensures forall id :: id in s.nodes ==>
              s.nodes[id].generating.None? &&
              (NextSpec(s.nodes[id]).Some? && s.released.Some? ==>
                 NextSpec(s.nodes[id]).value.epoch > s.released.value)
  {
    hide Times, Responses, Channels, OneAtATime, EventsCounted, StatsCounted, CachesSound, CachesExact;
    var tracks := s.shared.ledger.tracks;
    forall i | 0 <= i < |tracks| ensures tracks[i].phase == Finished {
      SilentRequest(cfg, s, i);
    }
    forall id | id in s.nodes
      ensures s.nodes[id].outstanding == 0 && s.nodes[id].generating.None?
      ensures NextSpec(s.nodes[id]).Some? && s.released.Some? ==>
                NextSpec(s.nodes[id]).value.epoch > s.released.value
    {
      NoneInFlight(tracks, id);
      assert NodeToken(s.shared.queue, id, s.nodes[id]);
      assert NodeOk(cfg, s.nodes[id], s.released, s.releases);
      assert Progresses(cfg, tracks, id, s.nodes[id], s.released);
    }
  }

  /* ---- The next epoch ---- */

  predicate LeastOf(cfg: Config, s: State, k: nat, next: Option<nat>)
    requires k <= |cfg.nodes|
  {
    && (forall i :: 0 <= i < k ==>
          (Unreleased(s, cfg.nodes[i].id).Some? ==> next.Some? && next.value <= Unreleased(s, cfg.nodes[i].id).value))
    && (next.Some? ==> exists i :: 0 <= i < k && Unreleased(s, cfg.nodes[i].id) == next)
  }

  /** The simulator picks the least epoch that some node has still to start. */
  lemma {:induction false} NextEpochLeast(cfg: Config, s: State, k: nat)
    requires k <= |cfg.nodes|
    ensures LeastOf(cfg, s, k, NextEpoch(cfg, s, k))
  {
    if k > 0 {
      NextEpochLeast(cfg, s, k - 1);
      assert NextEpoch(cfg, s, k) == NextEpoch(cfg, s, k - 1) || NextEpoch(cfg, s, k) == Unreleased(s,
          cfg.nodes[k - 1].id);
    }
  }

  /* ---- Starting the nodes of an epoch ---- */

  /** The two nodes differ at most in the event that will issue their next request. */
  predicate SameButGenerating(n: NodeState, o: NodeState) {
    n == o.(generating := n.generating)
  }

  ghost predicate Released(cfg: Config, s: State, r: State, epoch: nat, k: nat)
    requires k <= |cfg.nodes| && MemoryShape(cfg, r.memory)
  {
    && r == s.(shared := s.shared.(queue := r.shared.queue), nodes := r.nodes)
    && InOrder(r.shared.queue) && r.shared.queue.now == s.shared.queue.now
    && Tokens(cfg, r.shared.queue, r.shared.ledger.tracks, r.memory, r.nodes)
    && r.nodes.Keys == s.nodes.Keys
    && (forall id {:trigger r.nodes[id]} :: id in r.nodes ==> SameButGenerating(r.nodes[id], s.nodes[id]))
    && (forall i :: 0 <= i < |cfg.nodes| && cfg.nodes[i].id in r.nodes ==>
          r.nodes[cfg.nodes[i].id].generating ==
          if i < k && NextSpec(s.nodes[cfg.nodes[i].id]).Some? &&
              NextSpec(s.nodes[cfg.nodes[i].id]).value.epoch == epoch
          then r.nodes[cfg.nodes[i].id].generating else None)
    && (forall i :: 0 <= i < k && cfg.nodes[i].id in r.nodes && NextSpec(s.nodes[cfg.nodes[i].id]).Some? &&
                    NextSpec(s.nodes[cfg.nodes[i].id]).value.epoch == epoch ==>
          var n := r.nodes[cfg.nodes[i].id];
          n.generating.Some? && n.generating.value.time == s.shared.queue.now + NextSpec(n).value.offset)
  }

  lemma ReleaseOne(cfg: Config, s: State, r: State, epoch: nat, k: nat)
    requires ValidConfig(cfg) && MemoryShape(cfg, r.memory) && k < |cfg.nodes| && Released(cfg, s, r, epoch, k)
    ensures Released(cfg, s, ReleaseNode(r, cfg.nodes[k].id, epoch), epoch, k + 1)
  {
    hide Tokens, InOrder;
    var id := cfg.nodes[k].id;
    if id in r.nodes && NextSpec(r.nodes[id]).Some? && NextSpec(r.nodes[id]).value.epoch == epoch {
      assert SameButGenerating(r.nodes[id], s.nodes[id]);
      var time := r.shared.queue.now + NextSpec(r.nodes[id]).value.offset;
      var n := r.nodes[id].(generating := Some(Stamp(r.shared.queue, GenerateEvent(id, time))));
      AttachNode(cfg, r.shared.queue, r.shared.ledger.tracks, r.memory, r.nodes, time, id, n);
    }
  }

  lemma {:induction false} ReleaseSome(cfg: Config, s: State, epoch: nat, k: nat)
    requires ValidConfig(cfg) && MemoryShape(cfg, s.memory) && k <= |cfg.nodes|
    requires InOrder(s.shared.queue) && Tokens(cfg, s.shared.queue, s.shared.ledger.tracks, s.memory, s.nodes)
    requires forall id :: id in s.nodes ==> s.nodes[id].generating.None?
    ensures ReleaseNodes(cfg, s, epoch, k).memory == s.memory
    ensures Released(cfg, s, ReleaseNodes(cfg, s, epoch, k), epoch, k)
  {
    hide Released, ReleaseNode, Tokens, InOrder;
    if k == 0 {
      NoneReleased(cfg, s, epoch);
    } else {
      var r := ReleaseNodes(cfg, s, epoch, k - 1);
      ReleaseSome(cfg, s, epoch, k - 1);
      ReleaseOne(cfg, s, r, epoch, k - 1);
      SameMemory(r, cfg.nodes[k - 1].id, epoch);
    }
  }

  lemma NoneReleased(cfg: Config, s: State, epoch: nat)
    requires MemoryShape(cfg, s.memory) && InOrder(s.shared.queue)
    requires Tokens(cfg, s.shared.queue, s.shared.ledger.tracks, s.memory, s.nodes)
    requires forall id :: id in s.nodes ==> s.nodes[id].generating.None?
    ensures Released(cfg, s, s, epoch, 0)
  {
  }

  lemma SameMemory(s: State, id: nat, epoch: nat)
    ensures ReleaseNode(s, id, epoch).memory == s.memory
  {
  }

  /* ---- What a release keeps ---- */

  lemma SameNowChannels(cfg: Config, m: MemoryState, sh: Shared, sh': Shared)
    requires MemoryShape(cfg, m) && Channels(cfg, sh, m)
    requires sh'.ledger == sh.ledger && sh'.queue.now == sh.queue.now
    ensures Channels(cfg, sh', m)
  {
  }

  lemma {:induction false} UnissuedKept(cfg: Config, nodes: map<nat, NodeState>, nodes': map<nat, NodeState>, k: nat)
    requires k <= |cfg.nodes| && nodes'.Keys == nodes.Keys
    requires forall id :: id in nodes ==> nodes'[id].next == nodes[id].next
    ensures Unissued(cfg, nodes', k) == Unissued(cfg, nodes, k)
  {
    if k > 0 {
      UnissuedKept(cfg, nodes, nodes', k - 1);
    }
  }

  /** A quiet state in which `epoch` is the next to be released. */
  ghost predicate Ready(cfg: Config, s: State, epoch: nat) {
    Core(cfg, s) && s.shared.queue.pending == {} && NextEpoch(cfg, s, |cfg.nodes|) == Some(epoch)
  }

  function Announce(s: State, epoch: nat): State {
    s.(released := Some(epoch), releases := s.releases[epoch := s.shared.queue.now])
  }

  lemma NextIsAhead(cfg: Config, s: State, epoch: nat)
    requires Ready(cfg, s, epoch)
    ensures s.released.Some? ==> s.released.value < epoch
    ensures forall id :: id in s.nodes && NextSpec(s.nodes[id]).Some? ==> NextSpec(s.nodes[id]).value.epoch >= epoch
    ensures exists i :: 0 <= i < |cfg.nodes| && cfg.nodes[i].id in s.nodes &&
                        NextSpec(s.nodes[cfg.nodes[i].id]).Some? &&
                            NextSpec(s.nodes[cfg.nodes[i].id]).value.epoch == epoch
  {
    Silence(cfg, s);
    NextEpochLeast(cfg, s, |cfg.nodes|);
    forall id | id in s.nodes && NextSpec(s.nodes[id]).Some? ensures NextSpec(s.nodes[id]).value.epoch >= epoch {
      var i :| 0 <= i < |cfg.nodes| && cfg.nodes[i].id == id;
      assert Unreleased(s, cfg.nodes[i].id) == Some(NextSpec(s.nodes[id]).value.epoch);
    }
    var i :| 0 <= i < |cfg.nodes| && Unreleased(s, cfg.nodes[i].id) == Some(epoch);
  }

  ghost predicate SameNodes(nodes: map<nat, NodeState>, nodes': map<nat, NodeState>) {
    nodes'.Keys == nodes.Keys &&
    forall id {:trigger SameButGenerating(nodes'[id], nodes[id])} ::
      id in nodes ==> SameButGenerating(nodes'[id], nodes[id])
  }

  predicate AllFinished(tracks: seq<Track>) {
    forall i :: 0 <= i < |tracks| ==> tracks[i].phase == Finished
  }

  /** The step from one released epoch to a later one, at time `now`. */
  predicate Ahead(released: Option<nat>, epoch: nat) {
    released.Some? ==> released.value < epoch
  }

  lemma ReleasedIssued(cfg: Config, tracks: seq<Track>, nodes: map<nat, NodeState>, nodes': map<nat, NodeState>,
                       released: Option<nat>, releases: map<nat, nat>, epoch: nat, now: nat)
    requires AllFinished(tracks) && AllIssued(cfg, tracks, nodes, released, releases) && SameNodes(nodes, nodes')
    requires Ahead(released, epoch)
    ensures AllIssued(cfg, tracks, nodes', Some(epoch), releases[epoch := now])
  {
    forall i | 0 <= i < |tracks| ensures Issued(cfg, tracks[i], nodes', Some(epoch), releases[epoch := now]) {
      assert Issued(cfg, tracks[i], nodes, released, releases);
      var id := tracks[i].request.source;
      assert SameButGenerating(nodes'[id], nodes[id]);
    }
  }

  lemma ReleasedConfigured(cfg: Config, nodes: map<nat, NodeState>, nodes': map<nat, NodeState>)
    requires Configured(cfg, nodes) && SameNodes(nodes, nodes')
    ensures Configured(cfg, nodes')
  {
    forall i | 0 <= i < |cfg.nodes|
      ensures cfg.nodes[i].id in nodes' && nodes'[cfg.nodes[i].id].requests == cfg.nodes[i].requests
    {
      assert SameButGenerating(nodes'[cfg.nodes[i].id], nodes[cfg.nodes[i].id]);
    }
  }

  lemma ReleasedListed(tracks: seq<Track>, nodes: map<nat, NodeState>, nodes': map<nat, NodeState>)
    requires AllListed(tracks, nodes) && SameNodes(nodes, nodes')
    ensures AllListed(tracks, nodes')
  {
    forall id | id in nodes' ensures Listed(tracks, id, nodes'[id]) {
      assert Listed(tracks, id, nodes[id]) && SameButGenerating(nodes'[id], nodes[id]);
    }
  }

  /** A node of the released epoch is to issue its next request, at the release time plus its offset. */
  predicate Starts(n: NodeState, epoch: nat, now: nat) {
    if NextSpec(n).Some? && NextSpec(n).value.epoch == epoch
    then n.generating.Some? && n.generating.value.time == now + NextSpec(n).value.offset
    else n.generating.None?
  }

  lemma ReleasedNodes(cfg: Config, tracks: seq<Track>, nodes: map<nat, NodeState>, nodes': map<nat, NodeState>,
                      released: Option<nat>, releases: map<nat, nat>, epoch: nat, now: nat)
    requires AllFinished(tracks) && NodesOk(cfg, tracks, nodes, released, releases) && SameNodes(nodes, nodes')
    requires Ahead(released, epoch)
    requires forall id :: id in nodes && NextSpec(nodes[id]).Some? ==> NextSpec(nodes[id]).value.epoch >= epoch
    requires forall id :: id in nodes' ==> Starts(nodes'[id], epoch, now)
    ensures NodesOk(cfg, tracks, nodes', Some(epoch), releases[epoch := now])
  {
    forall id | id in nodes'
      ensures NodeOk(cfg, nodes'[id], Some(epoch), releases[epoch := now])
      ensures nodes'[id].outstanding == CountInFlight(tracks, id)
      ensures Progresses(cfg, tracks, id, nodes'[id], Some(epoch))
    {
      assert SameButGenerating(nodes'[id], nodes[id]);
      assert NodeOk(cfg, nodes[id], released, releases) && nodes[id].outstanding == CountInFlight(tracks, id);
    }
  }

  lemma ReleasedAlone(cfg: Config, tracks: seq<Track>, nodes: map<nat, NodeState>, nodes': map<nat, NodeState>)
    requires AllFinished(tracks) && Alone(cfg, tracks, nodes) && SameNodes(nodes, nodes')
    ensures Alone(cfg, tracks, nodes')
  {
    forall id | id in nodes'
      ensures Sound(nodes'[id].cache) && (cfg.mode == CompletionDriven ==> Exact(nodes'[id].cache))
    {
      assert SameButGenerating(nodes'[id], nodes[id]);
      assert Sound(nodes[id].cache) && (cfg.mode == CompletionDriven ==> Exact(nodes[id].cache));
    }
  }

  lemma ReleasedCounts(cfg: Config, nodes: map<nat, NodeState>, nodes': map<nat, NodeState>)
    requires SameNodes(nodes, nodes')
    ensures Unissued(cfg, nodes', |cfg.nodes|) == Unissued(cfg, nodes, |cfg.nodes|)
  {
    forall id | id in nodes' ensures nodes'[id].next == nodes[id].next {
      assert SameButGenerating(nodes'[id], nodes[id]);
    }
    UnissuedKept(cfg, nodes, nodes', |cfg.nodes|);
  }

  lemma ReleasedFacts(cfg: Config, s: State, r: State, epoch: nat)
    requires Configured(cfg, s.nodes) && MemoryShape(cfg, r.memory)
    requires Released(cfg, Announce(s, epoch), r, epoch, |cfg.nodes|)
    ensures SameNodes(s.nodes, r.nodes)
    ensures forall id :: id in r.nodes ==> Starts(r.nodes[id], epoch, s.shared.queue.now)
  {
    forall id | id in r.nodes
      ensures SameButGenerating(r.nodes[id], s.nodes[id]) && Starts(r.nodes[id], epoch, s.shared.queue.now)
    {
      assert SameButGenerating(r.nodes[id], s.nodes[id]);
      var i :| 0 <= i < |cfg.nodes| && cfg.nodes[i].id == id;
    }
  }

  lemma ReleasedPending(cfg: Config, s: State, r: State, epoch: nat)
    requires Ready(cfg, s, epoch) && MemoryShape(cfg, r.memory)
    requires Released(cfg, Announce(s, epoch), r, epoch, |cfg.nodes|)
    ensures r.shared.queue.pending != {}
  {
    NextIsAhead(cfg, s, epoch);
    var i :| 0 <= i < |cfg.nodes| && cfg.nodes[i].id in s.nodes && NextSpec(s.nodes[cfg.nodes[i].id]).Some? &&
             NextSpec(s.nodes[cfg.nodes[i].id]).value.epoch == epoch;
    assert NodeToken(r.shared.queue, cfg.nodes[i].id, r.nodes[cfg.nodes[i].id]);
  }

  lemma ReleasedInv(cfg: Config, s: State, r: State, epoch: nat)
    requires Ready(cfg, s, epoch) && MemoryShape(cfg, r.memory)
    requires Released(cfg, Announce(s, epoch), r, epoch, |cfg.nodes|)
    ensures Inv(cfg, r)
  {
    var tracks := s.shared.ledger.tracks;
    Silence(cfg, s);
    NextIsAhead(cfg, s, epoch);
    ReleasedFacts(cfg, s, r, epoch);
    ReleasedConfigured(cfg, s.nodes, r.nodes);
    ReleasedListed(tracks, s.nodes, r.nodes);
    ReleasedIssued(cfg, tracks, s.nodes, r.nodes, s.released, s.releases, epoch, s.shared.queue.now);
    ReleasedNodes(cfg, tracks, s.nodes, r.nodes, s.released, s.releases, epoch, s.shared.queue.now);
    ReleasedAlone(cfg, tracks, s.nodes, r.nodes);
    ReleasedCounts(cfg, s.nodes, r.nodes);
    ReleasedPending(cfg, s, r, epoch);
    SameNowChannels(cfg, r.memory, s.shared, r.shared);
  }

  /** A release keeps everything, and leaves nothing pending only when every stream has been issued. */
  lemma ReleaseKeeps(cfg: Config, s: State)
    requires Core(cfg, s)
    ensures Inv(cfg, Release(cfg, s))
  {
    if s.shared.queue.pending == {} {
      Silence(cfg, s);
      NextEpochLeast(cfg, s, |cfg.nodes|);
      match NextEpoch(cfg, s, |cfg.nodes|)
      case None =>
        forall id | id in s.nodes ensures NextSpec(s.nodes[id]).None? {
          var i :| 0 <= i < |cfg.nodes| && cfg.nodes[i].id == id;
          assert Unreleased(s, cfg.nodes[i].id).None?;
        }
      case Some(epoch) =>
        var a := Announce(s, epoch);
        ReleaseSome(cfg, a, epoch, |cfg.nodes|);
        var r := ReleaseNodes(cfg, a, epoch, |cfg.nodes|);
        assert Release(cfg, s) == r;
        ReleasedInv(cfg, s, r, epoch);
    }
  }
}
