/** Streams advance request by request, and no request leaves the released epoch behind. */
module HandlerStreams {
  import opened Model
  import opened Scheduling
  import opened Protocol
  import opened Invariants
  import opened HandlerTokens

  /* ---- Counting the requests of a node ---- */

  lemma {:induction false} CountUpdate(tracks: seq<Track>, i: nat, t: Track, id: nat)
    requires i < |tracks| && t.request.source == tracks[i].request.source
    ensures CountInFlight(tracks[i := t], id)
            + (if tracks[i].request.source == id && InFlight(tracks[i]) then 1 else 0)
            == CountInFlight(tracks, id) + (if t.request.source == id && InFlight(t) then 1 else 0)
  {
    var n := |tracks| - 1;
    if i < n {
      assert tracks[i := t][..n] == tracks[..n][i := t];
      CountUpdate(tracks[..n], i, t, id);
    } else {
      assert tracks[i := t][..n] == tracks[..n];
    }
  }

  lemma CountAppend(tracks: seq<Track>, t: Track, id: nat)
    ensures CountInFlight(tracks + [t], id) ==
            CountInFlight(tracks, id) + (if t.request.source == id && InFlight(t) then 1 else 0)
  {
    assert (tracks + [t])[..|tracks|] == tracks;
  }

  /* ---- Requests that move on ---- */

  /** The two belong to the same request of the same stream. */
  predicate SameRequest(s: Track, t: Track) {
    t.request.source == s.request.source && t.request.obj == s.request.obj && t.request.size == s.request.size &&
    t.request.epoch == s.request.epoch && t.request.issueTime == s.request.issueTime && t.index == s.index
  }

  lemma MoveIssued(cfg: Config, tracks: seq<Track>, nodes: map<nat, NodeState>, released: Option<nat>,
                   releases: map<nat, nat>, i: nat, t: Track)
    requires AllIssued(cfg, tracks, nodes, released, releases) && i < |tracks|
    requires SameRequest(tracks[i], t) && tracks[i].phase != Finished
    ensures AllIssued(cfg, tracks[i := t], nodes, released, releases)
  {
    var tracks' := tracks[i := t];
    assert Issued(cfg, tracks[i], nodes, released, releases);
    forall j | 0 <= j < |tracks'| ensures Issued(cfg, tracks'[j], nodes, released, releases) {
      assert Issued(cfg, tracks[j], nodes, released, releases);
    }
  }

  lemma KeepIssued(cfg: Config, tracks: seq<Track>, nodes: map<nat, NodeState>, released: Option<nat>,
                   releases: map<nat, nat>, id: nat, n: NodeState)
    requires AllIssued(cfg, tracks, nodes, released, releases)
    requires id in nodes && n.requests == nodes[id].requests && nodes[id].next <= n.next <= |n.requests|
    ensures AllIssued(cfg, tracks, nodes[id := n], released, releases)
  {
    forall j | 0 <= j < |tracks| ensures Issued(cfg, tracks[j], nodes[id := n], released, releases) {
      assert Issued(cfg, tracks[j], nodes, released, releases);
    }
  }

  lemma MoveListed(tracks: seq<Track>, nodes: map<nat, NodeState>, i: nat, t: Track, n: NodeState)
    requires AllListed(tracks, nodes) && i < |tracks| && SameRequest(tracks[i], t) && t.request.source in nodes
    requires n.issued == nodes[t.request.source].issued && n.next == nodes[t.request.source].next
    ensures AllListed(tracks[i := t], nodes[t.request.source := n])
  {
    var tracks', nodes' := tracks[i := t], nodes[t.request.source := n];
    forall id | id in nodes' ensures Listed(tracks', id, nodes'[id]) {
      assert Listed(tracks, id, nodes[id]);
    }
  }

  lemma EnterListed(tracks: seq<Track>, nodes: map<nat, NodeState>, t: Track, n: NodeState)
    requires AllListed(tracks, nodes) && t.request.source in nodes
    requires var o := nodes[t.request.source];
             t.index == o.next && n.next == o.next + 1 && n.issued == o.issued + [|tracks| + 1]
    ensures AllListed(tracks + [t], nodes[t.request.source := n])
  {
    var tracks', nodes' := tracks + [t], nodes[t.request.source := n];
    forall id | id in nodes' ensures Listed(tracks', id, nodes'[id]) {
      assert Listed(tracks, id, nodes[id]);
    }
  }

  lemma KeepConfigured(cfg: Config, nodes: map<nat, NodeState>, id: nat, n: NodeState)
    requires Configured(cfg, nodes) && id in nodes && n.requests == nodes[id].requests
    ensures Configured(cfg, nodes[id := n])
  {
  }

  /** A request moves on, and its node changes at most its count, its cache and its next event. */
  lemma MoveStreams(cfg: Config, tracks: seq<Track>, nodes: map<nat, NodeState>, released: Option<nat>,
                    releases: map<nat, nat>, i: nat, t: Track, n: NodeState)
    requires Streams(cfg, tracks, nodes, released, releases) && i < |tracks| && tracks[i].request.source in nodes
    requires SameRequest(tracks[i], t) && tracks[i].phase != Finished
    requires var o := nodes[t.request.source];
             && n.requests == o.requests && n.next == o.next && n.issued == o.issued
             && NodeOk(cfg, n, released, releases)
             && Progresses(cfg, tracks[i := t], t.request.source, n, released)
             && n.outstanding + (if InFlight(tracks[i]) then 1 else 0) == o.outstanding + (if InFlight(t) then 1 else 0)
    ensures Streams(cfg, tracks[i := t], nodes[t.request.source := n], released, releases)
  {
    var tracks', id := tracks[i := t], t.request.source;
    var nodes' := nodes[id := n];
    MoveIssued(cfg, tracks, nodes, released, releases, i, t);
    KeepIssued(cfg, tracks', nodes, released, releases, id, n);
    KeepConfigured(cfg, nodes, id, n);
    MoveListed(tracks, nodes, i, t, n);
    forall k | k in nodes'
      ensures NodeOk(cfg, nodes'[k], released, releases) && nodes'[k].outstanding == CountInFlight(tracks', k)
      ensures Progresses(cfg, tracks', k, nodes'[k], released)
    {
      assert NodeOk(cfg, nodes[k], released, releases) && nodes[k].outstanding == CountInFlight(tracks, k);
      CountUpdate(tracks, i, t, k);
      if k != id {
        assert Progresses(cfg, tracks, k, nodes[k], released);
        if SomeActive(tracks, k) {
          var j :| 0 <= j < |tracks| && Active(tracks[j], k);
          assert Active(tracks'[j], k);
        }
      }
    }
  }

  /** Progress is kept while the request is not finished and the node's next event stays. */
  lemma StillProgresses(cfg: Config, tracks: seq<Track>, nodes: map<nat, NodeState>, released: Option<nat>,
                        releases: map<nat, nat>, i: nat, t: Track, n: NodeState)
    requires Streams(cfg, tracks, nodes, released, releases) && i < |tracks| && tracks[i].request.source in nodes
    requires t.request.source == tracks[i].request.source && t.phase != Finished
    requires var o := nodes[t.request.source];
             n.requests == o.requests && n.next == o.next && n.generating == o.generating
    ensures Progresses(cfg, tracks[i := t], t.request.source, n, released)
  {
    var id := t.request.source;
    assert Progresses(cfg, tracks, id, nodes[id], released);
    assert Active(tracks[i := t][i], id);
  }

  /** Memory handles a request. */
  lemma MemoryMoves(cfg: Config, tracks: seq<Track>, nodes: map<nat, NodeState>, released: Option<nat>,
                    releases: map<nat, nat>, i: nat, t: Track)
    requires Streams(cfg, tracks, nodes, released, releases) && i < |tracks|
    requires SameRequest(tracks[i], t) && InFlight(tracks[i]) && InFlight(t)
    ensures Streams(cfg, tracks[i := t], nodes, released, releases)
  {
    var id := t.request.source;
    assert Issued(cfg, tracks[i], nodes, released, releases);
    assert NodeOk(cfg, nodes[id], released, releases);
    StillProgresses(cfg, tracks, nodes, released, releases, i, t, nodes[id]);
    MoveStreams(cfg, tracks, nodes, released, releases, i, t, nodes[id]);
    assert nodes[id := nodes[id]] == nodes;
  }

  lemma LookupStreams(cfg: Config, m: MemoryState, sh: Shared, nodes: map<nat, NodeState>, e: Event,
                      released: Option<nat>, releases: map<nat, nat>)
    requires MemoryShape(cfg, m) && AtNode(cfg, m, sh, nodes, e) && e.kind == LocalCacheLookup
    requires Streams(cfg, sh.ledger.tracks, nodes, released, releases)
    ensures NodeLookup(cfg, e.target, nodes[e.target], Taken(sh, e), e).Ok?
    ensures var (n', sh') := NodeLookup(cfg, e.target, nodes[e.target], Taken(sh, e), e).value;
            Streams(cfg, sh'.ledger.tracks, nodes[e.target := n'], released, releases)
  {
    RequestAtNode(cfg, m, sh, nodes, e);
    var tracks, i := sh.ledger.tracks, e.request - 1;
    var (n', sh') := NodeLookup(cfg, e.target, nodes[e.target], Taken(sh, e), e).value;
    var t := sh'.ledger.tracks[i];
    assert sh'.ledger.tracks == tracks[i := t];
    assert NodeOk(cfg, nodes[e.target], released, releases);
    StillProgresses(cfg, tracks, nodes, released, releases, i, t, n');
    MoveStreams(cfg, tracks, nodes, released, releases, i, t, n');
  }

  lemma RespondStreams(cfg: Config, m: MemoryState, sh: Shared, nodes: map<nat, NodeState>, e: Event,
                       n: NodeState, tier: Tier, bytes: nat, released: Option<nat>, releases: map<nat, nat>)
    requires MemoryShape(cfg, m) && AtNode(cfg, m, sh, nodes, e)
    requires e.kind == LocalCacheHitComplete || e.kind == ReturnResponse
    requires Streams(cfg, sh.ledger.tracks, nodes, released, releases)
    requires Known(Taken(sh, e), e.request) && n == nodes[e.target].(cache := n.cache) && n.outstanding > 0
    ensures var (n', sh') := Respond(e.target, n, Taken(sh, e), e, tier, bytes).value;
            Streams(cfg, sh'.ledger.tracks, nodes[e.target := n'], released, releases)
  {
    RequestAtNode(cfg, m, sh, nodes, e);
    var tracks, i := sh.ledger.tracks, e.request - 1;
    var (n', sh') := Respond(e.target, n, Taken(sh, e), e, tier, bytes).value;
    var t := sh'.ledger.tracks[i];
    assert sh'.ledger.tracks == tracks[i := t];
    assert NodeOk(cfg, nodes[e.target], released, releases);
    StillProgresses(cfg, tracks, nodes, released, releases, i, t, n');
    MoveStreams(cfg, tracks, nodes, released, releases, i, t, n');
  }

  lemma FinishStreams(cfg: Config, m: MemoryState, sh: Shared, nodes: map<nat, NodeState>, e: Event,
                      released: Option<nat>, releases: map<nat, nat>)
    requires MemoryShape(cfg, m) && AtNode(cfg, m, sh, nodes, e) && e.kind == RequestComplete
    requires Streams(cfg, sh.ledger.tracks, nodes, released, releases)
    requires SortedByEpoch(nodes[e.target].requests)
    ensures var (n', sh') := NodeComplete(cfg, e.target, nodes[e.target], Taken(sh, e), e).value;
            Streams(cfg, sh'.ledger.tracks, nodes[e.target := n'], released, releases)
  {
    RequestAtNode(cfg, m, sh, nodes, e);
    var tracks, i, n := sh.ledger.tracks, e.request - 1, nodes[e.target];
    var (n', sh') := NodeComplete(cfg, e.target, n, Taken(sh, e), e).value;
    var t := sh'.ledger.tracks[i];
    assert sh'.ledger.tracks == tracks[i := t];
    assert NodeOk(cfg, n, released, releases) && Progresses(cfg, tracks, e.target, n, released);
    assert Issued(cfg, tracks[i], nodes, released, releases);
    assert n.requests[tracks[i].index].epoch <= n.requests[n.next - 1].epoch;
    MoveStreams(cfg, tracks, nodes, released, releases, i, t, n');
  }

  /** The node that issues a request stands one further in its stream. */
  lemma IssuerOk(cfg: Config, sh: Shared, n: NodeState, e: Event, released: Option<nat>, releases: map<nat, nat>)
    requires NodeOk(cfg, n, released, releases) && n.generating == Some(e) && SortedByEpoch(n.requests)
    ensures NextSpec(n).Some?
    ensures var (n', sh') := NodeGenerate(cfg, e.target, n, Taken(sh, e), e).value;
            && NodeOk(cfg, n', released, releases) && n'.requests == n.requests && n'.next == n.next + 1
            && n'.outstanding == n.outstanding + 1 && n'.issued == n.issued + [|sh.ledger.tracks| + 1]
            && (cfg.mode == ScheduledBursty && n'.next < |n'.requests| &&
                released == Some(n'.requests[n'.next].epoch) ==>
                  n'.generating.Some?)
  {
  }

  /** The request issued is the next of its node's stream. */
  lemma NewIsIssued(cfg: Config, sh: Shared, nodes: map<nat, NodeState>, e: Event, released: Option<nat>,
                    releases: map<nat, nat>)
    requires e.target in nodes && NodeOk(cfg, nodes[e.target], released, releases)
    requires nodes[e.target].generating == Some(e)
    ensures NextSpec(nodes[e.target]).Some?
    ensures var (n', sh') := NodeGenerate(cfg, e.target, nodes[e.target], Taken(sh, e), e).value;
            var t := sh'.ledger.tracks[|sh.ledger.tracks|];
            && sh'.ledger.tracks == sh.ledger.tracks + [t] && t.request.source == e.target && t.phase == Looking
            && t.index == nodes[e.target].next
            && Issued(cfg, t, nodes[e.target := n'], released, releases)
  {
  }

  lemma GenerateStreams(cfg: Config, m: MemoryState, sh: Shared, nodes: map<nat, NodeState>, e: Event,
                        released: Option<nat>, releases: map<nat, nat>)
    requires MemoryShape(cfg, m) && AtNode(cfg, m, sh, nodes, e) && e.kind == GenerateRequest
    requires Streams(cfg, sh.ledger.tracks, nodes, released, releases)
    requires SortedByEpoch(nodes[e.target].requests)
    ensures NextSpec(nodes[e.target]).Some?
    ensures var (n', sh') := NodeGenerate(cfg, e.target, nodes[e.target], Taken(sh, e), e).value;
            Streams(cfg, sh'.ledger.tracks, nodes[e.target := n'], released, releases)
  {
    var tracks, id, n := sh.ledger.tracks, e.target, nodes[e.target];
    assert Owned(cfg, tracks, m, nodes, e);
    assert NodeOk(cfg, n, released, releases);
    IssuerOk(cfg, sh, n, e, released, releases);
    NewIsIssued(cfg, sh, nodes, e, released, releases);
    var (n', sh') := NodeGenerate(cfg, id, n, Taken(sh, e), e).value;
    var t := sh'.ledger.tracks[|tracks|];
    var tracks', nodes' := tracks + [t], nodes[id := n'];
    KeepConfigured(cfg, nodes, id, n');
    KeepIssued(cfg, tracks, nodes, released, releases, id, n');
    forall j | 0 <= j < |tracks'| ensures Issued(cfg, tracks'[j], nodes', released, releases) {
      assert j < |tracks| ==> Issued(cfg, tracks[j], nodes', released, releases);
    }
    EnterNodes(cfg, tracks, nodes, released, releases, t, n');
    EnterListed(tracks, nodes, t, n');
  }

  /** A request enters at a node that stays in order; every node keeps its count and its progress. */
  lemma EnterNodes(cfg: Config, tracks: seq<Track>, nodes: map<nat, NodeState>, released: Option<nat>,
                   releases: map<nat, nat>, t: Track, n: NodeState)
    requires NodesOk(cfg, tracks, nodes, released, releases) && t.request.source in nodes && t.phase == Looking
    requires NodeOk(cfg, n, released, releases) && n.outstanding == nodes[t.request.source].outstanding + 1
    requires cfg.mode == ScheduledBursty && n.next < |n.requests| && released == Some(n.requests[n.next].epoch) ==>
               n.generating.Some?
    ensures NodesOk(cfg, tracks + [t], nodes[t.request.source := n], released, releases)
  {
    var id := t.request.source;
    var tracks', nodes' := tracks + [t], nodes[id := n];
    forall k | k in nodes'
      ensures NodeOk(cfg, nodes'[k], released, releases) && nodes'[k].outstanding == CountInFlight(tracks', k)
      ensures Progresses(cfg, tracks', k, nodes'[k], released)
    {
      assert NodeOk(cfg, nodes[k], released, releases) && nodes[k].outstanding == CountInFlight(tracks, k);
      CountAppend(tracks, t, k);
      if k == id {
        assert Active(tracks'[|tracks|], id);
      } else {
        assert Progresses(cfg, tracks, k, nodes[k], released);
        if SomeActive(tracks, k) {
          var j :| 0 <= j < |tracks| && Active(tracks[j], k);
          assert Active(tracks'[j], k);
        }
      }
    }
  }
}
