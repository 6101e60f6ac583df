/** The simulator as an object: it owns all components, dispatches events and releases epochs until all is done. */
module Simulators {
  import opened Model
  import opened Policies
  import opened Cache
  import opened Scheduling
  import opened Protocol
  import opened Invariants
  import opened Releases
  import opened Steps
  import opened Runs
  import opened Schedulers
  import opened Recorders
  import opened LocalCaches
  import opened MemoryNodes
  import opened ComputeNodes

  class Simulator {
    const cfg: Config
    const scheduler: Scheduler
    const stats: Stats
    const table: RequestTable
    const memory: MemoryNode
    var nodes: map<nat, ComputeNode>
    var releasedEpoch: Option<nat>
    var eventLog: seq<EventRecord>
    ghost var releases: map<nat, nat>

    /** Everything that the compute nodes own. */
    ghost function NodesRepr(): set<object>
      reads this
    {
      set id, o | id in nodes && o in nodes[id].Repr() :: o
    }

    ghost function NodeViews(): map<nat, NodeState>
      reads this, NodesRepr()
    {
      map id | id in nodes :: nodes[id].View()
    }

    ghost function View(): State
      reads this, scheduler, stats, table, memory, NodesRepr()
    {
      State(SharedView(scheduler, table, stats), memory.View(), NodeViews(), releasedEpoch, eventLog, releases)
    }

    /** A node works on the simulator's own components. */
    ghost predicate Wired(id: nat)
      requires id in nodes
      reads this, NodesRepr()
    {
      nodes[id].cfg == cfg && nodes[id].id == id && nodes[id].stats == stats && nodes[id].table == table &&
      nodes[id].Valid()
    }

    ghost predicate Separate(a: nat, b: nat)
      requires a in nodes && b in nodes
      reads this
    {
      a != b ==> nodes[a].Repr() !! nodes[b].Repr()
    }

    ghost predicate Valid()
      reads this, scheduler, stats, table, memory, NodesRepr()
    {
      && memory.cfg == cfg && memory.stats == stats && memory.table == table
      && MemoryShape(cfg, memory.View()) && table.Valid()
      && (forall id {:trigger Wired(id)} :: id in nodes ==> Wired(id))
      && (forall a, b {:trigger Separate(a, b)} :: a in nodes && b in nodes ==> Separate(a, b))
    }

    /** Policies start without any history. */
    static predicate StartsFresh(p: Policy) {
      (p.Hotness? ==> p.window == Window(map[], map[])) && (p.ContentionAware? ==> p.state == FreshContention)
    }

    constructor (cfg: Config)
      requires ValidConfig(cfg) && StartsFresh(cfg.policy)
      ensures this.cfg == cfg && Valid() && View() == Initial(cfg)
      ensures fresh(scheduler) && fresh(stats) && fresh(table) && fresh(memory) && fresh(NodesRepr())
    {
      this.cfg := cfg;
      var q := new Scheduler();
      var s := new Stats();
      var t := new RequestTable();
      var m := new MemoryNode(cfg, s, t);
      scheduler, stats, table, memory := q, s, t, m;
      nodes, releasedEpoch, eventLog, releases := map[], None, [], map[];
      new;
      BuildNodes();
    }

    /** One compute node for every configured stream. */
    method BuildNodes()
      requires Valid() && nodes == map[] && ValidConfig(cfg) && StartsFresh(cfg.policy)
      modifies `nodes
      ensures Valid() && NodeViews() == InitialNodes(cfg, |cfg.nodes|) && fresh(NodesRepr())
    {
      hide ComputeNode.View, ComputeNode.Valid, ComputeNode.Repr, ValidConfig, InitialNodes, NewNode;
      InitialIs(cfg);
      for i := 0 to |cfg.nodes|
        invariant Valid() && NodeViews() == InitialNodes(cfg, i) && forall o :: o in NodesRepr() ==> fresh(o)
      {
        InitialNext(cfg, i);
        assert cfg.nodes[i].id !in NodeViews();
        BuildNode(cfg.nodes[i]);
      }
    }

    method BuildNode(node: NodeConfig)
      requires Valid() && node.id !in nodes && StartsFresh(cfg.policy)
      modifies `nodes
      ensures Valid() && NodeViews() == old(NodeViews())[node.id := NewNode(cfg, node.requests)]
      ensures forall o :: o in NodesRepr() ==> o in old(NodesRepr()) || fresh(o)
    {
      hide ComputeNode.View, ComputeNode.Valid;
      ghost var owned := NodesRepr();
      var added := MakeNode(node);
      assert NodesRepr() == owned;
      AddNode(node.id, added);
    }

    method MakeNode(node: NodeConfig) returns (added: ComputeNode)
      requires StartsFresh(cfg.policy)
      ensures fresh(added) && fresh(added.Repr()) && added.Valid() && added.View() == NewNode(cfg, node.requests)
      ensures added.cfg == cfg && added.id == node.id && added.stats == stats && added.table == table
    {
      var policy := MakeCachePolicy(cfg.policy, stats);
      var cache := new LocalCache(cfg.capacity, policy);
      added := new ComputeNode(cfg, node.id, node.requests, cache, stats, table);
    }

    method AddNode(id: nat, added: ComputeNode)
      requires Valid() && id !in nodes && added.Repr() !! NodesRepr() && added.Valid()
      requires added.cfg == cfg && added.id == id && added.stats == stats && added.table == table
      modifies `nodes
      ensures Valid() && nodes == old(nodes)[id := added]
      ensures NodeViews() == old(NodeViews())[id := added.View()]
      ensures forall o :: o in NodesRepr() ==> o in old(NodesRepr()) || o in added.Repr()
    {
      hide ComputeNode.View, ComputeNode.Valid, ComputeNode.Repr;
      ghost var owned := NodesRepr();
      assert forall k, o :: k in nodes && o in nodes[k].Repr() ==> o in owned;
      Unowned(added);
      forall k | k in nodes {
        OwnedByNone(k);
      }
      nodes := nodes[id := added];
      Untouched(added);
      forall k | k in nodes && k != id ensures Wired(k) && nodes[k].View() == old(nodes[k].View()) {
        assert old(Wired(k));
        Untouched(nodes[k]);
      }
      assert Wired(id);
      forall a, b | a in nodes && b in nodes ensures Separate(a, b) {
        assert a != id && b != id ==> old(Separate(a, b));
      }
    }

    lemma Unowned(n: ComputeNode)
      ensures this !in n.Repr()
    {
    }

    lemma OwnedByNone(id: nat)
      requires id in nodes
      ensures this !in nodes[id].Repr()
    {
    }

    /** Another node stays as it was. */
    twostate lemma Untouched(n: ComputeNode)
      requires unchanged(n.Repr())
      ensures n.View() == old(n.View()) && n.Valid() == old(n.Valid())
    {
    }

    /** One node handles an event; the others stay as they were. */
    method HandleAt(id: nat, event: Event) returns (ok: bool)
      requires Valid() && id in nodes && Sound(nodes[id].cache.View())
      modifies scheduler, stats, table, nodes[id].Repr()
      ensures nodes == old(nodes) && table.Valid() && nodes[id].Valid()
      ensures Follows(NodeHandle(cfg, id, old(nodes[id].View()), old(SharedView(scheduler, table, stats)), event), ok,
                      nodes[id].View(), SharedView(scheduler, table, stats))
      ensures forall k :: k in nodes && k != id ==> nodes[k].View() == old(nodes[k].View()) && nodes[k].Valid()
    {
      hide NodeHandle, Sound, Follows;
      assert Wired(id);
      OwnedByNone(id);
      ok := nodes[id].HandleEvent(event, scheduler);
      forall k | k in nodes && k != id ensures nodes[k].View() == old(nodes[k].View()) && nodes[k].Valid() {
        nodes[k].OwnsNoShared(scheduler, stats, table, memory);
        assert Separate(k, id) && old(Wired(k));
        Untouched(nodes[k]);
      }
    }

    /** Memory handles an event; the nodes stay as they were. */
    method DispatchToMemory(event: Event) returns (ok: bool)
      requires Valid()
      modifies memory, scheduler, stats, table
      ensures Valid() && NodeViews() == old(NodeViews())
      ensures Follows(MemoryHandle(cfg, old(memory.View()), old(SharedView(scheduler, table, stats)), event), ok,
                      memory.View(), SharedView(scheduler, table, stats))
    {
      hide MemoryHandle, Follows;
      ok := memory.HandleEvent(event, scheduler);
      forall k | k in nodes ensures nodes[k].View() == old(nodes[k].View()) && Wired(k) {
        nodes[k].OwnsNoShared(scheduler, stats, table, memory);
        assert old(Wired(k));
        Untouched(nodes[k]);
      }
      forall a, b | a in nodes && b in nodes ensures Separate(a, b) {
        assert old(Separate(a, b));
      }
    }

    method LogEvent(event: Event)
      requires Valid()
      modifies `eventLog
      ensures Valid() && eventLog == old(eventLog) + [EventRecord(event.time, event.kind, event.target, event.request)]
      ensures NodeViews() == old(NodeViews())
    {
      hide ComputeNode.View, ComputeNode.Valid, ComputeNode.Repr;
      forall k | k in nodes {
        OwnedByNone(k);
      }
      eventLog := eventLog + [EventRecord(event.time, event.kind, event.target, event.request)];
      forall k | k in nodes ensures nodes[k].View() == old(nodes[k].View()) && Wired(k) {
        assert old(Wired(k));
        Untouched(nodes[k]);
      }
      forall a, b | a in nodes && b in nodes ensures Separate(a, b) {
        assert old(Separate(a, b));
      }
    }

    lemma CacheOf(id: nat)
      requires id in nodes
      ensures NodeViews()[id].cache == nodes[id].cache.View()
    {
    }

    method DispatchToNode(event: Event) returns (ok: bool)
      requires Valid() && event.target in nodes && Sound(NodeViews()[event.target].cache)
      modifies scheduler, stats, table, nodes[event.target].Repr()
      ensures Valid() && nodes == old(nodes) && NodeViews().Keys == old(NodeViews().Keys)
      ensures NodeViews() == old(NodeViews())[event.target := NodeViews()[event.target]]
      ensures Follows(NodeHandle(cfg, event.target, old(NodeViews())[event.target],
                                 old(SharedView(scheduler, table, stats)), event), ok,
                      NodeViews()[event.target], SharedView(scheduler, table, stats))
    {
      hide NodeHandle, Sound, Follows, ComputeNode.View, ComputeNode.Valid, ComputeNode.Repr;
      CacheOf(event.target);
      OwnedByNone(event.target);
      nodes[event.target].OwnsNoShared(scheduler, stats, table, memory);
      ok := HandleAt(event.target, event);
      assert forall k :: k in nodes ==> old(Wired(k)) && Wired(k);
    }

    /** Logs the event and hands it to the node it is meant for; false stands for an exception. */
    method DispatchEvent(event: Event) returns (ok: bool)
      requires Valid() && CachesSound(View().nodes)
      modifies `eventLog, scheduler, stats, table, memory, NodesRepr()
      ensures Valid() && nodes == old(nodes)
      ensures ok <==> Dispatch(cfg, old(View()), event).Ok?
      ensures ok ==> View() == Dispatch(cfg, old(View()), event).value
    {
      hide NodeHandle, MemoryHandle, Sound, ComputeNode.View, ComputeNode.Valid, Dispatch;
      DispatchIs(cfg, View(), event);
      LogEvent(event);
      if event.target in nodes {
        assert Sound(NodeViews()[event.target].cache);
        ok := DispatchToNode(event);
      } else if event.target == cfg.memoryNode {
        ok := DispatchToMemory(event);
      } else {
        ok := false;
      }
    }

    /** What the simulator asks of a node is what its stream holds next. */
    lemma AskedOf(id: nat)
      requires id in nodes
      ensures var n := NodeViews()[id];
              && nodes[id].outstanding == n.outstanding
              && nodes[id].NextRequestEpoch() == (if NextSpec(n).Some? then Some(NextSpec(n).value.epoch) else None)
              && nodes[id].NextRequestIssueOffset() == (if NextSpec(n).Some? then NextSpec(n).value.offset else 0)
    {
    }

    method AllComputeNodesIdle() returns (idle: bool)
      ensures idle == AllIdle(View())
    {
      hide ComputeNode.View, ComputeNode.Repr;
      var rest := nodes.Keys;
      while rest != {}
        invariant rest <= nodes.Keys
        invariant forall id :: id in nodes && id !in rest ==> NodeViews()[id].outstanding == 0
        decreases |rest|
      {
        var id :| id in rest;
        AskedOf(id);
        rest := rest - {id};
        if nodes[id].outstanding != 0 {
          return false;
        }
      }
      idle := true;
    }

    /** The least epoch that a node has still to start, found in whatever order the nodes are visited. */
    method NextUnreleasedEpoch() returns (next: Option<nat>)
      requires nodes.Keys == (set i | 0 <= i < |cfg.nodes| :: cfg.nodes[i].id)
      ensures next == NextOf(cfg, View())
    {
      hide ComputeNode.View, NextOf, Unreleased, UnreleasedEpoch;
      next := None;
      var rest := nodes.Keys;
      while rest != {}
        invariant rest <= nodes.Keys && LeastAmong(View(), nodes.Keys - rest, next)
        decreases |rest|
      {
        hide LeastAmong;
        var id :| id in rest;
        var epoch := UnreleasedEpoch(id);
        UnreleasedIs(id);
        LeastStep(View(), nodes.Keys - rest, next, id);
        assert nodes.Keys - rest + {id} == nodes.Keys - (rest - {id});
        rest := rest - {id};
        if epoch.Some? && (next.None? || epoch.value < next.value) {
          next := epoch;
        }
      }
      assert nodes.Keys - {} == nodes.Keys;
      LeastIsNext(cfg, View(), nodes.Keys, next);
    }

    /** The epoch that a node has still to start, if it has not been released yet. */
    function UnreleasedEpoch(id: nat): Option<nat>
      requires id in nodes
      reads this, nodes[id], nodes[id].workload
    {
      var epoch := nodes[id].NextRequestEpoch();
      if epoch.Some? && releasedEpoch.Some? && epoch.value <= releasedEpoch.value then None else epoch
    }

    lemma UnreleasedIs(id: nat)
      requires id in nodes
      ensures UnreleasedEpoch(id) == Unreleased(View(), id)
    {
      AskedOf(id);
    }

    /** Starts a node whose next request belongs to the released epoch. */
    method StartNode(id: nat, epoch: nat)
      requires Valid()
      modifies scheduler, NodesRepr()
      ensures Valid() && nodes == old(nodes)
      ensures View() == ReleaseNode(old(View()), id, epoch)
    {
      hide ComputeNode.View, ComputeNode.Valid, Planned, ReleaseNode;
      ReleaseNodeIs(View(), id, epoch);
      if id !in nodes {
        return;
      }
      AskedOf(id);
      assert nodes[id] in nodes[id].Repr();
      if nodes[id].NextRequestEpoch() == Some(epoch) {
        var e := GenerateEvent(id, scheduler.currentTime + nodes[id].NextRequestIssueOffset());
        PlanFirst(id, e);
      }
    }

    method PlanFirst(id: nat, e: Event)
      requires Valid() && id in nodes
      modifies scheduler, nodes[id]
      ensures Valid() && nodes == old(nodes)
      ensures View() == Planned(old(View()), id, e)
    {
      OwnedByNone(id);
      hide ComputeNode.View, ComputeNode.Valid, ComputeNode.Repr, Scheduling.Schedule;
      Tell(id, Stamp(scheduler.View(), e));
      Plan(e);
    }

    /** Bookkeeping only: the node knows the event that will issue its next request. */
    ghost method Tell(id: nat, e: Event)
      requires Valid() && id in nodes
      modifies nodes[id]
      ensures Valid() && nodes == old(nodes)
      ensures NodeViews() == old(NodeViews())[id := old(NodeViews())[id].(generating := Some(e))]
    {
      hide ComputeNode.View, ComputeNode.Valid;
      OwnedByNone(id);
      assert Wired(id);
      nodes[id].Expect(e);
      forall k | k in nodes ensures Wired(k) && (k != id ==> nodes[k].View() == old(nodes[k].View())) {
        nodes[k].OwnsNoShared(scheduler, stats, table, memory);
        assert old(Wired(k)) && Separate(k, id);
        if k != id {
          Untouched(nodes[k]);
        }
      }
      forall a, b | a in nodes && b in nodes ensures Separate(a, b) {
        assert old(Separate(a, b));
      }
    }

    method Plan(e: Event)
      requires Valid()
      modifies scheduler
      ensures Valid() && NodeViews() == old(NodeViews())
      ensures scheduler.View() == Schedule(old(scheduler.View()), e)
    {
      hide ComputeNode.View, ComputeNode.Valid, Scheduling.Schedule;
      var accepted := scheduler.Schedule(e);
      forall k | k in nodes ensures Wired(k) && nodes[k].View() == old(nodes[k].View()) {
        nodes[k].OwnsNoShared(scheduler, stats, table, memory);
        assert old(Wired(k));
        Untouched(nodes[k]);
      }
      forall a, b | a in nodes && b in nodes ensures Separate(a, b) {
        assert old(Separate(a, b));
      }
    }

    method Announce(epoch: nat)
      requires Valid()
      modifies `releasedEpoch, `releases
      ensures Valid() && nodes == old(nodes) && View() == Releases.Announce(old(View()), epoch)
    {
      hide ComputeNode.View, ComputeNode.Valid, ComputeNode.Repr;
      forall k | k in nodes {
        OwnedByNone(k);
      }
      releasedEpoch := Some(epoch);
      releases := releases[epoch := scheduler.currentTime];
      forall k | k in nodes ensures nodes[k].View() == old(nodes[k].View()) && Wired(k) {
        assert old(Wired(k));
        Untouched(nodes[k]);
      }
      forall a, b | a in nodes && b in nodes ensures Separate(a, b) {
        assert old(Separate(a, b));
      }
    }

    /** When nothing is pending and no node waits, the least epoch that is still to be started. */
    method ReadyEpoch() returns (epoch: Option<nat>)
      requires nodes.Keys == (set i | 0 <= i < |cfg.nodes| :: cfg.nodes[i].id)
      ensures epoch == Releasable(cfg, View())
    {
      hide NextOf, ComputeNode.Repr;
      if scheduler.events != {} {
        return None;
      }
      var idle := AllComputeNodesIdle();
      if !idle {
        return None;
      }
      epoch := NextUnreleasedEpoch();
    }

    /** Releases the next epoch to the nodes that have requests in it. */
    method ReleaseNextEpochIfReady()
      requires Valid() && nodes.Keys == (set i | 0 <= i < |cfg.nodes| :: cfg.nodes[i].id)
      modifies `releasedEpoch, `releases, scheduler, NodesRepr()
      ensures Valid() && nodes == old(nodes) && View() == Release(cfg, old(View()))
    {
      hide Releasable, Release, ReleaseNodes, AllIdle;
      ReleaseIs(cfg, View());
      var next := ReadyEpoch();
      if next.Some? {
        ReleaseEpoch(next.value);
      }
    }

    method ReleaseEpoch(epoch: nat)
      requires Valid()
      modifies `releasedEpoch, `releases, scheduler, NodesRepr()
      ensures Valid() && nodes == old(nodes)
      ensures View() == ReleaseNodes(cfg, Releases.Announce(old(View()), epoch), epoch, |cfg.nodes|)
    {
      hide ReleaseNode, ComputeNode.View, ComputeNode.Valid;
      Announce(epoch);
      ghost var announced := View();
      for i := 0 to |cfg.nodes|
        invariant Valid() && nodes == old(nodes) && NodesRepr() == old(NodesRepr())
        invariant View() == ReleaseNodes(cfg, announced, epoch, i)
      {
        StartNode(cfg.nodes[i].id, epoch);
      }
    }

    /** Takes the next event out of the queue. */
    method PopEvent() returns (event: Event)
      requires Valid() && Orderly(scheduler.View()) && scheduler.events != {}
      modifies scheduler
      ensures Valid() && event == Least(old(scheduler.View())) && View() == Pick(old(View()), event)
    {
      var next := scheduler.PopNext();
      event := next.value;
      forall k | k in nodes ensures nodes[k].View() == old(nodes[k].View()) && Wired(k) {
        nodes[k].OwnsNoShared(scheduler, stats, table, memory);
        assert old(Wired(k));
        Untouched(nodes[k]);
      }
      forall a, b | a in nodes && b in nodes ensures Separate(a, b) {
        assert old(Separate(a, b));
      }
    }

    /** One turn of the event loop, in the state after `k` turns. */
    method HandleNext(ghost k: nat)
      requires Valid() && ValidConfig(cfg) && View() == Runs.Run(cfg, k) && scheduler.events != {}
      modifies this, scheduler, stats, table, memory, NodesRepr()
      ensures Valid() && nodes == old(nodes) && View() == Runs.Run(cfg, k + 1)
    {
      hide Release, Dispatch, Sound, Runs.Run, Turn, ValidConfig, ComputeNode.View, ComputeNode.Valid;
      RunParts(cfg, k);
      RunNext(cfg, k);
      var event := PopEvent();
      var ok := DispatchEvent(event);
      ReleaseNextEpochIfReady();
    }

    /** Runs the event loop until nothing is pending. It ends, and reaches the final state of the run. */
    method Run()
      requires Valid() && ValidConfig(cfg) && View() == Initial(cfg)
      modifies this, scheduler, stats, table, memory, NodesRepr()
      ensures Valid() && View() == Final(cfg)
    {
      InitialNodesAre(cfg, |cfg.nodes|);
      hide Release, Inv, Core, Runs.Run, Turn, ValidConfig, ComputeNode.View, ComputeNode.Valid, Turns;
      RunStarts(cfg);
      ReleaseNextEpochIfReady();
      ghost var k := 0;
      while scheduler.events != {}
        invariant Valid() && nodes == old(nodes) && View() == Runs.Run(cfg, k) && k <= Turns(cfg)
        decreases Turns(cfg) - k
      {
        MoreTurns(cfg, k);
        HandleNext(k);
        k := k + 1;
      }
      NoMoreTurns(cfg, k);
    }
  }

  lemma TurnParts(cfg: Config, s: State)
    requires Inv(cfg, s) && s.shared.queue.pending != {}
    ensures MemoryShape(cfg, s.memory) && Orderly(s.shared.queue) && CachesSound(s.nodes)
    ensures s.nodes.Keys == (set i | 0 <= i < |cfg.nodes| :: cfg.nodes[i].id)
    ensures var e := Least(s.shared.queue);
            Dispatch(cfg, Pick(s, e), e).Ok? && Turn(cfg, s) == Release(cfg, Dispatch(cfg, Pick(s, e), e).value)
  {
    DispatchKeeps(cfg, s, Least(s.shared.queue));
  }

  lemma RunParts(cfg: Config, k: nat)
    requires ValidConfig(cfg) && Runs.Run(cfg, k).shared.queue.pending != {}
    ensures var s := Runs.Run(cfg, k);
            && MemoryShape(cfg, s.memory) && Orderly(s.shared.queue) && CachesSound(s.nodes)
            && s.nodes.Keys == (set i | 0 <= i < |cfg.nodes| :: cfg.nodes[i].id)
            && var e := Least(s.shared.queue);
               Dispatch(cfg, Pick(s, e), e).Ok? && Turn(cfg, s) == Release(cfg, Dispatch(cfg, Pick(s, e), e).value)
  {
    hide Turn, Release, Dispatch, Runs.Run;
    RunKeeps(cfg, k);
    TurnParts(cfg, Runs.Run(cfg, k));
  }

  lemma RunNext(cfg: Config, k: nat)
    ensures Runs.Run(cfg, k + 1) == Turn(cfg, Runs.Run(cfg, k))
  {
    hide Turn;
  }

  lemma RunStarts(cfg: Config)
    ensures Runs.Run(cfg, 0) == Release(cfg, Initial(cfg))
  {
    hide Release;
  }

  /** A run that is not over has turns left. */
  lemma MoreTurns(cfg: Config, k: nat)
    requires ValidConfig(cfg) && k <= Turns(cfg) && Runs.Run(cfg, k).shared.queue.pending != {}
    ensures k < Turns(cfg)
  {
    hide Turn, Runs.Run;
    RunEnds(cfg);
  }

  /** A run that is over has reached its final state. */
  lemma {:induction false} NoMoreTurns(cfg: Config, k: nat)
    requires k <= Turns(cfg) && Runs.Run(cfg, k).shared.queue.pending == {}
    ensures Runs.Run(cfg, k) == Final(cfg)
    decreases Turns(cfg) - k
  {
    hide Step, Release;
    if k < Turns(cfg) {
      NoMoreTurns(cfg, k + 1);
    }
  }

  lemma InitialIs(cfg: Config)
    ensures InitialNodes(cfg, 0) == map[]
  {
  }

  lemma InitialNext(cfg: Config, i: nat)
    requires ValidConfig(cfg) && i < |cfg.nodes|
    ensures InitialNodes(cfg, i + 1) == InitialNodes(cfg, i)[cfg.nodes[i].id := NewNode(cfg, cfg.nodes[i].requests)]
    ensures cfg.nodes[i].id !in InitialNodes(cfg, i)
  {
    InitialNodesAre(cfg, i);
  }

  lemma DispatchIs(cfg: Config, s: State, e: Event)
    requires MemoryShape(cfg, s.memory)
    ensures var logged := s.(log := s.log + [EventRecord(e.time, e.kind, e.target, e.request)]);
            if e.target in s.nodes then
              var spec := NodeHandle(cfg, e.target, s.nodes[e.target], s.shared, e);
              (Dispatch(cfg, s, e).Ok? <==> spec.Ok?) &&
              (spec.Ok? ==> Dispatch(cfg, s, e).value ==
                            logged.(shared := spec.value.1, nodes := s.nodes[e.target := spec.value.0]))
            else if e.target == cfg.memoryNode then
              var spec := MemoryHandle(cfg, s.memory, s.shared, e);
              (Dispatch(cfg, s, e).Ok? <==> spec.Ok?) &&
              (spec.Ok? ==> Dispatch(cfg, s, e).value == logged.(shared := spec.value.1, memory := spec.value.0))
            else Dispatch(cfg, s, e).Fault?
  {
    hide NodeHandle, MemoryHandle;
  }

  ghost predicate LeastAmong(s: State, ids: set<nat>, next: Option<nat>) {
    (forall id :: id in ids && Unreleased(s, id).Some? ==> next.Some? && next.value <= Unreleased(s, id).value) &&
    (next.Some? ==> exists id :: id in ids && Unreleased(s, id) == next)
  }

  /** The epoch to be released next. */
  ghost function NextOf(cfg: Config, s: State): Option<nat> { NextEpoch(cfg, s, |cfg.nodes|) }

  /** A node of this state is to issue its next request by the given event. */
  ghost function Planned(s: State, id: nat, e: Event): State
    requires id in s.nodes
  {
    s.(shared := s.shared.(queue := Schedule(s.shared.queue, e)),
       nodes := s.nodes[id := s.nodes[id].(generating := Some(Stamp(s.shared.queue, e)))])
  }

  lemma ReleaseNodeIs(s: State, id: nat, epoch: nat)
    ensures ReleaseNode(s, id, epoch) ==
            if id in s.nodes && NextSpec(s.nodes[id]).Some? && NextSpec(s.nodes[id]).value.epoch == epoch
            then Planned(s, id, GenerateEvent(id, s.shared.queue.now + NextSpec(s.nodes[id]).value.offset)) else s
  {
  }

  /** The epoch to be released now, if one is to be released at all. */
  ghost function Releasable(cfg: Config, s: State): Option<nat> {
    if s.shared.queue.pending != {} || !AllIdle(s) then None else NextOf(cfg, s)
  }

  lemma ReleaseIs(cfg: Config, s: State)
    ensures Release(cfg, s) ==
            if Releasable(cfg, s).None? then s
            else ReleaseNodes(cfg, Releases.Announce(s, Releasable(cfg, s).value), Releasable(cfg, s).value,
                |cfg.nodes|)
  {
  }

  lemma LeastStep(s: State, seen: set<nat>, next: Option<nat>, id: nat)
    requires LeastAmong(s, seen, next)
    ensures var here := Unreleased(s, id);
            LeastAmong(s, seen + {id}, if here.Some? && (next.None? || here.value < next.value) then here else next)
  {
    hide Unreleased;
    if next.Some? {
      var k :| k in seen && Unreleased(s, k) == next;
      assert k in seen + {id};
    }
    assert id in seen + {id};
  }

  lemma LeastIsNext(cfg: Config, s: State, ids: set<nat>, next: Option<nat>)
    requires ids == (set i | 0 <= i < |cfg.nodes| :: cfg.nodes[i].id) && LeastAmong(s, ids, next)
    ensures next == NextOf(cfg, s)
  {
    NextEpochLeast(cfg, s, |cfg.nodes|);
    hide Unreleased;
    var other := NextEpoch(cfg, s, |cfg.nodes|);
    if next.Some? {
      var id :| id in ids && Unreleased(s, id) == next;
      var i :| 0 <= i < |cfg.nodes| && cfg.nodes[i].id == id;
      assert Unreleased(s, cfg.nodes[i].id).Some?;
    }
    if other.Some? {
      var i :| 0 <= i < |cfg.nodes| && Unreleased(s, cfg.nodes[i].id) == other;
      assert cfg.nodes[i].id in ids;
    }
  }
}
