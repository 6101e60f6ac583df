/** From a configuration, of a synthetic workload or of explicit streams, to a finished simulation. */
module EndToEnd {
  import opened Model
  import opened Policies
  import opened Protocol
  import opened Invariants
  import opened Runs
  import opened Workloads
  import opened HotSets
  import opened Generator
  import opened Oracle
  import opened OracleRuns
  import opened ReplicaPlans
  import opened Simulators

  /** The parameters of the simulated machine. */
  datatype Machine = Machine(memoryNode: nat, linkLatency: nat, baseLatency: nat, bandwidth: nat, hitLatency: nat,
                             capacity: nat)

  /** The configuration of a run takes every parameter from the machine, and the policy as it is. */
  predicate Built(cfg: Config, machine: Machine, channels: nat, policy: Policy) {
    && cfg.memoryNode == machine.memoryNode && cfg.linkLatency == machine.linkLatency
    && cfg.baseLatency == machine.baseLatency && cfg.bandwidth == machine.bandwidth && cfg.channels == channels
    && cfg.hitLatency == machine.hitLatency && cfg.capacity == machine.capacity && cfg.policy == policy
  }

  /** The configurations that are run: an acceptable workload, and a memory node apart from the compute nodes. */
  predicate Runnable(config: WorkloadConfig, machine: Machine) {
    Acceptable(config) && machine.bandwidth > 0 && machine.memoryNode !in config.nodes
  }

  lemma {:induction false} GeneratedCount(config: WorkloadConfig, draws: Draws, layouts: seq<Segments>,
                                          nodes: seq<NodeConfig>, k: nat)
    requires config.burstSize > 0 && AllStreamsOk(config, draws, layouts, nodes) && k <= |nodes|
    ensures RequestCount(nodes[..k]) == k * (|layouts| * config.requestsPerEpoch)
  {
    hide InEpoch;
    if k > 0 {
      GeneratedCount(config, draws, layouts, nodes, k - 1);
      assert nodes[..k][..k - 1] == nodes[..k - 1];
      assert StreamOk(config, draws, layouts, k - 1, nodes[k - 1].requests);
      OneMoreGroup(k - 1, |layouts| * config.requestsPerEpoch);
    }
  }

  /** The streams that the simulator accepts, wherever they come from. */
  predicate StreamsValid(nodes: seq<NodeConfig>, memoryNode: nat) {
    && (forall i, j :: 0 <= i < j < |nodes| ==> nodes[i].id != nodes[j].id)
    && (forall i :: 0 <= i < |nodes| ==> nodes[i].id != memoryNode && SortedByEpoch(nodes[i].requests))
  }

  method RequestsSorted(requests: seq<RequestSpec>) returns (sorted: bool)
    ensures sorted <==> SortedByEpoch(requests)
  {
    var i := 1;
    while i < |requests|
      invariant 1 <= i
      invariant forall a, b :: 0 <= a < b < i && b < |requests| ==> requests[a].epoch <= requests[b].epoch
    {
      if requests[i].epoch < requests[i - 1].epoch {
        return false;
      }
      i := i + 1;
    }
    return true;
  }

  /** Rejects the memory node among the compute nodes, a repeated identifier, and a stream that goes back. */
  method ValidateConfig(nodes: seq<NodeConfig>, memoryNode: nat) returns (ok: bool)
    ensures ok <==> StreamsValid(nodes, memoryNode)
  {
    var seen: set<nat> := {};
    for i := 0 to |nodes|
      invariant seen == set j | 0 <= j < i :: nodes[j].id
      invariant StreamsValid(nodes[..i], memoryNode)
    {
      if nodes[i].id == memoryNode || nodes[i].id in seen {
        return false;
      }
      var sorted := RequestsSorted(nodes[i].requests);
      if !sorted {
        return false;
      }
      seen := seen + {nodes[i].id};
    }
    assert nodes[..|nodes|] == nodes;
    return true;
  }

  lemma GeneratedStreams(config: WorkloadConfig, draws: Draws, layouts: seq<Segments>, nodes: seq<NodeConfig>,
                         memoryNode: nat)
    requires Acceptable(config) && AllStreamsOk(config, draws, layouts, nodes)
    ensures StreamsValid(nodes, memoryNode) <==> memoryNode !in config.nodes
    ensures forall i :: 0 <= i < |nodes| ==> OffsetsAscend(nodes[i].requests)
  {
    hide StreamOk, CapacityChecks;
    forall i | 0 <= i < |nodes|
      ensures nodes[i].id == config.nodes[i] && SortedByEpoch(nodes[i].requests) && OffsetsAscend(nodes[i].requests)
    {
      assert StreamOk(config, draws, layouts, i, nodes[i].requests);
      StreamIsValid(config, draws, layouts, i, nodes[i].requests);
    }
  }

  /** What every finished run can be relied on for. */
  ghost predicate Finished(cfg: Config, s: State, requests: nat) {
    && s.shared.queue.pending == {} && s.shared.queue.refused == 0
    && |s.shared.ledger.responses| == s.shared.stats.hits + s.shared.stats.misses == requests
    && |s.log| == 4 * s.shared.stats.hits + 7 * s.shared.stats.misses
    && s.shared.stats.totalLatency ==
       s.shared.stats.hits * cfg.hitLatency + s.shared.stats.misses * (2 * cfg.linkLatency) +
       s.shared.stats.totalWait + RecordedService(s.shared.stats.objects)
  }

  lemma FinalFinished(cfg: Config)
    requires ValidConfig(cfg)
    ensures Finished(cfg, Final(cfg), RequestCount(cfg.nodes))
  {
    hide Runs.Run;
    RunEnds(cfg);
    NothingThrown(cfg, Turns(cfg));
    EventsPerRequest(cfg);
    LatencyAddsUp(cfg);
  }

  /** A configuration that has been checked is run to its end. */
  method Simulate(cfg: Config) returns (simulator: Simulator)
    requires ValidConfig(cfg) && Simulator.StartsFresh(cfg.policy)
    ensures simulator.View() == Final(cfg) && Finished(cfg, Final(cfg), RequestCount(cfg.nodes))
  {
    hide ValidConfig, Initial, Final, Finished;
    simulator := new Simulator(cfg);
    simulator.Run();
    FinalFinished(cfg);
  }

  /**
   * Generates the workload, plans the replicas if the policy is the oracle, and runs the simulation. It is rejected
   * exactly if it is not runnable, and otherwise finishes with every request of every node and epoch answered.
   */
  method RunSynthetic(config: WorkloadConfig, draws: Draws, machine: Machine, policy: Policy)
    returns (simulator: Option<Simulator>, ghost cfg: Config, ghost candidates: seq<nat>, ghost layouts: seq<Segments>)
    requires IsShuffle(config, draws.shuffled) && Simulator.StartsFresh(policy)
    ensures simulator.None? <==> !Runnable(config, machine)
    ensures simulator.Some? ==>
              && ValidConfig(cfg) && simulator.value.View() == Final(cfg) && cfg.mode == config.issueMode
              && Finished(cfg, Final(cfg), |config.nodes| * (config.epochs * config.requestsPerEpoch))
              && Built(cfg, machine, config.memoryChannels, policy)
              && LayoutsOk(config, candidates, layouts) && |layouts| == config.epochs
              && config.burstSize > 0 && AllStreamsOk(config, draws, layouts, cfg.nodes)
              && (if policy == GlobalHottest then RunsOracle(cfg) else cfg.plan.None?)
  {
    hide AllStreamsOk, LayoutsOk, LaidOutFrom, HotSetsOf, IsPlan, Acceptable, ValidConfig, Final, Finished, IsShuffle,
         StreamsValid;
    cfg := Config([], 0, 0, 0, 0, 0, 0, 0, policy, config.issueMode, None);
    var workload;
    ghost var cursors;
    workload, candidates, layouts, cursors := GenerateSyntheticWorkload(config, draws);
    if workload.None? {
      return None, cfg, candidates, layouts;
    }
    var nodes := workload.value.nodes;
    var valid := ValidateConfig(nodes, machine.memoryNode);
    IsAcceptable(config);
    GeneratedStreams(config, draws, layouts, nodes, machine.memoryNode);
    if !valid || machine.bandwidth == 0 {
      return None, cfg, candidates, layouts;
    }
    var plan := PlanFor(policy, nodes);
    var c := Config(nodes, machine.memoryNode, machine.linkLatency, machine.baseLatency, machine.bandwidth,
                    config.memoryChannels, machine.hitLatency, machine.capacity, policy, config.issueMode, plan);
    cfg := c;
    Accepted(config, draws, layouts, cfg);
    var sim := Simulate(c);
    simulator := Some(sim);
  }

  lemma IsAcceptable(config: WorkloadConfig)
    ensures Acceptable(config) ==> config.memoryChannels > 0 && config.burstSize > 0
  {
  }

  lemma Accepted(config: WorkloadConfig, draws: Draws, layouts: seq<Segments>, cfg: Config)
    requires Acceptable(config) && AllStreamsOk(config, draws, layouts, cfg.nodes) && |layouts| == config.epochs
    requires cfg.mode == config.issueMode && cfg.channels == config.memoryChannels && cfg.bandwidth > 0
    requires StreamsValid(cfg.nodes, cfg.memoryNode)
    ensures ValidConfig(cfg)
    ensures RequestCount(cfg.nodes) == |config.nodes| * (config.epochs * config.requestsPerEpoch)
  {
    hide CapacityChecks;
    GeneratedStreams(config, draws, layouts, cfg.nodes, cfg.memoryNode);
    GeneratedCount(config, draws, layouts, cfg.nodes, |cfg.nodes|);
    assert cfg.nodes[..|cfg.nodes|] == cfg.nodes;
  }

  /** What is demanded of explicit streams; the oracle policy is for synthetic workloads only. */
  predicate ExplicitRunnable(nodes: seq<NodeConfig>, channels: nat, machine: Machine, policy: Policy) {
    channels > 0 && machine.bandwidth > 0 && policy != GlobalHottest && StreamsValid(nodes, machine.memoryNode)
  }

  /**
   * Runs explicit streams, each request driven by the completion of the one before. They are rejected exactly if they
   * are not runnable, and otherwise finish with every request answered.
   */
  method RunExplicit(nodes: seq<NodeConfig>, channels: nat, machine: Machine, policy: Policy)
    returns (simulator: Option<Simulator>, ghost cfg: Config)
    requires Simulator.StartsFresh(policy)
    ensures simulator.None? <==> !ExplicitRunnable(nodes, channels, machine, policy)
    ensures simulator.Some? ==>
              && ValidConfig(cfg) && simulator.value.View() == Final(cfg) && cfg.mode == CompletionDriven
              && cfg.nodes == nodes && cfg.plan.None? && Built(cfg, machine, channels, policy)
              && Finished(cfg, Final(cfg), RequestCount(nodes))
  {
    hide Final, Finished, RequestCount;
    var c := Config(nodes, machine.memoryNode, machine.linkLatency, machine.baseLatency, machine.bandwidth, channels,
                    machine.hitLatency, machine.capacity, policy, CompletionDriven, None);
    cfg := c;
    if channels == 0 || policy == GlobalHottest {
      return None, cfg;
    }
    var valid := ValidateConfig(nodes, machine.memoryNode);
    if !valid || machine.bandwidth == 0 {
      return None, cfg;
    }
    var sim := Simulate(c);
    simulator := Some(sim);
  }
}
