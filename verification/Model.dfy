/** The values that the simulator passes around: requests, responses, telemetry and configuration. */
module Model {

  datatype Option<+T> = None | Some(value: T)

  datatype RequestStage = Generated | LocalLookup | ForwardedToMemory | WaitingForResponse | Completed

  datatype RequestSpec = RequestSpec(obj: nat, size: nat, epoch: nat, offset: nat)

  datatype Request = Request(id: nat, source: nat, obj: nat, issueTime: nat, size: nat, epoch: nat,
                             stage: RequestStage, enqueueTime: nat)

  datatype Tier = LocalTier | MemoryTier

  datatype Response = Response(request: nat, obj: nat, tier: Tier, completionTime: nat, latency: nat,
                               bytes: nat)

  /** Remote-access telemetry of one object in one epoch. */
  datatype ObjectBucket = ObjectBucket(accesses: nat, requesters: set<nat>, bytes: nat, serviceTime: nat,
                                       queueWait: nat, maxQueueWait: nat, waitSamples: nat, maxDepth: nat)

  /** Telemetry by epoch, then by object. */
  type Telemetry = map<nat, map<nat, ObjectBucket>>

  datatype Replica = Replica(obj: nat, size: nat)

  type ReplicaPlan = map<nat, seq<Replica>>

  datatype IssueMode = CompletionDriven | ScheduledBursty

  /** Objects are spread over the memory channels by their one-based identifier. */
  function ChannelOf(obj: nat, channels: nat): (c: nat)
    requires channels > 0
    ensures c < channels
  {
    if obj == 0 then 0 else (obj - 1) % channels
  }
}
