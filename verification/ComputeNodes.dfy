/** A compute node as an object: its stream, its cache, and the handlers of its events. */
module ComputeNodes {
  import opened Model
  import opened Cache
  import opened Scheduling
  import opened Statistics
  import opened Protocol
  import opened Schedulers
  import opened Recorders
  import opened LocalCaches
  import opened MemoryNodes

  /** A stream of requests, read one by one. */
  class WorkloadCursor {
    const requests: seq<RequestSpec>
    var nextIndex: nat

    ghost predicate Valid()
      reads this
    {
      nextIndex <= |requests|
    }

    constructor (requests: seq<RequestSpec>)
      ensures this.requests == requests && nextIndex == 0
    {
      this.requests, nextIndex := requests, 0;
    }

    predicate HasNext()
      reads this
    {
      nextIndex < |requests|
    }

    function PeekNext(): RequestSpec
      requires HasNext()
      reads this
    {
      requests[nextIndex]
    }

    /** The current request; the cursor moves on. There is none exactly when the stream is exhausted. */
    method Next() returns (spec: Option<RequestSpec>)
      requires Valid()
      modifies this
      ensures Valid() && (spec.None? <==> old(nextIndex) == |requests|)
      ensures spec.None? ==> nextIndex == old(nextIndex)
      ensures spec.Some? ==> nextIndex == old(nextIndex) + 1 && spec.value == requests[old(nextIndex)]
    {
      if !HasNext() {
        return None;
      }
      spec := Some(requests[nextIndex]);
      nextIndex := nextIndex + 1;
    }
  }

  class ComputeNode {
    const cfg: Config
    const id: nat
    const workload: WorkloadCursor
    const cache: LocalCache
    const stats: Stats
    const table: RequestTable
    var outstanding: nat
    var currentEpoch: Option<nat>
    var currentEpochStart: nat
    ghost var generating: Option<Event>
    ghost var issued: seq<nat>

    function Repr(): set<object> { {this, workload} + cache.Repr() }

    ghost function View(): NodeState
      reads Repr()
    {
      NodeState(workload.requests, workload.nextIndex, outstanding, currentEpoch, currentEpochStart, cache.View(),
                generating, issued)
    }

    ghost predicate Valid()
      reads Repr()
    {
      workload.Valid() && cache.Valid() && LooksAt(cache.policy, stats)
    }

    constructor (cfg: Config, id: nat, requests: seq<RequestSpec>, cache: LocalCache, stats: Stats, table: RequestTable)
      requires cache.Valid() && LooksAt(cache.policy, stats) && cache.View() == NewCache(cfg.capacity, cfg.policy)
      ensures this.cfg == cfg && this.id == id && this.cache == cache && this.stats == stats && this.table == table
      ensures fresh(workload) && Valid() && View() == NewNode(cfg, requests)
    {
      this.cfg, this.id, this.cache, this.stats, this.table := cfg, id, cache, stats, table;
      outstanding, currentEpoch, currentEpochStart := 0, None, 0;
      generating, issued := None, [];
      workload := new WorkloadCursor(requests);
    }

    /** What the components share is not a node's own. */
    lemma OwnsNoShared(scheduler: Scheduler, s: Stats, t: RequestTable, m: MemoryNode)
      ensures {scheduler, s, t, m} !! Repr()
    {
    }

    function NextRequestEpoch(): Option<nat>
      reads this, workload
    {
      if workload.HasNext() then Some(workload.PeekNext().epoch) else None
    }

    function NextRequestIssueOffset(): nat
      reads this, workload
    {
      if workload.HasNext() then workload.PeekNext().offset else 0
    }

    /** Bookkeeping only: this event will issue the next request. */
    ghost method Expect(e: Event)
      requires Valid()
      modifies `generating
      ensures Valid() && View() == old(View()).(generating := Some(e))
    {
      generating := Some(e);
    }

    /** Tells the cache of a new epoch, and replaces its contents if there is a plan. */
    method StartEpochIfNeeded(epoch: nat, time: nat)
      requires Valid() && forall o :: o in cache.active ==> cache.active[o] < |cache.records|
      modifies Repr()
      ensures Valid() && View() == StartEpoch(cfg, id, old(View()), epoch, time, stats.objects)
    {
      hide EpochStart, Install;
      if currentEpoch == Some(epoch) {
        return;
      }
      currentEpoch := Some(epoch);
      cache.OnEpochStart(epoch, stats);
      if cfg.plan.Some? {
        cache.InstallReplicas(if epoch in cfg.plan.value then cfg.plan.value[epoch] else [], time, id, epoch);
      }
    }

    /** Counts a hit or a miss, and sends the request on its way. */
    method SendOn(event: Event, hit: bool, scheduler: Scheduler)
      requires table.Valid() && event.request in table.requests
      modifies scheduler, stats, table
      ensures table.Valid()
      ensures SharedView(scheduler, table, stats) ==
              LookedUp(cfg, id, old(SharedView(scheduler, table, stats)), event, hit)
    {
      hide RecordHit, RecordMiss, Scheduling.Schedule;
      ghost var t := table.tracks[event.request - 1];
      var request := table.requests[event.request].(stage := LocalLookup);
      if hit {
        stats.RecordCacheHit(id);
        var done := Event(event.time + cfg.hitLatency, LocalCacheHitComplete, id, event.request, 0);
        t := t.(request := request, phase := Hitting, event := Stamp(scheduler.View(), done), hit := true);
        table.Update(event.request, request, t);
        var accepted := scheduler.Schedule(done);
        return;
      }
      stats.RecordCacheMiss(id);
      request := request.(stage := ForwardedToMemory);
      var forward := Event(event.time + cfg.linkLatency, ForwardToMemory, cfg.memoryNode, event.request, 0);
      t := t.(request := request, phase := Forwarding, event := Stamp(scheduler.View(), forward));
      table.Update(event.request, request, t);
      var accepted := scheduler.Schedule(forward);
    }

    method HandleLocalCacheLookup(event: Event, scheduler: Scheduler) returns (ok: bool)
      requires Valid() && table.Valid()
      modifies Repr(), scheduler, stats, table
      ensures Valid() && table.Valid()
      ensures Follows(NodeLookup(cfg, id, old(View()), old(SharedView(scheduler, table, stats)), event), ok, View(),
                      SharedView(scheduler, table, stats))
    {
      hide Cache.Lookup, NodeLookup, LookedUp;
      LookupIs(cfg, id, View(), SharedView(scheduler, table, stats), event);
      if event.request !in table.requests {
        return false;
      }
      var request := table.requests[event.request].(stage := LocalLookup);
      var hit := cache.Lookup(request, event.time, stats);
      SendOn(event, hit, scheduler);
      ok := true;
    }

    /** Records the response to a request, which is completed by it. */
    method RecordResponse(event: Event, tier: Tier, bytes: nat, ghost q: Queue)
      requires table.Valid() && event.request in table.requests
      modifies stats, table
      ensures table.Valid()
      ensures (table.View(), stats.View()) == Recorded(id, old(table.View()), old(stats.View()), q, event, tier, bytes)
    {
      hide Statistics.RecordLatency;
      ghost var t := table.tracks[event.request - 1];
      var request := table.requests[event.request];
      var latency := Since(request.issueTime, event.time);
      ghost var place := |table.responses|;
      table.Respond(Response(event.request, request.obj, tier, event.time, latency, bytes));
      stats.RecordLatency(id, latency);
      request := request.(stage := Completed);
      t := t.(request := request, phase := Finishing, event := Stamp(q, CompleteEvent(id, event)), latency := latency,
              response := place);
      table.Update(event.request, request, t);
    }

    method HandleLocalCacheHitComplete(event: Event, scheduler: Scheduler) returns (ok: bool)
      requires Valid() && table.Valid()
      modifies `outstanding, scheduler, stats, table
      ensures Valid() && table.Valid()
      ensures Follows(NodeHitComplete(id, old(View()), old(SharedView(scheduler, table, stats)), event), ok, View(),
                      SharedView(scheduler, table, stats))
    {
      hide Respond, Recorded, Scheduling.Schedule;
      if event.request !in table.requests {
        return false;
      }
      RespondIs(id, View(), SharedView(scheduler, table, stats), event, LocalTier, 0);
      RecordResponse(event, LocalTier, 0, scheduler.View());
      ok := Answered(event, scheduler);
    }

    /** The request no longer counts as outstanding; its completion is scheduled. */
    method Answered(event: Event, scheduler: Scheduler) returns (ok: bool)
      requires Valid()
      modifies `outstanding, scheduler
      ensures Valid() && (ok <==> old(outstanding) > 0)
      ensures ok ==> View() == old(View()).(outstanding := old(outstanding) - 1)
      ensures ok ==> scheduler.View() == Scheduling.Schedule(old(scheduler.View()), CompleteEvent(id, event))
    {
      hide Scheduling.Schedule;
      if outstanding == 0 {
        return false;
      }
      outstanding := outstanding - 1;
      var accepted := scheduler.Schedule(CompleteEvent(id, event));
      ok := true;
    }

    /** Offers the object of a miss to the cache, whatever the cache decides. */
    method HandleReturnResponse(event: Event, scheduler: Scheduler) returns (ok: bool)
      requires Valid() && table.Valid() && Sound(cache.View())
      modifies Repr(), scheduler, stats, table
      ensures Valid() && table.Valid()
      ensures Follows(NodeReturn(id, old(View()), old(SharedView(scheduler, table, stats)), event), ok, View(),
                      SharedView(scheduler, table, stats))
    {
      hide Respond, Recorded, Cache.Admit, Sound, Scheduling.Schedule;
      if event.request !in table.requests {
        return false;
      }
      var request := table.requests[event.request];
      ghost var n := View().(cache := Cache.Admit(cache.View(), request, event.time));
      RespondIs(id, n, SharedView(scheduler, table, stats), event, MemoryTier, request.size);
      RecordResponse(event, MemoryTier, request.size, scheduler.View());
      var admitted := cache.Admit(request, event.time);
      assert View() == n;
      ok := Answered(event, scheduler);
    }

    /** Without planned arrivals, a completed request makes room for the next one of the same epoch. */
    method ScheduleNextIfDriven(scheduler: Scheduler)
      requires Valid()
      modifies `generating, scheduler
      ensures Valid()
      ensures var q, next := old(scheduler.View()), GenerateEvent(id, old(scheduler.currentTime));
              if Drives(cfg, old(View()))
              then scheduler.View() == Scheduling.Schedule(q, next) &&
                   View() == old(View()).(generating := Some(Stamp(q, next)))
              else scheduler.View() == q && View() == old(View())
    {
      hide Scheduling.Schedule;
      if cfg.mode == ScheduledBursty {
        return;
      }
      if workload.HasNext() && currentEpoch.Some? && workload.PeekNext().epoch == currentEpoch.value {
        var next := GenerateEvent(id, scheduler.currentTime);
        generating := Some(Stamp(scheduler.View(), next));
        var accepted := scheduler.Schedule(next);
      }
    }

    method HandleRequestComplete(event: Event, scheduler: Scheduler) returns (ok: bool)
      requires Valid() && table.Valid()
      modifies `generating, scheduler, table
      ensures Valid() && table.Valid()
      ensures Follows(NodeComplete(cfg, id, old(View()), old(SharedView(scheduler, table, stats)), event), ok, View(),
                      SharedView(scheduler, table, stats))
    {
      hide NodeComplete, Drives, Scheduling.Schedule;
      CompleteIs(cfg, id, View(), SharedView(scheduler, table, stats), event);
      table.Finish(event.request);
      ScheduleNextIfDriven(scheduler);
      ok := true;
    }

    /** In a bursty schedule the next arrival of the same epoch is planned as soon as a request has been issued. */
    method ScheduleNextBurstyRequestIfReady(scheduler: Scheduler)
      requires Valid()
      modifies `generating, scheduler
      ensures Valid()
      ensures var follow := FollowUp(cfg, id, old(View()));
              var q := old(scheduler.View());
              if follow.Some?
              then scheduler.View() == Scheduling.Schedule(q, follow.value) &&
                   View() == old(View()).(generating := Some(Stamp(q, follow.value)))
              else scheduler.View() == q && View() == old(View()).(generating := None)
    {
      hide Scheduling.Schedule;
      generating := None;
      if cfg.mode != ScheduledBursty || currentEpoch.None? || !workload.HasNext() ||
         workload.PeekNext().epoch != currentEpoch.value {
        return;
      }
      var next := GenerateEvent(id, currentEpochStart + workload.PeekNext().offset);
      generating := Some(Stamp(scheduler.View(), next));
      var accepted := scheduler.Schedule(next);
    }

    /** Enters a new request in the table and schedules its lookup. */
    method EnterRequest(spec: RequestSpec, time: nat, scheduler: Scheduler, ghost index: nat)
      requires table.Valid()
      modifies scheduler, table
      ensures table.Valid()
      ensures SharedView(scheduler, table, stats) == Entered(id, old(SharedView(scheduler, table, stats)), spec,
          index, time)
    {
      hide Scheduling.Schedule;
      var request := Request(table.nextId, id, spec.obj, time, spec.size, spec.epoch, Generated, 0);
      var lookup := Event(time, LocalCacheLookup, id, request.id, 0);
      ghost var t := Track(request, Looking, Stamp(scheduler.View(), lookup), index, false, 0, 0, 0, 0, 0);
      table.Enter(request, t);
      var accepted := scheduler.Schedule(lookup);
    }

    /** Takes the next request of the stream, starting its epoch if it is a new one. */
    method TakeNext(time: nat, ghost request: nat) returns (next: Option<RequestSpec>)
      requires Valid() && forall o :: o in cache.active ==> cache.active[o] < |cache.records|
      modifies Repr()
      ensures Valid() && next == NextSpec(old(View()))
      ensures View() == if next.None? then old(View())
                        else Issuing(cfg, id, old(View()), next.value, time, stats.objects, request)
    {
      hide StartEpoch, Issuing;
      ghost var n := View();
      next := workload.Next();
      if next.None? {
        return;
      }
      var spec := next.value;
      if cfg.mode == ScheduledBursty {
        currentEpochStart := Since(spec.offset, time);
      }
      IssuingIs(cfg, id, n, spec, time, stats.objects, request);
      StartEpochIfNeeded(spec.epoch, time);
      Count(request);
    }

    method Count(ghost request: nat)
      requires Valid()
      modifies `outstanding, `issued
      ensures Valid()
      ensures View() == old(View()).(outstanding := old(outstanding) + 1, issued := old(issued) + [request])
    {
      outstanding := outstanding + 1;
      issued := issued + [request];
    }

    /** Enters the request, and plans the arrival of the next one. */
    method Launch(spec: RequestSpec, time: nat, scheduler: Scheduler, ghost index: nat)
      requires Valid() && table.Valid()
      modifies `generating, scheduler, table
      ensures Valid() && table.Valid()
      ensures (View(), SharedView(scheduler, table, stats)) ==
              Launched(cfg, id, old(View()), old(SharedView(scheduler, table, stats)), spec, index, time)
    {
      hide Entered, FollowUp, Scheduling.Schedule;
      EnterRequest(spec, time, scheduler, index);
      ScheduleNextBurstyRequestIfReady(scheduler);
    }

    /** Bookkeeping only: nothing is pending that would issue another request. */
    ghost method Rest()
      requires Valid()
      modifies `generating
      ensures Valid() && View() == old(View()).(generating := None)
    {
      generating := None;
    }

    method HandleGenerateRequest(event: Event, scheduler: Scheduler) returns (ok: bool)
      requires Valid() && table.Valid() && forall o :: o in cache.active ==> cache.active[o] < |cache.records|
      modifies Repr(), scheduler, table
      ensures Valid() && table.Valid()
      ensures Follows(NodeGenerate(cfg, id, old(View()), old(SharedView(scheduler, table, stats)), event), ok, View(),
                      SharedView(scheduler, table, stats))
    {
      hide NodeGenerate, Issuing, Launched;
      GenerateIs(cfg, id, View(), SharedView(scheduler, table, stats), event);
      ok := true;
      ghost var index := workload.nextIndex;
      var next := TakeNext(event.time, table.nextId);
      if next.None? {
        Rest();
        return;
      }
      Launch(next.value, event.time, scheduler, index);
    }

    /** Hands an event to its handler; false stands for an exception. */
    method HandleEvent(event: Event, scheduler: Scheduler) returns (ok: bool)
      requires Valid() && table.Valid() && Sound(cache.View())
      modifies Repr(), scheduler, stats, table
      ensures Valid() && table.Valid()
      ensures Follows(NodeHandle(cfg, id, old(View()), old(SharedView(scheduler, table, stats)), event), ok, View(),
                      SharedView(scheduler, table, stats))
    {
      hide NodeGenerate, NodeLookup, NodeHitComplete, NodeReturn, NodeComplete;
      match event.kind
      case GenerateRequest =>
        PlacementsKnown(cache.View());
        ok := HandleGenerateRequest(event, scheduler);
      case LocalCacheLookup => ok := HandleLocalCacheLookup(event, scheduler);
      case LocalCacheHitComplete => ok := HandleLocalCacheHitComplete(event, scheduler);
      case ReturnResponse => ok := HandleReturnResponse(event, scheduler);
      case RequestComplete => ok := HandleRequestComplete(event, scheduler);
      case _ => ok := false;
    }
  }

  /** What all components share, after the lookup of a request has hit or missed. */
  ghost function LookedUp(cfg: Config, id: nat, sh: Shared, e: Event, hit: bool): Shared
    requires Known(sh, e.request)
  {
    var t := TrackOf(sh, e.request);
    var r := t.request.(stage := LocalLookup);
    if hit then
      var done := Event(e.time + cfg.hitLatency, LocalCacheHitComplete, id, e.request, 0);
      var t' := t.(request := r, phase := Hitting, event := Stamp(sh.queue, done), hit := true);
      Shared(Scheduling.Schedule(sh.queue, done), SetTrack(sh.ledger, e.request, t'), RecordHit(sh.stats, id))
    else
      var forward := Event(e.time + cfg.linkLatency, ForwardToMemory, cfg.memoryNode, e.request, 0);
      var t' := t.(request := r.(stage := ForwardedToMemory), phase := Forwarding, event := Stamp(sh.queue, forward));
      Shared(Scheduling.Schedule(sh.queue, forward), SetTrack(sh.ledger, e.request, t'), RecordMiss(sh.stats, id))
  }

  lemma LookupIs(cfg: Config, id: nat, n: NodeState, sh: Shared, e: Event)
    ensures NodeLookup(cfg, id, n, sh, e) ==
            if !Known(sh, e.request) then Fault(UnknownRequest)
            else
              var r := TrackOf(sh, e.request).request.(stage := LocalLookup);
              Ok((n.(cache := Cache.Lookup(n.cache, r, e.time, sh.stats.objects)),
                  LookedUp(cfg, id, sh, e, r.obj in n.cache.entries)))
  {
  }

  function CompleteEvent(id: nat, e: Event): Event {
    Event(e.time, RequestComplete, id, e.request, 0)
  }

  /** The request table and the statistics, after a request has been answered. */
  ghost function Recorded(id: nat, l: Ledger, stats: StatsState, q: Queue, e: Event, tier: Tier, bytes: nat)
    : (Ledger, StatsState)
    requires 1 <= e.request <= |l.tracks|
  {
    var t := l.tracks[e.request - 1];
    var latency := Since(t.request.issueTime, e.time);
    (Ledger(l.tracks[e.request - 1 :=
              t.(request := t.request.(stage := Completed), phase := Finishing, event := Stamp(q, CompleteEvent(id, e)),
                 latency := latency, response := |l.responses|)],
            l.responses + [Response(e.request, t.request.obj, tier, e.time, latency, bytes)]),
     Statistics.RecordLatency(stats, id, latency))
  }

  lemma RespondIs(id: nat, n: NodeState, sh: Shared, e: Event, tier: Tier, bytes: nat)
    requires Known(sh, e.request)
    ensures Respond(id, n, sh, e, tier, bytes) ==
            if n.outstanding == 0 then Fault(OutstandingUnderflow)
            else
              var (ledger, stats) := Recorded(id, sh.ledger, sh.stats, sh.queue, e, tier, bytes);
              Ok((n.(outstanding := n.outstanding - 1),
                  Shared(Scheduling.Schedule(sh.queue, CompleteEvent(id, e)), ledger, stats)))
  {
  }

  /** The completion of a request makes this node issue the next one. */
  predicate Drives(cfg: Config, n: NodeState) {
    cfg.mode == CompletionDriven && NextSpec(n).Some? && n.epoch == Some(NextSpec(n).value.epoch)
  }

  lemma CompleteIs(cfg: Config, id: nat, n: NodeState, sh: Shared, e: Event)
    ensures var ledger := FinishTrack(sh.ledger, e.request);
            var next := GenerateEvent(id, sh.queue.now);
            NodeComplete(cfg, id, n, sh, e) ==
            if Drives(cfg, n)
            then Ok((n.(generating := Some(Stamp(sh.queue, next))),
                     Shared(Scheduling.Schedule(sh.queue, next), ledger, sh.stats)))
            else Ok((n, Shared(sh.queue, ledger, sh.stats)))
  {
  }

  /** What all components share, after a request has been entered. */
  ghost function Entered(id: nat, sh: Shared, spec: RequestSpec, index: nat, time: nat): Shared {
    var request := Request(|sh.ledger.tracks| + 1, id, spec.obj, time, spec.size, spec.epoch, Generated, 0);
    var lookup := Event(time, LocalCacheLookup, id, request.id, 0);
    var track := Track(request, Looking, Stamp(sh.queue, lookup), index, false, 0, 0, 0, 0, 0);
    sh.(queue := Scheduling.Schedule(sh.queue, lookup), ledger := sh.ledger.(tracks := sh.ledger.tracks + [track]))
  }

  lemma PlacementsKnown(c: CacheState)
    requires Sound(c)
    ensures forall o :: o in c.active ==> c.active[o] < |c.records|
  {
  }

  /** The node after it has taken its next request. */
  ghost function Issuing(cfg: Config, id: nat, n: NodeState, spec: RequestSpec, time: nat, telemetry: Telemetry,
                         request: nat): NodeState
  {
    var base := if cfg.mode == ScheduledBursty then Since(spec.offset, time) else n.epochStart;
    var started := StartEpoch(cfg, id, n.(epochStart := base), spec.epoch, time, telemetry);
    started.(next := n.next + 1, outstanding := n.outstanding + 1, issued := n.issued + [request])
  }

  /** The cursor may move on before the epoch starts. */
  lemma IssuingIs(cfg: Config, id: nat, n: NodeState, spec: RequestSpec, time: nat, telemetry: Telemetry, request: nat)
    ensures var base := if cfg.mode == ScheduledBursty then Since(spec.offset, time) else n.epochStart;
            var started := StartEpoch(cfg, id, n.(epochStart := base, next := n.next + 1), spec.epoch, time, telemetry);
            && started.outstanding == n.outstanding && started.issued == n.issued
            && Issuing(cfg, id, n, spec, time, telemetry, request) ==
               started.(outstanding := n.outstanding + 1, issued := n.issued + [request])
  {
  }

  /** The node and what all components share, after a request has been entered and the next arrival planned. */
  ghost function Launched(cfg: Config, id: nat, n: NodeState, sh: Shared, spec: RequestSpec, index: nat, time: nat)
    : (NodeState, Shared)
  {
    var entered := Entered(id, sh, spec, index, time);
    var follow := FollowUp(cfg, id, n);
    if follow.Some?
    then (n.(generating := Some(Stamp(entered.queue, follow.value))),
          entered.(queue := Scheduling.Schedule(entered.queue, follow.value)))
    else (n.(generating := None), entered)
  }

  lemma GenerateIs(cfg: Config, id: nat, n: NodeState, sh: Shared, e: Event)
    ensures NodeGenerate(cfg, id, n, sh, e) ==
            if NextSpec(n).None? then Ok((n.(generating := None), sh))
            else
              var spec := NextSpec(n).value;
              var issued := Issuing(cfg, id, n, spec, e.time, sh.stats.objects, |sh.ledger.tracks| + 1);
              Ok(Launched(cfg, id, issued, sh, spec, n.next, e.time))
  {
    hide StartEpoch, FollowUp;
  }
}
