/** The request table and the memory node as objects. */
module MemoryNodes {
  import opened Model
  import opened Scheduling
  import opened Statistics
  import opened Protocol
  import opened Schedulers
  import opened Recorders

  function FinishTrack(l: Ledger, request: nat): Ledger {
    if 1 <= request <= |l.tracks| then SetTrack(l, request, l.tracks[request - 1].(phase := Finished)) else l
  }

  /** The table of all requests, the responses so far and the next request number, which every component shares. */
  class RequestTable {
    var requests: map<nat, Request>
    var responses: seq<Response>
    var nextId: nat
    ghost var tracks: seq<Track>

    ghost function View(): Ledger
      reads this
    {
      Ledger(tracks, responses)
    }

    /** Requests are numbered from one, and the bookkeeping follows the table. */
    ghost predicate Valid()
      reads this
    {
      && nextId == |tracks| + 1
      && (forall id :: id in requests <==> 1 <= id <= |tracks|)
      && (forall id :: id in requests ==> requests[id] == tracks[id - 1].request)
    }

    constructor ()
      ensures Valid() && View() == Ledger([], [])
    {
      requests, responses, nextId, tracks := map[], [], 1, [];
    }

    /** Enters a request under the next number. */
    method Enter(r: Request, ghost t: Track)
      requires Valid() && r.id == nextId && t.request == r
      modifies this
      ensures Valid() && View() == old(View()).(tracks := old(tracks) + [t])
    {
      requests := requests[r.id := r];
      nextId := nextId + 1;
      tracks := tracks + [t];
    }

    /** Writes back a request that has been changed. */
    method Update(id: nat, r: Request, ghost t: Track)
      requires Valid() && id in requests && t.request == r
      modifies `requests, `tracks
      ensures Valid() && View() == SetTrack(old(View()), id, t)
    {
      requests := requests[id := r];
      tracks := tracks[id - 1 := t];
    }

    /** Bookkeeping only: nothing more is to come for a request. */
    ghost method Finish(id: nat)
      requires Valid()
      modifies `tracks
      ensures Valid() && View() == FinishTrack(old(View()), id)
    {
      if 1 <= id <= |tracks| {
        tracks := tracks[id - 1 := tracks[id - 1].(phase := Finished)];
      }
    }

    method Respond(response: Response)
      requires Valid()
      modifies `responses
      ensures Valid() && responses == old(responses) + [response]
    {
      responses := responses + [response];
    }
  }

  ghost function SharedView(scheduler: Scheduler, table: RequestTable, stats: Stats): Shared
    reads scheduler, table, stats
  {
    Shared(scheduler.View(), table.View(), stats.View())
  }

  /** Whether a handler has done what its specification says: thrown, or reached this state. */
  ghost predicate Follows<T>(spec: Outcome<(T, Shared)>, ok: bool, state: T, sh: Shared) {
    (ok <==> spec.Ok?) && (ok ==> spec.value == (state, sh))
  }

  class MemoryNode {
    const cfg: Config
    const stats: Stats
    const table: RequestTable
    var channels: seq<ChannelState>
    ghost var logs: seq<ChannelLog>

    ghost function View(): MemoryState
      reads this
    {
      MemoryState(channels, logs)
    }

    constructor (cfg: Config, stats: Stats, table: RequestTable)
      ensures this.cfg == cfg && this.stats == stats && this.table == table
      ensures View() == Initial(cfg).memory
    {
      this.cfg, this.stats, this.table := cfg, stats, table;
      channels := seq(cfg.channels, i => ChannelState([], false, false));
      logs := seq(cfg.channels, i => ChannelLog([], [], [], Event(0, MemoryServiceStart, 0, 0, 0)));
    }

    /** Enqueues a request at its channel, and starts an idle channel. */
    method HandleForwardToMemory(event: Event, scheduler: Scheduler) returns (ok: bool)
      requires MemoryShape(cfg, View()) && table.Valid()
      modifies this, scheduler, stats, table
      ensures table.Valid() && MemoryShape(cfg, View())
      ensures Follows(MemoryForward(cfg, old(View()), old(SharedView(scheduler, table, stats)), event), ok, View(),
                      SharedView(scheduler, table, stats))
    {
      hide ObserveDepth, Statistics.RecordRemoteAccess, Scheduling.Schedule;
      if event.request !in table.requests {
        return false;
      }
      ghost var t := table.tracks[event.request - 1];
      var request := table.requests[event.request];
      var c := ChannelOf(request.obj, cfg.channels);
      request := request.(enqueueTime := event.time);
      var channel := channels[c].(queued := channels[c].queued + [event.request]);
      ghost var log := logs[c].(arrivals := logs[c].arrivals + [Arrival(event.request, event.time, request.size)]);
      stats.ObserveMemoryQueueDepth(|channel.queued|);
      stats.RecordRemoteAccess(request, c, |channel.queued|);
      table.Update(event.request, request, t.(request := request, phase := Queued, place := |logs[c].arrivals|));
      if !channel.busy && !channel.startScheduled {
        channel := channel.(startScheduled := true);
        var start := StartEvent(cfg, event.time, channel.queued[0]);
        log := log.(start := Stamp(scheduler.View(), start));
        var accepted := scheduler.Schedule(start);
      }
      channels, logs := channels[c := channel], logs[c := log];
      ok := true;
    }

    /** Begins the service of the request at the head of a channel's queue. */
    method HandleMemoryServiceStart(event: Event, scheduler: Scheduler) returns (ok: bool)
      requires MemoryShape(cfg, View()) && table.Valid()
      modifies this, scheduler, stats, table
      ensures table.Valid() && MemoryShape(cfg, View())
      ensures Follows(MemoryStart(cfg, old(View()), old(SharedView(scheduler, table, stats)), event), ok, View(),
                      SharedView(scheduler, table, stats))
    {
      hide Statistics.RecordMemoryWait, RecordQueueWait, Scheduling.Schedule, ServiceTime;
      if event.request !in table.requests {
        return false;
      }
      ghost var t := table.tracks[event.request - 1];
      var request := table.requests[event.request];
      var c := ChannelOf(request.obj, cfg.channels);
      if channels[c].queued == [] || channels[c].queued[0] != event.request {
        return false;
      }
      request := request.(stage := WaitingForResponse);
      var wait := Since(request.enqueueTime, event.time);
      stats.RecordMemoryWait(wait);
      stats.RecordObjectQueueWait(request, c, wait);
      var done := Event(event.time + ServiceTime(cfg, request.size), MemoryServiceComplete, cfg.memoryNode,
          event.request, 0);
      table.Update(event.request, request,
                   t.(request := request, phase := Serving, event := Stamp(scheduler.View(), done), wait := wait));
      var accepted := scheduler.Schedule(done);
      channels := channels[c := ChannelState(channels[c].queued[1..], true, false)];
      logs := logs[c := logs[c].(starts := logs[c].starts + [event.time])];
      ok := true;
    }

    /** Ends a service, sends the response back, and starts the next request of the channel. */
    method HandleMemoryServiceComplete(event: Event, scheduler: Scheduler) returns (ok: bool)
      requires MemoryShape(cfg, View()) && table.Valid()
      modifies this, scheduler, stats, table
      ensures table.Valid() && MemoryShape(cfg, View())
      ensures Follows(MemoryComplete(cfg, old(View()), old(SharedView(scheduler, table, stats)), event), ok, View(),
                      SharedView(scheduler, table, stats))
    {
      hide RecordService, Scheduling.Schedule, ServiceTime;
      if event.request !in table.requests {
        return false;
      }
      ghost var t := table.tracks[event.request - 1];
      var request := table.requests[event.request];
      var c := ChannelOf(request.obj, cfg.channels);
      if !channels[c].busy {
        return false;
      }
      var channel := channels[c].(busy := false);
      var service := ServiceTime(cfg, request.size);
      stats.RecordObjectService(request, c, service);
      var back := Event(event.time + cfg.linkLatency, ReturnResponse, request.source, event.request, 0);
      table.Update(event.request, request,
                   t.(phase := Returning, event := Stamp(scheduler.View(), back), service := service));
      var accepted := scheduler.Schedule(back);
      ghost var log := logs[c].(dones := logs[c].dones + [event.time]);
      if channel.queued != [] {
        channel := channel.(startScheduled := true);
        var start := StartEvent(cfg, event.time, channel.queued[0]);
        log := log.(start := Stamp(scheduler.View(), start));
        accepted := scheduler.Schedule(start);
      }
      channels, logs := channels[c := channel], logs[c := log];
      ok := true;
    }

    /** Hands an event to its handler; false stands for an exception. */
    method HandleEvent(event: Event, scheduler: Scheduler) returns (ok: bool)
      requires MemoryShape(cfg, View()) && table.Valid()
      modifies this, scheduler, stats, table
      ensures table.Valid() && MemoryShape(cfg, View())
      ensures Follows(MemoryHandle(cfg, old(View()), old(SharedView(scheduler, table, stats)), event), ok, View(),
                      SharedView(scheduler, table, stats))
    {
      hide MemoryForward, MemoryStart, MemoryComplete;
      match event.kind
      case ForwardToMemory => ok := HandleForwardToMemory(event, scheduler);
      case MemoryServiceStart => ok := HandleMemoryServiceStart(event, scheduler);
      case MemoryServiceComplete => ok := HandleMemoryServiceComplete(event, scheduler);
      case _ => ok := false;
    }
  }
}
