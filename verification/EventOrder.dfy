/** In a run, events are handled in strictly increasing order of time and sequence number. */
module EventOrder {
  import opened Cache
  import opened Scheduling
  import opened Statistics
  import opened Protocol
  import opened Invariants
  import opened HandlerTokens
  import opened Releases
  import opened Steps
  import opened Runs
  import opened Barriers

  /** Handlers do nothing to the queue but schedule: what is new is stamped later and does not lie in the past. */
  ghost predicate Grown(q: Queue, r: Queue) {
    r.now == q.now && q.nextSequence <= r.nextSequence &&
    forall e :: e in r.pending ==> e in q.pending || (e.sequence >= q.nextSequence && e.time >= q.now)
  }

  lemma GrownBySchedule(q: Queue, r: Queue, e: Event)
    requires Grown(q, r)
    ensures Grown(q, Schedule(r, e))
  {
  }

  lemma GrownTwice(q: Queue, e: Event, f: Event)
    ensures Grown(q, q) && Grown(q, Schedule(q, e)) && Grown(q, Schedule(Schedule(q, e), f))
  {
  }

  /** A handler leaves the queue alone, or schedules one event or two. */
  ghost predicate SchedulesOnly(q: Queue, r: Queue) {
    r == q || (exists e :: r == Schedule(q, e)) || (exists e, f :: r == Schedule(Schedule(q, e), f))
  }

  lemma SchedulesOnlyGrows(q: Queue, r: Queue)
    requires SchedulesOnly(q, r)
    ensures Grown(q, r)
  {
    if r != q {
      if e :| r == Schedule(q, e) {
        GrownTwice(q, e, e);
      } else {
        var e, f :| r == Schedule(Schedule(q, e), f);
        GrownTwice(q, e, f);
      }
    }
  }

  lemma GenerateSchedulesOnly(cfg: Config, id: nat, n: NodeState, sh: Shared, e: Event)
    ensures SchedulesOnly(sh.queue, NodeGenerate(cfg, id, n, sh, e).value.1.queue)
  {
    hide StartEpoch;
    if NextSpec(n).Some? {
      GenerateSchedules(cfg, id, n, sh, e);
    }
  }

  lemma NodeSchedulesOnly(cfg: Config, id: nat, n: NodeState, sh: Shared, e: Event)
    requires NodeHandle(cfg, id, n, sh, e).Ok?
    ensures SchedulesOnly(sh.queue, NodeHandle(cfg, id, n, sh, e).value.1.queue)
  {
    hide NodeGenerate, Lookup, Admit, Schedule;
    match e.kind
    case GenerateRequest => GenerateSchedulesOnly(cfg, id, n, sh, e);
    case _ =>
  }

  lemma MemorySchedulesOnly(cfg: Config, m: MemoryState, sh: Shared, e: Event)
    requires MemoryShape(cfg, m) && MemoryHandle(cfg, m, sh, e).Ok?
    ensures SchedulesOnly(sh.queue, MemoryHandle(cfg, m, sh, e).value.1.queue)
  {
    hide Schedule, ArrivalStats, RecordService, RecordQueueWait, RecordMemoryWait;
  }

  lemma DispatchGrows(cfg: Config, s: State, e: Event)
    requires MemoryShape(cfg, s.memory) && Dispatch(cfg, s, e).Ok?
    ensures Grown(s.shared.queue, Dispatch(cfg, s, e).value.shared.queue)
  {
    hide NodeHandle, MemoryHandle, SchedulesOnly, Grown;
    if e.target in s.nodes {
      NodeSchedulesOnly(cfg, e.target, s.nodes[e.target], s.shared, e);
    } else {
      MemorySchedulesOnly(cfg, s.memory, s.shared, e);
    }
    SchedulesOnlyGrows(s.shared.queue, Dispatch(cfg, s, e).value.shared.queue);
  }

  lemma {:induction false} ReleaseNodesGrows(cfg: Config, s: State, epoch: nat, k: nat)
    requires k <= |cfg.nodes|
    ensures Grown(s.shared.queue, ReleaseNodes(cfg, s, epoch, k).shared.queue)
  {
    if k > 0 {
      var r, id := ReleaseNodes(cfg, s, epoch, k - 1), cfg.nodes[k - 1].id;
      ReleaseNodesGrows(cfg, s, epoch, k - 1);
      if id in r.nodes && NextSpec(r.nodes[id]).Some? {
        GrownBySchedule(s.shared.queue, r.shared.queue,
                        GenerateEvent(id, r.shared.queue.now + NextSpec(r.nodes[id]).value.offset));
      }
    }
  }

  lemma ReleaseGrows(cfg: Config, s: State)
    ensures Grown(s.shared.queue, Release(cfg, s).shared.queue)
  {
    if NextEpoch(cfg, s, |cfg.nodes|).Some? {
      var epoch := NextEpoch(cfg, s, |cfg.nodes|).value;
      ReleaseNodesGrows(cfg, Announce(s, epoch), epoch, |cfg.nodes|);
    }
  }

  /** Everything that is pending or still to come is after `last`. */
  lemma AfterGrows(q: Queue, r: Queue, last: Event)
    requires After(q, last) && Grown(q, r)
    ensures After(r, last)
  {
  }

  lemma LeastIsPassed(q: Queue)
    requires Orderly(q) && q.pending != {}
    ensures After(Pop(q), Least(q))
    ensures forall last :: After(q, last) ==> Before(last, Least(q)) && After(Pop(q), last)
  {
  }

  lemma TurnPasses(cfg: Config, s: State)
    requires Inv(cfg, s) && s.shared.queue.pending != {}
    ensures Orderly(s.shared.queue)
    ensures var q, r := s.shared.queue, Turn(cfg, s).shared.queue;
            After(r, Least(q)) && forall last :: After(q, last) ==> After(r, last)
  {
    hide Grown, After, Dispatch, Release, Turn, Core;
    ShapeOf(cfg, s);
    var e := Least(s.shared.queue);
    DispatchKeeps(cfg, s, e);
    TurnIsRelease(cfg, s);
    var d := Handled(cfg, s);
    DispatchGrows(cfg, Pick(s, e), e);
    ReleaseGrows(cfg, d);
    LeastIsPassed(s.shared.queue);
    forall last | After(Pop(s.shared.queue), last) ensures After(Release(cfg, d).shared.queue, last) {
      AfterGrows(Pop(s.shared.queue), d.shared.queue, last);
      AfterGrows(d.shared.queue, Release(cfg, d).shared.queue, last);
    }
  }

  /** The event that turn `k` handles. */
  ghost predicate Handles(cfg: Config, k: nat, e: Event) {
    Orderly(Run(cfg, k).shared.queue) && Run(cfg, k).shared.queue.pending != {} && e == Least(Run(cfg, k).shared.queue)
  }

  lemma {:induction false} LaterStates(cfg: Config, k: nat, l: nat, e: Event)
    requires ValidConfig(cfg) && k < l && Handles(cfg, k, e)
    ensures After(Run(cfg, l).shared.queue, e)
    decreases l
  {
    hide Turn, Inv, After;
    RunKeeps(cfg, l - 1);
    if k < l - 1 {
      LaterStates(cfg, k, l - 1, e);
    }
    if Run(cfg, l - 1).shared.queue.pending != {} {
      TurnPasses(cfg, Run(cfg, l - 1));
    } else {
      NoTurn(cfg, Run(cfg, l - 1));
    }
  }

  lemma NoTurn(cfg: Config, s: State)
    requires s.shared.queue.pending == {}
    ensures Turn(cfg, s) == s
  {
    hide Step;
  }

  /** Events are handled in strictly increasing order. */
  lemma EventsAscend(cfg: Config, k: nat, l: nat, e: Event, f: Event)
    requires ValidConfig(cfg) && k < l && Handles(cfg, k, e) && Handles(cfg, l, f)
    ensures Before(e, f)
  {
    hide Turn, Run;
    LaterStates(cfg, k, l, e);
    LeastIsPassed(Run(cfg, l).shared.queue);
  }

  lemma DispatchLogsEvent(cfg: Config, s: State, e: Event)
    requires MemoryShape(cfg, s.memory) && Dispatch(cfg, s, e).Ok?
    ensures Dispatch(cfg, s, e).value.log == s.log + [EventRecord(e.time, e.kind, e.target, e.request)]
  {
    hide NodeHandle, MemoryHandle;
  }

  /** Each turn that has an event to handle appends exactly that event to the log. */
  lemma TurnLogsItsEvent(cfg: Config, k: nat, e: Event)
    requires ValidConfig(cfg) && Handles(cfg, k, e)
    ensures var log, log' := Run(cfg, k).log, Run(cfg, k + 1).log;
            && |log'| == |log| + 1 && log' == log + [log'[|log|]]
            && log'[|log|].time == e.time && log'[|log|].kind == e.kind && log'[|log|].target == e.target
            && log'[|log|].request == e.request
  {
    hide Turn, Inv, Core, Release, Dispatch;
    var s := Run(cfg, k);
    RunKeeps(cfg, k);
    ShapeHere(cfg, s);
    DispatchKeeps(cfg, s, e);
    DispatchLogsEvent(cfg, Pick(s, e), e);
    TurnIsRelease(cfg, s);
    ReleaseFrame(cfg, Handled(cfg, s));
  }

  lemma ShapeHere(cfg: Config, s: State)
    requires Inv(cfg, s)
    ensures Core(cfg, s) && MemoryShape(cfg, s.memory)
  {
  }
}
