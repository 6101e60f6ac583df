/** The event queue as a value: events are popped by time, and by order of scheduling at one time. */
module Scheduling {

  datatype EventKind =
    | GenerateRequest | LocalCacheLookup | LocalCacheHitComplete
    | ForwardToSharedCache | SharedCacheLookup | SharedCacheHitComplete
    | ForwardToMemory | MemoryQueueEnqueue | MemoryServiceStart | MemoryServiceComplete
    | ReturnResponse | RequestComplete | EpochAdvance

  datatype Event = Event(time: nat, kind: EventKind, target: nat, request: nat, sequence: nat)

  /** `refused` is bookkeeping of this model: how many events were turned away for lying in the past. */
  datatype Queue = Queue(now: nat, nextSequence: nat, pending: set<Event>, refused: nat)

  const EmptyQueue := Queue(0, 0, {}, 0)

  predicate Before(e: Event, f: Event) {
    e.time < f.time || (e.time == f.time && e.sequence < f.sequence)
  }

  function Stamp(q: Queue, e: Event): Event {
    e.(sequence := q.nextSequence)
  }

  function Schedule(q: Queue, e: Event): Queue {
    if e.time < q.now then q.(refused := q.refused + 1)
    else q.(nextSequence := q.nextSequence + 1, pending := q.pending + {Stamp(q, e)})
  }

  /** No pending event is in the past, and no two share a sequence number. */
  ghost predicate Orderly(q: Queue) {
    && (forall e :: e in q.pending ==> q.now <= e.time && e.sequence < q.nextSequence)
    && (forall e, f :: e in q.pending && f in q.pending && e.sequence == f.sequence ==> e == f)
  }

  predicate IsLeast(pending: set<Event>, e: Event) {
    e in pending && forall f :: f in pending && f != e ==> Before(e, f)
  }

  lemma {:induction false} LeastExists(pending: set<Event>)
    requires pending != {}
    requires forall e, f :: e in pending && f in pending && e.sequence == f.sequence ==> e == f
    ensures exists e :: IsLeast(pending, e)
    decreases |pending|
  {
    var e :| e in pending;
    var rest := pending - {e};
    assert forall g :: g in pending && g != e ==> g in rest;
    if rest == {} {
      assert IsLeast(pending, e);
    } else {
      LeastExists(rest);
      var f :| IsLeast(rest, f);
      if Before(e, f) {
        assert forall g :: g in rest && g != f ==> Before(f, g);
        assert IsLeast(pending, e);
      } else {
        assert IsLeast(pending, f);
      }
    }
  }

  ghost function Least(q: Queue): (e: Event)
    requires Orderly(q) && q.pending != {}
    ensures IsLeast(q.pending, e)
  {
    LeastExists(q.pending);
    var e :| IsLeast(q.pending, e);
    e
  }

  lemma LeastUnique(q: Queue, e: Event)
    requires Orderly(q) && IsLeast(q.pending, e)
    ensures e == Least(q)
  {
    assert e == Least(q) || Before(e, Least(q));
  }

  function Remove(q: Queue, e: Event): Queue {
    q.(pending := q.pending - {e}, now := e.time)
  }

  ghost function Pop(q: Queue): Queue
    requires Orderly(q) && q.pending != {}
  {
    Remove(q, Least(q))
  }

  /** Scheduling keeps the order, and is refused exactly for the past. */
  lemma ScheduleKeeps(q: Queue, e: Event)
    requires Orderly(q)
    ensures Orderly(Schedule(q, e))
    ensures Schedule(q, e).refused == q.refused <==> q.now <= e.time
  {
  }

  lemma PopKeeps(q: Queue)
    requires Orderly(q) && q.pending != {}
    ensures Orderly(Pop(q)) && q.now <= Pop(q).now
  {
  }

  /* ---- Runs in which handlers schedule as they please ---- */

  datatype Action = Add(event: Event) | Take

  /** The events popped by a sequence of actions; popping an empty queue does nothing. */
  ghost function Popped(q: Queue, actions: seq<Action>): seq<Event>
    requires Orderly(q)
    decreases |actions|
  {
    if actions == [] then []
    else
      match actions[0]
      case Add(e) =>
        ScheduleKeeps(q, e);
        Popped(Schedule(q, e), actions[1..])
      case Take =>
        if q.pending == {} then Popped(q, actions[1..])
        else
          PopKeeps(q);
          [Least(q)] + Popped(Pop(q), actions[1..])
  }

  /** Every pending or future event comes after `last`. */
  ghost predicate After(q: Queue, last: Event) {
    last.time <= q.now && last.sequence < q.nextSequence &&
    forall e :: e in q.pending ==> Before(last, e)
  }

  lemma {:induction false} PoppedAfter(q: Queue, last: Event, actions: seq<Action>)
    requires Orderly(q) && After(q, last)
    ensures forall e :: e in Popped(q, actions) ==> Before(last, e)
    decreases |actions|
  {
    if actions != [] {
      match actions[0]
      case Add(e) =>
        ScheduleKeeps(q, e);
        PoppedAfter(Schedule(q, e), last, actions[1..]);
      case Take =>
        if q.pending == {} {
          PoppedAfter(q, last, actions[1..]);
        } else {
          PopKeeps(q);
          PoppedAfter(Pop(q), last, actions[1..]);
        }
    }
  }

  ghost predicate Ascending(events: seq<Event>) {
    forall i, j :: 0 <= i < j < |events| ==> Before(events[i], events[j])
  }

  /** Whatever handlers schedule, events are popped in strictly increasing (time, sequence) order. */
  lemma {:induction false} PoppedAscending(q: Queue, actions: seq<Action>)
    requires Orderly(q)
    ensures Ascending(Popped(q, actions))
    decreases |actions|
  {
    if actions != [] {
      match actions[0]
      case Add(e) =>
        ScheduleKeeps(q, e);
        PoppedAscending(Schedule(q, e), actions[1..]);
      case Take =>
        if q.pending == {} {
          PoppedAscending(q, actions[1..]);
        } else {
          PopKeeps(q);
          PoppedAscending(Pop(q), actions[1..]);
          PoppedAfter(Pop(q), Least(q), actions[1..]);
        }
    }
  }
}
