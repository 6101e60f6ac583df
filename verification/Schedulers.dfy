/** The scheduler as an object: a queue of events and the current time, updated in place. */
module Schedulers {
  import opened Model
  import opened Scheduling

  class Scheduler {
    var currentTime: nat
    var nextSequence: nat
    var events: set<Event>
    ghost var refused: nat

    ghost function View(): Queue
      reads this
    {
      Queue(currentTime, nextSequence, events, refused)
    }

    constructor ()
      ensures View() == EmptyQueue
    {
      currentTime, nextSequence, events, refused := 0, 0, {}, 0;
    }

    /** Turns away an event that lies in the past; any other event is stamped with the next sequence number. */
    method Schedule(event: Event) returns (accepted: bool)
      modifies this
      ensures View() == Scheduling.Schedule(old(View()), event)
      ensures accepted <==> old(currentTime) <= event.time
    {
      if event.time < currentTime {
        refused := refused + 1;
        return false;
      }
      events := events + {event.(sequence := nextSequence)};
      nextSequence := nextSequence + 1;
      accepted := true;
    }

    /** The event that comes first, if there is any, is taken out and becomes the current time. */
    method PopNext() returns (next: Option<Event>)
      requires Orderly(View())
      modifies this
      ensures Orderly(View())
      ensures next.None? <==> old(events) == {}
      ensures next.None? ==> View() == old(View())
      ensures next.Some? ==> next.value == Least(old(View())) && View() == Pop(old(View()))
    {
      if events == {} {
        return None;
      }
      var first := Top();
      events, currentTime := events - {first}, first.time;
      next := Some(first);
    }

    /** Scans the queue, in any order, for the event that comes first. */
    method Top() returns (first: Event)
      requires Orderly(View()) && events != {}
      ensures first == Least(View())
    {
      first :| first in events;
      var rest := events - {first};
      while rest != {}
        invariant rest <= events && first in events && first !in rest
        invariant forall e :: e in events && e !in rest && e != first ==> Before(first, e)
        decreases |rest|
      {
        var e :| e in rest;
        rest := rest - {e};
        if Before(e, first) {
          first := e;
        }
      }
      LeastUnique(View(), first);
    }
  }
}
