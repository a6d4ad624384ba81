/**
 * The event scheduler: a min-heap of timed events and the current time in
 * cycles (core/src/scheduler.rs). The heap is modelled by the multiset of the
 * events it holds; which of several events with the same timestamp the heap
 * yields first is left open, as it is in the source.
 */
module Scheduler {
  import opened Bits

  /** `EventType`, with its `repr(u8)` discriminants. */
  datatype EventType =
    | NONE | VBLANK | OamSearch | LcdTransfer | HBLANK | VblankWait
    | APUFrameSequencer | APUSample | TimerOverflow | TimerPostOverflow
    | DMATransferComplete | DMARequested

  function Discriminant(t: EventType): (d: nat)
  {
    match t
    case NONE => 255
    case VBLANK => 0 case OamSearch => 1 case LcdTransfer => 2 case HBLANK => 3
    case VblankWait => 4 case APUFrameSequencer => 5 case APUSample => 6
    case TimerOverflow => 7 case TimerPostOverflow => 8
    case DMATransferComplete => 9 case DMARequested => 10
  }

  /** The discriminants are distinct, so the type is recovered from its byte. */
  lemma DiscriminantInjective(s: EventType, t: EventType)
    ensures Discriminant(s) == Discriminant(t) <==> s == t
  {
  }

  datatype Event = Event(timestamp: nat, eventType: EventType)

  datatype Ordering = Less | Equal | Greater

  /** `Ord for Event`: events compare by timestamp alone. */
  function Compare(a: Event, b: Event): (o: Ordering)
  {
    if a.timestamp < b.timestamp then Less
    else if a.timestamp == b.timestamp then Equal
    else Greater
  }

  /** `PartialEq for Event`: two events are equal when their timestamps are. */
  predicate SameTime(a: Event, b: Event)
  {
    a.timestamp == b.timestamp
  }

  /**
   * The ordering ignores the event type: it is the order of the timestamps,
   * agrees with the equality, and is antisymmetric.
   */
  lemma CompareByTimestamp(a: Event, b: Event, s: EventType, t: EventType)
    ensures Compare(a, b) == Compare(a.(eventType := s), b.(eventType := t))
    ensures Compare(a, b) == Equal <==> SameTime(a, b)
    ensures Compare(a, b) == Less <==> a.timestamp < b.timestamp
    ensures Compare(a, b) == Less <==> Compare(b, a) == Greater
  {
  }

  /** `Event::update_self`: a new type, and the timestamp moved forward by the delta. */
  function UpdateSelf(e: Event, newType: EventType, delta: nat): (r: Event)
  {
    Event(e.timestamp + delta, newType)
  }

  /**
   * Reusing an event twice is reusing it once with the summed delta; the
   * reused event never lies earlier than the original.
   */
  lemma UpdateSelfComposes(e: Event, s: EventType, t: EventType, d1: nat, d2: nat)
    ensures UpdateSelf(UpdateSelf(e, s, d1), t, d2) == UpdateSelf(e, t, d1 + d2)
    ensures Compare(e, UpdateSelf(e, s, d1)) != Greater
    ensures UpdateSelf(e, s, d1).timestamp - e.timestamp == d1
  {
  }

  /** `e` is a heap minimum of `q`: present, and no event is earlier. */
  predicate IsClosest(e: Event, q: multiset<Event>)
  {
    e in q && forall x :: x in q ==> e.timestamp <= x.timestamp
  }

  /** A non-empty heap has a minimum, so `peek` only fails on an empty heap. */
  lemma {:induction false} ClosestExists(q: multiset<Event>)
    requires q != multiset{}
    ensures exists e :: IsClosest(e, q)
    decreases |q|
  {
    var x :| x in q;
    var rest := q - multiset{x};
    assert q == rest + multiset{x};
    if rest == multiset{} {
      assert forall y :: y in q ==> y == x;
      assert IsClosest(x, q);
    } else {
      ClosestExists(rest);
      var m :| IsClosest(m, rest);
      if x.timestamp <= m.timestamp {
        assert IsClosest(x, q);
      } else {
        assert forall y :: y in q ==> y == x || y in rest;
        assert IsClosest(m, q);
      }
    }
  }

  /**
   * The test in `pop_closest` on the minimum decides whether ANY event is
   * due: the minimum is at or before the current time exactly when some
   * event is.
   */
  lemma ClosestDecidesDue(e: Event, q: multiset<Event>, now: nat)
    requires IsClosest(e, q)
    ensures e.timestamp <= now <==> exists x :: x in q && x.timestamp <= now
  {
  }

  /** Removing every event of one type: what `remove_event_type` leaves. */
  ghost predicate Filtered(q': multiset<Event>, q: multiset<Event>, t: EventType)
  {
    forall e :: q'[e] == (if e.eventType == t then 0 else q[e])
  }

  /**
   * A filtered heap holds no event of the removed type and keeps every other
   * event with its multiplicity; filtering again removes nothing more.
   */
  lemma FilteredSpec(q': multiset<Event>, q: multiset<Event>, q'': multiset<Event>, t: EventType)
    requires Filtered(q', q, t) && Filtered(q'', q', t)
    ensures forall e :: e in q' ==> e.eventType != t && e in q
    ensures forall e :: e in q && e.eventType != t ==> e in q'
    ensures q' <= q
    ensures q'' == q'
  {
    assert forall e :: q'[e] <= q[e];
    assert forall e :: q''[e] == q'[e];
  }

  class Scheduler {
    var eventQueue: multiset<Event>
    var currentTime: nat

    /** `Scheduler::new`: the time is 0 and the heap holds one NONE event at 0. */
    constructor ()
      ensures eventQueue == multiset{Event(0, NONE)} && currentTime == 0
    {
      eventQueue := multiset{Event(0, NONE)};
      currentTime := 0;
    }

    /**
     * `pop_closest`: if the earliest event is due (its timestamp is at or
     * before the current time) it is removed and returned; otherwise the heap
     * is left alone and nothing is returned.
     */
    method PopClosest() returns (r: Option<Event>)
      modifies this`eventQueue
      ensures r.Some? ==> IsClosest(r.value, old(eventQueue)) && r.value.timestamp <= currentTime
      ensures r.Some? ==> eventQueue == old(eventQueue) - multiset{r.value}
      ensures r.None? <==> forall e :: e in old(eventQueue) ==> e.timestamp > currentTime
      ensures r.None? ==> eventQueue == old(eventQueue)
    {
      if eventQueue == multiset{} {
        return None;
      }
      ClosestExists(eventQueue);
      var event :| IsClosest(event, eventQueue);
      ClosestDecidesDue(event, eventQueue, currentTime);
      if event.timestamp <= currentTime {
        eventQueue := eventQueue - multiset{event};
        return Some(event);
      }
      return None;
    }

    /** `push_event`. */
    method PushEvent(eventType: EventType, timestamp: nat)
      modifies this`eventQueue
      ensures eventQueue == old(eventQueue) + multiset{Event(timestamp, eventType)}
    {
      eventQueue := eventQueue + multiset{Event(timestamp, eventType)};
    }

    /** `push_relative`: the event is due `relative` cycles after the current time. */
    method PushRelative(eventType: EventType, relative: nat)
      modifies this`eventQueue
      ensures eventQueue == old(eventQueue) + multiset{Event(currentTime + relative, eventType)}
    {
      eventQueue := eventQueue + multiset{Event(currentTime + relative, eventType)};
    }

    /** `push_full_event`. */
    method PushFullEvent(event: Event)
      modifies this`eventQueue
      ensures eventQueue == old(eventQueue) + multiset{event}
    {
      eventQueue := eventQueue + multiset{event};
    }

    /** `remove_event_type`: the heap rebuilt from the events of every other type. */
    method RemoveEventType(eventType: EventType)
      modifies this`eventQueue
      ensures Filtered(eventQueue, old(eventQueue), eventType)
    {
      var rest := eventQueue;
      var kept: multiset<Event> := multiset{};
      while rest != multiset{}
        invariant rest <= eventQueue
        invariant forall e :: kept[e] == (if e.eventType == eventType then 0 else eventQueue[e] - rest[e])
        decreases |rest|
      {
        var e :| e in rest;
        rest := rest - multiset{e};
        if e.eventType != eventType {
          kept := kept + multiset{e};
        }
      }
      eventQueue := kept;
    }

    /** `add_cycles`. */
    method AddCycles(delta: nat)
      modifies this`currentTime
      ensures currentTime == old(currentTime) + delta
    {
      currentTime := currentTime + delta;
    }
  }
}
