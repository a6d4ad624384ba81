/**
 * The event chain `tick_scheduler` runs on the scheduler, shared by both
 * versions of the bus (core/src/hardware/mmu/mod.rs and
 * core/src/hardware/mmu.rs): which event a handled PPU or APU event is
 * re-pushed as, and how far ahead. Also a measure that bounds how many due
 * events one tick can handle.
 */
module EventChain {
  import opened Bits
  import opened Scheduler

  const OAM_SEARCH_CYCLES: nat := 80
  const LCD_TRANSFER_CYCLES: nat := 172
  const HBLANK_CYCLES: nat := 204
  const LINE_CYCLES: nat := 456
  /** `FRAME_SEQUENCE_CYCLES` and `SAMPLE_CYCLES` of core/src/hardware/apu/mod.rs. */
  const FRAME_SEQUENCE_CYCLES: nat := 8192
  const SAMPLE_CYCLES: nat := 95
  /** The line after whose H-blank the V-blank starts. */
  const LAST_VISIBLE_LINE: nat := 143

  /** `delay << get_speed_shift()`: the shift is 1 in double speed, 0 otherwise. */
  function Shifted(delay: nat, doubleSpeed: bool): nat
  {
    if doubleSpeed then 2 * delay else delay
  }

  /**
   * The event a handler re-pushes with `update_self`, given the PPU's
   * current line after the handler's PPU call and the speed. NONE, the timer
   * and the DMA events re-push nothing.
   */
  function Reschedule(e: Event, line: nat, doubleSpeed: bool): Option<Event>
  {
    match e.eventType
    case VBLANK => Some(UpdateSelf(e, VblankWait, Shifted(LINE_CYCLES, doubleSpeed)))
    case OamSearch => Some(UpdateSelf(e, LcdTransfer, Shifted(OAM_SEARCH_CYCLES, doubleSpeed)))
    case LcdTransfer => Some(UpdateSelf(e, HBLANK, Shifted(LCD_TRANSFER_CYCLES, doubleSpeed)))
    case HBLANK =>
      if line != LAST_VISIBLE_LINE then Some(UpdateSelf(e, OamSearch, Shifted(HBLANK_CYCLES, doubleSpeed)))
      else Some(UpdateSelf(e, VBLANK, Shifted(HBLANK_CYCLES, doubleSpeed)))
    case VblankWait =>
      if line != 0 then Some(UpdateSelf(e, VblankWait, Shifted(LINE_CYCLES, doubleSpeed)))
      else Some(UpdateSelf(e, OamSearch, 0))
    case APUFrameSequencer => Some(UpdateSelf(e, APUFrameSequencer, Shifted(FRAME_SEQUENCE_CYCLES, doubleSpeed)))
    case APUSample => Some(UpdateSelf(e, APUSample, Shifted(SAMPLE_CYCLES, doubleSpeed)))
    case _ => None
  }

  /** The events the NONE handler pushes: OAM search at once, the two APU events at fixed times. */
  function Startup(e: Event): multiset<Event>
  {
    multiset{UpdateSelf(e, OamSearch, 0), Event(8192, APUFrameSequencer), Event(95, APUSample)}
  }

  /**
   * Exactly the PPU and APU events are re-pushed; the re-pushed event never
   * lies earlier, and only the wait at the end of the V-blank re-pushes
   * (OAM search) with no delay.
   */
  lemma RescheduleSpec(e: Event, line: nat, doubleSpeed: bool)
    ensures Reschedule(e, line, doubleSpeed).Some? <==>
              e.eventType in {VBLANK, OamSearch, LcdTransfer, HBLANK, VblankWait, APUFrameSequencer, APUSample}
    ensures Reschedule(e, line, doubleSpeed).Some? ==>
              var r := Reschedule(e, line, doubleSpeed).value;
              (r.timestamp == e.timestamp <==> e.eventType == VblankWait && line == 0) &&
              (r.timestamp != e.timestamp ==> r.timestamp >= e.timestamp + OAM_SEARCH_CYCLES)
  {
  }

  /**
   * A visible line, OAM search then transfer then H-blank, lasts as long as
   * one V-blank line: 456 cycles, 912 in double speed. After it the next
   * line's OAM search follows, or the V-blank after line 143.
   */
  lemma VisibleLine(e: Event, line: nat, doubleSpeed: bool)
    requires e.eventType == OamSearch
    ensures var a := Reschedule(e, line, doubleSpeed).value;
            var b := Reschedule(a, line, doubleSpeed).value;
            var c := Reschedule(b, line, doubleSpeed).value;
            c.timestamp - e.timestamp == Shifted(LINE_CYCLES, doubleSpeed) &&
            c.eventType == (if line == LAST_VISIBLE_LINE then VBLANK else OamSearch)
    ensures Reschedule(Event(e.timestamp, VBLANK), line, doubleSpeed).value.timestamp - e.timestamp
            == Shifted(LINE_CYCLES, doubleSpeed)
  {
  }

  /**
   * Double speed doubles every delay and changes no event type; at single
   * speed the delays are the fixed ones of the older bus.
   */
  lemma DoubleSpeedDoubles(e: Event, line: nat)
    requires Reschedule(e, line, false).Some?
    ensures Reschedule(e, line, true).Some?
    ensures Reschedule(e, line, true).value.eventType == Reschedule(e, line, false).value.eventType
    ensures Reschedule(e, line, true).value.timestamp - e.timestamp
            == 2 * (Reschedule(e, line, false).value.timestamp - e.timestamp)
  {
  }

  /**
   * How much handling a due event may still cost within one tick: four per
   * cycle it is overdue, plus one for a V-blank wait (which may re-push an
   * event at the same time) and enough for NONE to pay for its three.
   * Events in the future cost nothing.
   */
  function Rank(t: EventType, now: nat): nat
  {
    match t
    case NONE => 8 * (now + 1) + 1
    case VblankWait => 1
    case _ => 0
  }

  function Due(e: Event, now: nat): nat
  {
    if e.timestamp <= now then 4 * (now - e.timestamp + 1) + Rank(e.eventType, now) else 0
  }

  /** The cost of a whole queue: the sum of `Due` over its events. */
  ghost function Weight(q: multiset<Event>, now: nat): nat
    decreases |q|
  {
    if q == multiset{} then 0
    else
      var e :| e in q;
      Due(e, now) + Weight(q - multiset{e}, now)
  }

  /** The sum may be taken with any event first. */
  lemma {:induction false} WeightRemove(q: multiset<Event>, x: Event, now: nat)
    requires x in q
    ensures Weight(q, now) == Due(x, now) + Weight(q - multiset{x}, now)
    decreases |q|
  {
    var y :| y in q && Weight(q, now) == Due(y, now) + Weight(q - multiset{y}, now);
    if y != x {
      assert x in q - multiset{y};
      WeightRemove(q - multiset{y}, x, now);
      assert y in q - multiset{x};
      WeightRemove(q - multiset{x}, y, now);
      assert q - multiset{y} - multiset{x} == q - multiset{x} - multiset{y};
    }
  }

  /** Pushing an event adds its cost. */
  lemma WeightAdd(q: multiset<Event>, x: Event, now: nat)
    ensures Weight(q + multiset{x}, now) == Weight(q, now) + Due(x, now)
  {
    WeightRemove(q + multiset{x}, x, now);
    assert q + multiset{x} - multiset{x} == q;
  }

  /** Removing events never raises the cost. */
  lemma {:induction false} WeightSubset(a: multiset<Event>, b: multiset<Event>, now: nat)
    requires a <= b
    ensures Weight(a, now) <= Weight(b, now)
    decreases |b|
  {
    if a != b {
      var x :| x in b && a[x] < b[x];
      WeightRemove(b, x, now);
      assert a <= b - multiset{x};
      WeightSubset(a, b - multiset{x}, now);
    }
  }

  /**
   * Handling a due event lowers the cost: the re-pushed event costs less
   * than the handled one, and so do the three NONE pushes together.
   */
  lemma RescheduleLowersDue(e: Event, line: nat, doubleSpeed: bool, now: nat)
    requires e.timestamp <= now && Reschedule(e, line, doubleSpeed).Some?
    ensures Due(Reschedule(e, line, doubleSpeed).value, now) < Due(e, now)
  {
  }

  lemma StartupLowersDue(e: Event, now: nat)
    requires e.timestamp <= now && e.eventType == NONE
    ensures Weight(Startup(e), now) < Due(e, now)
  {
    WeightOfThree(UpdateSelf(e, OamSearch, 0), Event(8192, APUFrameSequencer), Event(95, APUSample), now);
  }

  lemma WeightOfThree(a: Event, b: Event, c: Event, now: nat)
    ensures Weight(multiset{a, b, c}, now) == Due(a, now) + Due(b, now) + Due(c, now)
  {
    WeightOne(a, now);
    assert Weight(multiset{a, b}, now) == Due(a, now) + Due(b, now) by {
      WeightAdd(multiset{a}, b, now);
      assert multiset{a} + multiset{b} == multiset{a, b};
    }
    WeightAdd(multiset{a, b}, c, now);
    assert multiset{a, b} + multiset{c} == multiset{a, b, c};
  }

  /** The delay `oam_dma_transfer` of the PPU gives the completion event. */
  const OAM_DMA_CYCLES: nat := 644

  /**
   * The events an arm of `tick_scheduler` pushes: the three start-up events
   * for NONE, the completion the PPU schedules for DMARequested, and for the
   * PPU and APU events the follow-up `Reschedule` names.
   */
  function Pushes(e: Event, now: nat, line: nat, doubleSpeed: bool): multiset<Event>
  {
    match e.eventType
    case NONE => Startup(e)
    case DMARequested => multiset{Event(now + OAM_DMA_CYCLES, DMATransferComplete)}
    case _ =>
      match Reschedule(e, line, doubleSpeed)
      case Some(next) => multiset{next}
      case None => multiset{}
  }

  /** What an arm pushes for a due event costs less than the event. */
  lemma PushesLowerDue(e: Event, now: nat, line: nat, doubleSpeed: bool)
    requires e.timestamp <= now
    ensures Weight(Pushes(e, now, line, doubleSpeed), now) < Due(e, now)
  {
    match e.eventType
    case NONE =>
      StartupLowersDue(e, now);
    case DMARequested =>
      WeightOne(Event(now + OAM_DMA_CYCLES, DMATransferComplete), now);
    case _ =>
      match Reschedule(e, line, doubleSpeed)
      case Some(next) =>
        WeightOne(next, now);
        RescheduleLowersDue(e, line, doubleSpeed, now);
      case None =>
  }

  lemma WeightOne(x: Event, now: nat)
    ensures Weight(multiset{x}, now) == Due(x, now)
  {
    WeightAdd(multiset{}, x, now);
    assert multiset{} + multiset{x} == multiset{x};
  }

  /** The cost of a union is the sum of the costs. */
  lemma {:induction false} WeightUnion(a: multiset<Event>, b: multiset<Event>, now: nat)
    ensures Weight(a + b, now) == Weight(a, now) + Weight(b, now)
    decreases |b|
  {
    if b != multiset{} {
      var x :| x in b;
      var b' := b - multiset{x};
      WeightUnion(a, b', now);
      WeightAdd(a + b', x, now);
      WeightAdd(b', x, now);
      assert a + b' + multiset{x} == a + b;
      assert b' + multiset{x} == b;
    } else {
      assert a + b == a;
    }
  }

  /** Every heap can be filtered: the filtered heap is built one event at a time. */
  lemma {:induction false} FilterWitness(q: multiset<Event>, t: EventType) returns (r: multiset<Event>)
    ensures Filtered(r, q, t)
    decreases |q|
  {
    if q == multiset{} {
      r := multiset{};
    } else {
      var e :| e in q;
      var rest := FilterWitness(q - multiset{e}, t);
      r := if e.eventType == t then rest else rest + multiset{e};
      assert forall x :: r[x] == (if x.eventType == t then 0 else q[x]) by {
        forall x
          ensures r[x] == (if x.eventType == t then 0 else q[x])
        {
          if x == e {
            assert q[x] == (q - multiset{e})[x] + 1;
          }
        }
      }
    }
  }

  /** The heap `remove_event_type` leaves: the one `Filtered` allows. */
  ghost function RemoveType(q: multiset<Event>, t: EventType): multiset<Event>
  {
    FilterExists(q, t);
    var r :| Filtered(r, q, t);
    r
  }

  lemma FilterExists(q: multiset<Event>, t: EventType)
    ensures exists r :: Filtered(r, q, t)
  {
    var r := FilterWitness(q, t);
  }

  lemma RemoveTypeFiltered(q: multiset<Event>, t: EventType)
    ensures Filtered(RemoveType(q, t), q, t)
  {
  }

  /** `Filtered` fixes the heap, so a removal by type is `RemoveType`. */
  lemma FilteredIsRemoveType(q': multiset<Event>, q: multiset<Event>, t: EventType)
    requires Filtered(q', q, t)
    ensures q' == RemoveType(q, t)
  {
    var r := RemoveType(q, t);
    RemoveTypeFiltered(q, t);
    assert forall e :: q'[e] == r[e];
  }

  /** `q'` holds no due event more often than `q` does; future events are free. */
  ghost predicate DueDominated(q': multiset<Event>, q: multiset<Event>, now: nat)
  {
    forall e: Event :: e.timestamp <= now ==> q'[e] <= q[e]
  }

  lemma DueDominatedTransitive(a: multiset<Event>, b: multiset<Event>, c: multiset<Event>, now: nat)
    requires DueDominated(a, b, now) && DueDominated(b, c, now)
    ensures DueDominated(a, c, now)
  {
  }

  /** A queue dominated on its due events costs no more. */
  lemma {:induction false} DominatedWeight(q': multiset<Event>, q: multiset<Event>, now: nat)
    requires DueDominated(q', q, now)
    ensures Weight(q', now) <= Weight(q, now)
    decreases |q'|
  {
    if q' != multiset{} {
      var x :| x in q';
      WeightRemove(q', x, now);
      if x.timestamp <= now {
        assert x in q;
        WeightRemove(q, x, now);
        assert DueDominated(q' - multiset{x}, q - multiset{x}, now) by {
          forall e: Event | e.timestamp <= now
            ensures (q' - multiset{x})[e] <= (q - multiset{x})[e]
          {
            assert q'[e] <= q[e];
          }
        }
        DominatedWeight(q' - multiset{x}, q - multiset{x}, now);
      } else {
        assert DueDominated(q' - multiset{x}, q, now) by {
          forall e: Event | e.timestamp <= now
            ensures (q' - multiset{x})[e] <= q[e]
          {
            assert q'[e] <= q[e];
          }
        }
        DominatedWeight(q' - multiset{x}, q, now);
      }
    }
  }
}
