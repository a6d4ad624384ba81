/**
 * The DIV/TIMA/TMA/TAC timer (core/src/io/timer.rs).
 *
 * A 16-bit system clock advances by 4 every M-cycle; DIV is its high byte.
 * TIMA increments on a falling edge of the clock bit selected by TAC, and an
 * overflow reloads TMA and requests the TIMER interrupt one M-cycle later.
 *
 * The pure functions over `TimerState` are the specification; the class
 * `TimerRegisters` updates its fields step by step as the source does, and
 * each of its methods is proved to match one of those functions.
 */
module Timer {
  import opened Bits
  import Interrupts

  /** The four input clocks TAC can select. */
  datatype InputClock = C16 | C64 | C256 | C1024

  /** `input_select as u8`: the discriminant of each input clock. */
  function SelectBits(c: InputClock): Byte
  {
    match c
    case C16 => 1
    case C64 => 2
    case C256 => 3
    case C1024 => 0
  }

  /** `InputClock::from`: the clock named by bits 0-1; the panic arm cannot be reached. */
  function ClockFromByte(v: Byte): (c: InputClock)
    ensures SelectBits(c) == v & 3
  {
    var select := v & 3;
    if select == 0 then C1024
    else if select == 1 then C16
    else if select == 2 then C64
    else C256
  }

  /** `to_relevant_bit`: the mask of the system-clock bit that drives TIMA. */
  function RelevantBit(c: InputClock): Word
  {
    match c
    case C16 => 0x0008
    case C64 => 0x0020
    case C256 => 0x0080
    case C1024 => 0x0200
  }

  /** Each watched mask is a single bit between bits 3 and 9. */
  lemma RelevantBitIsOneBit(c: InputClock)
    ensures var bit := RelevantBit(c); bit & (bit - 1) == 0 && 8 <= bit <= 0x200
  {
  }

  /** Select values 0, 1, 2, 3 watch the clock bits 0x200, 0x008, 0x020, 0x080. */
  lemma RelevantBitOfSelect(v: Byte)
    ensures v & 3 == 0 ==> RelevantBit(ClockFromByte(v)) == 0x200
    ensures v & 3 == 1 ==> RelevantBit(ClockFromByte(v)) == 0x008
    ensures v & 3 == 2 ==> RelevantBit(ClockFromByte(v)) == 0x020
    ensures v & 3 == 3 ==> RelevantBit(ClockFromByte(v)) == 0x080
  {
  }

  /** TAC: the enable bit and the input clock. */
  datatype TimerControl = TimerControl(enabled: bool, select: InputClock)

  /** `TimerControl::default()`: disabled, clock 256. */
  const DEFAULT_CONTROL := TimerControl(false, C256)

  /** `TimerControl::to_bits`. */
  function ControlToBits(c: TimerControl): (b: Byte)
    ensures b & 0xF8 == 0
    ensures (b & 4 != 0) == c.enabled
    ensures b & 3 == SelectBits(c.select)
  {
    (if c.enabled then 4 else 0) | SelectBits(c.select)
  }

  /** `TimerControl::from`: enable is bit 2, the clock select bits 0-1. */
  function ControlFromByte(v: Byte): (c: TimerControl)
    ensures c.enabled <==> v & 4 != 0
    ensures SelectBits(c.select) == v & 3
  {
    TimerControl(v & 4 > 0, ClockFromByte(v))
  }

  /** Reading TAC back returns the low three bits of what was written. */
  lemma ControlBitsRoundTrip(v: Byte)
    ensures ControlToBits(ControlFromByte(v)) == v & 7
  {
  }

  /** Decoding the bits of a control gives the control back. */
  lemma ControlRoundTrip(c: TimerControl)
    ensures ControlFromByte(ControlToBits(c)) == c
  {
  }

  /** The observable and internal state of `TimerRegisters`. */
  datatype TimerState = TimerState(
    clock: Word,
    counter: Byte,
    modulo: Byte,
    control: TimerControl,
    overflowed: bool,
    justOverflowed: bool)

  /** `TimerRegisters::default()`. */
  const INITIAL := TimerState(0, 0, 0, DEFAULT_CONTROL, false, false)

  /** `divider_register`: DIV is the high byte of the system clock. */
  function Divider(s: TimerState): (div: Byte)
    ensures (div as Word) << 8 == s.clock & 0xFF00
  {
    (s.clock >> 8) as Byte
  }

  /** `fallen_sys_clock`: the selected bit was set before and is clear now. */
  predicate Fallen(oldClock: Word, newClock: Word, bit: Word)
  {
    IsSet(oldClock, bit) && !IsSet(newClock, bit)
  }

  /** The input of TIMA's falling-edge detector: the selected clock bit gated by the enable bit. */
  predicate Signal(clock: Word, c: TimerControl)
  {
    c.enabled && IsSet(clock, RelevantBit(c.select))
  }

  /** Whether the detector input falls when the clock moves from `oldClock` to `newClock`. */
  predicate SignalFalls(oldClock: Word, newClock: Word, c: TimerControl)
  {
    Signal(oldClock, c) && !Signal(newClock, c)
  }

  /** `tick_timer`: TIMA + 1, wrapping, and the overflow flag records the wrap. */
  function IncrementCounter(s: TimerState): TimerState
  {
    // `overflowing_add(1)` wraps exactly when TIMA was 0xFF.
    s.(counter := s.counter + 1, overflowed := s.counter == 0xFF)
  }

  /** The clock moves to `newClock`, and TIMA counts one falling edge of the detector input. */
  function MoveClock(s: TimerState, newClock: Word): TimerState
  {
    var t := s.(clock := newClock);
    if SignalFalls(s.clock, newClock, s.control) then IncrementCounter(t) else t
  }

  /** The first half of `tick_timers`: a pending overflow reloads TIMA from TMA. */
  function Reload(s: TimerState): TimerState
  {
    if s.overflowed then s.(counter := s.modulo, overflowed := false, justOverflowed := true)
    else s.(justOverflowed := false)
  }

  /** `tick_timers`: one M-cycle; the result is the interrupt it requests. */
  function Tick(s: TimerState): (TimerState, Option<Byte>)
  {
    var r := Reload(s);
    (MoveClock(r, r.clock + 4), if s.overflowed then Some(Interrupts.FLAG_TIMER) else None)
  }

  /** `set_timer_counter`: a TIMA write. */
  function WriteCounter(s: TimerState, v: Byte): TimerState
  {
    var s1 := if s.overflowed && s.counter == 0 then s.(overflowed := false) else s;
    if s1.justOverflowed then s1.(counter := s1.modulo) else s1.(counter := v)
  }

  /** `set_tma`: a TMA write. */
  function WriteModulo(s: TimerState, v: Byte): TimerState
  {
    var s1 := if s.justOverflowed then s.(counter := v) else s;
    s1.(modulo := v)
  }

  /** `set_divider` as the source writes it: the edge test ignores the enable bit. */
  function WriteDividerAsWritten(s: TimerState): TimerState
  {
    var s1 := s.(clock := 0);
    if Fallen(s.clock, s1.clock, RelevantBit(s1.control.select)) then IncrementCounter(s1) else s1
  }

  /** `set_divider` with the edge taken on the enable-gated detector input. */
  function WriteDivider(s: TimerState): TimerState
  {
    MoveClock(s, 0)
  }

  /**
   * `set_timer_control` as the source writes it: disabling the timer tests
   * the NEW select bit.
   */
  function WriteControlAsWritten(s: TimerState, v: Byte): TimerState
  {
    var oldControl := s.control;
    var s1 := s.(control := ControlFromByte(v));
    var oldBit := RelevantBit(oldControl.select);
    var bit := RelevantBit(s1.control.select);
    var s2 :=
      if oldControl.enabled && !s1.control.enabled && IsSet(s1.clock, bit) then IncrementCounter(s1) else s1;
    if oldControl.enabled && s2.control.enabled && IsSet(s2.clock, oldBit) && !IsSet(s2.clock, bit) then IncrementCounter(s2)
    else s2
  }

  /**
   * `set_timer_control` with disabling testing the OLD select bit: TIMA
   * counts a fall of the detector input across the write.
   */
  function WriteControl(s: TimerState, v: Byte): TimerState
  {
    var t := s.(control := ControlFromByte(v));
    if Signal(s.clock, s.control) && !Signal(s.clock, t.control) then IncrementCounter(t) else t
  }

  // ---------------------------------------------------------------- properties

  /** Only TIMA and the overflow flag differ. */
  predicate SameButCounter(a: TimerState, b: TimerState)
  {
    a.clock == b.clock && a.modulo == b.modulo && a.control == b.control && a.justOverflowed == b.justOverflowed
  }

  /** The detector input falls exactly when the timer is enabled and the selected bit falls. */
  lemma GatedFall(oldClock: Word, newClock: Word, c: TimerControl)
    ensures SignalFalls(oldClock, newClock, c) <==> c.enabled && Fallen(oldClock, newClock, RelevantBit(c.select))
  {
  }

  /**
   * Across a TAC write the detector input falls exactly when the timer was
   * enabled with its old bit high and is now either disabled or watching a
   * low bit: the two cases `set_timer_control` tests.
   */
  lemma ControlFall(clock: Word, oldControl: TimerControl, newControl: TimerControl)
    ensures (Signal(clock, oldControl) && !Signal(clock, newControl)) <==>
              (oldControl.enabled && !newControl.enabled && IsSet(clock, RelevantBit(oldControl.select))) ||
              (oldControl.enabled && newControl.enabled && IsSet(clock, RelevantBit(oldControl.select)) &&
               !IsSet(clock, RelevantBit(newControl.select)))
  {
  }

  /** A TAC write as the two cases `set_timer_control` tests: disabling, and switching to a low bit. */
  lemma WriteControlCases(s: TimerState, v: Byte)
    ensures var c := ControlFromByte(v);
            var oldHigh := IsSet(s.clock, RelevantBit(s.control.select));
            var newHigh := IsSet(s.clock, RelevantBit(c.select));
            var disabling := s.control.enabled && !c.enabled && oldHigh;
            var switching := s.control.enabled && c.enabled && oldHigh && !newHigh;
            WriteControl(s, v) == if disabling || switching then IncrementCounter(s.(control := c)) else s.(control := c)
  {
    ControlFall(s.clock, s.control, ControlFromByte(v));
  }

  /** TIMA + 1 wraps to 0 exactly from 0xFF, the overflow flag says so, and nothing else changes. */
  lemma IncrementCounterSpec(s: TimerState)
    ensures IncrementCounter(s).counter == s.counter + 1
    ensures IncrementCounter(s).overflowed <==> IncrementCounter(s).counter == 0
    ensures SameButCounter(IncrementCounter(s), s)
  {
  }

  /** A pending overflow loads TMA into TIMA; the clock, TMA and TAC stay. */
  lemma ReloadSpec(s: TimerState)
    ensures Reload(s).clock == s.clock && Reload(s).modulo == s.modulo && Reload(s).control == s.control
    ensures Reload(s).justOverflowed == s.overflowed && !Reload(s).overflowed
    ensures Reload(s).counter == if s.overflowed then s.modulo else s.counter
  {
  }

  /**
   * Moving the clock sets the clock, keeps TMA, TAC and the reload flag, and
   * adds one to TIMA exactly when the detector input falls.
   */
  lemma MoveClockSpec(s: TimerState, newClock: Word)
    ensures MoveClock(s, newClock).clock == newClock
    ensures MoveClock(s, newClock).modulo == s.modulo && MoveClock(s, newClock).control == s.control
    ensures MoveClock(s, newClock).justOverflowed == s.justOverflowed
    ensures var edge := SignalFalls(s.clock, newClock, s.control);
            MoveClock(s, newClock).counter == (if edge then s.counter + 1 else s.counter) &&
            MoveClock(s, newClock).overflowed == (if edge then s.counter == 0xFF else s.overflowed)
  {
  }

  /**
   * A tick adds 4 to the system clock (bv16 addition wraps at 16 bits),
   * requests the TIMER interrupt exactly when an overflow was pending, and
   * leaves TMA and TAC alone.
   */
  lemma TickSpec(s: TimerState)
    ensures Tick(s).0.clock == s.clock + 4
    ensures Tick(s).1 == (if s.overflowed then Some(Interrupts.FLAG_TIMER) else None)
    ensures Tick(s).0.justOverflowed == s.overflowed
    ensures Tick(s).0.modulo == s.modulo && Tick(s).0.control == s.control
  {
    ReloadSpec(s);
    var r := Reload(s);
    MoveClockSpec(r, r.clock + 4);
    assert Tick(s).0 == MoveClock(r, r.clock + 4);
  }

  /**
   * After a tick TIMA is the reloaded (TMA) or kept value, plus one exactly
   * when the gated clock signal fell; the overflow flag is set exactly when
   * that increment wrapped.
   */
  lemma TickCounter(s: TimerState)
    ensures var base := if s.overflowed then s.modulo else s.counter;
            var edge := SignalFalls(s.clock, Tick(s).0.clock, s.control);
            Tick(s).0.counter == (if edge then base + 1 else base) &&
            Tick(s).0.overflowed == (edge && base == 0xFF)
  {
    ReloadSpec(s);
    var r := Reload(s);
    MoveClockSpec(r, r.clock + 4);
    assert Tick(s).0 == MoveClock(r, r.clock + 4);
    assert SignalFalls(s.clock, Tick(s).0.clock, s.control) == SignalFalls(r.clock, r.clock + 4, r.control);
  }

  /**
   * The overflow protocol: when TIMA = 0xFF meets a falling edge it reads 0
   * and only a flag is set; the next tick loads TMA and returns the TIMER
   * interrupt; the tick after that returns nothing, so exactly one interrupt
   * is requested.
   */
  lemma {:induction false} OverflowReloadsOneTickLater(s: TimerState)
    requires !s.overflowed && s.counter == 0xFF
    requires SignalFalls(s.clock, s.clock + 4, s.control)
    ensures Tick(s).0.counter == 0 && Tick(s).0.overflowed && Tick(s).1 == None
    ensures var t2 := Tick(Tick(s).0);
            t2.1 == Some(Interrupts.FLAG_TIMER) && t2.0.counter == s.modulo && t2.0.justOverflowed &&
            !t2.0.overflowed && Tick(t2.0).1 == None
  {
    var t1 := Tick(s).0;
    TickSpec(s);
    TickCounter(s);
    assert t1.clock == s.clock + 4;
    var t2 := Tick(t1).0;
    TickSpec(t1);
    TickCounter(t1);
    TickSpec(t2);
  }

  /**
   * Writing TIMA while the overflow is pending (flag set, TIMA = 0) cancels
   * the reload and the interrupt: TIMA holds the written value and the next
   * tick requests nothing.
   */
  lemma WriteCounterCancelsPendingOverflow(s: TimerState, v: Byte)
    requires s.overflowed && s.counter == 0 && !s.justOverflowed
    ensures WriteCounter(s, v).counter == v && !WriteCounter(s, v).overflowed
    ensures Tick(WriteCounter(s, v)).1 == None
  {
  }

  /** A TIMA write during the reload tick is ignored: TIMA keeps TMA. */
  lemma WriteCounterIgnoredDuringReload(s: TimerState, v: Byte)
    requires s.justOverflowed
    ensures WriteCounter(s, v).counter == s.modulo
  {
  }

  /** Outside the overflow window a TIMA write stores the value and nothing else. */
  lemma WriteCounterStores(s: TimerState, v: Byte)
    requires !s.justOverflowed && !(s.overflowed && s.counter == 0)
    ensures WriteCounter(s, v) == s.(counter := v)
  {
  }

  /** A TMA write sets TMA, and during the reload tick TIMA as well. */
  lemma WriteModuloSpec(s: TimerState, v: Byte)
    ensures WriteModulo(s, v).modulo == v
    ensures WriteModulo(s, v).counter == (if s.justOverflowed then v else s.counter)
    ensures WriteModulo(s, v).(counter := s.counter, modulo := s.modulo) == s
  {
  }

  /** The zero clock holds no watched bit, so the detector input is low. */
  lemma NoSignalAtZero(c: TimerControl)
    ensures !Signal(0, c)
  {
  }

  /**
   * A DIV write zeroes the whole system clock (DIV then reads 0) and ticks
   * TIMA once exactly when the gated signal was high, since it falls to 0.
   */
  lemma WriteDividerSpec(s: TimerState)
    ensures WriteDivider(s).clock == 0 && Divider(WriteDivider(s)) == 0
    ensures SameButCounter(WriteDivider(s), s.(clock := 0))
    ensures WriteDivider(s).counter == if Signal(s.clock, s.control) then s.counter + 1 else s.counter
  {
    NoSignalAtZero(s.control);
    MoveClockSpec(s, 0);
    assert WriteDivider(s) == MoveClock(s, 0);
    assert SignalFalls(s.clock, 0, s.control) == Signal(s.clock, s.control);
  }

  /**
   * A TAC write stores the decoded control (reading back the low three bits
   * written), changes nothing but TIMA and the overflow flag besides, and
   * ticks TIMA at most once.
   */
  lemma WriteControlSpec(s: TimerState, v: Byte)
    ensures WriteControl(s, v).control == ControlFromByte(v)
    ensures ControlToBits(WriteControl(s, v).control) == v & 7
    ensures SameButCounter(WriteControl(s, v), s.(control := ControlFromByte(v)))
    ensures WriteControl(s, v).counter == s.counter || WriteControl(s, v).counter == s.counter + 1
  {
    ControlBitsRoundTrip(v);
    WriteControlCases(s, v);
  }

  /** Disabling the timer from a high detector input ticks TIMA; a disabled timer never ticks on a TAC write. */
  lemma WriteControlEdges(s: TimerState, v: Byte)
    ensures s.control.enabled && IsSet(s.clock, RelevantBit(s.control.select)) && v & 4 == 0 ==>
              WriteControl(s, v).counter == s.counter + 1
    ensures !s.control.enabled ==> WriteControl(s, v).counter == s.counter
  {
  }

  /**
   * The source's DIV write ticks TIMA even with the timer disabled, where the
   * gated detector input was low all along.
   */
  lemma DividerWriteTicksDisabledTimer()
    ensures var s := INITIAL.(clock := 0x0080);
            !Signal(s.clock, s.control) &&
            WriteDividerAsWritten(s).counter == 1 && WriteDivider(s).counter == 0
  {
  }

  /**
   * The source's TAC write that disables the timer and switches the clock
   * select at once ticks TIMA when only the NEW select bit is high, although
   * the detector input (the old bit) was low.
   */
  lemma ControlWriteTicksOnNewBit()
    ensures var s := INITIAL.(clock := 0x0080, control := TimerControl(true, C16));
            !Signal(s.clock, s.control) &&
            WriteControlAsWritten(s, 0x03).counter == 1 && WriteControl(s, 0x03).counter == 0
  {
  }

  /** `TimerRegisters`: the timer's fields, updated in place. */
  class TimerRegisters {
    var systemClock: Word
    var timerCounter: Byte
    var timerModulo: Byte
    var timerControl: TimerControl
    var timerOverflowed: bool
    var justOverflowed: bool

    /** The abstract value of the fields. */
    function State(): TimerState
      reads this
    {
      TimerState(systemClock, timerCounter, timerModulo, timerControl, timerOverflowed, justOverflowed)
    }

    /** `TimerRegisters::default()`. */
    constructor ()
      ensures State() == INITIAL
    {
      systemClock := 0;
      timerCounter := 0;
      timerModulo := 0;
      timerControl := DEFAULT_CONTROL;
      timerOverflowed := false;
      justOverflowed := false;
    }

    /** `divider_register`. */
    function DividerRegister(): (div: Byte)
      reads this
      ensures div == Divider(State())
    {
      (systemClock >> 8) as Byte
    }

    /** `fallen_sys_clock`, comparing an old clock with the current one. */
    predicate FallenSysClock(oldClock: Word, selectBit: Word)
      reads this
    {
      IsSet(oldClock, selectBit) && !IsSet(systemClock, selectBit)
    }

    /** `tick_timers`: the delayed reload, then four clock cycles. */
    method TickTimers() returns (toReturn: Option<Byte>)
      modifies this`timerCounter, this`timerOverflowed, this`justOverflowed, this`systemClock
      ensures State() == Tick(old(State())).0
      ensures toReturn == Tick(old(State())).1
    {
      toReturn := ReloadOverflowed();
      AdvanceClock();
    }

    /** The first half of `tick_timers`: the reload one cycle after an overflow. */
    method ReloadOverflowed() returns (toReturn: Option<Byte>)
      modifies this`timerCounter, this`timerOverflowed, this`justOverflowed
      ensures State() == Reload(old(State()))
      ensures toReturn == Tick(old(State())).1
    {
      toReturn := None;
      justOverflowed := false;
      if timerOverflowed {
        timerCounter := timerModulo;
        timerOverflowed := false;
        justOverflowed := true;
        toReturn := Some(Interrupts.FLAG_TIMER);
      }
    }

    /** The second half of `tick_timers`: four cycles and the gated falling edge. */
    method AdvanceClock()
      modifies this`systemClock, this`timerCounter, this`timerOverflowed
      ensures State() == MoveClock(old(State()), old(systemClock) + 4)
    {
      var oldSysClock := systemClock;
      systemClock := systemClock + 4;
      GatedFall(oldSysClock, systemClock, timerControl);
      if timerControl.enabled {
        var selectBit := RelevantBit(timerControl.select);
        if FallenSysClock(oldSysClock, selectBit) {
          TickTimer();
        }
      }
    }

    /** `tick_timer`. */
    method TickTimer()
      modifies this`timerCounter, this`timerOverflowed
      ensures State() == IncrementCounter(old(State()))
    {
      var overflowed := timerCounter == 0xFF;
      timerCounter := timerCounter + 1;
      timerOverflowed := overflowed;
    }

    /** `set_timer_counter`. */
    method SetTimerCounter(value: Byte)
      modifies this`timerCounter, this`timerOverflowed
      ensures State() == WriteCounter(old(State()), value)
    {
      if timerOverflowed && timerCounter == 0 {
        timerOverflowed := false;
      }
      if justOverflowed {
        timerCounter := timerModulo;
      } else {
        timerCounter := value;
      }
    }

    /** `set_tma`. */
    method SetTma(value: Byte)
      modifies this`timerCounter, this`timerModulo
      ensures State() == WriteModulo(old(State()), value)
    {
      if justOverflowed {
        timerCounter := value;
      }
      timerModulo := value;
    }

    /** `set_divider`, with the edge test gated by the enable bit. */
    method SetDivider()
      modifies this`systemClock, this`timerCounter, this`timerOverflowed
      ensures State() == WriteDivider(old(State()))
    {
      var oldSysClock := systemClock;
      systemClock := 0;
      GatedFall(oldSysClock, systemClock, timerControl);
      if timerControl.enabled && FallenSysClock(oldSysClock, RelevantBit(timerControl.select)) {
        TickTimer();
      }
    }

    /** `set_timer_control`, with disabling testing the old select bit. */
    method SetTimerControl(value: Byte)
      modifies this`timerControl, this`timerCounter, this`timerOverflowed
      ensures State() == WriteControl(old(State()), value)
    {
      var oldControl := timerControl;
      timerControl := ControlFromByte(value);
      var oldSelectBit := RelevantBit(oldControl.select);
      var selectBit := RelevantBit(timerControl.select);
      ControlFall(systemClock, oldControl, timerControl);
      if oldControl.enabled && !timerControl.enabled && IsSet(systemClock, oldSelectBit) {
        TickTimer();
      }
      if oldControl.enabled && timerControl.enabled && IsSet(systemClock, oldSelectBit) && !IsSet(systemClock, selectBit) {
        TickTimer();
      }
    }
  }
}
