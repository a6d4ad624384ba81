/**
 * The volume envelope shared by the square and noise channels
 * (`EnvelopeFeature` in core/src/hardware/apu/channel_features.rs).
 *
 * NRx2 holds the starting volume in bits 4-7, the direction in bit 3 and
 * the period in bits 0-2. Every envelope clock of the frame sequencer
 * counts the period down; when it runs out the volume moves one step, and
 * a step that would leave 0..15 stops the envelope until the next trigger.
 */
module Envelope {
  import opened Bits

  datatype EnvelopeState = EnvelopeState(
    volume: Byte,
    enabled: bool,
    addMode: bool,
    periodLoad: Byte,
    period: Byte)

  /** `EnvelopeFeature::default()`. */
  const DEFAULT := EnvelopeState(0, false, false, 0, 0)

  /** What the register writes can produce: a 4-bit volume and 3-bit periods. */
  predicate Valid(e: EnvelopeState)
  {
    e.volume <= 15 && e.periodLoad <= 7 && e.period <= 7
  }

  /**
   * `tick`. The `u8` addition `volume + 1` wraps like the other byte
   * arithmetic of the model; under `Valid` it never does.
   */
  function Clocked(e: EnvelopeState): EnvelopeState
  {
    if e.enabled && e.period > 0 then
      var e1 := e.(period := e.period - 1);
      if e1.period == 0 then
        if e.addMode then
          if e.volume + 1 <= 15 then e1.(volume := e.volume + 1, period := e.periodLoad)
          else e1.(enabled := false)
        else if e.volume == 0 then e1.(enabled := false)
        else e1.(volume := e.volume - 1, period := e.periodLoad)
      else e1
    else e
  }

  /** `trigger`: the envelope runs again from a full period. */
  function Triggered(e: EnvelopeState): (e': EnvelopeState)
    ensures e'.enabled && e'.period == e.periodLoad
    ensures e' == e.(enabled := true, period := e.periodLoad)
  {
    e.(enabled := true, period := e.periodLoad)
  }

  /** `read_register`. */
  function RegisterValue(e: EnvelopeState): Byte
  {
    (e.volume << 4) | e.periodLoad | (if e.addMode then 0x08 else 0)
  }

  /** `write_register`: the fields of NRx2, and the period reloaded at once. */
  function Written(e: EnvelopeState, value: Byte): EnvelopeState
  {
    e.(volume := (value & 0xF0) >> 4, addMode := value & 0x08 == 0x08,
       periodLoad := value & 0x07, period := value & 0x07)
  }

  /** `n` envelope clocks in a row. */
  function ClockedTimes(e: EnvelopeState, n: nat): EnvelopeState
    decreases n
  {
    if n == 0 then e else ClockedTimes(Clocked(e), n - 1)
  }

  /**
   * NRx2 reads back exactly the byte written, and a write leaves the
   * envelope in range whatever it held before.
   */
  lemma RegisterRoundTrip(e: EnvelopeState, value: Byte)
    ensures RegisterValue(Written(e, value)) == value
    ensures Valid(Written(e, value))
    ensures Written(e, value).enabled == e.enabled
  {
  }

  /**
   * A clock does nothing to a stopped envelope or a zero period; otherwise
   * it moves the volume by exactly one in the chosen direction, or keeps it
   * and stops the envelope at the end of the range.
   */
  lemma ClockedSpec(e: EnvelopeState)
    requires Valid(e)
    ensures Valid(Clocked(e))
    ensures !e.enabled || e.period == 0 ==> Clocked(e) == e
    ensures e.addMode ==> Clocked(e).volume == e.volume || Clocked(e).volume == e.volume + 1
    ensures !e.addMode ==> Clocked(e).volume == e.volume || Clocked(e).volume == e.volume - 1
    ensures Clocked(e).volume != e.volume ==> Clocked(e).period == e.periodLoad && Clocked(e).enabled
    ensures Clocked(e).enabled != e.enabled ==>
              !Clocked(e).enabled && Clocked(e).volume == e.volume &&
              (if e.addMode then e.volume == 15 else e.volume == 0)
  {
  }

  /**
   * However many clocks pass, the volume stays within 0..15 and moves only
   * in the envelope's direction.
   */
  lemma {:induction false} ClockedTimesMonotone(e: EnvelopeState, n: nat)
    requires Valid(e)
    ensures Valid(ClockedTimes(e, n))
    ensures ClockedTimes(e, n).addMode == e.addMode
    ensures e.addMode ==> ClockedTimes(e, n).volume >= e.volume
    ensures !e.addMode ==> ClockedTimes(e, n).volume <= e.volume
    decreases n
  {
    if n > 0 {
      ClockedSpec(e);
      ClockedTimesMonotone(Clocked(e), n - 1);
    }
  }

  /** A stopped envelope never changes again until it is triggered. */
  lemma {:induction false} StoppedStaysPut(e: EnvelopeState, n: nat)
    requires !e.enabled
    ensures ClockedTimes(e, n) == e
    decreases n
  {
    if n > 0 {
      StoppedStaysPut(Clocked(e), n - 1);
    }
  }

  /** `EnvelopeFeature`: the five fields, updated in place. */
  class EnvelopeFeature {
    var volume: Byte
    var envelopeEnabled: bool
    var envelopeAddMode: bool
    var envelopePeriodLoadValue: Byte
    var envelopePeriod: Byte

    function State(): EnvelopeState
      reads this
    {
      EnvelopeState(volume, envelopeEnabled, envelopeAddMode, envelopePeriodLoadValue, envelopePeriod)
    }

    constructor ()
      ensures State() == DEFAULT
    {
      volume := 0;
      envelopeEnabled := false;
      envelopeAddMode := false;
      envelopePeriodLoadValue := 0;
      envelopePeriod := 0;
    }

    method Tick()
      modifies this
      ensures State() == Clocked(old(State()))
    {
      if envelopeEnabled && envelopePeriod > 0 {
        envelopePeriod := envelopePeriod - 1;
        if envelopePeriod == 0 {
          if envelopeAddMode {
            var newVal := volume + 1;
            if newVal <= 15 {
              volume := newVal;
              envelopePeriod := envelopePeriodLoadValue;
            } else {
              envelopeEnabled := false;
            }
          } else {
            if volume != 0 {
              volume := volume - 1;
              envelopePeriod := envelopePeriodLoadValue;
            } else {
              envelopeEnabled := false;
            }
          }
        }
      }
    }

    method Trigger()
      modifies this`envelopeEnabled, this`envelopePeriod
      ensures State() == Triggered(old(State()))
    {
      envelopeEnabled := true;
      envelopePeriod := envelopePeriodLoadValue;
    }

    function ReadRegister(): (v: Byte)
      reads this
      ensures v == RegisterValue(State())
    {
      (volume << 4) | envelopePeriodLoadValue | (if envelopeAddMode then 0x08 else 0)
    }

    method WriteRegister(value: Byte)
      modifies this
      ensures State() == Written(old(State()), value)
    {
      volume := (value & 0xF0) >> 4;
      envelopeAddMode := value & 0x08 == 0x08;
      envelopePeriodLoadValue := value & 0x07;
      envelopePeriod := envelopePeriodLoadValue;
    }
  }
}
