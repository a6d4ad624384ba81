/**
 * Voices 1 and 2, the square waves (core/src/hardware/apu/square_channel.rs).
 *
 * A timer of `(2048 - frequency) * 4` cycles steps through one of four
 * eight-step duty patterns; the output is the envelope volume where the
 * pattern is high. Registers 0x10-0x14 belong to voice 1 and 0x15-0x19 to
 * voice 2, which shares the code but has no sweep.
 *
 * Collaborators defined outside this file are left abstract: the length
 * counter is reduced to its `length_enable` flag plus an input saying
 * whether its extra clock switches the channel off, and the sweep unit
 * contributes only the NR10 bits it reads as.
 */
module SquareChannel {
  import opened Bits
  import Envelope
  import Apu

  /** `SQUARE_WAVE_TABLE`: 12.5 %, 25 %, 50 % and 75 % duty. */
  const SQUARE_WAVE_TABLE: seq<seq<Byte>> := [
    [0, 0, 0, 0, 0, 0, 0, 1],
    [1, 0, 0, 0, 0, 0, 0, 1],
    [1, 0, 0, 0, 0, 1, 1, 1],
    [0, 1, 1, 1, 1, 1, 1, 0]]

  /** The high steps of duty pattern `d` out of eight: 1, 2, 4 and 6. */
  function HighSteps(row: seq<Byte>): nat
  {
    if row == [] then 0 else (if row[0] == 1 then 1 else 0) + HighSteps(row[1..])
  }

  /** The four patterns are high on 1, 2, 4 and 6 of their 8 steps. */
  lemma DutyCycle(d: nat)
    requires d < 4
    ensures HighSteps(SQUARE_WAVE_TABLE[d]) == [1, 2, 4, 6][d]
  {
    var t := SQUARE_WAVE_TABLE[d];
    assert t[1..][1..][1..][1..][1..][1..][1..][1..] == [];
  }

  datatype SquareState = SquareState(
    lengthEnable: bool,
    envelope: Envelope.EnvelopeState,
    volumeLoad: Byte,
    trigger: bool,
    outputVolume: Byte,
    frequency: Word,
    timer: nat,
    waveTableIndex: nat,
    dutySelect: nat)

  /** `SquareWaveChannel::default()`. */
  const DEFAULT := SquareState(false, Envelope.DEFAULT, 0, false, 0, 0, 0, 0, 0)

  /** What the register writes can produce. */
  predicate Valid(s: SquareState)
  {
    Envelope.Valid(s.envelope) && s.volumeLoad <= 15 && s.outputVolume <= 15 &&
    s.frequency <= 0x7FF && s.waveTableIndex < 8 && s.dutySelect < 4
  }

  /** `(2048 - frequency) * 4`: the timer period of an 11-bit frequency. */
  function Period(frequency: Word): nat
    requires frequency <= 0x7FF
  {
    (2048 - frequency as int) * 4
  }

  /** `output_volume`: the last sample, or 0 while the channel is off. */
  function OutputVolume(s: SquareState): Byte
  {
    s.outputVolume * BoolBit(s.trigger)
  }

  /**
   * `tick_timer`: the timer counts down by `cycles`, stopping at 0 (the
   * cycles beyond 0 are dropped); at 0 it reloads the period and the duty
   * step moves on.
   */
  function Ticked(s: SquareState, cycles: nat): SquareState
    requires Valid(s)
  {
    var newVal := if s.timer > cycles then s.timer - cycles else 0;
    if newVal == 0 then
      var index := (s.waveTableIndex + 1) % 8;
      s.(timer := Period(s.frequency), waveTableIndex := index,
         outputVolume := DutyOutput(s.envelope.volume, s.dutySelect, index))
    else s.(timer := newVal)
  }

  /** `volume * SQUARE_WAVE_TABLE[d][i]`: the volume on a high step of the pattern, 0 on a low one. */
  function DutyOutput(volume: Byte, d: nat, i: nat): (v: Byte)
    requires d < 4 && i < 8
    ensures v == if SQUARE_WAVE_TABLE[d][i] == 1 then volume else 0
  {
    DutyStep(d, i);
    volume * SQUARE_WAVE_TABLE[d][i]
  }

  /** Every duty step is a 0 or a 1. */
  lemma DutyStep(d: nat, i: nat)
    requires d < 4 && i < 8
    ensures |SQUARE_WAVE_TABLE[d]| == 8 && SQUARE_WAVE_TABLE[d][i] <= 1
  {
  }

  /**
   * A tick either only counts the timer down, or, once it reaches 0,
   * reloads a period of 4 to 8192 cycles and moves to the next duty step,
   * whose output is the envelope volume on a high step and 0 on a low one.
   * The channel stays within its invariant and the timer is never left at 0.
   */
  lemma TickedSpec(s: SquareState, cycles: nat)
    requires Valid(s)
    ensures var s' := Ticked(s, cycles);
            Valid(s') && s'.timer > 0
    ensures var s' := Ticked(s, cycles);
            if s.timer > cycles then s' == s.(timer := s.timer - cycles)
            else 4 <= s'.timer <= 8192 &&
                 s' == s.(timer := s'.timer, waveTableIndex := s'.waveTableIndex,
                          outputVolume := s'.outputVolume) &&
                 s'.waveTableIndex == (s.waveTableIndex + 1) % 8 &&
                 s'.outputVolume == (if SQUARE_WAVE_TABLE[s.dutySelect][s'.waveTableIndex] == 1
                                     then s.envelope.volume else 0)
  {
    if s.timer <= cycles {
      DutyStep(s.dutySelect, (s.waveTableIndex + 1) % 8);
    }
  }

  /**
   * `read_register` (the address already reduced by `& 0xFF`). `sweepBits`
   * is what the sweep unit reads as. `None` is the panic of the last arm.
   */
  function RegisterRead(s: SquareState, address: Byte, sweepBits: Byte): Option<Byte>
  {
    if address == 0x10 then Some(0x80 | sweepBits)
    else if address == 0x11 || address == 0x16 then Some(0x3F | ((s.dutySelect % 256) as Byte << 6))
    else if address == 0x12 || address == 0x17 then Some(Envelope.RegisterValue(s.envelope))
    else if address == 0x13 || address == 0x18 then Some(0xFF)
    else if address == 0x14 || address == 0x19 then Some(0xBF | (if s.lengthEnable then 0x40 else 0))
    else if address == 0x15 then Some(0xFF)
    else None
  }

  /**
   * `trigger`: the channel starts with the 50 % duty pattern and a full
   * timer period, the envelope restarted, and stays off when the DAC has no
   * power (`volume_load` 0 in decrease mode). `sweepStops` says whether the
   * sweep unit's overflow check on trigger switches the channel off.
   */
  function Trigger(s: SquareState, sweepStops: bool): SquareState
    requires Valid(s)
  {
    var dacOff := s.volumeLoad == 0 && !s.envelope.addMode;
    s.(trigger := !sweepStops && !dacOff, envelope := Envelope.Triggered(s.envelope),
       timer := Period(s.frequency), dutySelect := 2)
  }

  /**
   * `write_register` for 0x11-0x14 and 0x16-0x19 (the sweep register is not
   * part of this model). `lengthStopsChannel` says whether the length
   * counter's extra clock on an NRx4 write switches the channel off.
   * Addresses outside the list are the panic of the last match arm.
   */
  function RegisterWritten(s: SquareState, address: Byte, value: Byte, nextStep: nat, lengthStopsChannel: bool, sweepStops: bool): SquareState
    requires Valid(s)
    requires address in {0x11, 0x12, 0x13, 0x14, 0x16, 0x17, 0x18, 0x19}
  {
    if address == 0x11 || address == 0x16 then
      s.(dutySelect := ((value & 0xC0) >> 6) as nat)
    else if address == 0x12 || address == 0x17 then
      var s1 := s.(envelope := Envelope.Written(s.envelope, value), volumeLoad := (value & 0xF0) >> 4);
      if s1.volumeLoad == 0 then s1.(trigger := false) else s1
    else if address == 0x13 || address == 0x18 then
      s.(frequency := (s.frequency & 0x0700) | value as Word)
    else
      var noLengthNext := Apu.NoLengthTickNextStep(nextStep);
      var s1 := s.(lengthEnable := Apu.TestBit(value, 6),
                   frequency := (s.frequency & 0xFF) | ((value & 0x07) as Word << 8));
      var s2 := if noLengthNext && lengthStopsChannel then s1.(trigger := false) else s1;
      if Apu.TestBit(value, 7) then Trigger(s2, sweepStops) else s2
  }

  /** Register writes keep the channel's invariant. */
  lemma RegisterWrittenValid(s: SquareState, address: Byte, value: Byte, nextStep: nat, lengthStopsChannel: bool, sweepStops: bool)
    requires Valid(s)
    requires address in {0x11, 0x12, 0x13, 0x14, 0x16, 0x17, 0x18, 0x19}
    ensures Valid(RegisterWritten(s, address, value, nextStep, lengthStopsChannel, sweepStops))
  {
    Envelope.RegisterRoundTrip(s.envelope, value);
  }

  /**
   * NRx3 then NRx4 set the whole 11-bit frequency: the low byte from NRx3,
   * bits 8-10 from bits 0-2 of NRx4, whatever the frequency was.
   */
  lemma FrequencyFromTwoWrites(s: SquareState, lo: Byte, hi: Byte, nextStep: nat, lengthStopsChannel: bool, sweepStops: bool)
    requires Valid(s)
    ensures var s1 := RegisterWritten(s, 0x13, lo, nextStep, lengthStopsChannel, sweepStops);
            Valid(s1) &&
            RegisterWritten(s1, 0x14, hi, nextStep, lengthStopsChannel, sweepStops).frequency == ((hi & 0x07) as Word << 8) | lo as Word
  {
  }

  /**
   * What a register reads after a write: the duty bits of NRx1 (the length
   * bits read as 1), NRx2 unchanged, NRx3 never, and bit 6 of NRx4.
   */
  lemma ReadAfterWrite(s: SquareState, value: Byte, nextStep: nat, lengthStopsChannel: bool, sweepStops: bool, sweepBits: Byte)
    requires Valid(s)
    ensures RegisterRead(RegisterWritten(s, 0x11, value, nextStep, lengthStopsChannel, sweepStops), 0x11, sweepBits) == Some(value | 0x3F)
    ensures RegisterRead(RegisterWritten(s, 0x12, value, nextStep, lengthStopsChannel, sweepStops), 0x12, sweepBits) == Some(value)
    ensures RegisterRead(RegisterWritten(s, 0x13, value, nextStep, lengthStopsChannel, sweepStops), 0x13, sweepBits) == Some(0xFF)
    ensures RegisterRead(RegisterWritten(s, 0x14, value, nextStep, lengthStopsChannel, sweepStops), 0x14, sweepBits) == Some(0xBF | (value & 0x40))
  {
    Envelope.RegisterRoundTrip(s.envelope, value);
  }

  /** An NRx2 write that powers the DAC down silences the channel. */
  lemma DacOffSilences(s: SquareState, value: Byte, nextStep: nat, lengthStopsChannel: bool, sweepStops: bool)
    requires Valid(s)
    requires value & 0xF0 == 0
    ensures OutputVolume(RegisterWritten(s, 0x12, value, nextStep, lengthStopsChannel, sweepStops)) == 0
  {
  }

  /**
   * A trigger selects the 50 % pattern, reloads a full timer period and
   * restarts the envelope, and turns the channel on exactly when the DAC is
   * powered and the sweep does not object; nothing else changes.
   */
  lemma TriggerSpec(s: SquareState, sweepStops: bool)
    requires Valid(s)
    ensures Valid(Trigger(s, sweepStops))
    ensures Trigger(s, sweepStops).trigger <==> !sweepStops && (s.volumeLoad != 0 || s.envelope.addMode)
    ensures Trigger(s, sweepStops).dutySelect == 2 && Trigger(s, sweepStops).timer == Period(s.frequency)
    ensures Trigger(s, sweepStops).envelope.enabled && Trigger(s, sweepStops).envelope.period == s.envelope.periodLoad
    ensures Trigger(s, sweepStops).frequency == s.frequency && Trigger(s, sweepStops).waveTableIndex == s.waveTableIndex
  {
  }

  /** Setting bit 7 of NRx4 triggers the channel, whatever the length counter does. */
  lemma Nrx4Triggers(s: SquareState, value: Byte, nextStep: nat, lengthStopsChannel: bool, sweepStops: bool)
    requires Valid(s)
    requires Apu.TestBit(value, 7)
    ensures RegisterWritten(s, 0x14, value, nextStep, lengthStopsChannel, sweepStops).trigger <==>
              !sweepStops && (s.volumeLoad != 0 || s.envelope.addMode)
    ensures RegisterWritten(s, 0x14, value, nextStep, lengthStopsChannel, sweepStops).dutySelect == 2
    ensures RegisterWritten(s, 0x14, value, nextStep, lengthStopsChannel, sweepStops).envelope.enabled
  {
  }

  /** `SquareWaveChannel`: the channel's fields, updated in place. */
  class SquareWaveChannel {
    var lengthEnable: bool
    var envelope: Envelope.EnvelopeState
    var volumeLoad: Byte
    var trigger: bool
    var outputVolume: Byte
    var frequency: Word
    var timer: nat
    var waveTableIndex: nat
    var dutySelect: nat

    function State(): SquareState
      reads this
    {
      SquareState(lengthEnable, envelope, volumeLoad, trigger, outputVolume, frequency, timer, waveTableIndex, dutySelect)
    }

    constructor ()
      ensures State() == DEFAULT && Valid(State())
    {
      lengthEnable := false;
      envelope := Envelope.DEFAULT;
      volumeLoad := 0;
      trigger := false;
      outputVolume := 0;
      frequency := 0;
      timer := 0;
      waveTableIndex := 0;
      dutySelect := 0;
    }

    function GetOutputVolume(): (v: Byte)
      reads this
      ensures v == OutputVolume(State())
      ensures !trigger ==> v == 0
    {
      outputVolume * BoolBit(trigger)
    }

    function Triggered(): bool
      reads this
    {
      trigger
    }

    method TickTimer(cycles: nat)
      requires Valid(State())
      modifies this`timer, this`waveTableIndex, this`outputVolume
      ensures State() == Ticked(old(State()), cycles)
    {
      var newVal := if timer > cycles then timer - cycles else 0;
      if newVal == 0 {
        NextDutyStep();
      } else {
        timer := newVal;
      }
    }

    /** The timer ran out: it is reloaded and the next duty step sets the output. */
    method NextDutyStep()
      requires Valid(State())
      modifies this`timer, this`waveTableIndex, this`outputVolume
      ensures State() == Ticked(old(State()), old(timer))
    {
      timer := Period(frequency);
      waveTableIndex := (waveTableIndex + 1) % 8;
      outputVolume := DutyOutput(envelope.volume, dutySelect, waveTableIndex);
    }

    method TickEnvelope()
      modifies this`envelope
      ensures State() == old(State()).(envelope := Envelope.Clocked(old(envelope)))
    {
      envelope := Envelope.Clocked(envelope);
    }

    function ReadRegister(address: Byte, sweepBits: Byte): (v: Option<Byte>)
      reads this
      ensures v == RegisterRead(State(), address, sweepBits)
    {
      match address
      case 0x10 => Some(0x80 | sweepBits)
      case 0x11 | 0x16 => Some(0x3F | ((dutySelect % 256) as Byte << 6))
      case 0x12 | 0x17 => Some(Envelope.RegisterValue(envelope))
      case 0x13 | 0x18 => Some(0xFF)
      case 0x14 | 0x19 => Some(0xBF | (if lengthEnable then 0x40 else 0))
      case 0x15 => Some(0xFF)
      case _ => None
    }

    method WriteRegister(address: Byte, value: Byte, nextStep: nat, lengthStopsChannel: bool, sweepStops: bool)
      requires Valid(State())
      requires address in {0x11, 0x12, 0x13, 0x14, 0x16, 0x17, 0x18, 0x19}
      modifies this
      ensures State() == RegisterWritten(old(State()), address, value, nextStep, lengthStopsChannel, sweepStops)
    {
      if address == 0x11 || address == 0x16 {
        dutySelect := ((value & 0xC0) >> 6) as nat;
      } else if address == 0x12 || address == 0x17 {
        WriteNrx2(value);
      } else if address == 0x13 || address == 0x18 {
        frequency := (frequency & 0x0700) | value as Word;
      } else {
        WriteNrx4(value, nextStep, lengthStopsChannel, sweepStops);
      }
    }

    method WriteNrx2(value: Byte)
      requires Valid(State())
      modifies this`envelope, this`volumeLoad, this`trigger
      ensures State() == RegisterWritten(old(State()), 0x12, value, 0, false, false)
    {
      envelope := Envelope.Written(envelope, value);
      volumeLoad := (value & 0xF0) >> 4;
      if volumeLoad == 0 {
        trigger := false;
      }
    }

    method WriteNrx4(value: Byte, nextStep: nat, lengthStopsChannel: bool, sweepStops: bool)
      requires Valid(State())
      modifies this`lengthEnable, this`frequency, this`trigger, this`envelope, this`timer, this`dutySelect
      ensures State() == RegisterWritten(old(State()), 0x14, value, nextStep, lengthStopsChannel, sweepStops)
    {
      var noLengthNext := Apu.NoLengthTickNextStep(nextStep);
      lengthEnable := Apu.TestBit(value, 6);
      frequency := (frequency & 0xFF) | ((value & 0x07) as Word << 8);
      if noLengthNext && lengthStopsChannel {
        trigger := false;
      }
      if Apu.TestBit(value, 7) {
        DoTrigger(sweepStops);
      }
    }

    method DoTrigger(sweepStops: bool)
      requires Valid(State())
      modifies this`trigger, this`envelope, this`timer, this`dutySelect
      ensures State() == Trigger(old(State()), sweepStops)
    {
      var dacOff := volumeLoad == 0 && !envelope.addMode;
      trigger := true;
      envelope := Envelope.Triggered(envelope);
      timer := Period(frequency);
      if sweepStops {
        trigger := false;
      }
      dutySelect := 2;
      if dacOff {
        trigger := false;
      }
    }

    /** `reset`: every field back to its default (the length counter's own state is not modelled). */
    method Reset()
      modifies this
      ensures State() == DEFAULT
    {
      lengthEnable := false;
      envelope := Envelope.DEFAULT;
      volumeLoad := 0;
      trigger := false;
      outputVolume := 0;
      frequency := 0;
      timer := 0;
      waveTableIndex := 0;
      dutySelect := 0;
    }
  }
}
