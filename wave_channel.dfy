/**
 * Voice 3, the wave channel (core/src/hardware/apu/wave_channel.rs).
 *
 * Thirty-two 4-bit samples, packed two to a byte in wave RAM 0xFF30-0xFF3F,
 * are played one after the other; the timer waits `(2048 - frequency) * 2`
 * ticks between samples, and NR32 selects a volume shift of 4 (mute), 0, 1
 * or 2 bits. The length counter is reduced to its `length_enable` flag.
 */
module Wave {
  import opened Bits
  import Apu

  /** The DMG power-on contents of wave RAM, one sample per entry. */
  const DMG_SAMPLES: seq<Byte> := [
    0x8, 0x4, 0x4, 0x0, 0x4, 0x3, 0xA, 0xA, 0x2, 0xD, 0x7, 0x8, 0x9, 0x2, 0x3, 0xC,
    0x6, 0x0, 0x5, 0x9, 0x5, 0x9, 0xB, 0x0, 0x3, 0x4, 0xB, 0x8, 0x2, 0xE, 0xD, 0xA]

  datatype WaveState = WaveState(
    lengthEnable: bool,
    enabled: bool,
    outputVolume: Byte,
    frequency: Word,
    timer: nat,
    dacPower: bool,
    volumeLoad: Byte,
    volume: nat,
    samples: seq<Byte>,
    samplePointer: nat)

  /** `WaveformChannel::new()`: everything zero except the DMG wave RAM. */
  const DEFAULT := WaveState(false, false, 0, 0, 0, false, 0, 0, DMG_SAMPLES, 0)

  /** Every sample is a 4-bit value. */
  predicate Nibbles(samples: seq<Byte>)
  {
    forall i :: 0 <= i < |samples| ==> samples[i] <= 15
  }

  /** What construction and the register writes can produce. */
  predicate Valid(s: WaveState)
  {
    |s.samples| == 32 && Nibbles(s.samples) && s.samplePointer < 32 &&
    s.frequency <= 0x7FF && s.timer < 0x10000 && s.volume <= 4 && s.outputVolume <= 15
  }

  /** The power-on state satisfies the invariant: the DMG samples are nibbles. */
  lemma DefaultValid()
    ensures Valid(DEFAULT)
  {
    forall i | 0 <= i < 32
      ensures DMG_SAMPLES[i] <= 15
    {
      if i < 4 {} else if i < 8 {} else if i < 12 {} else if i < 16 {}
      else if i < 20 {} else if i < 24 {} else if i < 28 {} else {}
    }
  }

  /** `(2048 - frequency) * 2`: ticks per sample for an 11-bit frequency. */
  function Period(frequency: Word): nat
    requires frequency <= 0x7FF
  {
    (2048 - frequency as int) * 2
  }

  /**
   * `set_volume_from_val`: NR32 keeps bits 5-6, which select a right shift
   * of 4, 0, 1 or 2.
   */
  function VolumeShift(value: Byte): nat
  {
    var load := value & 0x60;
    if load == 0x00 then 4
    else if load == 0x20 then 0
    else if load == 0x40 then 1
    else 2
  }

  /**
   * The four codes are the only values `value & 0x60` can take, so the
   * panic arm of the source's match is unreachable; the shifts give the
   * sample silenced, in full, halved and quartered.
   */
  lemma VolumeShiftSpec(value: Byte, sample: Byte)
    requires sample <= 15
    ensures value & 0x60 in {0x00, 0x20, 0x40, 0x60}
    ensures VolumeShift(value) <= 4
    ensures value & 0x60 == 0x00 ==> sample >> VolumeShift(value) == 0
    ensures value & 0x60 == 0x20 ==> sample >> VolumeShift(value) == sample
    ensures value & 0x60 == 0x40 ==> (sample >> VolumeShift(value)) as nat == sample as nat / 2
    ensures value & 0x60 == 0x60 ==> (sample >> VolumeShift(value)) as nat == sample as nat / 4
  {
  }

  /** The sample under the sample pointer, shifted by the volume. */
  function Sample(s: WaveState): Byte
    requires Valid(s)
  {
    s.samples[s.samplePointer] >> s.volume
  }

  /**
   * `tick_timer`: one tick. The 16-bit timer counts down; when it would
   * wrap below 0 it reloads the period and the sample pointer moves to the next
   * sample. The output is the shifted sample while the channel is enabled
   * and the DAC powered, otherwise 0.
   */
  function Ticked(s: WaveState): WaveState
    requires Valid(s)
  {
    var s1 := if s.timer == 0 then s.(timer := Period(s.frequency), samplePointer := (s.samplePointer + 1) % 32)
              else s.(timer := s.timer - 1);
    s1.(outputVolume := if s.enabled && s.dacPower then Sample(s1) else 0)
  }

  /** `n` ticks in a row. */
  function TickedTimes(s: WaveState, n: nat): WaveState
    requires Valid(s)
    decreases n
  {
    if n == 0 then s
    else
      TickedValid(s);
      TickedTimes(Ticked(s), n - 1)
  }

  /**
   * A tick keeps the channel's invariant; it either counts the timer down
   * by one, or at 0 reloads a period of 2 to 4096 ticks and moves the sample
   * pointer on modulo 32. The output is the new sample shifted by the
   * volume exactly when the channel is enabled and powered, and 0 otherwise.
   */
  lemma TickedValid(s: WaveState)
    requires Valid(s)
    ensures Valid(Ticked(s))
    ensures s.timer > 0 ==> Ticked(s).timer == s.timer - 1 && Ticked(s).samplePointer == s.samplePointer
    ensures s.timer == 0 ==> 2 <= Ticked(s).timer <= 4096 && Ticked(s).samplePointer == (s.samplePointer + 1) % 32
    ensures Ticked(s).outputVolume == (if s.enabled && s.dacPower then Sample(Ticked(s)) else 0)
    ensures Ticked(s) == s.(timer := Ticked(s).timer, samplePointer := Ticked(s).samplePointer,
                            outputVolume := Ticked(s).outputVolume)
  {
    var p := if s.timer == 0 then (s.samplePointer + 1) % 32 else s.samplePointer;
    assert s.samples[p] <= 15;
  }

  /**
   * A timer at `t` holds the sample pointer for `t` ticks and is then at 0; the
   * next tick moves to the next sample. So each sample plays for
   * `period + 1` ticks.
   */
  lemma {:induction false} CountsDown(s: WaveState, n: nat)
    requires Valid(s) && n <= s.timer
    ensures Valid(TickedTimes(s, n))
    ensures TickedTimes(s, n).timer == s.timer - n
    ensures TickedTimes(s, n).samplePointer == s.samplePointer
    ensures TickedTimes(s, n).samples == s.samples
    decreases n
  {
    if n > 0 {
      TickedValid(s);
      CountsDown(Ticked(s), n - 1);
    }
  }

  /** Byte `i` of wave RAM: sample `2i` in the high nibble, `2i + 1` in the low one. */
  function WaveRamByte(samples: seq<Byte>, i: nat): Byte
    requires |samples| == 32 && i < 16
  {
    (samples[2 * i] << 4) | samples[2 * i + 1]
  }

  /** A wave RAM address 0x30-0x3F. */
  predicate IsWaveRam(address: Byte)
  {
    0x30 <= address <= 0x3F
  }

  /**
   * `read_register` (the address already reduced by `& 0xFF`). `None` is
   * the panic of the last arm.
   */
  function RegisterRead(s: WaveState, address: Byte): Option<Byte>
    requires Valid(s)
  {
    if address == 0x1A then Some(0x7F | (if s.dacPower then 0x80 else 0))
    else if address == 0x1B then Some(0xFF)
    else if address == 0x1C then Some(0x9F | s.volumeLoad)
    else if address == 0x1D then Some(0xFF)
    else if address == 0x1E then Some(0xBF | (if s.lengthEnable then 0x40 else 0))
    else if IsWaveRam(address) then Some(WaveRamByte(s.samples, (address - 0x30) as nat))
    else None
  }

  /** `set_volume_from_val`. */
  function VolumeSet(s: WaveState, value: Byte): WaveState
  {
    s.(volumeLoad := value & 0x60, volume := VolumeShift(value))
  }

  /**
   * `enable` as the source writes it: it sets `enabled` only when the DAC
   * is powered and otherwise leaves it as it was, restarts the timer and
   * the sample pointer, and re-applies the volume code.
   */
  function EnableAsWritten(s: WaveState): WaveState
    requires s.frequency <= 0x7FF
  {
    var s1 := if s.dacPower then s.(enabled := true) else s;
    VolumeSet(s1.(timer := Period(s.frequency), samplePointer := 0), s.volumeLoad)
  }

  /**
   * `enable` as its comment intends: the channel runs after a trigger
   * exactly when the DAC is powered.
   */
  function Enable(s: WaveState): WaveState
    requires s.frequency <= 0x7FF
  {
    VolumeSet(s.(enabled := s.dacPower, timer := Period(s.frequency), samplePointer := 0), s.volumeLoad)
  }

  /**
   * The first half of an NR34 write: `enabled` from bit 7, `length_enable`
   * from bit 6 and frequency bits 8-10 from bits 0-2.
   */
  function Nr34Fields(s: WaveState, value: Byte): WaveState
  {
    s.(enabled := Apu.TestBit(value, 7), lengthEnable := Apu.TestBit(value, 6),
       frequency := (s.frequency & 0xFF) | ((value & 0x07) as Word << 8))
  }

  /** The addresses `write_register` accepts; the others are its panic arm. */
  predicate IsWritable(address: Byte)
  {
    0x1A <= address <= 0x1E || IsWaveRam(address)
  }

  /**
   * `write_register` (the address already reduced by `& 0xFF`), with the
   * trigger as intended. NR31 only loads the length counter, which is not
   * part of this model.
   */
  function RegisterWritten(s: WaveState, address: Byte, value: Byte): WaveState
    requires Valid(s) && IsWritable(address)
  {
    if address == 0x1A then s.(dacPower := Apu.TestBit(value, 7))
    else if address == 0x1B then s
    else if address == 0x1C then VolumeSet(s, value)
    else if address == 0x1D then s.(frequency := (s.frequency & 0x0700) | value as Word)
    else if address == 0x1E then
      var s1 := Nr34Fields(s, value);
      if s1.enabled then Enable(s1) else s1
    else
      var i := (address - 0x30) as nat * 2;
      s.(samples := s.samples[i := value >> 4][i + 1 := value & 0xF])
  }

  /** Register writes keep the channel's invariant. */
  lemma RegisterWrittenValid(s: WaveState, address: Byte, value: Byte)
    requires Valid(s) && IsWritable(address)
    ensures Valid(RegisterWritten(s, address, value))
  {
    VolumeShiftSpec(value, 0);
    VolumeShiftSpec(s.volumeLoad, 0);
    if IsWaveRam(address) {
      var i := (address - 0x30) as nat * 2;
      var samples' := s.samples[i := value >> 4][i + 1 := value & 0xF];
      forall j | 0 <= j < 32
        ensures samples'[j] <= 15
      {
        assert j == i || j == i + 1 || samples'[j] == s.samples[j];
      }
    }
  }

  /**
   * A wave RAM write stores the high nibble in sample `2i` and the low
   * nibble in sample `2i + 1`, changes no other sample and nothing else, and
   * reads back as the byte written.
   */
  lemma WaveRamRoundTrip(s: WaveState, address: Byte, value: Byte)
    requires Valid(s) && IsWaveRam(address)
    ensures var i := (address - 0x30) as nat * 2;
            RegisterWritten(s, address, value) ==
              s.(samples := s.samples[i := value >> 4][i + 1 := value & 0xF])
    ensures RegisterRead(RegisterWritten(s, address, value), address) == Some(value)
  {
    RegisterWrittenValid(s, address, value);
  }

  /**
   * NR30 reads back bit 7, the DAC power; NR32 reads back bits 5-6, the
   * volume code, and sets the matching shift; NR33 never reads back.
   */
  lemma ControlReadBack(s: WaveState, value: Byte)
    requires Valid(s)
    ensures RegisterWritten(s, 0x1A, value).dacPower == Apu.TestBit(value, 7)
    ensures RegisterRead(RegisterWritten(s, 0x1A, value), 0x1A) == Some(0x7F | (value & 0x80))
    ensures RegisterRead(RegisterWritten(s, 0x1C, value), 0x1C) == Some(0x9F | (value & 0x60))
    ensures RegisterWritten(s, 0x1C, value).volume == VolumeShift(value)
    ensures RegisterRead(RegisterWritten(s, 0x1D, value), 0x1D) == Some(0xFF)
  {
    RegisterWrittenValid(s, 0x1A, value);
    RegisterWrittenValid(s, 0x1C, value);
    RegisterWrittenValid(s, 0x1D, value);
  }

  /**
   * NR33 then NR34 set the whole 11-bit frequency: the low byte from NR33
   * and bits 8-10 from bits 0-2 of NR34.
   */
  lemma FrequencyFromTwoWrites(s: WaveState, lo: Byte, hi: Byte)
    requires Valid(s)
    ensures Valid(RegisterWritten(s, 0x1D, lo))
    ensures RegisterWritten(RegisterWritten(s, 0x1D, lo), 0x1E, hi).frequency == ((hi & 0x07) as Word << 8) | lo as Word
  {
    RegisterWrittenValid(s, 0x1D, lo);
  }

  /**
   * An NR34 write with bit 7 set restarts the channel: pointer 0, a full
   * period, the volume shift of the stored code, and the channel enabled
   * exactly when the DAC is powered. With bit 7 clear it switches the
   * channel off.
   */
  lemma Nr34Spec(s: WaveState, value: Byte)
    requires Valid(s)
    ensures Apu.TestBit(value, 7) ==>
              (RegisterWritten(s, 0x1E, value).enabled <==> s.dacPower)
    ensures Apu.TestBit(value, 7) ==>
              RegisterWritten(s, 0x1E, value).samplePointer == 0 &&
              RegisterWritten(s, 0x1E, value).timer == Period(RegisterWritten(s, 0x1E, value).frequency) &&
              RegisterWritten(s, 0x1E, value).volume == VolumeShift(s.volumeLoad)
    ensures !Apu.TestBit(value, 7) ==> !RegisterWritten(s, 0x1E, value).enabled
    ensures RegisterWritten(s, 0x1E, value).lengthEnable == Apu.TestBit(value, 6)
  {
  }

  /**
   * As written, an NR34 trigger leaves the channel enabled when the DAC is
   * off, because `enabled` was already set from bit 7 before `enable` runs:
   * the power-on channel (DAC off) reads as enabled after writing 0x80.
   */
  lemma EnableAsWrittenIgnoresDac()
    ensures !DEFAULT.dacPower
    ensures EnableAsWritten(Nr34Fields(DEFAULT, 0x80)).enabled
    ensures !Enable(Nr34Fields(DEFAULT, 0x80)).enabled
  {
  }

  /** Apart from `enabled`, the intended trigger is the source's. */
  lemma EnableAgrees(s: WaveState)
    requires s.frequency <= 0x7FF
    ensures Enable(s) == EnableAsWritten(s).(enabled := s.dacPower)
    ensures s.dacPower ==> Enable(s) == EnableAsWritten(s)
  {
  }

  /** `WaveformChannel`: scalar fields and the 32-entry sample buffer, updated in place. */
  class WaveformChannel {
    var lengthEnable: bool
    var enabled: bool
    var outputVolume: Byte
    var frequency: Word
    var timer: nat
    var dacPower: bool
    var volumeLoad: Byte
    var volume: nat
    const sampleBuffer: array<Byte>
    var samplePointer: nat

    function State(): WaveState
      reads this, sampleBuffer
    {
      WaveState(lengthEnable, enabled, outputVolume, frequency, timer, dacPower,
                volumeLoad, volume, sampleBuffer[..], samplePointer)
    }

    constructor ()
      ensures State() == DEFAULT && Valid(State())
    {
      lengthEnable := false;
      enabled := false;
      outputVolume := 0;
      frequency := 0;
      timer := 0;
      dacPower := false;
      volumeLoad := 0;
      volume := 0;
      sampleBuffer := new Byte[32](i requires 0 <= i < 32 => DMG_SAMPLES[i]);
      samplePointer := 0;
      new;
      assert sampleBuffer[..] == DMG_SAMPLES;
      DefaultValid();
    }

    function GetOutputVolume(): Byte
      reads this
    {
      outputVolume
    }

    function Enabled(): bool
      reads this
    {
      enabled
    }

    method TickTimer()
      requires Valid(State())
      modifies this`timer, this`samplePointer, this`outputVolume
      ensures State() == Ticked(old(State()))
    {
      if timer == 0 {
        timer := (2048 - frequency as int) * 2;
        samplePointer := (samplePointer + 1) % 32;
      } else {
        timer := timer - 1;
      }
      outputVolume := if enabled && dacPower then sampleBuffer[samplePointer] >> volume else 0;
    }

    function ReadRegister(address: Byte): (v: Option<Byte>)
      requires Valid(State())
      reads this, sampleBuffer
      ensures v == RegisterRead(State(), address)
    {
      match address
      case 0x1A => Some(0x7F | (if dacPower then 0x80 else 0))
      case 0x1B => Some(0xFF)
      case 0x1C => Some(0x9F | volumeLoad)
      case 0x1D => Some(0xFF)
      case 0x1E => Some(0xBF | (if lengthEnable then 0x40 else 0))
      case _ =>
        if 0x30 <= address <= 0x3F then
          var offset := (address - 0x30) as nat * 2;
          Some((sampleBuffer[offset] << 4) | sampleBuffer[offset + 1])
        else None
    }

    method WriteRegister(address: Byte, value: Byte)
      requires Valid(State()) && IsWritable(address)
      modifies this, sampleBuffer
      ensures State() == RegisterWritten(old(State()), address, value)
    {
      if address == 0x1A {
        dacPower := value & 0x80 == 0x80;
      } else if address == 0x1B {
      } else if address == 0x1C {
        SetVolumeFromVal(value);
      } else if address == 0x1D {
        frequency := (frequency & 0x0700) | value as Word;
      } else if address == 0x1E {
        WriteNr34(value);
      } else {
        WriteSamples(address, value);
      }
    }

    method WriteNr34(value: Byte)
      requires Valid(State())
      modifies this`enabled, this`lengthEnable, this`frequency, this`timer, this`samplePointer,
               this`volumeLoad, this`volume
      ensures State() == RegisterWritten(old(State()), 0x1E, value)
    {
      enabled := value & 0x80 != 0;
      lengthEnable := value & 0x40 == 0x40;
      frequency := (frequency & 0xFF) | ((value & 0x07) as Word << 8);
      if enabled {
        DoEnable();
      }
    }

    method WriteSamples(address: Byte, value: Byte)
      requires Valid(State()) && IsWaveRam(address)
      modifies sampleBuffer
      ensures State() == RegisterWritten(old(State()), address, value)
    {
      var offset := (address - 0x30) as nat * 2;
      sampleBuffer[offset] := value >> 4;
      sampleBuffer[offset + 1] := value & 0xF;
    }

    /** `enable`, with `enabled` following the DAC as intended. */
    method DoEnable()
      requires frequency <= 0x7FF
      modifies this`enabled, this`timer, this`samplePointer, this`volumeLoad, this`volume
      ensures State() == Enable(old(State()))
    {
      Restart();
      SetVolumeFromVal(volumeLoad);
    }

    /** The first three steps of `enable`: `enabled` from the DAC, the timer reloaded, the sample pointer reset. */
    method Restart()
      requires frequency <= 0x7FF
      modifies this`enabled, this`timer, this`samplePointer
      ensures State() == old(State()).(enabled := old(dacPower), timer := Period(old(frequency)), samplePointer := 0)
    {
      enabled := dacPower;
      timer := (2048 - frequency as int) * 2;
      samplePointer := 0;
    }

    method SetVolumeFromVal(value: Byte)
      modifies this`volumeLoad, this`volume
      ensures State() == VolumeSet(old(State()), value)
    {
      volumeLoad := value & 0x60;
      var load := volumeLoad;
      if load == 0x00 {
        volume := 4;
      } else if load == 0x20 {
        volume := 0;
      } else if load == 0x40 {
        volume := 1;
      } else {
        volume := 2;
      }
    }
  }
}
