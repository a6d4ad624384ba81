/**
 * Voice 4, the noise channel (core/src/hardware/apu/noise_channel.rs).
 *
 * A 15-bit linear feedback shift register is clocked once every
 * `divisor << clock_shift` cycles; the output is the envelope volume while
 * bit 0 of the register is clear. In width mode the feedback bit is copied
 * into bit 6 as well, which gives the short 7-bit sequence.
 */
module Noise {
  import opened Bits
  import Envelope
  import Apu

  datatype NoiseState = NoiseState(
    lengthEnable: bool,
    envelope: Envelope.EnvelopeState,
    volumeLoad: Byte,
    trigger: bool,
    outputVolume: Byte,
    timer: nat,
    timerLoadValue: nat,
    widthMode: bool,
    clockShift: Byte,
    divisorCode: Byte,
    lfsr: Word)

  /** `NoiseChannel::default()`. */
  const DEFAULT := NoiseState(false, Envelope.DEFAULT, 0, false, 0, 0, 0, false, 0, 0, 0)

  /** What the register writes can produce. */
  predicate Valid(s: NoiseState)
  {
    Envelope.Valid(s.envelope) && s.volumeLoad <= 15 && s.outputVolume <= 15 &&
    s.clockShift <= 15 && s.divisorCode <= 7 && s.lfsr <= 0x7FFF &&
    s.timer < 0x10000 && s.timerLoadValue < 0x10000
  }

  /** `get_divisor_from_code`. */
  function Divisor(code: nat): nat
    requires code <= 7
  {
    match code
    case 0 => 8
    case 1 => 16
    case 2 => 32
    case 3 => 48
    case 4 => 64
    case 5 => 80
    case 6 => 96
    case 7 => 112
  }

  /** The table is the usual noise divisor rule: 8 for code 0, otherwise 16 times the code. */
  lemma DivisorRule(code: nat)
    requires code <= 7
    ensures Divisor(code) == if code == 0 then 8 else 16 * code
  {
  }

  /** `v << n` on a `u16`: each doubling drops the bit pushed past bit 15. */
  function ShiftLeft16(v: nat, n: nat): (r: nat)
    requires v < 0x10000
    ensures r < 0x10000
    decreases n
  {
    if n == 0 then v else ShiftLeft16(v * 2 % 0x10000, n - 1)
  }

  /** Below the top bit nothing is lost: `v << n` is `v` times `2^n`. */
  lemma {:induction false} ShiftLeft16Exact(v: nat, n: nat, p: nat)
    requires v < 0x10000 && p == Pow2(n) && v * p < 0x10000
    ensures ShiftLeft16(v, n) == v * p
    decreases n
  {
    if n > 0 {
      assert p == 2 * Pow2(n - 1);
      ShiftLeft16Exact(v * 2, n - 1, Pow2(n - 1));
    }
  }

  function Pow2(n: nat): (p: nat)
    ensures p >= 1
  {
    if n == 0 then 1 else 2 * Pow2(n - 1)
  }

  /** `divisor << clock_shift` as a `u16`: the bits shifted past bit 15 are lost. */
  function Period(s: NoiseState): (p: nat)
    requires Valid(s)
    ensures p < 0x10000
  {
    ShiftLeft16(Divisor(s.divisorCode as nat), s.clockShift as nat)
  }

  /** One clock of the shift register: bit 0 XOR bit 1 is fed in at bit 14, and at bit 6 in width mode. */
  function LfsrStep(lfsr: Word, widthMode: bool): Word
  {
    var feedback := (lfsr & 0x1) ^ ((lfsr & 0x2) >> 1);
    var shifted := (lfsr >> 1) | (feedback << 14);
    if widthMode then (shifted & 0xFFBF) | (feedback << 6) else shifted
  }

  /** `n` clocks of the shift register. */
  function LfsrSteps(lfsr: Word, widthMode: bool, n: nat): Word
    decreases n
  {
    if n == 0 then lfsr else LfsrStep(LfsrSteps(lfsr, widthMode, n - 1), widthMode)
  }

  /** The sample of a register: the envelope volume while bit 0 is clear. */
  function Sample(lfsr: Word, volume: Byte): Byte
  {
    ((!lfsr) & 0x1) as Byte * volume
  }

  /**
   * One clock keeps the register within 15 bits, in width mode bit 6 is a
   * copy of the new bit 14, and in the long mode a register that is not all
   * zeroes never becomes all zeroes; all zeroes stays all zeroes in both.
   */
  lemma LfsrStepSpec(lfsr: Word, widthMode: bool)
    ensures lfsr <= 0x7FFF ==> LfsrStep(lfsr, widthMode) <= 0x7FFF
    ensures widthMode && lfsr <= 0x7FFF ==> (LfsrStep(lfsr, widthMode) >> 6) & 1 == (LfsrStep(lfsr, widthMode) >> 14) & 1
    ensures !widthMode && 0 < lfsr <= 0x7FFF ==> LfsrStep(lfsr, widthMode) != 0
    ensures lfsr == 0 ==> LfsrStep(lfsr, widthMode) == 0
    ensures lfsr <= 0x7FFF ==> (LfsrStep(lfsr, widthMode) >> 14) & 1 == (lfsr & 1) ^ ((lfsr >> 1) & 1)
  {
  }

  /**
   * However long it runs, the register keeps 15 bits, and in the long mode
   * a triggered register (anything but zero) never locks up at zero.
   */
  lemma {:induction false} LfsrStepsSpec(lfsr: Word, widthMode: bool, n: nat)
    requires lfsr <= 0x7FFF
    ensures LfsrSteps(lfsr, widthMode, n) <= 0x7FFF
    ensures !widthMode && lfsr != 0 ==> LfsrSteps(lfsr, widthMode, n) != 0
    decreases n
  {
    if n > 0 {
      LfsrStepsSpec(lfsr, widthMode, n - 1);
      LfsrStepSpec(LfsrSteps(lfsr, widthMode, n - 1), widthMode);
    }
  }

  /** Splitting a run of clocks: `m` clocks and then `n` more are `m + n` clocks. */
  lemma {:induction false} LfsrStepsAdd(lfsr: Word, widthMode: bool, m: nat, n: nat)
    ensures LfsrSteps(LfsrSteps(lfsr, widthMode, m), widthMode, n) == LfsrSteps(lfsr, widthMode, m + n)
    decreases n
  {
    if n > 0 {
      LfsrStepsAdd(lfsr, widthMode, m, n - 1);
    }
  }

  /** A sample is 0 or the envelope volume, by bit 0 of the register. */
  lemma SampleSpec(lfsr: Word, volume: Byte)
    ensures Sample(lfsr, volume) == if lfsr & 1 == 0 then volume else 0
  {
  }

  /** `output_volume`: the last sample, or 0 while the channel is off. */
  function OutputVolume(s: NoiseState): Byte
  {
    s.outputVolume * BoolBit(s.trigger)
  }

  /**
   * How `tick_timer` splits the elapsed cycles: whole periods of the current
   * load value, and what is left. With no load value yet, every cycle is
   * left over, truncated to 16 bits by the `as u16` cast.
   */
  function Split(cycles: nat, load: nat): (nat, nat)
  {
    if load != 0 then
      DivMod(cycles, load);
      var q: nat := cycles / load;
      var m: nat := cycles % load;
      (q, m)
    else (0, cycles % 0x10000)
  }

  /** Euclidean division of the elapsed cycles by a period. */
  lemma DivMod(a: nat, d: nat)
    requires d > 0
    ensures 0 <= a / d && (a / d) * d + a % d == a && 0 <= a % d < d
  {
  }

  /**
   * The split loses no cycle: whole periods times the load value plus the
   * rest give back the elapsed cycles, and the rest is less than one period.
   */
  lemma SplitSpec(cycles: nat, load: nat)
    ensures load != 0 ==>
              Split(cycles, load).0 * load + Split(cycles, load).1 == cycles && Split(cycles, load).1 < load
    ensures load == 0 ==> Split(cycles, load) == (0, cycles % 0x10000)
  {
    if load != 0 {
      DivMod(cycles, load);
    }
  }

  /** The whole periods of `tick_timer`: the register clocked `n` times, sampling after each. */
  function Generated(s: NoiseState, n: nat): NoiseState
  {
    if n > 0 then
      var l := LfsrSteps(s.lfsr, s.widthMode, n);
      s.(lfsr := l, outputVolume := Sample(l, s.envelope.volume))
    else s
  }

  /**
   * The rest of `tick_timer`: when the leftover cycles reach the timer, the
   * register is clocked once more and the timer reloads from the current
   * NR43 period less the cycles that were over (the `u16` subtraction
   * wraps); otherwise the timer counts down.
   */
  function Finished(s: NoiseState, remainder: nat): NoiseState
    requires Valid(s)
  {
    if remainder >= s.timer then
      var toSubtract := remainder - s.timer;
      var load := Period(s);
      var l := LfsrStep(s.lfsr, s.widthMode);
      s.(timerLoadValue := load, timer := (load - toSubtract) % 0x10000, lfsr := l,
         outputVolume := Sample(l, s.envelope.volume))
    else s.(timer := s.timer - remainder)
  }

  /** `tick_timer`. */
  function Ticked(s: NoiseState, cycles: nat): NoiseState
    requires Valid(s)
  {
    var (toGenerate, remainder) := Split(cycles, s.timerLoadValue);
    GeneratedValid(s, toGenerate);
    Finished(Generated(s, toGenerate), remainder)
  }

  /** The whole periods keep the invariant and touch only the register and the sample. */
  lemma GeneratedValid(s: NoiseState, n: nat)
    requires Valid(s)
    ensures Valid(Generated(s, n))
    ensures Generated(s, n).lfsr == LfsrSteps(s.lfsr, s.widthMode, n)
    ensures Generated(s, n).timer == s.timer && Generated(s, n).timerLoadValue == s.timerLoadValue
  {
    var g := Generated(s, n);
    assert g.timer == s.timer && g.timerLoadValue == s.timerLoadValue;
    LfsrStepsSpec(s.lfsr, s.widthMode, n);
    SampleSpec(g.lfsr, s.envelope.volume);
    assert g.lfsr <= 0x7FFF;
    assert g.outputVolume <= 15;
    assert g.envelope == s.envelope && g.volumeLoad == s.volumeLoad;
    assert g.clockShift == s.clockShift && g.divisorCode == s.divisorCode;
  }

  /** The rest of a tick keeps the invariant. */
  lemma FinishedValid(s: NoiseState, remainder: nat)
    requires Valid(s)
    ensures Valid(Finished(s, remainder))
  {
    if remainder >= s.timer {
      var l := LfsrStep(s.lfsr, s.widthMode);
      LfsrStepSpec(s.lfsr, s.widthMode);
      SampleSpec(l, s.envelope.volume);
      var f := s.(timerLoadValue := Period(s), timer := (Period(s) - (remainder - s.timer)) % 0x10000, lfsr := l,
                  outputVolume := Sample(l, s.envelope.volume));
      assert Valid(f);
      assert Finished(s, remainder) == f;
    }
  }

  /**
   * When the leftover cycles reach the timer, the register is clocked once,
   * the sample follows its new bit 0, and the timer restarts from the NR43
   * period less the overshoot.
   */
  lemma FinishedClocks(s: NoiseState, remainder: nat)
    requires Valid(s)
    requires remainder >= s.timer
    ensures Finished(s, remainder).lfsr == LfsrStep(s.lfsr, s.widthMode)
    ensures Finished(s, remainder).outputVolume == (if LfsrStep(s.lfsr, s.widthMode) & 1 == 0 then s.envelope.volume else 0)
    ensures Finished(s, remainder).timerLoadValue == Period(s)
    ensures Finished(s, remainder).timer == (Period(s) - (remainder - s.timer)) % 0x10000
  {
    SampleSpec(LfsrStep(s.lfsr, s.widthMode), s.envelope.volume);
  }

  /** Short of the timer, the leftover cycles only count the timer down. */
  lemma FinishedCountsDown(s: NoiseState, remainder: nat)
    requires Valid(s)
    requires remainder < s.timer
    ensures Finished(s, remainder) == s.(timer := s.timer - remainder)
  {
  }

  /** How many times a tick of `cycles` clocks the register. */
  function Clocks(s: NoiseState, cycles: nat): nat
  {
    Split(cycles, s.timerLoadValue).0 + (if Split(cycles, s.timerLoadValue).1 >= s.timer then 1 else 0)
  }

  /**
   * A tick keeps the invariant and clocks the register once per whole
   * period of the load value, plus once more when the rest reaches the
   * timer; without a clock only the timer moves.
   */
  lemma TickedSpec(s: NoiseState, cycles: nat)
    requires Valid(s)
    ensures Valid(Ticked(s, cycles))
    ensures Ticked(s, cycles).lfsr == LfsrSteps(s.lfsr, s.widthMode, Clocks(s, cycles))
    ensures Clocks(s, cycles) == 0 ==>
              Ticked(s, cycles) == s.(timer := s.timer - Split(cycles, s.timerLoadValue).1)
  {
    var (toGenerate, remainder) := Split(cycles, s.timerLoadValue);
    GeneratedValid(s, toGenerate);
    var g := Generated(s, toGenerate);
    FinishedValid(g, remainder);
    if remainder >= g.timer {
      FinishedClocks(g, remainder);
    } else {
      FinishedCountsDown(g, remainder);
    }
    LfsrStepsAdd(s.lfsr, s.widthMode, toGenerate, 1);
  }

  /** `read_register` (the address already reduced by `& 0xFF`); `None` is the panic. */
  function RegisterRead(s: NoiseState, address: Byte): Option<Byte>
  {
    if address == 0x1F || address == 0x20 then Some(0xFF)
    else if address == 0x21 then Some(Envelope.RegisterValue(s.envelope))
    else if address == 0x22 then Some((s.clockShift << 4) | (if s.widthMode then 0x08 else 0) | s.divisorCode)
    else if address == 0x23 then Some(if s.lengthEnable then 0xFF else 0xBF)
    else None
  }

  /** `trigger`: the register is filled with ones, the timer reloads, and the DAC decides. */
  function Trigger(s: NoiseState): NoiseState
    requires Valid(s)
  {
    var dacOff := s.volumeLoad == 0 && !s.envelope.addMode;
    s.(trigger := !dacOff, envelope := Envelope.Triggered(s.envelope), timer := Period(s), lfsr := 0x7FFF)
  }

  /**
   * `write_register` for 0x1F-0x23; `lengthStopsChannel` says whether the
   * length counter's extra clock on an NR44 write switches the channel off.
   * Other addresses are the panic of the last match arm.
   */
  function RegisterWritten(s: NoiseState, address: Byte, value: Byte, nextStep: nat, lengthStopsChannel: bool): NoiseState
    requires Valid(s)
    requires 0x1F <= address <= 0x23
  {
    if address == 0x1F || address == 0x20 then s
    else if address == 0x21 then
      var s1 := s.(envelope := Envelope.Written(s.envelope, value), volumeLoad := (value & 0xF0) >> 4);
      if s1.volumeLoad == 0 then s1.(trigger := false) else s1
    else if address == 0x22 then
      s.(clockShift := value >> 4, divisorCode := value & 0x7, widthMode := Apu.TestBit(value, 3))
    else
      var s1 := s.(lengthEnable := Apu.TestBit(value, 6));
      var s2 := if Apu.NoLengthTickNextStep(nextStep) && lengthStopsChannel then s1.(trigger := false) else s1;
      if Apu.TestBit(value, 7) then Trigger(s2) else s2
  }

  /** Every register write keeps the channel's invariant. */
  lemma RegisterWrittenValid(s: NoiseState, address: Byte, value: Byte, nextStep: nat, lengthStopsChannel: bool)
    requires Valid(s)
    requires 0x1F <= address <= 0x23
    ensures Valid(RegisterWritten(s, address, value, nextStep, lengthStopsChannel))
  {
    Envelope.RegisterRoundTrip(s.envelope, value);
    if address == 0x23 && Apu.TestBit(value, 7) {
      var s1 := s.(lengthEnable := Apu.TestBit(value, 6));
      var s2 := if Apu.NoLengthTickNextStep(nextStep) && lengthStopsChannel then s1.(trigger := false) else s1;
      TriggerSpec(s2);
    }
  }

  /** NR42 reads back exactly the byte written. */
  lemma Nr42RoundTrip(s: NoiseState, value: Byte, nextStep: nat, lengthStopsChannel: bool)
    requires Valid(s)
    ensures RegisterRead(RegisterWritten(s, 0x21, value, nextStep, lengthStopsChannel), 0x21) == Some(value)
  {
    Envelope.RegisterRoundTrip(s.envelope, value);
  }

  /** NR43 reads back exactly the byte written: shift, width bit and divisor code. */
  lemma Nr43RoundTrip(s: NoiseState, value: Byte, nextStep: nat, lengthStopsChannel: bool)
    requires Valid(s)
    ensures RegisterRead(RegisterWritten(s, 0x22, value, nextStep, lengthStopsChannel), 0x22) == Some(value)
  {
  }

  /** NR44 shows only its length-enable bit; the other bits read as 1. */
  lemma Nr44ReadBack(s: NoiseState, value: Byte, nextStep: nat, lengthStopsChannel: bool)
    requires Valid(s)
    ensures RegisterRead(RegisterWritten(s, 0x23, value, nextStep, lengthStopsChannel), 0x23) == Some(0xBF | (value & 0x40))
  {
  }

  /**
   * A trigger restarts the register at all ones with a full period and turns
   * the channel on exactly when the DAC is powered; an NR42 write that powers
   * the DAC down silences it.
   */
  lemma TriggerSpec(s: NoiseState)
    requires Valid(s)
    ensures var s' := Trigger(s);
            Valid(s') && s'.lfsr == 0x7FFF && s'.timer == Period(s) && s'.envelope.enabled &&
            (s'.trigger <==> s.volumeLoad != 0 || s.envelope.addMode) &&
            s'.timerLoadValue == s.timerLoadValue && s'.outputVolume == s.outputVolume
  {
  }

  /** Setting bit 7 of NR44 is a trigger, whatever the length counter does. */
  lemma Nr44Triggers(s: NoiseState, value: Byte, nextStep: nat, lengthStopsChannel: bool)
    requires Valid(s)
    requires Apu.TestBit(value, 7)
    ensures RegisterWritten(s, 0x23, value, nextStep, lengthStopsChannel).lfsr == 0x7FFF
    ensures RegisterWritten(s, 0x23, value, nextStep, lengthStopsChannel).timer == Period(s)
    ensures RegisterWritten(s, 0x23, value, nextStep, lengthStopsChannel).envelope.enabled
    ensures RegisterWritten(s, 0x23, value, nextStep, lengthStopsChannel).trigger <==>
              s.volumeLoad != 0 || s.envelope.addMode
  {
  }

  lemma DacOffSpec(s: NoiseState, value: Byte, nextStep: nat, lengthStopsChannel: bool)
    requires Valid(s)
    ensures value & 0xF0 == 0 ==> OutputVolume(RegisterWritten(s, 0x21, value, nextStep, lengthStopsChannel)) == 0
  {
  }

  /** `NoiseChannel`: the channel's fields, updated in place. */
  class NoiseChannel {
    var lengthEnable: bool
    var envelope: Envelope.EnvelopeState
    var volumeLoad: Byte
    var trigger: bool
    var outputVolume: Byte
    var timer: nat
    var timerLoadValue: nat
    var widthMode: bool
    var clockShift: Byte
    var divisorCode: Byte
    var lfsr: Word

    function State(): NoiseState
      reads this
    {
      NoiseState(lengthEnable, envelope, volumeLoad, trigger, outputVolume, timer, timerLoadValue,
                 widthMode, clockShift, divisorCode, lfsr)
    }

    constructor ()
      ensures State() == DEFAULT && Valid(State())
    {
      lengthEnable := false;
      envelope := Envelope.DEFAULT;
      volumeLoad := 0;
      trigger := false;
      outputVolume := 0;
      timer := 0;
      timerLoadValue := 0;
      widthMode := false;
      clockShift := 0;
      divisorCode := 0;
      lfsr := 0;
    }

    function GetOutputVolume(): (v: Byte)
      reads this
      ensures v == OutputVolume(State())
      ensures !trigger ==> v == 0
    {
      outputVolume * BoolBit(trigger)
    }

    /** `tick_timer`: the whole periods, then the leftover cycles. */
    method TickTimer(cycles: nat)
      requires Valid(State())
      modifies this`timer, this`timerLoadValue, this`lfsr, this`outputVolume
      ensures State() == Ticked(old(State()), cycles)
    {
      var split := Split(cycles, timerLoadValue);
      GeneratedValid(State(), split.0);
      GenerateSamples(split.0);
      FinishTimer(split.1);
    }

    /** The `while to_generate > 0` loop of `tick_timer`. */
    method GenerateSamples(toGenerate: nat)
      modifies this`lfsr, this`outputVolume
      ensures State() == Generated(old(State()), toGenerate)
    {
      var n: nat := toGenerate;
      while n > 0
        invariant n <= toGenerate
        invariant lfsr == LfsrSteps(old(lfsr), widthMode, toGenerate - n)
        invariant outputVolume == if n < toGenerate then Sample(lfsr, envelope.volume) else old(outputVolume)
        decreases n
      {
        lfsr := LfsrStep(lfsr, widthMode);
        outputVolume := Sample(lfsr, envelope.volume);
        n := n - 1;
      }
    }

    /** The `if remainder >= self.timer` tail of `tick_timer`. */
    method FinishTimer(remainder: nat)
      requires Valid(State())
      modifies this`timer, this`timerLoadValue, this`lfsr, this`outputVolume
      ensures State() == Finished(old(State()), remainder)
    {
      ghost var s0 := State();
      if remainder >= timer {
        var toSubtract := remainder - timer;
        var load := ShiftLeft16(Divisor(divisorCode as nat), clockShift as nat);
        assert load == Period(s0);
        var next := (load - toSubtract) % 0x10000;
        timerLoadValue := load;
        timer := next;
        lfsr := LfsrStep(lfsr, widthMode);
        outputVolume := Sample(lfsr, envelope.volume);
        assert State() == s0.(timerLoadValue := load, timer := next, lfsr := lfsr, outputVolume := outputVolume);
      } else {
        timer := timer - remainder;
      }
    }

    method TickEnvelope()
      modifies this`envelope
      ensures State() == old(State()).(envelope := Envelope.Clocked(old(envelope)))
    {
      envelope := Envelope.Clocked(envelope);
    }

    function ReadRegister(address: Byte): (v: Option<Byte>)
      reads this
      ensures v == RegisterRead(State(), address)
    {
      match address
      case 0x1F => Some(0xFF)
      case 0x20 => Some(0xFF)
      case 0x21 => Some(Envelope.RegisterValue(envelope))
      case 0x22 => Some((clockShift << 4) | (if widthMode then 0x08 else 0) | divisorCode)
      case 0x23 => Some(if lengthEnable then 0xFF else 0xBF)
      case _ => None
    }

    method WriteRegister(address: Byte, value: Byte, nextStep: nat, lengthStopsChannel: bool)
      requires Valid(State())
      requires 0x1F <= address <= 0x23
      modifies this
      ensures State() == RegisterWritten(old(State()), address, value, nextStep, lengthStopsChannel)
    {
      if address == 0x21 {
        WriteNr42(value);
      } else if address == 0x22 {
        WriteNr43(value);
      } else if address == 0x23 {
        WriteNr44(value, nextStep, lengthStopsChannel);
      }
    }

    method WriteNr42(value: Byte)
      requires Valid(State())
      modifies this`envelope, this`volumeLoad, this`trigger
      ensures State() == RegisterWritten(old(State()), 0x21, value, 0, false)
    {
      envelope := Envelope.Written(envelope, value);
      volumeLoad := (value & 0xF0) >> 4;
      if volumeLoad == 0 {
        trigger := false;
      }
    }

    method WriteNr43(value: Byte)
      requires Valid(State())
      modifies this`clockShift, this`divisorCode, this`widthMode
      ensures State() == RegisterWritten(old(State()), 0x22, value, 0, false)
    {
      clockShift := value >> 4;
      divisorCode := value & 0x7;
      widthMode := Apu.TestBit(value, 3);
    }

    method WriteNr44(value: Byte, nextStep: nat, lengthStopsChannel: bool)
      requires Valid(State())
      modifies this`lengthEnable, this`trigger, this`envelope, this`timer, this`lfsr
      ensures State() == RegisterWritten(old(State()), 0x23, value, nextStep, lengthStopsChannel)
    {
      var noLengthNext := Apu.NoLengthTickNextStep(nextStep);
      lengthEnable := Apu.TestBit(value, 6);
      if noLengthNext && lengthStopsChannel {
        trigger := false;
      }
      if Apu.TestBit(value, 7) {
        DoTrigger();
      }
    }

    method DoTrigger()
      requires Valid(State())
      modifies this`trigger, this`envelope, this`timer, this`lfsr
      ensures State() == Trigger(old(State()))
    {
      var dacOff := volumeLoad == 0 && !envelope.addMode;
      trigger := true;
      envelope := Envelope.Triggered(envelope);
      timer := ShiftLeft16(Divisor(divisorCode as nat), clockShift as nat);
      lfsr := 0x7FFF;
      if dacOff {
        trigger := false;
      }
    }

    /** `reset`: every field back to its default (the length counter's own state is not modelled). */
    method Reset()
      modifies this
      ensures State() == DEFAULT
    {
      lengthEnable := false;
      envelope := Envelope.DEFAULT;
      volumeLoad := 0;
      trigger := false;
      outputVolume := 0;
      timer := 0;
      timerLoadValue := 0;
      widthMode := false;
      clockShift := 0;
      divisorCode := 0;
      lfsr := 0;
    }
  }
}
