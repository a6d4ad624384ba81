/**
 * The APU's own registers and its frame sequencer
 * (core/src/hardware/apu/mod.rs).
 *
 * NR50 (0xFF24) holds the VIN bits and the two master volumes, NR51
 * (0xFF25) the per-voice left/right enables and NR52 (0xFF26) the global
 * sound enable. The frame sequencer steps through 0..7 every 8192 cycles
 * and clocks the length counters, the sweep and the envelopes. The four
 * voices are collaborators: the model says which voice a register belongs
 * to and which of their clocks a sequencer step fires, and takes their
 * `triggered` flags as inputs.
 */
module Apu {
  import opened Bits

  const FRAME_SEQUENCE_CYCLES: nat := 8192

  /** `test_bit`. */
  predicate TestBit(value: Byte, bit: nat)
    requires bit < 8
  {
    value & (1 << bit) == (1 << bit)
  }

  /** `set_bit`: sets bit `bit` when `on` holds, and never changes any other bit. */
  function SetBit(output: Byte, bit: nat, on: bool): (r: Byte)
    requires bit < 8
    ensures TestBit(r, bit) == (on || TestBit(output, bit))
    ensures forall j :: 0 <= j < 8 && j != bit ==> TestBit(r, j) == TestBit(output, j)
  {
    if on then output | (1 << bit) else output
  }

  /** Two bytes are equal exactly when they agree on every bit `test_bit` can name. */
  lemma BitsDecideByte(a: Byte, b: Byte)
    requires forall i :: 0 <= i < 8 ==> TestBit(a, i) == TestBit(b, i)
    ensures a == b
  {
    assert TestBit(a, 0) == TestBit(b, 0) && TestBit(a, 1) == TestBit(b, 1);
    assert TestBit(a, 2) == TestBit(b, 2) && TestBit(a, 3) == TestBit(b, 3);
    assert TestBit(a, 4) == TestBit(b, 4) && TestBit(a, 5) == TestBit(b, 5);
    assert TestBit(a, 6) == TestBit(b, 6) && TestBit(a, 7) == TestBit(b, 7);
  }

  /** `no_length_tick_next_step`. */
  predicate NoLengthTickNextStep(next: nat)
  {
    next in [1, 3, 5, 7]
  }

  /** The steps without a length clock are exactly the odd steps of the sequence. */
  lemma NoLengthTickNextStepSpec(next: nat)
    ensures NoLengthTickNextStep(next) <==> next < 8 && next % 2 == 1
  {
  }

  /** The clocks one frame-sequencer step gives the voices. */
  datatype FrameTicks = FrameTicks(length: bool, sweep: bool, envelope: bool)

  /**
   * The `match` of `tick_frame_sequencer`: length on 0, 2, 4 and 6 (only
   * while sound is on, as `tick_length` checks), sweep on 2 and 6, the
   * envelopes on 7.
   */
  function StepTicks(step: nat, soundOn: bool): FrameTicks
  {
    FrameTicks(
      length := soundOn && step in {0, 2, 4, 6},
      sweep := step in {2, 6},
      envelope := step == 7)
  }

  /** How many of the ticks in `ts` satisfy `p`. */
  function CountOf(ts: seq<FrameTicks>, p: FrameTicks -> bool): nat
  {
    if ts == [] then 0 else (if p(ts[0]) then 1 else 0) + CountOf(ts[1..], p)
  }

  /** The ticks of `n` steps starting at `step`, the step advancing modulo 8. */
  function Schedule(step: nat, n: nat, soundOn: bool): (ts: seq<FrameTicks>)
    ensures |ts| == n
    ensures forall i :: 0 <= i < n ==> ts[i] == StepTicks((step + i) % 8, soundOn)
  {
    seq(n, i requires 0 <= i => StepTicks((step + i) % 8, soundOn))
  }

  lemma {:induction false} CountOfSnoc(ts: seq<FrameTicks>, x: FrameTicks, p: FrameTicks -> bool)
    ensures CountOf(ts + [x], p) == CountOf(ts, p) + (if p(x) then 1 else 0)
  {
    if ts != [] {
      assert (ts + [x])[1..] == ts[1..] + [x];
      CountOfSnoc(ts[1..], x, p);
    }
  }

  /** Moving the window of eight steps on by one step drops a step and appends the same one. */
  lemma WindowShift(start: nat, p: FrameTicks -> bool)
    ensures CountOf(Schedule(start + 1, 8, true), p) == CountOf(Schedule(start, 8, true), p)
  {
    var ts := Schedule(start, 8, true);
    var x := StepTicks((start + 8) % 8, true);
    assert Schedule(start + 1, 8, true) == ts[1..] + [x];
    CountOfSnoc(ts[1..], x, p);
  }

  const LENGTH_TICK := (t: FrameTicks) => t.length
  const SWEEP_TICK := (t: FrameTicks) => t.sweep
  const ENVELOPE_TICK := (t: FrameTicks) => t.envelope

  lemma FirstCycle()
    ensures var ts := Schedule(0, 8, true);
            CountOf(ts, LENGTH_TICK) == 4 && CountOf(ts, SWEEP_TICK) == 2 && CountOf(ts, ENVELOPE_TICK) == 1
  {
    var ts := Schedule(0, 8, true);
    var none := FrameTicks(false, false, false);
    var len := FrameTicks(true, false, false);
    var both := FrameTicks(true, true, false);
    assert ts == [len, none, both, none, len, none, both, FrameTicks(false, false, true)];
  }

  /**
   * Over any eight consecutive steps, wherever they start, the length
   * counters are clocked four times (256 Hz), the sweep twice (128 Hz) and
   * the envelopes once (64 Hz).
   */
  lemma {:induction false} FrameSequencerRates(start: nat)
    ensures var ts := Schedule(start, 8, true);
            CountOf(ts, LENGTH_TICK) == 4 && CountOf(ts, SWEEP_TICK) == 2 && CountOf(ts, ENVELOPE_TICK) == 1
  {
    if start == 0 {
      FirstCycle();
    } else {
      FrameSequencerRates(start - 1);
      WindowShift(start - 1, LENGTH_TICK);
      WindowShift(start - 1, SWEEP_TICK);
      WindowShift(start - 1, ENVELOPE_TICK);
    }
  }

  /** The control registers of the APU; the two enable arrays as sequences. */
  datatype Control = Control(
    vinLEnable: bool,
    vinREnable: bool,
    leftVolume: Byte,
    rightVolume: Byte,
    leftChannelEnable: seq<bool>,
    rightChannelEnable: seq<bool>,
    globalSoundEnable: bool,
    frameSequencerStep: nat,
    lastFrameSequenceTick: nat)

  predicate ValidControl(c: Control)
  {
    |c.leftChannelEnable| == 4 && |c.rightChannelEnable| == 4 &&
    c.leftVolume <= 7 && c.rightVolume <= 7 && c.frameSequencerStep < 8
  }

  /** `APU::new`: both volumes 7, every voice on the left, voices 1 and 2 on the right. */
  const INITIAL := Control(false, false, 7, 7, [true, true, true, true], [true, true, false, false], true, 0, 0)

  /** NR50 as read: VIN left in bit 7, VIN right in bit 3, left volume bits 4-6, right volume bits 0-2. */
  function Nr50(c: Control): Byte
  {
    SetBit(SetBit(0, 7, c.vinLEnable), 3, c.vinREnable) | (c.leftVolume << 4) | c.rightVolume
  }

  function WriteNr50(c: Control, value: Byte): Control
  {
    c.(vinLEnable := TestBit(value, 7), vinREnable := TestBit(value, 3),
       rightVolume := value & 0x07, leftVolume := (value & 0x70) >> 4)
  }

  /** NR50 reads back every byte written to it, and the volumes stay within 0..7. */
  lemma Nr50RoundTrip(c: Control, value: Byte)
    ensures Nr50(WriteNr50(c, value)) == value
    ensures WriteNr50(c, value).leftVolume <= 7 && WriteNr50(c, value).rightVolume <= 7
  {
  }

  /** Four flags as the low nibble of a byte, flag `i` in bit `i`. */
  function PackNibble(b: seq<bool>): (r: Byte)
    requires |b| == 4
  {
    BoolBit(b[0]) | (BoolBit(b[1]) << 1) | (BoolBit(b[2]) << 2) | (BoolBit(b[3]) << 3)
  }

  /** NR51 as read: right enables in bits 0-3, left enables in bits 4-7. */
  function Nr51(c: Control): Byte
    requires ValidControl(c)
  {
    PackNibble(c.rightChannelEnable) | (PackNibble(c.leftChannelEnable) << 4)
  }

  /** NR51 names voice `i` on the right by bit `i` and on the left by bit `i + 4`. */
  lemma Nr51Bits(c: Control, i: nat)
    requires ValidControl(c) && i < 4
    ensures TestBit(Nr51(c), i) == c.rightChannelEnable[i]
    ensures TestBit(Nr51(c), i + 4) == c.leftChannelEnable[i]
  {
    var r := c.rightChannelEnable;
    var l := c.leftChannelEnable;
    assert Nr51(c) == PackNibble(r) | (PackNibble(l) << 4);
    if i == 0 {
      assert TestBit(Nr51(c), 0) == r[0] && TestBit(Nr51(c), 4) == l[0];
    } else if i == 1 {
      assert TestBit(Nr51(c), 1) == r[1] && TestBit(Nr51(c), 5) == l[1];
    } else if i == 2 {
      assert TestBit(Nr51(c), 2) == r[2] && TestBit(Nr51(c), 6) == l[2];
    } else {
      assert TestBit(Nr51(c), 3) == r[3] && TestBit(Nr51(c), 7) == l[3];
    }
  }

  function WriteNr51(c: Control, value: Byte): Control
  {
    c.(rightChannelEnable := seq(4, i requires 0 <= i < 4 => TestBit(value, i)),
       leftChannelEnable := seq(4, i requires 0 <= i < 4 => TestBit(value, i + 4)))
  }

  /** NR51 reads back every byte written to it. */
  lemma Nr51RoundTrip(c: Control, value: Byte)
    requires ValidControl(c)
    ensures ValidControl(WriteNr51(c, value))
    ensures Nr51(WriteNr51(c, value)) == value
  {
    var c' := WriteNr51(c, value);
    forall i | 0 <= i < 8
      ensures TestBit(Nr51(c'), i) == TestBit(value, i)
    {
      if i < 4 {
        Nr51Bits(c', i);
      } else {
        Nr51Bits(c', i - 4);
      }
    }
    BitsDecideByte(Nr51(c'), value);
  }

  /**
   * NR52 as read: bits 4-6 always 1, the global enable in bit 7 and the
   * `triggered` flag of voice `i + 1` in bit `i`.
   */
  function Nr52(c: Control, triggered: seq<bool>): (r: Byte)
    requires |triggered| == 4
  {
    SetBit(SetBit(SetBit(SetBit(SetBit(0x70, 7, c.globalSoundEnable), 3, triggered[3]),
      2, triggered[2]), 1, triggered[1]), 0, triggered[0])
  }

  lemma Nr52Spec(c: Control, triggered: seq<bool>)
    requires |triggered| == 4
    ensures Nr52(c, triggered) & 0x70 == 0x70
    ensures TestBit(Nr52(c, triggered), 7) == c.globalSoundEnable
    ensures forall i :: 0 <= i < 4 ==> TestBit(Nr52(c, triggered), i) == triggered[i]
  {
  }

  /** `reset`: volumes, VIN bits, voice enables and the sequencer step cleared. */
  function Cleared(c: Control): Control
  {
    c.(vinLEnable := false, vinREnable := false, rightVolume := 0, leftVolume := 0,
       leftChannelEnable := [false, false, false, false],
       rightChannelEnable := [false, false, false, false],
       frameSequencerStep := 0)
  }

  /**
   * An NR52 write: bit 7 switches the sound. Switching it off resets the
   * control registers; switching it back on restarts the sequencer at step
   * 0, 8192 cycles from `currentTime`.
   */
  function WriteNr52(c: Control, value: Byte, currentTime: nat): Control
  {
    var c1 := c.(globalSoundEnable := TestBit(value, 7));
    if !c1.globalSoundEnable then Cleared(c1)
    else if !c.globalSoundEnable then c1.(lastFrameSequenceTick := currentTime, frameSequencerStep := 0)
    else c1
  }

  lemma WriteNr52Spec(c: Control, value: Byte, currentTime: nat, triggered: seq<bool>)
    requires ValidControl(c) && |triggered| == 4
    ensures var c' := WriteNr52(c, value, currentTime);
            ValidControl(c') &&
            TestBit(Nr52(c', triggered), 7) == TestBit(value, 7) &&
            (!TestBit(value, 7) ==> Nr50(c') == 0 && Nr51(c') == 0 && c'.frameSequencerStep == 0) &&
            (TestBit(value, 7) && !c.globalSoundEnable ==>
               c'.frameSequencerStep == 0 && c'.lastFrameSequenceTick == currentTime) &&
            (TestBit(value, 7) && c.globalSoundEnable ==> c' == c)
  {
    Nr52Spec(WriteNr52(c, value, currentTime), triggered);
  }

  /**
   * The write gate: with the sound off only NR52 can be written, and on a
   * DMG also the length registers NR41 (0x20) and NR31 (0x1B).
   */
  predicate WriteBlocked(c: Control, address: Byte, cgb: bool)
  {
    !c.globalSoundEnable && address != 0x26 && (cgb || address !in [0x20, 0x1B])
  }

  /** The owner of an APU register (the address already reduced by `& 0xFF`). */
  datatype Target = Voice(voice: nat) | Nr50Reg | Nr51Reg | Nr52Reg | Unused

  /** The `match` arms of `read_register` and `write_register`; `None` for the unreachable arm. */
  function Route(address: Byte): (t: Option<Target>)
    ensures t.Some? <==> 0x10 <= address <= 0x2F
  {
    if 0x10 <= address <= 0x14 then Some(Voice(1))
    else if 0x15 <= address <= 0x19 then Some(Voice(2))
    else if 0x1A <= address <= 0x1E then Some(Voice(3))
    else if 0x1F <= address <= 0x23 then Some(Voice(4))
    else if address == 0x24 then Some(Nr50Reg)
    else if address == 0x25 then Some(Nr51Reg)
    else if address == 0x26 then Some(Nr52Reg)
    else if 0x27 <= address <= 0x2F then Some(Unused)
    else None
  }

  /** Every voice owns five consecutive registers starting at 0x10. */
  lemma RouteVoices(address: Byte)
    requires 0x10 <= address <= 0x23
    ensures Route(address) == Some(Voice((address as nat - 0x10) / 5 + 1))
  {
  }

  /**
   * An APU register write other than a voice register: ignored while the
   * gate is shut, otherwise NR50, NR51 or NR52 as above; 0x27-0x2F take
   * nothing. A voice register changes nothing here.
   */
  function WriteControl(c: Control, address: Byte, value: Byte, cgb: bool, currentTime: nat): Control
  {
    if WriteBlocked(c, address, cgb) then c
    else if address == 0x24 then WriteNr50(c, value)
    else if address == 0x25 then WriteNr51(c, value)
    else if address == 0x26 then WriteNr52(c, value, currentTime)
    else c
  }

  /** While the sound is off, writes reach no control register but NR52. */
  lemma SoundOffWritesIgnored(c: Control, address: Byte, value: Byte, cgb: bool, currentTime: nat)
    requires !c.globalSoundEnable && address != 0x26
    ensures WriteControl(c, address, value, cgb, currentTime) == c
  {
  }

  /**
   * The elapsed cycles shifted right by `speed_multiplier`, which is 1 in
   * CGB double speed and 0 otherwise.
   */
  function ScaledElapsed(last: nat, now: nat, doubleSpeed: bool): nat
    requires last <= now
  {
    if doubleSpeed then (now - last) / 2 else now - last
  }

  /** The number of sequencer steps due at `now`. */
  function StepsDue(last: nat, now: nat, doubleSpeed: bool): nat
    requires last <= now
  {
    ScaledElapsed(last, now, doubleSpeed) / FRAME_SEQUENCE_CYCLES
  }

  /** The time of the last step after `n` more steps of `FRAME_SEQUENCE_CYCLES << speed_multiplier` cycles. */
  function StepTime(last: nat, n: nat, doubleSpeed: bool): nat
  {
    last + (if doubleSpeed then n * (2 * FRAME_SEQUENCE_CYCLES) else n * FRAME_SEQUENCE_CYCLES)
  }

  /** `APU`: the control registers, updated in place; the voices are not part of this class. */
  class APU {
    var vinLEnable: bool
    var vinREnable: bool
    var leftVolume: Byte
    var rightVolume: Byte
    const leftChannelEnable: array<bool>
    const rightChannelEnable: array<bool>
    var globalSoundEnable: bool
    var frameSequencerStep: nat
    var lastFrameSequenceTick: nat

    function State(): Control
      reads this, leftChannelEnable, rightChannelEnable
    {
      Control(vinLEnable, vinREnable, leftVolume, rightVolume, leftChannelEnable[..],
        rightChannelEnable[..], globalSoundEnable, frameSequencerStep, lastFrameSequenceTick)
    }

    predicate Valid()
      reads this, leftChannelEnable, rightChannelEnable
    {
      leftChannelEnable != rightChannelEnable && ValidControl(State())
    }

    constructor ()
      ensures Valid() && State() == INITIAL
    {
      vinLEnable := false;
      vinREnable := false;
      leftVolume := 7;
      rightVolume := 7;
      leftChannelEnable := new bool[4](_ => true);
      rightChannelEnable := new bool[4](i => i < 2);
      globalSoundEnable := true;
      frameSequencerStep := 0;
      lastFrameSequenceTick := 0;
      new;
      assert leftChannelEnable[..] == [true, true, true, true];
      assert rightChannelEnable[..] == [true, true, false, false];
    }

    /**
     * `tick_frame_sequencer`: one step for every whole 8192 cycles since the
     * last step, the elapsed time first divided by `2^speed`. The ticks of
     * each step are returned for the voices.
     */
    method TickFrameSequencer(currentTime: nat, doubleSpeed: bool) returns (ticks: seq<FrameTicks>)
      requires Valid() && lastFrameSequenceTick <= currentTime
      modifies this`frameSequencerStep, this`lastFrameSequenceTick
      ensures Valid()
      ensures var n := StepsDue(old(lastFrameSequenceTick), currentTime, doubleSpeed);
              frameSequencerStep == (old(frameSequencerStep) + n) % 8 &&
              lastFrameSequenceTick == StepTime(old(lastFrameSequenceTick), n, doubleSpeed)
      ensures ticks == Schedule(old(frameSequencerStep), StepsDue(old(lastFrameSequenceTick), currentTime, doubleSpeed), globalSoundEnable)
      ensures lastFrameSequenceTick <= currentTime
      ensures ScaledElapsed(lastFrameSequenceTick, currentTime, doubleSpeed) < FRAME_SEQUENCE_CYCLES
    {
      var cycleDelta: nat := if doubleSpeed then (currentTime - lastFrameSequenceTick) / 2 else currentTime - lastFrameSequenceTick;
      var stride: nat := if doubleSpeed then 2 * FRAME_SEQUENCE_CYCLES else FRAME_SEQUENCE_CYCLES;
      ghost var delta0 := cycleDelta;
      ghost var step0 := frameSequencerStep;
      ghost var last0 := lastFrameSequenceTick;
      ticks := [];
      var k := 0;
      while cycleDelta >= FRAME_SEQUENCE_CYCLES
        invariant cycleDelta + k * FRAME_SEQUENCE_CYCLES == delta0
        invariant lastFrameSequenceTick == StepTime(last0, k, doubleSpeed)
        invariant frameSequencerStep == (step0 + k) % 8
        invariant |ticks| == k
        invariant forall i :: 0 <= i < k ==> ticks[i] == StepTicks((step0 + i) % 8, globalSoundEnable)
        decreases cycleDelta
      {
        ticks := ticks + [StepTicks(frameSequencerStep, globalSoundEnable)];
        frameSequencerStep := (frameSequencerStep + 1) % 8;
        cycleDelta := cycleDelta - FRAME_SEQUENCE_CYCLES;
        lastFrameSequenceTick := lastFrameSequenceTick + stride;
        k := k + 1;
      }
      SequencerCaughtUp(currentTime, last0, doubleSpeed, k);
      assert ticks == Schedule(step0, k, globalSoundEnable);
    }

    /** The NR50 read. */
    function ReadNr50(): (v: Byte)
      reads this, leftChannelEnable, rightChannelEnable
      ensures v == Nr50(State())
    {
      var output := SetBit(SetBit(0, 7, vinLEnable), 3, vinREnable);
      output | (leftVolume << 4) | rightVolume
    }

    /** The NR51 read: the two loops over the enable arrays. */
    method ReadNr51() returns (output: Byte)
      requires Valid()
      ensures output == Nr51(State())
    {
      output := 0;
      for i := 0 to 4
        invariant forall j :: 0 <= j < i ==> TestBit(output, j) == rightChannelEnable[j]
        invariant forall j :: i <= j < 8 ==> !TestBit(output, j)
      {
        output := SetBit(output, i, rightChannelEnable[i]);
      }
      for i := 0 to 4
        invariant forall j :: 0 <= j < 4 ==> TestBit(output, j) == rightChannelEnable[j]
        invariant forall j :: 0 <= j < i ==> TestBit(output, j + 4) == leftChannelEnable[j]
        invariant forall j :: i + 4 <= j < 8 ==> !TestBit(output, j)
      {
        output := SetBit(output, i + 4, leftChannelEnable[i]);
      }
      forall j | 0 <= j < 8
        ensures TestBit(output, j) == TestBit(Nr51(State()), j)
      {
        if j < 4 {
          Nr51Bits(State(), j);
        } else {
          Nr51Bits(State(), j - 4);
        }
      }
      BitsDecideByte(output, Nr51(State()));
    }

    /** The NR52 read, given the voices' `triggered` flags. */
    function ReadNr52(triggered: seq<bool>): (v: Byte)
      requires |triggered| == 4
      reads this, leftChannelEnable, rightChannelEnable
      ensures v == Nr52(State(), triggered)
    {
      var output := SetBit(0x70, 7, globalSoundEnable);
      var output := SetBit(output, 3, triggered[3]);
      var output := SetBit(output, 2, triggered[2]);
      var output := SetBit(output, 1, triggered[1]);
      var output := SetBit(output, 0, triggered[0]);
      output
    }

    /** `reset` of the control registers. */
    method Reset()
      requires Valid()
      modifies this, leftChannelEnable, rightChannelEnable
      ensures Valid() && State() == Cleared(old(State()))
    {
      vinLEnable := false;
      vinREnable := false;
      rightVolume := 0;
      leftVolume := 0;
      leftChannelEnable[0], leftChannelEnable[1], leftChannelEnable[2], leftChannelEnable[3] := false, false, false, false;
      rightChannelEnable[0], rightChannelEnable[1], rightChannelEnable[2], rightChannelEnable[3] := false, false, false, false;
      frameSequencerStep := 0;
      assert leftChannelEnable[..] == [false, false, false, false];
      assert rightChannelEnable[..] == [false, false, false, false];
    }

    /**
     * `write_register` for the APU's own registers; a write to a voice
     * register passes the gate here and is then the voice's.
     */
    method WriteRegister(address: Byte, value: Byte, cgb: bool, currentTime: nat)
      requires Valid() && Route(address).Some?
      modifies this, leftChannelEnable, rightChannelEnable
      ensures Valid() && State() == WriteControl(old(State()), address, value, cgb, currentTime)
    {
      if !globalSoundEnable && address != 0x26 && (cgb || address !in [0x20, 0x1B]) {
        return;
      }
      if address == 0x24 {
        SetNr50(value);
      } else if address == 0x25 {
        SetNr51(value);
      } else if address == 0x26 {
        SetNr52(value, currentTime);
      }
    }

    method SetNr50(value: Byte)
      requires Valid()
      modifies this`vinLEnable, this`vinREnable, this`rightVolume, this`leftVolume
      ensures Valid() && State() == WriteNr50(old(State()), value)
    {
      vinLEnable := TestBit(value, 7);
      vinREnable := TestBit(value, 3);
      rightVolume := value & 0x07;
      leftVolume := (value & 0x70) >> 4;
    }

    method SetNr51(value: Byte)
      requires Valid()
      modifies leftChannelEnable, rightChannelEnable
      ensures Valid() && State() == WriteNr51(old(State()), value)
    {
      for i := 0 to 4
        invariant forall j :: 0 <= j < i ==> rightChannelEnable[j] == TestBit(value, j)
        invariant leftChannelEnable[..] == old(leftChannelEnable[..])
      {
        rightChannelEnable[i] := TestBit(value, i);
      }
      for i := 0 to 4
        invariant forall j :: 0 <= j < 4 ==> rightChannelEnable[j] == TestBit(value, j)
        invariant forall j :: 0 <= j < i ==> leftChannelEnable[j] == TestBit(value, j + 4)
      {
        leftChannelEnable[i] := TestBit(value, i + 4);
      }
      assert rightChannelEnable[..] == seq(4, i requires 0 <= i < 4 => TestBit(value, i));
      assert leftChannelEnable[..] == seq(4, i requires 0 <= i < 4 => TestBit(value, i + 4));
    }

    method SetNr52(value: Byte, currentTime: nat)
      requires Valid()
      modifies this, leftChannelEnable, rightChannelEnable
      ensures Valid() && State() == WriteNr52(old(State()), value, currentTime)
    {
      var previousEnable := globalSoundEnable;
      globalSoundEnable := TestBit(value, 7);
      if !globalSoundEnable {
        Reset();
      } else if !previousEnable {
        lastFrameSequenceTick := currentTime;
        frameSequencerStep := 0;
      }
    }
  }

  /**
   * The loop's exit: when fewer than 8192 scaled cycles are left after `k`
   * steps, `k` is the number of steps due and the new time of the last step
   * is fewer than 8192 scaled cycles behind.
   */
  lemma SequencerCaughtUp(currentTime: nat, last0: nat, doubleSpeed: bool, k: nat)
    requires last0 <= currentTime
    requires k * FRAME_SEQUENCE_CYCLES <= ScaledElapsed(last0, currentTime, doubleSpeed) < k * FRAME_SEQUENCE_CYCLES + FRAME_SEQUENCE_CYCLES
    ensures k == StepsDue(last0, currentTime, doubleSpeed)
    ensures StepTime(last0, k, doubleSpeed) <= currentTime
    ensures ScaledElapsed(StepTime(last0, k, doubleSpeed), currentTime, doubleSpeed) < FRAME_SEQUENCE_CYCLES
  {
  }
}
