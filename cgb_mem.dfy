/** The CGB speed-switch register KEY1 (core/src/hardware/mmu/cgb_mem.rs). */
module CgbMem {
  import opened Bits

  datatype CgbState = CgbState(doubleSpeed: bool, prepareSpeedSwitch: Byte)

  /** `toggle_speed`: flips the speed, reports it in bit 7 and clears the prepare bit 0. */
  function Toggle(s: CgbState): (s': CgbState)
  {
    var speed := !s.doubleSpeed;
    CgbState(speed, if speed then 0x80 | (s.prepareSpeedSwitch & 0x7E) else s.prepareSpeedSwitch & 0x7E)
  }

  /** `should_prepare`: bit 0 of KEY1. */
  predicate ShouldPrepare(s: CgbState)
  {
    s.prepareSpeedSwitch & 0x01 == 1
  }

  /** `write_prepare_switch`: bit 7 is read-only, bits 0-6 come from the value. */
  function WritePrepare(s: CgbState, value: Byte): (s': CgbState)
  {
    s.(prepareSpeedSwitch := (s.prepareSpeedSwitch & 0x80) | (value & 0x7F))
  }

  /**
   * After a toggle the speed flag is flipped, bit 7 reports the new speed,
   * bits 1-6 are kept and no switch is pending any more.
   */
  lemma ToggleSpec(s: CgbState)
    ensures Toggle(s).doubleSpeed == !s.doubleSpeed
    ensures (Toggle(s).prepareSpeedSwitch & 0x80 != 0) == Toggle(s).doubleSpeed
    ensures Toggle(s).prepareSpeedSwitch & 0x7E == s.prepareSpeedSwitch & 0x7E
    ensures !ShouldPrepare(Toggle(s))
  {
  }

  /** A write keeps the speed bit and stores the low seven bits of the value. */
  lemma WritePrepareSpec(s: CgbState, value: Byte)
    ensures WritePrepare(s, value).prepareSpeedSwitch & 0x80 == s.prepareSpeedSwitch & 0x80
    ensures WritePrepare(s, value).prepareSpeedSwitch & 0x7F == value & 0x7F
    ensures ShouldPrepare(WritePrepare(s, value)) <==> value & 0x01 == 1
    ensures WritePrepare(s, value).doubleSpeed == s.doubleSpeed
  {
  }

  class CgbData {
    var doubleSpeed: bool
    var prepareSpeedSwitch: Byte

    function State(): CgbState
      reads this
    {
      CgbState(doubleSpeed, prepareSpeedSwitch)
    }

    /** `CgbData::new`: single speed, KEY1 = 0x7E. */
    constructor ()
      ensures State() == CgbState(false, 0x7E)
      ensures !ShouldPrepare(State())
    {
      doubleSpeed := false;
      prepareSpeedSwitch := 0x7E;
    }

    method ToggleSpeed()
      modifies this
      ensures State() == Toggle(old(State()))
    {
      doubleSpeed := !doubleSpeed;
      prepareSpeedSwitch := if doubleSpeed then 0x80 | (prepareSpeedSwitch & 0x7E) else prepareSpeedSwitch & 0x7E;
    }

    function ReadPrepareSwitch(): (v: Byte)
      reads this
      ensures v == State().prepareSpeedSwitch
    {
      prepareSpeedSwitch
    }

    method WritePrepareSwitch(value: Byte)
      modifies this
      ensures State() == WritePrepare(old(State()), value)
    {
      prepareSpeedSwitch := (prepareSpeedSwitch & 0x80) | (value & 0x7F);
    }
  }
}
