/**
 * The interrupt sources, the IF/IE bit layout and the interrupt module that
 * collects requested interrupts (core/src/io/interrupts.rs).
 */
module Interrupts {
  import opened Bits

  /** The five interrupt sources. */
  datatype Interrupt = VBlank | LcdStat | Timer | Serial | Joypad

  /** The discriminant of each source, which is also its bit in IF and IE. */
  function Bit(i: Interrupt): (b: Byte)
  {
    match i
    case VBlank => 0x01
    case LcdStat => 0x02
    case Timer => 0x04
    case Serial => 0x08
    case Joypad => 0x10
  }

  // The `InterruptFlags` bit layout.
  const FLAG_VBLANK: Byte := 0x01
  const FLAG_LCD: Byte := 0x02
  const FLAG_TIMER: Byte := 0x04
  const FLAG_SERIAL: Byte := 0x08
  const FLAG_JOYPAD: Byte := 0x10
  const FLAG_UNUSED: Byte := 0xE0

  /** Every bit the flag type declares. */
  const ALL_FLAGS: Byte := FLAG_VBLANK | FLAG_LCD | FLAG_TIMER | FLAG_SERIAL | FLAG_JOYPAD | FLAG_UNUSED

  /** The order `Interrupts::iter` yields: the dispatch priority. */
  const PRIORITY: seq<Interrupt> := [VBlank, LcdStat, Timer, Serial, Joypad]

  /** The order `InterruptFlags::iter` yields. */
  const FLAG_ORDER: seq<Byte> := [FLAG_VBLANK, FLAG_LCD, FLAG_TIMER, FLAG_SERIAL, FLAG_JOYPAD]

  /**
   * Each source's discriminant is bit k of a byte, where k is its place in the
   * priority order, and the flag iterator yields the same bits in the same order.
   */
  lemma PriorityIsBitOrder(k: nat)
    requires k < |PRIORITY|
    ensures Bit(PRIORITY[k]) == (1 as Byte) << k
    ensures |FLAG_ORDER| == |PRIORITY| && FLAG_ORDER[k] == Bit(PRIORITY[k])
  {
  }

  /** The sources are distinct and occupy bits 0-4, disjoint from the unused bits. */
  lemma BitLayout(i: Interrupt, j: Interrupt)
    ensures Bit(i) & FLAG_UNUSED == 0
    ensures (Bit(i) & Bit(j) != 0) <==> i == j
    ensures ALL_FLAGS == 0xFF
  {
  }

  /**
   * `InterruptFlags::from_bits_truncate`: keeps the declared bits. Because
   * `UNUSED` covers bits 5-7, every bit is declared and nothing is dropped.
   */
  function FromBitsTruncate(v: Byte): (r: Byte)
    ensures r == v
  {
    v & ALL_FLAGS
  }

  /** `InterruptFlags::contains_interrupt`. */
  function ContainsInterrupt(flags: Byte, i: Interrupt): (r: bool)
    ensures r <==> flags & Bit(i) != 0
  {
    flags & FromBitsTruncate(Bit(i)) == FromBitsTruncate(Bit(i))
  }

  /**
   * The first source in priority order whose bit is set in `pending`: the one
   * the CPU dispatches. A specification for the dispatch loop in fetch.rs.
   */
  function FirstPending(pending: Byte): (r: Option<Interrupt>)
  {
    FirstPendingFrom(pending, 0)
  }

  /** Whether source `i` is requested in `pending`. */
  predicate IsPending(pending: Byte, i: Interrupt)
  {
    pending & Bit(i) != 0
  }

  function FirstPendingFrom(pending: Byte, k: nat): (r: Option<Interrupt>)
    requires k <= |PRIORITY|
    decreases |PRIORITY| - k
  {
    if k == |PRIORITY| then None
    else if IsPending(pending, PRIORITY[k]) then Some(PRIORITY[k])
    else FirstPendingFrom(pending, k + 1)
  }

  /** The place of a source in the priority order. */
  function Rank(i: Interrupt): (k: nat)
    ensures k < |PRIORITY| && PRIORITY[k] == i
  {
    match i
    case VBlank => 0
    case LcdStat => 1
    case Timer => 2
    case Serial => 3
    case Joypad => 4
  }

  /** Whether no source at places `k..5` of the priority order is pending. */
  predicate NonePendingFrom(pending: Byte, k: nat)
  {
    forall j :: k <= j < |PRIORITY| ==> !IsPending(pending, PRIORITY[j])
  }

  lemma {:induction false} FirstPendingFromSpec(pending: Byte, k: nat)
    requires k <= |PRIORITY|
    ensures FirstPendingFrom(pending, k).None? <==> NonePendingFrom(pending, k)
    ensures FirstPendingFrom(pending, k).Some? ==>
              k <= Rank(FirstPendingFrom(pending, k).value) &&
              IsPending(pending, FirstPendingFrom(pending, k).value) &&
              NonePendingBetween(pending, k, Rank(FirstPendingFrom(pending, k).value))
    decreases |PRIORITY| - k
  {
    if k < |PRIORITY| && !IsPending(pending, PRIORITY[k]) {
      FirstPendingFromSpec(pending, k + 1);
    }
  }

  /** Whether no source at places `lo..hi` of the priority order is pending. */
  predicate NonePendingBetween(pending: Byte, lo: nat, hi: nat)
    requires hi <= |PRIORITY|
  {
    forall j :: lo <= j < hi ==> !IsPending(pending, PRIORITY[j])
  }

  /**
   * The dispatched source is pending, every source of higher priority is not,
   * and nothing is dispatched exactly when none of bits 0-4 is set.
   */
  lemma FirstPendingIsHighestPriority(pending: Byte)
    ensures FirstPending(pending).Some? ==>
              IsPending(pending, FirstPending(pending).value) &&
              NonePendingBetween(pending, 0, Rank(FirstPending(pending).value))
    ensures FirstPending(pending).None? <==> pending & 0x1F == 0
  {
    FirstPendingFromSpec(pending, 0);
    assert NonePendingFrom(pending, 0) <==> pending & 0x1F == 0 by {
      assert PRIORITY == [VBlank, LcdStat, Timer, Serial, Joypad];
      assert NonePendingFrom(pending, 0) <==>
        !IsPending(pending, VBlank) && !IsPending(pending, LcdStat) && !IsPending(pending, Timer) &&
        !IsPending(pending, Serial) && !IsPending(pending, Joypad);
    }
  }

  /** `InterruptModule`: the enable mask, the request flags and an unused queue. */
  class InterruptModule {
    var interruptEnable: Byte
    var interruptFlag: Byte
    var pendingInterrupts: seq<Interrupt>

    /** `InterruptModule::default()`. */
    constructor ()
      ensures interruptEnable == 0 && interruptFlag == 0 && pendingInterrupts == []
    {
      interruptEnable := 0;
      interruptFlag := 0;
      pendingInterrupts := [];
    }

    /** Requests the interrupts in `interrupt`; no bit of IF is ever cleared. */
    method InsertInterrupt(interrupt: Byte)
      modifies this`interruptFlag
      ensures interruptFlag == old(interruptFlag) | interrupt
      ensures old(interruptFlag) & interruptFlag == old(interruptFlag)
      ensures interrupt & interruptFlag == interrupt
    {
      interruptFlag := interruptFlag | interrupt;
    }
  }
}
