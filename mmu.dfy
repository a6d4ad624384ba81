/**
 * The CGB-era memory bus `Memory` (core/src/hardware/mmu/mod.rs, with the
 * DMA helpers of core/src/hardware/mmu/dma.rs): the work RAM, high RAM, I/O
 * array and KEY1 it owns, the scheduler it ticks, and the routing of every
 * read and write to them or to a component it does not own.
 *
 * The components outside this model (cartridge, PPU, APU, timer, joypad,
 * interrupt registers, boot ROM image) are seen through the calls the bus
 * makes to them: every such call is appended to `trace`, and what a read
 * from a component returns, or which line the PPU reports, is a function of
 * the calls made so far (`Devices`). The HDMA registers are a value of the
 * bus whose register-level behaviour is such a function too.
 */
module Mmu {
  import opened Bits
  import opened BusRouting
  import opened Scheduler
  import opened EventChain
  import W = Wram
  import Io = IoRegisters
  import C = CgbMem
  import RF = RegisterFlags
  import P = Ppu
  import PM = PpuMemory

  datatype HdmaMode = GDMA | HDMA

  /** The HDMA state the bus reads: `source_address`, `destination_address`, `transfer_size`, `transfer_ongoing`, `current_mode`. */
  datatype HdmaRegister = HdmaRegister(
    sourceAddress: Address, destinationAddress: Address, transferSize: Address,
    transferOngoing: bool, currentMode: HdmaMode)

  /** A call the bus makes into a component it does not own. */
  datatype Call =
    | PortWrite(port: Port, address: Address, value: Byte)
    | SerialOutput(c: Byte)                  // the `println!` of a serial transfer
    | ApuTick(cycles: nat)                   // `apu.tick`
    | TimersTick                             // `timers.tick_timers`
    | PpuVblank | PpuOamSearch | PpuLcdTransfer(cgb: bool) | PpuHblank | PpuVblankWait
    | FrameSequencerTick | SamplingTick      // the two APU event handlers
    | TimerOverflowHandled                   // `timers.timer_overflow`
    | PostOverflowCleared                    // `timers.just_overflowed = false`
    | OamDmaTransfer(data: seq<Byte>)        // `ppu.oam_dma_transfer`
    | OamDmaFinished                         // `ppu.oam_dma_finished`
    | MCyclesPassed(count: nat)              // the M-cycles an H-blank HDMA stalls for

  /** What the components outside the model answer, given the calls made so far. */
  datatype Devices = Devices(
    peek: (seq<Call>, Port, Address) -> Byte,
    currentY: seq<Call> -> nat,
    hdma5: HdmaRegister -> Byte,
    writeHdma: (HdmaRegister, Address, Byte) -> HdmaRegister,
    advanceHdma: HdmaRegister -> HdmaRegister)

  /** Everything of the bus the model owns. */
  datatype BusState = BusState(
    bootFinished: bool, cgbMode: bool, cartridgeCgb: bool,
    wram: seq<Byte>, bankSelect: Byte, internalBank: nat,
    hram: seq<Byte>, io: seq<Byte>, cgb: C.CgbState, hdma: HdmaRegister,
    queue: multiset<Event>, now: nat, trace: seq<Call>)

  predicate ValidState(s: BusState)
  {
    |s.wram| == W.WRAM_SIZE && 1 <= s.internalBank <= 7 && |s.hram| == 0x7F && |s.io| == Io.IO_SIZE
  }

  /**
   * The sum of two `u16`s (so below 0x20000) wrapped to 16 bits, as in a
   * release build.
   */
  function Addr(x: int): Address
    requires 0 <= x < 0x20000
  {
    if x < 0x10000 then x else x - 0x10000
  }

  /** The byte a source answers for an address of its window. */
  function Fetch(s: BusState, d: Devices, src: Source, address: Address): Byte
    requires ValidState(s) && SourceRange(src, address)
  {
    match src
    case From(HdmaRegisters) => d.hdma5(s.hdma)
    case From(p) => d.peek(s.trace, p, address)
    case Wram0 => s.wram[W.Bank0Index(address)]
    case WramN => s.wram[W.BankNIndex(s.internalBank, address)]
    case Echo => s.wram[W.EchoIndex(s.internalBank, address).value]
    case Unusable => INVALID_READ
    case Hram => s.hram[address - 0xFF80]
    case IoArray => s.io[address - 0xFF00]
    case PrepareSwitch => s.cgb.prepareSpeedSwitch
    case Invalid => INVALID_READ
    case BankSelect => W.BankSelectRegister(s.bankSelect)
  }

  /** `read_byte`: the byte the routed source answers. */
  function ReadSpec(s: BusState, d: Devices, address: Address): Byte
    requires ValidState(s)
  {
    Fetch(s, d, ReadSource(address, s.bootFinished, s.cgbMode).value, address)
  }

  /** The serial hook at the top of `write_io_byte`: 0x81 written to SC prints SB. */
  function SerialEcho(s: BusState, d: Devices, address: Address, value: Byte): (s': BusState)
    requires ValidState(s)
    ensures s' == s.(trace := s'.trace) && WritesOnly(s.trace, s'.trace)
  {
    if address == 0xFF02 && value == 0x81 then s.(trace := s.trace + [SerialOutput(ReadSpec(s, d, 0xFF01))])
    else s
  }

  /** What a target does with a write to an address of its window. */
  ghost function Apply(s: BusState, d: Devices, t: Target, address: Address, value: Byte): (s': BusState)
    requires ValidState(s) && TargetRange(t, address)
    ensures ValidState(s')
    ensures s'.now == s.now && s'.cartridgeCgb == s.cartridgeCgb && s'.cgb.doubleSpeed == s.cgb.doubleSpeed
    ensures t != DmaRegister && address != LCD_CONTROL_REGISTER ==> s'.queue == s.queue
    ensures s'.trace == if t.To? && t.port != HdmaRegisters then s.trace + [PortWrite(t.port, address, value)] else s.trace
  {
    match t
    case To(HdmaRegisters) => s.(hdma := d.writeHdma(s.hdma, address, value))
    case To(p) => WritePort(s, d, p, address, value)
    case WriteWram0 => s.(wram := s.wram[W.Bank0Index(address) := value])
    case WriteWramN => s.(wram := s.wram[W.BankNIndex(s.internalBank, address) := value])
    case WriteEcho => s.(wram := s.wram[W.EchoIndex(s.internalBank, address).value := value])
    case Ignored => s
    case WriteHram => s.(hram := s.hram[address - 0xFF80 := value])
    case WriteIoArray => s.(io := s.io[address - 0xFF00 := value])
    case DmaRegister => DmaSpec(s, value)
    case WritePrepareSwitch => s.(cgb := C.WritePrepare(s.cgb, value))
    case BootRomOff => s.(bootFinished := true, cgbMode := if !s.cartridgeCgb then false else s.cgbMode)
    case WriteBankSelect => s.(bankSelect := W.SelectBank(value).0, internalBank := W.SelectBank(value).1)
  }

  /**
   * `dma_transfer`: DMA keeps the value, a pending DMATransferComplete is
   * cancelled and DMARequested is due four cycles later.
   */
  ghost function DmaSpec(s: BusState, value: Byte): (s': BusState)
    requires ValidState(s)
    ensures ValidState(s')
  {
    s.(io := s.io[0x46 := value], queue := DmaQueue(s.queue, s.now))
  }

  ghost function DmaQueue(q: multiset<Event>, now: nat): multiset<Event>
  {
    RemoveType(q, DMATransferComplete) + multiset{Event(now + 4, DMARequested)}
  }

  /**
   * A write to a component outside the model: the call is recorded, and an
   * LCDC write also changes the heap as `set_lcd_control` does, by the LCDC
   * the PPU answered before the write.
   */
  ghost function WritePort(s: BusState, d: Devices, p: Port, address: Address, value: Byte): (s': BusState)
    requires ValidState(s)
    ensures s' == s.(trace := s.trace + [PortWrite(p, address, value)], queue := s'.queue)
    ensures address != LCD_CONTROL_REGISTER ==> s'.queue == s.queue
  {
    var s1 := s.(trace := s.trace + [PortWrite(p, address, value)]);
    if address == LCD_CONTROL_REGISTER then s1.(queue := LcdControlQueue(s.queue, s.now, d.peek(s.trace, p, address), value))
    else s1
  }

  /**
   * What `set_lcd_control` does to the scheduler's heap, given the LCDC the
   * PPU held before (`previous`) and the byte written: clearing bit 7 of a
   * running LCD runs `turn_off_lcd`, setting it on a stopped one runs
   * `turn_on_lcd`, and otherwise the heap is left alone.
   */
  ghost function LcdControlQueue(q: multiset<Event>, now: nat, previous: Byte, value: Byte): multiset<Event>
  {
    var wasOn := RF.Has(previous, RF.LCD_DISPLAY);
    if !RF.Has(value, RF.LCD_DISPLAY) && wasOn then PpuEventsOff(q)
    else if RF.Has(value, RF.LCD_DISPLAY) && !wasOn then q + multiset{Event(now + PM.LCD_ON_DELAY, LcdTransfer)}
    else q
  }

  /** The heap after the five `remove_event_type` calls of `turn_off_lcd`, in the source's order. */
  ghost function PpuEventsOff(q: multiset<Event>): multiset<Event>
  {
    RemoveType(RemoveType(RemoveType(RemoveType(RemoveType(q, HBLANK), VblankWait), VBLANK), LcdTransfer), OamSearch)
  }

  /** `PpuEventsOff` leaves exactly the events that are not the PPU's. */
  lemma PpuEventsOffSpec(q: multiset<Event>)
    ensures PM.PpuEventsRemoved(PpuEventsOff(q), q)
  {
    var q1 := RemoveType(q, HBLANK);
    var q2 := RemoveType(q1, VblankWait);
    var q3 := RemoveType(q2, VBLANK);
    var q4 := RemoveType(q3, LcdTransfer);
    RemoveTypeFiltered(q, HBLANK);
    RemoveTypeFiltered(q1, VblankWait);
    RemoveTypeFiltered(q2, VBLANK);
    RemoveTypeFiltered(q3, LcdTransfer);
    RemoveTypeFiltered(q4, OamSearch);
    PM.RemovalsCompose(q, q1, q2, q3, q4, PpuEventsOff(q));
  }

  /**
   * The bus's view of an LCDC write agrees with the PPU's own: for the
   * registers `r` the PPU holds, the heap is the one `PpuMemory.Rescheduled`
   * states for the switch `PpuMemory.LcdControlWritten` reports.
   */
  lemma LcdControlQueueAgrees(q: multiset<Event>, now: nat, r: P.Regs, value: Byte)
    ensures PM.Rescheduled(LcdControlQueue(q, now, r.lcdControl, value), q, now, PM.LcdControlWritten(r, value).2)
  {
    if !RF.Has(value, RF.LCD_DISPLAY) && PM.LcdOn(r) {
      PpuEventsOffSpec(q);
    }
  }

  /** Switching the LCD off only removes events and switching it on adds one in the future: no due event is added. */
  lemma LcdControlQueueDominated(q: multiset<Event>, now: nat, previous: Byte, value: Byte)
    ensures DueDominated(LcdControlQueue(q, now, previous, value), q, now)
  {
    if !RF.Has(value, RF.LCD_DISPLAY) && RF.Has(previous, RF.LCD_DISPLAY) {
      PpuEventsOffSpec(q);
      PM.PpuEventsRemovedSpec(PpuEventsOff(q), q);
    }
  }

  /** `write_byte`: the serial hook, then the routed target takes the value. */
  ghost function WriteSpec(s: BusState, d: Devices, address: Address, value: Byte): (s': BusState)
    requires ValidState(s)
    ensures ValidState(s') && s'.now == s.now && s'.cgb.doubleSpeed == s.cgb.doubleSpeed
  {
    var e := SerialEcho(s, d, address, value);
    Apply(e, d, WriteTarget(address, e.bootFinished).value, address, value)
  }

  /** The addresses whose write is read back unchanged: the RAMs and the plain I/O array. */
  predicate StoresVerbatim(address: Address, bootFinished: bool, cgb: bool)
  {
    ReadSource(address, bootFinished, cgb).value in {Wram0, WramN, Echo, Hram, IoArray} &&
    WriteTarget(address, bootFinished).value != BootRomOff
  }

  /**
   * A write to work RAM, echo RAM, high RAM or the I/O array is read back
   * unchanged; the boot ROM switch at 0xFF50 is the one I/O array address
   * that does not store its value.
   */
  lemma ReadAfterWrite(s: BusState, d: Devices, address: Address, value: Byte)
    requires ValidState(s) && StoresVerbatim(address, s.bootFinished, s.cgbMode)
    ensures ReadSpec(WriteSpec(s, d, address, value), d, address) == value
  {
    var e := SerialEcho(s, d, address, value);
    var src := ReadSource(address, s.bootFinished, s.cgbMode).value;
    var t := WriteTarget(address, s.bootFinished).value;
    ReadWriteAgree(address, s.bootFinished, s.cgbMode);
    FetchAfterApply(e, d, src, t, address, value);
  }

  /** The storage a write reaches answers the written value, in the same routing mode. */
  lemma FetchAfterApply(s: BusState, d: Devices, src: Source, t: Target, address: Address, value: Byte)
    requires ValidState(s) && SourceRange(src, address) && TargetRange(t, address)
    requires src in {Wram0, WramN, Echo, Hram, IoArray} && SameStorage(src, t) && t != BootRomOff
    requires src == IoArray ==> t != DmaRegister || address == DMA_TRANSFER
    ensures var s' := Apply(s, d, t, address, value);
            s'.bootFinished == s.bootFinished && s'.cgbMode == s.cgbMode &&
            Fetch(s', d, src, address) == value
  {
    if src == Echo {
      W.EchoMirrorsWram(s.internalBank, address);
    }
  }

  /**
   * A write to one RAM cell leaves every other cell of the bus's own memory
   * as it was: two addresses below 0xDFFF or in high RAM never share a cell
   * unless they are equal.
   */
  lemma WriteKeepsOthers(s: BusState, d: Devices, address: Address, other: Address, value: Byte)
    requires ValidState(s) && address != other
    requires 0xC000 <= address <= 0xDFFF || 0xFF80 <= address <= 0xFFFE
    requires 0xC000 <= other <= 0xDFFF || 0xFF80 <= other <= 0xFFFE
    ensures ReadSpec(WriteSpec(s, d, address, value), d, other) == ReadSpec(s, d, other)
  {
  }

  /**
   * Echo RAM 0xE000-0xFDFF is work RAM 0x2000 lower, for reads and writes,
   * including the switchable bank at 0xF000-0xFDFF.
   */
  lemma EchoMirror(s: BusState, d: Devices, address: Address, value: Byte)
    requires ValidState(s) && 0xE000 <= address <= 0xFDFF
    ensures ReadSpec(s, d, address) == ReadSpec(s, d, address - 0x2000)
    ensures WriteSpec(s, d, address, value) == WriteSpec(s, d, address - 0x2000, value)
  {
    W.EchoMirrorsWram(s.internalBank, address);
  }

  /** 0xFEA0-0xFEFF reads 0xFF and ignores writes. */
  lemma UnusableRegion(s: BusState, d: Devices, address: Address, value: Byte)
    requires ValidState(s) && 0xFEA0 <= address <= 0xFEFF
    ensures ReadSpec(s, d, address) == INVALID_READ
    ensures WriteSpec(s, d, address, value) == s
  {
  }

  /**
   * HDMA1-4 always read 0xFF; HDMA5 and KEY1 read 0xFF in DMG mode and the
   * HDMA register and the prepare-switch register in CGB mode.
   */
  lemma InvalidReads(s: BusState, d: Devices, address: Address)
    requires ValidState(s)
    ensures 0xFF51 <= address <= 0xFF54 ==> ReadSpec(s, d, address) == INVALID_READ
    ensures address == 0xFF55 ==> ReadSpec(s, d, address) == if s.cgbMode then d.hdma5(s.hdma) else INVALID_READ
    ensures address == 0xFF4D ==> ReadSpec(s, d, address) == if s.cgbMode then s.cgb.prepareSpeedSwitch else INVALID_READ
  {
  }

  /**
   * Writing 0xFF50 while the boot ROM runs finishes it and falls back to DMG
   * mode for a cartridge without CGB support, storing nothing; from then on
   * 0x0000-0x00FF read the cartridge. Once finished, 0xFF50 is plain I/O.
   */
  lemma BootRomDisable(s: BusState, d: Devices, value: Byte)
    requires ValidState(s)
    ensures !s.bootFinished ==>
              WriteSpec(s, d, 0xFF50, value) == s.(bootFinished := true, cgbMode := s.cgbMode && s.cartridgeCgb)
    ensures s.bootFinished ==> WriteSpec(s, d, 0xFF50, value) == s.(io := s.io[0x50 := value])
    ensures forall a: Address :: a <= 0xFF ==> ReadSource(a, true, s.cgbMode) == Some(From(Cartridge))
  {
  }

  /**
   * A DMA write: DMA reads the value back, no DMATransferComplete is left,
   * exactly one DMARequested is added four cycles ahead, and every other
   * event stays.
   */
  lemma DmaWrite(s: BusState, d: Devices, address: Address, value: Byte)
    requires ValidState(s) && address == DMA_TRANSFER
    ensures var s' := WriteSpec(s, d, address, value);
            ReadSpec(s', d, address) == value && s'.queue == DmaQueue(s.queue, s.now)
  {
    assert SerialEcho(s, d, address, value) == s;
    var s' := DmaSpec(s, value);
    assert WriteSpec(s, d, address, value) == s';
    assert ReadSource(address, s'.bootFinished, s'.cgbMode).value == IoArray;
  }

  /**
   * The queue after a DMA write holds no DMATransferComplete, exactly one
   * more DMARequested four cycles ahead, and every other event as before.
   */
  lemma DmaQueueSpec(q: multiset<Event>, now: nat)
    ensures forall e :: e in DmaQueue(q, now) ==> e.eventType != DMATransferComplete
    ensures forall e: Event :: e.eventType !in {DMATransferComplete, DMARequested} ==> DmaQueue(q, now)[e] == q[e]
    ensures DmaQueue(q, now)[Event(now + 4, DMARequested)] == q[Event(now + 4, DMARequested)] + 1
  {
    RemoveTypeFiltered(q, DMATransferComplete);
  }

  /**
   * A write leaves the time alone and only appends port writes or serial
   * output to the calls made. The event queue changes only for a DMA write,
   * which restarts the OAM DMA, and for an LCDC write, which switches the
   * LCD off or on by the LCDC the bus read before it; every other write
   * leaves it as it was.
   */
  lemma WriteSettles(s: BusState, d: Devices, address: Address, value: Byte)
    requires ValidState(s)
    ensures var s' := WriteSpec(s, d, address, value);
            s'.now == s.now && WritesOnly(s.trace, s'.trace) &&
            s'.queue == if address == DMA_TRANSFER then DmaQueue(s.queue, s.now)
                        else if address == LCD_CONTROL_REGISTER then LcdControlQueue(s.queue, s.now, ReadSpec(s, d, address), value)
                        else s.queue
  {
    var e := SerialEcho(s, d, address, value);
    WritesOnlyTransitive(s.trace, e.trace, WriteSpec(s, d, address, value).trace);
    if address == DMA_TRANSFER {
      DmaWriteQueue(s, d, value);
    } else if address == LCD_CONTROL_REGISTER {
      LcdWriteQueue(s, d, value);
    }
  }

  lemma DmaWriteQueue(s: BusState, d: Devices, value: Byte)
    requires ValidState(s)
    ensures WriteSpec(s, d, DMA_TRANSFER, value).queue == DmaQueue(s.queue, s.now)
  {
    assert SerialEcho(s, d, DMA_TRANSFER, value) == s;
    assert WriteTarget(DMA_TRANSFER, s.bootFinished).value == DmaRegister;
  }

  lemma LcdWriteQueue(s: BusState, d: Devices, value: Byte)
    requires ValidState(s)
    ensures WriteSpec(s, d, LCD_CONTROL_REGISTER, value).queue ==
            LcdControlQueue(s.queue, s.now, ReadSpec(s, d, LCD_CONTROL_REGISTER), value)
  {
    assert SerialEcho(s, d, LCD_CONTROL_REGISTER, value) == s;
    assert WriteTarget(LCD_CONTROL_REGISTER, s.bootFinished).value == To(PpuRegisters);
    assert ReadSource(LCD_CONTROL_REGISTER, s.bootFinished, s.cgbMode).value == From(PpuRegisters);
  }

  /** Hence a write adds no due event. */
  lemma WriteDominated(s: BusState, d: Devices, address: Address, value: Byte)
    requires ValidState(s)
    ensures DueDominated(WriteSpec(s, d, address, value).queue, s.queue, s.now)
  {
    WriteSettles(s, d, address, value);
    if address == DMA_TRANSFER {
      DmaQueueDominated(s.queue, s.now);
    } else if address == LCD_CONTROL_REGISTER {
      LcdControlQueueDominated(s.queue, s.now, ReadSpec(s, d, address), value);
    }
  }

  /**
   * An LCDC write that clears bit 7 of a running LCD leaves no PPU event in
   * the queue and every other event with its multiplicity; one that sets
   * bit 7 of a stopped LCD adds exactly an LCD transfer 76 cycles ahead.
   */
  lemma LcdControlWrite(s: BusState, d: Devices, value: Byte)
    requires ValidState(s)
    ensures var s' := WriteSpec(s, d, LCD_CONTROL_REGISTER, value);
            var wasOn := RF.Has(ReadSpec(s, d, LCD_CONTROL_REGISTER), RF.LCD_DISPLAY);
            (wasOn && !RF.Has(value, RF.LCD_DISPLAY) ==>
               forall e :: s'.queue[e] == if PM.IsPpuEvent(e.eventType) then 0 else s.queue[e]) &&
            (!wasOn && RF.Has(value, RF.LCD_DISPLAY) ==>
               s'.queue == s.queue + multiset{Event(s.now + 76, LcdTransfer)})
  {
    WriteSettles(s, d, LCD_CONTROL_REGISTER, value);
    PpuEventsOffSpec(s.queue);
  }

  lemma WritesOnlyTransitive(t: seq<Call>, t': seq<Call>, t'': seq<Call>)
    requires WritesOnly(t, t') && WritesOnly(t', t'')
    ensures WritesOnly(t, t'')
  {
    assert t''[..|t|] == t'[..|t|];
  }

  /** `t'` extends `t` by port writes and serial output only. */
  ghost predicate WritesOnly(t: seq<Call>, t': seq<Call>)
  {
    |t| <= |t'| && t'[..|t|] == t &&
    forall k :: |t| <= k < |t'| ==> t'[k].PortWrite? || t'[k].SerialOutput?
  }

  /** The bytes `read_byte` answers for `start..end`, in order; the range is empty when `end <= start`. */
  function RangeData(s: BusState, d: Devices, start: Address, end: Address): (r: seq<Byte>)
    requires ValidState(s)
    ensures |r| == if start < end then end - start else 0
    ensures forall i :: 0 <= i < |r| ==> r[i] == ReadSpec(s, d, start + i)
  {
    if end <= start then []
    else seq(end - start, i requires 0 <= i < end - start => ReadSpec(s, d, start + i))
  }

  /** `gather_gdma_data`: `source_address..source_address + transfer_size`. */
  function GdmaData(s: BusState, d: Devices): seq<Byte>
    requires ValidState(s)
  {
    RangeData(s, d, s.hdma.sourceAddress, Addr(s.hdma.sourceAddress + s.hdma.transferSize))
  }

  /** The sixteen bytes `hdma_transfer` gathers: `source_address..source_address + 16`. */
  function HdmaData(s: BusState, d: Devices): seq<Byte>
    requires ValidState(s)
  {
    RangeData(s, d, s.hdma.sourceAddress, Addr(s.hdma.sourceAddress + 16))
  }

  /**
   * `gather_shadow_oam`: the 0xA0 bytes read from `start_address` on, each
   * address cut to 16 bits.
   */
  function ShadowOam(s: BusState, d: Devices, start: Address): (r: seq<Byte>)
    requires ValidState(s)
    ensures |r| == 0xA0
    ensures forall i :: 0 <= i < 0xA0 ==> r[i] == ReadSpec(s, d, Addr(start + i))
  {
    seq(0xA0, i requires 0 <= i < 0xA0 => ReadSpec(s, d, Addr(start + i)))
  }

  /**
   * The state after the first `n` writes of the copy loop shared by
   * `gdma_transfer` and `hdma_transfer`: value `i` goes to
   * `destination_address + i`, the destination read afresh before each write.
   */
  ghost function CopyTo(s: BusState, d: Devices, values: seq<Byte>, n: nat): (s': BusState)
    requires ValidState(s) && n <= |values| <= 0x10000
    ensures ValidState(s') && s'.now == s.now && s'.cgb.doubleSpeed == s.cgb.doubleSpeed
    ensures DueDominated(s'.queue, s.queue, s.now)
    decreases n
  {
    if n == 0 then s
    else
      var p := CopyTo(s, d, values, n - 1);
      var address := Addr(p.hdma.destinationAddress + (n - 1));
      WriteAfterDominated(s.queue, s.now, p, d, address, values[n - 1]);
      WriteSpec(p, d, address, values[n - 1])
  }

  /** One more write of the copy loop. */
  lemma CopyToStep(s: BusState, d: Devices, values: seq<Byte>, i: nat, p: BusState, address: Address)
    requires ValidState(s) && i < |values| <= 0x10000
    requires p == CopyTo(s, d, values, i) && address == Addr(p.hdma.destinationAddress + i)
    ensures CopyTo(s, d, values, i + 1) == WriteSpec(p, d, address, values[i])
  {
  }

  /** `gdma_transfer`: every gathered byte is written in turn. */
  ghost function GdmaSpec(s: BusState, d: Devices): (s': BusState)
    requires ValidState(s)
    ensures ValidState(s') && s'.now == s.now
  {
    var values := GdmaData(s, d);
    CopyTo(s, d, values, |values|)
  }

  /** `hdma_transfer`: the sixteen bytes are written, then the HDMA state advances. */
  ghost function HdmaSpec(s: BusState, d: Devices): (s': BusState)
    requires ValidState(s)
    ensures ValidState(s') && s'.now == s.now && s'.cgb.doubleSpeed == s.cgb.doubleSpeed
    ensures DueDominated(s'.queue, s.queue, s.now)
  {
    var values := HdmaData(s, d);
    var w := CopyTo(s, d, values, |values|);
    w.(hdma := d.advanceHdma(w.hdma))
  }

  /**
   * The calls an arm of `tick_scheduler` makes into the components, in
   * order: none for NONE, the shadow OAM for DMARequested, one
   * notification for every other event.
   */
  function Calls(s: BusState, d: Devices, e: Event): seq<Call>
    requires ValidState(s)
  {
    match e.eventType
    case NONE => []
    case VBLANK => [PpuVblank]
    case OamSearch => [PpuOamSearch]
    case LcdTransfer => [PpuLcdTransfer(s.cgbMode)]
    case HBLANK => [PpuHblank]
    case VblankWait => [PpuVblankWait]
    case APUFrameSequencer => [FrameSequencerTick]
    case APUSample => [SamplingTick]
    case TimerOverflow => [TimerOverflowHandled]
    case TimerPostOverflow => [PostOverflowCleared]
    case DMARequested => [OamDmaTransfer(ShadowOam(s, d, s.io[0x46] as nat * 0x100))]
    case DMATransferComplete => [OamDmaFinished]
  }

  /**
   * The HDMA step of the H-blank arm: with a transfer running in HDMA mode,
   * sixteen bytes are copied; if the transfer still runs, the CPU stalls
   * for 1 + (8 << speed) M-cycles.
   */
  ghost function HblankHdma(s: BusState, d: Devices): (s': BusState)
    requires ValidState(s)
    ensures ValidState(s') && s'.now == s.now && s'.cgb.doubleSpeed == s.cgb.doubleSpeed
    ensures DueDominated(s'.queue, s.queue, s.now)
  {
    if s.hdma.transferOngoing && s.hdma.currentMode == HDMA then
      var w := HdmaSpec(s, d);
      if w.hdma.transferOngoing then w.(trace := w.trace + [MCyclesPassed(1 + Shifted(8, w.cgb.doubleSpeed))])
      else w
    else s
  }

  /** One arm of `tick_scheduler`, for an event already popped from the queue. */
  ghost function Handle(s: BusState, d: Devices, e: Event): (s': BusState)
    requires ValidState(s)
    ensures ValidState(s') && s'.now == s.now && s'.cgb.doubleSpeed == s.cgb.doubleSpeed
    ensures DueDominated(s'.queue, Notify(s, d, e).queue, s.now)
  {
    var n := Notify(s, d, e);
    if e.eventType == HBLANK then HblankHdma(n, d) else n
  }

  /** An arm before the HDMA step: its calls are made, then its events pushed. */
  function Notify(s: BusState, d: Devices, e: Event): (s': BusState)
    requires ValidState(s)
  {
    var t := s.trace + Calls(s, d, e);
    s.(trace := t, queue := s.queue + Pushes(e, s.now, d.currentY(t), s.cgb.doubleSpeed))
  }

  /**
   * The loop of `tick_scheduler` handling `es` in turn from `s`: each must
   * be a minimum of the queue and due when it is popped; `None` when one is
   * not.
   */
  ghost function Run(s: BusState, d: Devices, es: seq<Event>): (r: Option<BusState>)
    requires ValidState(s)
    ensures r.Some? ==> ValidState(r.value) && r.value.now == s.now && r.value.cgb.doubleSpeed == s.cgb.doubleSpeed
    decreases |es|
  {
    if es == [] then Some(s)
    else
      match Run(s, d, es[..|es| - 1])
      case None => None
      case Some(m) =>
        var e := es[|es| - 1];
        if IsClosest(e, m.queue) && e.timestamp <= m.now then Some(Handle(m.(queue := m.queue - multiset{e}), d, e))
        else None
  }

  /** Handling one more due minimum extends a run. */
  lemma RunAppend(s: BusState, d: Devices, es: seq<Event>, e: Event)
    requires ValidState(s) && Run(s, d, es).Some?
    requires IsClosest(e, Run(s, d, es).value.queue) && e.timestamp <= s.now
    ensures var m := Run(s, d, es).value;
            Run(s, d, es + [e]) == Some(Handle(m.(queue := m.queue - multiset{e}), d, e))
  {
    var es' := es + [e];
    assert es'[..|es'| - 1] == es && es'[|es'| - 1] == e;
  }

  /** Some event of `es` is a V-blank: what `tick_scheduler` returns. */
  predicate HasVblank(es: seq<Event>)
    decreases |es|
  {
    es != [] && (es[|es| - 1].eventType == VBLANK || HasVblank(es[..|es| - 1]))
  }

  /**
   * One more round of the loop of `tick_scheduler`: handling the closest due
   * event extends the run, lowers the weight of the queue (so the loop ends)
   * and adds a V-blank exactly when that event is one.
   */
  lemma RunStep(s: BusState, d: Devices, es: seq<Event>, p: BusState, e: Event)
    requires ValidState(s) && Run(s, d, es) == Some(p)
    requires IsClosest(e, p.queue) && e.timestamp <= p.now
    ensures Run(s, d, es + [e]) == Some(Handle(p.(queue := p.queue - multiset{e}), d, e))
    ensures Weight(Handle(p.(queue := p.queue - multiset{e}), d, e).queue, p.now) < Weight(p.queue, p.now)
    ensures HasVblank(es + [e]) == (HasVblank(es) || e.eventType == VBLANK)
  {
    RunAppend(s, d, es, e);
    HandleLowersWeight(p, d, e);
    assert (es + [e])[..|es|] == es;
  }

  /** `do_m_cycle` up to its scheduler loop: the APU ticks for one M-cycle and four cycles pass. */
  function MCycleStart(s: BusState): (s': BusState)
    requires ValidState(s)
    ensures ValidState(s') && s'.now == s.now + 4 && s'.cgb == s.cgb && s'.queue == s.queue
    ensures s'.trace == s.trace + [ApuTick(if s.cgb.doubleSpeed then 2 else 4)]
  {
    s.(trace := s.trace + [ApuTick(if s.cgb.doubleSpeed then 2 else 4)], now := s.now + 4)
  }

  /**
   * `do_m_cycle`: the APU ticks, the scheduler handles `es`, then the
   * timers tick. Four cycles pass whatever was handled.
   */
  ghost function MCycle(s: BusState, d: Devices, es: seq<Event>): (r: Option<BusState>)
    requires ValidState(s)
    ensures r.Some? ==> ValidState(r.value) && r.value.now == s.now + 4 && r.value.cgb.doubleSpeed == s.cgb.doubleSpeed
    ensures r.Some? ==> r.value.trace != [] && r.value.trace[|r.value.trace| - 1] == TimersTick
  {
    match Run(MCycleStart(s), d, es)
    case None => None
    case Some(m) => Some(m.(trace := m.trace + [TimersTick]))
  }

  lemma MCycleOfRun(s: BusState, d: Devices, es: seq<Event>, m: BusState)
    requires ValidState(s) && Run(MCycleStart(s), d, es) == Some(m)
    ensures MCycle(s, d, es) == Some(m.(trace := m.trace + [TimersTick]))
  {
  }

  /** M-cycles in a row, each handling its own list of events. */
  ghost function MCycles(s: BusState, d: Devices, runs: seq<seq<Event>>): (r: Option<BusState>)
    requires ValidState(s)
    ensures r.Some? ==> ValidState(r.value) && r.value.now == s.now + 4 * |runs|
    ensures r.Some? ==> r.value.cgb.doubleSpeed == s.cgb.doubleSpeed
    decreases |runs|
  {
    if runs == [] then Some(s)
    else match MCycles(s, d, runs[..|runs| - 1])
      case None => None
      case Some(m) => MCycle(m, d, runs[|runs| - 1])
  }

  lemma MCyclesAppend(s: BusState, d: Devices, runs: seq<seq<Event>>, es: seq<Event>, m: BusState)
    requires ValidState(s) && MCycles(s, d, runs) == Some(m)
    ensures MCycles(s, d, runs + [es]) == MCycle(m, d, es)
  {
    assert (runs + [es])[..|runs|] == runs;
  }

  /** Restarting the OAM DMA removes events and adds one in the future: no due event is added. */
  lemma DmaQueueDominated(q: multiset<Event>, now: nat)
    ensures DueDominated(DmaQueue(q, now), q, now)
  {
    var r := RemoveType(q, DMATransferComplete);
    RemoveTypeFiltered(q, DMATransferComplete);
    assert DmaQueue(q, now) == r + multiset{Event(now + 4, DMARequested)};
  }

  lemma WriteAfterDominated(q: multiset<Event>, now: nat, p: BusState, d: Devices, address: Address, value: Byte)
    requires ValidState(p) && p.now == now && DueDominated(p.queue, q, now)
    ensures DueDominated(WriteSpec(p, d, address, value).queue, q, now)
  {
    WriteDominated(p, d, address, value);
    DueDominatedTransitive(WriteSpec(p, d, address, value).queue, p.queue, q, now);
  }

  /**
   * Popping a due event and handling it lowers the weight of the queue it
   * came from, so the loop of `tick_scheduler` ends.
   */
  lemma HandleLowersWeight(p: BusState, d: Devices, e: Event)
    requires ValidState(p) && e in p.queue && e.timestamp <= p.now
    ensures Weight(Handle(p.(queue := p.queue - multiset{e}), d, e).queue, p.now) < Weight(p.queue, p.now)
  {
    var m := p.(queue := p.queue - multiset{e});
    var pushed := Pushes(e, p.now, d.currentY(m.trace + Calls(m, d, e)), p.cgb.doubleSpeed);
    PushesLowerDue(e, p.now, d.currentY(m.trace + Calls(m, d, e)), p.cgb.doubleSpeed);
    PopHandleWeight(p.queue, e, pushed, Handle(m, d, e).queue, p.now);
  }

  lemma PopHandleWeight(q: multiset<Event>, e: Event, pushed: multiset<Event>, q': multiset<Event>, now: nat)
    requires e in q && e.timestamp <= now && Weight(pushed, now) < Due(e, now)
    requires DueDominated(q', (q - multiset{e}) + pushed, now)
    ensures Weight(q', now) < Weight(q, now)
  {
    WeightRemove(q, e, now);
    WeightUnion(q - multiset{e}, pushed, now);
    DominatedWeight(q', (q - multiset{e}) + pushed, now);
  }
}
