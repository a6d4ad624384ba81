/**
 * The `Memory` struct of core/src/hardware/mmu/mod.rs and dma.rs as a
 * class: the work RAM, high RAM, I/O array, KEY1 and scheduler it owns are
 * objects it updates in place, and every method is proved against the
 * state functions of module `Mmu` (`State()` is the `BusState` the class
 * holds).
 */
module MemoryBus {
  import opened Bits
  import opened BusRouting
  import opened Scheduler
  import opened EventChain
  import opened Mmu
  import W = Wram
  import H = Hram
  import Io = IoRegisters
  import C = CgbMem
  import RF = RegisterFlags
  import PM = PpuMemory

  class Memory {
    var bootFinished: bool
    var cgbMode: bool
    const cartridgeCgb: bool
    const devices: Devices
    const wram: W.Wram
    const hram: H.Hram
    const ioRegisters: Io.IORegisters
    const cgbData: C.CgbData
    const scheduler: Scheduler
    var hdma: HdmaRegister
    /** The calls made so far into the components outside the model. */
    var trace: seq<Call>

    /**
     * `Memory::new`: fresh memories, one NONE event at time 0, the boot ROM
     * finished exactly when none is given, and DMG mode when the boot ROM
     * is skipped for a cartridge without CGB support. The cartridge and the
     * `HdmaRegister::new` state come in as parameters.
     */
    constructor (bootRomGiven: bool, cartridgeCgb: bool, cgbRequested: bool, devices: Devices, hdma: HdmaRegister)
      ensures Valid()
      ensures State() == BusState(!bootRomGiven, cgbRequested && (cartridgeCgb || bootRomGiven), cartridgeCgb,
                                  seq(W.WRAM_SIZE, _ => 0xFF), 1, 1, seq(H.HRAM_SIZE, _ => 0xFF), seq(Io.IO_SIZE, _ => 0xFF),
                                  C.CgbState(false, 0x7E), hdma, multiset{Event(0, NONE)}, 0, [])
      ensures this.devices == devices
    {
      bootFinished := !bootRomGiven;
      cgbMode := cgbRequested;
      this.cartridgeCgb := cartridgeCgb;
      this.devices := devices;
      wram := new W.Wram();
      hram := new H.Hram();
      ioRegisters := new Io.IORegisters();
      cgbData := new C.CgbData();
      scheduler := new Scheduler();
      this.hdma := hdma;
      trace := [];
      new;
      if !cartridgeCgb && bootFinished {
        cgbMode := false;
      }
    }

    /** The memories are well formed and no two of them share an array. */
    ghost predicate Valid()
      reads this, wram, hram, ioRegisters
    {
      wram.Valid() && hram.Valid() && ioRegisters.Valid() &&
      wram.memory != hram.memory && wram.memory != ioRegisters.memory && hram.memory != ioRegisters.memory
    }

    /** The bus state this object holds. */
    function State(): (s: BusState)
      reads this, wram, wram.memory, hram, hram.memory, ioRegisters, ioRegisters.memory, cgbData, scheduler
    {
      BusState(bootFinished, cgbMode, cartridgeCgb,
               wram.memory[..], wram.bankSelect, wram.internalBankSelect,
               hram.memory[..], ioRegisters.memory[..], cgbData.State(), hdma,
               scheduler.eventQueue, scheduler.currentTime, trace)
    }

    /** `read_byte`: the byte the routed component answers. */
    function ReadByte(address: Address): (v: Byte)
      requires Valid()
      reads this, wram, wram.memory, hram, hram.memory, ioRegisters, ioRegisters.memory, cgbData, scheduler
      ensures ValidState(State()) && v == ReadSpec(State(), devices, address)
    {
      FetchFrom(ReadSource(address, bootFinished, cgbMode).value, address)
    }

    /** The arm of `read_byte` or `read_io_byte` for a source. */
    function FetchFrom(src: Source, address: Address): (v: Byte)
      requires Valid() && SourceRange(src, address)
      reads this, wram, wram.memory, hram, hram.memory, ioRegisters, ioRegisters.memory, cgbData, scheduler
      ensures ValidState(State()) && v == Fetch(State(), devices, src, address)
    {
      match src
      case From(HdmaRegisters) => devices.hdma5(hdma)
      case From(p) => devices.peek(trace, p, address)
      case Unusable => NonUsableCall(address)
      case PrepareSwitch => cgbData.ReadPrepareSwitch()
      case Invalid => INVALID_READ
      case BankSelect => wram.ReadBankSelect()
      case _ => FetchStorage(src, address)
    }

    /** The arms that read the memories the bus owns. */
    function FetchStorage(src: Source, address: Address): (v: Byte)
      requires Valid() && SourceRange(src, address)
      requires src in {Wram0, WramN, Echo, Hram, IoArray}
      reads this, wram, wram.memory, hram, hram.memory, ioRegisters, ioRegisters.memory, cgbData, scheduler
      ensures ValidState(State()) && v == Fetch(State(), devices, src, address)
    {
      match src
      case Wram0 => wram.ReadBank0(address)
      case WramN => wram.ReadBankN(address)
      case Echo => wram.ReadEchoRam(address).value
      case Hram => hram.ReadByte(address)
      case IoArray =>
        Io.IoWindowInRange(address);
        ioRegisters.ReadByte(address)
    }

    /**
     * `write_byte` and `write_io_byte`: the serial hook, then the routed
     * component takes the value.
     */
    method WriteByte(address: Address, value: Byte)
      requires Valid()
      modifies this, wram, wram.memory, hram.memory, ioRegisters.memory, cgbData, scheduler
      ensures Valid() && State() == WriteSpec(old(State()), devices, address, value)
    {
      if address == 0xFF02 && value == 0x81 {
        trace := trace + [SerialOutput(ReadByte(0xFF01))];
      }
      Store(WriteTarget(address, bootFinished).value, address, value);
    }

    /** The arm of `write_byte` or `write_io_byte` for a target. */
    method Store(t: Target, address: Address, value: Byte)
      requires Valid() && TargetRange(t, address)
      modifies this, wram, wram.memory, hram.memory, ioRegisters.memory, cgbData, scheduler
      ensures Valid() && ValidState(old(State())) && State() == Apply(old(State()), devices, t, address, value)
    {
      match t
      case To(HdmaRegisters) => hdma := devices.writeHdma(hdma, address, value);
      case To(p) => WritePortCall(p, address, value);
      case Ignored =>
      case DmaRegister => DmaTransfer(value);
      case WritePrepareSwitch => cgbData.WritePrepareSwitch(value);
      case BootRomOff =>
        bootFinished := true;
        if !cartridgeCgb {
          cgbMode := false;
        }
      case WriteBankSelect => wram.WriteBankSelect(value);
      case _ => StoreMemory(t, address, value);
    }

    /**
     * The arms of `write_io_byte` that hand the value to a component the
     * bus does not own; LCDC goes to `set_lcd_control`, which also changes
     * the heap by the LCDC the PPU held before.
     */
    method WritePortCall(p: Port, address: Address, value: Byte)
      requires Valid()
      modifies this, scheduler
      ensures Valid() && ValidState(old(State())) && State() == WritePort(old(State()), devices, p, address, value)
    {
      var previous := devices.peek(trace, p, address);
      trace := trace + [PortWrite(p, address, value)];
      if address == LCD_CONTROL_REGISTER {
        RescheduleLcd(previous, value);
      }
    }

    /** The scheduler half of `set_lcd_control`: `turn_off_lcd`'s five removals or `turn_on_lcd`'s push. */
    method RescheduleLcd(previous: Byte, value: Byte)
      modifies scheduler
      ensures scheduler.eventQueue == LcdControlQueue(old(scheduler.eventQueue), old(scheduler.currentTime), previous, value)
      ensures scheduler.currentTime == old(scheduler.currentTime)
    {
      var wasOn := RF.Has(previous, RF.LCD_DISPLAY);
      if !RF.Has(value, RF.LCD_DISPLAY) && wasOn {
        RemovePpuEvents();
      } else if RF.Has(value, RF.LCD_DISPLAY) && !wasOn {
        scheduler.PushRelative(LcdTransfer, PM.LCD_ON_DELAY);
      }
    }

    /** The removals of `turn_off_lcd`, one event type after another. */
    method RemovePpuEvents()
      modifies scheduler
      ensures scheduler.eventQueue == PpuEventsOff(old(scheduler.eventQueue))
      ensures scheduler.currentTime == old(scheduler.currentTime)
    {
      RemoveEvents(HBLANK);
      RemoveEvents(VblankWait);
      RemoveEvents(VBLANK);
      RemoveEvents(LcdTransfer);
      RemoveEvents(OamSearch);
    }

    /** `remove_event_type` on the bus's scheduler, as `RemoveType` states it. */
    method RemoveEvents(t: EventType)
      modifies scheduler
      ensures scheduler.eventQueue == RemoveType(old(scheduler.eventQueue), t)
      ensures scheduler.currentTime == old(scheduler.currentTime)
    {
      scheduler.RemoveEventType(t);
      FilteredIsRemoveType(scheduler.eventQueue, old(scheduler.eventQueue), t);
    }

    /** The arms that write the memories the bus owns. */
    method StoreMemory(t: Target, address: Address, value: Byte)
      requires Valid() && TargetRange(t, address)
      requires t in {WriteWram0, WriteWramN, WriteEcho, WriteHram, WriteIoArray}
      modifies wram.memory, hram.memory, ioRegisters.memory
      ensures Valid() && ValidState(old(State())) && State() == Apply(old(State()), devices, t, address, value)
    {
      match t
      case WriteWram0 => wram.WriteBank0(address, value);
      case WriteWramN => wram.WriteBankN(address, value);
      case WriteEcho =>
        var ok := wram.WriteEchoRam(address, value);
      case WriteHram => hram.SetByte(address, value);
      case WriteIoArray =>
        Io.IoWindowInRange(address);
        ioRegisters.WriteByte(address, value);
    }

    /**
     * `dma_transfer`: DMA keeps the value, a pending DMATransferComplete is
     * cancelled and DMARequested is pushed four cycles ahead.
     */
    method DmaTransfer(value: Byte)
      requires Valid()
      modifies ioRegisters.memory, scheduler
      ensures Valid() && ValidState(old(State())) && State() == DmaSpec(old(State()), value)
    {
      Io.IoWindowInRange(DMA_TRANSFER);
      ioRegisters.WriteByte(DMA_TRANSFER, value);
      RestartOamDma();
    }

    /** The scheduler half of `dma_transfer`. */
    method RestartOamDma()
      modifies scheduler
      ensures scheduler.eventQueue == DmaQueue(old(scheduler.eventQueue), old(scheduler.currentTime))
      ensures scheduler.currentTime == old(scheduler.currentTime)
    {
      scheduler.RemoveEventType(DMATransferComplete);
      FilteredIsRemoveType(scheduler.eventQueue, old(scheduler.eventQueue), DMATransferComplete);
      scheduler.PushRelative(DMARequested, 4);
    }

    /** The bytes `start..end` reads, as `gather_gdma_data` and `hdma_transfer` collect them; none when `end <= start`. */
    method GatherRange(start: Address, end: Address) returns (values: seq<Byte>)
      requires Valid()
      ensures ValidState(State()) && values == RangeData(State(), devices, start, end)
    {
      values := [];
      if start < end {
        for i := 0 to end - start
          invariant |values| == i
          invariant forall k :: 0 <= k < i ==> values[k] == ReadSpec(State(), devices, start + k)
        {
          values := values + [ReadByte(start + i)];
        }
      }
    }

    /** `gather_shadow_oam`: the 0xA0 bytes from `start` on, each address cut to 16 bits. */
    method GatherShadowOam(start: Address) returns (values: seq<Byte>)
      requires Valid()
      ensures ValidState(State()) && values == ShadowOam(State(), devices, start)
    {
      values := [];
      for i := 0 to 0xA0
        invariant |values| == i
        invariant forall k :: 0 <= k < i ==> values[k] == ReadSpec(State(), devices, Addr(start + k))
      {
        values := values + [ReadByte(Addr(start + i))];
      }
    }

    /** The copy loop of `gdma_transfer` and `hdma_transfer`: value `i` goes to `destination_address + i`. */
    method CopyValues(values: seq<Byte>)
      requires Valid() && |values| <= 0x10000
      modifies this, wram, wram.memory, hram.memory, ioRegisters.memory, cgbData, scheduler
      ensures Valid() && ValidState(old(State())) && State() == CopyTo(old(State()), devices, values, |values|)
    {
      ghost var s0 := State();
      CopyFrom(s0, values);
    }

    /** The loop of `CopyValues`, from the state `s0` it starts in. */
    method CopyFrom(ghost s0: BusState, values: seq<Byte>)
      requires Valid() && ValidState(s0) && |values| <= 0x10000 && State() == s0
      modifies this, wram, wram.memory, hram.memory, ioRegisters.memory, cgbData, scheduler
      ensures Valid() && State() == CopyTo(s0, devices, values, |values|)
    {
      for i := 0 to |values|
        invariant Valid() && State() == CopyTo(s0, devices, values, i)
      {
        CopyOne(s0, values, i);
      }
    }

    /** Write `i` of the copy loop, to the destination read afresh. */
    method CopyOne(ghost s0: BusState, values: seq<Byte>, i: nat)
      requires Valid() && ValidState(s0) && i < |values| <= 0x10000 && State() == CopyTo(s0, devices, values, i)
      modifies this, wram, wram.memory, hram.memory, ioRegisters.memory, cgbData, scheduler
      ensures Valid() && State() == CopyTo(s0, devices, values, i + 1)
    {
      ghost var p := State();
      var address := Addr(hdma.destinationAddress + i);
      WriteByte(address, values[i]);
      CopyToStep(s0, devices, values, i, p, address);
    }

    /** `gdma_transfer`: the gathered range is written to the destination in order. */
    method GdmaTransfer()
      requires Valid()
      modifies this, wram, wram.memory, hram.memory, ioRegisters.memory, cgbData, scheduler
      ensures Valid() && ValidState(old(State())) && State() == GdmaSpec(old(State()), devices)
    {
      ghost var s0 := State();
      var values := GatherRange(hdma.sourceAddress, Addr(hdma.sourceAddress + hdma.transferSize));
      assert values == GdmaData(s0, devices);
      CopyValues(values);
    }

    /** `hdma_transfer`: sixteen bytes copied, then the HDMA registers advanced. */
    method HdmaTransfer()
      requires Valid()
      modifies this, wram, wram.memory, hram.memory, ioRegisters.memory, cgbData, scheduler
      ensures Valid() && ValidState(old(State())) && State() == HdmaSpec(old(State()), devices)
    {
      ghost var s0 := State();
      var values := GatherRange(hdma.sourceAddress, Addr(hdma.sourceAddress + 16));
      assert values == HdmaData(s0, devices);
      CopyValues(values);
      hdma := devices.advanceHdma(hdma);
    }

    /**
     * One arm of the loop of `tick_scheduler`, for an event already popped:
     * the component is notified and the follow-up events pushed; H-blank
     * also runs a pending HDMA block. Returns whether it was a V-blank.
     */
    method HandleEvent(e: Event) returns (vblank: bool)
      requires Valid()
      modifies this, wram, wram.memory, hram.memory, ioRegisters.memory, cgbData, scheduler
      ensures Valid() && ValidState(old(State())) && State() == Handle(old(State()), devices, e)
      ensures vblank <==> e.eventType == VBLANK
    {
      vblank := false;
      match e.eventType
      case NONE => StartUp(e);
      case DMARequested => StartOamDma(e);
      case HBLANK =>
        NotifyComponent(e);
        HblankTransfer();
      case VBLANK =>
        NotifyComponent(e);
        vblank := true;
      case _ => NotifyComponent(e);
    }

    /** The NONE arm: OAM search at once and the two APU events at their fixed times. */
    method StartUp(e: Event)
      requires Valid() && e.eventType == NONE
      modifies scheduler
      ensures Valid() && ValidState(old(State())) && State() == Notify(old(State()), devices, e)
    {
      scheduler.PushFullEvent(UpdateSelf(e, OamSearch, 0));
      scheduler.PushEvent(APUFrameSequencer, 8192);
      scheduler.PushEvent(APUSample, 95);
      assert scheduler.eventQueue == old(scheduler.eventQueue) + Startup(e);
    }

    /**
     * The DMARequested arm: the shadow OAM gathered from the page DMA
     * names goes to the PPU, whose `oam_dma_transfer` schedules the
     * completion.
     */
    method StartOamDma(e: Event)
      requires Valid() && e.eventType == DMARequested
      modifies this, scheduler
      ensures Valid() && ValidState(old(State())) && State() == Notify(old(State()), devices, e)
    {
      Io.IoWindowInRange(DMA_TRANSFER);
      var page := ioRegisters.ReadByte(DMA_TRANSFER);
      var data := GatherShadowOam(page as nat * 0x100);
      trace := trace + [OamDmaTransfer(data)];
      scheduler.PushRelative(DMATransferComplete, OAM_DMA_CYCLES);
    }

    /**
     * The other arms: the component's handler is called, then the event
     * `Reschedule` names for the line the PPU now reports is pushed.
     */
    method NotifyComponent(e: Event)
      requires Valid() && e.eventType != NONE && e.eventType != DMARequested
      modifies this, scheduler
      ensures Valid() && ValidState(old(State())) && State() == Notify(old(State()), devices, e)
    {
      trace := trace + Calls(State(), devices, e);
      Repush(e);
    }

    /** The `update_self` push of an arm, for the line the PPU reports after its handler. */
    method Repush(e: Event)
      requires e.eventType != NONE && e.eventType != DMARequested
      modifies scheduler
      ensures scheduler.eventQueue == old(scheduler.eventQueue) + Pushes(e, scheduler.currentTime, devices.currentY(trace), cgbData.doubleSpeed)
      ensures scheduler.currentTime == old(scheduler.currentTime)
    {
      var next := Reschedule(e, devices.currentY(trace), cgbData.doubleSpeed);
      if next.Some? {
        scheduler.PushFullEvent(next.value);
      }
    }

    /**
     * The HDMA step of the H-blank arm: a running HDMA-mode transfer
     * copies a block, and if it still runs the CPU stalls (recorded as the
     * M-cycles that pass).
     */
    method HblankTransfer()
      requires Valid()
      modifies this, wram, wram.memory, hram.memory, ioRegisters.memory, cgbData, scheduler
      ensures Valid() && ValidState(old(State())) && State() == HblankHdma(old(State()), devices)
    {
      if hdma.transferOngoing && hdma.currentMode == HDMA {
        HdmaTransfer();
        if hdma.transferOngoing {
          trace := trace + [MCyclesPassed(1 + Shifted(8, cgbData.doubleSpeed))];
        }
      }
    }

    /**
     * `tick_scheduler`: four cycles pass, then the due events are popped,
     * earliest first, and handled until none is due. `handled` lists them
     * in order; the result says whether one was a V-blank. The loop ends
     * because handling a due event always lowers the `Weight` of the queue.
     */
    method TickScheduler() returns (vblank: bool, ghost handled: seq<Event>)
      requires Valid()
      modifies this, wram, wram.memory, hram.memory, ioRegisters.memory, cgbData, scheduler
      ensures Valid() && ValidState(old(State()))
      ensures Run(old(State()).(now := old(State()).now + 4), devices, handled) == Some(State())
      ensures forall e :: e in scheduler.eventQueue ==> e.timestamp > scheduler.currentTime
      ensures vblank == HasVblank(handled)
    {
      scheduler.AddCycles(4);
      ghost var s0 := State();
      vblank := false;
      handled := [];
      while true
        invariant Valid() && ValidState(s0) && Run(s0, devices, handled) == Some(State())
        invariant vblank == HasVblank(handled)
        decreases Weight(scheduler.eventQueue, scheduler.currentTime)
      {
        ghost var p := State();
        var next, v := HandleClosest();
        if next.None? {
          break;
        }
        var e := next.value;
        RunStep(s0, devices, handled, p, e);
        handled := handled + [e];
        vblank := vblank || v;
      }
    }

    /**
     * `do_m_cycle`: the APU ticks by one M-cycle (two cycles in double
     * speed, four otherwise), the scheduler runs, then the timers tick.
     */
    method DoMCycle() returns (vblank: bool, ghost handled: seq<Event>)
      requires Valid()
      modifies this, wram, wram.memory, hram.memory, ioRegisters.memory, cgbData, scheduler
      ensures Valid() && ValidState(old(State()))
      ensures MCycle(old(State()), devices, handled) == Some(State())
      ensures forall e :: e in scheduler.eventQueue ==> e.timestamp > scheduler.currentTime
      ensures vblank == HasVblank(handled)
    {
      ghost var s0 := State();
      vblank, handled := TickApuAndScheduler();
      ghost var m := State();
      trace := trace + [TimersTick];
      assert State() == m.(trace := m.trace + [TimersTick]);
      MCycleOfRun(s0, devices, handled, m);
    }

    /** The first two steps of `do_m_cycle`: the APU tick, then `tick_scheduler`. */
    method TickApuAndScheduler() returns (vblank: bool, ghost handled: seq<Event>)
      requires Valid()
      modifies this, wram, wram.memory, hram.memory, ioRegisters.memory, cgbData, scheduler
      ensures Valid() && ValidState(old(State()))
      ensures Run(MCycleStart(old(State())), devices, handled) == Some(State())
      ensures forall e :: e in scheduler.eventQueue ==> e.timestamp > scheduler.currentTime
      ensures vblank == HasVblank(handled)
    {
      trace := trace + [ApuTick(if cgbData.doubleSpeed then 2 else 4)];
      vblank, handled := TickScheduler();
    }

    /**
     * `hdma_check_and_transfer`: during an H-blank HDMA, one M-cycle and
     * then eight more (sixteen in double speed) pass before the sixteen
     * bytes are copied. `runs` lists what each M-cycle handled.
     */
    method HdmaCheckAndTransfer() returns (ghost runs: seq<seq<Event>>)
      requires Valid()
      modifies this, wram, wram.memory, hram.memory, ioRegisters.memory, cgbData, scheduler
      ensures Valid() && ValidState(old(State()))
      ensures !(old(hdma).transferOngoing && old(hdma).currentMode == HDMA) ==> runs == [] && State() == old(State())
      ensures old(hdma).transferOngoing && old(hdma).currentMode == HDMA ==>
                |runs| == 1 + Shifted(8, old(cgbData.doubleSpeed)) && MCycles(old(State()), devices, runs).Some? &&
                State() == HdmaSpec(MCycles(old(State()), devices, runs).value, devices)
    {
      runs := [];
      if hdma.transferOngoing && hdma.currentMode == HDMA {
        ghost var s0 := State();
        var _, handled := DoMCycle();
        MCyclesAppend(s0, devices, [], handled, s0);
        runs := [handled];
        var stall := Shifted(8, cgbData.doubleSpeed);
        for i := 0 to stall
          invariant Valid() && |runs| == 1 + i && MCycles(s0, devices, runs) == Some(State())
          invariant cgbData.doubleSpeed == s0.cgb.doubleSpeed
        {
          ghost var m := State();
          var _, h := DoMCycle();
          MCyclesAppend(s0, devices, runs, h, m);
          runs := runs + [h];
        }
        HdmaTransfer();
      }
    }

    /** One round of that loop: the closest event, when it is due, popped and handled. */
    method HandleClosest() returns (next: Option<Event>, vblank: bool)
      requires Valid()
      modifies this, wram, wram.memory, hram.memory, ioRegisters.memory, cgbData, scheduler
      ensures Valid() && ValidState(old(State()))
      ensures next.None? ==> State() == old(State())
      ensures next.None? ==> forall e :: e in scheduler.eventQueue ==> e.timestamp > scheduler.currentTime
      ensures next.Some? ==> IsClosest(next.value, old(State()).queue) && next.value.timestamp <= old(State()).now
      ensures next.Some? ==> State() == Handle(old(State()).(queue := old(State()).queue - multiset{next.value}), devices, next.value)
      ensures next.Some? ==> (vblank <==> next.value.eventType == VBLANK)
    {
      ghost var p := State();
      next := scheduler.PopClosest();
      if next.None? {
        return next, false;
      }
      assert State() == p.(queue := p.queue - multiset{next.value});
      vblank := HandleEvent(next.value);
    }

    /** `non_usable_call`: the unusable window reads 0xFF (the warning it logs is not modelled). */
    function NonUsableCall(address: Address): Byte
    {
      INVALID_READ
    }
  }
}
