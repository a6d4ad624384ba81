/**
 * The older bus of core/src/hardware/mmu.rs: one flat vector of 0x10000
 * bytes backs work RAM, its echo, high RAM and every I/O register the bus
 * does not hand to a component; IF and IE live in the interrupt module. The
 * scheduler loop is the one of the newer bus without HDMA and at single
 * speed. Components outside the bus are `Port`s, as in module `Mmu`, and
 * the calls made to them are recorded with `Mmu.Call`.
 */
module FlatMmu {
  import opened Bits
  import opened BusRouting
  import opened Scheduler
  import opened EventChain
  import M = Mmu
  import I = Interrupts
  import MemoryMap

  /** Where a read is answered from. */
  datatype Cell =
    | Device(port: Port)     // a component outside the bus
    | Backing(index: nat)    // a byte of the flat vector
    | NotUsable              // 0xFEA0-0xFEFF
    | EnableRegister         // IE
    | FlagRegister           // IF

  /** What takes a write. */
  datatype Store =
    | ToDevice(port: Port)
    | ToBacking(index: nat)
    | Dropped                // 0xFEA0-0xFEFF
    | SetEnable              // IE
    | SetFlag                // IF
    | StartDma               // 0xFF46
    | FinishBoot             // 0xFF50 while the boot ROM runs

  /** What the components outside the bus answer, given the calls made so far. */
  datatype Components = Components(
    peek: (seq<M.Call>, Port, Address) -> Byte,
    currentY: seq<M.Call> -> nat)

  /** Everything of the bus the model owns. */
  datatype FlatState = FlatState(
    memory: seq<Byte>, bootFinished: bool,
    interruptEnable: Byte, interruptFlag: Byte,
    queue: multiset<Event>, now: nat, trace: seq<M.Call>)

  predicate ValidState(s: FlatState)
  {
    |s.memory| == MemoryMap.MEMORY_SIZE
  }

  /** `read_byte` (mmu.rs:110-132): the first arm whose range holds the address. */
  function ReadCell(address: Address, bootFinished: bool): (c: Cell)
    ensures c.Backing? ==> c.index < MemoryMap.MEMORY_SIZE
    ensures 0xC000 <= address <= 0xDFFF || 0xFF80 <= address <= 0xFFFE ==> c == Backing(address)
    ensures 0xE000 <= address <= 0xFDFF ==> c == Backing(address - 0x2000)
    ensures address <= 0xFF ==> c == Device(if bootFinished then Cartridge else BootRomImage)
  {
    if address <= 0xFF && !bootFinished then Device(BootRomImage)
    else if address <= 0x7FFF then Device(Cartridge)
    else if address <= 0x97FF then Device(PpuTiles)
    else if address <= 0x9FFF then Device(PpuTileMaps)
    else if address <= 0xBFFF then Device(Cartridge)
    else if address <= 0xDFFF then Backing(address)
    else if address <= 0xFDFF then Backing(address - 0x2000)
    else if address <= 0xFE9F then Device(PpuOam)
    else if address <= 0xFEFF then NotUsable
    else if address <= 0xFF7F then IoCell(address)
    else if address <= 0xFFFE then Backing(address)
    else EnableRegister
  }

  /** `read_io_byte` (mmu.rs:164-202) for an address of the I/O window. */
  function IoCell(address: Address): (c: Cell)
    requires 0xFF00 <= address <= 0xFF7F
    ensures c.Backing? ==> c.index == address
  {
    if address == 0xFF00 then Device(Joypad)
    else if 0xFF04 <= address <= 0xFF07 then Device(Timer)
    else if address == 0xFF0F then FlagRegister
    else if 0xFF10 <= address <= 0xFF2F then Device(Apu)
    else if 0xFF30 <= address <= 0xFF3F then Device(WaveRam)
    else if 0xFF40 <= address <= 0xFF45 then Device(PpuRegisters)
    else if address == DMA_TRANSFER then Backing(DMA_TRANSFER)
    else if 0xFF47 <= address <= 0xFF4B then Device(PpuRegisters)
    else Backing(address)
  }

  /** `write_byte` (mmu.rs:134-161). */
  function WriteCell(address: Address, bootFinished: bool): (t: Store)
    ensures t.ToBacking? ==> t.index < MemoryMap.MEMORY_SIZE
  {
    if address <= 0x7FFF then ToDevice(Cartridge)
    else if address <= 0x97FF then ToDevice(PpuTiles)
    else if address <= 0x9FFF then ToDevice(PpuTileMaps)
    else if address <= 0xBFFF then ToDevice(Cartridge)
    else if address <= 0xDFFF then ToBacking(address)
    else if address <= 0xFDFF then ToBacking(address - 0x2000)
    else if address <= 0xFE9F then ToDevice(PpuOam)
    else if address <= 0xFEFF then Dropped
    else if address <= 0xFF7F then IoStore(address, bootFinished)
    else if address <= 0xFFFE then ToBacking(address)
    else SetEnable
  }

  /** `write_io_byte` (mmu.rs:204-245) for an address of the I/O window. */
  function IoStore(address: Address, bootFinished: bool): (t: Store)
    requires 0xFF00 <= address <= 0xFF7F
    ensures t.ToBacking? ==> t.index == address
  {
    if address == 0xFF00 then ToDevice(Joypad)
    else if 0xFF04 <= address <= 0xFF07 then ToDevice(Timer)
    else if address == 0xFF0F then SetFlag
    else if 0xFF10 <= address <= 0xFF2F then ToDevice(Apu)
    else if 0xFF30 <= address <= 0xFF3F then ToDevice(WaveRam)
    else if 0xFF40 <= address <= 0xFF45 then ToDevice(PpuRegisters)
    else if address == DMA_TRANSFER then StartDma
    else if 0xFF47 <= address <= 0xFF4B then ToDevice(PpuRegisters)
    else if address == BOOT_ROM_DISABLE && !bootFinished then FinishBoot
    else ToBacking(address)
  }

  /** The storage a read cell and a write target name are the same. */
  predicate SameStorage(c: Cell, t: Store)
  {
    match c
    case Device(p) => t == ToDevice(p)
    case Backing(i) => t == ToBacking(i) || (t == StartDma && i == DMA_TRANSFER)
    case NotUsable => t == Dropped
    case EnableRegister => t == SetEnable
    case FlagRegister => t == SetFlag
  }

  /**
   * A read and a write of the same address reach the same storage except
   * in two places while the boot ROM runs: its image answers reads of
   * 0x0000-0x00FF, whose writes go to the cartridge, and a write to 0xFF50
   * ends the boot ROM instead of storing.
   */
  lemma ReadWriteAgree(address: Address, bootFinished: bool)
    ensures SameStorage(ReadCell(address, bootFinished), WriteCell(address, bootFinished)) <==>
              bootFinished || (0xFF < address && address != BOOT_ROM_DISABLE)
  {
    if 0xFF00 <= address <= 0xFF7F {
      assert ReadCell(address, bootFinished) == IoCell(address);
      assert WriteCell(address, bootFinished) == IoStore(address, bootFinished);
    }
  }

  /** The byte a cell answers. */
  function Fetch(s: FlatState, d: Components, c: Cell, address: Address): Byte
    requires ValidState(s) && (c.Backing? ==> c.index < MemoryMap.MEMORY_SIZE)
  {
    match c
    case Device(p) => d.peek(s.trace, p, address)
    case Backing(i) => s.memory[i]
    case NotUsable => INVALID_READ
    case EnableRegister => s.interruptEnable
    case FlagRegister => s.interruptFlag
  }

  /** `read_byte`: the byte the routed cell answers. */
  function ReadSpec(s: FlatState, d: Components, address: Address): Byte
    requires ValidState(s)
  {
    Fetch(s, d, ReadCell(address, s.bootFinished), address)
  }

  /** The serial hook at the top of `write_byte`: 0x81 written to SC prints SB. */
  function SerialEcho(s: FlatState, d: Components, address: Address, value: Byte): (s': FlatState)
    requires ValidState(s)
    ensures s' == s.(trace := s'.trace)
    ensures s'.trace == s.trace || s'.trace == s.trace + [M.SerialOutput(ReadSpec(s, d, 0xFF01))]
  {
    if address == 0xFF02 && value == 0x81 then s.(trace := s.trace + [M.SerialOutput(ReadSpec(s, d, 0xFF01))])
    else s
  }

  /** What a target does with a written value. */
  ghost function Apply(s: FlatState, t: Store, address: Address, value: Byte): (s': FlatState)
    requires ValidState(s) && (t.ToBacking? ==> t.index < MemoryMap.MEMORY_SIZE)
    ensures ValidState(s') && s'.now == s.now
    ensures t != StartDma ==> s'.queue == s.queue
  {
    match t
    case ToDevice(p) => s.(trace := s.trace + [M.PortWrite(p, address, value)])
    case ToBacking(i) => s.(memory := s.memory[i := value])
    case Dropped => s
    case SetEnable => s.(interruptEnable := I.FromBitsTruncate(value))
    case SetFlag => s.(interruptFlag := I.FromBitsTruncate(0xE0 | value))
    case StartDma => DmaSpec(s, value)
    case FinishBoot => s.(bootFinished := true)
  }

  /**
   * `dma_transfer` (mmu.rs:247-253): the vector keeps the value, a pending
   * DMATransferComplete is cancelled and DMARequested is due four cycles later.
   */
  ghost function DmaSpec(s: FlatState, value: Byte): (s': FlatState)
    requires ValidState(s)
    ensures ValidState(s')
  {
    s.(memory := s.memory[DMA_TRANSFER := value], queue := M.DmaQueue(s.queue, s.now))
  }

  /** `write_byte`: the serial hook, then the routed target takes the value. */
  ghost function WriteSpec(s: FlatState, d: Components, address: Address, value: Byte): (s': FlatState)
    requires ValidState(s)
    ensures ValidState(s') && s'.now == s.now
  {
    Apply(SerialEcho(s, d, address, value), WriteCell(address, s.bootFinished), address, value)
  }

  /**
   * A write to work RAM, its echo, high RAM, DMA or an I/O address no
   * component claims is read back unchanged; 0xFF50 while the boot ROM runs
   * is the one vector address that does not store its value.
   */
  lemma ReadAfterWrite(s: FlatState, d: Components, address: Address, value: Byte)
    requires ValidState(s) && ReadCell(address, s.bootFinished).Backing?
    requires s.bootFinished || address != BOOT_ROM_DISABLE
    ensures ReadSpec(WriteSpec(s, d, address, value), d, address) == value
  {
    ReadWriteAgree(address, s.bootFinished);
  }

  /**
   * A write changes no vector byte but its own: every address answered
   * from another byte of the vector reads as before.
   */
  lemma WriteKeepsOthers(s: FlatState, d: Components, address: Address, other: Address, value: Byte)
    requires ValidState(s) && ReadCell(other, s.bootFinished).Backing?
    requires ReadCell(address, s.bootFinished) != ReadCell(other, s.bootFinished)
    ensures ReadSpec(WriteSpec(s, d, address, value), d, other) == ReadSpec(s, d, other)
  {
    ReadWriteAgree(address, s.bootFinished);
  }

  /** Echo RAM 0xE000-0xFDFF is the vector 0x2000 lower, for reads and writes. */
  lemma EchoMirror(s: FlatState, d: Components, address: Address, value: Byte)
    requires ValidState(s) && 0xE000 <= address <= 0xFDFF
    ensures ReadSpec(s, d, address) == ReadSpec(s, d, address - 0x2000)
    ensures WriteSpec(s, d, address, value) == WriteSpec(s, d, address - 0x2000, value)
  {
  }

  /** 0xFEA0-0xFEFF reads 0xFF and ignores writes. */
  lemma UnusableRegion(s: FlatState, d: Components, address: Address, value: Byte)
    requires ValidState(s) && 0xFEA0 <= address <= 0xFEFF
    ensures ReadSpec(s, d, address) == INVALID_READ
    ensures WriteSpec(s, d, address, value) == s
  {
  }

  /**
   * IF keeps its three top bits set whatever is written: a write reads back
   * as `0xE0 | value`. IE keeps every written bit.
   */
  lemma InterruptRegisters(s: FlatState, d: Components, value: Byte)
    requires ValidState(s)
    ensures ReadSpec(WriteSpec(s, d, 0xFF0F, value), d, 0xFF0F) == 0xE0 | value
    ensures ReadSpec(WriteSpec(s, d, 0xFF0F, value), d, 0xFF0F) & 0xE0 == 0xE0
    ensures ReadSpec(WriteSpec(s, d, 0xFFFF, value), d, 0xFFFF) == value
  {
    assert (0xE0 | value) & 0xE0 == 0xE0;
  }

  /**
   * Writing 0xFF50 while the boot ROM runs finishes it and stores nothing;
   * from then on 0x0000-0x00FF read the cartridge and 0xFF50 is a plain
   * vector byte.
   */
  lemma BootRomDisable(s: FlatState, d: Components, value: Byte)
    requires ValidState(s)
    ensures !s.bootFinished ==> WriteSpec(s, d, BOOT_ROM_DISABLE, value) == s.(bootFinished := true)
    ensures s.bootFinished ==> WriteSpec(s, d, BOOT_ROM_DISABLE, value) == s.(memory := s.memory[BOOT_ROM_DISABLE := value])
  {
  }

  /**
   * A DMA write: the register reads the value back and the queue is the
   * one `Mmu.DmaQueue` describes (no DMATransferComplete left, one more
   * DMARequested four cycles ahead).
   */
  lemma DmaWrite(s: FlatState, d: Components, value: Byte)
    requires ValidState(s)
    ensures var s' := WriteSpec(s, d, DMA_TRANSFER, value);
            ReadSpec(s', d, DMA_TRANSFER) == value && s'.queue == M.DmaQueue(s.queue, s.now)
  {
    assert WriteSpec(s, d, DMA_TRANSFER, value) == DmaSpec(s, value);
  }

  /** Hence a write adds no due event. */
  lemma WriteDominated(s: FlatState, d: Components, address: Address, value: Byte)
    requires ValidState(s)
    ensures DueDominated(WriteSpec(s, d, address, value).queue, s.queue, s.now)
  {
    M.DmaQueueDominated(s.queue, s.now);
  }

  /** `Memory::new`: the whole vector reads 0xFF, nothing requested or enabled, one NONE event at time 0. */
  function Initial(bootFinished: bool): (s: FlatState)
    ensures ValidState(s)
  {
    FlatState(seq(MemoryMap.MEMORY_SIZE, _ => 0xFF), bootFinished, 0, 0, multiset{Event(0, NONE)}, 0, [])
  }

  /** Before any write, every address the vector answers reads 0xFF. */
  lemma InitialReads(bootFinished: bool, d: Components, address: Address)
    requires ReadCell(address, bootFinished).Backing?
    ensures ReadSpec(Initial(bootFinished), d, address) == 0xFF
  {
  }

  /** `gather_shadow_oam` (mmu.rs:255-257): the 0xA0 bytes read from `start` on. */
  function ShadowOam(s: FlatState, d: Components, start: Address): (r: seq<Byte>)
    requires ValidState(s)
    ensures |r| == 0xA0
    ensures forall i :: 0 <= i < 0xA0 ==> r[i] == ReadSpec(s, d, M.Addr(start + i))
  {
    seq(0xA0, i requires 0 <= i < 0xA0 => ReadSpec(s, d, M.Addr(start + i)))
  }

  /**
   * The calls an arm of `tick_scheduler` (mmu.rs:271-345) makes into the
   * components: none for NONE, the shadow OAM for DMARequested, one
   * notification for every other event.
   */
  function Calls(s: FlatState, d: Components, e: Event): seq<M.Call>
    requires ValidState(s)
  {
    match e.eventType
    case NONE => []
    case VBLANK => [M.PpuVblank]
    case OamSearch => [M.PpuOamSearch]
    case LcdTransfer => [M.PpuLcdTransfer(false)]
    case HBLANK => [M.PpuHblank]
    case VblankWait => [M.PpuVblankWait]
    case APUFrameSequencer => [M.FrameSequencerTick]
    case APUSample => [M.SamplingTick]
    case TimerOverflow => [M.TimerOverflowHandled]
    case TimerPostOverflow => [M.PostOverflowCleared]
    case DMARequested => [M.OamDmaTransfer(ShadowOam(s, d, s.memory[DMA_TRANSFER] as nat * 0x100))]
    case DMATransferComplete => [M.OamDmaFinished]
  }

  /** One arm of `tick_scheduler` for an event already popped: the calls, then the pushes, at single speed. */
  function Handle(s: FlatState, d: Components, e: Event): (s': FlatState)
    requires ValidState(s)
    ensures ValidState(s') && s'.now == s.now
  {
    var t := s.trace + Calls(s, d, e);
    s.(trace := t, queue := s.queue + Pushes(e, s.now, d.currentY(t), false))
  }

  /**
   * The loop of `tick_scheduler` handling `es` in turn from `s`: each must
   * be a minimum of the queue and due when it is popped; `None` when one is not.
   */
  ghost function Run(s: FlatState, d: Components, es: seq<Event>): (r: Option<FlatState>)
    requires ValidState(s)
    ensures r.Some? ==> ValidState(r.value) && r.value.now == s.now
    decreases |es|
  {
    if es == [] then Some(s)
    else match Run(s, d, es[..|es| - 1])
      case None => None
      case Some(m) =>
        var e := es[|es| - 1];
        if IsClosest(e, m.queue) && e.timestamp <= m.now then Some(Handle(m.(queue := m.queue - multiset{e}), d, e))
        else None
  }

  /**
   * One more round of the loop: handling the closest due event extends the
   * run, lowers the weight of the queue (so the loop ends) and adds a
   * V-blank exactly when that event is one.
   */
  lemma RunStep(s: FlatState, d: Components, es: seq<Event>, p: FlatState, e: Event)
    requires ValidState(s) && Run(s, d, es) == Some(p)
    requires IsClosest(e, p.queue) && e.timestamp <= p.now
    ensures Run(s, d, es + [e]) == Some(Handle(p.(queue := p.queue - multiset{e}), d, e))
    ensures Weight(Handle(p.(queue := p.queue - multiset{e}), d, e).queue, p.now) < Weight(p.queue, p.now)
    ensures M.HasVblank(es + [e]) == (M.HasVblank(es) || e.eventType == VBLANK)
  {
    assert (es + [e])[..|es|] == es;
    var m := p.(queue := p.queue - multiset{e});
    var pushed := Pushes(e, p.now, d.currentY(m.trace + Calls(m, d, e)), false);
    PushesLowerDue(e, p.now, d.currentY(m.trace + Calls(m, d, e)), false);
    M.PopHandleWeight(p.queue, e, pushed, Handle(m, d, e).queue, p.now);
  }

  /** `do_m_cycle` up to its scheduler loop: the APU ticks four cycles and four cycles pass. */
  function MCycleStart(s: FlatState): (s': FlatState)
    requires ValidState(s)
    ensures ValidState(s') && s'.now == s.now + 4 && s'.queue == s.queue
    ensures s'.trace == s.trace + [M.ApuTick(4)]
  {
    s.(trace := s.trace + [M.ApuTick(4)], now := s.now + 4)
  }

  /** `do_m_cycle` (mmu.rs:383-391): the APU ticks, the scheduler handles `es`, then the timers tick. */
  ghost function MCycle(s: FlatState, d: Components, es: seq<Event>): (r: Option<FlatState>)
    requires ValidState(s)
    ensures r.Some? ==> ValidState(r.value) && r.value.now == s.now + 4
    ensures r.Some? ==> r.value.trace != [] && r.value.trace[|r.value.trace| - 1] == M.TimersTick
  {
    match Run(MCycleStart(s), d, es)
    case None => None
    case Some(m) => Some(m.(trace := m.trace + [M.TimersTick]))
  }

  /**
   * The older `Memory` as a class: the flat vector is an array written in
   * place, IF and IE sit in the interrupt module, and every method is
   * proved against the functions above (`State()` is the `FlatState` the
   * object holds).
   */
  class Memory {
    const memory: array<Byte>
    var bootFinished: bool
    const interrupts: I.InterruptModule
    const scheduler: Scheduler
    const components: Components
    /** The calls made so far into the components outside the model. */
    var trace: seq<M.Call>

    /**
     * `Memory::new`: the vector filled with 0xFF, the boot ROM finished
     * exactly when none is given, default interrupt registers and a fresh
     * scheduler.
     */
    constructor (bootRomGiven: bool, components: Components)
      ensures Valid() && State() == Initial(!bootRomGiven)
      ensures this.components == components
    {
      memory := new Byte[MemoryMap.MEMORY_SIZE](_ => 0xFF);
      bootFinished := !bootRomGiven;
      interrupts := new I.InterruptModule();
      scheduler := new Scheduler();
      this.components := components;
      trace := [];
      new;
      assert memory[..] == seq(MemoryMap.MEMORY_SIZE, _ => 0xFF);
    }

    ghost predicate Valid()
      reads this
    {
      memory.Length == MemoryMap.MEMORY_SIZE
    }

    /** The bus state this object holds. */
    function State(): (s: FlatState)
      reads this, memory, interrupts, scheduler
    {
      FlatState(memory[..], bootFinished, interrupts.interruptEnable, interrupts.interruptFlag,
                scheduler.eventQueue, scheduler.currentTime, trace)
    }

    /** `read_byte` and `read_io_byte`: the byte the routed cell answers. */
    function ReadByte(address: Address): (v: Byte)
      requires Valid()
      reads this, memory, interrupts, scheduler
      ensures ValidState(State()) && v == ReadSpec(State(), components, address)
    {
      match ReadCell(address, bootFinished)
      case Device(p) => components.peek(trace, p, address)
      case Backing(i) => memory[i]
      case NotUsable => NonUsableCall(address)
      case EnableRegister => interrupts.interruptEnable
      case FlagRegister => interrupts.interruptFlag
    }

    /** `non_usable_call` (mmu.rs:259-263): always 0xFF. */
    function NonUsableCall(address: Address): (v: Byte)
      ensures v == INVALID_READ
    {
      INVALID_READ
    }

    /** `write_byte` and `write_io_byte`: the serial hook, then the routed target takes the value. */
    method WriteByte(address: Address, value: Byte)
      requires Valid()
      modifies this, memory, interrupts, scheduler
      ensures Valid() && ValidState(old(State())) && State() == WriteSpec(old(State()), components, address, value)
    {
      if address == 0xFF02 && value == 0x81 {
        trace := trace + [M.SerialOutput(ReadByte(0xFF01))];
      }
      match WriteCell(address, bootFinished)
      case ToDevice(p) => trace := trace + [M.PortWrite(p, address, value)];
      case ToBacking(i) => memory[i] := value;
      case Dropped =>
      case SetEnable => interrupts.interruptEnable := I.FromBitsTruncate(value);
      case SetFlag => interrupts.interruptFlag := I.FromBitsTruncate(0xE0 | value);
      case StartDma => DmaTransfer(value);
      case FinishBoot => bootFinished := true;
    }

    /** `dma_transfer`: store the page, cancel a running DMA, request the next four cycles on. */
    method DmaTransfer(value: Byte)
      requires Valid()
      modifies memory, scheduler
      ensures Valid() && ValidState(old(State())) && State() == DmaSpec(old(State()), value)
    {
      memory[DMA_TRANSFER] := value;
      scheduler.RemoveEventType(DMATransferComplete);
      FilteredIsRemoveType(scheduler.eventQueue, old(scheduler.eventQueue), DMATransferComplete);
      scheduler.PushRelative(DMARequested, 4);
    }

    /** `gather_shadow_oam`: 0xA0 bytes read in turn from `start`. */
    method GatherShadowOam(start: Address) returns (values: seq<Byte>)
      requires Valid()
      ensures ValidState(State()) && values == ShadowOam(State(), components, start)
    {
      values := [];
      for i := 0 to 0xA0
        invariant |values| == i
        invariant forall k :: 0 <= k < i ==> values[k] == ReadSpec(State(), components, M.Addr(start + k))
      {
        values := values + [ReadByte(M.Addr(start + i))];
      }
    }

    /** `add_new_interrupts`: a given interrupt is requested in IF, nothing otherwise. */
    method AddNewInterrupts(interrupt: Option<Byte>)
      modifies interrupts
      ensures interrupts.interruptFlag == if interrupt.Some? then old(interrupts.interruptFlag) | interrupt.value
                                          else old(interrupts.interruptFlag)
      ensures interrupts.interruptEnable == old(interrupts.interruptEnable)
    {
      if interrupt.Some? {
        interrupts.InsertInterrupt(interrupt.value);
      }
    }

    /**
     * One arm of the loop of `tick_scheduler`, for an event already popped:
     * the component is notified and the follow-up events pushed. Returns
     * whether it was a V-blank.
     */
    method HandleEvent(e: Event) returns (vblank: bool)
      requires Valid()
      modifies this, scheduler
      ensures Valid() && ValidState(old(State())) && State() == Handle(old(State()), components, e)
      ensures vblank <==> e.eventType == VBLANK
    {
      vblank := e.eventType == VBLANK;
      match e.eventType
      case NONE => StartUp(e);
      case DMARequested => StartOamDma(e);
      case _ => NotifyComponent(e);
    }

    /** The NONE arm: OAM search at once and the two APU events at their fixed times. */
    method StartUp(e: Event)
      requires Valid() && e.eventType == NONE
      modifies scheduler
      ensures Valid() && ValidState(old(State())) && State() == Handle(old(State()), components, e)
    {
      scheduler.PushFullEvent(UpdateSelf(e, OamSearch, 0));
      scheduler.PushEvent(APUFrameSequencer, 8192);
      scheduler.PushEvent(APUSample, 95);
      assert scheduler.eventQueue == old(scheduler.eventQueue) + Startup(e);
    }

    /**
     * The DMARequested arm: the shadow OAM gathered from the page in 0xFF46
     * goes to the PPU, whose `oam_dma_transfer` schedules the completion.
     */
    method StartOamDma(e: Event)
      requires Valid() && e.eventType == DMARequested
      modifies this, scheduler
      ensures Valid() && ValidState(old(State())) && State() == Handle(old(State()), components, e)
    {
      var data := GatherShadowOam(memory[DMA_TRANSFER] as nat * 0x100);
      trace := trace + [M.OamDmaTransfer(data)];
      scheduler.PushRelative(DMATransferComplete, OAM_DMA_CYCLES);
    }

    /**
     * The other arms: the component's handler is called, then the event
     * `Reschedule` names for the line the PPU now reports is pushed.
     */
    method NotifyComponent(e: Event)
      requires Valid() && e.eventType != NONE && e.eventType != DMARequested
      modifies this, scheduler
      ensures Valid() && ValidState(old(State())) && State() == Handle(old(State()), components, e)
    {
      trace := trace + Calls(State(), components, e);
      Repush(e);
    }

    /** The `update_self` push of an arm, for the line the PPU reports after its handler. */
    method Repush(e: Event)
      requires e.eventType != NONE && e.eventType != DMARequested
      modifies scheduler
      ensures scheduler.eventQueue == old(scheduler.eventQueue) + Pushes(e, scheduler.currentTime, components.currentY(trace), false)
      ensures scheduler.currentTime == old(scheduler.currentTime)
    {
      var next := Reschedule(e, components.currentY(trace), false);
      if next.Some? {
        scheduler.PushFullEvent(next.value);
      }
    }

    /**
     * `tick_scheduler` (mmu.rs:267-347): four cycles pass, then the due
     * events are popped, earliest first, and handled until none is due.
     * `handled` lists them in order; the result says whether one was a
     * V-blank. The loop ends because each round lowers the `Weight` of the queue.
     */
    method TickScheduler() returns (vblank: bool, ghost handled: seq<Event>)
      requires Valid()
      modifies this, scheduler
      ensures Valid() && ValidState(old(State()))
      ensures Run(old(State()).(now := old(State()).now + 4), components, handled) == Some(State())
      ensures forall e :: e in scheduler.eventQueue ==> e.timestamp > scheduler.currentTime
      ensures vblank == M.HasVblank(handled)
    {
      scheduler.AddCycles(4);
      ghost var s0 := State();
      vblank := false;
      handled := [];
      while true
        invariant Valid() && ValidState(s0) && Run(s0, components, handled) == Some(State())
        invariant vblank == M.HasVblank(handled)
        decreases Weight(scheduler.eventQueue, scheduler.currentTime)
      {
        ghost var p := State();
        var next, v := HandleClosest();
        if next.None? {
          break;
        }
        var e := next.value;
        RunStep(s0, components, handled, p, e);
        handled := handled + [e];
        vblank := vblank || v;
      }
    }

    /** One round of that loop: the closest event, when it is due, popped and handled. */
    method HandleClosest() returns (next: Option<Event>, vblank: bool)
      requires Valid()
      modifies this, scheduler
      ensures Valid() && ValidState(old(State()))
      ensures next.None? ==> State() == old(State())
      ensures next.None? ==> forall e :: e in scheduler.eventQueue ==> e.timestamp > scheduler.currentTime
      ensures next.Some? ==> IsClosest(next.value, old(State()).queue) && next.value.timestamp <= old(State()).now
      ensures next.Some? ==> State() == Handle(old(State()).(queue := old(State()).queue - multiset{next.value}), components, next.value)
      ensures next.Some? ==> (vblank <==> next.value.eventType == VBLANK)
    {
      ghost var p := State();
      next := scheduler.PopClosest();
      if next.None? {
        return next, false;
      }
      assert State() == p.(queue := p.queue - multiset{next.value});
      vblank := HandleEvent(next.value);
    }

    /** `do_m_cycle`: the APU ticks four cycles, the scheduler runs, then the timers tick. */
    method DoMCycle() returns (vblank: bool, ghost handled: seq<Event>)
      requires Valid()
      modifies this, scheduler
      ensures Valid() && ValidState(old(State()))
      ensures MCycle(old(State()), components, handled) == Some(State())
      ensures forall e :: e in scheduler.eventQueue ==> e.timestamp > scheduler.currentTime
      ensures vblank == M.HasVblank(handled)
    {
      ghost var s0 := State();
      vblank, handled := TickApuAndScheduler();
      ghost var m := State();
      trace := trace + [M.TimersTick];
      assert State() == m.(trace := m.trace + [M.TimersTick]);
    }

    /** The first two steps of `do_m_cycle`: the APU tick, then `tick_scheduler`. */
    method TickApuAndScheduler() returns (vblank: bool, ghost handled: seq<Event>)
      requires Valid()
      modifies this, scheduler
      ensures Valid() && ValidState(old(State()))
      ensures Run(MCycleStart(old(State())), components, handled) == Some(State())
      ensures forall e :: e in scheduler.eventQueue ==> e.timestamp > scheduler.currentTime
      ensures vblank == M.HasVblank(handled)
    {
      trace := trace + [M.ApuTick(4)];
      vblank, handled := TickScheduler();
    }
  }
}
