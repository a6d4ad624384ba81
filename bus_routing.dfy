/**
 * Address decoding of the CGB-era bus, `Memory::read_byte`, `write_byte`,
 * `read_io_byte` and `write_io_byte` in core/src/hardware/mmu/mod.rs: which
 * component answers a read and which one takes a write. The components the
 * bus does not own (cartridge, PPU, APU, timer, joypad, interrupt registers,
 * HDMA registers, boot ROM image) are named by a `Port`.
 */
module BusRouting {
  import opened Bits

  /** A component outside the bus that receives a read or a write. */
  datatype Port =
    | BootRomImage | Cartridge | PpuTiles | PpuTileMaps | PpuOam | PpuRegisters
    | Apu | WaveRam | Timer | Joypad | InterruptRegisters | HdmaRegisters

  /** Who answers a read. */
  datatype Source =
    | From(port: Port)       // the component behind the port
    | Wram0 | WramN | Echo   // the work RAM, bank 0, the selected bank, the mirror
    | Unusable               // 0xFEA0-0xFEFF
    | Hram                   // high RAM
    | IoArray                // the plain I/O register array
    | PrepareSwitch          // KEY1 in CGB mode
    | Invalid                // a register that always reads 0xFF
    | BankSelect             // SVBK

  /** Who takes a write. */
  datatype Target =
    | To(port: Port)
    | WriteWram0 | WriteWramN | WriteEcho
    | Ignored                // 0xFEA0-0xFEFF
    | WriteHram
    | WriteIoArray
    | DmaRegister            // 0xFF46 starts an OAM DMA
    | WritePrepareSwitch     // KEY1
    | BootRomOff             // 0xFF50 while the boot ROM runs
    | WriteBankSelect        // SVBK

  const INVALID_READ: Byte := 0xFF
  const DMA_TRANSFER: int := 0xFF46
  const LCD_CONTROL_REGISTER: int := 0xFF40
  const BOOT_ROM_DISABLE: int := 0xFF50

  predicate BootOverlay(a: int, bootFinished: bool, cgb: bool)
  {
    !bootFinished && (a <= 0xFF || (cgb && 0x200 <= a <= 0x8FF))
  }

  /** The address window the bus's own storage answers from. */
  predicate SourceRange(src: Source, address: Address)
  {
    match src
    case Wram0 => 0xC000 <= address <= 0xCFFF
    case WramN => 0xD000 <= address <= 0xDFFF
    case Echo => 0xE000 <= address <= 0xFDFF
    case Hram => 0xFF80 <= address <= 0xFFFE
    case IoArray => 0xFF00 <= address <= 0xFF7F
    case _ => true
  }

  predicate TargetRange(t: Target, address: Address)
  {
    match t
    case WriteWram0 => 0xC000 <= address <= 0xCFFF
    case WriteWramN => 0xD000 <= address <= 0xDFFF
    case WriteEcho => 0xE000 <= address <= 0xFDFF
    case WriteHram => 0xFF80 <= address <= 0xFFFE
    case WriteIoArray => 0xFF00 <= address <= 0xFF7F
    case _ => true
  }

  /**
   * `read_byte` (mod.rs:176-198): the first arm whose range holds the address.
   * `None` is the final panic arm, which no address reaches.
   */
  function ReadSource(address: Address, bootFinished: bool, cgb: bool): (r: Option<Source>)
    ensures r.Some?
    ensures r == Some(From(BootRomImage)) <==> BootOverlay(address, bootFinished, cgb)
    ensures 0xFEA0 <= address <= 0xFEFF ==> r == Some(Unusable)
    ensures 0xFF00 <= address <= 0xFF7F ==> r == Some(IoSource(address, cgb))
    ensures SourceRange(r.value, address)
  {
    if address <= 0xFF && !bootFinished then Some(From(BootRomImage))
    else if 0x200 <= address <= 0x8FF && !bootFinished && cgb then Some(From(BootRomImage))
    else if address <= 0x7FFF then Some(From(Cartridge))
    else if address <= 0x97FF then Some(From(PpuTiles))
    else if address <= 0x9FFF then Some(From(PpuTileMaps))
    else if address <= 0xBFFF then Some(From(Cartridge))
    else if address <= 0xCFFF then Some(Wram0)
    else if address <= 0xDFFF then Some(WramN)
    else if address <= 0xFDFF then Some(Echo)
    else if address <= 0xFE9F then Some(From(PpuOam))
    else if address <= 0xFEFF then Some(Unusable)
    else if address <= 0xFF7F then Some(IoSource(address, cgb))
    else if address <= 0xFFFE then Some(Hram)
    else if address == 0xFFFF then Some(From(InterruptRegisters))
    else None
  }

  /** `read_io_byte` (mod.rs:222-275) for an address of the I/O window. */
  function IoSource(address: Address, cgb: bool): (r: Source)
    ensures 0xFF51 <= address <= 0xFF54 ==> r == Invalid
    ensures address == 0xFF55 ==> (r == Invalid <==> !cgb)
    ensures address == 0xFF4D ==> (r == Invalid <==> !cgb)
  {
    if address == 0xFF00 then From(Joypad)
    else if address == 0xFF01 || address == 0xFF02 then IoArray
    else if 0xFF04 <= address <= 0xFF07 then From(Timer)
    else if address == 0xFF0F then From(InterruptRegisters)
    else if 0xFF10 <= address <= 0xFF2F then From(Apu)
    else if 0xFF30 <= address <= 0xFF3F then From(WaveRam)
    else if 0xFF40 <= address <= 0xFF45 then From(PpuRegisters)
    else if address == DMA_TRANSFER then IoArray
    else if 0xFF47 <= address <= 0xFF4B then From(PpuRegisters)
    else if address == 0xFF4D then (if cgb then PrepareSwitch else Invalid)
    else if address == 0xFF4F then From(PpuRegisters)
    else if 0xFF51 <= address <= 0xFF54 then Invalid
    else if address == 0xFF55 then (if cgb then From(HdmaRegisters) else Invalid)
    else if address == 0xFF56 then IoArray
    else if 0xFF68 <= address <= 0xFF6C then From(PpuRegisters)
    else if address == 0xFF70 then BankSelect
    else IoArray
  }

  /**
   * `write_byte` (mod.rs:200-219). `None` is the final panic arm, which no
   * address reaches.
   */
  function WriteTarget(address: Address, bootFinished: bool): (r: Option<Target>)
    ensures r.Some?
    ensures 0xFEA0 <= address <= 0xFEFF ==> r == Some(Ignored)
    ensures 0xFF00 <= address <= 0xFF7F ==> r == Some(IoTarget(address, bootFinished))
    ensures TargetRange(r.value, address)
    ensures r == Some(DmaRegister) <==> address == DMA_TRANSFER
  {
    if address <= 0x7FFF then Some(To(Cartridge))
    else if address <= 0x97FF then Some(To(PpuTiles))
    else if address <= 0x9FFF then Some(To(PpuTileMaps))
    else if address <= 0xBFFF then Some(To(Cartridge))
    else if address <= 0xCFFF then Some(WriteWram0)
    else if address <= 0xDFFF then Some(WriteWramN)
    else if address <= 0xFDFF then Some(WriteEcho)
    else if address <= 0xFE9F then Some(To(PpuOam))
    else if address <= 0xFEFF then Some(Ignored)
    else if address <= 0xFF7F then Some(IoTarget(address, bootFinished))
    else if address <= 0xFFFE then Some(WriteHram)
    else if address == 0xFFFF then Some(To(InterruptRegisters))
    else None
  }

  /** `write_io_byte` (mod.rs:277-330) for an address of the I/O window. */
  function IoTarget(address: Address, bootFinished: bool): (r: Target)
    ensures address == BOOT_ROM_DISABLE ==> (r == BootRomOff <==> !bootFinished)
    ensures address == BOOT_ROM_DISABLE && bootFinished ==> r == WriteIoArray
    ensures 0xFF51 <= address <= 0xFF55 ==> r == To(HdmaRegisters)
  {
    if address == 0xFF00 then To(Joypad)
    else if address == 0xFF01 || address == 0xFF02 then WriteIoArray
    else if 0xFF04 <= address <= 0xFF07 then To(Timer)
    else if address == 0xFF0F then To(InterruptRegisters)
    else if 0xFF10 <= address <= 0xFF2F then To(Apu)
    else if 0xFF30 <= address <= 0xFF3F then To(WaveRam)
    else if 0xFF40 <= address <= 0xFF45 then To(PpuRegisters)
    else if address == DMA_TRANSFER then DmaRegister
    else if 0xFF47 <= address <= 0xFF4B then To(PpuRegisters)
    else if address == 0xFF4D then WritePrepareSwitch
    else if address == 0xFF4F then To(PpuRegisters)
    else if 0xFF51 <= address <= 0xFF55 then To(HdmaRegisters)
    else if address == BOOT_ROM_DISABLE && !bootFinished then BootRomOff
    else if address == 0xFF56 then WriteIoArray
    else if 0xFF68 <= address <= 0xFF6C then To(PpuRegisters)
    else if address == 0xFF70 then WriteBankSelect
    else WriteIoArray
  }

  /** The storage a read source and a write target name are the same. */
  predicate SameStorage(s: Source, t: Target)
  {
    match s
    case From(p) => t == To(p)
    case Wram0 => t == WriteWram0
    case WramN => t == WriteWramN
    case Echo => t == WriteEcho
    case Unusable => t == Ignored
    case Hram => t == WriteHram
    case IoArray => t == WriteIoArray || t == DmaRegister || t == BootRomOff
    case PrepareSwitch => t == WritePrepareSwitch
    case Invalid => false
    case BankSelect => t == WriteBankSelect
  }

  /**
   * Outside the cartridge ROM and the boot overlay, a read and a write of the
   * same address reach the same storage, except the registers that read
   * 0xFF: HDMA1-4 always, and HDMA5 and KEY1 in DMG mode.
   */
  lemma ReadWriteAgree(address: Address, bootFinished: bool, cgb: bool)
    requires 0x8000 <= address
    ensures var s := ReadSource(address, bootFinished, cgb).value;
            var t := WriteTarget(address, bootFinished).value;
            SameStorage(s, t) <==> s != Invalid
  {
    if 0xFF00 <= address <= 0xFF7F {
      IoAgree(address, bootFinished, cgb);
    }
  }

  lemma IoAgree(address: Address, bootFinished: bool, cgb: bool)
    requires 0xFF00 <= address <= 0xFF7F
    ensures SameStorage(IoSource(address, cgb), IoTarget(address, bootFinished)) <==> IoSource(address, cgb) != Invalid
  {
    if address == 0xFF4D || address == 0xFF55 {
    } else if address == BOOT_ROM_DISABLE {
    }
  }
}
