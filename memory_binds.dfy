/**
 * The PPU's side of the memory bus (core/src/hardware/ppu/memory_binds.rs):
 * which VRAM, OAM and register accesses reach the PPU in each mode, the
 * LCDC and STAT writes with the LCD switching on and off, the STAT
 * interrupt line, and the CGB palette memories behind BCPS/BCPD and
 * OCPS/OCPD.
 *
 * The registers shared with the mode machine are kept as a `Ppu.Regs`
 * value, so the LY/LYC comparison is the one of module Ppu.
 */
module PpuMemory {
  import opened Bits
  import opened RegisterFlags
  import Interrupts
  import Palette
  import Ppu
  import Sched = Scheduler

  /** What a read of an unmapped or blocked address returns. */
  const INVALID_READ: Byte := 0xFF

  /** A bus address, 0x0000-0xFFFF. */
  type Address = x: int | 0 <= x < 0x10000

  // VRAM and OAM ranges.
  const TILE_BLOCK_0_START: int := 0x8000
  const TILE_BLOCK_2_END: int := 0x97FF
  const TILEMAP_9800_START: int := 0x9800
  const TILEMAP_9800_END: int := 0x9BFF
  const TILEMAP_9C00_START: int := 0x9C00
  const TILEMAP_9C00_END: int := 0x9FFF
  const OAM_ATTRIBUTE_START: int := 0xFE00
  const OAM_ATTRIBUTE_END: int := 0xFE9F

  // PPU registers.
  const LCD_CONTROL_REGISTER: Address := 0xFF40
  const LCD_STATUS_REGISTER: Address := 0xFF41
  const SCY_REGISTER: Address := 0xFF42
  const SCX_REGISTER: Address := 0xFF43
  const LY_REGISTER: Address := 0xFF44
  const LYC_REGISTER: Address := 0xFF45
  const BG_PALETTE: Address := 0xFF47
  const OB_PALETTE_0: Address := 0xFF48
  const OB_PALETTE_1: Address := 0xFF49
  const WY_REGISTER: Address := 0xFF4A
  const WX_REGISTER: Address := 0xFF4B
  const CGB_VRAM_BANK_REGISTER: Address := 0xFF4F
  const CGB_BACKGROUND_COLOR_INDEX: Address := 0xFF68
  const CGB_BACKGROUND_PALETTE_DATA: Address := 0xFF69
  const CGB_SPRITE_COLOR_INDEX: Address := 0xFF6A
  const CGB_OBJECT_PALETTE_DATA: Address := 0xFF6B
  const CGB_OBJECT_PRIORITY_MODE: Address := 0xFF6C

  /** Two banks of 384 tiles of 16 bytes. */
  const TILES_PER_BANK: nat := 384
  const TILE_BYTES: nat := 16
  const TILE_DATA_SIZE: nat := 2 * 384 * 16

  /** A 32 x 32 background map. */
  const MAP_SIZE: nat := 0x400

  /** Eight palettes of four colours, two bytes each. */
  const PALETTE_COLOURS: nat := 32

  /** The first line after switching the LCD on starts its transfer 76 cycles later. */
  const LCD_ON_DELAY: nat := 76

  // ---------------------------------------------------------------------------
  // CGB palette memory
  // ---------------------------------------------------------------------------

  /** A byte address in a 64-byte palette memory. */
  type PaletteAddress = x: nat | x < 64

  /** BCPS/OCPS: the selected byte of palette memory and the auto-increment flag. */
  datatype PaletteIndex = PaletteIndex(selectedAddress: PaletteAddress, autoIncrement: bool)

  /** One palette memory: its index register and 8 palettes x 4 colours, palette-major. */
  datatype PaletteMemory = PaletteMemory(index: PaletteIndex, colours: seq<Word>)

  predicate PaletteMemoryValid(m: PaletteMemory)
  {
    |m.colours| == PALETTE_COLOURS
  }

  /** `palette[addr / 8].colours[(addr % 8) / 2]`, as one index into the 32 colours. */
  function ColourSlot(addr: PaletteAddress): (c: nat)
    ensures c < PALETTE_COLOURS
  {
    4 * (addr / 8) + (addr % 8) / 2
  }

  /**
   * Each colour is two consecutive bytes of palette memory: the slot of a
   * byte address is the address halved.
   */
  lemma ColourSlotSpec(addr: PaletteAddress, other: PaletteAddress)
    ensures ColourSlot(addr) == addr / 2
    ensures ColourSlot(addr) == ColourSlot(other) <==> addr / 2 == other / 2
  {
  }

  /** The index register as it reads: bit 7 auto-increment, bits 0-5 the address. */
  function IndexValue(i: PaletteIndex): Byte
  {
    (if i.autoIncrement then 0x80 else 0) | (i.selectedAddress as Byte)
  }

  /** A write to the index register: bits 0-5 and bit 7. */
  function IndexFrom(v: Byte): PaletteIndex
  {
    PaletteIndex((v & 0x3F) as nat, v & 0x80 != 0)
  }

  /** Bits 0-5 and bit 7 of an address below 64, with and without bit 7 set. */
  lemma AddressBits(a: Byte)
    requires a < 64
    ensures a & 0x3F == a && a & 0x80 == 0
    ensures (0x80 | a) & 0x3F == a && (0x80 | a) & 0x80 != 0
  {
  }

  /** Reading the index register and writing the value back restores the index. */
  lemma IndexRoundTrip(i: PaletteIndex)
    ensures IndexFrom(IndexValue(i)) == i
  {
    var a := i.selectedAddress as Byte;
    AddressBits(a);
    assert a as nat == i.selectedAddress;
    if i.autoIncrement {
      assert IndexValue(i) == 0x80 | a;
    } else {
      assert IndexValue(i) == a;
    }
  }

  /** Writing the index register and reading it back loses only the unused bit 6. */
  lemma IndexWriteRead(v: Byte)
    ensures IndexValue(IndexFrom(v)) == v & 0xBF
  {
  }

  /**
   * `get_cgb_bg_palette_data` as written: an even address reads the high
   * byte of its colour and an odd address the low byte.
   */
  function DataReadAsWritten(m: PaletteMemory): Byte
    requires PaletteMemoryValid(m)
  {
    var addr := m.index.selectedAddress;
    var c := m.colours[ColourSlot(addr)];
    if addr % 2 == 0 then Hi(c) else Lo(c)
  }

  /** The read that matches the writes: an even address is the low byte. */
  function DataRead(m: PaletteMemory): Byte
    requires PaletteMemoryValid(m)
  {
    var addr := m.index.selectedAddress;
    var c := m.colours[ColourSlot(addr)];
    if addr % 2 == 0 then Lo(c) else Hi(c)
  }

  /** The index after a data write: one further, modulo 64, when auto-increment is on. */
  function NextIndex(i: PaletteIndex): PaletteIndex
  {
    if i.autoIncrement then i.(selectedAddress := (i.selectedAddress + 1) % 64) else i
  }

  /**
   * `set_colour_bg_palette_data`: an even address replaces the low byte of
   * its colour, an odd one the high byte; then the index may advance.
   */
  function DataWrite(m: PaletteMemory, v: Byte): (m': PaletteMemory)
    requires PaletteMemoryValid(m)
    ensures PaletteMemoryValid(m')
  {
    var addr := m.index.selectedAddress;
    var slot := ColourSlot(addr);
    var c := m.colours[slot];
    var c' := if addr % 2 == 0 then Join(Hi(c), v) else Join(v, Lo(c));
    PaletteMemory(NextIndex(m.index), m.colours[slot := c'])
  }

  /**
   * A data write changes one byte of one colour: the written byte reads
   * back at the address it went to, the other byte of that colour and every
   * other colour are kept, and the index advances modulo 64 exactly when
   * auto-increment is on.
   */
  lemma DataWriteSpec(m: PaletteMemory, v: Byte)
    requires PaletteMemoryValid(m)
    ensures var m' := DataWrite(m, v);
      var addr := m.index.selectedAddress;
      && DataRead(m'.(index := m.index)) == v
      && (addr % 2 == 0 ==> Hi(m'.colours[addr / 2]) == Hi(m.colours[addr / 2]))
      && (addr % 2 == 1 ==> Lo(m'.colours[addr / 2]) == Lo(m.colours[addr / 2]))
      && (forall j :: 0 <= j < PALETTE_COLOURS && j != addr / 2 ==> m'.colours[j] == m.colours[j])
      && m'.index.autoIncrement == m.index.autoIncrement
      && m'.index.selectedAddress == (if m.index.autoIncrement then (addr + 1) % 64 else addr)
  {
    ColourSlotSpec(m.index.selectedAddress, m.index.selectedAddress);
  }

  /** Without auto-increment, a data write reads straight back. */
  lemma DataRoundTrip(m: PaletteMemory, v: Byte)
    requires PaletteMemoryValid(m) && !m.index.autoIncrement
    ensures DataRead(DataWrite(m, v)) == v
  {
    DataWriteSpec(m, v);
  }

  /**
   * As written, a write at an even address followed by a read returns the
   * colour's old high byte, not the byte just written.
   */
  lemma DataReadAsWrittenMisses(m: PaletteMemory, v: Byte)
    requires PaletteMemoryValid(m) && !m.index.autoIncrement && m.index.selectedAddress % 2 == 0
    ensures DataReadAsWritten(DataWrite(m, v)) == Hi(m.colours[m.index.selectedAddress / 2])
  {
    DataWriteSpec(m, v);
  }

  /** Writing 0x12 at address 0 of a zeroed palette memory reads back 0x00. */
  lemma DataReadAsWrittenExample()
    ensures var m := PaletteMemory(PaletteIndex(0, false), seq(PALETTE_COLOURS, _ => 0));
      DataReadAsWritten(DataWrite(m, 0x12)) == 0x00 && DataRead(DataWrite(m, 0x12)) == 0x12
  {
    var m := PaletteMemory(PaletteIndex(0, false), seq(PALETTE_COLOURS, _ => 0));
    DataReadAsWrittenMisses(m, 0x12);
    DataRoundTrip(m, 0x12);
  }

  // ---------------------------------------------------------------------------
  // LCDC, STAT and the STAT interrupt line
  // ---------------------------------------------------------------------------

  /** What an LCDC write did to the display. */
  datatype LcdSwitch = NoSwitch | TurnedOff | TurnedOn

  predicate LcdOn(r: Ppu.Regs)
  {
    Has(r.lcdControl, LCD_DISPLAY)
  }

  /** `turn_off_lcd`, on the registers: LY and the window line back to 0, mode H-Blank. */
  function TurnOff(r: Ppu.Regs): Ppu.Regs
  {
    r.(currentY := 0, windowCounter := 0, lcdStatus := WithMode(r.lcdStatus, HBlank))
  }

  /**
   * `set_lcd_control`: the byte is stored; clearing bit 7 of a running LCD
   * turns it off, setting it on a stopped one turns it on, which compares
   * LY with LYC.
   */
  function LcdControlWritten(r: Ppu.Regs, value: Byte): (Ppu.Regs, Byte, LcdSwitch)
  {
    var wasOn := LcdOn(r);
    var r1 := r.(lcdControl := value);
    if !Has(value, LCD_DISPLAY) && wasOn then (TurnOff(r1), 0, TurnedOff)
    else if Has(value, LCD_DISPLAY) && !wasOn then
      var (r2, irq) := Ppu.LyLycCompare(r1, 0); (r2, irq, TurnedOn)
    else (r1, 0, NoSwitch)
  }

  /**
   * LCDC always reads back the written byte. The LCD is switched off exactly
   * when bit 7 goes from 1 to 0, which puts LY and the window line at 0 and
   * the mode at H-Blank; it is switched on exactly when bit 7 goes from 0 to
   * 1; only switching on can raise an interrupt (the LCD one).
   */
  lemma LcdControlSpec(r: Ppu.Regs, value: Byte)
    ensures var (r', irq, switch) := LcdControlWritten(r, value);
      && r'.lcdControl == value
      && (switch == TurnedOff <==> LcdOn(r) && !Has(value, LCD_DISPLAY))
      && (switch == TurnedOn <==> !LcdOn(r) && Has(value, LCD_DISPLAY))
      && (switch == TurnedOff ==> r'.currentY == 0 && r'.windowCounter == 0 && ModeFlag(r'.lcdStatus) == HBlank)
      && (switch == NoSwitch ==> r' == r.(lcdControl := value))
      && irq & 0xFD == 0
  {
    var r1 := r.(lcdControl := value);
    WithModeSpec(r1.lcdStatus, HBlank);
    Ppu.LyLycCompareSpec(r1, 0);
  }

  /**
   * The STAT interrupt line for the current mode: the mode-0 enable in
   * H-Blank, the mode-2 enable in OAM search, in V-Blank the mode-1 enable
   * (and on the DMG also the mode-2 enable), nothing during the transfer;
   * and the coincidence enable whenever LY equals LYC.
   */
  predicate StatLine(r: Ppu.Regs, isDmg: bool)
  {
    var modeLine := match ModeFlag(r.lcdStatus)
      case HBlank => Has(r.lcdStatus, MODE_0_H_INTERRUPT)
      case VBlank =>
        if isDmg then Has(r.lcdStatus, MODE_1_V_INTERRUPT) || Has(r.lcdStatus, MODE_2_OAM_INTERRUPT)
        else Has(r.lcdStatus, MODE_1_V_INTERRUPT)
      case OamSearch => Has(r.lcdStatus, MODE_2_OAM_INTERRUPT)
      case LcdTransfer => false;
    modeLine || (Has(r.lcdStatus, COINCIDENCE_INTERRUPT) && r.currentY == r.compareLine)
  }

  /**
   * `request_stat_interrupt`: with the LCD on, the line is sampled into
   * `stat_irq_triggered`, and the LCD interrupt is requested on a rising
   * edge; with the LCD off nothing happens.
   */
  function StatRequested(r: Ppu.Regs, statIrq: bool, isDmg: bool): (bool, Byte)
  {
    if !LcdOn(r) then (statIrq, 0)
    else
      var line := StatLine(r, isDmg);
      (line, if !statIrq && line then Interrupts.FLAG_LCD else 0)
  }

  /**
   * The LCD interrupt is requested exactly on a false-to-true edge of the
   * line while the LCD is on, and a second request straight after never
   * requests it again.
   */
  lemma StatRisingEdge(r: Ppu.Regs, statIrq: bool, isDmg: bool)
    ensures var (irq', p) := StatRequested(r, statIrq, isDmg);
      && (p == Interrupts.FLAG_LCD <==> LcdOn(r) && !statIrq && StatLine(r, isDmg))
      && (p != Interrupts.FLAG_LCD ==> p == 0)
      && irq' == (if LcdOn(r) then StatLine(r, isDmg) else statIrq)
      && StatRequested(r, irq', isDmg).1 == 0
  {
  }

  /** The STAT value a write leaves: bit 7 set, bits 3-6 written, bits 0-2 kept. */
  function StatValue(old_stat: Byte, value: Byte): Byte
  {
    0x80 | (value & 0x78) | (old_stat & 0x7)
  }

  /**
   * `set_lcd_status`. On the DMG the register first holds every enable
   * (`0xF8`) while the line is sampled, the hardware quirk that lets a STAT
   * write raise an interrupt; on the CGB the line is sampled after the
   * write.
   */
  function StatWritten(r: Ppu.Regs, statIrq: bool, isDmg: bool, value: Byte): (Ppu.Regs, bool, Byte)
  {
    var readOnly := r.lcdStatus & 0x7;
    if isDmg then
      var (irq', p) := StatRequested(r.(lcdStatus := 0xF8 | readOnly), statIrq, isDmg);
      (r.(lcdStatus := StatValue(r.lcdStatus, value)), irq', p)
    else
      var r1 := r.(lcdStatus := StatValue(r.lcdStatus, value));
      var (irq', p) := StatRequested(r1, statIrq, isDmg);
      (r1, irq', p)
  }

  /**
   * A STAT write keeps the three read-only bits (mode and coincidence),
   * takes bits 3-6 from the value and sets bit 7, changing no other
   * register.
   */
  lemma StatWriteSpec(r: Ppu.Regs, statIrq: bool, isDmg: bool, value: Byte)
    ensures var (r', _, _) := StatWritten(r, statIrq, isDmg, value);
      && r'.lcdStatus & 0x07 == r.lcdStatus & 0x07
      && r'.lcdStatus & 0x78 == value & 0x78
      && r'.lcdStatus & 0x80 == 0x80
      && ModeFlag(r'.lcdStatus) == ModeFlag(r.lcdStatus)
      && r' == r.(lcdStatus := r'.lcdStatus)
  {
  }

  /**
   * The DMG quirk: with the LCD on, outside the transfer and with the line
   * low, any STAT write, even of 0, requests the LCD interrupt. On the CGB
   * a write requests it only when the written enables raise the line.
   */
  lemma StatWriteQuirk(r: Ppu.Regs, statIrq: bool, value: Byte)
    ensures LcdOn(r) && ModeFlag(r.lcdStatus) != LcdTransfer && !statIrq ==>
      StatWritten(r, statIrq, true, value).2 == Interrupts.FLAG_LCD
    ensures var r' := r.(lcdStatus := StatValue(r.lcdStatus, value));
      StatWritten(r, statIrq, false, value).2 == Interrupts.FLAG_LCD <==>
        LcdOn(r) && !statIrq && StatLine(r', false)
  {
    var s := 0xF8 | (r.lcdStatus & 0x7);
    assert ModeFlag(s) == ModeFlag(r.lcdStatus);
    assert Has(s, MODE_0_H_INTERRUPT) && Has(s, MODE_1_V_INTERRUPT) && Has(s, MODE_2_OAM_INTERRUPT);
  }

  // ---------------------------------------------------------------------------
  // The PPU as the bus sees it
  // ---------------------------------------------------------------------------

  /** The DMG registers that only store a value: scroll and the three palettes. */
  datatype DmgRegisters = DmgRegisters(
    scrollY: Byte,
    scrollX: Byte,
    bgWindowPalette: Palette.PaletteValue,
    oamPalette0: Palette.PaletteValue,
    oamPalette1: Palette.PaletteValue,
    bgShades: Palette.DisplayColour,
    obj0Shades: Palette.DisplayColour,
    obj1Shades: Palette.DisplayColour)

  /**
   * VRAM: the selected bank, the tile data of both banks, the two maps of
   * bank 0 and their CGB attribute maps in bank 1.
   */
  datatype Vram = Vram(
    tileBank: nat,
    tileData: seq<Byte>,
    tileMap9800: seq<Byte>,
    tileMap9C00: seq<Byte>,
    attributes9800: seq<Byte>,
    attributes9C00: seq<Byte>)

  /** The CGB palette memories and the object priority mode. */
  datatype CgbRegisters = CgbRegisters(
    bgPaletteMemory: PaletteMemory,
    objPaletteMemory: PaletteMemory,
    objectPriority: bool)

  /** The state `read_vram` and `write_vram` reach. */
  datatype Bus = Bus(
    regs: Ppu.Regs,
    dmg: DmgRegisters,
    vram: Vram,
    oam: seq<Ppu.SpriteAttribute>,
    oamTransferOngoing: bool,
    cgb: CgbRegisters,
    statIrqTriggered: bool,
    isDmg: bool)

  predicate VramValid(v: Vram)
  {
    && |v.tileData| == TILE_DATA_SIZE
    && |v.tileMap9800| == MAP_SIZE && |v.tileMap9C00| == MAP_SIZE
    && |v.attributes9800| == MAP_SIZE && |v.attributes9C00| == MAP_SIZE
    && v.tileBank <= 1
  }

  predicate CgbValid(c: CgbRegisters)
  {
    PaletteMemoryValid(c.bgPaletteMemory) && PaletteMemoryValid(c.objPaletteMemory)
  }

  /** The sizes of the memories and a VRAM bank of 0 or 1. */
  predicate Valid(b: Bus)
  {
    VramValid(b.vram) && |b.oam| == 40 && CgbValid(b.cgb)
  }

  /** `can_access_vram`: everything but the LCD transfer. */
  predicate CanAccessVram(b: Bus)
  {
    ModeFlag(b.regs.lcdStatus) != LcdTransfer
  }

  /** `can_access_oam`: H-Blank or V-Blank, with no OAM DMA running. */
  predicate CanAccessOam(b: Bus)
  {
    var mode := ModeFlag(b.regs.lcdStatus);
    mode != OamSearch && mode != LcdTransfer && !b.oamTransferOngoing
  }

  lemma CanAccessOamSpec(b: Bus)
    ensures CanAccessOam(b) <==>
      (ModeFlag(b.regs.lcdStatus) == HBlank || ModeFlag(b.regs.lcdStatus) == VBlank) && !b.oamTransferOngoing
    ensures CanAccessOam(b) ==> CanAccessVram(b)
  {
  }

  predicate InTileData(address: Address)
  {
    TILE_BLOCK_0_START <= address <= TILE_BLOCK_2_END
  }

  predicate InTileMaps(address: Address)
  {
    TILEMAP_9800_START <= address <= TILEMAP_9C00_END
  }

  predicate InOam(address: Address)
  {
    OAM_ATTRIBUTE_START <= address <= OAM_ATTRIBUTE_END
  }

  /** `get_tile_address`: the tile and the byte within it of a VRAM address. */
  function TileAddress(address: Address): (nat, nat)
    requires InTileData(address)
  {
    var relative := address - TILE_BLOCK_0_START;
    (relative / 16, relative % 16)
  }

  /** The 0x1800 bytes of a bank split into 384 tiles of 16 bytes, one to one. */
  lemma TileAddressSpec(address: Address, other: Address)
    requires InTileData(address) && InTileData(other)
    ensures var (tile, byte) := TileAddress(address);
      tile < TILES_PER_BANK && byte < TILE_BYTES && 16 * tile + byte == address - TILE_BLOCK_0_START
    ensures TileAddress(address) == TileAddress(other) <==> address == other
  {
  }

  /** Where a tile data byte lives: the tile of the selected bank, then the byte. */
  function TileIndex(v: Vram, address: Address): (i: nat)
    requires VramValid(v) && InTileData(address)
    ensures i < TILE_DATA_SIZE
  {
    var (tile, byte) := TileAddress(address);
    (TILES_PER_BANK * v.tileBank + tile) * TILE_BYTES + byte
  }

  /** `get_tile_byte` and `get_tilemap_byte`: in a map, bank 0 holds tile numbers, bank 1 attributes. */
  function VramByte(v: Vram, address: Address): Byte
    requires VramValid(v) && (InTileData(address) || InTileMaps(address))
  {
    if InTileData(address) then v.tileData[TileIndex(v, address)]
    else if address <= TILEMAP_9800_END then
      if v.tileBank == 0 then v.tileMap9800[address - TILEMAP_9800_START] else v.attributes9800[address - TILEMAP_9800_START]
    else
      if v.tileBank == 0 then v.tileMap9C00[address - TILEMAP_9C00_START] else v.attributes9C00[address - TILEMAP_9C00_START]
  }

  /** `set_tile_byte` and `set_tilemap_byte`. */
  function WithVramByte(v: Vram, address: Address, value: Byte): (v': Vram)
    requires VramValid(v) && (InTileData(address) || InTileMaps(address))
    ensures VramValid(v')
  {
    if InTileData(address) then v.(tileData := v.tileData[TileIndex(v, address) := value])
    else if address <= TILEMAP_9800_END then
      if v.tileBank == 0 then v.(tileMap9800 := v.tileMap9800[address - TILEMAP_9800_START := value])
      else v.(attributes9800 := v.attributes9800[address - TILEMAP_9800_START := value])
    else
      if v.tileBank == 0 then v.(tileMap9C00 := v.tileMap9C00[address - TILEMAP_9C00_START := value])
      else v.(attributes9C00 := v.attributes9C00[address - TILEMAP_9C00_START := value])
  }

  /**
   * A VRAM byte reads back after it is written, and writing one address of
   * the same bank leaves every other address as it was.
   */
  lemma VramRoundTrip(v: Vram, address: Address, other: Address, value: Byte)
    requires VramValid(v) && (InTileData(address) || InTileMaps(address)) && (InTileData(other) || InTileMaps(other))
    ensures VramByte(WithVramByte(v, address, value), address) == value
    ensures other != address ==> VramByte(WithVramByte(v, address, value), other) == VramByte(v, other)
  {
    if InTileData(address) && InTileData(other) {
      TileAddressSpec(address, other);
    }
  }

  /** Byte `k` of a sprite entry, in OAM order: Y, X, tile, attributes. */
  function OamByte(s: Ppu.SpriteAttribute, k: nat): Byte
  {
    if k == 0 then s.yPos else if k == 1 then s.xPos else if k == 2 then s.tileNumber else s.attributeFlags
  }

  function WithOamByte(s: Ppu.SpriteAttribute, k: nat, v: Byte): Ppu.SpriteAttribute
  {
    if k == 0 then s.(yPos := v) else if k == 1 then s.(xPos := v)
    else if k == 2 then s.(tileNumber := v) else s.(attributeFlags := v)
  }

  /** The entry and the byte within it of an OAM address. */
  function OamSlot(address: Address): (slot: (nat, nat))
    requires InOam(address)
    ensures slot.0 < 40 && slot.1 < 4
  {
    ((address - OAM_ATTRIBUTE_START) / 4, address % 4)
  }

  /** `set_oam_byte`. */
  function WithOam(oam: seq<Ppu.SpriteAttribute>, address: Address, value: Byte): (oam': seq<Ppu.SpriteAttribute>)
    requires |oam| == 40 && InOam(address)
    ensures |oam'| == 40
  {
    var (entry, k) := OamSlot(address);
    oam[entry := WithOamByte(oam[entry], k, value)]
  }

  /** An OAM byte reads back after it is written, and the other 159 are kept. */
  lemma OamRoundTrip(oam: seq<Ppu.SpriteAttribute>, address: Address, other: Address, value: Byte)
    requires |oam| == 40 && InOam(address) && InOam(other)
    ensures var (e, k) := OamSlot(address); OamByte(WithOam(oam, address, value)[e], k) == value
    ensures var (e, k) := OamSlot(other);
      other != address ==> OamByte(WithOam(oam, address, value)[e], k) == OamByte(oam[e], k)
  {
  }

  /** A VRAM or OAM access the current mode lets through. */
  predicate MemoryAccessible(b: Bus, address: Address)
  {
    || ((InTileData(address) || InTileMaps(address)) && CanAccessVram(b))
    || (InOam(address) && CanAccessOam(b))
  }

  /** `read_vram`, with the palette data read that matches its writes. */
  function Read(b: Bus, address: Address): Byte
    requires Valid(b)
  {
    if (InTileData(address) || InTileMaps(address)) && CanAccessVram(b) then VramByte(b.vram, address)
    else if InOam(address) && CanAccessOam(b) then
      var (entry, k) := OamSlot(address); OamByte(b.oam[entry], k)
    else if address < 0xFF68 then DmgRegisterRead(b, address)
    else CgbRegisterRead(b, address)
  }

  /** The arms of `read_vram` for the registers 0xFF40-0xFF4F. */
  function DmgRegisterRead(b: Bus, address: Address): Byte
  {
    if address == LCD_CONTROL_REGISTER then b.regs.lcdControl
    else if address == LCD_STATUS_REGISTER then 0x80 | b.regs.lcdStatus
    else if address == SCY_REGISTER then b.dmg.scrollY
    else if address == SCX_REGISTER then b.dmg.scrollX
    else if address == LY_REGISTER then b.regs.currentY as Byte
    else if address == LYC_REGISTER then b.regs.compareLine as Byte
    else if address == BG_PALETTE then Palette.Into(b.dmg.bgWindowPalette)
    else if address == OB_PALETTE_0 then Palette.Into(b.dmg.oamPalette0)
    else if address == OB_PALETTE_1 then Palette.Into(b.dmg.oamPalette1)
    else if address == WY_REGISTER then b.regs.windowY as Byte
    else if address == WX_REGISTER then b.regs.windowX as Byte
    else if address == CGB_VRAM_BANK_REGISTER then 0xFE | (if b.vram.tileBank == 0 then 0 else 1)
    else INVALID_READ
  }

  /** The arms of `read_vram` for the CGB palette registers 0xFF68-0xFF6C. */
  function CgbRegisterRead(b: Bus, address: Address): Byte
    requires CgbValid(b.cgb)
  {
    if address == CGB_BACKGROUND_COLOR_INDEX then IndexValue(b.cgb.bgPaletteMemory.index)
    else if address == CGB_BACKGROUND_PALETTE_DATA && CanAccessVram(b) then DataRead(b.cgb.bgPaletteMemory)
    else if address == CGB_SPRITE_COLOR_INDEX then IndexValue(b.cgb.objPaletteMemory.index)
    else if address == CGB_OBJECT_PALETTE_DATA && CanAccessVram(b) then DataRead(b.cgb.objPaletteMemory)
    else if address == CGB_OBJECT_PRIORITY_MODE then (if b.cgb.objectPriority then 1 else 0)
    else INVALID_READ
  }

  /**
   * `write_vram`: the new state, the interrupts requested and what happened
   * to the LCD. Blocked VRAM, OAM and palette data writes fall through to
   * the ignored default, as does a write to LY.
   */
  function Write(b: Bus, address: Address, value: Byte): (Bus, Byte, LcdSwitch)
    requires Valid(b)
  {
    if (InTileData(address) || InTileMaps(address)) && CanAccessVram(b) then
      (b.(vram := WithVramByte(b.vram, address, value)), 0, NoSwitch)
    else if InOam(address) && CanAccessOam(b) then (b.(oam := WithOam(b.oam, address, value)), 0, NoSwitch)
    else RegisterWrite(b, address, value)
  }

  /** The register arms of `write_vram`, reached when no VRAM or OAM write went through. */
  function RegisterWrite(b: Bus, address: Address, value: Byte): (Bus, Byte, LcdSwitch)
    requires CgbValid(b.cgb)
  {
    if address == LCD_CONTROL_REGISTER then
      var (r', p, switch) := LcdControlWritten(b.regs, value); (b.(regs := r'), p, switch)
    else if address == LCD_STATUS_REGISTER then
      var (r', irq', p) := StatWritten(b.regs, b.statIrqTriggered, b.isDmg, value);
      (b.(regs := r', statIrqTriggered := irq'), p, NoSwitch)
    else if address == LYC_REGISTER then
      var (r', p) := LycWritten(b.regs, value); (b.(regs := r'), p, NoSwitch)
    else if address < 0xFF68 then (DmgRegisterWritten(b, address, value), 0, NoSwitch)
    else (b.(cgb := CgbRegisterWritten(b.cgb, CanAccessVram(b), address, value)), 0, NoSwitch)
  }

  /** The LYC arm: store, then compare only while the LCD is on. */
  function LycWritten(r: Ppu.Regs, value: Byte): (Ppu.Regs, Byte)
  {
    var r1 := r.(compareLine := value as int);
    if LcdOn(r1) then Ppu.LyLycCompare(r1, 0) else (r1, 0)
  }

  /** The arms of `write_vram` that store into the scroll, palette, window and bank registers. */
  function DmgRegisterWritten(b: Bus, address: Address, value: Byte): Bus
  {
    if address == SCY_REGISTER then b.(dmg := b.dmg.(scrollY := value))
    else if address == SCX_REGISTER then b.(dmg := b.dmg.(scrollX := value))
    else if address == BG_PALETTE then b.(dmg := b.dmg.(bgWindowPalette := Palette.New(value, b.dmg.bgShades)))
    else if address == OB_PALETTE_0 then b.(dmg := b.dmg.(oamPalette0 := Palette.New(value, b.dmg.obj0Shades)))
    else if address == OB_PALETTE_1 then b.(dmg := b.dmg.(oamPalette1 := Palette.New(value, b.dmg.obj1Shades)))
    else if address == WY_REGISTER then b.(regs := b.regs.(windowY := value as int))
    else if address == WX_REGISTER then b.(regs := b.regs.(windowX := value as int))
    else if address == CGB_VRAM_BANK_REGISTER then b.(vram := b.vram.(tileBank := if value & 0x1 == 0 then 0 else 1))
    else b
  }

  /** The arms of `write_vram` for the CGB palette registers; data writes need VRAM access. */
  function CgbRegisterWritten(c: CgbRegisters, vramAccess: bool, address: Address, value: Byte): (c': CgbRegisters)
    requires CgbValid(c)
    ensures CgbValid(c')
  {
    if address == CGB_BACKGROUND_COLOR_INDEX then c.(bgPaletteMemory := c.bgPaletteMemory.(index := IndexFrom(value)))
    else if address == CGB_BACKGROUND_PALETTE_DATA && vramAccess then
      c.(bgPaletteMemory := DataWrite(c.bgPaletteMemory, value))
    else if address == CGB_SPRITE_COLOR_INDEX then c.(objPaletteMemory := c.objPaletteMemory.(index := IndexFrom(value)))
    else if address == CGB_OBJECT_PALETTE_DATA && vramAccess then
      c.(objPaletteMemory := DataWrite(c.objPaletteMemory, value))
    else if address == CGB_OBJECT_PRIORITY_MODE then c.(objectPriority := value & 0x1 == 1)
    else c
  }

  /** Every write keeps the memories at their sizes and the bank at 0 or 1. */
  lemma WriteKeepsValid(b: Bus, address: Address, value: Byte)
    requires Valid(b)
    ensures Valid(Write(b, address, value).0)
  {
    if !((InTileData(address) || InTileMaps(address)) && CanAccessVram(b)) && !(InOam(address) && CanAccessOam(b))
       && address != LCD_CONTROL_REGISTER && address != LCD_STATUS_REGISTER && address != LYC_REGISTER
       && address < 0xFF68 {
      assert VramValid(DmgRegisterWritten(b, address, value).vram);
    }
  }

  /**
   * During the LCD transfer, tile data, tile maps and palette data read
   * 0xFF and ignore writes; OAM does the same whenever it is not
   * accessible.
   */
  lemma AccessBlocked(b: Bus, address: Address, value: Byte)
    requires Valid(b)
    ensures (!CanAccessVram(b) && (InTileData(address) || InTileMaps(address) ||
               address == CGB_BACKGROUND_PALETTE_DATA || address == CGB_OBJECT_PALETTE_DATA)) ==>
      Read(b, address) == INVALID_READ && Write(b, address, value) == (b, 0, NoSwitch)
    ensures !CanAccessOam(b) && InOam(address) ==>
      Read(b, address) == INVALID_READ && Write(b, address, value) == (b, 0, NoSwitch)
  {
  }

  /** Through the bus, whatever VRAM or OAM byte the mode lets be written reads back. */
  lemma BusMemoryRoundTrip(b: Bus, address: Address, value: Byte)
    requires Valid(b) && MemoryAccessible(b, address)
    ensures Read(Write(b, address, value).0, address) == value
  {
    if (InTileData(address) || InTileMaps(address)) && CanAccessVram(b) {
      VramRoundTrip(b.vram, address, address, value);
    } else {
      OamRoundTrip(b.oam, address, address, value);
    }
  }

  /**
   * STAT reads with bit 7 set; LY ignores writes; the bank register keeps
   * bit 0 and reads it as `0xFE | bank`; the object priority keeps bit 0;
   * the palette index reads back without bit 6.
   */
  lemma RegisterMasks(b: Bus, value: Byte)
    requires Valid(b)
    ensures Read(b, LCD_STATUS_REGISTER) == 0x80 | b.regs.lcdStatus
    ensures Write(b, LY_REGISTER, value) == (b, 0, NoSwitch)
    ensures Read(Write(b, CGB_VRAM_BANK_REGISTER, value).0, CGB_VRAM_BANK_REGISTER) == 0xFE | (value & 0x1)
    ensures Read(Write(b, CGB_OBJECT_PRIORITY_MODE, value).0, CGB_OBJECT_PRIORITY_MODE) == value & 0x1
    ensures Read(Write(b, CGB_BACKGROUND_COLOR_INDEX, value).0, CGB_BACKGROUND_COLOR_INDEX) == value & 0xBF
  {
    IndexWriteRead(value);
  }

  /** The scroll and window position registers read back what was written. */
  lemma RegisterRoundTrip(b: Bus, address: Address, value: Byte)
    requires Valid(b)
    requires address == SCY_REGISTER || address == SCX_REGISTER || address == WY_REGISTER || address == WX_REGISTER
    ensures Valid(Write(b, address, value).0) && Read(Write(b, address, value).0, address) == value
  {
    WriteKeepsValid(b, address, value);
  }

  /** The three DMG palette registers read back what was written. */
  lemma PaletteRoundTrip(b: Bus, address: Address, value: Byte)
    requires Valid(b)
    requires address == BG_PALETTE || address == OB_PALETTE_0 || address == OB_PALETTE_1
    ensures Valid(Write(b, address, value).0) && Read(Write(b, address, value).0, address) == value
  {
    WriteKeepsValid(b, address, value);
  }

  /**
   * An LYC write stores the value; with the LCD off nothing else changes,
   * with it on the coincidence flag is brought up to date.
   */
  lemma LycWrite(r: Ppu.Regs, value: Byte)
    ensures var (r', p) := LycWritten(r, value);
      && r'.compareLine == value as int
      && (!LcdOn(r) ==> r' == r.(compareLine := value as int) && p == 0)
      && (LcdOn(r) ==>
           (Has(r'.lcdStatus, COINCIDENCE_FLAG) <==> Has(r.lcdStatus, COINCIDENCE_FLAG) || r.currentY == value as int))
  {
    Ppu.LyLycCompareSpec(r.(compareLine := value as int), 0);
  }

  /** Requesting no interrupt leaves the flag register as it was. */
  lemma ZeroRequest(flag: Byte)
    ensures flag | 0 == flag
  {
  }

  /** The events of the PPU's mode machine, all of which switching the LCD off removes. */
  predicate IsPpuEvent(t: Sched.EventType)
  {
    t == Sched.HBLANK || t == Sched.VblankWait || t == Sched.VBLANK || t == Sched.LcdTransfer || t == Sched.OamSearch
  }

  /** `q'` is `q` without its PPU events. */
  ghost predicate PpuEventsRemoved(q': multiset<Sched.Event>, q: multiset<Sched.Event>)
  {
    forall e :: q'[e] == (if IsPpuEvent(e.eventType) then 0 else q[e])
  }

  /** The scheduler's heap after an LCDC write. */
  ghost predicate Rescheduled(q': multiset<Sched.Event>, q: multiset<Sched.Event>, now: nat, switch: LcdSwitch)
  {
    match switch
    case NoSwitch => q' == q
    case TurnedOff => PpuEventsRemoved(q', q)
    case TurnedOn => q' == q + multiset{Sched.Event(now + LCD_ON_DELAY, Sched.LcdTransfer)}
  }

  /** Removing the five event types one after the other removes exactly the PPU events. */
  lemma RemovalsCompose(q0: multiset<Sched.Event>, q1: multiset<Sched.Event>, q2: multiset<Sched.Event>,
                        q3: multiset<Sched.Event>, q4: multiset<Sched.Event>, q5: multiset<Sched.Event>)
    requires Sched.Filtered(q1, q0, Sched.HBLANK) && Sched.Filtered(q2, q1, Sched.VblankWait)
    requires Sched.Filtered(q3, q2, Sched.VBLANK) && Sched.Filtered(q4, q3, Sched.LcdTransfer)
    requires Sched.Filtered(q5, q4, Sched.OamSearch)
    ensures PpuEventsRemoved(q5, q0)
  {
    forall e ensures q5[e] == (if IsPpuEvent(e.eventType) then 0 else q0[e]) {
      assert q1[e] == (if e.eventType == Sched.HBLANK then 0 else q0[e]);
      assert q2[e] == (if e.eventType == Sched.VblankWait then 0 else q1[e]);
      assert q3[e] == (if e.eventType == Sched.VBLANK then 0 else q2[e]);
      assert q4[e] == (if e.eventType == Sched.LcdTransfer then 0 else q3[e]);
    }
  }

  /**
   * After switching off, no PPU event is left, every other event is kept
   * with its multiplicity, and the heap only shrank.
   */
  lemma PpuEventsRemovedSpec(q': multiset<Sched.Event>, q: multiset<Sched.Event>)
    requires PpuEventsRemoved(q', q)
    ensures forall e :: e in q' ==> !IsPpuEvent(e.eventType) && e in q
    ensures forall e :: e in q && !IsPpuEvent(e.eventType) ==> q'[e] == q[e]
    ensures q' <= q
  {
    assert forall e :: q'[e] <= q[e];
  }

  /**
   * `PPU`: the fields `memory_binds.rs` reads and writes, grouped as the
   * bus uses them.
   */
  class PPU {
    var regs: Ppu.Regs
    var dmg: DmgRegisters
    var vram: Vram
    var oam: seq<Ppu.SpriteAttribute>
    var oamTransferOngoing: bool
    var cgb: CgbRegisters
    var statIrqTriggered: bool
    const isDmg: bool

    function State(): Bus
      reads this
    {
      Bus(regs, dmg, vram, oam, oamTransferOngoing, cgb, statIrqTriggered, isDmg)
    }

    /** `read_vram`. */
    function ReadVram(address: Address): Byte
      reads this
      requires Valid(State())
    {
      Read(State(), address)
    }

    /** `write_vram`. */
    method WriteVram(address: Address, value: Byte, scheduler: Sched.Scheduler, interrupts: Interrupts.InterruptModule)
      requires Valid(State())
      modifies this, scheduler`eventQueue, interrupts`interruptFlag
      ensures State() == Write(old(State()), address, value).0
      ensures interrupts.interruptFlag == old(interrupts.interruptFlag) | Write(old(State()), address, value).1
      ensures Rescheduled(scheduler.eventQueue, old(scheduler.eventQueue), scheduler.currentTime,
                          Write(old(State()), address, value).2)
    {
      if MemoryAccessible(State(), address) {
        ZeroRequest(interrupts.interruptFlag);
        WriteMemory(address, value);
      } else {
        WriteRegister(address, value, scheduler, interrupts);
      }
    }

    /** The register arms of `write_vram`. */
    method WriteRegister(address: Address, value: Byte, scheduler: Sched.Scheduler, interrupts: Interrupts.InterruptModule)
      requires CgbValid(cgb)
      modifies this, scheduler`eventQueue, interrupts`interruptFlag
      ensures State() == RegisterWrite(old(State()), address, value).0
      ensures interrupts.interruptFlag == old(interrupts.interruptFlag) | RegisterWrite(old(State()), address, value).1
      ensures Rescheduled(scheduler.eventQueue, old(scheduler.eventQueue), scheduler.currentTime,
                          RegisterWrite(old(State()), address, value).2)
    {
      var vramAccess := ModeFlag(regs.lcdStatus) != LcdTransfer;
      if address == LCD_CONTROL_REGISTER {
        SetLcdControl(value, scheduler, interrupts);
      } else if address == LCD_STATUS_REGISTER {
        SetLcdStatus(value, interrupts);
      } else if address == LYC_REGISTER {
        SetCompareLine(value, interrupts);
      } else if address < 0xFF68 {
        WriteDmgRegister(address, value);
      } else {
        WriteCgbRegister(address, value, vramAccess);
      }
    }

    /** The VRAM and OAM arms of `write_vram`, when the mode lets the write through. */
    method WriteMemory(address: Address, value: Byte)
      requires Valid(State()) && MemoryAccessible(State(), address)
      modifies this`vram, this`oam
      ensures State() == Write(old(State()), address, value).0
    {
      if (InTileData(address) || InTileMaps(address)) && CanAccessVram(State()) {
        vram := WithVramByte(vram, address, value);
      } else {
        var (entry, k) := OamSlot(address);
        oam := oam[entry := WithOamByte(oam[entry], k, value)];
      }
    }

    /** The LYC arm of `write_vram`: store, then compare while the LCD is on. */
    method SetCompareLine(value: Byte, interrupts: Interrupts.InterruptModule)
      modifies this`regs, interrupts`interruptFlag
      ensures regs == LycWritten(old(regs), value).0
      ensures interrupts.interruptFlag == old(interrupts.interruptFlag) | LycWritten(old(regs), value).1
    {
      regs := regs.(compareLine := value as int);
      if Has(regs.lcdControl, LCD_DISPLAY) {
        LyLycCompare(interrupts);
      }
    }

    /** The scroll, palette, window and bank arms of `write_vram`. */
    method WriteDmgRegister(address: Address, value: Byte)
      modifies this`dmg, this`regs, this`vram
      ensures State() == DmgRegisterWritten(old(State()), address, value)
    {
      if address == SCY_REGISTER {
        dmg := dmg.(scrollY := value);
      } else if address == SCX_REGISTER {
        dmg := dmg.(scrollX := value);
      } else if address == BG_PALETTE {
        dmg := dmg.(bgWindowPalette := Palette.New(value, dmg.bgShades));
      } else if address == OB_PALETTE_0 {
        dmg := dmg.(oamPalette0 := Palette.New(value, dmg.obj0Shades));
      } else if address == OB_PALETTE_1 {
        dmg := dmg.(oamPalette1 := Palette.New(value, dmg.obj1Shades));
      } else if address == WY_REGISTER {
        regs := regs.(windowY := value as int);
      } else if address == WX_REGISTER {
        regs := regs.(windowX := value as int);
      } else if address == CGB_VRAM_BANK_REGISTER {
        vram := vram.(tileBank := if value & 0x1 == 0 then 0 else 1);
      }
    }

    /** The CGB palette arms of `write_vram`; data writes need VRAM access. */
    method WriteCgbRegister(address: Address, value: Byte, vramAccess: bool)
      requires CgbValid(cgb)
      modifies this`cgb
      ensures cgb == CgbRegisterWritten(old(cgb), vramAccess, address, value)
    {
      if address == CGB_BACKGROUND_COLOR_INDEX {
        cgb := cgb.(bgPaletteMemory := cgb.bgPaletteMemory.(index := IndexFrom(value)));
      } else if address == CGB_BACKGROUND_PALETTE_DATA && vramAccess {
        cgb := cgb.(bgPaletteMemory := DataWrite(cgb.bgPaletteMemory, value));
      } else if address == CGB_SPRITE_COLOR_INDEX {
        cgb := cgb.(objPaletteMemory := cgb.objPaletteMemory.(index := IndexFrom(value)));
      } else if address == CGB_OBJECT_PALETTE_DATA && vramAccess {
        cgb := cgb.(objPaletteMemory := DataWrite(cgb.objPaletteMemory, value));
      } else if address == CGB_OBJECT_PRIORITY_MODE {
        cgb := cgb.(objectPriority := value & 0x1 == 1);
      }
    }

    /** `ly_lyc_compare`, with the interrupt inserted into the interrupt module. */
    method LyLycCompare(interrupts: Interrupts.InterruptModule)
      modifies this`regs, interrupts`interruptFlag
      ensures regs == Ppu.LyLycCompare(old(regs), 0).0
      ensures interrupts.interruptFlag == old(interrupts.interruptFlag) | Ppu.LyLycCompare(old(regs), 0).1
    {
      ZeroRequest(interrupts.interruptFlag);
      assert 0 | Interrupts.FLAG_LCD == Interrupts.FLAG_LCD;
      if regs.currentY == regs.compareLine {
        regs := regs.(lcdStatus := regs.lcdStatus | COINCIDENCE_FLAG);
        if Has(regs.lcdStatus, COINCIDENCE_INTERRUPT) {
          interrupts.InsertInterrupt(Interrupts.FLAG_LCD);
        }
      }
    }

    /** `set_lcd_control`. */
    method SetLcdControl(value: Byte, scheduler: Sched.Scheduler, interrupts: Interrupts.InterruptModule)
      modifies this`regs, scheduler`eventQueue, interrupts`interruptFlag
      ensures regs == LcdControlWritten(old(regs), value).0
      ensures interrupts.interruptFlag == old(interrupts.interruptFlag) | LcdControlWritten(old(regs), value).1
      ensures Rescheduled(scheduler.eventQueue, old(scheduler.eventQueue), scheduler.currentTime,
                          LcdControlWritten(old(regs), value).2)
    {
      var wasLcdOn := Has(regs.lcdControl, LCD_DISPLAY);
      regs := regs.(lcdControl := value);
      if !Has(regs.lcdControl, LCD_DISPLAY) && wasLcdOn {
        TurnOffLcd(scheduler);
      } else if Has(regs.lcdControl, LCD_DISPLAY) && !wasLcdOn {
        TurnOnLcd(scheduler, interrupts);
      }
    }

    /** `turn_off_lcd`: LY and the window line to 0, mode H-Blank, the PPU's events removed. */
    method TurnOffLcd(scheduler: Sched.Scheduler)
      modifies this`regs, scheduler`eventQueue
      ensures regs == TurnOff(old(regs))
      ensures PpuEventsRemoved(scheduler.eventQueue, old(scheduler.eventQueue))
    {
      regs := regs.(currentY := 0, windowCounter := 0);
      regs := regs.(lcdStatus := WithMode(regs.lcdStatus, HBlank));
      ghost var q0 := scheduler.eventQueue;
      scheduler.RemoveEventType(Sched.HBLANK);
      ghost var q1 := scheduler.eventQueue;
      scheduler.RemoveEventType(Sched.VblankWait);
      ghost var q2 := scheduler.eventQueue;
      scheduler.RemoveEventType(Sched.VBLANK);
      ghost var q3 := scheduler.eventQueue;
      scheduler.RemoveEventType(Sched.LcdTransfer);
      ghost var q4 := scheduler.eventQueue;
      scheduler.RemoveEventType(Sched.OamSearch);
      RemovalsCompose(q0, q1, q2, q3, q4, scheduler.eventQueue);
    }

    /** `turn_on_lcd`: compare LY with LYC, then start a transfer 76 cycles from now. */
    method TurnOnLcd(scheduler: Sched.Scheduler, interrupts: Interrupts.InterruptModule)
      modifies this`regs, scheduler`eventQueue, interrupts`interruptFlag
      ensures regs == Ppu.LyLycCompare(old(regs), 0).0
      ensures interrupts.interruptFlag == old(interrupts.interruptFlag) | Ppu.LyLycCompare(old(regs), 0).1
      ensures scheduler.eventQueue ==
        old(scheduler.eventQueue) + multiset{Sched.Event(scheduler.currentTime + LCD_ON_DELAY, Sched.LcdTransfer)}
    {
      LyLycCompare(interrupts);
      scheduler.PushRelative(Sched.LcdTransfer, 76);
    }

    /** `set_lcd_status`. */
    method SetLcdStatus(value: Byte, interrupts: Interrupts.InterruptModule)
      modifies this`regs, this`statIrqTriggered, interrupts`interruptFlag
      ensures (regs, statIrqTriggered) ==
        (StatWritten(old(regs), old(statIrqTriggered), isDmg, value).0, StatWritten(old(regs), old(statIrqTriggered), isDmg, value).1)
      ensures interrupts.interruptFlag ==
        old(interrupts.interruptFlag) | StatWritten(old(regs), old(statIrqTriggered), isDmg, value).2
    {
      var readOnlyBits := regs.lcdStatus & 0x7;
      if isDmg {
        regs := regs.(lcdStatus := 0xF8 | readOnlyBits);
        RequestStatInterrupt(interrupts);
        regs := regs.(lcdStatus := 0x80 | (value & 0x78) | readOnlyBits);
      } else {
        regs := regs.(lcdStatus := 0x80 | (value & 0x78) | readOnlyBits);
        RequestStatInterrupt(interrupts);
      }
    }

    /** `request_stat_interrupt`. */
    method RequestStatInterrupt(interrupts: Interrupts.InterruptModule)
      modifies this`statIrqTriggered, interrupts`interruptFlag
      ensures statIrqTriggered == StatRequested(regs, old(statIrqTriggered), isDmg).0
      ensures interrupts.interruptFlag == old(interrupts.interruptFlag) | StatRequested(regs, old(statIrqTriggered), isDmg).1
    {
      if !Has(regs.lcdControl, LCD_DISPLAY) {
        ZeroRequest(interrupts.interruptFlag);
        return;
      }
      UpdateStatLine(interrupts);
    }

    /** The part of `request_stat_interrupt` that runs while the LCD is on. */
    method UpdateStatLine(interrupts: Interrupts.InterruptModule)
      modifies this`statIrqTriggered, interrupts`interruptFlag
      ensures statIrqTriggered == StatLine(regs, isDmg)
      ensures interrupts.interruptFlag ==
        old(interrupts.interruptFlag) | (if !old(statIrqTriggered) && StatLine(regs, isDmg) then Interrupts.FLAG_LCD else 0)
    {
      ZeroRequest(interrupts.interruptFlag);
      var oldStatIrq := statIrqTriggered;
      statIrqTriggered := StatLine(regs, isDmg);
      if !oldStatIrq && statIrqTriggered {
        interrupts.InsertInterrupt(Interrupts.FLAG_LCD);
      }
    }
  }
}
