/**
 * The PPU's bit-flag registers (core/src/hardware/ppu/register_flags.rs):
 * LCDC (0xFF40), STAT (0xFF41) and the sprite attribute byte. All three
 * `bitflags` structs define all eight bits, so `from_bits_truncate` keeps
 * every byte as it is.
 */
module RegisterFlags {
  import opened Bits

  /** `Mode`: the PPU's four states, in STAT mode-bit order. */
  datatype Mode = HBlank | VBlank | OamSearch | LcdTransfer

  // `LcdControl` bits.
  const BG_WINDOW_PRIORITY: Byte := 0x01
  const SPRITE_DISPLAY_ENABLE: Byte := 0x02
  const SPRITE_SIZE: Byte := 0x04
  const BG_TILE_MAP_SELECT: Byte := 0x08
  const BG_WINDOW_TILE_SELECT: Byte := 0x10
  const WINDOW_DISPLAY: Byte := 0x20
  const WINDOW_MAP_SELECT: Byte := 0x40
  const LCD_DISPLAY: Byte := 0x80

  // `LcdStatus` bits.
  const COINCIDENCE_FLAG: Byte := 0x04
  const MODE_0_H_INTERRUPT: Byte := 0x08
  const MODE_1_V_INTERRUPT: Byte := 0x10
  const MODE_2_OAM_INTERRUPT: Byte := 0x20
  const COINCIDENCE_INTERRUPT: Byte := 0x40

  // `AttributeFlags` bits.
  const PALETTE_NUMBER_CGB: Byte := 0x07
  const TILE_VRAM_BANK: Byte := 0x08
  const PALETTE_NUMBER: Byte := 0x10
  const X_FLIP: Byte := 0x20
  const Y_FLIP: Byte := 0x40
  const OBJ_TO_BG_PRIORITY: Byte := 0x80

  /** `contains` for a single flag. */
  predicate Has(bits: Byte, flag: Byte)
  {
    bits & flag == flag
  }

  /** The two-bit code of a mode. */
  function ModeCode(m: Mode): (c: Byte)
    ensures c <= 3
  {
    match m
    case HBlank => 0
    case VBlank => 1
    case OamSearch => 2
    case LcdTransfer => 3
  }

  /** `LcdStatus::mode_flag`: bits 0-1 decoded; the `unreachable!` arm cannot be taken. */
  function ModeFlag(bits: Byte): Mode
  {
    var code := bits & 0x3;
    if code == 0 then HBlank
    else if code == 1 then VBlank
    else if code == 2 then OamSearch
    else LcdTransfer
  }

  /** `LcdStatus::set_mode_flag`: bits 0-1 replaced by the mode's code. */
  function WithMode(bits: Byte, m: Mode): Byte
  {
    (bits & 0xFC) | ModeCode(m)
  }

  /**
   * The mode bits decode as 0 H-Blank, 1 V-Blank, 2 OAM search and 3 LCD
   * transfer, and the code of the decoded mode is the two bits themselves.
   */
  lemma ModeFlagSpec(bits: Byte)
    ensures bits & 0x3 == 0 <==> ModeFlag(bits) == HBlank
    ensures bits & 0x3 == 1 <==> ModeFlag(bits) == VBlank
    ensures bits & 0x3 == 2 <==> ModeFlag(bits) == OamSearch
    ensures bits & 0x3 == 3 <==> ModeFlag(bits) == LcdTransfer
    ensures ModeCode(ModeFlag(bits)) == bits & 0x3
  {
  }

  /**
   * Setting a mode and decoding it gives the mode back, and bits 2-7 are
   * kept.
   */
  lemma WithModeSpec(bits: Byte, m: Mode)
    ensures ModeFlag(WithMode(bits, m)) == m
    ensures WithMode(bits, m) & 0xFC == bits & 0xFC
  {
  }

  /** Setting the mode the register already shows changes nothing. */
  lemma WithModeIdempotent(bits: Byte)
    ensures WithMode(bits, ModeFlag(bits)) == bits
  {
    ModeFlagSpec(bits);
  }

  /**
   * `LcdControl::bg_window_tile_address`: tile block 0 (0x8000) when LCDC
   * bit 4 is set, block 1 (0x8800) otherwise.
   */
  function BgWindowTileAddress(lcdc: Byte): Word
  {
    if Has(lcdc, BG_WINDOW_TILE_SELECT) then 0x8000 else 0x8800
  }

  lemma BgWindowTileAddressSpec(lcdc: Byte)
    ensures BgWindowTileAddress(lcdc) == 0x8000 <==> lcdc & 0x10 != 0
    ensures BgWindowTileAddress(lcdc) == 0x8800 <==> lcdc & 0x10 == 0
  {
  }

  /** `AttributeFlags::get_cgb_palette_number`: bits 0-2, one of the eight CGB palettes. */
  function CgbPaletteNumber(bits: Byte): nat
  {
    (bits & 0x07) as nat
  }

  lemma CgbPaletteNumberSpec(bits: Byte, other: Byte)
    ensures CgbPaletteNumber(bits) < 8
    ensures bits & 0x07 == other & 0x07 ==> CgbPaletteNumber(bits) == CgbPaletteNumber(other)
    ensures CgbPaletteNumber(bits) == (bits as nat) % 8
  {
  }

  /** `LcdStatus`: the STAT bits, changed in place by `set_mode_flag`. */
  class LcdStatus {
    var bits: Byte

    constructor ()
      ensures bits == 0
    {
      bits := 0;
    }

    function GetModeFlag(): Mode
      reads this
    {
      ModeFlag(bits)
    }

    method SetModeFlag(value: Mode)
      modifies this
      ensures bits == WithMode(old(bits), value)
      ensures GetModeFlag() == value
    {
      var code: Byte;
      match value {
        case HBlank => code := 0;
        case VBlank => code := 1;
        case OamSearch => code := 2;
        case LcdTransfer => code := 3;
      }
      bits := (bits & 0xFC) | code;
      WithModeSpec(old(bits), value);
    }
  }
}
