/**
 * The CGB background-map attribute bytes (core/src/hardware/ppu/cgb_vram.rs):
 * VRAM bank 1 holds one attribute byte per map entry, of which bits 0-2
 * select one of the eight background palettes.
 */
module CgbVram {
  import opened Bits

  /** Entries in a 32 x 32 background map. */
  const BACKGROUND_TILE_SIZE: nat := 1024

  // `CgbTileAttribute` bits; all eight are defined, so `from_bits_truncate` keeps the byte.
  const BG_PALETTE_NUMBER: Byte := 0x07
  const TILE_VRAM_BANK_NUMBER: Byte := 0x08
  const X_FLIP: Byte := 0x20
  const Y_FLIP: Byte := 0x40
  const BG_TO_OAM_PRIORITY: Byte := 0x80

  /** `bg_palette_numb`: bits 0-2. */
  function PaletteNumber(bits: Byte): Byte
  {
    bits & 0x7
  }

  /** `set_bg_palette_numb`: bits 0-2 replaced by the low three bits of the value. */
  function WithPaletteNumber(bits: Byte, value: Byte): Byte
  {
    (bits & 0xF8) | (value & 0x7)
  }

  /**
   * The palette number is always 0-7; setting it reads back `value & 7`
   * and keeps bits 3-7 (bank, flips, priority) as they were.
   */
  lemma PaletteNumberRoundTrip(bits: Byte, value: Byte)
    ensures PaletteNumber(bits) <= 7
    ensures PaletteNumber(WithPaletteNumber(bits, value)) == value & 0x7
    ensures WithPaletteNumber(bits, value) & 0xF8 == bits & 0xF8
    ensures value <= 7 ==> PaletteNumber(WithPaletteNumber(bits, value)) == value
  {
  }

  /** The sequence of the crate's unit test: 0, then 3, 7, and 15 reads as 7. */
  lemma PaletteNumberExample()
    ensures PaletteNumber(0) == 0
    ensures PaletteNumber(WithPaletteNumber(0, 3)) == 3
    ensures PaletteNumber(WithPaletteNumber(WithPaletteNumber(0, 3), 7)) == 7
    ensures PaletteNumber(WithPaletteNumber(WithPaletteNumber(WithPaletteNumber(0, 3), 7), 15)) == 7
  {
  }

  /** `CgbTileAttribute`: one attribute byte, changed in place. */
  class CgbTileAttribute {
    var bits: Byte

    constructor ()
      ensures bits == 0
    {
      bits := 0;
    }

    function BgPaletteNumb(): (n: Byte)
      reads this
      ensures n == PaletteNumber(bits)
    {
      bits & 0x7
    }

    method SetBgPaletteNumb(value: Byte)
      modifies this
      ensures bits == WithPaletteNumber(old(bits), value)
    {
      bits := (bits & 0xF8) | (value & 0x7);
    }
  }

  /** `CgbTileMap`: the attribute bytes of one background map. */
  class CgbTileMap {
    const attributes: array<Byte>

    /** `CgbTileMap::new`: every attribute empty. */
    constructor ()
      ensures fresh(attributes) && attributes.Length == BACKGROUND_TILE_SIZE
      ensures forall i :: 0 <= i < attributes.Length ==> attributes[i] == 0
    {
      attributes := new Byte[BACKGROUND_TILE_SIZE](_ => 0);
    }
  }
}
