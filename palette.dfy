/**
 * The DMG palettes of the renderer (core/src/hardware/ppu/palette.rs): a
 * palette byte maps each two-bit colour number to one of four display
 * colours, which the front-end chooses.
 */
module Palette {
  import opened Bits

  datatype RGB = RGB(r: Byte, g: Byte, b: Byte)

  /** `DisplayColour`: the four shades, lightest first. */
  datatype DisplayColour = DisplayColour(white: RGB, lightGrey: RGB, darkGrey: RGB, black: RGB)

  /** `RGB::default()`. */
  const BLACK_RGB := RGB(0, 0, 0)

  /** `DisplayColour::get_colour`: 0, 1 and 2 pick the lighter shades, anything else black. */
  function GetColour(d: DisplayColour, val: nat): RGB
  {
    if val == 0 then d.white
    else if val == 1 then d.lightGrey
    else if val == 2 then d.darkGrey
    else d.black
  }

  /** `From<[RGB; 4]> for DisplayColour`. */
  function DisplayFrom(colours: seq<RGB>): DisplayColour
    requires |colours| == 4
  {
    DisplayColour(colours[0], colours[1], colours[2], colours[3])
  }

  /** Looking a shade up by number gives back the entry the array held. */
  lemma DisplayFromSpec(colours: seq<RGB>, val: nat)
    requires |colours| == 4
    ensures GetColour(DisplayFrom(colours), val) == colours[if val < 3 then val else 3]
  {
  }

  /** `Palette`: the byte it was built from and its four resolved colours. */
  datatype PaletteValue = PaletteValue(paletteByte: Byte, colours: seq<RGB>)

  /** Bits `2i` and `2i + 1` of the palette byte: the shade of colour number `i`. */
  function ShadeOf(value: Byte, i: nat): nat
    requires i < 4
  {
    ((value >> (2 * i)) & 3) as nat
  }

  /** `Palette::new`. */
  function New(value: Byte, d: DisplayColour): PaletteValue
  {
    PaletteValue(value, [GetColour(d, (value & 0x03) as nat), GetColour(d, ((value & 0x0C) >> 2) as nat),
                         GetColour(d, ((value & 0x30) >> 4) as nat), GetColour(d, (value >> 6) as nat)])
  }

  /** `Palette::default()`: byte 0b1110_0100 (the identity shading) and four default colours. */
  const DEFAULT := PaletteValue(0xE4, [BLACK_RGB, BLACK_RGB, BLACK_RGB, BLACK_RGB])

  /**
   * Colour number `i` of a new palette is the shade in bits `2i..2i+1` of
   * its byte, and converting the palette back to a byte gives that byte.
   */
  lemma NewSpec(value: Byte, d: DisplayColour, i: nat)
    requires i < 4
    ensures |New(value, d).colours| == 4
    ensures New(value, d).colours[i] == GetColour(d, ShadeOf(value, i))
    ensures Into(New(value, d)) == value
  {
  }

  /** `Palette::colour`: colour numbers above 3 use the last entry. */
  function Colour(p: PaletteValue, colorValue: Byte): RGB
    requires |p.colours| == 4
  {
    if colorValue == 0 then p.colours[0]
    else if colorValue == 1 then p.colours[1]
    else if colorValue == 2 then p.colours[2]
    else p.colours[3]
  }

  lemma ColourSpec(p: PaletteValue, colorValue: Byte)
    requires |p.colours| == 4
    ensures Colour(p, colorValue) == p.colours[if colorValue < 3 then colorValue as nat else 3]
  {
  }

  /** `color_0`: the shade of colour number 0. */
  function Color0(p: PaletteValue): RGB
    requires |p.colours| == 4
  {
    p.colours[0]
  }

  /** `Into<u8> for Palette`. */
  function Into(p: PaletteValue): Byte
  {
    p.paletteByte
  }

  /**
   * With the identity shading 0b1110_0100 every colour number maps to the
   * shade of the same number.
   */
  lemma DefaultByteIsIdentity(d: DisplayColour, c: Byte)
    requires c <= 3
    ensures Colour(New(Into(DEFAULT), d), c) == GetColour(d, c as nat)
  {
  }
}
