/**
 * The palette register decoding of core/src/io/palette.rs: a palette byte
 * holds four two-bit shades, colour 0 in bits 0-1 up to colour 3 in bits
 * 6-7.
 */
module DmgPalette {
  import opened Bits

  /** `DmgColor`, whose first four discriminants are the shade numbers. */
  datatype DmgColor = White | LightGrey | DarkGrey | Black | Transparent

  /** The discriminant: 0 to 3 for the shades and 4 for `TRANSPARENT`. */
  function Discriminant(c: DmgColor): nat
  {
    match c
    case White => 0
    case LightGrey => 1
    case DarkGrey => 2
    case Black => 3
    case Transparent => 4
  }

  /** `From<u8> for DmgColor`; `None` is the panic for values above 3. */
  function FromByte(value: Byte): Option<DmgColor>
  {
    if value == 0 then Some(White)
    else if value == 1 then Some(LightGrey)
    else if value == 2 then Some(DarkGrey)
    else if value == 3 then Some(Black)
    else None
  }

  /**
   * Exactly the values 0-3 convert, each to the colour with that
   * discriminant, and `TRANSPARENT` is never produced.
   */
  lemma FromByteSpec(value: Byte)
    ensures FromByte(value).Some? <==> value <= 3
    ensures FromByte(value).Some? ==> Discriminant(FromByte(value).value) == value as nat
    ensures FromByte(value) != Some(Transparent)
  {
  }

  /** `Palette`: the register byte, stored as given by `From<u8>`. */
  datatype PaletteReg = PaletteReg(paletteByte: Byte)

  /** `color_0` to `color_3`: bits `2n..2n+1` converted. */
  function ColorN(p: PaletteReg, n: nat): DmgColor
    requires n < 4
  {
    var shade := (p.paletteByte >> (2 * n)) & 0x03;
    match FromByte(shade)
    case Some(c) => c
    case None => assert false; White
  }

  /** The shade number of a colour as a byte (`TRANSPARENT` has none and gives 0). */
  function ShadeByte(c: DmgColor): (b: Byte)
    ensures b <= 3
  {
    match c
    case White => 0
    case LightGrey => 1
    case DarkGrey => 2
    case Black => 3
    case Transparent => 0
  }

  /** A palette byte holding the four shades, colour 0 in the low bits. */
  function Pack(c0: DmgColor, c1: DmgColor, c2: DmgColor, c3: DmgColor): Byte
  {
    ShadeByte(c0) | (ShadeByte(c1) << 2) | (ShadeByte(c2) << 4) | (ShadeByte(c3) << 6)
  }

  /**
   * The four getters never reach the panic, and each reads back exactly the
   * shade packed into its two bits.
   */
  lemma ColorNRoundTrip(c0: DmgColor, c1: DmgColor, c2: DmgColor, c3: DmgColor)
    requires c0 != Transparent && c1 != Transparent && c2 != Transparent && c3 != Transparent
    ensures ColorN(PaletteReg(Pack(c0, c1, c2, c3)), 0) == c0
    ensures ColorN(PaletteReg(Pack(c0, c1, c2, c3)), 1) == c1
    ensures ColorN(PaletteReg(Pack(c0, c1, c2, c3)), 2) == c2
    ensures ColorN(PaletteReg(Pack(c0, c1, c2, c3)), 3) == c3
  {
  }

  /** Every palette byte is the packing of its four decoded colours. */
  lemma PackColorN(p: PaletteReg)
    ensures Pack(ColorN(p, 0), ColorN(p, 1), ColorN(p, 2), ColorN(p, 3)) == p.paletteByte
  {
  }

  /** Byte 0b1101_0010 decodes to dark grey, white, light grey and black. */
  lemma Interpretation()
    ensures ColorN(PaletteReg(0xD2), 0) == DarkGrey
    ensures ColorN(PaletteReg(0xD2), 1) == White
    ensures ColorN(PaletteReg(0xD2), 2) == LightGrey
    ensures ColorN(PaletteReg(0xD2), 3) == Black
  {
  }
}
