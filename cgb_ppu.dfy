/**
 * The CGB scanline renderer (core/src/hardware/ppu/cgb_ppu.rs): the
 * background and window walks over the tile maps, the tile line drawer with
 * its pixel-skip counter and 8-pixel fast path, and the sprite pass.
 *
 * Each walk is proved against a reference definition of what a pixel of a
 * tile map looks like (`MapPixel`), so the counters, the skip and the x
 * wrap-around of the source are shown to draw exactly the map.
 */
module CgbPpu {
  import opened Bits
  import opened RegisterFlags
  import CgbVram
  import Ppu

  const WIDTH: nat := 160
  /** 384 tiles in each of the two VRAM banks. */
  const TILE_COUNT: nat := 768
  const BANK_TILES: nat := 384
  /** A decoded tile holds 8 x 8 colour numbers. */
  const TILE_PIXELS: nat := 64

  /**
   * A decoded tile: `get_pixel(j)` is entry `j`; row `y` starts at `8 * y`,
   * and the pixel shown leftmost is the row's entry 7.
   */
  type Tile = seq<nat>

  /**
   * The colour written to `scanline_buffer`: colour `colour` of background
   * or object palette `palette` (the RGB values of the palettes are not part
   * of this model).
   */
  datatype Shade = BgShade(palette: nat, colour: nat) | ObjShade(palette: nat, colour: nat)

  /** An entry of `scanline_buffer_unpalette`: the colour number and the background priority bit. */
  datatype Unpaletted = Unpaletted(colour: nat, bgPriority: bool)

  /** One column of the line: both buffers at that index. */
  datatype Pixel = Pixel(shade: Shade, raw: Unpaletted)

  /** The VRAM the renderer reads: both banks of tiles, the two maps and their attribute maps. */
  datatype VramView = VramView(
    tiles: seq<Tile>,
    tileMap9800: seq<Byte>,
    tileMap9C00: seq<Byte>,
    attributes9800: seq<Byte>,
    attributes9C00: seq<Byte>)

  predicate VramValid(v: VramView)
  {
    && |v.tiles| == TILE_COUNT
    && (forall i :: 0 <= i < |v.tiles| ==> |v.tiles[i]| == TILE_PIXELS)
    && |v.tileMap9800| == CgbVram.BACKGROUND_TILE_SIZE && |v.tileMap9C00| == CgbVram.BACKGROUND_TILE_SIZE
    && |v.attributes9800| == CgbVram.BACKGROUND_TILE_SIZE && |v.attributes9C00| == CgbVram.BACKGROUND_TILE_SIZE
  }

  // ---------------------------------------------------------------------------
  // One tile of a map
  // ---------------------------------------------------------------------------

  /** The offset of the attribute's VRAM bank in the tile array. */
  function BankOffset(attrs: Byte): nat
  {
    if Has(attrs, CgbVram.TILE_VRAM_BANK_NUMBER) then BANK_TILES else 0
  }

  /** A tile number read as `i8`. */
  function Signed(b: Byte): (n: int)
    ensures -128 <= n < 128
  {
    if b < 0x80 then b as int else b as int - 256
  }

  /**
   * The tile `draw_cgb_background_window_line` draws: the address it is
   * given in 8000 addressing, and 256 plus the signed tile number (plus the
   * bank) in 8800 addressing.
   */
  function LineTile(lcdc: Byte, tileAddress: nat, tileNumber: Byte, attrs: Byte): (t: nat)
    requires tileAddress < TILE_COUNT
    ensures t < TILE_COUNT
  {
    if Has(lcdc, BG_WINDOW_TILE_SELECT) then tileAddress
    else (256 + Signed(tileNumber)) as nat + BankOffset(attrs)
  }

  /** The first entry of the tile row drawn for line `lineY` of the tile, flipped vertically if asked. */
  function RowStart(yFlip: bool, lineY: nat): (start: nat)
    requires lineY < 8
    ensures start + 8 <= TILE_PIXELS
  {
    (if yFlip then 7 - lineY else lineY) * 8
  }

  /**
   * The row entry shown `offset` columns from the tile's left edge: entry 7
   * first, or entry 0 first when the tile is flipped horizontally.
   */
  function Column(xFlip: bool, offset: nat): (c: nat)
    requires offset < 8
    ensures c < 8
  {
    if xFlip then offset else 7 - offset
  }

  /** The column a row entry is shown at is the entry shown at that column. */
  lemma ColumnInvolution(xFlip: bool, offset: nat)
    requires offset < 8
    ensures Column(xFlip, Column(xFlip, offset)) == offset
  {
  }

  /**
   * What drawing one line of a background tile needs: the decoded tile, where
   * its row starts, the flip, and the palette and priority bit of its
   * attributes.
   */
  datatype TileLine = TileLine(pixels: Tile, rowStart: nat, xFlip: bool, palette: nat, bgPriority: bool)

  predicate TileLineValid(t: TileLine)
  {
    t.rowStart + 8 <= |t.pixels|
  }

  /** The background pixel `offset` columns from the tile's left edge. */
  function TileLinePixel(t: TileLine, offset: nat): Pixel
    requires TileLineValid(t) && offset < 8
  {
    var c := t.pixels[t.rowStart + Column(t.xFlip, offset)];
    Pixel(BgShade(t.palette, c), Unpaletted(c, t.bgPriority))
  }

  /** Line `lineY` of the tile a map entry names, read through its attributes. */
  function TileLineOf(v: VramView, lcdc: Byte, tileAddress: nat, tileNumber: Byte, attrs: Byte, lineY: nat): (t: TileLine)
    requires VramValid(v) && tileAddress < TILE_COUNT && lineY < 8
    ensures TileLineValid(t)
  {
    TileLine(v.tiles[LineTile(lcdc, tileAddress, tileNumber, attrs)], RowStart(Has(attrs, CgbVram.Y_FLIP), lineY),
             Has(attrs, CgbVram.X_FLIP), CgbVram.PaletteNumber(attrs) as nat, Has(attrs, CgbVram.BG_TO_OAM_PRIORITY))
  }

  /** `get_tile_address_bg` / `get_tile_address_window`: the tile number at `index` of the 9800 or 9C00 map. */
  function MapTileNumber(v: VramView, map9C00: bool, index: nat): Byte
    requires VramValid(v) && index < CgbVram.BACKGROUND_TILE_SIZE
  {
    if map9C00 then v.tileMap9C00[index] else v.tileMap9800[index]
  }

  /** `get_tile_attributes_cgb_bg` / `get_tile_attributes_cgb_window`: the attributes of that entry. */
  function MapAttributes(v: VramView, map9C00: bool, index: nat): Byte
    requires VramValid(v) && index < CgbVram.BACKGROUND_TILE_SIZE
  {
    if map9C00 then v.attributes9C00[index] else v.attributes9800[index]
  }

  /** Line `lineY` of the tile at entry `index` of the 9800 or 9C00 map, its bank taken from the attribute map. */
  function MapTileLine(v: VramView, lcdc: Byte, map9C00: bool, index: nat, lineY: nat): (t: TileLine)
    requires VramValid(v) && index < CgbVram.BACKGROUND_TILE_SIZE && lineY < 8
    ensures TileLineValid(t)
  {
    var tileNumber := MapTileNumber(v, map9C00, index);
    var attrs := MapAttributes(v, map9C00, index);
    TileLineOf(v, lcdc, tileNumber as nat + BankOffset(attrs), tileNumber, attrs, lineY)
  }

  /**
   * The reference picture of a tile map: pixel `x` of line `lineY` of tile
   * row `row`, which is entry `x % 8` of the tile in map column `x / 8`.
   */
  function MapPixel(v: VramView, lcdc: Byte, map9C00: bool, row: nat, x: nat, lineY: nat): Pixel
    requires VramValid(v) && row < 32 && x < 256 && lineY < 8
  {
    TileLinePixel(MapTileLine(v, lcdc, map9C00, row * 32 + x / 8, lineY), x % 8)
  }

  /** Pixel `x` = 8 column + offset of a map row is entry `offset` of the tile at `index` = 32 row + column. */
  lemma MapColumn(v: VramView, lcdc: Byte, map9C00: bool, row: nat, column: nat, offset: nat, x: nat, index: nat, lineY: nat)
    requires VramValid(v) && row < 32 && column < 32 && offset < 8 && lineY < 8
    requires x == 8 * column + offset && index == row * 32 + column
    ensures x < 256 && index < CgbVram.BACKGROUND_TILE_SIZE
    ensures MapPixel(v, lcdc, map9C00, row, x, lineY) == TileLinePixel(MapTileLine(v, lcdc, map9C00, index, lineY), offset)
  {
    assert x / 8 == column && x % 8 == offset;
  }

  /** Screen column `p` of the background: map pixel (SCX + p, LY + SCY), both modulo 256. */
  function BgPixel(v: VramView, lcdc: Byte, currentY: Ppu.U8, scrollY: Ppu.U8, scrollX: Ppu.U8, p: nat): Pixel
    requires VramValid(v)
  {
    var y := (currentY + scrollY) % 256;
    MapPixel(v, lcdc, Has(lcdc, BG_TILE_MAP_SELECT), y / 8, (scrollX + p) % 256, y % 8)
  }

  /** Screen column `p` of the window, whose left edge is at `start` = WX - 7: window pixel p - start of its current line. */
  function WindowPixel(v: VramView, lcdc: Byte, windowCounter: Ppu.U8, start: int, p: nat): Pixel
    requires VramValid(v) && -8 < start <= p < WIDTH
  {
    MapPixel(v, lcdc, Has(lcdc, WINDOW_MAP_SELECT), windowCounter / 8, p - start, windowCounter % 8)
  }

  // ---------------------------------------------------------------------------
  // The pixel counters
  // ---------------------------------------------------------------------------

  /**
   * How many pixels the first `m` steps over a tile row draw, starting at
   * column `drawn` with `skip` pixels still to skip: the skipped ones draw
   * nothing, and nothing is drawn past column 159.
   */
  function Drawn(drawn: nat, skip: nat, m: nat): (n: nat)
    requires drawn <= WIDTH
    ensures drawn + n <= WIDTH && n + Skipped(skip, m) <= m
  {
    var past := if m <= skip then 0 else m - skip;
    if past <= WIDTH - drawn then past else WIDTH - drawn
  }

  /** The pixels still to skip after `m` steps. */
  function SkipLeft(skip: nat, m: nat): nat
  {
    if m <= skip then skip - m else 0
  }

  /** Pixels taken by the skip in `m` steps. */
  function Skipped(skip: nat, m: nat): nat
  {
    if m <= skip then m else skip
  }

  function Clamp(x: int): (c: nat)
    ensures c <= WIDTH
  {
    if x < 0 then 0 else if x > WIDTH then WIDTH else x
  }

  /**
   * The column reached after `k` tiles of a walk whose first tile's left
   * edge is at column `start` (negative when the first pixels are skipped).
   */
  function WalkDrawn(start: int, k: nat): nat
  {
    Clamp(start + 8 * k)
  }

  /** The pixels to skip when tile `k` of the walk is reached: only the first tile skips. */
  function WalkSkip(start: int, k: nat): nat
  {
    if k == 0 && start < 0 then -start else 0
  }

  /** Each tile moves the walk on by one tile, and only the first tile skips pixels. */
  lemma WalkStep(start: int, k: nat)
    requires -8 < start < WIDTH
    ensures WalkSkip(start, k) < 8
    ensures WalkDrawn(start, k) + Drawn(WalkDrawn(start, k), WalkSkip(start, k), 8) == WalkDrawn(start, k + 1)
    ensures SkipLeft(WalkSkip(start, k), 8) == WalkSkip(start, k + 1)
  {
    if k == 0 && start < 0 {
      assert WalkDrawn(start, k + 1) == start + 8;
    } else if start + 8 * k >= WIDTH {
      assert WalkDrawn(start, k) == WIDTH;
    }
  }

  /**
   * Tile `k` of the walk draws column `p` with its entry `p - start - 8 k`
   * counted from the tile's left edge.
   */
  lemma WalkColumn(start: int, k: nat, p: int)
    requires -8 < start < WIDTH
    requires WalkDrawn(start, k) <= p < WalkDrawn(start, k + 1)
    ensures Skipped(WalkSkip(start, k), 8) + p - WalkDrawn(start, k) == p - start - 8 * k
    ensures 0 <= p - start - 8 * k < 8
  {
    if k == 0 && start < 0 {
      assert WalkDrawn(start, k) == 0;
    } else {
      assert WalkDrawn(start, k) == start + 8 * k;
    }
  }

  /** The window's `div_ceil(160 - (WX - 7), 8)` tiles reach the end of the line, and stay on one row of the map. */
  lemma WindowWalk(start: int)
    requires -8 < start < WIDTH
    ensures (WIDTH - start + 7) / 8 <= 21
    ensures WalkDrawn(start, (WIDTH - start + 7) / 8) == WIDTH
  {
    var q := (WIDTH - start + 7) / 8;
    assert WIDTH - start + 7 == 8 * q + (WIDTH - start + 7) % 8;
  }

  /** The background walk starts SCX % 8 pixels left of the screen and agrees with the DMG renderer's counter. */
  lemma BgWalk(scrollX: Ppu.U8, k: nat)
    ensures WalkDrawn(-(scrollX % 8), k) == Ppu.BgPixelsBefore(scrollX, k)
    ensures WalkSkip(-(scrollX % 8), k) == Ppu.BgRemainderBefore(scrollX, k)
    ensures WalkDrawn(-(scrollX % 8), Ppu.BgTileCount(scrollX)) == WIDTH
  {
  }

  /**
   * Screen column p of background tile k lies in map column (SCX / 8 + k)
   * mod 32, at the entry `offset` of that tile.
   */
  lemma BgColumn(scrollX: Ppu.U8, k: nat, p: nat, offset: nat)
    requires offset < 8 && offset == p + scrollX % 8 - 8 * k
    ensures (scrollX + p) % 256 == 8 * ((scrollX / 8 + k) % 32) + offset
  {
    var c := scrollX / 8 + k;
    assert scrollX == 8 * (scrollX / 8) + scrollX % 8;
    assert scrollX + p == 8 * c + offset;
    var q := c / 32;
    assert c == 32 * q + c % 32;
    assert scrollX + p == 256 * q + (8 * (c % 32) + offset);
    ModUnique(scrollX + p, q, 8 * (c % 32) + offset);
  }

  /**
   * Where tile `k` of the background walk, map column `column` of the
   * background line's tile row, draws column `p`, it draws the background's
   * pixel there.
   */
  lemma BgTileColumn(v: VramView, lcdc: Byte, currentY: Ppu.U8, scrollY: Ppu.U8, scrollX: Ppu.U8,
                     k: nat, index: nat, lineY: nat, drawn: nat, skip: nat, p: nat)
    requires VramValid(v)
    requires index == ((currentY + scrollY) % 256 / 8) * 32 + (scrollX / 8 + k) % 32 && lineY == (currentY + scrollY) % 256 % 8
    requires drawn == WalkDrawn(-(scrollX % 8), k) && skip == WalkSkip(-(scrollX % 8), k)
    requires drawn <= p < WalkDrawn(-(scrollX % 8), k + 1)
    ensures index < CgbVram.BACKGROUND_TILE_SIZE && lineY < 8 && Skipped(skip, 8) + p - drawn < 8
    ensures TileLinePixel(MapTileLine(v, lcdc, Has(lcdc, BG_TILE_MAP_SELECT), index, lineY), Skipped(skip, 8) + p - drawn)
      == BgPixel(v, lcdc, currentY, scrollY, scrollX, p)
  {
    var scanline := (currentY + scrollY) % 256;
    var column := (scrollX / 8 + k) % 32;
    var offset := p + scrollX % 8 - 8 * k;
    WalkColumn(-(scrollX % 8), k, p);
    assert Skipped(skip, 8) + p - drawn == offset;
    BgColumn(scrollX, k, p, offset);
    MapColumn(v, lcdc, Has(lcdc, BG_TILE_MAP_SELECT), scanline / 8, column, offset, (scrollX + p) % 256, index, lineY);
    assert BgPixel(v, lcdc, currentY, scrollY, scrollX, p)
      == MapPixel(v, lcdc, Has(lcdc, BG_TILE_MAP_SELECT), scanline / 8, (scrollX + p) % 256, lineY);
  }

  /**
   * Where tile `k` of the window walk, map column `k` of the window line's
   * tile row, draws column `p`, it draws the window's pixel there.
   */
  lemma WindowTileColumn(v: VramView, lcdc: Byte, counter: Ppu.U8, start: int, k: nat, index: nat, lineY: nat,
                         drawn: nat, skip: nat, p: nat)
    requires VramValid(v) && -8 < start < WIDTH && k < 32
    requires index == (counter / 8) * 32 + k && lineY == counter % 8
    requires drawn == WalkDrawn(start, k) && skip == WalkSkip(start, k)
    requires drawn <= p < WalkDrawn(start, k + 1)
    ensures index < CgbVram.BACKGROUND_TILE_SIZE && Skipped(skip, 8) + p - drawn < 8 && start <= p
    ensures TileLinePixel(MapTileLine(v, lcdc, Has(lcdc, WINDOW_MAP_SELECT), index, lineY), Skipped(skip, 8) + p - drawn)
      == WindowPixel(v, lcdc, counter, start, p)
  {
    WalkColumn(start, k, p);
    MapColumn(v, lcdc, Has(lcdc, WINDOW_MAP_SELECT), counter / 8, k, p - start - 8 * k, p - start, index, lineY);
    assert WindowPixel(v, lcdc, counter, start, p) == MapPixel(v, lcdc, Has(lcdc, WINDOW_MAP_SELECT), counter / 8, p - start, lineY);
  }

  /** A value 256 q + r with r in 0..255 leaves remainder r. */
  lemma ModUnique(a: int, q: int, r: int)
    requires a == 256 * q + r && 0 <= r < 256
    ensures a % 256 == r
  {
    assert a == 256 * (a / 256) + a % 256;
    assert 256 * (q - a / 256) == a % 256 - r;
  }

  // ---------------------------------------------------------------------------
  // Sprites
  // ---------------------------------------------------------------------------

  /** Sprites are 8 x 16 with LCDC bit 2 set, 8 x 8 otherwise. */
  function SpriteSize(lcdc: Byte): int
  {
    if Has(lcdc, SPRITE_SIZE) then 16 else 8
  }

  /** The sprite's line drawn on LY, counted from its top and flipped vertically if asked. */
  function SpriteLine(s: Ppu.SpriteAttribute, currentY: Byte, ySize: int): (line: nat)
    requires Ppu.OnLine(s, currentY, ySize)
    ensures line < ySize
  {
    var line := currentY as int - (s.yPos as int - 16);
    if Has(s.attributeFlags, Y_FLIP) then ySize - (line + 1) else line
  }

  /**
   * The sprite's tile: its number in the bank it selects; a tall sprite
   * takes the even tile (`& 0xFFFE`) for its top half and the odd one
   * (`| 0x01`) for its bottom half.
   */
  function SpriteTile(s: Ppu.SpriteAttribute, tall: bool, line: nat): (t: nat)
    ensures t < TILE_COUNT
  {
    var index := s.tileNumber as nat + (if Has(s.attributeFlags, TILE_VRAM_BANK) then BANK_TILES else 0);
    if !tall then index
    else if line < 8 then index - index % 2
    else index - index % 2 + 1
  }

  /** `get_true_pixel_line`: the 8 entries of the sprite's row on this line. */
  function SpriteRow(v: VramView, lcdc: Byte, currentY: Byte, s: Ppu.SpriteAttribute): (row: seq<nat>)
    requires VramValid(v) && Ppu.OnLine(s, currentY, SpriteSize(lcdc))
    ensures |row| == 8
  {
    var line := SpriteLine(s, currentY, SpriteSize(lcdc));
    var start := (line % 8) * 8;
    v.tiles[SpriteTile(s, Has(lcdc, SPRITE_SIZE), line)][start..start + 8]
  }

  /**
   * What the loop over one sprite's row uses: its screen column, flips,
   * behind-background bit, object palette and the row's 8 colour numbers.
   */
  datatype SpriteLineView = SpriteLineView(screenX: int, xFlip: bool, behind: bool, palette: nat, row: seq<nat>)

  predicate SpriteLineValid(sp: SpriteLineView)
  {
    |sp.row| == 8
  }

  /** The row of sprite `s` that LY crosses, as the loop sees it. */
  function SpriteLineOf(v: VramView, lcdc: Byte, currentY: Byte, s: Ppu.SpriteAttribute): (sp: SpriteLineView)
    requires VramValid(v) && Ppu.OnLine(s, currentY, SpriteSize(lcdc))
    ensures SpriteLineValid(sp)
  {
    SpriteLineView(s.xPos as int - 8, Has(s.attributeFlags, X_FLIP), Has(s.attributeFlags, OBJ_TO_BG_PRIORITY),
                   CgbPaletteNumber(s.attributeFlags), SpriteRow(v, lcdc, currentY, s))
  }

  /**
   * `draw_cgb_sprite_scanline` as written: the buffer index the step for row
   * entry `j` writes, if any. With LCDC bit 0 clear it makes no check, so a
   * sprite partly off the screen yields an index outside 0-159.
   */
  function SpriteIndexAsWritten(alwaysDisplay: bool, sp: SpriteLineView, under: Unpaletted, j: nat): Option<int>
    requires SpriteLineValid(sp) && j < 8
  {
    var pixel := sp.screenX + Column(sp.xFlip, j);
    if !alwaysDisplay && (pixel < 0 || pixel > 159 || ((sp.behind || under.bgPriority) && under.colour != 0)) then None
    else if sp.row[j] == 0 then None
    else Some(pixel)
  }

  /**
   * The corrected step: the screen bounds are checked whatever LCDC bit 0
   * says, and the priority check only when it is set.
   */
  function SpriteIndex(alwaysDisplay: bool, sp: SpriteLineView, under: Unpaletted, j: nat): Option<int>
    requires SpriteLineValid(sp) && j < 8
  {
    var pixel := sp.screenX + Column(sp.xFlip, j);
    if pixel < 0 || pixel > 159 || (!alwaysDisplay && (sp.behind || under.bgPriority) && under.colour != 0) then None
    else if sp.row[j] == 0 then None
    else Some(pixel)
  }

  /**
   * A sprite at X = 0 (screen column -8) whose leftmost pixel is opaque
   * makes the as-written step index the buffer at -8 when LCDC bit 0 is
   * clear; the corrected step draws nothing there.
   */
  lemma SpriteIndexAsWrittenOutOfRange(under: Unpaletted)
    ensures SpriteIndexAsWritten(true, SpriteLineView(-8, false, false, 0, [0, 0, 0, 0, 0, 0, 0, 1]), under, 7) == Some(-8)
    ensures SpriteIndex(true, SpriteLineView(-8, false, false, 0, [0, 0, 0, 0, 0, 0, 0, 1]), under, 7) == None
  {
  }

  /**
   * The corrected step only ever writes inside the line, at the column its
   * row entry belongs to, an opaque colour; inside the line it does what the
   * source does.
   */
  lemma SpriteIndexSpec(alwaysDisplay: bool, sp: SpriteLineView, under: Unpaletted, j: nat)
    requires SpriteLineValid(sp) && j < 8
    ensures SpriteIndex(alwaysDisplay, sp, under, j).Some? ==>
      && 0 <= SpriteIndex(alwaysDisplay, sp, under, j).value < WIDTH
      && SpriteIndex(alwaysDisplay, sp, under, j).value == sp.screenX + Column(sp.xFlip, j)
      && sp.row[j] != 0
    ensures 0 <= sp.screenX + Column(sp.xFlip, j) < WIDTH ==>
      SpriteIndex(alwaysDisplay, sp, under, j) == SpriteIndexAsWritten(alwaysDisplay, sp, under, j)
  {
  }

  /**
   * The pixel at the column row entry `j` lands on after the step for `j`:
   * the sprite's colour in its object palette when the step writes, `under`
   * otherwise.
   */
  function SpriteStep(alwaysDisplay: bool, sp: SpriteLineView, under: Pixel, j: nat): Pixel
    requires SpriteLineValid(sp) && j < 8
  {
    if SpriteIndex(alwaysDisplay, sp, under.raw, j).Some? then
      Pixel(ObjShade(sp.palette, sp.row[j]), Unpaletted(sp.row[j], false))
    else under
  }

  /** Column `p` once the sprite's row is drawn over `under`. */
  function SpriteCover(alwaysDisplay: bool, sp: SpriteLineView, under: Pixel, p: nat): Pixel
    requires SpriteLineValid(sp)
  {
    if 0 <= p - sp.screenX < 8 then SpriteStep(alwaysDisplay, sp, under, Column(sp.xFlip, p - sp.screenX))
    else under
  }

  predicate AllOnLine(sprites: seq<Ppu.SpriteAttribute>, currentY: Byte, ySize: int)
  {
    forall i :: 0 <= i < |sprites| ==> Ppu.OnLine(sprites[i], currentY, ySize)
  }

  /** The sprites `draw_cgb_sprite_scanline` draws: the first ten on the line in OAM order, each of them on the line. */
  function DrawnSprites(oam: seq<Ppu.SpriteAttribute>, currentY: Byte, lcdc: Byte): (sprites: seq<Ppu.SpriteAttribute>)
    ensures |sprites| <= 10 && AllOnLine(sprites, currentY, SpriteSize(lcdc))
  {
    Ppu.LineSpritesSpec(oam, currentY, SpriteSize(lcdc));
    var sprites := Ppu.LineSprites(oam, currentY, SpriteSize(lcdc));
    assert forall i :: 0 <= i < |sprites| ==> sprites[i] in sprites;
    sprites
  }

  /** The row each drawn sprite shows on LY, in OAM order. */
  function SpriteLines(v: VramView, lcdc: Byte, currentY: Byte, sprites: seq<Ppu.SpriteAttribute>): (rows: seq<SpriteLineView>)
    requires VramValid(v) && AllOnLine(sprites, currentY, SpriteSize(lcdc))
    ensures |rows| == |sprites|
    ensures forall i :: 0 <= i < |rows| ==> rows[i] == SpriteLineOf(v, lcdc, currentY, sprites[i]) && SpriteLineValid(rows[i])
  {
    seq(|sprites|, i requires 0 <= i < |sprites| => SpriteLineOf(v, lcdc, currentY, sprites[i]))
  }

  predicate AllValid(rows: seq<SpriteLineView>)
  {
    forall i :: 0 <= i < |rows| ==> SpriteLineValid(rows[i])
  }

  /**
   * Column `p` after drawing `rows[n..]` over `under`, the last first, so
   * the first is on top.
   */
  function SpritesOver(alwaysDisplay: bool, rows: seq<SpriteLineView>, n: nat, under: Pixel, p: nat): Pixel
    requires AllValid(rows) && n <= |rows|
    decreases |rows| - n
  {
    if n == |rows| then under
    else SpriteCover(alwaysDisplay, rows[n], SpritesOver(alwaysDisplay, rows, n + 1, under, p), p)
  }

  /** Whether the sprite's row has an opaque pixel on screen column `p`. */
  predicate Opaque(sp: SpriteLineView, p: nat)
    requires SpriteLineValid(sp)
  {
    p < WIDTH && 0 <= p - sp.screenX < 8 && sp.row[Column(sp.xFlip, p - sp.screenX)] != 0
  }

  /** The sprite's colour at a column where it is opaque. */
  function SpritePixel(sp: SpriteLineView, p: nat): Pixel
    requires SpriteLineValid(sp) && Opaque(sp, p)
  {
    var c := sp.row[Column(sp.xFlip, p - sp.screenX)];
    Pixel(ObjShade(sp.palette, c), Unpaletted(c, false))
  }

  /** The index of the first row from `n` on, in OAM order, opaque on column `p`. */
  function TopSprite(rows: seq<SpriteLineView>, n: nat, p: nat): (top: Option<nat>)
    requires AllValid(rows) && n <= |rows|
    ensures top.Some? ==> n <= top.value < |rows| && Opaque(rows[top.value], p)
    ensures top.Some? ==> forall i :: n <= i < top.value ==> !Opaque(rows[i], p)
    ensures top.None? ==> forall i :: n <= i < |rows| ==> !Opaque(rows[i], p)
    decreases |rows| - n
  {
    if n == |rows| then None
    else if Opaque(rows[n], p) then Some(n)
    else TopSprite(rows, n + 1, p)
  }

  /** With LCDC bit 0 clear a sprite covers exactly the on-screen columns where it is opaque. */
  lemma SpriteCoverSpec(sp: SpriteLineView, under: Pixel, p: nat)
    requires SpriteLineValid(sp) && p < WIDTH
    ensures SpriteCover(true, sp, under, p) == if Opaque(sp, p) then SpritePixel(sp, p) else under
  {
    if 0 <= p - sp.screenX < 8 {
      ColumnInvolution(sp.xFlip, p - sp.screenX);
    }
  }

  /**
   * With LCDC bit 0 clear (sprites over everything), column `p` shows the
   * first sprite in OAM order that is opaque there, and the background when
   * none is: a lower OAM index wins, and colour 0 is transparent.
   */
  lemma {:induction false} LowerIndexWins(rows: seq<SpriteLineView>, n: nat, under: Pixel, p: nat)
    requires AllValid(rows) && n <= |rows| && p < WIDTH
    ensures SpritesOver(true, rows, n, under, p) ==
      match TopSprite(rows, n, p)
      case Some(i) => SpritePixel(rows[i], p)
      case None => under
    decreases |rows| - n
  {
    if n < |rows| {
      LowerIndexWins(rows, n + 1, under, p);
      SpriteCoverSpec(rows[n], SpritesOver(true, rows, n + 1, under, p), p);
    }
  }

  /**
   * With LCDC bit 0 set, a column whose background pixel is opaque and has
   * priority over objects keeps it, whatever the sprites.
   */
  lemma {:induction false} BgPriorityHolds(rows: seq<SpriteLineView>, n: nat, under: Pixel, p: nat)
    requires AllValid(rows) && n <= |rows|
    requires under.raw.bgPriority && under.raw.colour != 0
    ensures SpritesOver(false, rows, n, under, p) == under
    decreases |rows| - n
  {
    if n < |rows| {
      BgPriorityHolds(rows, n + 1, under, p);
    }
  }

  /**
   * With LCDC bit 0 set, a sprite with the behind-background bit never
   * covers an opaque background pixel.
   */
  lemma BehindBackground(sp: SpriteLineView, under: Pixel, p: nat)
    requires SpriteLineValid(sp) && sp.behind && under.raw.colour != 0
    ensures SpriteCover(false, sp, under, p) == under
  {
  }

  // ---------------------------------------------------------------------------
  // The whole line
  // ---------------------------------------------------------------------------

  /** The window is drawn only when enabled, triggered and WX - 7 < 160. */
  predicate WindowDrawn(lcdc: Byte, windowTriggered: bool, windowX: Ppu.U8)
  {
    Has(lcdc, WINDOW_DISPLAY) && windowTriggered && windowX - 7 < WIDTH
  }

  /** The background is drawn unless the window is on, triggered and starts at the left edge. */
  predicate BgDrawn(lcdc: Byte, windowTriggered: bool, windowX: Ppu.U8)
  {
    !Has(lcdc, WINDOW_DISPLAY) || !windowTriggered || windowX > 7
  }

  /**
   * Column `p` before sprites: the window from column max(WX - 7, 0) on when
   * it is drawn, the background elsewhere.
   */
  function LinePixel(v: VramView, lcdc: Byte, currentY: Ppu.U8, scrollY: Ppu.U8, scrollX: Ppu.U8,
                     windowX: Ppu.U8, windowCounter: Ppu.U8, windowTriggered: bool, p: nat): Pixel
    requires VramValid(v) && p < WIDTH
  {
    if WindowDrawn(lcdc, windowTriggered, windowX) && p >= Clamp(windowX - 7) then
      WindowPixel(v, lcdc, windowCounter, windowX - 7, p)
    else BgPixel(v, lcdc, currentY, scrollY, scrollX, p)
  }

  /**
   * Whenever the background is skipped, the window covers the whole line,
   * so every column is drawn; the window counter advances exactly when the
   * window is drawn.
   */
  lemma LineCovered(lcdc: Byte, windowTriggered: bool, windowX: Ppu.U8)
    ensures !BgDrawn(lcdc, windowTriggered, windowX) ==> WindowDrawn(lcdc, windowTriggered, windowX) && Clamp(windowX - 7) == 0
  {
  }

  /**
   * The renderer's part of the PPU: the registers it reads, the window line
   * counter it advances, and the two scanline buffers it fills in place.
   */
  class CgbRenderer {
    var lcdControl: Byte
    var currentY: Ppu.U8
    var scrollY: Ppu.U8
    var scrollX: Ppu.U8
    var windowX: Ppu.U8
    var windowCounter: Ppu.U8
    var windowTriggered: bool
    var vram: VramView
    var oam: seq<Ppu.SpriteAttribute>
    const scanlineBuffer: array<Shade>
    const unpaletted: array<Unpaletted>

    predicate Valid()
      reads this
    {
      VramValid(vram) && scanlineBuffer.Length == WIDTH && unpaletted.Length == WIDTH
    }

    function PixelAt(p: nat): Pixel
      reads this, scanlineBuffer, unpaletted
      requires Valid() && p < WIDTH
    {
      Pixel(scanlineBuffer[p], unpaletted[p])
    }

    /** `draw_cgb_scanline`: background, window, then sprites. */
    method DrawCgbScanline()
      requires Valid()
      modifies this`windowCounter, scanlineBuffer, unpaletted
      ensures Valid()
      ensures windowCounter ==
        if WindowDrawn(lcdControl, windowTriggered, windowX) then (old(windowCounter) + 1) % 256 else old(windowCounter)
      ensures forall p :: 0 <= p < WIDTH ==>
        var line := LinePixel(vram, lcdControl, currentY, scrollY, scrollX, windowX, old(windowCounter), windowTriggered, p);
        PixelAt(p) ==
          if Has(lcdControl, SPRITE_DISPLAY_ENABLE) then
            SpritesOver(!Has(lcdControl, BG_WINDOW_PRIORITY), LineSpriteRows(), 0, line, p)
          else line
    {
      DrawBackgroundAndWindow();
      if Has(lcdControl, SPRITE_DISPLAY_ENABLE) {
        DrawCgbSpriteScanline();
      }
    }

    /** The first part of `draw_cgb_scanline`: the background, then the window over it. */
    method DrawBackgroundAndWindow()
      requires Valid()
      modifies this`windowCounter, scanlineBuffer, unpaletted
      ensures windowCounter ==
        if WindowDrawn(lcdControl, windowTriggered, windowX) then (old(windowCounter) + 1) % 256 else old(windowCounter)
      ensures forall p :: 0 <= p < WIDTH ==>
        PixelAt(p) == LinePixel(vram, lcdControl, currentY, scrollY, scrollX, windowX, old(windowCounter), windowTriggered, p)
    {
      LineCovered(lcdControl, windowTriggered, windowX);
      if Has(lcdControl, WINDOW_DISPLAY) {
        if !windowTriggered || windowX > 7 {
          DrawCgbBgScanline();
        }
        DrawCgbWindowScanline();
      } else {
        DrawCgbBgScanline();
      }
    }

    method DrawCgbBgScanline()
      requires Valid()
      modifies scanlineBuffer, unpaletted
      ensures forall p :: 0 <= p < WIDTH ==> PixelAt(p) == BgPixel(vram, lcdControl, currentY, scrollY, scrollX, p)
    {
      var scanline := (currentY + scrollY) % 256;
      var tileLowerBound := (scanline / 8) * 32 + scrollX / 8;
      var tileHigherBound := tileLowerBound + 20;
      var tileLineY := scanline % 8;
      var pixelsDrawn: nat := 0;
      var pixelsToSkip: nat := scrollX % 8;
      if pixelsToSkip != 0 {
        tileHigherBound := tileHigherBound + 1;
      }
      var i := tileLowerBound;
      while i < tileHigherBound
        invariant tileLowerBound <= i <= tileHigherBound
        invariant tileHigherBound - tileLowerBound == Ppu.BgTileCount(scrollX)
        invariant pixelsDrawn == WalkDrawn(-(scrollX % 8), i - tileLowerBound)
        invariant pixelsToSkip == WalkSkip(-(scrollX % 8), i - tileLowerBound)
        invariant forall p :: 0 <= p < pixelsDrawn ==> PixelAt(p) == BgPixel(vram, lcdControl, currentY, scrollY, scrollX, p)
      {
        pixelsDrawn, pixelsToSkip := DrawBgTile(tileLowerBound, i, scanline, tileLineY, pixelsDrawn, pixelsToSkip);
        i := i + 1;
      }
      BgWalk(scrollX, tileHigherBound - tileLowerBound);
    }

    /**
     * Tile `k` = `i` - `tileLowerBound` of the background walk: map entry
     * `i`, pulled back a row once the walk passes x = 255 and reduced modulo
     * the map size, drawn where the walk has reached; those columns then
     * show the background.
     */
    method DrawBgTile(tileLowerBound: nat, i: nat, scanline: Ppu.U8, tileLineY: nat, pixelsDrawn: nat, pixelsToSkip: nat)
      returns (pixelsDrawn': nat, pixelsToSkip': nat)
      requires Valid() && scanline == (currentY + scrollY) % 256 && tileLineY == scanline % 8
      requires tileLowerBound == (scanline / 8) * 32 + scrollX / 8
      requires tileLowerBound <= i < tileLowerBound + Ppu.BgTileCount(scrollX)
      requires pixelsDrawn == WalkDrawn(-(scrollX % 8), i - tileLowerBound)
      requires pixelsToSkip == WalkSkip(-(scrollX % 8), i - tileLowerBound)
      modifies scanlineBuffer, unpaletted
      ensures pixelsDrawn' == WalkDrawn(-(scrollX % 8), i - tileLowerBound + 1)
      ensures pixelsToSkip' == WalkSkip(-(scrollX % 8), i - tileLowerBound + 1)
      ensures forall p :: 0 <= p < WIDTH ==>
        PixelAt(p) ==
          if pixelsDrawn <= p < pixelsDrawn' then BgPixel(vram, lcdControl, currentY, scrollY, scrollX, p)
          else old(PixelAt(p))
    {
      ghost var start := -(scrollX % 8);
      ghost var k := i - tileLowerBound;
      BgWalk(scrollX, k);
      Ppu.BgColumnWraps(scrollX, scanline, k);
      WalkStep(start, k);
      var index := if scrollX + pixelsDrawn > 255 then i - 32 else i;
      index := index % CgbVram.BACKGROUND_TILE_SIZE;
      assert index == (scanline / 8) * 32 + (scrollX / 8 + k) % 32;
      ghost var line;
      pixelsDrawn', pixelsToSkip', line := DrawMapTile(Has(lcdControl, BG_TILE_MAP_SELECT), index, tileLineY, pixelsDrawn, pixelsToSkip);
      forall p | 0 <= p < WIDTH && pixelsDrawn <= p < pixelsDrawn'
        ensures PixelAt(p) == BgPixel(vram, lcdControl, currentY, scrollY, scrollX, p)
      {
        BgTileColumn(vram, lcdControl, currentY, scrollY, scrollX, k, index, tileLineY, pixelsDrawn, pixelsToSkip, p);
      }
    }

    /**
     * `draw_cgb_window_scanline`: when the window is triggered and WX - 7 <
     * 160, the window counter advances and every column from max(WX - 7, 0)
     * on shows the window; the columns left of it are kept.
     */
    method DrawCgbWindowScanline()
      requires Valid()
      modifies this`windowCounter, scanlineBuffer, unpaletted
      ensures windowTriggered && windowX - 7 < WIDTH ==> windowCounter == (old(windowCounter) + 1) % 256
      ensures !(windowTriggered && windowX - 7 < WIDTH) ==> windowCounter == old(windowCounter)
      ensures forall p :: 0 <= p < WIDTH ==>
        PixelAt(p) ==
          if windowTriggered && windowX - 7 < WIDTH && p >= Clamp(windowX - 7) then
            WindowPixel(vram, lcdControl, old(windowCounter), windowX - 7, p)
          else old(PixelAt(p))
    {
      var start := windowX - 7;
      if !windowTriggered || start >= WIDTH {
        return;
      }
      var tileLowerBound := (windowCounter / 8) * 32;
      var tileHigherBound := tileLowerBound + (WIDTH - start + 7) / 8;
      var tileLineY := windowCounter % 8;
      var pixelsDrawn: nat, pixelsToSkip: nat := 0, 0;
      if start >= 0 {
        pixelsDrawn := start;
      } else {
        pixelsToSkip := -start;
      }
      var counter := windowCounter;
      windowCounter := (windowCounter + 1) % 256;
      WindowWalk(start);
      var i := tileLowerBound;
      while i < tileHigherBound
        invariant tileLowerBound <= i <= tileHigherBound
        invariant windowCounter == (counter as int + 1) % 256
        invariant pixelsDrawn == WalkDrawn(start, i - tileLowerBound)
        invariant pixelsToSkip == WalkSkip(start, i - tileLowerBound)
        invariant forall p :: 0 <= p < WIDTH ==>
          PixelAt(p) ==
            if Clamp(start) <= p < pixelsDrawn then WindowPixel(vram, lcdControl, counter, start, p)
            else old(PixelAt(p))
      {
        pixelsDrawn, pixelsToSkip := DrawWindowTile(counter, tileLowerBound, i, start, pixelsDrawn, pixelsToSkip);
        i := i + 1;
      }
    }

    /**
     * Tile `k` = `i` - `tileLowerBound` of the window walk on window line
     * `counter`: map entry `i` drawn where the walk has reached; those
     * columns then show the window.
     */
    method DrawWindowTile(counter: Ppu.U8, tileLowerBound: nat, i: nat, start: int, pixelsDrawn: nat, pixelsToSkip: nat)
      returns (pixelsDrawn': nat, pixelsToSkip': nat)
      requires Valid() && -8 < start < WIDTH && tileLowerBound == (counter / 8) * 32
      requires tileLowerBound <= i < tileLowerBound + (WIDTH - start + 7) / 8
      requires pixelsDrawn == WalkDrawn(start, i - tileLowerBound)
      requires pixelsToSkip == WalkSkip(start, i - tileLowerBound)
      modifies scanlineBuffer, unpaletted
      ensures pixelsDrawn' == WalkDrawn(start, i - tileLowerBound + 1)
      ensures pixelsToSkip' == WalkSkip(start, i - tileLowerBound + 1)
      ensures forall p :: 0 <= p < WIDTH ==>
        PixelAt(p) ==
          if pixelsDrawn <= p < pixelsDrawn' then WindowPixel(vram, lcdControl, counter, start, p)
          else old(PixelAt(p))
    {
      ghost var k := i - tileLowerBound;
      WindowWalk(start);
      WalkStep(start, k);
      var tileLineY := counter % 8;
      ghost var line;
      pixelsDrawn', pixelsToSkip', line := DrawMapTile(Has(lcdControl, WINDOW_MAP_SELECT), i, tileLineY, pixelsDrawn, pixelsToSkip);
      forall p | 0 <= p < WIDTH && pixelsDrawn <= p < pixelsDrawn'
        ensures PixelAt(p) == WindowPixel(vram, lcdControl, counter, start, p)
      {
        WindowTileColumn(vram, lcdControl, counter, start, k, i, tileLineY, pixelsDrawn, pixelsToSkip, p);
      }
    }

    /**
     * One tile of the background or window walk: the tile number and
     * attributes at `index` of the chosen map, drawn by
     * `draw_cgb_background_window_line`.
     */
    method DrawMapTile(map9C00: bool, index: nat, tileLineY: nat, pixelsDrawn: nat, pixelsToSkip: nat)
      returns (pixelsDrawn': nat, pixelsToSkip': nat, ghost line: TileLine)
      requires Valid() && index < CgbVram.BACKGROUND_TILE_SIZE && tileLineY < 8 && pixelsDrawn <= WIDTH
      modifies scanlineBuffer, unpaletted
      ensures line == MapTileLine(vram, lcdControl, map9C00, index, tileLineY)
      ensures pixelsDrawn' == pixelsDrawn + Drawn(pixelsDrawn, pixelsToSkip, 8)
      ensures pixelsToSkip' == SkipLeft(pixelsToSkip, 8)
      ensures forall p :: 0 <= p < WIDTH ==>
        PixelAt(p) ==
          if pixelsDrawn <= p < pixelsDrawn' then TileLinePixel(line, Skipped(pixelsToSkip, 8) + p - pixelsDrawn)
          else old(PixelAt(p))
    {
      var tileNumber := MapTileNumber(vram, map9C00, index);
      var attrs := MapAttributes(vram, map9C00, index);
      var tileAddress := tileNumber as nat + BankOffset(attrs);
      pixelsDrawn', pixelsToSkip', line := DrawCgbBackgroundWindowLine(pixelsDrawn, pixelsToSkip, tileAddress, tileNumber, tileLineY, attrs);
    }

    /** The rows of the sprites drawn on this line, in OAM order. */
    function LineSpriteRows(): (rows: seq<SpriteLineView>)
      reads this
      requires Valid()
      ensures AllValid(rows)
    {
      SpriteLines(vram, lcdControl, currentY as Byte, DrawnSprites(oam, currentY as Byte, lcdControl))
    }

    /**
     * `draw_cgb_sprite_scanline`: the first ten sprites on the line, in OAM
     * order, drawn last to first.
     */
    method DrawCgbSpriteScanline()
      requires Valid()
      modifies scanlineBuffer, unpaletted
      ensures forall p :: 0 <= p < WIDTH ==>
        PixelAt(p) == SpritesOver(!Has(lcdControl, BG_WINDOW_PRIORITY), LineSpriteRows(), 0, old(PixelAt(p)), p)
    {
      var rows := LineSpriteRows();
      var alwaysDisplaySprite := !Has(lcdControl, BG_WINDOW_PRIORITY);
      var n := |rows|;
      while n > 0
        invariant 0 <= n <= |rows| && AllValid(rows)
        invariant forall p :: 0 <= p < WIDTH ==>
          PixelAt(p) == SpritesOver(alwaysDisplaySprite, rows, n, old(PixelAt(p)), p)
      {
        n := n - 1;
        label Before:
        DrawSprite(alwaysDisplaySprite, rows[n]);
        forall p | 0 <= p < WIDTH
          ensures PixelAt(p) == SpritesOver(alwaysDisplaySprite, rows, n, old(PixelAt(p)), p)
        {
          assert PixelAt(p) == SpriteCover(alwaysDisplaySprite, rows[n], old@Before(PixelAt(p)), p);
        }
      }
    }

    /** One sprite of `draw_cgb_sprite_scanline`: its eight row entries, left to right on screen unless flipped. */
    method DrawSprite(alwaysDisplaySprite: bool, sprite: SpriteLineView)
      requires Valid() && SpriteLineValid(sprite)
      modifies scanlineBuffer, unpaletted
      ensures forall p :: 0 <= p < WIDTH ==> PixelAt(p) == SpriteCover(alwaysDisplaySprite, sprite, old(PixelAt(p)), p)
    {
      var j := 0;
      while j < 8
        invariant 0 <= j <= 8
        invariant forall p :: 0 <= p < WIDTH ==>
          PixelAt(p) ==
            if 0 <= p - sprite.screenX < 8 && Column(sprite.xFlip, p - sprite.screenX) < j then
              SpriteCover(alwaysDisplaySprite, sprite, old(PixelAt(p)), p)
            else old(PixelAt(p))
      {
        ColumnInvolution(sprite.xFlip, j);
        DrawSpritePixel(alwaysDisplaySprite, sprite, j);
        j := j + 1;
      }
    }

    /**
     * The step for row entry `j` of a sprite: it writes only the column the
     * entry lands on, and only what `SpriteStep` says.
     */
    method DrawSpritePixel(alwaysDisplaySprite: bool, sprite: SpriteLineView, j: nat)
      requires Valid() && SpriteLineValid(sprite) && j < 8
      modifies scanlineBuffer, unpaletted
      ensures forall p :: 0 <= p < WIDTH ==>
        PixelAt(p) ==
          if p == sprite.screenX + Column(sprite.xFlip, j) then SpriteStep(alwaysDisplaySprite, sprite, old(PixelAt(p)), j)
          else old(PixelAt(p))
    {
      var pixel := sprite.screenX + Column(sprite.xFlip, j);
      // The corrected bounds check: SpriteIndexAsWritten is the source's.
      if pixel < 0 || pixel > 159 {
        return;
      }
      if !alwaysDisplaySprite && (sprite.behind || unpaletted[pixel].bgPriority) && unpaletted[pixel].colour != 0 {
        return;
      }
      var colour := sprite.row[j];
      if colour != 0 {
        SetPixel(pixel, Pixel(ObjShade(sprite.palette, colour), Unpaletted(colour, false)));
      }
    }

    /**
     * `draw_cgb_background_window_line`: draws line `tileLineY` of the tile
     * from column `pixelsDrawn` on, first consuming `pixelsToSkip`, never past
     * column 159; the 8-pixel fast path draws what the pixel loop would.
     */
    method DrawCgbBackgroundWindowLine(pixelsDrawn: nat, pixelsToSkip: nat, tileAddress: nat, tileNumber: Byte,
                                       tileLineY: nat, attrs: Byte)
      returns (pixelsDrawn': nat, pixelsToSkip': nat, ghost line: TileLine)
      requires Valid() && pixelsDrawn <= WIDTH && tileAddress < TILE_COUNT && tileLineY < 8
      modifies scanlineBuffer, unpaletted
      ensures pixelsDrawn' == pixelsDrawn + Drawn(pixelsDrawn, pixelsToSkip, 8)
      ensures line == TileLineOf(vram, lcdControl, tileAddress, tileNumber, attrs, tileLineY)
      ensures pixelsToSkip' == SkipLeft(pixelsToSkip, 8)
      ensures forall p :: 0 <= p < WIDTH ==>
        PixelAt(p) ==
          if pixelsDrawn <= p < pixelsDrawn' then TileLinePixel(line, Skipped(pixelsToSkip, 8) + p - pixelsDrawn)
          else old(PixelAt(p))
    {
      var tile := LineTile(lcdControl, tileAddress, tileNumber, attrs);
      var tilePixelY := RowStart(Has(attrs, CgbVram.Y_FLIP), tileLineY);
      var pixelLine := TileLine(vram.tiles[tile], tilePixelY, Has(attrs, CgbVram.X_FLIP),
                           CgbVram.PaletteNumber(attrs) as nat, Has(attrs, CgbVram.BG_TO_OAM_PRIORITY));
      if pixelsToSkip == 0 && pixelsDrawn < 152 {
        DrawCgbContiguousBgWindowBlock(pixelsDrawn, pixelLine);
        pixelsDrawn', pixelsToSkip' := pixelsDrawn + 8, 0;
      } else {
        pixelsDrawn', pixelsToSkip' := DrawTileLinePixels(pixelsDrawn, pixelsToSkip, pixelLine);
      }
      line := pixelLine;
    }

    /** The pixel-by-pixel path of `draw_cgb_background_window_line`. */
    method DrawTileLinePixels(pixelsDrawn: nat, pixelsToSkip: nat, line: TileLine)
      returns (pixelsDrawn': nat, pixelsToSkip': nat)
      requires Valid() && pixelsDrawn <= WIDTH && TileLineValid(line)
      modifies scanlineBuffer, unpaletted
      ensures pixelsDrawn' == pixelsDrawn + Drawn(pixelsDrawn, pixelsToSkip, 8)
      ensures pixelsToSkip' == SkipLeft(pixelsToSkip, 8)
      ensures forall p :: 0 <= p < WIDTH ==>
        PixelAt(p) ==
          if pixelsDrawn <= p < pixelsDrawn' then TileLinePixel(line, Skipped(pixelsToSkip, 8) + p - pixelsDrawn)
          else old(PixelAt(p))
    {
      pixelsDrawn', pixelsToSkip' := pixelsDrawn, pixelsToSkip;
      var m := 0;
      while m < 8
        invariant 0 <= m <= 8
        invariant pixelsDrawn' == pixelsDrawn + Drawn(pixelsDrawn, pixelsToSkip, m)
        invariant pixelsToSkip' == SkipLeft(pixelsToSkip, m)
        invariant forall p :: 0 <= p < WIDTH ==>
          PixelAt(p) ==
            if pixelsDrawn <= p < pixelsDrawn' then TileLinePixel(line, Skipped(pixelsToSkip, 8) + p - pixelsDrawn)
            else old(PixelAt(p))
      {
        if pixelsToSkip' > 0 {
          pixelsToSkip' := pixelsToSkip' - 1;
          m := m + 1;
          continue;
        }
        if pixelsDrawn' > 159 {
          break;
        }
        var colour := line.pixels[line.rowStart + Column(line.xFlip, m)];
        assert Skipped(pixelsToSkip, 8) + pixelsDrawn' - pixelsDrawn == m;
        SetPixel(pixelsDrawn', Pixel(BgShade(line.palette, colour), Unpaletted(colour, line.bgPriority)));
        pixelsDrawn' := pixelsDrawn' + 1;
        m := m + 1;
      }
    }

    /** Writes one column of both buffers. */
    method SetPixel(x: nat, pixel: Pixel)
      requires Valid() && x < WIDTH
      modifies scanlineBuffer, unpaletted
      ensures forall p :: 0 <= p < WIDTH ==> PixelAt(p) == if p == x then pixel else old(PixelAt(p))
    {
      scanlineBuffer[x] := pixel.shade;
      unpaletted[x] := pixel.raw;
    }

    /** `draw_cgb_contiguous_bg_window_block`: the tile's line as eight whole pixels at `pixelsDrawn`. */
    method DrawCgbContiguousBgWindowBlock(pixelsDrawn: nat, line: TileLine)
      requires Valid() && pixelsDrawn + 8 <= WIDTH && TileLineValid(line)
      modifies scanlineBuffer, unpaletted
      ensures forall p :: 0 <= p < WIDTH ==>
        PixelAt(p) ==
          if pixelsDrawn <= p < pixelsDrawn + 8 then TileLinePixel(line, p - pixelsDrawn)
          else old(PixelAt(p))
    {
      var pixels := line.pixels;
      var y := line.rowStart;
      if line.xFlip {
        forall k | 0 <= k < 8 {
          scanlineBuffer[pixelsDrawn + k] := BgShade(line.palette, pixels[y + k]);
        }
        forall k | 0 <= k < 8 {
          unpaletted[pixelsDrawn + k] := Unpaletted(pixels[y + k], line.bgPriority);
        }
      } else {
        forall k | 0 <= k < 8 {
          scanlineBuffer[pixelsDrawn + 7 - k] := BgShade(line.palette, pixels[y + k]);
        }
        forall k | 0 <= k < 8 {
          unpaletted[pixelsDrawn + 7 - k] := Unpaletted(pixels[y + k], line.bgPriority);
        }
      }
    }
  }
}
