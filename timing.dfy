/**
 * The LCD transfer (mode 3) duration estimate the scheduled PPU uses
 * (core/src/hardware/ppu/timing.rs): a base of 172 cycles, the SCX fine
 * scroll, a window penalty and a per-sprite penalty, and the H-Blank that
 * fills the rest of the 456-cycle line.
 */
module Timing {
  import opened Bits
  import opened RegisterFlags
  import Ppu

  const SCANLINE_DURATION: nat := 456
  const BASE_LCD_TRANSFER_DURATION: nat := 172
  const BASE_HBLANK_DURATION: nat := 204
  const OAM_SEARCH_DURATION: nat := 80

  /** The longest transfer: 172 + 7 fine-scroll + 6 window + 10 sprites of 11. */
  const MAX_LCD_TRANSFER_DURATION: nat := 295

  /**
   * The penalty of one sprite: `11 - min(5, (x + to_add) % 8)`, where
   * `to_add` is 255 - WX for a sprite at or left of a triggered window and
   * SCX otherwise. The `u8` sum wraps, which leaves its value modulo 8
   * unchanged.
   */
  function SpritePenalty(s: Ppu.SpriteAttribute, windowTriggered: bool, windowX: Byte, scrollX: Byte): nat
  {
    var toAdd: Byte := if windowTriggered && windowX >= s.xPos then 255 - windowX else scrollX;
    var fine := ((s.xPos + toAdd) % 8) as nat;
    11 - (if fine < 5 then fine else 5)
  }

  /**
   * The wrapping `u8` sum loses only the carry out of bit 7, so its value
   * modulo 8 depends only on the two operands modulo 8, as the unbounded
   * sum's does.
   */
  lemma PenaltyIgnoresWrap(x: Byte, toAdd: Byte)
    ensures (x + toAdd) % 8 == (x % 8 + toAdd % 8) % 8
  {
  }

  /** Each sprite adds between 6 and 11 cycles. */
  lemma SpritePenaltyBounds(s: Ppu.SpriteAttribute, windowTriggered: bool, windowX: Byte, scrollX: Byte)
    ensures 6 <= SpritePenalty(s, windowTriggered, windowX, scrollX) <= 11
  {
  }

  /** The `sum` of the penalties over the line's sprites. */
  function PenaltySum(sprites: seq<Ppu.SpriteAttribute>, windowTriggered: bool, windowX: Byte, scrollX: Byte): nat
  {
    if |sprites| == 0 then 0
    else SpritePenalty(sprites[0], windowTriggered, windowX, scrollX) + PenaltySum(sprites[1..], windowTriggered, windowX, scrollX)
  }

  /** n sprites add between 6n and 11n cycles. */
  lemma {:induction false} PenaltySumBounds(sprites: seq<Ppu.SpriteAttribute>, windowTriggered: bool, windowX: Byte, scrollX: Byte)
    ensures 6 * |sprites| <= PenaltySum(sprites, windowTriggered, windowX, scrollX) <= 11 * |sprites|
  {
    if |sprites| != 0 {
      SpritePenaltyBounds(sprites[0], windowTriggered, windowX, scrollX);
      PenaltySumBounds(sprites[1..], windowTriggered, windowX, scrollX);
    }
  }

  /** The window pause applies when the window was triggered, WX < 168 and the window is enabled. */
  predicate WindowPause(windowTriggered: bool, windowX: Byte, lcdControl: Byte)
  {
    windowTriggered && windowX < 168 && Has(lcdControl, WINDOW_DISPLAY)
  }

  /** Sprites are 16 lines tall when LCDC bit 2 is set, 8 otherwise. */
  function SpriteHeight(lcdControl: Byte): int
  {
    if Has(lcdControl, SPRITE_SIZE) then 16 else 8
  }

  /** `calculate_lcd_transfer_duration`. */
  function TransferDuration(scrollX: Byte, windowTriggered: bool, windowX: Byte, lcdControl: Byte,
                            currentY: Byte, oam: seq<Ppu.SpriteAttribute>): nat
  {
    BASE_LCD_TRANSFER_DURATION + (scrollX % 8) as nat
    + (if WindowPause(windowTriggered, windowX, lcdControl) then 6 else 0)
    + PenaltySum(Ppu.LineSprites(oam, currentY, SpriteHeight(lcdControl)), windowTriggered, windowX, scrollX)
  }

  /**
   * The duration is the base plus the fine scroll, plus 6 for the window,
   * plus 6 to 11 for each of the at most ten sprites on the line; so it lies
   * between 172 and 295, the `u8` sum of the penalties never overflows, and
   * with no sprite, no fine scroll and no window it is exactly 172.
   */
  lemma TransferDurationSpec(scrollX: Byte, windowTriggered: bool, windowX: Byte, lcdControl: Byte,
                             currentY: Byte, oam: seq<Ppu.SpriteAttribute>)
    ensures var sprites := Ppu.LineSprites(oam, currentY, SpriteHeight(lcdControl));
      var d := TransferDuration(scrollX, windowTriggered, windowX, lcdControl, currentY, oam);
      && PenaltySum(sprites, windowTriggered, windowX, scrollX) < 256
      && BASE_LCD_TRANSFER_DURATION + 6 * |sprites| <= d <= MAX_LCD_TRANSFER_DURATION
      && (|sprites| == 0 && scrollX % 8 == 0 && !WindowPause(windowTriggered, windowX, lcdControl) ==>
           d == BASE_LCD_TRANSFER_DURATION)
  {
    var sprites := Ppu.LineSprites(oam, currentY, SpriteHeight(lcdControl));
    Ppu.LineSpritesSpec(oam, currentY, SpriteHeight(lcdControl));
    PenaltySumBounds(sprites, windowTriggered, windowX, scrollX);
  }

  /**
   * The registers `calculate_lcd_transfer_duration` reads, and the cached
   * duration `get_lcd_transfer_duration` stores.
   */
  class TransferTiming {
    var scrollX: Byte
    var windowTriggered: bool
    var windowX: Byte
    var lcdControl: Byte
    var currentY: Byte
    var oam: seq<Ppu.SpriteAttribute>
    var currentLcdTransferDuration: nat

    /** The cached duration is one `calculate_lcd_transfer_duration` can return. */
    predicate Valid()
      reads this
    {
      currentLcdTransferDuration <= MAX_LCD_TRANSFER_DURATION
    }

    /** `get_lcd_transfer_duration`: computes the duration and caches it. */
    method GetLcdTransferDuration() returns (d: nat)
      modifies this`currentLcdTransferDuration
      ensures d == TransferDuration(scrollX, windowTriggered, windowX, lcdControl, currentY, oam)
      ensures currentLcdTransferDuration == d
      ensures Valid()
    {
      TransferDurationSpec(scrollX, windowTriggered, windowX, lcdControl, currentY, oam);
      d := TransferDuration(scrollX, windowTriggered, windowX, lcdControl, currentY, oam);
      currentLcdTransferDuration := d;
    }

    /**
     * `get_hblank_duration`: 376 minus the cached transfer, so OAM search,
     * transfer and H-Blank make up one 456-cycle line, and H-Blank lasts
     * between 81 and 204 cycles.
     */
    function GetHblankDuration(): (h: nat)
      reads this
      requires Valid()
      ensures OAM_SEARCH_DURATION + currentLcdTransferDuration + h == SCANLINE_DURATION
      ensures currentLcdTransferDuration >= BASE_LCD_TRANSFER_DURATION ==> h <= BASE_HBLANK_DURATION
      ensures h >= SCANLINE_DURATION - OAM_SEARCH_DURATION - MAX_LCD_TRANSFER_DURATION
    {
      376 - currentLcdTransferDuration
    }
  }
}
