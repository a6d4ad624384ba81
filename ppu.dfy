/**
 * The DMG pixel processing unit (core/src/hardware/ppu/mod.rs): the mode
 * machine `do_cycle` driven by the CPU's cycle count, the LY/LYC
 * comparison, the window line counter, and the scanline rendering of one
 * tile row into the scanline buffer.
 */
module Ppu {
  import opened Bits
  import opened RegisterFlags
  import Interrupts
  import DmgPalette

  const RESOLUTION_WIDTH: nat := 160
  const RESOLUTION_HEIGHT: nat := 144

  /**
   * `CYCLES_PER_FRAME`, declared in core/src/emulator.rs: 154 lines of 456
   * cycles.
   */
  const CYCLES_PER_FRAME: nat := 70224

  /** The first cycle of V-Blank: 144 lines of 456 cycles. */
  const VBLANK_START: nat := 65664

  const LINE_CYCLES: nat := 456

  /**
   * A `u8` counter or position register (LY, LYC, WX, WY, the window line
   * counter), kept as an integer; its wrapping additions are written out.
   */
  type U8 = x: int | 0 <= x < 256

  /** `current_cycles` and `vblank_cycles` are `u32`. */
  const U32: nat := 0x1_0000_0000

  /** A `u32` result as a release build computes it. */
  function Wrap32(x: int): (r: nat)
    ensures r < U32
    ensures 0 <= x < U32 ==> r == x
  {
    x % U32
  }

  // ---------------------------------------------------------------------------
  // Sprites on a line
  // ---------------------------------------------------------------------------

  /** An OAM entry. */
  datatype SpriteAttribute = SpriteAttribute(yPos: Byte, xPos: Byte, tileNumber: Byte, attributeFlags: Byte)

  /** `is_sprite_on_scanline`, on `i16` values that never overflow here. */
  predicate IsSpriteOnScanline(scanlineY: int, yPos: int, ySize: int)
  {
    scanlineY >= yPos && scanlineY < yPos + ySize
  }

  /** The filter closure: the sprite's screen row is `y_pos - 16`. */
  predicate OnLine(s: SpriteAttribute, currentY: Byte, ySize: int)
  {
    IsSpriteOnScanline(currentY as int, s.yPos as int - 16, ySize)
  }

  /** The OAM entries that pass the filter, in OAM order. */
  function Filter(oam: seq<SpriteAttribute>, currentY: Byte, ySize: int): seq<SpriteAttribute>
  {
    if |oam| == 0 then []
    else if OnLine(oam[0], currentY, ySize) then [oam[0]] + Filter(oam[1..], currentY, ySize)
    else Filter(oam[1..], currentY, ySize)
  }

  /** `filter(..).take(10)`: the sprites the hardware considers on a line. */
  function LineSprites(oam: seq<SpriteAttribute>, currentY: Byte, ySize: int): seq<SpriteAttribute>
  {
    var f := Filter(oam, currentY, ySize);
    if |f| <= 10 then f else f[..10]
  }

  /**
   * The filter keeps exactly the entries on the line (a sprite covers rows
   * `y_pos - 16` up to but excluding `y_pos - 16 + size`), and never more
   * than OAM holds.
   */
  lemma {:induction false} FilterSpec(oam: seq<SpriteAttribute>, currentY: Byte, ySize: int)
    ensures |Filter(oam, currentY, ySize)| <= |oam|
    ensures forall s :: s in Filter(oam, currentY, ySize) <==> s in oam && OnLine(s, currentY, ySize)
    ensures forall s :: OnLine(s, currentY, ySize) <==>
      s.yPos as int - 16 <= currentY as int < s.yPos as int - 16 + ySize
  {
    if |oam| != 0 {
      FilterSpec(oam[1..], currentY, ySize);
      assert oam == [oam[0]] + oam[1..];
    }
  }

  /**
   * At most ten sprites are taken, each of them on the line, and when fewer
   * than eleven are on the line all of them are taken.
   */
  lemma LineSpritesSpec(oam: seq<SpriteAttribute>, currentY: Byte, ySize: int)
    ensures |LineSprites(oam, currentY, ySize)| <= 10
    ensures forall s :: s in LineSprites(oam, currentY, ySize) ==> s in oam && OnLine(s, currentY, ySize)
    ensures |Filter(oam, currentY, ySize)| <= 10 ==>
      forall s :: s in oam && OnLine(s, currentY, ySize) ==> s in LineSprites(oam, currentY, ySize)
    ensures LineSprites(oam, currentY, ySize) <= Filter(oam, currentY, ySize)
  {
    FilterSpec(oam, currentY, ySize);
    var f := Filter(oam, currentY, ySize);
    if |f| > 10 {
      forall s | s in f[..10] ensures s in f {
        var k :| 0 <= k < 10 && f[..10][k] == s;
        assert f[k] == s;
      }
    }
  }

  // ---------------------------------------------------------------------------
  // The mode machine
  // ---------------------------------------------------------------------------

  /** The registers and counters `do_cycle` reads and writes. */
  datatype Regs = Regs(
    lcdControl: Byte,
    lcdStatus: Byte,
    compareLine: U8,
    currentY: U8,
    windowX: U8,
    windowY: U8,
    windowCounter: U8,
    currentCycles: nat,
    vblankCycles: nat)

  /** The mode the STAT register shows. */
  function ModeOf(r: Regs): Mode
  {
    ModeFlag(r.lcdStatus)
  }

  /** The mode a line is in after `local` of its 456 cycles. */
  function LineMode(local: nat): Mode
  {
    if local < 80 then OamSearch else if local < 252 then LcdTransfer else HBlank
  }

  /**
   * `ly_lyc_compare`: when LY equals LYC the coincidence flag is set, and
   * the LCD interrupt is added to `pending` when the coincidence interrupt
   * is enabled; otherwise nothing changes.
   */
  function LyLycCompare(r: Regs, pending: Byte): (Regs, Byte)
  {
    if r.currentY == r.compareLine then
      (r.(lcdStatus := r.lcdStatus | COINCIDENCE_FLAG),
       if Has(r.lcdStatus, COINCIDENCE_INTERRUPT) then pending | Interrupts.FLAG_LCD else pending)
    else (r, pending)
  }

  /**
   * The comparison sets the flag exactly when LY == LYC, never clears it,
   * touches no other STAT bit and no other register, and only ever adds the
   * LCD interrupt, exactly when the coincidence interrupt is enabled.
   */
  lemma LyLycCompareSpec(r: Regs, pending: Byte)
    ensures var (r', p') := LyLycCompare(r, pending);
      && (Has(r'.lcdStatus, COINCIDENCE_FLAG) <==> Has(r.lcdStatus, COINCIDENCE_FLAG) || r.currentY == r.compareLine)
      && r'.lcdStatus & 0xFB == r.lcdStatus & 0xFB
      && r' == r.(lcdStatus := r'.lcdStatus)
      && p' & 0xFD == pending & 0xFD
      && (p' & Interrupts.FLAG_LCD != 0 <==>
           pending & Interrupts.FLAG_LCD != 0 || (r.currentY == r.compareLine && Has(r.lcdStatus, COINCIDENCE_INTERRUPT)))
  {
  }

  /** The window is not drawn on lines above WY or when WX - 7 (wrapping) is off screen. */
  predicate WindowSkipped(currentY: U8, windowY: U8, windowX: U8)
  {
    currentY < windowY || (windowX - 7) % 256 >= 160
  }

  /**
   * The state change of `draw_scanline`: the window line counter advances
   * when the window is drawn, then LY advances (wrapping). The pixels it
   * draws are not part of this state.
   */
  function DrawScanline(r: Regs): Regs
  {
    var counted :=
      if Has(r.lcdControl, BG_WINDOW_PRIORITY) && Has(r.lcdControl, WINDOW_DISPLAY)
         && !WindowSkipped(r.currentY, r.windowY, r.windowX)
      then r.(windowCounter := (r.windowCounter + 1) % 256)
      else r;
    counted.(currentY := (counted.currentY + 1) % 256)
  }

  /** Entering OAM search: compare LY unless coming from V-Blank, set the mode, maybe request STAT. */
  function EnterOamSearch(r: Regs): (Regs, Byte)
  {
    var (r1, p1) := if ModeOf(r) != VBlank then LyLycCompare(r, 0) else (r, 0);
    var r2 := r1.(lcdStatus := WithMode(r1.lcdStatus, OamSearch));
    (r2, if Has(r2.lcdStatus, MODE_2_OAM_INTERRUPT) then p1 | Interrupts.FLAG_LCD else p1)
  }

  /** Entering LCD transfer: set the mode and draw the line. */
  function EnterLcdTransfer(r: Regs): Regs
  {
    DrawScanline(r.(lcdStatus := WithMode(r.lcdStatus, LcdTransfer)))
  }

  /** Entering H-Blank: set the mode, maybe request STAT. */
  function EnterHBlank(r: Regs): (Regs, Byte)
  {
    var r1 := r.(lcdStatus := WithMode(r.lcdStatus, HBlank));
    (r1, if Has(r1.lcdStatus, MODE_0_H_INTERRUPT) then Interrupts.FLAG_LCD else 0)
  }

  /** The visible-lines branch of `do_cycle`, once the cycles are added. */
  function VisibleStep(r: Regs): (Regs, Byte)
  {
    var target := LineMode(r.currentCycles % LINE_CYCLES);
    if ModeOf(r) == target then (r, 0)
    else if target == OamSearch then EnterOamSearch(r)
    else if target == LcdTransfer then (EnterLcdTransfer(r), 0)
    else EnterHBlank(r)
  }

  /** Entering V-Blank: mode, LY comparison, the V-Blank counter, the window counter and both interrupts. */
  function EnterVBlank(r: Regs): (Regs, Byte)
    requires r.currentCycles >= VBLANK_START
  {
    var r1 := r.(lcdStatus := WithMode(r.lcdStatus, VBlank));
    var (r2, p2) := LyLycCompare(r1, 0);
    var r3 := r2.(vblankCycles := r.currentCycles - VBLANK_START, windowCounter := 0);
    var p3 := if Has(r3.lcdStatus, MODE_1_V_INTERRUPT) then p2 | Interrupts.FLAG_LCD else p2;
    (r3, p3 | Interrupts.FLAG_VBLANK)
  }

  /** Inside V-Blank: LY advances once the V-Blank counter reaches a line. */
  function VBlankLine(r: Regs, increment: nat): (Regs, Byte)
  {
    var vb := Wrap32(r.vblankCycles + increment);
    if vb >= LINE_CYCLES then
      var r1 := r.(vblankCycles := vb - LINE_CYCLES);
      if r1.currentY == 154 then
        LyLycCompare(r1.(currentCycles := Wrap32(r1.currentCycles - CYCLES_PER_FRAME), currentY := 0), 0)
      else
        LyLycCompare(r1.(currentY := (r1.currentY + 1) % 256), 0)
    else (r.(vblankCycles := vb), 0)
  }

  /** The V-Blank branch of `do_cycle`, once the cycles are added. */
  function VBlankStep(r: Regs, increment: nat): (Regs, Byte)
    requires r.currentCycles >= VBLANK_START
  {
    if ModeOf(r) != VBlank then EnterVBlank(r)
    else if r.currentCycles < CYCLES_PER_FRAME then VBlankLine(r, increment)
    else LyLycCompare(r.(currentCycles := r.currentCycles - CYCLES_PER_FRAME, currentY := 0), 0)
  }

  /**
   * `do_cycle`: the new registers and the interrupts to request, `None`
   * when there are none or the LCD is off.
   */
  function Cycled(r: Regs, increment: nat): (Regs, Option<Byte>)
  {
    var r0 := r.(currentCycles := Wrap32(r.currentCycles + increment));
    if !Has(r0.lcdControl, LCD_DISPLAY) then (r0, None)
    else
      var (r1, p) := if r0.currentCycles < VBLANK_START then VisibleStep(r0) else VBlankStep(r0, increment);
      (r1, if p == 0 then None else Some(p))
  }

  /** The cycle counter after adding `increment`. */
  function NextCycles(r: Regs, increment: nat): nat
  {
    Wrap32(r.currentCycles + increment)
  }

  /** With the LCD off the cycles still accumulate, but nothing else changes and nothing is requested. */
  lemma LcdOffOnlyCounts(r: Regs, increment: nat)
    requires !Has(r.lcdControl, LCD_DISPLAY)
    ensures Cycled(r, increment).1 == None
    ensures Cycled(r, increment).0 == r.(currentCycles := NextCycles(r, increment))
  {
  }

  /**
   * On the visible lines the mode after a cycle is OAM search for the first
   * 80 cycles of a line, LCD transfer up to cycle 252 and H-Blank after.
   */
  lemma VisibleModeSequence(r: Regs, increment: nat)
    requires Has(r.lcdControl, LCD_DISPLAY)
    requires NextCycles(r, increment) < VBLANK_START
    ensures ModeOf(Cycled(r, increment).0) == LineMode(NextCycles(r, increment) % LINE_CYCLES)
    ensures Cycled(r, increment).0.currentCycles == NextCycles(r, increment)
  {
    var r0 := r.(currentCycles := NextCycles(r, increment));
    var target := LineMode(r0.currentCycles % LINE_CYCLES);
    if ModeOf(r0) != target {
      if target == OamSearch {
        var (r1, p1) := if ModeOf(r0) != VBlank then LyLycCompare(r0, 0) else (r0, 0);
        WithModeSpec(r1.lcdStatus, OamSearch);
      } else if target == LcdTransfer {
        WithModeSpec(r0.lcdStatus, LcdTransfer);
      } else {
        WithModeSpec(r0.lcdStatus, HBlank);
      }
    }
  }

  /** A mode is entered at most once per line: a cycle that stays in the mode only counts. */
  lemma EntryOnce(r: Regs, increment: nat)
    requires Has(r.lcdControl, LCD_DISPLAY)
    requires NextCycles(r, increment) < VBLANK_START
    requires ModeOf(r) == LineMode(NextCycles(r, increment) % LINE_CYCLES)
    ensures Cycled(r, increment) == (r.(currentCycles := NextCycles(r, increment)), None)
  {
  }

  /**
   * Entering OAM search requests STAT when the mode-2 interrupt is enabled,
   * or on an LY == LYC match with the coincidence interrupt enabled unless
   * the line follows V-Blank; it never requests V-Blank and leaves LY alone.
   */
  lemma OamSearchEntry(r: Regs, increment: nat)
    requires Has(r.lcdControl, LCD_DISPLAY)
    requires NextCycles(r, increment) < VBLANK_START
    requires LineMode(NextCycles(r, increment) % LINE_CYCLES) == OamSearch && ModeOf(r) != OamSearch
    ensures Cycled(r, increment).1 == (
      if Has(r.lcdStatus, MODE_2_OAM_INTERRUPT)
         || (ModeOf(r) != VBlank && r.currentY == r.compareLine && Has(r.lcdStatus, COINCIDENCE_INTERRUPT))
      then Some(Interrupts.FLAG_LCD) else None)
    ensures Cycled(r, increment).0.currentY == r.currentY
  {
    var r0 := r.(currentCycles := NextCycles(r, increment));
    var (r1, p1) := if ModeOf(r0) != VBlank then LyLycCompare(r0, 0) else (r0, 0);
    WithModeSpec(r1.lcdStatus, OamSearch);
    assert WithMode(r1.lcdStatus, OamSearch) & 0xFC == r1.lcdStatus & 0xFC;
  }

  /**
   * Entering LCD transfer draws the line: LY advances by one (wrapping), the
   * window line counter advances exactly when the background and window are
   * enabled and the window covers the line, and no interrupt is requested.
   */
  lemma LcdTransferEntry(r: Regs, increment: nat)
    requires Has(r.lcdControl, LCD_DISPLAY)
    requires NextCycles(r, increment) < VBLANK_START
    requires LineMode(NextCycles(r, increment) % LINE_CYCLES) == LcdTransfer && ModeOf(r) != LcdTransfer
    ensures Cycled(r, increment).1 == None
    ensures Cycled(r, increment).0.currentY == (r.currentY + 1) % 256
    ensures Cycled(r, increment).0.windowCounter == (
      if Has(r.lcdControl, BG_WINDOW_PRIORITY) && Has(r.lcdControl, WINDOW_DISPLAY)
         && !WindowSkipped(r.currentY, r.windowY, r.windowX)
      then (r.windowCounter + 1) % 256 else r.windowCounter)
  {
  }

  /** Entering H-Blank requests STAT exactly when the mode-0 interrupt is enabled. */
  lemma HBlankEntry(r: Regs, increment: nat)
    requires Has(r.lcdControl, LCD_DISPLAY)
    requires NextCycles(r, increment) < VBLANK_START
    requires LineMode(NextCycles(r, increment) % LINE_CYCLES) == HBlank && ModeOf(r) != HBlank
    ensures Cycled(r, increment).1 == (if Has(r.lcdStatus, MODE_0_H_INTERRUPT) then Some(Interrupts.FLAG_LCD) else None)
    ensures Cycled(r, increment).0.currentY == r.currentY
  {
    WithModeSpec(r.lcdStatus, HBlank);
    assert WithMode(r.lcdStatus, HBlank) & 0xFC == r.lcdStatus & 0xFC;
  }

  /**
   * Entering V-Blank always requests V-Blank, requests STAT when the mode-1
   * interrupt is enabled (or on an LY == LYC match with the coincidence
   * interrupt), resets the window line counter and starts the V-Blank
   * counter at the cycles past line 144.
   */
  lemma VBlankEntry(r: Regs, increment: nat)
    requires Has(r.lcdControl, LCD_DISPLAY)
    requires NextCycles(r, increment) >= VBLANK_START
    requires ModeOf(r) != VBlank
    ensures Cycled(r, increment).1.Some?
    ensures Cycled(r, increment).1.value & Interrupts.FLAG_VBLANK != 0
    ensures Cycled(r, increment).1.value & Interrupts.FLAG_LCD != 0 <==>
      Has(r.lcdStatus, MODE_1_V_INTERRUPT) || (r.currentY == r.compareLine && Has(r.lcdStatus, COINCIDENCE_INTERRUPT))
    ensures ModeOf(Cycled(r, increment).0) == VBlank
    ensures Cycled(r, increment).0.windowCounter == 0
    ensures Cycled(r, increment).0.vblankCycles == NextCycles(r, increment) - VBLANK_START
    ensures Cycled(r, increment).0.currentY == r.currentY
  {
    var r0 := r.(currentCycles := NextCycles(r, increment));
    var r1 := r0.(lcdStatus := WithMode(r0.lcdStatus, VBlank));
    WithModeSpec(r0.lcdStatus, VBlank);
    LyLycCompareSpec(r1, 0);
    var (r2, p2) := LyLycCompare(r1, 0);
    assert r2.lcdStatus & 0x13 == r1.lcdStatus & 0x13 by {
      assert r2.lcdStatus & 0xFB == r1.lcdStatus & 0xFB;
    }
  }

  /**
   * During V-Blank, before the frame total, LY advances when the V-Blank
   * counter passes a line, and line 154 wraps LY to 0 and takes one frame
   * off the cycle counter; no mode changes and V-Blank is not requested
   * again.
   */
  lemma VBlankLines(r: Regs, increment: nat)
    requires Has(r.lcdControl, LCD_DISPLAY)
    requires VBLANK_START <= NextCycles(r, increment) < CYCLES_PER_FRAME
    requires ModeOf(r) == VBlank
    ensures var vb := Wrap32(r.vblankCycles + increment);
      var r' := Cycled(r, increment).0;
      && ModeOf(r') == VBlank
      && (vb < LINE_CYCLES ==> r'.currentY == r.currentY && r'.vblankCycles == vb)
      && (vb >= LINE_CYCLES ==> r'.vblankCycles == vb - LINE_CYCLES)
      && (vb >= LINE_CYCLES && r.currentY != 154 ==> r'.currentY == (r.currentY + 1) % 256)
      && (vb >= LINE_CYCLES && r.currentY == 154 ==>
           r'.currentY == 0 && r'.currentCycles == Wrap32(NextCycles(r, increment) - CYCLES_PER_FRAME))
    ensures Cycled(r, increment).1.Some? ==> Cycled(r, increment).1.value == Interrupts.FLAG_LCD
  {
    var r0 := r.(currentCycles := NextCycles(r, increment));
    var vb := Wrap32(r0.vblankCycles + increment);
    if vb >= LINE_CYCLES {
      var r1 := r0.(vblankCycles := vb - LINE_CYCLES);
      if r1.currentY == 154 {
        LyLycCompareSpec(r1.(currentCycles := Wrap32(r1.currentCycles - CYCLES_PER_FRAME), currentY := 0), 0);
      } else {
        LyLycCompareSpec(r1.(currentY := (r1.currentY + 1) % 256), 0);
      }
    }
  }

  /** Past the frame total LY restarts at 0 and the cycle counter drops by one frame. */
  lemma FrameEnd(r: Regs, increment: nat)
    requires Has(r.lcdControl, LCD_DISPLAY)
    requires NextCycles(r, increment) >= CYCLES_PER_FRAME
    requires ModeOf(r) == VBlank
    ensures Cycled(r, increment).0.currentY == 0
    ensures Cycled(r, increment).0.currentCycles == NextCycles(r, increment) - CYCLES_PER_FRAME
    ensures ModeOf(Cycled(r, increment).0) == VBlank
  {
    LyLycCompareSpec(r.(currentCycles := NextCycles(r, increment) - CYCLES_PER_FRAME, currentY := 0), 0);
  }

  /**
   * STAT bits 3-7 (the interrupt enables) are kept and the coincidence flag
   * is not cleared.
   */
  predicate StatKept(before: Byte, after: Byte)
  {
    after & 0xF8 == before & 0xF8 && (Has(before, COINCIDENCE_FLAG) ==> Has(after, COINCIDENCE_FLAG))
  }

  lemma StatKeptTrans(a: Byte, b: Byte, c: Byte)
    requires StatKept(a, b) && StatKept(b, c)
    ensures StatKept(a, c)
  {
  }

  lemma WithModeKeeps(bits: Byte, m: Mode)
    ensures StatKept(bits, WithMode(bits, m))
  {
    WithModeSpec(bits, m);
  }

  lemma CompareKeeps(r: Regs, pending: Byte)
    ensures StatKept(r.lcdStatus, LyLycCompare(r, pending).0.lcdStatus)
  {
    LyLycCompareSpec(r, pending);
  }

  lemma VisibleStepKeeps(r: Regs)
    ensures StatKept(r.lcdStatus, VisibleStep(r).0.lcdStatus)
  {
    var target := LineMode(r.currentCycles % LINE_CYCLES);
    if ModeOf(r) != target {
      if target == OamSearch {
        var r1 := if ModeOf(r) != VBlank then LyLycCompare(r, 0).0 else r;
        CompareKeeps(r, 0);
        WithModeKeeps(r1.lcdStatus, OamSearch);
        StatKeptTrans(r.lcdStatus, r1.lcdStatus, WithMode(r1.lcdStatus, OamSearch));
      } else if target == LcdTransfer {
        WithModeKeeps(r.lcdStatus, LcdTransfer);
      } else {
        WithModeKeeps(r.lcdStatus, HBlank);
      }
    }
  }

  lemma VBlankStepKeeps(r: Regs, increment: nat)
    requires r.currentCycles >= VBLANK_START
    ensures StatKept(r.lcdStatus, VBlankStep(r, increment).0.lcdStatus)
  {
    if ModeOf(r) != VBlank {
      var r1 := r.(lcdStatus := WithMode(r.lcdStatus, VBlank));
      WithModeKeeps(r.lcdStatus, VBlank);
      CompareKeeps(r1, 0);
      StatKeptTrans(r.lcdStatus, r1.lcdStatus, LyLycCompare(r1, 0).0.lcdStatus);
    } else if r.currentCycles < CYCLES_PER_FRAME {
      var vb := Wrap32(r.vblankCycles + increment);
      if vb >= LINE_CYCLES {
        var r1 := r.(vblankCycles := vb - LINE_CYCLES);
        if r1.currentY == 154 {
          CompareKeeps(r1.(currentCycles := Wrap32(r1.currentCycles - CYCLES_PER_FRAME), currentY := 0), 0);
        } else {
          CompareKeeps(r1.(currentY := (r1.currentY + 1) % 256), 0);
        }
      }
    } else {
      CompareKeeps(r.(currentCycles := r.currentCycles - CYCLES_PER_FRAME, currentY := 0), 0);
    }
  }

  /**
   * No cycle clears the coincidence flag or touches STAT bits 3-7 (the
   * interrupt enables): only the mode bits and the coincidence flag change.
   */
  lemma StatEnablesKept(r: Regs, increment: nat)
    ensures Cycled(r, increment).0.lcdStatus & 0xF8 == r.lcdStatus & 0xF8
    ensures Has(r.lcdStatus, COINCIDENCE_FLAG) ==> Has(Cycled(r, increment).0.lcdStatus, COINCIDENCE_FLAG)
  {
    var r0 := r.(currentCycles := NextCycles(r, increment));
    if Has(r0.lcdControl, LCD_DISPLAY) {
      if r0.currentCycles < VBLANK_START {
        VisibleStepKeeps(r0);
      } else {
        VBlankStepKeeps(r0, increment);
      }
    }
  }

  // ---------------------------------------------------------------------------
  // Pixels
  // ---------------------------------------------------------------------------

  /**
   * `get_pixel_colour`'s colour number: bit `bitOffset` of the low plane is
   * bit 0 and the same bit of the high plane is bit 1.
   */
  function PixelValue(bitOffset: nat, top: Byte, bottom: Byte): (v: nat)
    requires bitOffset < 8
  {
    var bit1 := (top & ((1 as Byte) << bitOffset)) >> bitOffset;
    var bit2 := (bottom & ((1 as Byte) << bitOffset)) >> bitOffset;
    (bit1 | (bit2 << 1)) as nat
  }

  /** The colour number is below 4 and is built from the two planes' bits. */
  lemma PixelValueSpec(bitOffset: nat, top: Byte, bottom: Byte)
    requires bitOffset < 8
    ensures PixelValue(bitOffset, top, bottom) < 4
    ensures PixelValue(bitOffset, top, bottom) % 2 == (if (top >> bitOffset) & 1 == 1 then 1 else 0)
    ensures PixelValue(bitOffset, top, bottom) / 2 == (if (bottom >> bitOffset) & 1 == 1 then 1 else 0)
  {
    var bit1 := (top & ((1 as Byte) << bitOffset)) >> bitOffset;
    var bit2 := (bottom & ((1 as Byte) << bitOffset)) >> bitOffset;
    assert bit1 == (top >> bitOffset) & 1 && bit2 == (bottom >> bitOffset) & 1 by {
      if bitOffset < 4 {
        if bitOffset < 2 { if bitOffset == 0 {} else {} } else { if bitOffset == 2 {} else {} }
      } else {
        if bitOffset < 6 { if bitOffset == 4 {} else {} } else { if bitOffset == 6 {} else {} }
      }
    }
    assert (bit1 | (bit2 << 1)) == bit1 + 2 * bit2 by {
      if bit1 == 0 { if bit2 == 0 {} else {} } else { if bit2 == 0 {} else {} }
    }
  }

  /** `get_pixel_colour`: the colour number looked up in the palette. */
  function GetPixelColour(bitOffset: nat, top: Byte, bottom: Byte, palette: DmgPalette.PaletteReg): DmgPalette.DmgColor
    requires bitOffset < 8
  {
    PixelValueSpec(bitOffset, top, bottom);
    DmgPalette.ColorN(palette, PixelValue(bitOffset, top, bottom))
  }

  /** How many leading pixels of a tile `x_remainder` skips. */
  function Skipped(xRemainder: int): (n: nat)
    ensures n <= 8
  {
    if xRemainder <= 0 then 0 else if xRemainder >= 8 then 8 else xRemainder
  }

  /**
   * How many of the first `k` pixels of a tile `bg_window_render_pixels`
   * writes: none once the line is full, otherwise those past the skipped
   * ones, up to the end of the line.
   */
  function DrawnAfter(pixelCounter: nat, xRemainder: int, k: nat): (n: nat)
    ensures n <= k
    ensures pixelCounter <= 160 ==> pixelCounter + n <= 160
  {
    if pixelCounter > 159 then 0
    else
      var past := if k <= Skipped(xRemainder) then 0 else k - Skipped(xRemainder);
      if past <= 160 - pixelCounter then past else 160 - pixelCounter
  }

  /** The tile's bit (7 is the leftmost pixel) that lands on screen column `p`. */
  function TileBitAt(pixelCounter: nat, xRemainder: int, p: int): int
  {
    7 - Skipped(xRemainder) - (p - pixelCounter)
  }

  /** The counters after a whole tile. */
  lemma RenderCounters(pixelCounter: nat, xRemainder: int)
    ensures DrawnAfter(pixelCounter, xRemainder, 8) <= 8 - Skipped(xRemainder)
    ensures pixelCounter <= 159 && pixelCounter + 8 - Skipped(xRemainder) <= 160 ==>
      DrawnAfter(pixelCounter, xRemainder, 8) == 8 - Skipped(xRemainder)
    ensures pixelCounter > 159 ==> DrawnAfter(pixelCounter, xRemainder, 8) == 0
  {
  }

  // ---------------------------------------------------------------------------
  // Background and window tile walks
  // ---------------------------------------------------------------------------

  /** `draw_bg_scanline` walks 20 tiles, or 21 when SCX is not tile aligned. */
  function BgTileCount(scrollX: U8): nat
  {
    if scrollX % 8 != 0 then 21 else 20
  }

  /**
   * The pixel counter when `draw_bg_scanline` reaches its k-th tile: the
   * first tile draws 8 - SCX % 8 pixels, every later one 8, up to the line
   * end.
   */
  function BgPixelsBefore(scrollX: U8, k: nat): nat
  {
    if k == 0 then 0
    else if 8 * k - scrollX % 8 <= 160 then 8 * k - scrollX % 8
    else 160
  }

  /** `x_remainder` when the k-th tile is reached: SCX % 8 for the first tile, 0 after. */
  function BgRemainderBefore(scrollX: U8, k: nat): int
  {
    if k == 0 then scrollX % 8 else 0
  }

  /**
   * The tile map index `draw_bg_scanline` reads for its k-th tile, given the
   * background line `LY + SCY` and the pixel counter: one tile row of 32
   * entries per 8 lines, SCX / 8 columns in, pulled back a row once the
   * walk passes x = 255, and reduced modulo the map size.
   */
  function BgMapIndex(scrollX: U8, scanline: U8, k: nat, pixelCounter: nat): int
  {
    var lowerBound := (scanline / 8) * 32 + scrollX / 8;
    var i := lowerBound + k;
    (if scrollX + pixelCounter > 255 then i - 32 else i) % 1024
  }

  /**
   * The renderer's counters agree with the walk: each tile advances the
   * pixel counter as `BgPixelsBefore` says, and the whole walk fills the 160
   * columns exactly.
   */
  lemma BgPixelsAdvance(scrollX: U8, k: nat)
    requires k < BgTileCount(scrollX)
    ensures var pc := BgPixelsBefore(scrollX, k);
      var xr := BgRemainderBefore(scrollX, k);
      && pc + DrawnAfter(pc, xr, 8) == BgPixelsBefore(scrollX, k + 1)
      && (k + 1 < BgTileCount(scrollX) ==> xr - (8 - DrawnAfter(pc, xr, 8)) == BgRemainderBefore(scrollX, k + 1))
    ensures BgPixelsBefore(scrollX, BgTileCount(scrollX)) == RESOLUTION_WIDTH
  {
  }

  /**
   * The wrap-around correction is exact: the k-th tile read is column
   * (SCX / 8 + k) mod 32 of the background line's tile row, so the walk
   * stays on one row of the 32 x 32 map and never leaves it.
   */
  lemma BgColumnWraps(scrollX: U8, scanline: U8, k: nat)
    requires k < BgTileCount(scrollX)
    ensures BgMapIndex(scrollX, scanline, k, BgPixelsBefore(scrollX, k)) == (scanline / 8) * 32 + (scrollX / 8 + k) % 32
  {
    var r := scrollX % 8;
    var c := scrollX / 8 + k;
    assert scrollX == 8 * (scrollX / 8) + r;
    if k > 0 {
      assert BgPixelsBefore(scrollX, k) == 8 * k - r;
      assert scrollX + BgPixelsBefore(scrollX, k) == 8 * c;
    }
    assert scrollX + BgPixelsBefore(scrollX, k) > 255 <==> c >= 32;
    assert c < 64;
    assert (scanline / 8) * 32 + (c % 32) < 1024;
  }

  /**
   * `draw_window_scanline`'s start as written: the pixel counter at
   * WX - 7 and `x_remainder` = (WX - 7) % 8.
   */
  function WindowStartAsWritten(windowX: U8): (start: (int, int))
  {
    var wx := (windowX - 7) % 256;
    (wx, wx % 8)
  }

  /**
   * The window start with no skipped pixels, as the CGB renderer has it:
   * the window's first column lands on WX - 7.
   */
  function WindowStart(windowX: U8): (start: (int, int))
  {
    ((windowX - 7) % 256, 0)
  }

  /** `div_ceil(160 - (WX - 7), 8)`: the window tiles `draw_window_scanline` walks. */
  function WindowTileCount(windowX: U8): nat
    requires (windowX - 7) % 256 < 160
  {
    (160 - (windowX - 7) % 256 + 7) / 8
  }

  /**
   * With the corrected start the first pixel drawn, at column WX - 7, is
   * the leftmost pixel (bit 7) of the window's first tile, that tile is
   * drawn whole unless the line ends, and the tiles walked reach the end of
   * the line.
   */
  lemma WindowStartSpec(windowX: U8)
    requires (windowX - 7) % 256 < 160
    ensures var (pc, xr) := WindowStart(windowX);
      && pc == (windowX - 7) % 256
      && TileBitAt(pc, xr, pc) == 7
      && DrawnAfter(pc, xr, 8) == (if pc + 8 <= 160 then 8 else 160 - pc)
      && pc + 8 * WindowTileCount(windowX) >= 160
  {
  }

  /**
   * The as-written start skips pixels of the first window tile: with WX = 10
   * the window starts at column 3 but shows its tile column 3 there (bit 4),
   * and only 5 pixels of the first tile are drawn; the corrected start shows
   * column 0 (bit 7) at column 3.
   */
  lemma WindowStartAsWrittenSkips()
    ensures WindowStartAsWritten(10) == (3, 3)
    ensures TileBitAt(3, 3, 3) == 4 && DrawnAfter(3, 3, 8) == 5
    ensures WindowStart(10) == (3, 0) && TileBitAt(3, 0, 3) == 7
  {
  }

  /**
   * The part of the PPU `do_cycle` changes in place, and the scanline buffer
   * the renderer fills.
   */
  class PPU {
    var lcdControl: Byte
    var lcdStatus: Byte
    var compareLine: U8
    var currentY: U8
    var scrollX: U8
    var scrollY: U8
    var windowX: U8
    var windowY: U8
    var windowCounter: U8
    var currentCycles: nat
    var vblankCycles: nat
    var bgWindowPalette: DmgPalette.PaletteReg
    const scanlineBuffer: array<DmgPalette.DmgColor>

    /** The registers as the specification functions see them. */
    function State(): Regs
      reads this
    {
      Regs(lcdControl, lcdStatus, compareLine, currentY, windowX, windowY, windowCounter, currentCycles, vblankCycles)
    }

    /** `PPU::new`: LCDC 0x93, everything else zero, the scanline white. */
    constructor ()
      ensures State() == Regs(0x93, 0, 0, 0, 0, 0, 0, 0, 0)
      ensures scrollX == 0 && scrollY == 0 && bgWindowPalette == DmgPalette.PaletteReg(0xE4)
      ensures fresh(scanlineBuffer) && scanlineBuffer.Length == RESOLUTION_WIDTH
      ensures forall i :: 0 <= i < scanlineBuffer.Length ==> scanlineBuffer[i] == DmgPalette.White
    {
      lcdControl, lcdStatus, compareLine, currentY := 0x93, 0, 0, 0;
      scrollX, scrollY, windowX, windowY, windowCounter := 0, 0, 0, 0, 0;
      currentCycles, vblankCycles := 0, 0;
      bgWindowPalette := DmgPalette.PaletteReg(0xE4);
      scanlineBuffer := new DmgPalette.DmgColor[RESOLUTION_WIDTH](_ => DmgPalette.White);
    }

    /** `do_cycle`: advances the mode machine by `cpuClockIncrement` cycles. */
    method DoCycle(cpuClockIncrement: nat) returns (r: Option<Byte>)
      modifies this
      ensures State() == Cycled(old(State()), cpuClockIncrement).0
      ensures r == Cycled(old(State()), cpuClockIncrement).1
      ensures unchanged(this`scrollX) && unchanged(this`scrollY) && unchanged(this`bgWindowPalette)
    {
      currentCycles := (currentCycles + cpuClockIncrement) % U32;
      if lcdControl & LCD_DISPLAY != LCD_DISPLAY {
        return None;
      }
      var pending: Byte;
      if currentCycles < 65664 {
        pending := VisibleLine();
      } else {
        pending := VBlankPeriod(cpuClockIncrement);
      }
      r := if pending != 0 then Some(pending) else None;
    }

    /** The visible-lines branch of `do_cycle`: at most one mode entry. */
    method VisibleLine() returns (pending: Byte)
      modifies this`lcdStatus, this`windowCounter, this`currentY
      ensures (State(), pending) == VisibleStep(old(State()))
    {
      pending := 0;
      var localCycles := currentCycles % 456;
      if localCycles < 80 {
        if ModeFlag(lcdStatus) != OamSearch {
          if ModeFlag(lcdStatus) != VBlank {
            pending := CompareLine(pending);
          }
          lcdStatus := WithMode(lcdStatus, OamSearch);
          if lcdStatus & MODE_2_OAM_INTERRUPT == MODE_2_OAM_INTERRUPT {
            pending := pending | Interrupts.FLAG_LCD;
          }
        }
      } else if localCycles < 252 {
        if ModeFlag(lcdStatus) != LcdTransfer {
          lcdStatus := WithMode(lcdStatus, LcdTransfer);
          DrawScanlineCounters();
        }
      } else {
        if ModeFlag(lcdStatus) != HBlank {
          lcdStatus := WithMode(lcdStatus, HBlank);
          if lcdStatus & MODE_0_H_INTERRUPT == MODE_0_H_INTERRUPT {
            pending := pending | Interrupts.FLAG_LCD;
          }
        }
      }
    }

    /** The V-Blank branch of `do_cycle`. */
    method VBlankPeriod(cpuClockIncrement: nat) returns (pending: Byte)
      requires currentCycles >= VBLANK_START
      modifies this`lcdStatus, this`vblankCycles, this`windowCounter, this`currentCycles, this`currentY
      ensures (State(), pending) == VBlankStep(old(State()), cpuClockIncrement)
    {
      pending := 0;
      if ModeFlag(lcdStatus) != VBlank {
        lcdStatus := WithMode(lcdStatus, VBlank);
        pending := CompareLine(pending);
        vblankCycles := currentCycles - 65664;
        windowCounter := 0;
        if lcdStatus & MODE_1_V_INTERRUPT == MODE_1_V_INTERRUPT {
          pending := pending | Interrupts.FLAG_LCD;
        }
        pending := pending | Interrupts.FLAG_VBLANK;
      } else if currentCycles < CYCLES_PER_FRAME {
        vblankCycles := (vblankCycles + cpuClockIncrement) % U32;
        if vblankCycles >= 456 {
          vblankCycles := vblankCycles - 456;
          if currentY == 154 {
            currentCycles := (currentCycles - CYCLES_PER_FRAME) % U32;
            currentY := 0;
            pending := CompareLine(pending);
          } else {
            currentY := (currentY + 1) % 256;
            pending := CompareLine(pending);
          }
        }
      } else {
        currentCycles := currentCycles - CYCLES_PER_FRAME;
        currentY := 0;
        pending := CompareLine(pending);
      }
    }

    /** `ly_lyc_compare` on the fields. */
    method CompareLine(pending: Byte) returns (p: Byte)
      modifies this`lcdStatus
      ensures (State(), p) == LyLycCompare(old(State()), pending)
    {
      p := pending;
      if currentY == compareLine {
        lcdStatus := lcdStatus | COINCIDENCE_FLAG;
        if lcdStatus & COINCIDENCE_INTERRUPT == COINCIDENCE_INTERRUPT {
          p := p | Interrupts.FLAG_LCD;
        }
      }
    }

    /**
     * The counters `draw_scanline` advances: the window line counter (in
     * `draw_window_scanline`) and LY.
     */
    method DrawScanlineCounters()
      modifies this`windowCounter, this`currentY
      ensures State() == DrawScanline(old(State()))
    {
      if lcdControl & BG_WINDOW_PRIORITY == BG_WINDOW_PRIORITY && lcdControl & WINDOW_DISPLAY == WINDOW_DISPLAY {
        var wx := (windowX - 7) % 256;
        if !(currentY < windowY || wx >= 160) {
          windowCounter := (windowCounter + 1) % 256;
        }
      }
      currentY := (currentY + 1) % 256;
    }

    /**
     * `bg_window_render_pixels`: writes a tile's row, leftmost pixel (bit 7)
     * first, at `pixelCounter` onwards, after skipping `xRemainder` pixels,
     * and never past column 159.
     */
    method BgWindowRenderPixels(pixelCounter: nat, xRemainder: int, top: Byte, bottom: Byte)
      returns (pixelCounter': nat, xRemainder': int)
      requires scanlineBuffer.Length == RESOLUTION_WIDTH
      modifies scanlineBuffer
      ensures pixelCounter' == pixelCounter + DrawnAfter(pixelCounter, xRemainder, 8)
      ensures xRemainder' == xRemainder - (8 - DrawnAfter(pixelCounter, xRemainder, 8))
      ensures forall p :: pixelCounter <= p < pixelCounter' ==>
        0 <= TileBitAt(pixelCounter, xRemainder, p) < 8 &&
        scanlineBuffer[p] == GetPixelColour(TileBitAt(pixelCounter, xRemainder, p), top, bottom, bgWindowPalette)
      ensures forall p :: 0 <= p < scanlineBuffer.Length && !(pixelCounter <= p < pixelCounter') ==>
        scanlineBuffer[p] == old(scanlineBuffer[p])
    {
      pixelCounter', xRemainder' := pixelCounter, xRemainder;
      var j := 8;
      while j > 0
        invariant 0 <= j <= 8
        invariant pixelCounter' == pixelCounter + DrawnAfter(pixelCounter, xRemainder, 8 - j)
        invariant xRemainder' == xRemainder - (8 - j - DrawnAfter(pixelCounter, xRemainder, 8 - j))
        invariant forall p :: pixelCounter <= p < pixelCounter' ==>
          0 <= TileBitAt(pixelCounter, xRemainder, p) < 8 &&
          scanlineBuffer[p] == GetPixelColour(TileBitAt(pixelCounter, xRemainder, p), top, bottom, bgWindowPalette)
        invariant forall p :: 0 <= p < scanlineBuffer.Length && !(pixelCounter <= p < pixelCounter') ==>
          scanlineBuffer[p] == old(scanlineBuffer[p])
      {
        j := j - 1;
        if xRemainder' > 0 || pixelCounter' > 159 {
          xRemainder' := xRemainder' - 1;
          continue;
        }
        scanlineBuffer[pixelCounter'] := GetPixelColour(j, top, bottom, bgWindowPalette);
        pixelCounter' := pixelCounter' + 1;
      }
    }
  }
}
