# Rustyboi core in Dafny

A verified model of the emulation core of Rustyboi, a Game Boy (DMG) and
Game Boy Color (CGB) emulator written in Rust. The model covers the CPU,
the interrupt controller, the timer, the memory bus with its RAM banks, DMA
and event scheduler, the PPU's mode machine, register file and scanline
renderers, the joypad, the cartridge header and bank controllers, and the
integer state machines of the APU. Each Rust source file is a Dafny module
of its own. Where the repository's own files disagree (two
`registers.rs`, two versions of the bus), each file is modelled on its own
terms, and a component a file only calls is a parameter of its model.

Rust's `u8` and `u16` are `bv8` and `bv16` (module `Bits`), so wrapping
arithmetic is exact; counters and positions that the source keeps in wider
integers are `nat` or `int`, with explicit wrap-around where the source
wraps. A panic of the source (an index out of range, an `unimplemented!`,
an unreachable match arm) is a `None` or a `false` result where it can
happen, and a proof that it cannot happen where it cannot.

Code that changes state step by step is a class whose fields are the
struct's fields, and every method is proved to leave exactly the state
that a pure specification function computes from the old state. The
properties are proved about those functions. This holds for:

- the CPU (`Cpu.Cpu` against `CpuSpec`);
- the timer (`Timer.TimerRegisters`);
- the interrupt module;
- both register files;
- the bus (`MemoryBus.Memory` against `Mmu`, and `FlatMmu.Memory`);
- the scheduler;
- the RAM banks;
- the PPU (`PpuMemory.PPU`);
- the CGB renderer (`CgbPpu.CgbRenderer`);
- the joypad;
- the MBCs;
- the APU voices.

Pure code, such as the decoders, the ALU, the header parser, the palettes
and the timing arithmetic, is datatypes, functions and lemmas.

The main results:

- **CPU.**
  - Every instruction's flags are stated exactly: ADD/ADC/SUB/SBC/CP, INC/DEC, DAA on BCD sums, the rotates and shifts, BIT/SET/RES.
  - Push and pop are inverses, and a CALL followed by RET returns to the next instruction.
  - EI takes effect one step late and DI clears IME at once.
  - The interrupt dispatch fires exactly the highest-priority request that is both pending and enabled. It clears only that request and saves PC on the stack.
  - The opcode tables panic exactly on STOP and the eleven unused opcodes.
- **Timer.**
  - DIV is the high byte of the system clock.
  - TIMA counts falling edges of the selected clock bit.
  - An overflow reloads TMA one M-cycle later with exactly one TIMER interrupt.
  - The write rules hold during the overflow window.
- **Bus.**
  - The address decoding is total.
  - Echo RAM mirrors work RAM, and every RAM reads back what was written.
  - The scheduler loop of `tick_scheduler` terminates: each handled event lowers a weight of the queue.
  - The loop leaves the state that handling the due events in timestamp order gives.
  - OAM DMA, the GDMA copy (`gdma_transfer`) and HDMA copy exactly the gathered bytes.
  - An LCDC write that switches the LCD off removes the PPU's events from the queue, and one that switches it on schedules an LCD transfer 76 cycles ahead, as the PPU model's own `set_lcd_control` does.
- **PPU.**
  - The mode machine enters each mode once per line.
  - The STAT interrupt line raises LCD only on a rising edge. The LY/LYC compare sets the coincidence flag and requests LCD on every compare where LY equals LYC and the interrupt is enabled, with no edge test, as `ly_lyc_compare` does.
  - VRAM and OAM are blocked in the right modes.
  - The CGB background, window and sprite walks draw exactly a reference definition of the tile map's pixels, including the pixel skip, the x wrap-around and the 8-pixel fast path.
- **Cartridge.**
  - The header fields are the bytes at their offsets, and the title is UTF-8 with the NUL padding trimmed.
  - MBC1 and MBC3 bank selection and RAM gating are modelled.
- **APU.**
  - The envelope keeps the volume in 0..15, and its register round-trips.
  - The LFSR stays within 15 bits.
  - Wave RAM nibble packing round-trips.
  - The frame sequencer clocks length, sweep and envelope on the documented steps.
  - NR50 and NR51 read back what was written. NR52 reads the master enable and the voices' status bits, and while sound is off it blocks writes to the other registers, except that on DMG the length registers NR41 (0xFF20) and NR31 (0xFF1B) still take writes (`Apu.WriteBlocked`).

Nine places where the source does not do what its comments or its other
half say are listed under "## Findings". Each has the as-written
behaviour, an input that exhibits it, and the corrected definition that
the rest of the model uses.

## Model

| member | source | states |
|---|---|---|
| Alu.RotateSpec | core/src/hardware/cpu/alu.rs:12-72 | `rotate_left` moves every bit up one place and bit 7 round to bit 0 and into C; `rotate_right` is its inverse and moves bit 0 into C. |
| Alu.RotateCarrySpec | core/src/hardware/cpu/alu.rs:29-89 | Rotating through the carry treats C as a ninth bit: the old C enters bit 0 (left) or bit 7 (right), the bit shifted out becomes C, and rotating back restores both the byte and C. |
| Alu.ShiftSpec | core/src/hardware/cpu/alu.rs:44-104 | `shift_left` doubles modulo 256 with bit 7 into C and bit 0 cleared; `shift_right` halves with bit 0 into C and bit 7 cleared. |
| Alu.ShiftRightArithmeticSpec | core/src/hardware/cpu/mod.rs:739-753 | `sra` keeps bit 7 and moves bit 0 into C: it halves the signed value, rounding down. |
| Alu.SwapSpec | core/src/hardware/cpu/mod.rs:759-773 | `swap` is an involution that clears N, H and C and sets Z exactly for 0. |
| Alu.AdcSpec | core/src/hardware/cpu/mod.rs:377-391 | Addition with carry in is exact as a nine-bit sum: the result plus 0x100 for C equals A + v + carry; H is the carry into bit 4, which is bit 4 of A XOR v XOR the result. |
| Alu.AdcWithoutCarry | core/src/hardware/cpu/mod.rs:356-391 | Without a carry in, ADC is ADD. |
| Alu.SbcSpec | core/src/hardware/cpu/mod.rs:413-427 | Subtraction with borrow in: the result plus v plus the borrow gives A back, C is set exactly when v (plus the borrow) exceeds A, and H is the borrow into bit 4 (bit 4 of A XOR v XOR the result, while the source reads bit 4 of the wrapped nibble difference). |
| Alu.SbcWithoutCarry | core/src/hardware/cpu/mod.rs:396-427 | Without a borrow in, SBC is SUB. |
| Alu.CompareIsSubFlags | core/src/hardware/cpu/mod.rs:478-488 | CP sets exactly the flags SUB sets. |
| Alu.AddSubRoundTrip | core/src/hardware/cpu/mod.rs:356-408 | Subtracting what was added gives A back, and the borrow then mirrors the carry. |
| Alu.LogicSpec | core/src/hardware/cpu/mod.rs:432-472 | AND sets H; AND, XOR and OR clear C and N and set Z exactly for a zero result. |
| Alu.IncDecSpec | core/src/hardware/cpu/mod.rs:161-227 | INC and DEC undo each other, keep C, and set H from the low nibble. |
| Alu.BcdAddSpec | core/src/hardware/cpu/mod.rs:294-316 | The column addition `BcdAdd` that DAA is checked against is decimal addition: BCD digits, the sum modulo 100, the carry exactly past 99 |
| Alu.DaaAfterAdd | core/src/hardware/cpu/mod.rs:294-316 | ADD followed by DAA is BCD addition: for BCD operands the corrected A is the column sum of `BcdAdd`, hence (`BcdAddSpec`) the BCD form of the decimal sum modulo 100. |
| Alu.DaaCarryAfterAdd | core/src/hardware/cpu/mod.rs:294-316 | After ADD of BCD operands, DAA sets C exactly when the decimal sum carries out. |
| Alu.Add16Spec | core/src/hardware/cpu/mod.rs:198-209 | The sixteen-bit addition is an eight-bit ADD of the low bytes followed by an ADC of the high bytes: the low byte of the result is the ADD result, the high byte is the sum of the high bytes and the low carry, C is the carry out of that ADC, and H is its nibble carry (out of bit 11). |
| Alu.SignExtendSpec | core/src/hardware/cpu/mod.rs:599-601 | The sign-extended offset stands for the same signed number as the offset byte. |
| Alu.AddSignedSpec | core/src/hardware/cpu/mod.rs:599-612 | SP moves by the sign-extended offset, while C and H are the carry and nibble carry of the eight-bit ADD of the low byte of SP and the offset byte. |
| Apu.SetBit | core/src/hardware/apu/mod.rs:402-406 | `set_bit`: sets bit `bit` when `on` holds, and never changes any other bit. |
| Apu.BitsDecideByte | core/src/hardware/apu/mod.rs:408-411 | Two bytes are equal exactly when they agree on every bit `test_bit` can name. |
| Apu.NoLengthTickNextStepSpec | core/src/hardware/apu/mod.rs:393-396 | The steps without a length clock are exactly the odd steps of the sequence. |
| Apu.Schedule | core/src/hardware/apu/mod.rs:135-144 | The ticks of `n` steps starting at `step`, the step advancing modulo 8. |
| Apu.WindowShift | core/src/hardware/apu/mod.rs:135-144 | Moving the window of eight steps on by one step drops a step and appends the same one. |
| Apu.FrameSequencerRates | core/src/hardware/apu/mod.rs:130-149 | Over any eight consecutive steps, wherever they start, the length counters are clocked four times (256 Hz), the sweep twice (128 Hz) and the envelopes once (64 Hz). |
| Apu.Nr50RoundTrip | core/src/hardware/apu/mod.rs:195-260 | NR50 reads back every byte written to it, and the volumes stay within 0..7. |
| Apu.Nr51Bits | core/src/hardware/apu/mod.rs:201-268 | NR51 names voice `i` on the right by bit `i` and on the left by bit `i + 4`. |
| Apu.Nr51RoundTrip | core/src/hardware/apu/mod.rs:201-268 | NR51 reads back every byte written to it. |
| Apu.Nr52Spec | core/src/hardware/apu/mod.rs:211-219 | An NR52 read has bits 4-6 set, bit 7 the global sound enable and bit i the triggered flag of voice i |
| Apu.WriteNr52Spec | core/src/hardware/apu/mod.rs:268-279 | An NR52 write switches the sound as bit 7 says: off clears NR50, NR51 and the sequencer step; off to on restarts the sequencer at step 0 from the current time; on to on changes nothing |
| Apu.Route | core/src/hardware/apu/mod.rs:185-223 | The `match` arms of `read_register` and `write_register`; `None` for the unreachable arm. |
| Apu.RouteVoices | core/src/hardware/apu/mod.rs:190-193 | Every voice owns five consecutive registers starting at 0x10. |
| Apu.SoundOffWritesIgnored | core/src/hardware/apu/mod.rs:225-249 | While the sound is off, writes reach no control register but NR52. |
| Apu.APU.constructor | core/src/hardware/apu/mod.rs:53-73 | `APU::new`: every register, channel and sequencer field at its power-on value `INITIAL`, with the APU's invariant. |
| Apu.APU.TickFrameSequencer | core/src/hardware/apu/mod.rs:130-149 | `tick_frame_sequencer`: one step for every whole 8192 cycles since the last step, the elapsed time first divided by `2^speed`. The ticks of each step are returned for the voices. |
| Apu.APU.ReadNr50 | core/src/hardware/apu/mod.rs:195-200 | The NR50 read. |
| Apu.APU.ReadNr51 | core/src/hardware/apu/mod.rs:201-210 | The NR51 read: the two loops over the enable arrays. |
| Apu.APU.ReadNr52 | core/src/hardware/apu/mod.rs:211-219 | The NR52 read, given the voices' `triggered` flags. |
| Apu.APU.Reset | core/src/hardware/apu/mod.rs:340-352 | `reset` of the control registers. |
| Apu.APU.WriteRegister | core/src/hardware/apu/mod.rs:225-286 | `write_register` for the APU's own registers; a write to a voice register passes the gate here and is then the voice's. |
| Apu.APU.SetNr50 | core/src/hardware/apu/mod.rs:254-259 | The object's control registers become `WriteNr50` of the old ones: the VIN bits and both volumes taken from the value |
| Apu.APU.SetNr51 | core/src/hardware/apu/mod.rs:260-267 | The voice enables become `WriteNr51` of the value: right from bits 0-3, left from bits 4-7 |
| Apu.APU.SetNr52 | core/src/hardware/apu/mod.rs:268-279 | The control registers become `WriteNr52` of the old ones (see WriteNr52Spec) |
| Apu.SequencerCaughtUp | core/src/hardware/apu/mod.rs:131-148 | The loop's exit: when fewer than 8192 scaled cycles are left after `k` steps, `k` is the number of steps due and the new time of the last step is fewer than 8192 scaled cycles behind. |
| BootRom.New | core/src/io/bootrom.rs:14-25 | `BootRom::new`: with an image the ROM still has to run and holds the image; without one it counts as finished and holds zeros. |
| BootRom.ReadNew | core/src/io/bootrom.rs:14-29 | Reading an image-built ROM returns the image byte. |
| BusRouting.ReadSource | core/src/hardware/mmu/mod.rs:176-198 | `read_byte` (mod.rs:176-198): the first arm whose range holds the address. `None` is the final panic arm, which no address reaches. |
| BusRouting.IoSource | core/src/hardware/mmu/mod.rs:222-275 | `read_io_byte` (mod.rs:222-275) for an address of the I/O window. |
| BusRouting.WriteTarget | core/src/hardware/mmu/mod.rs:200-219 | `write_byte` (mod.rs:200-219). `None` is the final panic arm, which no address reaches. |
| BusRouting.IoTarget | core/src/hardware/mmu/mod.rs:277-330 | `write_io_byte` (mod.rs:277-330) for an address of the I/O window. |
| BusRouting.ReadWriteAgree | core/src/hardware/mmu/mod.rs:176-219 | Outside the cartridge ROM and the boot overlay, a read and a write of the same address reach the same storage, except the registers that read 0xFF: HDMA1-4 always, and HDMA5 and KEY1 in DMG mode. |
| BusRouting.IoAgree | core/src/hardware/mmu/mod.rs:222-330 | In the I/O window a read and a write of an address reach the same storage exactly when the read is not one of the registers that always read 0xFF |
| CgbMem.ToggleSpec | core/src/hardware/mmu/cgb_mem.rs:25-32 | After a toggle the speed flag is flipped, bit 7 reports the new speed, bits 1-6 are kept and no switch is pending any more. |
| CgbMem.WritePrepareSpec | core/src/hardware/mmu/cgb_mem.rs:34-44 | A write keeps the speed bit and stores the low seven bits of the value. |
| CgbMem.CgbData.constructor | core/src/hardware/mmu/cgb_mem.rs:19-21 | `CgbData::new`: single speed, KEY1 = 0x7E. |
| CgbMem.CgbData.ToggleSpeed | core/src/hardware/mmu/cgb_mem.rs:25-32 | The state becomes `Toggle` of the old one: the speed flips, bit 7 of KEY1 reports it, bit 0 is cleared (see ToggleSpec) |
| CgbMem.CgbData.ReadPrepareSwitch | core/src/hardware/mmu/cgb_mem.rs:38-40 | KEY1 reads the stored register; with WritePrepareSpec a write reads back its low seven bits |
| CgbMem.CgbData.WritePrepareSwitch | core/src/hardware/mmu/cgb_mem.rs:42-44 | The state becomes `WritePrepare` of the old one: speed bit kept, low seven bits from the value (see WritePrepareSpec) |
| CgbPpu.Signed | core/src/hardware/ppu/cgb_ppu.rs:196-199 | A tile number read as `i8`. |
| CgbPpu.LineTile | core/src/hardware/ppu/cgb_ppu.rs:185-246 | The tile `draw_cgb_background_window_line` draws: the address it is given in 8000 addressing, and 256 plus the signed tile number (plus the bank) in 8800 addressing. |
| CgbPpu.RowStart | core/src/hardware/ppu/cgb_ppu.rs:201-205 | The first entry of the tile row drawn for line `lineY` of the tile, flipped vertically if asked. |
| CgbPpu.Column | core/src/hardware/ppu/cgb_ppu.rs:217-229 | The row entry shown `offset` columns from the tile's left edge: entry 7 first, or entry 0 first when the tile is flipped horizontally. |
| CgbPpu.ColumnInvolution | core/src/hardware/ppu/cgb_ppu.rs:217-229 | The column a row entry is shown at is the entry shown at that column. |
| CgbPpu.TileLineOf | core/src/hardware/ppu/cgb_ppu.rs:185-205 | Line `lineY` of the tile a map entry names, read through its attributes. |
| CgbPpu.MapTileLine | core/src/hardware/ppu/cgb_ppu.rs:51-55 | Line `lineY` of the tile at entry `index` of the 9800 or 9C00 map, its bank taken from the attribute map. |
| CgbPpu.MapColumn | core/src/hardware/ppu/cgb_ppu.rs:42-64 | Pixel `x` = 8 column + offset of a map row is entry `offset` of the tile at `index` = 32 row + column. |
| CgbPpu.Drawn | core/src/hardware/ppu/cgb_ppu.rs:229-244 | The number of columns a tile adds at `drawn` after skipping `skip` of its `m` pixels never passes the end of the 160-pixel line and never counts skipped pixels |
| CgbPpu.WalkStep | core/src/hardware/ppu/cgb_ppu.rs:208-244 | Each tile moves the walk on by one tile, and only the first tile skips pixels. |
| CgbPpu.WalkColumn | core/src/hardware/ppu/cgb_ppu.rs:208-244 | Tile `k` of the walk draws column `p` with its entry `p - start - 8 k` counted from the tile's left edge. |
| CgbPpu.WindowWalk | core/src/hardware/ppu/cgb_ppu.rs:68-102 | The window's `div_ceil(160 - (WX - 7), 8)` tiles reach the end of the line, and stay on one row of the map. |
| CgbPpu.BgWalk | core/src/hardware/ppu/cgb_ppu.rs:27-66 | The background walk starts SCX % 8 pixels left of the screen and agrees with the DMG renderer's counter. |
| CgbPpu.BgColumn | core/src/hardware/ppu/cgb_ppu.rs:42-49 | Screen column p of background tile k lies in map column (SCX / 8 + k) mod 32, at the entry `offset` of that tile. |
| CgbPpu.BgTileColumn | core/src/hardware/ppu/cgb_ppu.rs:42-65 | Where tile `k` of the background walk, map column `column` of the background line's tile row, draws column `p`, it draws the background's pixel there. |
| CgbPpu.WindowTileColumn | core/src/hardware/ppu/cgb_ppu.rs:87-101 | Where tile `k` of the window walk, map column `k` of the window line's tile row, draws column `p`, it draws the window's pixel there. |
| CgbPpu.SpriteLine | core/src/hardware/ppu/cgb_ppu.rs:129-133 | The sprite's line drawn on LY, counted from its top and flipped vertically if asked. |
| CgbPpu.SpriteTile | core/src/hardware/ppu/cgb_ppu.rs:135-149 | The sprite's tile: its number in the bank it selects; a tall sprite takes the even tile (bit 0 cleared) for its top half and the odd one (bit 0 set) for its bottom half. |
| CgbPpu.SpriteRow | core/src/hardware/ppu/cgb_ppu.rs:151-152 | `get_true_pixel_line`: the 8 entries of the sprite's row on this line. |
| CgbPpu.SpriteLineOf | core/src/hardware/ppu/cgb_ppu.rs:122-152 | The row of sprite `s` that LY crosses, as the loop sees it. |
| CgbPpu.SpriteIndexAsWrittenOutOfRange | core/src/hardware/ppu/cgb_ppu.rs:154-178 | A sprite at X = 0 (screen column -8) whose leftmost pixel is opaque makes the as-written step index the buffer at -8 when LCDC bit 0 is clear; the corrected step draws nothing there. |
| CgbPpu.SpriteIndexSpec | core/src/hardware/ppu/cgb_ppu.rs:154-178 | The corrected step only ever writes inside the line, at the column its row entry belongs to, an opaque colour; inside the line it does what the source does. |
| CgbPpu.DrawnSprites | core/src/hardware/ppu/cgb_ppu.rs:104-181 | The sprites `draw_cgb_sprite_scanline` draws: the first ten on the line in OAM order, each of them on the line. |
| CgbPpu.SpriteLines | core/src/hardware/ppu/cgb_ppu.rs:121-152 | The row each drawn sprite shows on LY, in OAM order. |
| CgbPpu.TopSprite | core/src/hardware/ppu/cgb_ppu.rs:121-179 | The index of the first row from `n` on, in OAM order, opaque on column `p`. |
| CgbPpu.SpriteCoverSpec | core/src/hardware/ppu/cgb_ppu.rs:154-178 | With LCDC bit 0 clear a sprite covers exactly the on-screen columns where it is opaque. |
| CgbPpu.LowerIndexWins | core/src/hardware/ppu/cgb_ppu.rs:119-181 | With LCDC bit 0 clear (sprites over everything), column `p` shows the first sprite in OAM order that is opaque there, and the background when none is: a lower OAM index wins, and colour 0 is transparent. |
| CgbPpu.BgPriorityHolds | core/src/hardware/ppu/cgb_ppu.rs:161-169 | With LCDC bit 0 set, a column whose background pixel is opaque and has priority over objects keeps it, whatever the sprites. |
| CgbPpu.BehindBackground | core/src/hardware/ppu/cgb_ppu.rs:161-169 | With LCDC bit 0 set, a sprite with the behind-background bit never covers an opaque background pixel. |
| CgbPpu.LineCovered | core/src/hardware/ppu/cgb_ppu.rs:12-20 | Whenever the background is skipped, the window covers the whole line, so every column is drawn; the window counter advances exactly when the window is drawn. |
| CgbPpu.CgbRenderer.DrawCgbScanline | core/src/hardware/ppu/cgb_ppu.rs:12-25 | `draw_cgb_scanline`: background, window, then sprites. |
| CgbPpu.CgbRenderer.DrawBackgroundAndWindow | core/src/hardware/ppu/cgb_ppu.rs:12-25 | The first part of `draw_cgb_scanline`: the background, then the window over it. |
| CgbPpu.CgbRenderer.DrawCgbBgScanline | core/src/hardware/ppu/cgb_ppu.rs:27-66 | Every one of the 160 columns of the line buffers becomes `BgPixel`: the pixel of the map entry and tile row that SCX and SCY select for that column |
| CgbPpu.CgbRenderer.DrawBgTile | core/src/hardware/ppu/cgb_ppu.rs:42-65 | Tile `k` = `i` - `tileLowerBound` of the background walk: map entry `i`, pulled back a row once the walk passes x = 255 and reduced modulo the map size, drawn where the walk has reached; those columns then show the background. |
| CgbPpu.CgbRenderer.DrawCgbWindowScanline | core/src/hardware/ppu/cgb_ppu.rs:68-102 | `draw_cgb_window_scanline`: when the window is triggered and WX - 7 < 160, the window counter advances and every column from max(WX - 7, 0) on shows the window; the columns left of it are kept. |
| CgbPpu.CgbRenderer.DrawWindowTile | core/src/hardware/ppu/cgb_ppu.rs:87-101 | Tile `k` = `i` - `tileLowerBound` of the window walk on window line `counter`: map entry `i` drawn where the walk has reached; those columns then show the window. |
| CgbPpu.CgbRenderer.DrawMapTile | core/src/hardware/ppu/cgb_ppu.rs:51-64 | One tile of the background or window walk: the tile number and attributes at `index` of the chosen map, drawn by `draw_cgb_background_window_line`. |
| CgbPpu.CgbRenderer.LineSpriteRows | core/src/hardware/ppu/cgb_ppu.rs:104-117 | The rows of the sprites drawn on this line, in OAM order. |
| CgbPpu.CgbRenderer.DrawCgbSpriteScanline | core/src/hardware/ppu/cgb_ppu.rs:104-181 | `draw_cgb_sprite_scanline`: the first ten sprites on the line, in OAM order, drawn last to first. |
| CgbPpu.CgbRenderer.DrawSprite | core/src/hardware/ppu/cgb_ppu.rs:104-181 | One sprite of `draw_cgb_sprite_scanline`: its eight row entries, left to right on screen unless flipped. |
| CgbPpu.CgbRenderer.DrawSpritePixel | core/src/hardware/ppu/cgb_ppu.rs:154-178 | The step for row entry `j` of a sprite: it writes only the column the entry lands on, and only what `SpriteStep` says. |
| CgbPpu.CgbRenderer.DrawCgbBackgroundWindowLine | core/src/hardware/ppu/cgb_ppu.rs:185-246 | `draw_cgb_background_window_line`: draws line `tileLineY` of the tile from column `pixelsDrawn` on, first consuming `pixelsToSkip`, never past column 159; the 8-pixel fast path draws what the pixel loop would. |
| CgbPpu.CgbRenderer.DrawTileLinePixels | core/src/hardware/ppu/cgb_ppu.rs:185-246 | The pixel-by-pixel path of `draw_cgb_background_window_line`. |
| CgbPpu.CgbRenderer.DrawCgbContiguousBgWindowBlock | core/src/hardware/ppu/cgb_ppu.rs:251-306 | `draw_cgb_contiguous_bg_window_block`: the tile's line as eight whole pixels at `pixelsDrawn`. |
| CgbVram.PaletteNumberRoundTrip | core/src/hardware/ppu/cgb_vram.rs:35-41 | The palette number is always 0-7; setting it reads back `value & 7` and keeps bits 3-7 (bank, flips, priority) as they were. |
| CgbVram.PaletteNumberExample | core/src/hardware/ppu/cgb_vram.rs:49-59 | The sequence of the crate's unit test: 0, then 3, 7, and 15 reads as 7. |
| CgbVram.CgbTileAttribute.constructor | core/src/hardware/ppu/cgb_vram.rs:15-17 | The default attribute byte is 0: palette 0, bank 0, no flip, no priority |
| CgbVram.CgbTileAttribute.BgPaletteNumb | core/src/hardware/ppu/cgb_vram.rs:35-37 | `bg_palette_numb`: the attribute's palette number, which `PaletteNumberRoundTrip` shows is what the last setter stored. |
| CgbVram.CgbTileAttribute.SetBgPaletteNumb | core/src/hardware/ppu/cgb_vram.rs:39-41 | `set_bg_palette_numb`: the bits become `WithPaletteNumber` of the old ones, which reads back the value's low three bits and keeps the other bits (`PaletteNumberRoundTrip`). |
| CgbVram.CgbTileMap.constructor | core/src/hardware/ppu/cgb_vram.rs:10-12 | `CgbTileMap::new`: every attribute empty. |
| Cpu.Cpu.constructor | core/src/hardware/cpu/mod.rs:39-66 | `CPU::new`: the fields start as `CpuSpec.New`, which `NewAfterBoot` and `NewWithBootRom` show are the post-boot registers (PC 0x100, SP 0xFFFE, DIV 0xAB) without a boot ROM and PC 0 with one. |
| Cpu.Cpu.AddNewInterrupts | core/src/hardware/cpu/fetch.rs:160-167 | `add_new_interrupts`: the new state is `CpuSpec.AddNewInterrupts` of the old, which ORs the raised bits into IF and changes nothing else. |
| Cpu.Cpu.AddCycles | core/src/hardware/cpu/fetch.rs:10-19 | `add_cycles`: the new state is `CpuSpec.AddCycles` of the old: four more clocks (`AddCyclesSteps`), the timer ticked once (`AddCyclesTicksTimer`), its and the PPU's requests joined to IF without losing any (`AddCyclesRaises`, `AddCyclesKeepsRequests`). |
| Cpu.Cpu.ReadByteCycle | core/src/hardware/cpu/fetch.rs:121-124 | `read_byte_cycle`: result and new state are `CpuSpec.ReadByteCycle`: one M-cycle, then the byte at the address. |
| Cpu.Cpu.WriteByteCycle | core/src/hardware/cpu/fetch.rs:127-131 | `write_byte_cycle`: the new state is `CpuSpec.WriteByteCycle`: one M-cycle, then the store, keeping every pending request (`WriteByteCycleKeepsRequests`). |
| Cpu.Cpu.GetInstrU8 | core/src/hardware/cpu/fetch.rs:102-107 | `get_instr_u8`: result and new state are `CpuSpec.GetInstrU8`: the byte at PC, PC one further, four clocks (`GetInstrU8Spec`). |
| Cpu.Cpu.GetInstrU16 | core/src/hardware/cpu/fetch.rs:113-118 | `get_instr_u16`: result and new state are `CpuSpec.GetInstrU16`: the little-endian word at PC, PC two further, eight clocks (`GetInstrU16Spec`). |
| Cpu.Cpu.ReadShortCycle | core/src/hardware/cpu/fetch.rs:134-139 | `read_short_cycle`: result and new state are `CpuSpec.ReadShortCycle`: low byte first, two M-cycles (`ReadShortSpec`). |
| Cpu.Cpu.WriteShortCycle | core/src/hardware/cpu/fetch.rs:142-145 | `write_short_cycle`: the new state is `CpuSpec.WriteShortCycle`, which a `read_short_cycle` of the same address reads back (`WriteShortReadShort`). |
| Cpu.Cpu.AddedVblank | core/src/hardware/cpu/fetch.rs:150-157 | `added_vblank`: result and new state are `CpuSpec.AddedVblank`: the flag is reported once and then cleared (`AddedVblankOnce`). |
| Cpu.Cpu.PushHelper | core/src/hardware/cpu/mod.rs:561-565 | `push_helper`: the new state is `CpuSpec.PushHelper`: SP two lower with the word stored there, which `pop` gives back (`PushHelperSpec`, `PushPopRoundTrip`). |
| Cpu.Cpu.InterruptsRoutine | core/src/hardware/cpu/mod.rs:106-124 | `interrupts_routine`: the new state is `CpuSpec.InterruptsRoutine`: IME and HALT cleared, PC pushed, PC at the source's vector (`InterruptsRoutineSpec`, `VectorSpec`). |
| Cpu.Cpu.HandleInterrupts | core/src/hardware/cpu/fetch.rs:51-85 | `handle_interrupts`: result and new state are `CpuSpec.HandleInterrupts`: nothing happens with no enabled request (`HandleIdle`), with IME clear a request only ends HALT (`HandleWakesWithoutIme`), and a routine runs exactly when IME is set and a request is enabled (`HandleFiresIff`). |
| Cpu.Cpu.WakeOnPending | core/src/hardware/cpu/fetch.rs:51-85 | The IME-clear branch of `handle_interrupts` agrees with `CpuSpec.HandleInterrupts` and dispatches nothing. |
| Cpu.Cpu.DispatchPending | core/src/hardware/cpu/fetch.rs:51-85 | The IME-set branch of `handle_interrupts` with IF nonzero agrees with `CpuSpec.HandleInterrupts`: the first enabled request in priority order is dispatched (`HandleDispatch`). |
| Cpu.Cpu.Dispatch | core/src/hardware/cpu/fetch.rs:70-82 | The dispatch arm of `handle_interrupts`: the new state is `CpuSpec.Dispatch`: the request cleared, the other requests kept (`DispatchKeepsOtherRequests`), the interrupted PC saved on the stack (`DispatchSavesPc`). |
| Cpu.Cpu.Acknowledge | core/src/hardware/cpu/fetch.rs:74-77 | The request's IF bit is cleared and PC steps back over the opcode byte, as `CpuSpec.Acknowledged` says. |
| Cpu.Cpu.GetNextOpcode | core/src/hardware/cpu/fetch.rs:38-49 | `get_next_opcode`: result and new state are `CpuSpec.GetNextOpcode`: without a dispatch the opcode at PC (`GetNextOpcodeNoDispatch`), after one the opcode at the vector (`GetNextOpcodeAtVector`). |
| Cpu.Cpu.ReadU8Value | core/src/hardware/cpu/mod.rs:145-156 | The `read_u8_value` used by `load_8bit` and the ALU: result and new state are `CpuSpec.ReadU8`, which for a memory operand is the byte at its address (`ReadOperandSpec`). |
| Cpu.Cpu.ReadAddress | core/src/hardware/cpu/mod.rs:145-156 | The address-operand reads of `read_u8_value` agree with `CpuSpec.ReadU8` (`ReadAt`, `ReadHlip`, `ReadHlin`, `ReadDirectMem`, `ReadIoDirect`). |
| Cpu.Cpu.ReadHlIncrement | core/src/hardware/cpu/mod.rs:145-156 | `(HL+)` read: the byte at HL, then HL one higher, as `CpuSpec.ReadU8` and `ReadHlip` say. |
| Cpu.Cpu.ReadHlDecrement | core/src/hardware/cpu/mod.rs:145-156 | `(HL-)` read: the byte at HL, then HL one lower, as `CpuSpec.ReadU8` and `ReadHlin` say. |
| Cpu.Cpu.ReadDirectMem | core/src/hardware/cpu/mod.rs:145-156 | `(a16)` read: the byte at the address in the next two instruction bytes, as `CpuSpec.ReadU8` and `ReadDirectMem` say. |
| Cpu.Cpu.ReadIoDirect | core/src/hardware/cpu/mod.rs:145-156 | `(0xFF00 + a8)` read: the byte at 0xFF00 plus the next instruction byte, as `CpuSpec.ReadU8` and `ReadIoDirect` say. |
| Cpu.Cpu.SetU8Value | core/src/hardware/cpu/mod.rs:145-156 | The `set_u8_value` used by `load_8bit`: the new state is `CpuSpec.WriteU8`, which stores at the operand's address and nowhere else (`WriteOperandSpec`). |
| Cpu.Cpu.WriteAddress | core/src/hardware/cpu/mod.rs:145-156 | The address-operand writes of `set_u8_value` agree with `CpuSpec.WriteU8` (`WriteAt`, `WriteHlip`, `WriteHlin`, `WriteDirectMem`, `WriteIoDirect`). |
| Cpu.Cpu.WriteHlIncrement | core/src/hardware/cpu/mod.rs:145-156 | `(HL+)` write: the byte stored at HL, then HL one higher, as `CpuSpec.WriteU8` and `WriteHlip` say. |
| Cpu.Cpu.WriteHlDecrement | core/src/hardware/cpu/mod.rs:145-156 | `(HL-)` write: the byte stored at HL, then HL one lower, as `CpuSpec.WriteU8` and `WriteHlin` say. |
| Cpu.Cpu.WriteDirectMem | core/src/hardware/cpu/mod.rs:145-156 | `(a16)` write: stored at the address in the next two instruction bytes, as `CpuSpec.WriteU8` and `WriteDirectMem` say. |
| Cpu.Cpu.WriteIoDirect | core/src/hardware/cpu/mod.rs:145-156 | `(0xFF00 + a8)` write: stored at 0xFF00 plus the next instruction byte, as `CpuSpec.WriteU8` and `WriteIoDirect` say. |
| Cpu.Cpu.Load16Immediate | core/src/hardware/cpu/mod.rs:134-141 | `load_16bit(rr, DIRECT)`: the new state is `CpuSpec.Load16Immediate`: the pair holds the next instruction word. |
| Cpu.Cpu.StoreStackPointer | core/src/hardware/cpu/mod.rs:134-141 | `load_16bit(DirectMem, SP)`: the new state is `CpuSpec.StoreStackPointer`: SP stored little-endian at the immediate address. |
| Cpu.Cpu.Load8Bit | core/src/hardware/cpu/mod.rs:145-156 | `load_8bit`: the new state is `CpuSpec.Load8Bit`: the destination receives the source byte (`LoadFromMemory`, `LoadToMemory`, `StoreLoadRoundTrip`), flags untouched. |
| Cpu.Cpu.Increment | core/src/hardware/cpu/mod.rs:161-174 | `increment`: the new state is `CpuSpec.Increment` (`IncrementRegister`, `IncrementMemory`), which `decrement` undoes (`IncrementDecrementRoundTrip`). |
| Cpu.Cpu.Decrement | core/src/hardware/cpu/mod.rs:214-227 | `decrement`: the new state is `CpuSpec.Decrement` (`DecrementRegister`). |
| Cpu.Cpu.Increment16 | core/src/hardware/cpu/mod.rs:179-185 | `increment16`: the new state is `CpuSpec.Increment16`: the pair one higher modulo 0x10000, flags untouched, one extra M-cycle. |
| Cpu.Cpu.Decrement16 | core/src/hardware/cpu/mod.rs:232-238 | `decrement16`: the new state is `CpuSpec.Decrement16`: the pair one lower modulo 0x10000, flags untouched, one extra M-cycle. |
| Cpu.Cpu.Rotate | core/src/hardware/cpu/mod.rs:669-790 | `rlc` … `srl` and `swap`: the new state is `CpuSpec.Rotate` of the old, the operand replaced by the ALU's rotate or shift with its flags. |
| Cpu.Cpu.RotateA | core/src/hardware/cpu/mod.rs:190-193 | `rlca`, `rrca`, `rla`, `rra`: the new state is `CpuSpec.RotateA`: the CB rotate of A with Z forced clear. |
| Cpu.Cpu.AddHl | core/src/hardware/cpu/mod.rs:198-209 | `add16`: the new state is `CpuSpec.AddHl`: HL plus the pair modulo 0x10000, Z kept, H and C from bits 11 and 15. |
| Cpu.Cpu.RelativeJump | core/src/hardware/cpu/mod.rs:268-276 | `relative_jump`: the new state is `CpuSpec.RelativeJump`: PC past the offset, moved by the signed offset when the condition holds (`RelativeJumpSpec`, `RelativeTargetSpec`). |
| Cpu.Cpu.DecimalAdjust | core/src/hardware/cpu/mod.rs:294-316 | `daa`: the new state is `CpuSpec.DecimalAdjust`, which turns the binary sum of two BCD bytes into their BCD sum (`AddThenDecimalAdjust`). |
| Cpu.Cpu.Complement | core/src/hardware/cpu/mod.rs:321-326 | `cpl`: the new state is `CpuSpec.Complement`: A inverted, N and H set (`ComplementSpec`). |
| Cpu.Cpu.SetCarryFlag | core/src/hardware/cpu/mod.rs:331-335 | `scf`: the new state is `CpuSpec.SetCarryFlag`: C set, N and H clear, Z kept (`SetCarrySpec`). |
| Cpu.Cpu.ComplementCarryFlag | core/src/hardware/cpu/mod.rs:340-344 | `ccf`: the new state is `CpuSpec.ComplementCarryFlag`: C inverted, N and H clear, Z kept (`ComplementCarrySpec`). |
| Cpu.Cpu.Arithmetic | core/src/hardware/cpu/mod.rs:356-490 | `add`, `adc`, `sub`, `sbc`, `and`, `xor`, `or`, `compare`: the new state is `CpuSpec.Arithmetic`: A and F from the ALU, everything else kept (`ArithmeticSpec`, `ArithmeticKeepsOthers`, `CompareSpec`). |
| Cpu.Cpu.Return | core/src/hardware/cpu/mod.rs:492-499 | `ret`: the new state is `CpuSpec.Return`: with the condition PC popped (`ReturnTaken`), otherwise only the extra M-cycle (`ReturnNotTaken`); a call followed by it returns to the instruction after the call (`CallReturnRoundTrip`). |
| Cpu.Cpu.ReturnTaken | core/src/hardware/cpu/mod.rs:492-499 | The taken branch of `ret`: PC popped from the stack, SP two higher, then one more M-cycle. |
| Cpu.Cpu.PopStack | core/src/hardware/cpu/mod.rs:504-508 | `pop`: the new state is `CpuSpec.PopStack`, which returns what `push` stored (`PopStackSpec`, `PushPopRoundTrip`). |
| Cpu.Cpu.JumpTo | core/src/hardware/cpu/mod.rs:512-525 | `jump`: the new state is `CpuSpec.JumpTo`: PC at the target exactly when the condition holds (`JumpSpec`). |
| Cpu.Cpu.CallTo | core/src/hardware/cpu/mod.rs:544-550 | `call`: the new state is `CpuSpec.CallTo`: with the condition the return address pushed and PC at the target (`CallTaken`, `CallPushesReturnAddress`), otherwise PC past the operand (`CallNotTaken`). |
| Cpu.Cpu.PushStack | core/src/hardware/cpu/mod.rs:555-558 | `push`: the new state is `CpuSpec.PushStack`: SP two lower with the pair stored there (`PushHelperSpec`). |
| Cpu.Cpu.Restart | core/src/hardware/cpu/mod.rs:571-574 | `rst`: the new state is `CpuSpec.Restart`: the return address pushed and PC at the vector (`RestartSpec`). |
| Cpu.Cpu.ReturnFromInterrupt | core/src/hardware/cpu/mod.rs:588-593 | `reti`: the new state is `CpuSpec.ReturnFromInterrupt`: `ret` with IME set at once. |
| Cpu.Cpu.AddToSp | core/src/hardware/cpu/mod.rs:599-612 | `add_sp`: the new state is `CpuSpec.AddToSp`: SP moved by the signed immediate, flags from the low byte. |
| Cpu.Cpu.LoadSpOffset | core/src/hardware/cpu/mod.rs:628-640 | `load_sp_i`: the new state is `CpuSpec.LoadSpOffset`: HL takes SP plus the signed immediate, SP kept. |
| Cpu.Cpu.LoadSpFromHl | core/src/hardware/cpu/mod.rs:646-649 | `load_sp_hl`: the new state is `CpuSpec.LoadSpFromHl`: SP takes HL, one extra M-cycle. |
| Cpu.Cpu.TestBit | core/src/hardware/cpu/mod.rs:793-803 | `bit`: the new state is `CpuSpec.TestBit`: Z is the complement of the bit, the operand unchanged (`TestBitSpec`, `TestAfterSetAndReset`). |
| Cpu.Cpu.SetBit | core/src/hardware/cpu/mod.rs:810-819 | `set`: the new state is `CpuSpec.SetBit`: the bit set, the other bits kept (`SetBitSpec`). |
| Cpu.Cpu.ResetBit | core/src/hardware/cpu/mod.rs:826-835 | `res`: the new state is `CpuSpec.ResetBit`: the bit cleared, the other bits kept (`ResetBitSpec`). |
| Cpu.Cpu.ExecutePrefix | core/src/hardware/cpu/execute.rs:150-165 | `execute_prefix`: the new state is `CpuSpec.ExecutePrefix` of the CB-table decoding, which never writes to an immediate (`DecodePrefixedNeverWritesImmediate`). |
| Cpu.Cpu.PrefixCall | core/src/hardware/cpu/fetch.rs:23-31 | `cb_prefix_call`: the new state is `CpuSpec.PrefixCall`: the next byte fetched, recorded as opcode and run from the CB table. |
| Cpu.Cpu.Execute | core/src/hardware/cpu/execute.rs:7-148 | `execute`: `CpuSpec.ExecuteOpcode` of the old state is `Some` of the new state, or `None` exactly when `ok` is false, which happens only for STOP and the unused opcodes (`ExecutePanics`). |
| Cpu.Cpu.Perform | core/src/hardware/cpu/execute.rs:7-148 | The arms of `execute`: `CpuSpec.Perform` of the decoded instruction is the new state, or `None` when `ok` is false. |
| Cpu.Cpu.PerformControl | core/src/hardware/cpu/execute.rs:7-148 | The control arms of `execute` (NOP, HALT, the CB prefix, DI, EI, the A rotates): `CpuSpec.Perform` gives the new state (`ExecuteControl`), and STOP and the unused opcodes give `None`. |
| Cpu.Cpu.PerformTransfer | core/src/hardware/cpu/execute.rs:7-148 | The load, push and pop arms of `execute` always succeed with `CpuSpec.Perform`'s state. |
| Cpu.Cpu.PerformBranch | core/src/hardware/cpu/execute.rs:7-148 | The jump, call, return and restart arms of `execute` always succeed with `CpuSpec.Perform`'s state. |
| Cpu.Cpu.PerformArithmetic | core/src/hardware/cpu/execute.rs:7-148 | The arithmetic arms (the ALU, INC and DEC, ADD HL, ADD SP, DAA, CPL, SCF, CCF) of `execute` always succeed with `CpuSpec.Perform`'s state. |
| Cpu.Cpu.Fetch | core/src/hardware/cpu/mod.rs:69-102 | The part of `step_cycle` before `execute`: a pending EI sets IME, then the next opcode is fetched and recorded, as `CpuSpec.Fetch` says (`StepEi`, `StepAfterEi`). |
| Cpu.Cpu.StepCycle | core/src/hardware/cpu/mod.rs:69-102 | `step_cycle`: `CpuSpec.StepCycle` of the old state is `Some` of the new one, or `None` when the opcode panics (`StepPanics`); a halted CPU only spends one M-cycle (`StepHalted`), and EI then NOP enables interrupts (`EiThenNop`). |
| Cpu.FindPending | core/src/hardware/cpu/fetch.rs:67-85 | The loop of `handle_interrupts`: the first source in priority order (V-blank, LCD, timer, serial, joypad) whose bit is set in both IF and IE, or none, as `Interrupts.FirstPending` says. |
| CpuRegisters.FLayout | core/src/hardware/cpu/registers.rs:112-114 | Packing the four flags puts each one in its own bit and leaves the low nibble clear. |
| CpuRegisters.AFSpec | core/src/hardware/cpu/registers.rs:67-69 | `af()` is A in the high byte and `f()` in the low byte, whose low nibble is clear. |
| CpuRegisters.PairRoundTrip | core/src/hardware/cpu/registers.rs:67-108 | Writing a pair and reading it back gives the value written, and no other register changes. |
| CpuRegisters.SetAFDropsLowNibble | core/src/hardware/cpu/registers.rs:86-93 | `set_af` keeps the flag bits of the low byte and drops its low nibble: reading AF back gives `v & 0xFFF0`, so AF round-trips exactly when the low nibble of `v` is clear. |
| CpuRegisters.FlagsRepack | core/src/hardware/cpu/registers.rs:86-114 | Unpacking the four flag bits of a byte and packing them again keeps exactly the high nibble. |
| CpuRegisters.SetAFOfAF | core/src/hardware/cpu/registers.rs:86-93 | A flag set with `set_af` from the packed byte of another file gives back its flags. |
| CpuRegisters.Registers.constructor | core/src/hardware/cpu/registers.rs:62-64 | `Registers::new()`. |
| CpuRegisters.Registers.Af | core/src/hardware/cpu/registers.rs:67-69 | `af`: A in the high byte and the packed flags in the low byte, whose low nibble is 0 (`AFSpec`). |
| CpuRegisters.Registers.Bc | core/src/hardware/cpu/registers.rs:72-74 | `bc`: B in the high byte, C in the low byte; `PairRoundTrip` shows `set_bc` then `bc` gives the value back. |
| CpuRegisters.Registers.De | core/src/hardware/cpu/registers.rs:77-79 | `de`: D in the high byte, E in the low byte; `PairRoundTrip` shows `set_de` then `de` gives the value back. |
| CpuRegisters.Registers.Hl | core/src/hardware/cpu/registers.rs:82-84 | `hl`: H in the high byte, L in the low byte; `PairRoundTrip` shows `set_hl` then `hl` gives the value back. |
| CpuRegisters.Registers.Flags | core/src/hardware/cpu/registers.rs:112-114 | `f()`. |
| CpuRegisters.Registers.SetAf | core/src/hardware/cpu/registers.rs:86-93 | `set_af`: the register file becomes `SetAF` of the old one, so AF reads back the value with its low nibble cleared (`SetAFDropsLowNibble`). |
| CpuRegisters.Registers.SetBc | core/src/hardware/cpu/registers.rs:95-98 | `set_bc`: the register file becomes `SetBC` of the old one: only B and C change, and BC reads back the value (`PairRoundTrip`). |
| CpuRegisters.Registers.SetDe | core/src/hardware/cpu/registers.rs:100-103 | `set_de`: the register file becomes `SetDE` of the old one: only D and E change, and DE reads back the value (`PairRoundTrip`). |
| CpuRegisters.Registers.SetHl | core/src/hardware/cpu/registers.rs:105-108 | `set_hl`: the register file becomes `SetHL` of the old one: only H and L change, and HL reads back the value (`PairRoundTrip`). |
| CpuRegisters.Registers.SetZf | core/src/hardware/cpu/registers.rs:142-144 | Each flag setter changes its own flag and nothing else. |
| CpuRegisters.Registers.SetN | core/src/hardware/cpu/registers.rs:148-150 | `set_n`: only the N flag changes, to the value. |
| CpuRegisters.Registers.SetH | core/src/hardware/cpu/registers.rs:154-156 | `set_h`: only the H flag changes, to the value. |
| CpuRegisters.Registers.SetCf | core/src/hardware/cpu/registers.rs:160-162 | `set_cf`: only the carry flag changes, to the value. |
| CpuSpec.SetRegSpec | core/src/hardware/registers.rs:57-59 | Writing a register reads back the value and leaves every other register alone. |
| CpuSpec.SetPairSpec | core/src/hardware/registers.rs:62-99 | Every pair but AF reads back what was written; AF loses the low nibble of F. |
| CpuSpec.WithFlagsSpec | core/src/hardware/registers.rs:102-143 | After the flags of `o` are written, each flag getter reports its part of `o`, the low nibble of F is as it was, and no other register changed. |
| CpuSpec.AddNewInterrupts | core/src/hardware/cpu/fetch.rs:160-167 | `add_new_interrupts`: the request joins IF, and a VBlank request is remembered. |
| CpuSpec.AddCycles | core/src/hardware/cpu/fetch.rs:10-19 | `add_cycles`: one M-cycle of four clocks; the PPU, then the timer, may raise interrupts. Nothing the instructions use changes. |
| CpuSpec.AddCyclesSteps | core/src/hardware/cpu/fetch.rs:10-19 | The last step of `add_cycles`: the timer's request joins IF. |
| CpuSpec.AddCyclesTicksTimer | core/src/hardware/cpu/fetch.rs:10-19 | An M-cycle ticks the timer once. |
| CpuSpec.AddCyclesRaises | core/src/hardware/cpu/fetch.rs:10-19 | An M-cycle only adds bits to IF: those the PPU and the timer raise. |
| CpuSpec.AddCyclesVblank | core/src/hardware/cpu/fetch.rs:10-19 | The VBlank marker is set exactly when a VBlank is raised in the M-cycle. |
| CpuSpec.GetInstrU8Spec | core/src/hardware/cpu/fetch.rs:102-107 | `get_instr_u8` returns the byte at PC, moves PC by one and spends one M-cycle. |
| CpuSpec.GetInstrU16Spec | core/src/hardware/cpu/fetch.rs:113-118 | `get_instr_u16` returns the little-endian word at PC, moves PC by two and spends two M-cycles. |
| CpuSpec.WriteShortSpec | core/src/hardware/cpu/fetch.rs:142-145 | `write_short_cycle` stores the word little-endian at `address` and `address + 1`, in two M-cycles. |
| CpuSpec.WriteShortReadShort | core/src/hardware/cpu/fetch.rs:134-139 | `read_short_cycle` reads what `write_short_cycle` stored at the same address. |
| CpuSpec.DecodeNeverWritesImmediate | core/src/hardware/cpu/execute.rs:7-148 | No opcode decodes to an instruction that writes an immediate operand. |
| CpuSpec.DecodePrefixedNeverWritesImmediate | core/src/hardware/cpu/execute.rs:150-165 | Nor does any CB-prefixed opcode. |
| CpuSpec.Acknowledged | core/src/hardware/cpu/fetch.rs:74-77 | The request is cleared in IF and PC steps back over the opcode byte already fetched. |
| CpuSpec.Fetch | core/src/hardware/cpu/mod.rs:69-102 | The part of `step_cycle` before `execute`: a pending EI sets IME, then the opcode at PC is fetched and remembered. |
| CpuSpec.ReadShortSpec | core/src/hardware/cpu/fetch.rs:134-139 | `read_short_cycle` returns the little-endian word at `address` and spends two M-cycles. |
| CpuSpec.PushHelperSpec | core/src/hardware/cpu/mod.rs:561-565 | `push_helper` moves SP down two, leaves the word there little-endian, changes no other register and spends three M-cycles. |
| CpuSpec.PopStackSpec | core/src/hardware/cpu/mod.rs:504-508 | `pop` loads the little-endian word at SP into the pair and moves SP up two, in two M-cycles. |
| CpuSpec.PushPopRoundTrip | core/src/hardware/cpu/mod.rs:504-565 | POP undoes PUSH: every register is restored, except that popping AF drops the low nibble of F. |
| CpuSpec.PopAfterPush | core/src/hardware/cpu/mod.rs:504-565 | Popping a pair right after a word was pushed loads the word into the pair and puts SP back. |
| CpuSpec.PushPopCycles | core/src/hardware/cpu/mod.rs:504-558 | PUSH then POP takes five M-cycles. |
| CpuSpec.SetPairOfGet | core/src/hardware/registers.rs:62-99 | Writing a pair with its own value changes nothing, except that AF drops the low nibble of F. |
| CpuSpec.CallTaken | core/src/hardware/cpu/mod.rs:544-550 | A taken CALL fetches the target, pushes the address of the next instruction and jumps, in five M-cycles. |
| CpuSpec.CallNotTaken | core/src/hardware/cpu/mod.rs:544-550 | An untaken CALL only skips its operand, in two M-cycles. |
| CpuSpec.CallPushesReturnAddress | core/src/hardware/cpu/mod.rs:544-550 | A taken CALL leaves the address of the next instruction on the stack. |
| CpuSpec.ReturnTaken | core/src/hardware/cpu/mod.rs:492-499 | A taken RET pops PC and moves SP up two. |
| CpuSpec.ReturnTakenCycles | core/src/hardware/cpu/mod.rs:492-499 | A taken RET takes four M-cycles. |
| CpuSpec.ReturnNotTaken | core/src/hardware/cpu/mod.rs:492-499 | An untaken RET spends the single M-cycle of the condition check. |
| CpuSpec.CallReturnRoundTrip | core/src/hardware/cpu/mod.rs:492-550 | CALL then RET comes back to the instruction after the CALL (two bytes of address past the PC the CALL started its operand fetch at) with every other register as it was. |
| CpuSpec.CallReturnCycles | core/src/hardware/cpu/mod.rs:492-550 | CALL then RET takes nine M-cycles. |
| CpuSpec.RestartSpec | core/src/hardware/cpu/mod.rs:571-574 | RST pushes the PC and jumps to the vector. |
| CpuSpec.VectorSpec | core/src/hardware/cpu/mod.rs:117-123 | The vectors are eight bytes apart from 0x40, in priority order. |
| CpuSpec.InterruptsRoutineSpec | core/src/hardware/cpu/mod.rs:106-124 | An interrupt routine takes five M-cycles, clears IME and HALT, leaves the interrupted PC on the stack and continues at the source's vector. |
| CpuSpec.HandleIdle | core/src/hardware/cpu/fetch.rs:51-63 | With nothing both requested and enabled, handling interrupts changes nothing. |
| CpuSpec.HandleWakesWithoutIme | core/src/hardware/cpu/fetch.rs:54-60 | With IME clear, an enabled request ends HALT after one M-cycle and no routine runs. |
| CpuSpec.HandleFiresIff | core/src/hardware/cpu/fetch.rs:51-85 | A routine runs exactly when IME is set and one of the five sources is both requested and enabled. |
| CpuSpec.HandleDispatch | core/src/hardware/cpu/fetch.rs:65-85 | A dispatch serves the first source in priority order that is requested and enabled: PC steps back over the opcode byte already fetched, is pushed, and execution continues at the source's vector with IME clear. |
| CpuSpec.DispatchSpec | core/src/hardware/cpu/mod.rs:106-124 | A dispatch continues at the source's vector with SP two lower, IME and HALT clear, after five M-cycles. |
| CpuSpec.DispatchSavesPc | core/src/hardware/cpu/fetch.rs:74-78 | The address pushed is PC stepped back over the opcode byte already fetched. |
| CpuSpec.AddCyclesKeepsRequests | core/src/hardware/cpu/fetch.rs:10-19 | An M-cycle never clears a pending request: IF after it contains IF before it |
| CpuSpec.InterruptsRoutineKeepsRequests | core/src/hardware/cpu/mod.rs:106-124 | No step of an interrupt routine clears a request. |
| CpuSpec.DispatchKeepsOtherRequests | core/src/hardware/cpu/fetch.rs:70-82 | A dispatch clears only the request it serves: every other request stays pending through the routine. |
| CpuSpec.GetNextOpcodeNoDispatch | core/src/hardware/cpu/fetch.rs:38-49 | Without a dispatch, `get_next_opcode` returns the byte at PC. |
| CpuSpec.GetNextOpcodeAtVector | core/src/hardware/cpu/fetch.rs:38-49 | After a dispatch, `get_next_opcode` returns the first byte of the routine and continues after it. |
| CpuSpec.GetNextOpcodeSavesPc | core/src/hardware/cpu/fetch.rs:38-49 | The address saved by a dispatch in `get_next_opcode` is that of the opcode it pre-empted. |
| CpuSpec.AddedVblankOnce | core/src/hardware/cpu/fetch.rs:150-157 | `added_vblank` reports the marker and clears it, so an immediate second call reports nothing. |
| CpuSpec.StepHalted | core/src/hardware/cpu/mod.rs:70-73 | A halted CPU spends one M-cycle and changes no register. |
| CpuSpec.ExecutePanics | core/src/hardware/cpu/execute.rs:7-148 | `execute` panics exactly on STOP and the unused opcodes. |
| CpuSpec.StepPanics | core/src/hardware/cpu/mod.rs:69-102 | A running CPU panics exactly when the byte at PC is STOP or an unused opcode. |
| CpuSpec.StepEi | core/src/hardware/cpu/mod.rs:654-657 | EI only schedules IME: the instruction itself leaves IME as it was. |
| CpuSpec.StepAfterEi | core/src/hardware/cpu/mod.rs:77-80 | A scheduled EI takes effect before the next opcode is fetched. |
| CpuSpec.EiThenNop | core/src/hardware/cpu/mod.rs:69-102 | EI followed by NOP: IME is set once the NOP has run. |
| CpuSpec.ExecuteControl | core/src/hardware/cpu/mod.rs:618-657 | NOP changes nothing; DI clears IME; EI only schedules it. |
| CpuSpec.StepDi | core/src/hardware/cpu/mod.rs:618-622 | DI clears IME at once and leaves the enable register IE alone. |
| CpuSpec.NewAfterBoot | core/src/hardware/cpu/mod.rs:39-66 | Without a boot ROM to run, the CPU starts at 0x100 with the post-boot registers and DIV. |
| CpuSpec.NewWithBootRom | core/src/hardware/cpu/mod.rs:39-66 | With a boot ROM to run, the CPU starts from zeroed registers at address 0. |
| CpuSpec.ReadOperandSpec | core/src/hardware/cpu/mod.rs:145-156 | Reading a memory operand yields the byte at its address. |
| CpuSpec.WriteOperandSpec | core/src/hardware/cpu/mod.rs:145-156 | Writing a memory operand stores the byte at its address and nowhere else. |
| CpuSpec.LoadFromMemory | core/src/hardware/cpu/mod.rs:145-156 | LD r,(mem): the register receives the byte at the operand's address. |
| CpuSpec.LoadToMemory | core/src/hardware/cpu/mod.rs:145-156 | LD (mem),r: the register's byte is stored at the operand's address. |
| CpuSpec.LoadIncrementSpec | core/src/hardware/cpu/execute.rs:45 | LD (HL+),A stores A at HL and moves HL up by one. |
| CpuSpec.StoreLoadRoundTrip | core/src/hardware/cpu/mod.rs:145-156 | A byte stored through (HL) by one LD reads back through (HL) by the next. |
| CpuSpec.ReadKeepsAccumulator | core/src/hardware/cpu/mod.rs:145-156 | Reading an operand never changes A or F. |
| CpuSpec.WithZnhSpec | core/src/hardware/cpu/mod.rs:161-227 | Setting Z, N and H one after the other, as INC, DEC and BIT do, leaves C alone. |
| CpuSpec.ArithmeticSpec | core/src/hardware/cpu/mod.rs:356-488 | The 0x80-0xBF block and its immediate forms: A receives the ALU result (CP keeps A), the four flags are the ALU's, and no other register changes beyond what reading the operand does. |
| CpuSpec.ArithmeticKeepsOthers | core/src/hardware/cpu/mod.rs:356-488 | Besides A and F, the registers after an ALU instruction are those after reading its operand. |
| CpuSpec.CompareSpec | core/src/hardware/cpu/mod.rs:478-488 | CP compares without storing: Z when A equals the operand, C when the operand is larger. |
| CpuSpec.AddThenSub | core/src/hardware/cpu/mod.rs:356-408 | ADD A,r followed by SUB A,r gives A back when r is not A; the borrow mirrors the carry. |
| CpuSpec.XorSelf | core/src/hardware/cpu/mod.rs:447-457 | XOR A clears A and every flag but Z, which it sets. |
| CpuSpec.IncrementRegister | core/src/hardware/cpu/mod.rs:161-174 | INC r: the register goes up by one, wrapping; Z on wrap to 0, N clear, H on a low-nibble carry, C kept. |
| CpuSpec.DecrementRegister | core/src/hardware/cpu/mod.rs:214-227 | DEC r: the register goes down by one, wrapping; Z on reaching 0, N set, H on a low-nibble borrow, C kept. |
| CpuSpec.IncrementDecrementRoundTrip | core/src/hardware/cpu/mod.rs:161-227 | DEC r undoes INC r. |
| CpuSpec.IncrementMemory | core/src/hardware/cpu/execute.rs:63 | INC (HL): the byte at HL goes up by one, in two M-cycles. |
| CpuSpec.TestBitSpec | core/src/hardware/cpu/mod.rs:793-803 | BIT b,r: Z says whether the bit is clear; N clear, H set, C and every register kept. |
| CpuSpec.SetBitSpec | core/src/hardware/cpu/mod.rs:810-819 | SET b,r sets that bit and no other. |
| CpuSpec.ResetBitSpec | core/src/hardware/cpu/mod.rs:826-835 | RES b,r clears that bit and no other. |
| CpuSpec.TestAfterSetAndReset | core/src/hardware/cpu/mod.rs:793-835 | BIT after SET of the same bit reports it set; after RES, clear. |
| CpuSpec.ComplementSpec | core/src/hardware/cpu/mod.rs:321-326 | CPL inverts every bit of A and sets N and H; a second CPL restores A. |
| CpuSpec.ComplementCarrySpec | core/src/hardware/cpu/mod.rs:340-344 | CCF toggles C and clears N and H; a second CCF restores C. |
| CpuSpec.SetCarrySpec | core/src/hardware/cpu/mod.rs:331-335 | SCF sets C and clears N and H; Z is kept. |
| CpuSpec.DecimalAdjustSpec | core/src/hardware/cpu/mod.rs:294-316 | DAA: A and the flags are those of the ALU's decimal adjustment; H cleared, N kept. |
| CpuSpec.AddThenDecimalAdjust | core/src/hardware/cpu/mod.rs:294-372 | ADD A,r then DAA is decimal addition of two BCD bytes, with C the decimal carry out. |
| CpuSpec.RelativeJumpSpec | core/src/hardware/cpu/mod.rs:268-276 | JR cc,e: the offset byte is always consumed; when the condition holds PC moves by the sign-extended offset from the next instruction, one more M-cycle. |
| CpuSpec.RelativeTargetSpec | core/src/hardware/cpu/mod.rs:268-276 | A relative jump moves forward by the offset byte when it is below 0x80 and back by 256 minus it otherwise: the byte is a two's-complement distance. |
| CpuSpec.RelativeJumpSelfLoop | core/src/hardware/cpu/mod.rs:268-276 | JR -2 jumps back to its own opcode. |
| CpuSpec.JumpSpec | core/src/hardware/cpu/mod.rs:512-525 | JP: the immediate word is always consumed; when the condition holds PC becomes that word, or HL for `JP HL`, one more M-cycle. |
| Envelope.Triggered | core/src/hardware/apu/channel_features.rs:48-51 | `trigger`: the envelope runs again from a full period. |
| Envelope.RegisterRoundTrip | core/src/hardware/apu/channel_features.rs:53-63 | NRx2 reads back exactly the byte written, and a write leaves the envelope in range whatever it held before. |
| Envelope.ClockedSpec | core/src/hardware/apu/channel_features.rs:21-45 | A clock does nothing to a stopped envelope or a zero period; otherwise it moves the volume by exactly one in the chosen direction, or keeps it and stops the envelope at the end of the range. |
| Envelope.ClockedTimesMonotone | core/src/hardware/apu/channel_features.rs:21-45 | However many clocks pass, the volume stays within 0..15 and moves only in the envelope's direction. |
| Envelope.StoppedStaysPut | core/src/hardware/apu/channel_features.rs:21-45 | A stopped envelope never changes again until it is triggered. |
| Envelope.EnvelopeFeature.Tick | core/src/hardware/apu/channel_features.rs:21-45 | `tick`: the envelope becomes `Clocked` of the old one; `ClockedSpec` says the volume moves one step towards its bound once the period has run out. |
| Envelope.EnvelopeFeature.Trigger | core/src/hardware/apu/channel_features.rs:48-51 | `trigger`: the envelope becomes `Triggered` of the old one: the volume reloads and the timer restarts. |
| Envelope.EnvelopeFeature.ReadRegister | core/src/hardware/apu/channel_features.rs:53-55 | `read_register`: the NRx2 byte `RegisterValue` rebuilds, which `RegisterRoundTrip` shows is the byte last written. |
| Envelope.EnvelopeFeature.WriteRegister | core/src/hardware/apu/channel_features.rs:57-63 | `write_register`: the envelope becomes `Written` of the old one for the value (`RegisterRoundTrip`). |
| EventChain.RescheduleSpec | core/src/hardware/mmu/mod.rs:370-436 | Exactly the PPU and APU events are re-pushed; the re-pushed event never lies earlier, and only the wait at the end of the V-blank re-pushes (OAM search) with no delay. |
| EventChain.VisibleLine | core/src/hardware/mmu/mod.rs:370-396 | A visible line, OAM search then transfer then H-blank, lasts as long as one V-blank line: 456 cycles, 912 in double speed. After it the next line's OAM search follows, or the V-blank after line 143. |
| EventChain.DoubleSpeedDoubles | core/src/hardware/mmu.rs:279-316 | Double speed doubles every delay and changes no event type; at single speed the delays are the fixed ones of the older bus. |
| EventChain.RescheduleLowersDue | core/src/hardware/mmu/mod.rs:361-436 | Handling a due event lowers the cost: the re-pushed event costs less than the handled one, and so do the three NONE pushes together. |
| EventChain.PushesLowerDue | core/src/hardware/mmu/mod.rs:361-436 | What an arm pushes for a due event costs less than the event. |
| EventChain.FilterWitness | core/src/scheduler.rs:107-117 | Every heap can be filtered: the filtered heap is built one event at a time. |
| EventChain.FilteredIsRemoveType | core/src/scheduler.rs:107-117 | `Filtered` fixes the heap, so a removal by type is `RemoveType`. |
| EventChain.DominatedWeight | core/src/hardware/mmu/mod.rs:361-471 | A queue dominated on its due events costs no more. |
| Execute.HorizontalDecodeSpec | core/src/hardware/cpu/execute.rs:207-221 | `horizontal_decode` picks entry `opcode & 7` of the operand order; its panic arm is unreachable. |
| Execute.VerticalDecodeSpec | core/src/hardware/cpu/execute.rs:223-237 | `vertical_decode` is defined exactly on 0x40-0x7F, and there it picks entry `(opcode >> 3) & 7` of the same operand order `horizontal_decode` uses. |
| Execute.DecodePrefixedBitSpec | core/src/hardware/cpu/execute.rs:188-205 | The bit number is opcode bits 3-5, so it is below 8 and the panic arm is unreachable. |
| Execute.UnknownOpcodes | core/src/hardware/cpu/execute.rs:105-143 | Exactly the eleven unused opcodes dispatch to `unknown`, which panics. |
| Execute.StopOpcode | core/src/hardware/cpu/execute.rs:27 | Only 0x10 dispatches to STOP, which panics as unimplemented. |
| Execute.LoadBlock | core/src/hardware/cpu/execute.rs:75-77 | 0x76 is HALT; every other opcode of 0x40-0x7F is LD with the destination from `vertical_decode` and the source from `horizontal_decode`. |
| Execute.AluBlockAgrees | core/src/hardware/cpu/execute.rs:78-85 | The 0x80-0xBF block runs the same operation on the same operand as the standalone decoder of instructions.rs. |
| Execute.PrefixPartition | core/src/hardware/cpu/execute.rs:150-165 | The CB table is partitioned by the top two bits: 0x00-0x3F are the eight rotate and shift groups of eight (group = bits 3-5), then BIT, RES and SET take 64 opcodes each with the bit number in bits 3-5; the operand is always bits 0-2. |
| FlagRegisters.FlagLayout | core/src/hardware/registers.rs:102-143 | The flags occupy exactly the high nibble, one bit each. |
| FlagRegisters.TruncateSpec | core/src/hardware/registers.rs:81-84 | Truncation keeps the high nibble, is idempotent, and is the identity on flag values. |
| FlagRegisters.SetFlagSpec | core/src/hardware/registers.rs:123-143 | Setting one flag makes it read back as the value and leaves every other bit of F as it was. |
| FlagRegisters.PairRoundTrip | core/src/hardware/registers.rs:62-99 | The pair setters round-trip through the getters and change only their two registers. |
| FlagRegisters.SetAFTruncates | core/src/hardware/registers.rs:81-84 | `set_af` truncates F to the flag bits, so AF reads back `v & 0xFFF0`. |
| FlagRegisters.Registers.constructor | core/src/hardware/registers.rs:57-59 | `Registers::new()`. |
| FlagRegisters.Registers.Af | core/src/hardware/registers.rs:62-64 | `af`: A in the high byte and F in the low byte. |
| FlagRegisters.Registers.Bc | core/src/hardware/registers.rs:67-69 | `bc`: B in the high byte, C in the low byte; `PairRoundTrip` shows `set_bc` then `bc` gives the value back. |
| FlagRegisters.Registers.De | core/src/hardware/registers.rs:72-74 | `de`: D in the high byte, E in the low byte; `PairRoundTrip` shows `set_de` then `de` gives the value back. |
| FlagRegisters.Registers.Hl | core/src/hardware/registers.rs:77-79 | `hl`: H in the high byte, L in the low byte; `PairRoundTrip` shows `set_hl` then `hl` gives the value back. |
| FlagRegisters.Registers.Zf | core/src/hardware/registers.rs:102-104 | The flag getters test their own bit of F. |
| FlagRegisters.Registers.NFlag | core/src/hardware/registers.rs:107-109 | `n`: true exactly when the N bit (bit 6) of F is set. |
| FlagRegisters.Registers.HFlag | core/src/hardware/registers.rs:112-114 | `h`: true exactly when the H bit (bit 5) of F is set. |
| FlagRegisters.Registers.Cf | core/src/hardware/registers.rs:117-119 | `cf`: true exactly when the carry bit (bit 4) of F is set. |
| FlagRegisters.Registers.SetAf | core/src/hardware/registers.rs:81-84 | `set_af`: the register file becomes `SetAF` of the old one, F keeping only its four flag bits (`SetAFTruncates`). |
| FlagRegisters.Registers.SetBc | core/src/hardware/registers.rs:86-89 | `set_bc`: the register file becomes `SetBC` of the old one: only B and C change, and BC reads back the value (`PairRoundTrip`). |
| FlagRegisters.Registers.SetDe | core/src/hardware/registers.rs:91-94 | `set_de`: the register file becomes `SetDE` of the old one: only D and E change, and DE reads back the value (`PairRoundTrip`). |
| FlagRegisters.Registers.SetHl | core/src/hardware/registers.rs:96-99 | `set_hl`: the register file becomes `SetHL` of the old one: only H and L change, and HL reads back the value (`PairRoundTrip`). |
| FlagRegisters.Registers.SetZf | core/src/hardware/registers.rs:123-125 | `set_zf`: F becomes `SetFlag` of the old F for Z: that bit takes the value and the others are kept (`SetFlagSpec`). |
| FlagRegisters.Registers.SetN | core/src/hardware/registers.rs:129-131 | `set_n`: F becomes `SetFlag` of the old F for N: that bit takes the value and the others are kept (`SetFlagSpec`). |
| FlagRegisters.Registers.SetH | core/src/hardware/registers.rs:135-137 | `set_h`: F becomes `SetFlag` of the old F for H: that bit takes the value and the others are kept (`SetFlagSpec`). |
| FlagRegisters.Registers.SetCf | core/src/hardware/registers.rs:141-143 | `set_cf`: F becomes `SetFlag` of the old F for C: that bit takes the value and the others are kept (`SetFlagSpec`). |
| FlatMemory.Memory.constructor | core/src/hardware/memory.rs:4-7 | `Memory::default()`: every cell is zero. |
| FlatMemory.Memory.SetByte | core/src/hardware/memory.rs:14-17 | `set_byte`: the addressed cell holds the value and reads back through `read_byte`; no other cell changes |
| FlatMmu.ReadCell | core/src/hardware/mmu.rs:110-132 | `read_byte` (mmu.rs:110-132): the first arm whose range holds the address. |
| FlatMmu.IoCell | core/src/hardware/mmu.rs:164-202 | `read_io_byte` (mmu.rs:164-202) for an address of the I/O window. |
| FlatMmu.WriteCell | core/src/hardware/mmu.rs:134-161 | `write_byte` (mmu.rs:134-161). |
| FlatMmu.IoStore | core/src/hardware/mmu.rs:204-245 | `write_io_byte` (mmu.rs:204-245) for an address of the I/O window. |
| FlatMmu.ReadWriteAgree | core/src/hardware/mmu.rs:110-245 | A read and a write of the same address reach the same storage except in two places while the boot ROM runs: its image answers reads of 0x0000-0x00FF, whose writes go to the cartridge, and a write to 0xFF50 ends the boot ROM instead of storing. |
| FlatMmu.SerialEcho | core/src/hardware/mmu.rs:137-140 | The serial hook at the top of `write_byte`: 0x81 written to SC prints SB. |
| FlatMmu.Apply | core/src/hardware/mmu.rs:142-245 | What a target does with a written value. |
| FlatMmu.DmaSpec | core/src/hardware/mmu.rs:247-253 | `dma_transfer` (mmu.rs:247-253): the vector keeps the value, a pending DMATransferComplete is cancelled and DMARequested is due four cycles later. |
| FlatMmu.WriteSpec | core/src/hardware/mmu.rs:134-161 | `write_byte`: the serial hook, then the routed target takes the value. |
| FlatMmu.ReadAfterWrite | core/src/hardware/mmu.rs:110-245 | A write to work RAM, its echo, high RAM, DMA or an I/O address no component claims is read back unchanged; 0xFF50 while the boot ROM runs is the one vector address that does not store its value. |
| FlatMmu.WriteKeepsOthers | core/src/hardware/mmu.rs:134-245 | A write changes no vector byte but its own: every address answered from another byte of the vector reads as before. |
| FlatMmu.EchoMirror | core/src/hardware/mmu.rs:121-150 | Echo RAM 0xE000-0xFDFF is the vector 0x2000 lower, for reads and writes. |
| FlatMmu.UnusableRegion | core/src/hardware/mmu.rs:123-152 | 0xFEA0-0xFEFF reads 0xFF and ignores writes. |
| FlatMmu.InterruptRegisters | core/src/hardware/mmu.rs:155-217 | IF keeps its three top bits set whatever is written: a write reads back as `0xE0 or value`. IE keeps every written bit. |
| FlatMmu.BootRomDisable | core/src/hardware/mmu.rs:239-243 | Writing 0xFF50 while the boot ROM runs finishes it and stores nothing; from then on 0x0000-0x00FF read the cartridge and 0xFF50 is a plain vector byte. |
| FlatMmu.DmaWrite | core/src/hardware/mmu.rs:247-253 | A DMA write: the register reads the value back and the queue is the one `Mmu.DmaQueue` describes (no DMATransferComplete left, one more DMARequested four cycles ahead). |
| FlatMmu.WriteDominated | core/src/hardware/mmu.rs:134-253 | Hence a write adds no due event. |
| FlatMmu.Initial | core/src/hardware/mmu.rs:96-108 | `Memory::new`: the whole vector reads 0xFF, nothing requested or enabled, one NONE event at time 0. |
| FlatMmu.InitialReads | core/src/hardware/mmu.rs:98 | Before any write, every address the vector answers reads 0xFF. |
| FlatMmu.ShadowOam | core/src/hardware/mmu.rs:255-257 | `gather_shadow_oam` (mmu.rs:255-257): the 0xA0 bytes read from `start` on. |
| FlatMmu.Handle | core/src/hardware/mmu.rs:272-345 | One arm of `tick_scheduler` for an event already popped: the calls, then the pushes, at single speed. |
| FlatMmu.Run | core/src/hardware/mmu.rs:267-347 | The loop of `tick_scheduler` handling `es` in turn from `s`: each must be a minimum of the queue and due when it is popped; `None` when one is not. |
| FlatMmu.RunStep | core/src/hardware/mmu.rs:271-346 | One more round of the loop: handling the closest due event extends the run, lowers the weight of the queue (so the loop ends) and adds a V-blank exactly when that event is one. |
| FlatMmu.MCycleStart | core/src/hardware/mmu.rs:383-386 | `do_m_cycle` up to its scheduler loop: the APU ticks four cycles and four cycles pass. |
| FlatMmu.MCycle | core/src/hardware/mmu.rs:383-391 | `do_m_cycle` (mmu.rs:383-391): the APU ticks, the scheduler handles `es`, then the timers tick. |
| FlatMmu.Memory.constructor | core/src/hardware/mmu.rs:96-108 | `Memory::new`: the vector filled with 0xFF, the boot ROM finished exactly when none is given, default interrupt registers and a fresh scheduler. |
| FlatMmu.Memory.ReadByte | core/src/hardware/mmu.rs:110-202 | `read_byte` and `read_io_byte`: the byte the routed cell answers. |
| FlatMmu.Memory.NonUsableCall | core/src/hardware/mmu.rs:259-263 | `non_usable_call` (mmu.rs:259-263): always 0xFF. |
| FlatMmu.Memory.WriteByte | core/src/hardware/mmu.rs:134-245 | `write_byte` and `write_io_byte`: the serial hook, then the routed target takes the value. |
| FlatMmu.Memory.DmaTransfer | core/src/hardware/mmu.rs:247-253 | `dma_transfer`: store the page, cancel a running DMA, request the next four cycles on. |
| FlatMmu.Memory.GatherShadowOam | core/src/hardware/mmu.rs:255-257 | `gather_shadow_oam`: 0xA0 bytes read in turn from `start`. |
| FlatMmu.Memory.AddNewInterrupts | core/src/hardware/mmu.rs:351-355 | `add_new_interrupts`: a given interrupt is requested in IF, nothing otherwise. |
| FlatMmu.Memory.HandleEvent | core/src/hardware/mmu.rs:267-347 | One arm of the loop of `tick_scheduler`, for an event already popped: the component is notified and the follow-up events pushed. Returns whether it was a V-blank. |
| FlatMmu.Memory.StartUp | core/src/hardware/mmu.rs:273-279 | The NONE arm: OAM search at once and the two APU events at their fixed times. |
| FlatMmu.Memory.StartOamDma | core/src/hardware/mmu.rs:337-340 | The DMARequested arm: the shadow OAM gathered from the page in 0xFF46 goes to the PPU, whose `oam_dma_transfer` schedules the completion. |
| FlatMmu.Memory.NotifyComponent | core/src/hardware/mmu.rs:280-345 | The other arms: the component's handler is called, then the event `Reschedule` names for the line the PPU now reports is pushed. |
| FlatMmu.Memory.Repush | core/src/hardware/mmu.rs:280-331 | The `update_self` push of an arm, for the line the PPU reports after its handler. |
| FlatMmu.Memory.TickScheduler | core/src/hardware/mmu.rs:267-347 | `tick_scheduler` (mmu.rs:267-347): four cycles pass, then the due events are popped, earliest first, and handled until none is due. `handled` lists them in order; the result says whether one was a V-blank. The loop ends because each round lowers the `Weight` of the queue. |
| FlatMmu.Memory.HandleClosest | core/src/hardware/mmu.rs:271-345 | One round of that loop: the closest event, when it is due, popped and handled. |
| FlatMmu.Memory.DoMCycle | core/src/hardware/mmu.rs:383-391 | `do_m_cycle`: the APU ticks four cycles, the scheduler runs, then the timers tick. |
| FlatMmu.Memory.TickApuAndScheduler | core/src/hardware/mmu.rs:384-386 | The first two steps of `do_m_cycle`: the APU tick, then `tick_scheduler`. |
| Header.AsciiIsUtf8 | core/src/hardware/cartridge/header.rs:67-75 | Every ASCII title is valid UTF-8, so `from_utf8` never rejects it. |
| Header.TrimStart | core/src/hardware/cartridge/header.rs:67-75 | `trim_start_matches('\0')`: drops the leading NULs and nothing else. |
| Header.TrimEnd | core/src/hardware/cartridge/header.rs:67-75 | `trim_end_matches('\0')`: drops the trailing NULs and nothing else. |
| Header.TrimNulSpec | core/src/hardware/cartridge/header.rs:67-75 | The trimmed title is a contiguous piece of the raw field with only NULs cut off on either side, and it neither starts nor ends with a NUL. |
| Header.TrimEndPadding | core/src/hardware/cartridge/header.rs:67-75 | Trailing NUL padding never survives the trim. |
| Header.ParseHeaderSpec | core/src/hardware/cartridge/header.rs:48-64 | Parsing succeeds exactly on a ROM of at least 0x150 bytes whose title field is valid UTF-8; the two-byte codes are big-endian, the flags test their documented values and the one-byte fields are the raw bytes. |
| Header.ParseHeaderLocal | core/src/hardware/cartridge/header.rs:48-134 | Only the header bytes 0x134-0x14F decide the parsed header. |
| Header.TitleExample | core/src/hardware/cartridge/header.rs:144-150 | The source's own example: "Hello Wor" padded with NULs in a DMG title field. |
| Hram.Index | core/src/hardware/mmu/hram.rs:19-25 | `(address - HRAM_OFFSET) as usize`. |
| Hram.Hram.constructor | core/src/hardware/mmu/hram.rs:13-17 | `Hram::new`: every cell reads INVALID_READ. |
| Hram.Hram.SetByte | core/src/hardware/mmu/hram.rs:23-25 | `set_byte`: the addressed cell reads back the value and no other cell changes. |
| Instructions.DecodeTargetIsLowBits | core/src/hardware/cpu/instructions.rs:43-56 | The decoded target's discriminant is `opcode & 7`, so the panic arm is unreachable. |
| Instructions.DecodeTargetOfDiscriminant | core/src/hardware/cpu/instructions.rs:31-56 | Decoding the target is inverse to the discriminant on the low three bits. |
| Instructions.DecodeSpec | core/src/hardware/cpu/instructions.rs:15-27 | Decoding succeeds exactly on 0x80-0xBF; there the operation is group `(opcode - 0x80) / 8` (opcode bits 3-5) and the target is bits 0-2, so the opcode is recovered from the instruction. |
| Interrupts.PriorityIsBitOrder | core/src/io/interrupts.rs:4-16 | Each source's discriminant is bit k of a byte, where k is its place in the priority order, and the flag iterator yields the same bits in the same order. |
| Interrupts.BitLayout | core/src/io/interrupts.rs:32-48 | The sources are distinct and occupy bits 0-4, disjoint from the unused bits. |
| Interrupts.FromBitsTruncate | core/src/io/interrupts.rs:32-48 | `InterruptFlags::from_bits_truncate`: keeps the declared bits. Because `UNUSED` covers bits 5-7, every bit is declared and nothing is dropped. |
| Interrupts.ContainsInterrupt | core/src/io/interrupts.rs:51-53 | `InterruptFlags::contains_interrupt`. |
| Interrupts.Rank | core/src/io/interrupts.rs:13-16 | The place of a source in the priority order. |
| Interrupts.FirstPendingIsHighestPriority | core/src/hardware/cpu/fetch.rs:70-83 | The dispatched source is pending, every source of higher priority is not, and nothing is dispatched exactly when none of bits 0-4 is set. |
| Interrupts.InterruptModule.constructor | core/src/io/interrupts.rs:19-24 | `InterruptModule::default()`. |
| Interrupts.InterruptModule.InsertInterrupt | core/src/io/interrupts.rs:27-29 | Requests the interrupts in `interrupt`; no bit of IF is ever cleared. |
| DmgPalette.FromByteSpec | core/src/io/palette.rs:46-53 | Exactly the values 0-3 convert, each to the colour with that discriminant, and `TRANSPARENT` is never produced. |
| DmgPalette.ColorNRoundTrip | core/src/io/palette.rs:22-36 | The four getters never reach the panic, and each reads back exactly the shade packed into its two bits. |
| DmgPalette.PackColorN | core/src/io/palette.rs:22-42 | Every palette byte is the packing of its four decoded colours. |
| DmgPalette.Interpretation | core/src/io/palette.rs:63-69 | Byte 0b1101_0010 decodes to dark grey, white, light grey and black. |
| IoRegisters.Index | core/src/io/io_registers.rs:18-24 | The index `address & 0xFF`, which must fall inside the 0x80-byte array. |
| IoRegisters.IoWindowInRange | core/src/io/io_registers.rs:3-24 | The I/O window 0xFF00-0xFF7F indexes the array one to one. |
| IoRegisters.IORegisters.constructor | core/src/io/io_registers.rs:12-16 | `IORegisters::new`: every register reads INVALID_READ. |
| IoRegisters.IORegisters.WriteByte | core/src/io/io_registers.rs:22-24 | `write_byte`: the addressed register reads back the value; registers at another index keep theirs. |
| Joypad.KeyFlagsShared | core/src/io/joypad.rs:83-90 | Every key owns exactly one of the low four bits, and two keys share it exactly when they are the same key or counterparts (START/DOWN, SELECT/UP, B/LEFT, A/RIGHT). |
| Joypad.NewReadsZero | core/src/io/joypad.rs:45-48 | A fresh joypad reads 0x00: nothing has been selected through `set_register`. |
| Joypad.SetRegisterSpec | core/src/io/joypad.rs:45-48 | After the game writes `mode`, bits 4-5 read back as written, bits 6-7 read as 1, and the low nibble is the inverse of the keys pressed in the groups whose select bit was written as 0. |
| Joypad.PressedKeyReadsLow | core/src/io/joypad.rs:38-79 | A pressed key reads as 0 in its bit whenever its group is selected; a bit reads as 1 when neither of the keys wired to it is pressed in a selected group. |
| Joypad.PressSpec | core/src/io/joypad.rs:51-58 | Pressing a key marks it, and only it, in its own group and leaves the other group alone. |
| Joypad.ReleaseSpec | core/src/io/joypad.rs:61-68 | Releasing a key clears its mark and keeps every other key's. |
| Joypad.JoyPad.constructor | core/src/io/joypad.rs:29-35 | `JoyPad::new`: the state `New()`, which reads no key pressed (`NewReadsZero`). |
| Joypad.JoyPad.GetRegister | core/src/io/joypad.rs:38-40 | `get_register`: the P1 byte `Register` computes from the selected rows and the pressed keys (`PressedKeyReadsLow`). |
| Joypad.JoyPad.SetRegister | core/src/io/joypad.rs:45-48 | `set_register`: the state becomes `WriteRegister` of the old one: only the row-select bits change (`SetRegisterSpec`). |
| Joypad.JoyPad.PressKey | core/src/io/joypad.rs:51-58 | `press_key`: the state becomes `Press` of the old one for the key (`PressSpec`). |
| Joypad.JoyPad.ReleaseKey | core/src/io/joypad.rs:61-68 | `release_key`: the state becomes `Release` of the old one for the key (`ReleaseSpec`). |
| Joypad.JoyPad.UpdateFlags | core/src/io/joypad.rs:70-79 | `update_flags`: the state becomes `Refresh` of the old one: the low nibble recomputed from the selected rows. |
| Mbc.Mbc0.constructor | core/src/hardware/cartridge/mbc.rs:26-28 | `MBC0::new`: the RAM starts filled with 0xFF. |
| Mbc.Mbc0.WriteByte | core/src/hardware/cartridge/mbc.rs:44-49 | `write_byte`: only the RAM window is writable; the ROM never changes. |
| Mbc.WriteRegisterSpec | core/src/hardware/cartridge/mbc.rs:125-134 | Each register range of `write_byte` changes one thing: the RAM enable (low nibble 0xA), bits 0-4 of the ROM bank (never leaving bank 0 selected), bits 5-6 of the ROM bank or, in RAM banking mode, the RAM bank, and the banking mode (a write of exactly 1); the registers stay valid. |
| Mbc.BankFromTwoWrites | core/src/hardware/cartridge/mbc.rs:72-94 | With the intended mask, a lower write then an upper write in ROM banking mode select bank `upper * 32 + lower`, whatever was selected before. |
| Mbc.UpperWriteLosesLowerBits | core/src/hardware/cartridge/mbc.rs:84-94 | As written, the upper write discards the five bits the lower write selected: lower 3 then upper 1 gives bank 0x20 instead of 0x23. |
| Mbc.RomIndexSpec | core/src/hardware/cartridge/mbc.rs:114-117 | The switchable window shows bank `rom_bank`: the index lies in that bank's 16 KiB and keeps the address's offset, within MBC1's 2 MiB. |
| Mbc.RomIndexWraps | core/src/hardware/cartridge/mbc.rs:114-117 | As written, the `u16` product wraps: bank 4 at 0x4000 reads ROM byte 0 instead of byte 0x10000. |
| Mbc.RamIndex | core/src/hardware/cartridge/mbc.rs:96-106 | `write_ram`: the RAM bank offset applies only in RAM banking mode, and the index stays inside the 32 KiB RAM. |
| Mbc.ReadRamIndexAsWritten | core/src/hardware/cartridge/mbc.rs:119-123 | `read_ex_ram` as written: the RAM bank offset applies in both modes; the index stays inside the 32 KiB RAM. |
| Mbc.RamReadMissesWrite | core/src/hardware/cartridge/mbc.rs:96-123 | As written, after a RAM bank is selected and the mode is switched back to ROM banking, a write to 0xA000 lands at RAM index 0 but a read of 0xA000 reads index 0x2000. |
| Mbc.Mbc1.constructor | core/src/hardware/cartridge/mbc.rs:62-64 | `MBC1::new`: bank 1, RAM bank 0, ROM banking mode, RAM disabled and filled with 0xFF. |
| Mbc.Mbc1.EnableRam | core/src/hardware/cartridge/mbc.rs:67-69 | `enable_ram`: the registers become `WithRamEnable` of the old ones (enabled exactly for a low nibble of 0xA), which `WriteRegisterSpec` characterises. |
| Mbc.Mbc1.SetLowerRomBank | core/src/hardware/cartridge/mbc.rs:72-81 | `set_lower_rom_bank`: the registers become `WithLowerBank` of the old ones (bits 0-4 replaced, bank 0 turned into 1). |
| Mbc.Mbc1.SetHigherRomBank | core/src/hardware/cartridge/mbc.rs:84-94 | `set_higher_rom_bank`, corrected: the registers become `WithHigherBank` of the old ones (bits 5-6 of the ROM bank, or the RAM bank in RAM banking mode). |
| Mbc.Mbc1.WriteRam | core/src/hardware/cartridge/mbc.rs:96-106 | `write_ram`: with the RAM enabled, exactly the byte at `RamIndex` changes and reads back; with it disabled, the RAM is unchanged. |
| Mbc.Mbc1.WriteByte | core/src/hardware/cartridge/mbc.rs:125-134 | `write_byte`: below 0x8000 the registers become `WriteRegister` of the old ones and the RAM is kept; at 0xA000-0xBFFF the registers are kept and only the RAM byte at `RamIndex` changes, when enabled; anything else changes nothing. |
| Mbc3.WithLowerBankSpec | core/src/hardware/cartridge/mbc3.rs:41-50 | A bank write selects `value & 0x7F` (1 for 0) wrapped into the ROM image: the selected bank always exists in the image, and it is the written number itself when the image is large enough. A wrap can still land on bank 0. |
| Mbc3.WrapToBankZero | core/src/hardware/cartridge/mbc3.rs:41-50 | A two-bank image maps bank 2 back onto bank 0. |
| Mbc3.WriteRegisterSpec | core/src/hardware/cartridge/mbc3.rs:82-97 | RAM is enabled exactly by a low nibble of 0xA, and the RAM bank keeps bits 1 and 3 of the written value, so only banks 0, 2, 8 and 10 can be selected. |
| Mbc3.RomIndexSpec | core/src/hardware/cartridge/mbc3.rs:59-63 | `(address & 0x3FFF) or rom_bank << 14`: the OR never overlaps, so the switchable window shows 16 KiB of bank `rom_bank`, and a bank that the image holds is always read in bounds. |
| Mbc3.Mbc3.constructor | core/src/hardware/cartridge/mbc3.rs:17-38 | `MBC3::new`: bank 1, RAM disabled; the RAM is the saved battery RAM when there is one, otherwise `ramSize` bytes of 0xFF. |
| Mbc3.Mbc3.ReadExRam | core/src/hardware/cartridge/mbc3.rs:65-72 | `read_ex_ram`: 0xFF while the RAM is disabled; `None` where the bank offset runs past the RAM vector and the source's index panics. |
| Mbc3.Mbc3.GetBatteryRam | core/src/hardware/cartridge/mbc3.rs:74-80 | `get_battery_ram`: the RAM is saved only for a cartridge with a battery. |
| Mbc3.Mbc3.SetLowerRomBank | core/src/hardware/cartridge/mbc3.rs:41-50 | `set_lower_rom_bank`: fails exactly where the source's `%` divides by zero (fewer than 16 KiB of ROM, so no effective bank); otherwise the registers become `WithLowerBank` of the old ones, which `WithLowerBankSpec` characterises. |
| Mbc3.Mbc3.WriteByte | core/src/hardware/cartridge/mbc3.rs:82-97 | `write_byte`. `ok` is false where the source panics: a bank write with an image of less than one bank, or a RAM write past the RAM vector. Nothing changes then. |
| PpuMemory.ColourSlotSpec | core/src/hardware/ppu/memory_binds.rs:274-296 | Each colour is two consecutive bytes of palette memory: the slot of a byte address is the address halved. |
| PpuMemory.IndexRoundTrip | core/src/hardware/ppu/memory_binds.rs:114-116 | Reading BCPS/OCPS and writing the value back restores the index register. |
| PpuMemory.IndexWriteRead | core/src/hardware/ppu/memory_binds.rs:161-163 | Writing BCPS/OCPS and reading it back loses only the unused bit 6. |
| PpuMemory.DataWrite | core/src/hardware/ppu/memory_binds.rs:284-296 | `set_colour_bg_palette_data`: an even address replaces the low byte of its colour, an odd one the high byte; then the index may advance. |
| PpuMemory.DataWriteSpec | core/src/hardware/ppu/memory_binds.rs:284-296 | A data write changes one byte of one colour: the written byte reads back at the address it went to, the other byte of that colour and every other colour are kept, and the index advances modulo 64 exactly when auto-increment is on. |
| PpuMemory.DataRoundTrip | core/src/hardware/ppu/memory_binds.rs:274-296 | Corrected read: without auto-increment, a palette data write reads straight back. |
| PpuMemory.DataReadAsWrittenMisses | core/src/hardware/ppu/memory_binds.rs:274-282 | As written, a palette data write at an even address followed by a read returns the colour's old high byte, not the byte just written. |
| PpuMemory.DataReadAsWrittenExample | core/src/hardware/ppu/memory_binds.rs:274-296 | As written, writing 0x12 at address 0 of a zeroed palette memory reads back 0x00; the corrected read gives 0x12. |
| PpuMemory.LcdControlSpec | core/src/hardware/ppu/memory_binds.rs:322-331 | LCDC always reads back the written byte. The LCD is switched off exactly when bit 7 goes from 1 to 0, which puts LY and the window line at 0 and the mode at H-Blank; it is switched on exactly when bit 7 goes from 0 to 1; only switching on can raise an interrupt (the LCD one). |
| PpuMemory.StatRisingEdge | core/src/hardware/ppu/memory_binds.rs:389-415 | The LCD interrupt is requested exactly on a false-to-true edge of the line while the LCD is on, and a second request straight after never requests it again. |
| PpuMemory.StatWriteSpec | core/src/hardware/ppu/memory_binds.rs:355-373 | A STAT write keeps the three read-only bits (mode and coincidence), takes bits 3-6 from the value and sets bit 7, changing no other register. |
| PpuMemory.StatWriteQuirk | core/src/hardware/ppu/memory_binds.rs:359-366 | The DMG quirk: with the LCD on, outside the transfer and with the line low, any STAT write, even of 0, requests the LCD interrupt. On the CGB a write requests it only when the written enables raise the line. |
| PpuMemory.CanAccessOamSpec | core/src/hardware/ppu/memory_binds.rs:176-188 | OAM is reachable exactly in H-Blank and V-Blank with no OAM DMA running, and whenever OAM is reachable VRAM is too. |
| PpuMemory.TileAddressSpec | core/src/hardware/ppu/memory_binds.rs:436-441 | The 0x1800 bytes of a bank split into 384 tiles of 16 bytes, one to one. |
| PpuMemory.WithVramByte | core/src/hardware/ppu/memory_binds.rs:201-206 | `set_tile_byte` and `set_tilemap_byte`. |
| PpuMemory.VramRoundTrip | core/src/hardware/ppu/memory_binds.rs:194-248 | A VRAM byte reads back after it is written, and writing one address of the same bank leaves every other address as it was. |
| PpuMemory.WithOam | core/src/hardware/ppu/memory_binds.rs:256-260 | `set_oam_byte`. |
| PpuMemory.OamRoundTrip | core/src/hardware/ppu/memory_binds.rs:250-260 | An OAM byte reads back after it is written, and the other 159 are kept. |
| PpuMemory.CgbRegisterWritten | core/src/hardware/ppu/memory_binds.rs:160-165 | The arms of `write_vram` for the CGB palette registers; data writes need VRAM access. |
| PpuMemory.WriteKeepsValid | core/src/hardware/ppu/memory_binds.rs:124-169 | Every write keeps the memories at their sizes and the bank at 0 or 1. |
| PpuMemory.AccessBlocked | core/src/hardware/ppu/memory_binds.rs:96-169 | During the LCD transfer, tile data, tile maps and palette data read 0xFF and ignore writes; OAM does the same whenever it is not accessible. |
| PpuMemory.BusMemoryRoundTrip | core/src/hardware/ppu/memory_binds.rs:96-132 | Through the bus, whatever VRAM or OAM byte the mode lets be written reads back. |
| PpuMemory.RegisterMasks | core/src/hardware/ppu/memory_binds.rs:102-160 | STAT reads with bit 7 set; LY ignores writes; the bank register keeps bit 0 and reads it as `0xFE or bank`; the object priority keeps bit 0; the palette index reads back without bit 6. |
| PpuMemory.RegisterRoundTrip | core/src/hardware/ppu/memory_binds.rs:104-159 | The scroll and window position registers read back what was written. |
| PpuMemory.PaletteRoundTrip | core/src/hardware/ppu/memory_binds.rs:108-157 | The three DMG palette registers read back what was written. |
| PpuMemory.LycWrite | core/src/hardware/ppu/memory_binds.rs:139-145 | An LYC write stores the value; with the LCD off nothing else changes, with it on the coincidence flag is brought up to date. |
| PpuMemory.RemovalsCompose | core/src/hardware/ppu/memory_binds.rs:338-343 | Removing the five event types one after the other removes exactly the PPU events. |
| PpuMemory.PpuEventsRemovedSpec | core/src/hardware/ppu/memory_binds.rs:333-344 | After switching off, no PPU event is left, every other event is kept with its multiplicity, and the heap only shrank. |
| PpuMemory.PPU.WriteVram | core/src/hardware/ppu/memory_binds.rs:124-169 | `write_vram`. |
| PpuMemory.PPU.WriteRegister | core/src/hardware/ppu/memory_binds.rs:134-165 | The register arms of `write_vram`. |
| PpuMemory.PPU.WriteMemory | core/src/hardware/ppu/memory_binds.rs:130-132 | The VRAM and OAM arms of `write_vram`, when the mode lets the write through. |
| PpuMemory.PPU.SetCompareLine | core/src/hardware/ppu/memory_binds.rs:139-145 | The LYC arm of `write_vram`: store, then compare while the LCD is on. |
| PpuMemory.PPU.WriteDmgRegister | core/src/hardware/ppu/memory_binds.rs:136-165 | The scroll, palette, window and bank arms of `write_vram`. |
| PpuMemory.PPU.WriteCgbRegister | core/src/hardware/ppu/memory_binds.rs:160-165 | The CGB palette arms of `write_vram`; data writes need VRAM access. |
| PpuMemory.PPU.LyLycCompare | core/src/hardware/ppu/mod.rs:500-509 | `ly_lyc_compare`: the registers become those `Ppu.LyLycCompare` computes, and the LCD request it makes is OR-ed into the interrupt module's flags. |
| PpuMemory.PPU.SetLcdControl | core/src/hardware/ppu/memory_binds.rs:322-331 | `set_lcd_control`. |
| PpuMemory.PPU.TurnOffLcd | core/src/hardware/ppu/memory_binds.rs:333-344 | `turn_off_lcd`: LY and the window line to 0, mode H-Blank, the PPU's events removed. |
| PpuMemory.PPU.TurnOnLcd | core/src/hardware/ppu/memory_binds.rs:346-353 | `turn_on_lcd`: compare LY with LYC, then start a transfer 76 cycles from now. |
| PpuMemory.PPU.SetLcdStatus | core/src/hardware/ppu/memory_binds.rs:355-373 | `set_lcd_status`. |
| PpuMemory.PPU.RequestStatInterrupt | core/src/hardware/ppu/memory_binds.rs:389-415 | `request_stat_interrupt`. |
| PpuMemory.PPU.UpdateStatLine | core/src/hardware/ppu/memory_binds.rs:389-415 | The part of `request_stat_interrupt` that runs while the LCD is on. |
| MemoryBus.Memory.constructor | core/src/hardware/mmu/mod.rs:150-174 | `Memory::new`: fresh memories, one NONE event at time 0, the boot ROM finished exactly when none is given, and DMG mode when the boot ROM is skipped for a cartridge without CGB support. The cartridge and the `HdmaRegister::new` state come in as parameters. |
| MemoryBus.Memory.ReadByte | core/src/hardware/mmu/mod.rs:176-198 | `read_byte`: the byte the routed component answers. |
| MemoryBus.Memory.FetchFrom | core/src/hardware/mmu/mod.rs:176-275 | The arm of `read_byte` or `read_io_byte` for a source. |
| MemoryBus.Memory.FetchStorage | core/src/hardware/mmu/mod.rs:176-275 | The arms that read the memories the bus owns. |
| MemoryBus.Memory.WriteByte | core/src/hardware/mmu/mod.rs:200-219 | `write_byte` and `write_io_byte`: the new state is `WriteSpec` of the old. That is the serial hook, then the routed component, with the queue effects of DMA and LCDC writes. |
| MemoryBus.Memory.Store | core/src/hardware/mmu/mod.rs:200-330 | The arm of `write_byte` or `write_io_byte` for a target: the new state is `Apply` of the old, including the rescheduling of an LCDC write (`WritePortCall`). |
| MemoryBus.Memory.WritePortCall | core/src/hardware/mmu/mod.rs:277-330 | The arms of `write_io_byte` that hand the value to a component: the new state is `WritePort` of the old, the LCDC arm rescheduling as `set_lcd_control` does. |
| MemoryBus.Memory.RescheduleLcd | core/src/hardware/ppu/memory_binds.rs:322-353 | The scheduler half of `set_lcd_control`: the heap becomes `LcdControlQueue` of the old one for the previous and the written LCDC, and the time is kept. |
| MemoryBus.Memory.RemovePpuEvents | core/src/hardware/ppu/memory_binds.rs:333-344 | The removals of `turn_off_lcd`: the heap becomes `PpuEventsOff` of the old one, which `PpuEventsOffSpec` shows keeps exactly the events that are not the PPU's. |
| MemoryBus.Memory.StoreMemory | core/src/hardware/mmu/mod.rs:200-330 | The arms that write the memories the bus owns. |
| MemoryBus.Memory.DmaTransfer | core/src/hardware/mmu/mod.rs:333-339 | `dma_transfer`: DMA keeps the value, a pending DMATransferComplete is cancelled and DMARequested is pushed four cycles ahead. |
| MemoryBus.Memory.RestartOamDma | core/src/hardware/mmu/mod.rs:333-339 | The scheduler half of `dma_transfer`. |
| MemoryBus.Memory.GatherRange | core/src/hardware/mmu/mod.rs:345-347 | The bytes `start..end` reads, as `gather_gdma_data` and `hdma_transfer` collect them; none when `end <= start`. |
| MemoryBus.Memory.GatherShadowOam | core/src/hardware/mmu/mod.rs:341-343 | `gather_shadow_oam`: the 0xA0 bytes from `start` on, each address cut to 16 bits. |
| MemoryBus.Memory.CopyValues | core/src/hardware/mmu/mod.rs:481-483 | The copy loop of `gdma_transfer` and `hdma_transfer`: value `i` goes to `destination_address + i`. |
| MemoryBus.Memory.CopyFrom | core/src/hardware/mmu/mod.rs:481-483 | The copy loop run from a given state: after it the bus is in `CopyTo` of that state, every value written in order. |
| MemoryBus.Memory.CopyOne | core/src/hardware/mmu/mod.rs:481-483 | Write `i` of the copy loop, to the destination read afresh. |
| MemoryBus.Memory.GdmaTransfer | core/src/hardware/mmu/mod.rs:476-484 | `gdma_transfer`: the gathered range is written to the destination in order. |
| MemoryBus.Memory.HdmaTransfer | core/src/hardware/mmu/mod.rs:487-497 | `hdma_transfer`: sixteen bytes copied, then the HDMA registers advanced. |
| MemoryBus.Memory.HandleEvent | core/src/hardware/mmu/mod.rs:362-470 | One arm of the loop of `tick_scheduler`, for an event already popped: the component is notified and the follow-up events pushed; H-blank also runs a pending HDMA block. Returns whether it was a V-blank. |
| MemoryBus.Memory.StartUp | core/src/hardware/mmu/mod.rs:363-369 | The NONE arm: OAM search at once and the two APU events at their fixed times. |
| MemoryBus.Memory.StartOamDma | core/src/hardware/mmu/mod.rs:443-449 | The DMARequested arm: the shadow OAM gathered from the page DMA names goes to the PPU, whose `oam_dma_transfer` schedules the completion. |
| MemoryBus.Memory.NotifyComponent | core/src/hardware/mmu/mod.rs:370-442 | The other arms: the component's handler is called, then the event `Reschedule` names for the line the PPU now reports is pushed. |
| MemoryBus.Memory.Repush | core/src/hardware/mmu/mod.rs:370-423 | The `update_self` push of an arm, for the line the PPU reports after its handler. |
| MemoryBus.Memory.HblankTransfer | core/src/hardware/mmu/mod.rs:400-411 | The HDMA step of the H-blank arm: a running HDMA-mode transfer copies a block, and if it still runs the CPU stalls (recorded as the M-cycles that pass). |
| MemoryBus.Memory.TickScheduler | core/src/hardware/mmu/mod.rs:357-473 | `tick_scheduler`: four cycles pass, then the due events are popped, earliest first, and handled until none is due. `handled` lists them in order; the result says whether one was a V-blank. The loop ends because handling a due event always lowers the `Weight` of the queue. |
| MemoryBus.Memory.DoMCycle | core/src/hardware/mmu/mod.rs:545-559 | `do_m_cycle`: the APU ticks by one M-cycle (two cycles in double speed, four otherwise), the scheduler runs, then the timers tick. |
| MemoryBus.Memory.TickApuAndScheduler | core/src/hardware/mmu/mod.rs:547-554 | The first two steps of `do_m_cycle`: the APU tick, then `tick_scheduler`. |
| MemoryBus.Memory.HdmaCheckAndTransfer | core/src/hardware/mmu/dma.rs:43-56 | `hdma_check_and_transfer`: during an H-blank HDMA, one M-cycle and then eight more (sixteen in double speed) pass before the sixteen bytes are copied. `runs` lists what each M-cycle handled. |
| MemoryBus.Memory.HandleClosest | core/src/hardware/mmu/mod.rs:361-471 | One round of that loop: the closest event, when it is due, popped and handled. |
| Mmu.SerialEcho | core/src/hardware/mmu/mod.rs:279-284 | The serial hook at the top of `write_io_byte`: 0x81 written to SC prints SB. |
| Mmu.Apply | core/src/hardware/mmu/mod.rs:200-330 | What a target does with a write: the RAMs and registers the bus owns store it, a component's port records the call (`WritePort`), DMA restarts the OAM DMA, and only DMA and LCDC writes change the event queue. |
| Mmu.DmaSpec | core/src/hardware/mmu/mod.rs:333-339 | `dma_transfer`: DMA keeps the value, a pending DMATransferComplete is cancelled and DMARequested is due four cycles later. |
| Mmu.WritePort | core/src/hardware/mmu/mod.rs:277-330 | A write handed to a component outside the model: the call is recorded and nothing else of the bus changes, except that an LCDC write also changes the queue by `LcdControlQueue`. |
| Mmu.PpuEventsOffSpec | core/src/hardware/ppu/memory_binds.rs:333-344 | The five `remove_event_type` calls of `turn_off_lcd` leave exactly the events that are not the PPU's (H-blank, V-blank wait, V-blank, LCD transfer, OAM search), each with its multiplicity. |
| Mmu.LcdControlQueueAgrees | core/src/hardware/ppu/memory_binds.rs:322-353 | The bus's queue after an LCDC write is the one the PPU model's `set_lcd_control` leaves (`PpuMemory.Rescheduled` for the switch `LcdControlWritten` reports). |
| Mmu.LcdControlQueueDominated | core/src/hardware/ppu/memory_binds.rs:333-353 | Switching the LCD off only removes events, and switching it on adds one 76 cycles in the future, so no due event is added. |
| Mmu.WriteSpec | core/src/hardware/mmu/mod.rs:200-219 | `write_byte`: the serial hook, then the routed target takes the value, with the queue effects of `dma_transfer` and `set_lcd_control` (`WriteSettles`). |
| Mmu.ReadAfterWrite | core/src/hardware/mmu/mod.rs:176-219 | A write to work RAM, echo RAM, high RAM or the I/O array is read back unchanged; the boot ROM switch at 0xFF50 is the one I/O array address that does not store its value. |
| Mmu.FetchAfterApply | core/src/hardware/mmu/mod.rs:176-330 | The storage a write reaches answers the written value, in the same routing mode. |
| Mmu.WriteKeepsOthers | core/src/hardware/mmu/mod.rs:200-219 | A write to one RAM cell leaves every other cell of the bus's own memory as it was: two addresses below 0xDFFF or in high RAM never share a cell unless they are equal. |
| Mmu.EchoMirror | core/src/hardware/mmu/mod.rs:184-206 | Echo RAM 0xE000-0xFDFF is work RAM 0x2000 lower, for reads and writes, including the switchable bank at 0xF000-0xFDFF. |
| Mmu.UnusableRegion | core/src/hardware/mmu/mod.rs:188-209 | 0xFEA0-0xFEFF reads 0xFF and ignores writes. |
| Mmu.InvalidReads | core/src/hardware/mmu/mod.rs:222-275 | HDMA1-4 always read 0xFF; HDMA5 and KEY1 read 0xFF in DMG mode and the HDMA register and the prepare-switch register in CGB mode. |
| Mmu.BootRomDisable | core/src/hardware/mmu/mod.rs:313-320 | Writing 0xFF50 while the boot ROM runs finishes it and falls back to DMG mode for a cartridge without CGB support, storing nothing; from then on 0x0000-0x00FF read the cartridge. Once finished, 0xFF50 is plain I/O. |
| Mmu.DmaWrite | core/src/hardware/mmu/mod.rs:333-339 | A DMA write: DMA reads the value back, no DMATransferComplete is left, exactly one DMARequested is added four cycles ahead, and every other event stays. |
| Mmu.DmaQueueSpec | core/src/hardware/mmu/mod.rs:333-339 | The queue after a DMA write holds no DMATransferComplete, exactly one more DMARequested four cycles ahead, and every other event as before. |
| Mmu.WriteSettles | core/src/hardware/mmu/mod.rs:200-339 | A write leaves the time alone and only appends port writes or serial output to the calls. The queue becomes `DmaQueue` for a DMA write, and `LcdControlQueue` of the LCDC the bus read before the write for an LCDC write. Every other write leaves the queue unchanged. |
| Mmu.WriteDominated | core/src/hardware/mmu/mod.rs:200-339 | A write adds no due event to the queue. Restarting the OAM DMA and switching the LCD off only remove events, and the events pushed (DMARequested 4 cycles ahead, LcdTransfer 76 ahead) lie in the future. So the loop of `tick_scheduler` has no more work after a write than before it. |
| Mmu.LcdControlWrite | core/src/hardware/ppu/memory_binds.rs:322-353 | Through the bus, an LCDC write that clears bit 7 of a running LCD leaves no PPU event and every other event with its multiplicity. One that sets bit 7 of a stopped LCD adds exactly an LCD transfer 76 cycles ahead. |
| Mmu.RangeData | core/src/hardware/mmu/mod.rs:345-347 | The bytes `read_byte` answers for `start..end`, in order; the range is empty when `end <= start`. |
| Mmu.ShadowOam | core/src/hardware/mmu/mod.rs:341-343 | `gather_shadow_oam`: the 0xA0 bytes read from `start_address` on, each address cut to 16 bits. |
| Mmu.CopyTo | core/src/hardware/mmu/mod.rs:481-483 | The state after the first `n` writes of the copy loop shared by `gdma_transfer` and `hdma_transfer`: value `i` goes to `destination_address + i`, the destination read afresh before each write. |
| Mmu.CopyToStep | core/src/hardware/mmu/mod.rs:481-483 | One more write of the copy loop. |
| Mmu.GdmaSpec | core/src/hardware/mmu/mod.rs:476-484 | `gdma_transfer`: every gathered byte is written in turn. |
| Mmu.HdmaSpec | core/src/hardware/mmu/mod.rs:487-497 | `hdma_transfer`: the sixteen bytes are written, then the HDMA state advances. |
| Mmu.HblankHdma | core/src/hardware/mmu/mod.rs:400-411 | The HDMA step of the H-blank arm: with a transfer running in HDMA mode, sixteen bytes are copied; if the transfer still runs, the CPU stalls for 1 + (8 << speed) M-cycles. |
| Mmu.Handle | core/src/hardware/mmu/mod.rs:362-470 | One arm of `tick_scheduler`, for an event already popped from the queue. |
| Mmu.Run | core/src/hardware/mmu/mod.rs:361-471 | The loop of `tick_scheduler` handling `es` in turn from `s`: each must be a minimum of the queue and due when it is popped; `None` when one is not. |
| Mmu.RunAppend | core/src/hardware/mmu/mod.rs:361-471 | Handling one more due minimum extends a run. |
| Mmu.RunStep | core/src/hardware/mmu/mod.rs:361-471 | One more round of the loop of `tick_scheduler`: handling the closest due event extends the run, lowers the weight of the queue (so the loop ends) and adds a V-blank exactly when that event is one. |
| Mmu.MCycleStart | core/src/hardware/mmu/mod.rs:547-559 | `do_m_cycle` up to its scheduler loop: the APU ticks for one M-cycle and four cycles pass. |
| Mmu.MCycle | core/src/hardware/mmu/mod.rs:545-559 | `do_m_cycle`: the APU ticks, the scheduler handles `es`, then the timers tick. Four cycles pass whatever was handled. |
| Mmu.MCycleOfRun | core/src/hardware/mmu/mod.rs:545-559 | An M-cycle is its scheduler run followed by exactly one timer tick recorded after it. |
| Mmu.DmaQueueDominated | core/src/hardware/mmu/mod.rs:333-339 | Restarting the OAM DMA removes events and adds one in the future: no due event is added. |
| Mmu.HandleLowersWeight | core/src/hardware/mmu/mod.rs:361-471 | Popping a due event and handling it lowers the weight of the queue it came from, so the loop of `tick_scheduler` ends. |
| Noise.DivisorRule | core/src/hardware/apu/noise_channel.rs:178-190 | The table is the usual noise divisor rule: 8 for code 0, otherwise 16 times the code. |
| Noise.Period | core/src/hardware/apu/noise_channel.rs:155-155 | `divisor << clock_shift` as a `u16`: the bits shifted past bit 15 are lost. |
| Noise.LfsrStepSpec | core/src/hardware/apu/noise_channel.rs:44-55 | One clock keeps the register within 15 bits, in width mode bit 6 is a copy of the new bit 14, and in the long mode a register that is not all zeroes never becomes all zeroes; all zeroes stays all zeroes in both. |
| Noise.LfsrStepsSpec | core/src/hardware/apu/noise_channel.rs:44-55 | However long it runs, the register keeps 15 bits, and in the long mode a triggered register (anything but zero) never locks up at zero. |
| Noise.LfsrStepsAdd | core/src/hardware/apu/noise_channel.rs:44-55 | Splitting a run of clocks: `m` clocks and then `n` more are `m + n` clocks. |
| Noise.SampleSpec | core/src/hardware/apu/noise_channel.rs:53-53 | A sample is 0 or the envelope volume, by bit 0 of the register. |
| Noise.SplitSpec | core/src/hardware/apu/noise_channel.rs:38-42 | The split loses no cycle: whole periods times the load value plus the rest give back the elapsed cycles, and the rest is less than one period. |
| Noise.GeneratedValid | core/src/hardware/apu/noise_channel.rs:44-55 | The whole periods keep the invariant and touch only the register and the sample. |
| Noise.FinishedValid | core/src/hardware/apu/noise_channel.rs:57-81 | The rest of a tick keeps the invariant. |
| Noise.FinishedClocks | core/src/hardware/apu/noise_channel.rs:57-78 | When the leftover cycles reach the timer, the register is clocked once, the sample follows its new bit 0, and the timer restarts from the NR43 period less the overshoot. |
| Noise.FinishedCountsDown | core/src/hardware/apu/noise_channel.rs:79-81 | Short of the timer, the leftover cycles only count the timer down. |
| Noise.TickedSpec | core/src/hardware/apu/noise_channel.rs:37-82 | A tick keeps the invariant and clocks the register once per whole period of the load value, plus once more when the rest reaches the timer; without a clock only the timer moves. |
| Noise.RegisterWrittenValid | core/src/hardware/apu/noise_channel.rs:111-145 | Every register write keeps the channel's invariant. |
| Noise.Nr42RoundTrip | core/src/hardware/apu/noise_channel.rs:98-122 | NR42 reads back exactly the byte written. |
| Noise.Nr43RoundTrip | core/src/hardware/apu/noise_channel.rs:99-127 | NR43 reads back exactly the byte written: shift, width bit and divisor code. |
| Noise.Nr44ReadBack | core/src/hardware/apu/noise_channel.rs:100-106 | NR44 shows only its length-enable bit; the other bits read as 1. |
| Noise.TriggerSpec | core/src/hardware/apu/noise_channel.rs:150-163 | A trigger restarts the register at all ones with a full period and turns the channel on exactly when the DAC is powered; an NR42 write that powers the DAC down silences it. |
| Noise.Nr44Triggers | core/src/hardware/apu/noise_channel.rs:139-141 | Setting bit 7 of NR44 is a trigger, whatever the length counter does. |
| Noise.DacOffSpec | core/src/hardware/apu/noise_channel.rs:116-122 | A NR42 write with a DAC volume of 0 silences the channel: its output volume is 0. |
| Noise.NoiseChannel.constructor | core/src/hardware/apu/noise_channel.rs:11-25 | The `Default` channel: every field zero or off, with the channel's invariant. |
| Noise.NoiseChannel.GetOutputVolume | core/src/hardware/apu/noise_channel.rs:29-31 | `output_volume`: the sample while the channel is on and 0 while it is off. |
| Noise.NoiseChannel.TickTimer | core/src/hardware/apu/noise_channel.rs:37-82 | `tick_timer`: the whole periods, then the leftover cycles. |
| Noise.NoiseChannel.GenerateSamples | core/src/hardware/apu/noise_channel.rs:37-82 | The `while to_generate > 0` loop of `tick_timer`. |
| Noise.NoiseChannel.FinishTimer | core/src/hardware/apu/noise_channel.rs:37-82 | The `if remainder >= self.timer` tail of `tick_timer`. |
| Noise.NoiseChannel.TickEnvelope | core/src/hardware/apu/noise_channel.rs:88-90 | `tick_envelope`: only the envelope changes, clocked once. |
| Noise.NoiseChannel.ReadRegister | core/src/hardware/apu/noise_channel.rs:92-109 | `read_register`: the value `RegisterRead` gives, `None` outside NR40-NR44 where the source panics; the round trips of NR42 and NR43 and the NR44 read-back are proved about it. |
| Noise.NoiseChannel.WriteRegister | core/src/hardware/apu/noise_channel.rs:111-145 | `write_register`: the new state is `RegisterWritten` of the old one, which keeps the invariant and whose NR44 trigger and DAC-off effects are proved. |
| Noise.NoiseChannel.WriteNr42 | core/src/hardware/apu/noise_channel.rs:116-122 | The NR42 arm: the state becomes `RegisterWritten` for 0x21. |
| Noise.NoiseChannel.WriteNr43 | core/src/hardware/apu/noise_channel.rs:123-127 | The NR43 arm: the state becomes `RegisterWritten` for 0x22. |
| Noise.NoiseChannel.WriteNr44 | core/src/hardware/apu/noise_channel.rs:128-142 | The NR44 arm: the state becomes `RegisterWritten` for 0x23. |
| Noise.NoiseChannel.DoTrigger | core/src/hardware/apu/noise_channel.rs:150-163 | `trigger`: the state becomes `Trigger` of the old one (register all ones, full period, on unless the DAC is off). |
| Noise.NoiseChannel.Reset | core/src/hardware/apu/noise_channel.rs:165-176 | `reset`: every field back to its default (the length counter's own state is not modelled). |
| Palette.DisplayFromSpec | core/src/hardware/ppu/palette.rs:13-20 | Building the shade table from four colours and looking a shade up gives back that colour, numbers above 3 giving black. |
| Palette.NewSpec | core/src/hardware/ppu/palette.rs:31-42 | Colour number `i` of a new palette is the shade in bits `2i..2i+1` of its byte, and converting the palette back to a byte gives that byte. |
| Palette.ColourSpec | core/src/hardware/ppu/palette.rs:66-75 | `colour` picks the palette's entry for the colour number, numbers above 3 falling back to entry 3. |
| Palette.DefaultByteIsIdentity | core/src/hardware/ppu/palette.rs:89-101 | With the identity shading 0b1110_0100 every colour number maps to the shade of the same number. |
| Ppu.FilterSpec | core/src/hardware/ppu/mod.rs:378-383 | The filter keeps exactly the entries on the line (a sprite covers rows `y_pos - 16` up to but excluding `y_pos - 16 + size`), and never more than OAM holds. |
| Ppu.LineSpritesSpec | core/src/hardware/ppu/mod.rs:378-386 | At most ten sprites are taken, each of them on the line, and when fewer than eleven are on the line all of them are taken. |
| Ppu.LyLycCompareSpec | core/src/hardware/ppu/mod.rs:500-509 | The comparison sets the flag exactly when LY == LYC, never clears it, touches no other STAT bit and no other register, and only ever adds the LCD interrupt, exactly when the coincidence interrupt is enabled. |
| Ppu.LcdOffOnlyCounts | core/src/hardware/ppu/mod.rs:157-161 | With the LCD off the cycles still accumulate, but nothing else changes and nothing is requested. |
| Ppu.VisibleModeSequence | core/src/hardware/ppu/mod.rs:166-201 | On the visible lines the mode after a cycle is OAM search for the first 80 cycles of a line, LCD transfer up to cycle 252 and H-Blank after. |
| Ppu.EntryOnce | core/src/hardware/ppu/mod.rs:170-201 | A mode is entered at most once per line: a cycle that stays in the mode only counts. |
| Ppu.OamSearchEntry | core/src/hardware/ppu/mod.rs:170-183 | Entering OAM search requests STAT when the mode-2 interrupt is enabled, or on an LY == LYC match with the coincidence interrupt enabled unless the line follows V-Blank; it never requests V-Blank and leaves LY alone. |
| Ppu.LcdTransferEntry | core/src/hardware/ppu/mod.rs:184-191 | Entering LCD transfer draws the line: LY advances by one (wrapping), the window line counter advances exactly when the background and window are enabled and the window covers the line, and no interrupt is requested. |
| Ppu.HBlankEntry | core/src/hardware/ppu/mod.rs:192-200 | Entering H-Blank requests STAT exactly when the mode-0 interrupt is enabled. |
| Ppu.VBlankEntry | core/src/hardware/ppu/mod.rs:202-224 | Entering V-Blank always requests V-Blank, requests STAT when the mode-1 interrupt is enabled (or on an LY == LYC match with the coincidence interrupt), resets the window line counter and starts the V-Blank counter at the cycles past line 144. |
| Ppu.VBlankLines | core/src/hardware/ppu/mod.rs:225-238 | During V-Blank, before the frame total, LY advances when the V-Blank counter passes a line, and line 154 wraps LY to 0 and takes one frame off the cycle counter; no mode changes and V-Blank is not requested again. |
| Ppu.FrameEnd | core/src/hardware/ppu/mod.rs:239-244 | Past the frame total LY restarts at 0 and the cycle counter drops by one frame. |
| Ppu.StatEnablesKept | core/src/hardware/ppu/mod.rs:156-248 | No cycle clears the coincidence flag or touches STAT bits 3-7 (the interrupt enables): only the mode bits and the coincidence flag change. |
| Ppu.PixelValueSpec | core/src/hardware/ppu/mod.rs:468-474 | The colour number is below 4 and is built from the two planes' bits. |
| Ppu.DrawnAfter | core/src/hardware/ppu/mod.rs:455-466 | How many of the first `k` pixels of a tile `bg_window_render_pixels` writes: none once the line is full, otherwise those past the skipped ones, up to the end of the line. |
| Ppu.RenderCounters | core/src/hardware/ppu/mod.rs:455-466 | The counters after a whole tile. |
| Ppu.BgPixelsAdvance | core/src/hardware/ppu/mod.rs:277-327 | The renderer's counters agree with the walk: each tile advances the pixel counter as `BgPixelsBefore` says, and the whole walk fills the 160 columns exactly. |
| Ppu.BgColumnWraps | core/src/hardware/ppu/mod.rs:299-308 | The wrap-around correction is exact: the k-th tile read is column (SCX / 8 + k) mod 32 of the background line's tile row, so the walk stays on one row of the 32 x 32 map and never leaves it. |
| Ppu.WindowStartSpec | core/src/hardware/ppu/mod.rs:330-371 | With the corrected start the first pixel drawn, at column WX - 7, is the leftmost pixel (bit 7) of the window's first tile, that tile is drawn whole unless the line ends, and the tiles walked reach the end of the line. |
| Ppu.WindowStartAsWrittenSkips | core/src/hardware/ppu/mod.rs:330-371 | The as-written start skips pixels of the first window tile: with WX = 10 the window starts at column 3 but shows its tile column 3 there (bit 4), and only 5 pixels of the first tile are drawn; the corrected start shows column 0 (bit 7) at column 3. |
| Ppu.PPU.constructor | core/src/hardware/ppu/mod.rs:125-148 | `PPU::new`: LCDC 0x93, everything else zero, the scanline white. |
| Ppu.PPU.DoCycle | core/src/hardware/ppu/mod.rs:156-248 | `do_cycle`: advances the mode machine by `cpuClockIncrement` cycles. |
| Ppu.PPU.VisibleLine | core/src/hardware/ppu/mod.rs:166-201 | The visible-lines branch of `do_cycle`: at most one mode entry. |
| Ppu.PPU.VBlankPeriod | core/src/hardware/ppu/mod.rs:202-245 | The V-Blank branch of `do_cycle`. |
| Ppu.PPU.CompareLine | core/src/hardware/ppu/mod.rs:500-509 | `ly_lyc_compare` on the fields. |
| Ppu.PPU.DrawScanlineCounters | core/src/hardware/ppu/mod.rs:250-275 | The counters `draw_scanline` advances: the window line counter (in `draw_window_scanline`) and LY. |
| Ppu.PPU.BgWindowRenderPixels | core/src/hardware/ppu/mod.rs:455-466 | `bg_window_render_pixels`: writes a tile's row, leftmost pixel (bit 7) first, at `pixelCounter` onwards, after skipping `xRemainder` pixels, and never past column 159. |
| PpuDma.Unpacked | core/src/hardware/ppu/dma.rs:15-37 | The 40 entries a transfer of `values` produces. |
| PpuDma.UnpackRoundTrip | core/src/hardware/ppu/dma.rs:15-37 | Unpacking loses nothing: the entries pack back to exactly the copied bytes, and packing 40 entries then unpacking gives them back. |
| PpuDma.OamDma.OamDmaFinished | core/src/hardware/ppu/dma.rs:9-12 | `oam_dma_finished`: called when the completion event fires. |
| PpuDma.OamDma.OamDmaTransfer | core/src/hardware/ppu/dma.rs:15-37 | `oam_dma_transfer`: a batch of anything but 0xA0 bytes panics. The 40 entries are replaced by the unpacked bytes, the transfer is marked running and its completion is scheduled 644 cycles ahead. |
| RegisterFlags.ModeFlagSpec | core/src/hardware/ppu/register_flags.rs:133-141 | The mode bits decode as 0 H-Blank, 1 V-Blank, 2 OAM search and 3 LCD transfer, and the code of the decoded mode is the two bits themselves. |
| RegisterFlags.WithModeSpec | core/src/hardware/ppu/register_flags.rs:143-151 | Setting a mode and decoding it gives the mode back, and bits 2-7 are kept. |
| RegisterFlags.WithModeIdempotent | core/src/hardware/ppu/register_flags.rs:133-151 | Setting the mode the register already shows changes nothing. |
| RegisterFlags.BgWindowTileAddressSpec | core/src/hardware/ppu/register_flags.rs:122-130 | The BG/window tile data base is 0x8000 exactly when LCDC bit 4 is set, and 0x8800 exactly when it is clear. |
| RegisterFlags.CgbPaletteNumberSpec | core/src/hardware/ppu/register_flags.rs:116-120 | The CGB palette number is below 8, depends only on the attribute's three low bits, and is those bits' value. |
| RegisterFlags.LcdStatus.SetModeFlag | core/src/hardware/ppu/register_flags.rs:143-151 | `set_mode_flag`: the bits become `WithMode` of the old ones, and reading the mode back gives the mode set (`WithModeSpec` adds that bits 2-7 are kept). |
| Scheduler.DiscriminantInjective | core/src/scheduler.rs:4-19 | The discriminants are distinct, so the type is recovered from its byte. |
| Scheduler.CompareByTimestamp | core/src/scheduler.rs:27-43 | The ordering ignores the event type: it is the order of the timestamps, agrees with the equality, and is antisymmetric. |
| Scheduler.UpdateSelfComposes | core/src/scheduler.rs:49-53 | Reusing an event twice is reusing it once with the summed delta; the reused event never lies earlier than the original. |
| Scheduler.ClosestExists | core/src/scheduler.rs:78-85 | A non-empty heap has a minimum, so `peek` only fails on an empty heap. |
| Scheduler.ClosestDecidesDue | core/src/scheduler.rs:78-85 | The test in `pop_closest` on the minimum decides whether ANY event is due: the minimum is at or before the current time exactly when some event is. |
| Scheduler.FilteredSpec | core/src/scheduler.rs:107-117 | A filtered heap holds no event of the removed type and keeps every other event with its multiplicity; filtering again removes nothing more. |
| Scheduler.Scheduler.constructor | core/src/scheduler.rs:64-74 | `Scheduler::new`: the time is 0 and the heap holds one NONE event at 0. |
| Scheduler.Scheduler.PopClosest | core/src/scheduler.rs:78-85 | `pop_closest`: if the earliest event is due (its timestamp is at or before the current time) it is removed and returned; otherwise the heap is left alone and nothing is returned. |
| Scheduler.Scheduler.PushEvent | core/src/scheduler.rs:88-90 | `push_event`. |
| Scheduler.Scheduler.PushRelative | core/src/scheduler.rs:92-97 | `push_relative`: the event is due `relative` cycles after the current time. |
| Scheduler.Scheduler.PushFullEvent | core/src/scheduler.rs:103-105 | `push_full_event`. |
| Scheduler.Scheduler.RemoveEventType | core/src/scheduler.rs:107-117 | `remove_event_type`: the heap rebuilt from the events of every other type. |
| Scheduler.Scheduler.AddCycles | core/src/scheduler.rs:120-122 | `add_cycles`. |
| SquareChannel.DutyCycle | core/src/hardware/apu/square_channel.rs:29-34 | The four patterns are high on 1, 2, 4 and 6 of their 8 steps. |
| SquareChannel.DutyOutput | core/src/hardware/apu/square_channel.rs:53-57 | The output level of a duty step: the envelope volume on a high step of the pattern, 0 on a low one. |
| SquareChannel.TickedSpec | core/src/hardware/apu/square_channel.rs:45-60 | A tick either only counts the timer down, or, once it reaches 0, reloads a period of 4 to 8192 cycles and moves to the next duty step, whose output is the envelope volume on a high step and 0 on a low one. The channel stays within its invariant and the timer is never left at 0. |
| SquareChannel.RegisterWrittenValid | core/src/hardware/apu/square_channel.rs:75-110 | Register writes keep the channel's invariant. |
| SquareChannel.FrequencyFromTwoWrites | core/src/hardware/apu/square_channel.rs:90-96 | NRx3 then NRx4 set the whole 11-bit frequency: the low byte from NRx3, bits 8-10 from bits 0-2 of NRx4, whatever the frequency was. |
| SquareChannel.ReadAfterWrite | core/src/hardware/apu/square_channel.rs:62-110 | What a register reads after a write: the duty bits of NRx1 (the length bits read as 1), NRx2 unchanged, NRx3 never, and bit 6 of NRx4. |
| SquareChannel.DacOffSilences | core/src/hardware/apu/square_channel.rs:83-89 | An NRx2 write that powers the DAC down silences the channel. |
| SquareChannel.TriggerSpec | core/src/hardware/apu/square_channel.rs:115-130 | A trigger selects the 50 % pattern, reloads a full timer period and restarts the envelope, and turns the channel on exactly when the DAC is powered and the sweep does not object; nothing else changes. |
| SquareChannel.Nrx4Triggers | core/src/hardware/apu/square_channel.rs:104-106 | Setting bit 7 of NRx4 triggers the channel, whatever the length counter does. |
| SquareChannel.SquareWaveChannel.constructor | core/src/hardware/apu/square_channel.rs:14-26 | The `Default` channel: every field zero or off, with the channel's invariant. |
| SquareChannel.SquareWaveChannel.GetOutputVolume | core/src/hardware/apu/square_channel.rs:37-39 | `output_volume`: the sample while the channel is on and 0 while it is off. |
| SquareChannel.SquareWaveChannel.TickTimer | core/src/hardware/apu/square_channel.rs:45-60 | `tick_timer`: the new state is `Ticked` of the old one, which `TickedSpec` characterises (count down, or reload and step the duty pattern). |
| SquareChannel.SquareWaveChannel.NextDutyStep | core/src/hardware/apu/square_channel.rs:45-60 | The expired-timer branch of `tick_timer`: the timer reloaded from the frequency and the next duty step's output, as `Ticked` says. |
| SquareChannel.SquareWaveChannel.TickEnvelope | core/src/hardware/apu/square_channel.rs:145-147 | `tick_envelope`: only the envelope changes, clocked once. |
| SquareChannel.SquareWaveChannel.ReadRegister | core/src/hardware/apu/square_channel.rs:62-73 | `read_register`: the value `RegisterRead` gives, `None` where the source panics; `ReadAfterWrite` states what each register reads after a write. |
| SquareChannel.SquareWaveChannel.WriteRegister | core/src/hardware/apu/square_channel.rs:75-110 | `write_register`: the new state is `RegisterWritten` of the old one, which keeps the invariant and whose effects are proved in `ReadAfterWrite`, `FrequencyFromTwoWrites`, `DacOffSilences` and `Nrx4Triggers`. |
| SquareChannel.SquareWaveChannel.WriteNrx2 | core/src/hardware/apu/square_channel.rs:83-89 | The NRx2 arm: the state becomes `RegisterWritten` for 0x12. |
| SquareChannel.SquareWaveChannel.WriteNrx4 | core/src/hardware/apu/square_channel.rs:91-107 | The NRx4 arm: the state becomes `RegisterWritten` for 0x14. |
| SquareChannel.SquareWaveChannel.DoTrigger | core/src/hardware/apu/square_channel.rs:115-130 | `trigger`: the state becomes `Trigger` of the old one, which `TriggerSpec` characterises. |
| SquareChannel.SquareWaveChannel.Reset | core/src/hardware/apu/square_channel.rs:132-143 | `reset`: every field back to its default (the length counter's own state is not modelled). |
| Timer.ClockFromByte | core/src/io/timer.rs:183-193 | `InputClock::from`: the clock named by bits 0-1; the panic arm cannot be reached. |
| Timer.RelevantBitOfSelect | core/src/io/timer.rs:195-204 | Select values 0, 1, 2, 3 watch the clock bits 0x200, 0x008, 0x020, 0x080. |
| Timer.ControlToBits | core/src/io/timer.rs:157-163 | `TimerControl::to_bits`. |
| Timer.ControlFromByte | core/src/io/timer.rs:174-181 | `TimerControl::from`: enable is bit 2, the clock select bits 0-1. |
| Timer.ControlBitsRoundTrip | core/src/io/timer.rs:157-181 | Reading TAC back returns the low three bits of what was written. |
| Timer.ControlRoundTrip | core/src/io/timer.rs:157-181 | Decoding the bits of a control gives the control back. |
| Timer.Divider | core/src/io/timer.rs:43-45 | `divider_register`: DIV is the high byte of the system clock. |
| Timer.GatedFall | core/src/io/timer.rs:63-76 | The detector input falls exactly when the timer is enabled and the selected bit falls. |
| Timer.ControlFall | core/src/io/timer.rs:131-154 | Across a TAC write the detector input falls exactly when the timer was enabled with its old bit high and is now either disabled or watching a low bit: the two cases `set_timer_control` tests. |
| Timer.WriteControlCases | core/src/io/timer.rs:131-154 | A TAC write as the two cases `set_timer_control` tests: disabling, and switching to a low bit. |
| Timer.IncrementCounterSpec | core/src/io/timer.rs:78-84 | TIMA + 1 wraps to 0 exactly from 0xFF, the overflow flag says so, and nothing else changes. |
| Timer.ReloadSpec | core/src/io/timer.rs:53-58 | A pending overflow loads TMA into TIMA; the clock, TMA and TAC stay. |
| Timer.MoveClockSpec | core/src/io/timer.rs:60-69 | Moving the clock sets the clock, keeps TMA, TAC and the reload flag, and adds one to TIMA exactly when the detector input falls. |
| Timer.TickSpec | core/src/io/timer.rs:47-72 | A tick adds 4 to the system clock (bv16 addition wraps at 16 bits), requests the TIMER interrupt exactly when an overflow was pending, and leaves TMA and TAC alone. |
| Timer.TickCounter | core/src/io/timer.rs:47-72 | After a tick TIMA is the reloaded (TMA) or kept value, plus one exactly when the gated clock signal fell; the overflow flag is set exactly when that increment wrapped. |
| Timer.OverflowReloadsOneTickLater | core/src/io/timer.rs:47-84 | The overflow protocol: when TIMA = 0xFF meets a falling edge it reads 0 and only a flag is set; the next tick loads TMA and returns the TIMER interrupt; the tick after that returns nothing, so exactly one interrupt is requested. |
| Timer.WriteCounterCancelsPendingOverflow | core/src/io/timer.rs:90-106 | Writing TIMA while the overflow is pending (flag set, TIMA = 0) cancels the reload and the interrupt: TIMA holds the written value and the next tick requests nothing. |
| Timer.WriteCounterIgnoredDuringReload | core/src/io/timer.rs:99-105 | A TIMA write during the reload tick is ignored: TIMA keeps TMA. |
| Timer.WriteCounterStores | core/src/io/timer.rs:90-106 | Outside the overflow window a TIMA write stores the value and nothing else. |
| Timer.WriteModuloSpec | core/src/io/timer.rs:110-117 | A TMA write sets TMA, and during the reload tick TIMA as well. |
| Timer.WriteDividerSpec | core/src/io/timer.rs:120-129 | A DIV write zeroes the whole system clock (DIV then reads 0) and ticks TIMA once exactly when the gated signal was high, since it falls to 0. |
| Timer.WriteControlSpec | core/src/io/timer.rs:131-154 | A TAC write stores the decoded control (reading back the low three bits written), changes nothing but TIMA and the overflow flag besides, and ticks TIMA at most once. |
| Timer.WriteControlEdges | core/src/io/timer.rs:131-154 | Disabling the timer from a high detector input ticks TIMA; a disabled timer never ticks on a TAC write. |
| Timer.DividerWriteTicksDisabledTimer | core/src/io/timer.rs:120-129 | The source's DIV write ticks TIMA even with the timer disabled, where the gated detector input was low all along. |
| Timer.ControlWriteTicksOnNewBit | core/src/io/timer.rs:147-153 | The source's TAC write that disables the timer and switches the clock select at once ticks TIMA when only the NEW select bit is high, although the detector input (the old bit) was low. |
| Timer.TimerRegisters.constructor | core/src/io/timer.rs:32-40 | `TimerRegisters::default()`. |
| Timer.TimerRegisters.DividerRegister | core/src/io/timer.rs:43-45 | `divider_register`. |
| Timer.TimerRegisters.TickTimers | core/src/io/timer.rs:47-72 | `tick_timers`: the delayed reload, then four clock cycles. |
| Timer.TimerRegisters.ReloadOverflowed | core/src/io/timer.rs:49-58 | The first half of `tick_timers`: the reload one cycle after an overflow. |
| Timer.TimerRegisters.AdvanceClock | core/src/io/timer.rs:60-69 | The second half of `tick_timers`: four cycles and the gated falling edge. |
| Timer.TimerRegisters.TickTimer | core/src/io/timer.rs:78-84 | `tick_timer`. |
| Timer.TimerRegisters.SetTimerCounter | core/src/io/timer.rs:90-106 | `set_timer_counter`. |
| Timer.TimerRegisters.SetTma | core/src/io/timer.rs:110-117 | `set_tma`. |
| Timer.TimerRegisters.SetDivider | core/src/io/timer.rs:120-129 | `set_divider`, with the edge test gated by the enable bit. |
| Timer.TimerRegisters.SetTimerControl | core/src/io/timer.rs:131-154 | `set_timer_control`, with disabling testing the old select bit. |
| Timing.PenaltyIgnoresWrap | core/src/hardware/ppu/timing.rs:51-60 | The wrapping `u8` sum loses only the carry out of bit 7, so its value modulo 8 depends only on the two operands modulo 8, as the unbounded sum's does. |
| Timing.SpritePenaltyBounds | core/src/hardware/ppu/timing.rs:51-59 | Each sprite adds between 6 and 11 cycles. |
| Timing.PenaltySumBounds | core/src/hardware/ppu/timing.rs:45-60 | n sprites add between 6n and 11n cycles. |
| Timing.TransferDurationSpec | core/src/hardware/ppu/timing.rs:30-64 | The duration is the base plus the fine scroll, plus 6 for the window, plus 6 to 11 for each of the at most ten sprites on the line; so it lies between 172 and 295, the `u8` sum of the penalties never overflows, and with no sprite, no fine scroll and no window it is exactly 172. |
| Timing.TransferTiming.GetLcdTransferDuration | core/src/hardware/ppu/timing.rs:16-19 | `get_lcd_transfer_duration`: computes the duration and caches it. |
| Timing.TransferTiming.GetHblankDuration | core/src/hardware/ppu/timing.rs:22-25 | `get_hblank_duration`: 376 minus the cached transfer, so OAM search, transfer and H-Blank make up one 456-cycle line, and H-Blank lasts between 81 and 204 cycles. |
| Wave.DefaultValid | core/src/hardware/apu/wave_channel.rs:25-32 | The power-on state satisfies the invariant: the DMG samples are nibbles. |
| Wave.VolumeShiftSpec | core/src/hardware/apu/wave_channel.rs:123-133 | The four codes are the only values `value & 0x60` can take, so the panic arm of the source's match is unreachable; the shifts give the sample silenced, in full, halved and quartered. |
| Wave.TickedValid | core/src/hardware/apu/wave_channel.rs:42-61 | A tick keeps the channel's invariant; it either counts the timer down by one, or at 0 reloads a period of 2 to 4096 ticks and moves the sample pointer on modulo 32. The output is the new sample shifted by the volume exactly when the channel is enabled and powered, and 0 otherwise. |
| Wave.CountsDown | core/src/hardware/apu/wave_channel.rs:42-52 | A timer at `t` holds the sample pointer for `t` ticks and is then at 0; the next tick moves to the next sample. So each sample plays for `period + 1` ticks. |
| Wave.RegisterWrittenValid | core/src/hardware/apu/wave_channel.rs:84-107 | Register writes keep the channel's invariant. |
| Wave.WaveRamRoundTrip | core/src/hardware/apu/wave_channel.rs:76-104 | A wave RAM write stores the high nibble in sample `2i` and the low nibble in sample `2i + 1`, changes no other sample and nothing else, and reads back as the byte written. |
| Wave.ControlReadBack | core/src/hardware/apu/wave_channel.rs:67-89 | NR30 reads back bit 7, the DAC power; NR32 reads back bits 5-6, the volume code, and sets the matching shift; NR33 never reads back. |
| Wave.FrequencyFromTwoWrites | core/src/hardware/apu/wave_channel.rs:90-94 | NR33 then NR34 set the whole 11-bit frequency: the low byte from NR33 and bits 8-10 from bits 0-2 of NR34. |
| Wave.Nr34Spec | core/src/hardware/apu/wave_channel.rs:91-121 | An NR34 write with bit 7 set restarts the channel: pointer 0, a full period, the volume shift of the stored code, and the channel enabled exactly when the DAC is powered. With bit 7 clear it switches the channel off. |
| Wave.EnableAsWrittenIgnoresDac | core/src/hardware/apu/wave_channel.rs:91-121 | As written, an NR34 trigger leaves the channel enabled when the DAC is off, because `enabled` was already set from bit 7 before `enable` runs: the power-on channel (DAC off) reads as enabled after writing 0x80. |
| Wave.EnableAgrees | core/src/hardware/apu/wave_channel.rs:112-121 | Apart from `enabled`, the intended trigger is the source's. |
| Wave.WaveformChannel.constructor | core/src/hardware/apu/wave_channel.rs:25-32 | `WaveformChannel::new`: the default fields with the DMG power-on samples, satisfying the channel's invariant. |
| Wave.WaveformChannel.TickTimer | core/src/hardware/apu/wave_channel.rs:42-61 | `tick_timer`: the new state is `Ticked` of the old one, which keeps the invariant and moves the sample pointer once per period (`TickedValid`, `CountsDown`). |
| Wave.WaveformChannel.ReadRegister | core/src/hardware/apu/wave_channel.rs:67-82 | `read_register`: the value `RegisterRead` gives, `None` where the source panics; the read-backs are proved in `ControlReadBack` and `WaveRamRoundTrip`. |
| Wave.WaveformChannel.WriteRegister | core/src/hardware/apu/wave_channel.rs:84-107 | `write_register`: the new state is `RegisterWritten` of the old one, which keeps the invariant (`RegisterWrittenValid`). |
| Wave.WaveformChannel.WriteNr34 | core/src/hardware/apu/wave_channel.rs:91-98 | The NR34 arm: the state becomes `RegisterWritten` for 0x1E, a trigger when bit 7 is set (`Nr34Spec`). |
| Wave.WaveformChannel.WriteSamples | core/src/hardware/apu/wave_channel.rs:99-104 | The wave RAM arm: the state becomes `RegisterWritten` for the address, two nibbles stored (`WaveRamRoundTrip`). |
| Wave.WaveformChannel.DoEnable | core/src/hardware/apu/wave_channel.rs:112-121 | `enable`, with `enabled` following the DAC as intended. |
| Wave.WaveformChannel.Restart | core/src/hardware/apu/wave_channel.rs:112-121 | The first three steps of `enable`: `enabled` from the DAC, the timer reloaded, the sample pointer reset. |
| Wave.WaveformChannel.SetVolumeFromVal | core/src/hardware/apu/wave_channel.rs:123-133 | `set_volume_from_val`: the state becomes `VolumeSet` of the old one; `VolumeShiftSpec` shows the panic arm cannot be reached. |
| Wram.EchoIndex | core/src/hardware/mmu/wram.rs:37-44 | The cell behind an echo address: `address - 0x2000` routed to bank 0 or the switchable bank. `None` is the panic on an address below 0x2000 (the subtraction underflows) or one that does not land in 0xC000-0xDFFF. |
| Wram.EchoMirrorsWram | core/src/hardware/mmu/wram.rs:37-66 | Echo RAM is defined exactly from 0xE000 upwards, and there it uses the same cell as the address 0x2000 lower: bank 0 for 0xE000-0xEFFF, the selected bank above. |
| Wram.SelectBankSpec | core/src/hardware/mmu/wram.rs:68-75 | The switchable bank is never bank 0: it is the written bank number (bits 0-2) or 1 when that is zero, and reading SVBK back returns the written bits 0-2 with bits 3-7 set. |
| Wram.Wram.constructor | core/src/hardware/mmu/wram.rs:20-26 | `Wram::new`: every cell reads 0xFF and bank 1 is selected. |
| Wram.Wram.ReadEchoRam | core/src/hardware/mmu/wram.rs:37-44 | `read_echo_ram`: the cell EchoIndex routes to; `None` is the panic. |
| Wram.Wram.ReadBankSelect | core/src/hardware/mmu/wram.rs:46-48 | `read_bank_select`: SVBK reads 0xF8 with the stored bank number in bits 0-2. |
| Wram.Wram.WriteBank0 | core/src/hardware/mmu/wram.rs:50-52 | `write_bank_0`: exactly the bank-0 cell of the address changes. |
| Wram.Wram.WriteBankN | core/src/hardware/mmu/wram.rs:54-57 | `write_bank_n`: exactly the cell of the address in the selected bank changes. |
| Wram.Wram.WriteEchoRam | core/src/hardware/mmu/wram.rs:59-66 | `write_echo_ram`; `ok` is false, and nothing changes, where the source panics. |
| Wram.Wram.WriteBankSelect | core/src/hardware/mmu/wram.rs:68-75 | `write_bank_select`: the register and internal bank become `SelectBank` of the value (never bank 0, by `SelectBankSpec`); the memory is untouched. |

## Left out

- Front-ends, test harnesses, benchmarks, debugging views, logging and the `println!` of serial output. A serial write is recorded as a `SerialOutput` call of the bus and otherwise stored like any register write.
- Floating point: the APU's sample generation, mixing and high-pass filter, and the lazy `APU::synchronise` bookkeeping. The model stops at the integer state of the voices and the frame sequencer.
- `SweepFeature` (channel_features.rs:66-88) refers to a field that channel_features.rs does not define. Voice 1's sweep is only the NR10 byte it reads back as.
- The voices import their length counter, `LengthFeature`, from channel_features.rs, which does not define it. It is reduced to its `length_enable` flag, plus an input saying whether its extra clock switches the channel off.
- apu/mod.rs calls wave-channel methods (`triggered`, `reset`, `tick_timer(cycles)`) that wave_channel.rs does not define. Voice 3 is modelled as wave_channel.rs writes it, and the APU sees the voices only through their `triggered` flags.
- `Tile::get_pixel`, `get_pixel_line` and `update_pixel_data` are called by the PPU code, but the `Tile` of tiledata.rs declares only its 16 data bytes and none of these methods. The CGB renderer keeps each tile already decoded, as 64 colour numbers (`CgbPpu.Tile`), and `get_pixel(j)` is entry `j`. How a VRAM write re-decodes a tile is not modelled.
- The CGB renderer writes a palette number and a colour number (`CgbPpu.Shade`) where the source writes the RGB value the palette holds. The RGB contents of the CGB palettes are not part of this model.
- `CPU::stop` is `unimplemented!`, so STOP, like the unused opcodes, is the `None` of `CpuSpec.ExecuteOpcode` and the `false` of `Cpu.Cpu.Execute`.
- The CPU's `ToU8` and `SetU8` implementations for its operands are defined outside the files modelled here (traits.rs only declares the traits). `CpuSpec.ReadU8` and `CpuSpec.WriteU8` give each operand the meaning the instruction table assigns to it: a register, `(BC)`, `(DE)`, `(HL)`, `(HL+)`, `(HL-)`, `(a16)`, `(0xFF00 + C)`, `(0xFF00 + a8)`, or an immediate. They spend one M-cycle per memory access.
- The CPU's memory mapper is a map of bytes plus IF, IE, the timer and the PPU's interrupt output (`CpuSpec.Bus`). The routing of the real bus is modelled separately, in `BusRouting`, `Mmu` and `FlatMmu`, and is not composed with the CPU.
- The PPU's `do_cycle` as seen from the CPU is a parameter: `CpuSpec.Bus.ppu` gives the interrupt bits the PPU returns at each cycle count. The PPU's own mode machine is modelled in `Ppu`.
- `add_cycles` also calls `apu.tick(4)`. The CPU model does not include the APU, so that call is not modelled.
- The bus's components (cartridge, PPU, APU, timer, joypad, interrupt registers, boot ROM image, HDMA registers) are seen through the calls the bus makes to them. `Mmu.Devices` gives what a read returns and which line the PPU reports, as functions of the calls made so far.
- In the H-blank arm of `tick_scheduler`, an HDMA block that leaves the transfer running makes the source call `do_m_cycle` nine (or seventeen) times from inside the scheduler loop. `Mmu.HblankHdma` records those M-cycles as one `MCyclesPassed` call and does not re-enter the loop. `MemoryBus.Memory.HdmaCheckAndTransfer` does run its M-cycles.
- The `GDMARequested` and `GDMATransferComplete` arms of `tick_scheduler` (core/src/hardware/mmu/mod.rs:450-470) are not modelled. The `EventType` of scheduler.rs has no such variants, so `Scheduler.EventType` has none either. The copy those arms start, `gdma_transfer`, is modelled (`Mmu.GdmaSpec`, `MemoryBus.Memory.GdmaTransfer`). Not modelled are the completion event pushed `transfer_size / 16 * 32` cycles ahead (64 in double speed), the M-cycles run while waiting for it, and the advance of the HDMA addresses when it completes.
- The timer calls of the bus (`set_divider`, `set_timer_counter`, `set_timer_control` and `timer_overflow` at core/src/hardware/mmu/mod.rs:287-290 and 438) pass the scheduler, but the methods of timer.rs take none, and timer.rs defines no `timer_overflow`. The `TimerOverflow` arm of `Mmu.Handle` therefore only records the call and pushes nothing, and timer port writes leave the queue alone.
- The square and noise voices read `envelope.volume_load`, a field that channel_features.rs does not define. The model keeps it as a field of the voice (`volumeLoad`), set to bits 4-7 of each NRx2 write, the value the envelope's `write_register` stores in its `volume` (channel_features.rs:57-63).
- The BGP, OBP0 and OBP1 arms of `write_vram` (core/src/hardware/ppu/memory_binds.rs:146-157) also call `handle_mid_scanline_palette(scheduler)`, which neither memory_binds.rs nor ppu/mod.rs defines. `PpuMemory` stores the palette byte only and does not model that call.
- The older bus (`FlatMmu`) does not model what the timer, APU and PPU push onto the scheduler from their own port writes, nor its `tick_timers` call. Only the calls are recorded.
- The scheduler is a binary heap in the source. Here it is the multiset of its events, so which of two events with the same timestamp comes out first is left open, as the source leaves it.
- `FlatMemory.Memory.ReadByte` and `FlatMemory.Memory.SetByte` require an address below 0xFFFF. memory.rs indexes an array of 0xFFFF bytes, so address 0xFFFF panics there.
- `Mbc3`: the source writes the RAM bank as `value & 0xA`, with a TODO beside it. The intent is unclear, so it is modelled as written and not listed as a finding.
- Unsigned counters that a debug build would panic on (the noise timer's `load - to_subtract`, the PPU's `current_cycles -= CYCLES_PER_FRAME`) are modelled as the wrap-around a release build performs.
- core/src/emulator.rs, core/src/hardware/ppu.rs, tiledata.rs, memory/vram.rs, cartridge/mod.rs, hardware/mod.rs, the APU's channels.rs and memory_binds.rs, emulator_debug.rs and lib.rs are not part of this model. They are stubs, leftovers of earlier versions of the code and configuration plumbing. `CYCLES_PER_FRAME` (from emulator.rs) is the one constant taken from them.

## Findings

| source | as written | input that shows it | evidently intended | confidence | as-written member | corrected member |
|---|---|---|---|---|---|---|
| core/src/io/timer.rs:120-129 | `set_divider` ticks TIMA when the selected clock bit was high, without checking the timer enable bit | timer disabled with clock select 3 (bit 7) and system clock 0x0080, then a DIV write: TIMA goes from 0 to 1 | the falling-edge detector sees the enable-gated bit, so a disabled timer never ticks | not executed | Timer.WriteDividerAsWritten, Timer.DividerWriteTicksDisabledTimer | Timer.WriteDivider |
| core/src/io/timer.rs:131-141 | disabling the timer tests the NEW select bit of the clock | system clock 0x0080 and TAC 0x05 (enabled, bit 3), then TAC 0x03 (disabled, bit 7): TIMA goes from 0 to 1 | the detector input before the write (the OLD select bit) decides the falling edge | not executed | Timer.WriteControlAsWritten, Timer.ControlWriteTicksOnNewBit | Timer.WriteControl |
| core/src/hardware/cartridge/mbc.rs:84-94 | `rom_bank &= 0x60` keeps bits 5-6 and clears bits 0-4, although the comment says it turns bits 5-6 off | lower write 3, then upper write 1 in ROM mode: bank 0x20 instead of 0x23 | bits 5-6 are replaced by the value's two low bits and bits 0-4 kept | not executed | Mbc.WithHigherBankAsWritten, Mbc.UpperWriteLosesLowerBits | Mbc.WithHigherBank, Mbc.BankFromTwoWrites |
| core/src/hardware/cartridge/mbc.rs:114-118 | `0x4000 * rom_bank` and the sum are computed in `u16`, wrapping from bank 4 on | bank 4, address 0x4000: ROM byte 0 is read instead of byte 0x10000 | the offset in the selected 16 KiB bank, computed without wrapping | not executed | Mbc.RomIndexAsWritten, Mbc.RomIndexWraps | Mbc.RomIndex, Mbc.RomIndexSpec |
| core/src/hardware/cartridge/mbc.rs:96-125 | `read_ex_ram` adds the RAM bank offset in both modes, while `write_ram` adds it only in RAM banking mode | RAM enabled, RAM bank 1 selected, ROM banking mode, address 0xA000: a write goes to RAM offset 0 but a read comes from offset 0x2000 | reads and writes use the same bank offset | not executed | Mbc.ReadRamIndexAsWritten, Mbc.RamReadMissesWrite | Mbc.RamIndex, Mbc.Mbc1.ReadExRam |
| core/src/hardware/apu/wave_channel.rs:91-121 | NR34 sets `enabled` from bit 7 before `enable` runs, so `enable`'s DAC check cannot switch the channel off | DAC off, write 0x80 to NR34: the channel reads as enabled | the channel runs after a trigger exactly when the DAC is powered | not executed | Wave.EnableAsWritten, Wave.EnableAsWrittenIgnoresDac | Wave.Enable, Wave.EnableAgrees |
| core/src/hardware/ppu/mod.rs:346-347 | the DMG window starts its pixel counter at WX - 7 and also skips (WX - 7) % 8 pixels of the first tile | WX = 10: the window starts at column 3 but shows pixel 3 of its first tile there | the window's first pixel lands on column WX - 7, as in the CGB renderer (cgb_ppu.rs:79-83) | not executed | Ppu.WindowStartAsWritten, Ppu.WindowStartAsWrittenSkips | Ppu.WindowStart, Ppu.WindowStartSpec |
| core/src/hardware/ppu/memory_binds.rs:274-320 | palette data reads return the high byte at an even index, while writes store the low byte there | write a byte at an even BCPS index without auto-increment, then read: the old high byte comes back | an even index is the low byte for both read and write | not executed | PpuMemory.DataReadAsWritten, PpuMemory.DataReadAsWrittenMisses | PpuMemory.DataRead, PpuMemory.DataRoundTrip |
| core/src/hardware/ppu/cgb_ppu.rs:161-177 | with LCDC bit 0 clear, the sprite step skips the screen bounds check together with the priority check | sprite X = 0 (column -8) with an opaque leftmost pixel and LCDC bit 0 clear: the buffer is indexed at -8 | the bounds check applies whatever LCDC bit 0 says, and only the priority check depends on it | not executed | CgbPpu.SpriteIndexAsWritten, CgbPpu.SpriteIndexAsWrittenOutOfRange | CgbPpu.SpriteIndex, CgbPpu.SpriteIndexSpec |
