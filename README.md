# Game Boy PPU, timer, memory decoder and utilities in Dafny

This project models the core of a small C++ Game Boy emulator and proves properties of the model. The core has four parts:

- **The PPU** (`src/gameboy/ppu/ppu.cpp`, module `Ppu` with the pure modules `PpuTiming`, `PpuRender` and `PpuSprites`).
  - `PPU::step` is a per-T-cycle state machine. It cycles the mode through OAM search, Drawing, HBlank and VBlank, and advances LY at T = 455, wrapping after line 153. It mirrors the mode into STAT and the line number into LY.
  - It runs the LYC check and the four STAT interrupt sources.
  - When Drawing ends, it renders one scanline. The background and the window come from tile maps and 2-bit tile data through BGP. The sprites are the OAM entries on the line, bubble-sorted by X; at most ten are painted, with flips, transparency and background priority.
  - `Ppu.Ppu` is a class over two 144x160 `array2` buffers (`framebuffer`, `bgBuffer`), with fields `currentLY` and `currentMode`. It writes STAT and LY in place in the memory's I/O registers.
  - The T-cycle that the C++ reads from `gameboy->getTcycles()` is the parameter of `Step`.
  - The calls `cpu->triggerInterrupt(...)` and `renderer->render(framebuffer)` become the sequence of `Event`s each method returns.
  - Every method is proved against pure functions that specify it: `NextControl`, `NextStat` and `StepEvents` for the step, and `Scanline`, `BackgroundLine`, `WindowLine` and `SpriteLine` for rendering. Lemmas about those functions state the PPU's intended behaviour:
    - mode and LY stay in lockstep with the T-cycle;
    - exactly one render per visible line;
    - one VBlank request per frame;
    - a line advances LY by one modulo 154;
    - the background is the scrolled 256x256 tile plane and the window is the placed plane;
    - the bubble sort yields exactly the stable order by X;
    - the frontmost sprite of a pixel is the first one in X order that writes it.
- **The timer** (`src/gameboy/timer/timer.cpp`, module `Timer`). It is a class with the `uint16_t`/`uint8_t` fields of `timer.hpp`. `updateTimer` is specified by the pure `DividerAfter` and `TimerAfter`, and `step`'s interrupt requests by `StepRequests`.
- **The memory decoder** (`src/gameboy/memory/memory.cpp`, module `Memory`).
  - `Decode` is the if-chain of `fetch8`. The class `Memory.Memory` owns the nine zero-initialised arrays; `Fetch8`/`Write8` are the read and the write through the reference `fetch8` returns.
  - Addresses that decode past the end of their array are named by `Overruns`; reads and writes exclude them, because they are undefined behaviour in C++.
- **Utilities** (`src/gameboy/utils/utils.cpp`, module `Utils`): the half-carry and half-borrow predicates, and `intToHex` for 8 and 16 bits. The hexadecimal output is proved to read back as the input.

Bytes are `bv8` where the C++ uses bit operations. The timer uses integer newtypes, with every 16-bit wrap-around written out.

## Model

| member | source | states |
|---|---|---|
| `Utils.HalfCarryOnAddition8` | src/gameboy/utils/utils.cpp:35-37 | true exactly when the low nibbles sum to 0x10 or more; then both nibbles are non-zero |
| `Utils.HalfCarryOnAddition16` | src/gameboy/utils/utils.cpp:39-41 | true exactly when the low bytes sum to 0x100 or more (a carry out of bit 7) |
| `Utils.HalfCarryOnSubtraction8` | src/gameboy/utils/utils.cpp:43-45 | true exactly when the low nibble of a is below that of b |
| `Utils.HalfCarryOnSubtraction16` | src/gameboy/utils/utils.cpp:47-49 | true exactly when the low byte of a is below that of b |
| `Utils.HalfCarryOnAdditionSymmetric` | src/gameboy/utils/utils.cpp:35-41 | both addition predicates are symmetric in their operands |
| `Utils.HexDigit` | src/gameboy/utils/utils.cpp:16 | `uppercase << hex` prints an uppercase hexadecimal digit |
| `Utils.DigitValueOfHexDigit` | src/gameboy/utils/utils.cpp:16 | reading a printed digit back gives its value |
| `Utils.HexNumeral` | src/gameboy/utils/utils.cpp:16 | the unpadded numeral is non-empty and made of uppercase hex digits |
| `Utils.PadLeft` | src/gameboy/utils/utils.cpp:16 | `setw`/`setfill` right-justify: the length is the larger of the two, the text ends the field, the rest is the fill |
| `Utils.HexNumeralRoundTrip` | src/gameboy/utils/utils.cpp:16 | parsing the numeral of n in base 16 gives n |
| `Utils.HexNumeralLength` | src/gameboy/utils/utils.cpp:16 | a value below 16^w needs at most w digits |
| `Utils.ParseHexLeadingZeros` | src/gameboy/utils/utils.cpp:16 | zero padding keeps the string hexadecimal and does not change its value |
| `Utils.StreamHex` | src/gameboy/utils/utils.cpp:23 | the zero-padded field has exactly the width, hex digits only, and reads back as the value |
| `Utils.IntToHex8` | src/gameboy/utils/utils.cpp:14-19 | "0x" then exactly two uppercase hex digits (length 4) that read back as the byte |
| `Utils.IntToHex16` | src/gameboy/utils/utils.cpp:21-26 | "0x" then exactly four uppercase hex digits (length 6) that read back as the word |
| `Timer.Add16` | src/gameboy/timer/timer.cpp:97 | the `uint16_t` sum, wrapping modulo 2^16 |
| `Timer.Sub16` | src/gameboy/timer/timer.cpp:101 | the `uint16_t` difference: exact when `b <= a`, otherwise wrapped by adding 2^16 |
| `Timer.Low8` | src/gameboy/timer/timer.cpp:60-62 | a `uint8_t` getter of a field below 256 returns the whole field |
| `Timer.Enabled` | src/gameboy/timer/timer.cpp:105 | the timer is enabled exactly when `timerControl & 0x04` is nonzero |
| `Timer.Frequency` | src/gameboy/timer/timer.cpp:108-114 | the `uint8_t` threshold is 0, 16 or 64 |
| `Timer.FrequencyTruncatesPeriod` | src/gameboy/timer/timer.cpp:108-114 | the threshold is the select's period (1024, 16, 64, 256) truncated to eight bits |
| `Timer.Select` | src/gameboy/timer/timer.cpp:109 | TAC bits 0-1 are a value below 4 |
| `Timer.DividerAfter` | src/gameboy/timer/timer.cpp:97-102 | a divider below 256 stays below 256 and advances by `cycles` modulo 256 |
| `Timer.TimerAfter` | src/gameboy/timer/timer.cpp:105-129 | with TAC bit 2 clear TIMA is unchanged and nothing overflows; an overflow happens only when enabled and reloads TMA |
| `Timer.UpdateReducesThenIncrementsOrReloads` | src/gameboy/timer/timer.cpp:117-129 | an enabled update reloads exactly when the reduced sum is 0xFF, otherwise increments the reduced sum by one, and keeps a sum below the threshold |
| `Timer.ZeroThresholdCountsEveryUpdate` | src/gameboy/timer/timer.cpp:108-128 | with selects 0 and 3 every enabled update adds `cycles + 1`, or reloads when the sum is 0xFF |
| `Timer.ReloadFitsInAByte` | src/gameboy/timer/timer.cpp:123-124 | after a reload the counter is below 256 and reads back as TMA |
| `Timer.StepRequests` | src/gameboy/timer/timer.cpp:132-137 | no request when TAC bit 2 is clear; when set, always at least one Timer request, and two exactly on overflow |
| `Timer.Timer.constructor` | src/gameboy/timer/timer.cpp:22 | all five fields zero, no requests |
| `Timer.Timer.Reset` | src/gameboy/timer/timer.cpp:37-43 | all five fields zero, requests unchanged |
| `Timer.Timer.UpdateTimer` | src/gameboy/timer/timer.cpp:96-130 | the divider and TIMA become `DividerAfter` and `TimerAfter`; one Timer request exactly on overflow; TMA, TAC and the clock select unchanged |
| `Timer.Timer.CheckAndTriggerInterrupt` | src/gameboy/timer/timer.cpp:132-137 | a Timer request exactly when TAC bit 2 is set |
| `Timer.Timer.Step` | src/gameboy/timer/timer.cpp:45-48 | update then check: the fields as `UpdateTimer` says, the requests `StepRequests`, and the divider bound kept |
| `Timer.Timer.SetDividerRegister` | src/gameboy/timer/timer.cpp:56-58 | the divider becomes 0 whatever is written |
| `Timer.Timer.GetDividerRegister` | src/gameboy/timer/timer.cpp:60-62 | the low byte of the divider, which is the whole divider while it stays below 256 |
| `Timer.Timer.SetTimerCounter` | src/gameboy/timer/timer.cpp:64-66 | TIMA becomes the byte |
| `Timer.Timer.GetTimerCounter` | src/gameboy/timer/timer.cpp:68-70 | the low byte of the 16-bit counter |
| `Timer.Timer.SetTimerModulo` | src/gameboy/timer/timer.cpp:72-74 | TMA becomes the byte |
| `Timer.Timer.GetTimerModulo` | src/gameboy/timer/timer.cpp:76-78 | returns TMA |
| `Timer.Timer.SetTimerControl` | src/gameboy/timer/timer.cpp:80-82 | TAC becomes the byte |
| `Timer.Timer.GetTimerControl` | src/gameboy/timer/timer.cpp:84-86 | returns TAC |
| `Timer.SetThenGet` | src/gameboy/timer/timer.cpp:64-86 | setting TIMA, TMA and TAC and reading them back returns the written bytes |
| `Memory.Decode` | src/gameboy/memory/memory.cpp:49-80 | the error path exactly for negative addresses; otherwise the region whose range holds the address, at index address minus its offset |
| `Memory.DecodeIsTheUniqueRange` | src/gameboy/memory/memory.cpp:51-75 | the ranges are disjoint: an address lies in a region's range exactly when it decodes to that region |
| `Memory.FitsExactly` | src/gameboy/memory/memory.cpp:54-75 | the index is inside the array exactly for 0x0000-0xDFFF, 0xFE00-0xFE9F and 0xFF80-0xFFFF |
| `Memory.OverrunsExactly` | src/gameboy/memory/memory.cpp:69-75 | the index is past the array exactly for 0xE000-0xFDFF, 0xFEA0-0xFF7F and above 0xFFFF; every address fits, overruns or is negative |
| `Memory.BootRomUnreachable` | src/gameboy/memory/memory.cpp:51-54 | nothing decodes to the boot ROM; 0x0000-0x3FFF is fixed ROM at the same index |
| `Memory.DecodeInjective` | src/gameboy/memory/memory.cpp:49-75 | distinct addresses that fit decode to distinct cells (no mirroring) |
| `Memory.IoRegistersOverrunOam` | src/gameboy/memory/memory.cpp:72-75 | every address 0xFF00-0xFF7F, the LCD registers included, decodes into the OAM array past its end |
| `Memory.Memory.ArrayOf` | src/gameboy/memory/memory.hpp:54-68 | each region's array has the size `memory.hpp` declares |
| `Memory.Memory.constructor` | src/gameboy/memory/memory.cpp:17 | fresh arrays, and every address that fits reads 0 |
| `Memory.Memory.Fetch8` | src/gameboy/memory/memory.cpp:49-80 | fails exactly on a negative address |
| `Memory.Memory.Write8` | src/gameboy/memory/memory.cpp:49-75 | a write through the reference reads back, every other address reads as before, and a negative address changes nothing |
| `Memory.Memory.Io` | src/gameboy/ppu/ppu.cpp:114-115 | the corrected I/O read: each of 0xFF00-0xFF7F reads its own byte of the 128-byte block, at an address the decoder as written sends past the end of OAM |
| `Memory.Memory.WriteIo` | src/gameboy/ppu/ppu.cpp:39-40 | an I/O register write changes that register and no other |
| `PpuTiming.ModeBits` | src/gameboy/ppu/ppu.hpp:49-54 | each mode's value fits STAT's two-bit mode field (below 4); `ModeOf` inverts it |
| `PpuTiming.ModeOf` | src/gameboy/ppu/ppu.hpp:49-54 | the mode a STAT byte reports is the one in its two low bits |
| `PpuTiming.WithMode` | src/gameboy/ppu/ppu.cpp:109-110 | the low two bits become the mode, bits 2-7 are kept |
| `PpuTiming.WithModeRoundTrip` | src/gameboy/ppu/ppu.cpp:108-110 | the written mode reads back, and a second mode write overrides the first |
| `PpuTiming.LycStat` | src/gameboy/ppu/ppu.cpp:113-128 | bit 2 is set exactly when LYC equals LY; no other bit changes |
| `PpuTiming.LycRequests` | src/gameboy/ppu/ppu.cpp:117-121 | `checkLYCInterrupt` requests exactly when the updated STAT has bits 6 and 2 both set |
| `PpuTiming.StatRequests` | src/gameboy/ppu/ppu.cpp:131-154 | an LCD request exactly when the mode's enable bit (3, 4, 5 for HBlank, VBlank, OAM search) is set or bits 6 and 2 are |
| `PpuTiming.StatRequestsIgnoreModeField` | src/gameboy/ppu/ppu.cpp:131-154 | the mode field of STAT plays no part in the requests |
| `PpuTiming.SwitchMode` | src/gameboy/ppu/ppu.cpp:22-57 | only OAM search to Drawing at T 80 or later and Drawing to HBlank at T 252 or later change the mode; HBlank and VBlank keep it |
| `PpuTiming.LineControl` | src/gameboy/ppu/ppu.cpp:59-80 | at T 455 LY advances and wraps after 153; at other T it is kept, and other than at T 0 nothing changes |
| `PpuTiming.NextControl` | src/gameboy/ppu/ppu.cpp:20-80 | LY advances only at T 455, wraps after 153, and stays in 0..153 |
| `PpuTiming.StatEvents` | src/gameboy/ppu/ppu.cpp:151-153 | one LCD request exactly when a STAT source holds, else none |
| `PpuTiming.SwitchEvents` | src/gameboy/ppu/ppu.cpp:22-57 | at most two interrupt requests; VBlank among them exactly in VBlank mode at T 0 on line 144 |
| `PpuTiming.LineEvents` | src/gameboy/ppu/ppu.cpp:59-106 | a VBlank request exactly at T 0 on line 144, the frame to the renderer exactly at T 0 on line 0, otherwise at most LCD requests |
| `PpuTiming.StepEvents` | src/gameboy/ppu/ppu.cpp:20-111 | over a whole step: VBlank requested exactly at T 0 on line 144, the frame rendered exactly at T 0 on line 0, at most four events |
| `PpuTiming.LineEventsIgnoreModeWrite` | src/gameboy/ppu/ppu.cpp:39-42 | the mode write when Drawing ends does not change what the second half of `step` requests |
| `PpuTiming.ModeWriteIsOverridden` | src/gameboy/ppu/ppu.cpp:108-110 | the final mode write overrides the earlier one, also across the LYC update |
| `PpuTiming.NextStat` | src/gameboy/ppu/ppu.cpp:108-110 | after a step STAT reports the new mode; bits 2-7 are kept, except at T 455, where bit 2 becomes the LYC match of the new LY |
| `PpuTiming.StatComposes` | src/gameboy/ppu/ppu.cpp:20-111 | the switch's STAT write followed by the LYC update and the final write is `NextStat` |
| `PpuTiming.InitialLockstep` | src/gameboy/ppu/ppu.cpp:9 | the constructed state (LY 0, OAM search) is in lockstep, as if after T 455 |
| `PpuTiming.LockstepPreserved` | src/gameboy/ppu/ppu.cpp:20-80 | a step at the next T-cycle keeps mode and LY in lockstep with the T-cycle |
| `PpuTiming.RendersOncePerLine` | src/gameboy/ppu/ppu.cpp:34-37 | in lockstep `renderScanline` runs exactly at T 252 of lines 0..143, never on a row outside the framebuffer |
| `PpuTiming.VBlankOncePerFrame` | src/gameboy/ppu/ppu.cpp:50-56 | in lockstep VBlank is requested exactly at T 0 of line 144, once (the switch's VBlank case never fires) |
| `PpuTiming.RunInLockstep` | src/gameboy/ppu/ppu.cpp:20-80 | every run of consecutive steps stays in lockstep |
| `PpuTiming.RunWithinLine` | src/gameboy/ppu/ppu.cpp:59-71 | the steps at T 0 to 454 do not change LY |
| `PpuTiming.LineAdvancesLy` | src/gameboy/ppu/ppu.cpp:59-71 | a whole line of 456 steps advances LY by one modulo 154 |
| `PpuTiming.LineKeepsLockstep` | src/gameboy/ppu/ppu.cpp:20-80 | a whole line ends in lockstep at T 455 again |
| `PpuRender.BgEnabled` | src/gameboy/ppu/ppu.cpp:157-160 | the background is enabled exactly when LCDC bit 0 is set |
| `PpuRender.WindowEnabled` | src/gameboy/ppu/ppu.cpp:163-166 | the window is enabled exactly when LCDC bit 5 is set |
| `PpuRender.SpritesEnabled` | src/gameboy/ppu/ppu.cpp:169-172 | sprites are enabled exactly when LCDC bit 1 is set |
| `PpuRender.TileMapBase` | src/gameboy/ppu/ppu.cpp:213 | 0x9C00 exactly when the select bit of LCDC is set, else 0x9800 |
| `PpuRender.Signed8` | src/gameboy/ppu/ppu.cpp:236 | the byte as two's complement, in -128..127 |
| `PpuRender.TileDataAddress` | src/gameboy/ppu/ppu.cpp:232-238 | unsigned mode (LCDC bit 4): 0x8000 + 16 index, in 0x8000..0x8FF0; signed mode: in 0x8800..0x97F0; always 16-aligned |
| `PpuRender.TileDataModesShareUpperHalf` | src/gameboy/ppu/ppu.cpp:232-238 | tiles 128-255 have the same address in both modes; tiles 0-127 are 0x1000 apart |
| `PpuRender.PixelBit` | src/gameboy/ppu/ppu.cpp:252 | one bit of a byte |
| `PpuRender.ColorIndex` | src/gameboy/ppu/ppu.cpp:252 | the colour number is below 4, its low bit from the low plane, its high bit from the high plane, 0 exactly when both bits are 0 |
| `PpuRender.Shade` | src/gameboy/ppu/ppu.cpp:255 | the palette entry is a shade 0..3 |
| `PpuRender.ShadeSelectsPaletteEntry` | src/gameboy/ppu/ppu.cpp:255 | the four entries make up the palette, and 0xE4 maps each colour to itself |
| `PpuRender.TilePixel` | src/gameboy/ppu/ppu.cpp:228-255 | the shade of one pixel of the tile named in the map is a shade 0..3 |
| `PpuRender.PlanePixel` | src/gameboy/ppu/ppu.cpp:219-255 | the shade at a point of the 256x256 tile plane is 0..3 |
| `PpuRender.BackgroundPixel` | src/gameboy/ppu/ppu.cpp:219-255 | each background pixel is a shade 0..3 |
| `PpuRender.BackgroundIsScrolledPlane` | src/gameboy/ppu/ppu.cpp:219-250 | the background pixel is the plane of the bit 3 tile map at (x + SCX, LY + SCY) modulo 256 |
| `PpuRender.BackgroundLine` | src/gameboy/ppu/ppu.cpp:222-259 | 160 shades 0..3 |
| `PpuRender.WindowPixel` | src/gameboy/ppu/ppu.cpp:280-310 | each window pixel is a shade 0..3 |
| `PpuRender.WindowIsPlacedPlane` | src/gameboy/ppu/ppu.cpp:280-306 | the window pixel is the unscrolled plane of the bit 6 tile map at (x - WX + 7, LY - WY) |
| `PpuRender.WindowLine` | src/gameboy/ppu/ppu.cpp:274-312 | no change when LCDC bit 5 is clear, LY < WY, WY > 143, WX < 7 or WX > 166; otherwise the columns left of WX - 7 are kept and the others get shades 0..3 |
| `PpuSprites.SpriteHeight` | src/gameboy/ppu/ppu.cpp:326-327 | 16 exactly when LCDC bit 2 is set, else 8 |
| `PpuSprites.YPos` | src/gameboy/ppu/ppu.cpp:342 | the `uint8_t` Y - 16, wrapped into 0..255 |
| `PpuSprites.XPos` | src/gameboy/ppu/ppu.cpp:347 | the `uint8_t` X - 8, wrapped into 0..255 |
| `PpuSprites.OnLine` | src/gameboy/ppu/ppu.cpp:344 | an entry is selected exactly when (Y - 16) mod 256 is at most 144 and LY is one of its height rows |
| `PpuSprites.Visible` | src/gameboy/ppu/ppu.cpp:341-354 | the selection holds at most n entries, each an index below n |
| `PpuSprites.VisibleOnLine` | src/gameboy/ppu/ppu.cpp:341-354 | every selected entry is on the line and carries its own X |
| `PpuSprites.VisibleInOamOrder` | src/gameboy/ppu/ppu.cpp:341-354 | the selection is in increasing OAM order |
| `PpuSprites.VisibleComplete` | src/gameboy/ppu/ppu.cpp:341-354 | every entry on the line is selected |
| `PpuSprites.VisibleIsDistinct` | src/gameboy/ppu/ppu.cpp:341-354 | the selection has no repeated entry and equal X entries are in OAM order |
| `PpuSprites.StableSortIsStrict` | src/gameboy/ppu/ppu.cpp:356-364 | sorted by X with ties in OAM order is the same as strictly sorted by (X, index) |
| `PpuSprites.Insert` | src/gameboy/ppu/ppu.cpp:356-364 | the reference insertion adds exactly one entry |
| `PpuSprites.InsertSorted` | src/gameboy/ppu/ppu.cpp:356-364 | inserting a new entry into a strictly sorted sequence keeps it strictly sorted |
| `PpuSprites.SortByX` | src/gameboy/ppu/ppu.cpp:356-364 | the reference order is a permutation of its input |
| `PpuSprites.SortByXSorted` | src/gameboy/ppu/ppu.cpp:356-364 | the reference order of distinct entries is strictly sorted by (X, index) |
| `PpuSprites.StrictlySortedUnique` | src/gameboy/ppu/ppu.cpp:356-364 | two strictly sorted permutations of each other are equal |
| `PpuSprites.StableSortIsSortByX` | src/gameboy/ppu/ppu.cpp:356-364 | any permutation of the selection sorted by X with ties in OAM order is exactly the reference order |
| `PpuSprites.PermutationOnLine` | src/gameboy/ppu/ppu.cpp:356-364 | a permutation of entries on the line holds only entries on the line |
| `PpuSprites.SpriteRowAddress` | src/gameboy/ppu/ppu.cpp:371-391 | the tile data row is an even address in 0x8000..0x8FFE |
| `PpuSprites.SpriteTileY` | src/gameboy/ppu/ppu.cpp:376-380 | the sprite row LY - yPos, mirrored within the height when attribute bit 6 is set, is within the height |
| `PpuSprites.SpriteColorIndex` | src/gameboy/ppu/ppu.cpp:401-403 | a colour number 0..3 |
| `PpuSprites.SpriteShade` | src/gameboy/ppu/ppu.cpp:395-406 | a shade 0..3 |
| `PpuSprites.PaintSprite` | src/gameboy/ppu/ppu.cpp:398-425 | a column changes only if the sprite covers it, its colour number is not 0 and, with attribute bit 7, the background pixel is 0; the new value is a shade 0..3 |
| `PpuSprites.FirstDrawing` | src/gameboy/ppu/ppu.cpp:369-426 | the first sorted position that writes a column, with no earlier position writing it |
| `PpuSprites.FirstDrawingExtends` | src/gameboy/ppu/ppu.cpp:369-426 | how the first writer changes when one more position is searched |
| `PpuSprites.PaintFromFirstWins` | src/gameboy/ppu/ppu.cpp:369-426 | painting from the last position down leaves each column with the shade of the first position that writes it, or unchanged |
| `PpuSprites.PaintFrom` | src/gameboy/ppu/ppu.cpp:369-426 | painting the sorted sprites from position k-1 down to 0 yields a 160-pixel row whose changed columns hold a shade (0..3) |
| `PpuSprites.PaintFromChanges` | src/gameboy/ppu/ppu.cpp:369-426 | a changed column is written by one of the painted positions |
| `PpuSprites.PaintedCount` | src/gameboy/ppu/ppu.cpp:366 | at most ten and at most the number selected, and one of the two |
| `PpuSprites.SpriteLine` | src/gameboy/ppu/ppu.cpp:323-427 | the row after `fetchSpriteData`: 160 pixels, every changed column a shade (0..3) |
| `PpuSprites.SpriteLineChanges` | src/gameboy/ppu/ppu.cpp:323-427 | a column the sprite layer changes is written by one of the first ten on-line sprites in X order |
| `Ppu.Scanline` | src/gameboy/ppu/ppu.cpp:175-185 | `bgBuffer`'s row is the background line when LCDC bit 0 is set, else it is kept; with all three layers off the row is kept |
| `Ppu.ScanlineLayers` | src/gameboy/ppu/ppu.cpp:175-185 | each pixel is the first writing sprite, else the window where it covers, else the background, else the old value |
| `Ppu.Ppu.constructor` | src/gameboy/ppu/ppu.cpp:9-14 | line 0, OAM search, an all-zero framebuffer, in lockstep |
| `Ppu.Ppu.RegsAreLcdRegisters` | src/gameboy/ppu/ppu.cpp:207-210 | the renderers' registers are the bytes at 0xFF40 (LCDC), 0xFF42 (SCY), 0xFF43 (SCX), 0xFF47 (BGP), 0xFF48/0xFF49 (OBP0/OBP1), 0xFF4A (WY) and 0xFF4B (WX) |
| `Ppu.Ppu.ReadVram` | src/gameboy/ppu/ppu.cpp:229-247 | a renderer's video RAM byte is what `fetch8` reads at that address, and the byte of the VRAM snapshot the pure renderers use |
| `Ppu.Ppu.VramIsFetch8` | src/gameboy/memory/memory.cpp:60 | the renderers' video RAM reads are reads through `fetch8` |
| `Ppu.Ppu.Step` | src/gameboy/ppu/ppu.cpp:20-111 | mode, LY and STAT become `NextControl` and `NextStat`; LY is written at T 455; the events are `StepEvents`; only the step that leaves Drawing renders, only into row LY; no other register changes; lockstep is kept |
| `Ppu.Ppu.StepSwitch` | src/gameboy/ppu/ppu.cpp:22-57 | the mode becomes `SwitchMode`; leaving Drawing renders the line and writes HBlank into STAT; the events are `SwitchEvents`; nothing else changes |
| `Ppu.Ppu.StepLine` | src/gameboy/ppu/ppu.cpp:59-111 | after the switch: mode and LY become `NextControl`, STAT `NextStat`; LY is written at T 455; the events are `LineEvents` |
| `Ppu.Ppu.LineTransition` | src/gameboy/ppu/ppu.cpp:59-106 | mode and LY become `LineControl`; STAT gets the LYC update only at T 455; the events are `LineEvents` |
| `Ppu.Ppu.AdvanceLine` | src/gameboy/ppu/ppu.cpp:59-71 | LY advances and wraps after 153; the LY register equals the new LY; the LYC check sees the unwrapped value |
| `Ppu.Ppu.CheckStatInterrupts` | src/gameboy/ppu/ppu.cpp:131-154 | one LCD request exactly when a STAT source holds; changes nothing |
| `Ppu.Ppu.CheckLycInterrupt` | src/gameboy/ppu/ppu.cpp:113-128 | STAT becomes `LycStat`; an LCD request exactly when LYC matches and bit 6 is set; no other register changes |
| `Ppu.Ppu.RenderScanline` | src/gameboy/ppu/ppu.cpp:175-185 | row LY of both buffers becomes `Scanline`; no other row changes |
| `Ppu.Ppu.FetchBackgroundTileData` | src/gameboy/ppu/ppu.cpp:206-265 | row LY of the framebuffer and of `bgBuffer` both become the background line; no other row changes |
| `Ppu.Ppu.BackgroundColor` | src/gameboy/ppu/ppu.cpp:224-255 | the colour of column x is the background pixel |
| `Ppu.Ppu.TileShade` | src/gameboy/ppu/ppu.cpp:228-255 | the tile fetch and decode is `TilePixel` |
| `Ppu.Ppu.FetchWindowTileData` | src/gameboy/ppu/ppu.cpp:268-319 | row LY becomes the window line over it; `bgBuffer` and the other rows do not change |
| `Ppu.Ppu.WindowColor` | src/gameboy/ppu/ppu.cpp:283-310 | the colour of a window column is the window pixel |
| `Ppu.Ppu.FetchSpriteData` | src/gameboy/ppu/ppu.cpp:323-427 | row LY becomes the sprite line over it; no other row changes |
| `Ppu.Ppu.SortedVisible` | src/gameboy/ppu/ppu.cpp:341-364 | after the selection and the bubble sort the array holds exactly the reference order of the entries on the line |
| `Ppu.Ppu.CollectVisible` | src/gameboy/ppu/ppu.cpp:341-354 | a fresh 40-entry array whose prefix is the selection in OAM order |
| `Ppu.Ppu.SelectEntry` | src/gameboy/ppu/ppu.cpp:342-353 | entry i is appended exactly when it is on the line |
| `Ppu.Ppu.DrawSprites` | src/gameboy/ppu/ppu.cpp:369-426 | the first `spritesToRender` sorted sprites are painted from last to first; no other row changes |
| `Ppu.Ppu.DrawSlot` | src/gameboy/ppu/ppu.cpp:369-426 | painting position i leaves the positions below it to paint |
| `Ppu.Ppu.DrawSprite` | src/gameboy/ppu/ppu.cpp:370-425 | one sprite painted over row LY, as `PaintSprite` says |
| `Ppu.Ppu.SpriteTileRow` | src/gameboy/ppu/ppu.cpp:391-393 | the two tile data bytes at the sprite's row address |
| `Ppu.Ppu.SpriteTileAddress` | src/gameboy/ppu/ppu.cpp:371-391 | the flip and the 8x16 pairing give `SpriteRowAddress` |
| `Ppu.PaintSpriteRow` | src/gameboy/ppu/ppu.cpp:398-425 | the eight columns of one sprite make the row `PaintSprite`; other rows unchanged |
| `Ppu.SpriteColumn` | src/gameboy/ppu/ppu.cpp:401-417 | the column is written exactly when `Draws` holds, with `SpriteShade` |
| `Ppu.SpriteColorAt` | src/gameboy/ppu/ppu.cpp:401-403 | the column is covered and its colour number is `SpriteColorIndex`, after the horizontal flip |
| `Ppu.BubbleSort` | src/gameboy/ppu/ppu.cpp:356-364 | a permutation in non-decreasing X that keeps ties of equal X in OAM order; the rest of the array unchanged |
| `Ppu.BubblePass` | src/gameboy/ppu/ppu.cpp:357-363 | the largest X of the unsorted prefix moves to its end; a permutation |
| `Ppu.BubbleStep` | src/gameboy/ppu/ppu.cpp:358-362 | one comparison keeps the largest X so far at the next position |
| `Ppu.SwapNext` | src/gameboy/ppu/ppu.cpp:359-361 | the two neighbours are exchanged, nothing else changes, ties stay in order |
| `Ppu.SwapPermutes` | src/gameboy/ppu/ppu.cpp:359-361 | a swap is a permutation |
| `Ppu.SwapKeepsTies` | src/gameboy/ppu/ppu.cpp:358-361 | swapping neighbours of different X keeps equal-X entries in order |

## Left out

- Logging: `ENABLE_LOGGING` is taken as false, so its debug overlay at `ppu.cpp:82-100` is not modelled. With it false, line 0 hands the framebuffer to the renderer at T 0. All `*logger <<` output is dropped.
- The SDL renderer, the CPU and the Gameboy main loop are not part of this model. `render` and `triggerInterrupt` are events, and `getTcycles()` is the parameter of `Step`.
- `Memory::loadBootrom` is file I/O and is not modelled.
- Ppu.Ppu.Step: requires each call's T-cycle to follow the previous call's (ghost field `tick`), as the emulator's loop supplies them. Without that order, Drawing could end on a line of 144 or more, and `renderScanline` would index past the framebuffer. `StepSwitch` and `StepLine` state the step under weaker preconditions.
- Ppu.Ppu.constructor: `bgBuffer` is not initialised in the C++, so nothing is promised about its contents.
- Memory.Memory.Fetch8: addresses that overrun their array (echo RAM, 0xFEA0-0xFF7F, above 0xFFFF) are excluded. They are undefined behaviour in C++.
- Echo RAM: on the DMG, echo RAM 0xE000-0xFDFF mirrors fixed WRAM. The code sends 0xE000-0xFDFF into the banked WRAM array past its end, and the model follows the code (`Memory.OverrunsExactly`). The same holds for the unusable region's 0xFF reads, which the code does not have.
- Timer.Frequency: it follows the code. The Game Boy's documented thresholds are 1024, 16, 64 and 256 T-cycles, but the code stores them in a `uint8_t`, so they are 0, 16, 64 and 0.
- Timer.Timer.GetDividerRegister: it follows the code. On hardware, DIV is the upper byte of a 16-bit divider; the code returns the low byte of a counter kept below 256.
- Timer.Timer.Step: it follows the code, which requests a Timer interrupt on every step while TAC bit 2 is set, not only on overflow.
- Sprite tile index and attributes: reading them from the OAM entry at the sorted position `i` instead of the sprite's own OAM entry is a defect in the code. The model follows the code: `slot` in `PpuSprites.SpriteRowAddress`, `PaintSprite` and related functions is the sorted position.
- `ppu.hpp` declares a different constructor and no `bgBuffer`. The model follows `ppu.cpp`.
- The I/O registers the PPU reads and writes are held in a 128-byte array beside the decoder (see Findings). The other I/O semantics (joypad, DMA, the timer's mirror registers) are not part of the core.

## Findings

| source | as written | input that shows it | evidently intended | confidence | as-written member | corrected member |
|---|---|---|---|---|---|---|
| src/gameboy/memory/memory.cpp:72-75 | the OAM test covers 0xFE00-0xFF7F, so every I/O register, STAT and LY among them, decodes into the 160-byte OAM array past its end; the PPU writes STAT and LY through these references | address 0xFF41 (STAT) decodes to OAM index 0x141, beyond its 160 bytes | a 128-byte I/O register block at 0xFF00-0xFF7F where each register is its own byte | not executed | `Memory.IoRegistersOverrunOam` | `Memory.Memory.WriteIo` |
