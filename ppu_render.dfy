/**
 * What `fetchBackgroundTileData` and `fetchWindowTileData`
 * (src/gameboy/ppu/ppu.cpp) compute for one pixel and one scanline, as pure
 * functions of a snapshot of video RAM and of the LCD registers.
 *
 * Both layers draw from a 256x256 plane of 8x8 tiles: a 32x32 tile map
 * (at 0x9800 or 0x9C00) names the tile of each cell, and each tile is
 * 16 bytes of 2-bit-per-pixel data (low bit plane, high bit plane, one byte
 * pair per row, leftmost pixel in bit 7), which a palette maps to a shade.
 */
module PpuRender {
  import Memory

  const ScreenWidth: int := 160
  const ScreenHeight: int := 144

  /** A register byte the C++ only uses as a number. */
  type Byte = n: int | 0 <= n < 256

  /**
   * The LCD registers the renderer reads: the bit fields (LCDC, palettes)
   * as bytes, the scroll and window positions as their values.
   */
  datatype Registers = Registers(lcdc: bv8, scy: Byte, scx: Byte, bgp: bv8,
                                 obp0: bv8, obp1: bv8, wy: Byte, wx: Byte)

  /** `isBGEnabled`: LCDC bit 0. */
  predicate BgEnabled(r: Registers): (b: bool)
    ensures b <==> (r.lcdc >> 0) & 1 == 1
  {
    r.lcdc & 0x01 != 0
  }

  /** `isWDEnabled`: LCDC bit 5. */
  predicate WindowEnabled(r: Registers): (b: bool)
    ensures b <==> (r.lcdc >> 5) & 1 == 1
  {
    r.lcdc & 0x20 != 0
  }

  /** `areSpritesEnabled`: LCDC bit 1. */
  predicate SpritesEnabled(r: Registers): (b: bool)
    ensures b <==> (r.lcdc >> 1) & 1 == 1
  {
    r.lcdc & 0x02 != 0
  }

  /** A snapshot of the 8 KiB of video RAM, indexed from 0x8000. */
  predicate IsVram(vram: seq<bv8>) { |vram| == Memory.VramSize }

  predicate InVram(address: int) {
    Memory.VramOffset <= address < Memory.VramOffset + Memory.VramSize
  }

  function VramAt(vram: seq<bv8>, address: int): bv8
    requires IsVram(vram) && InVram(address)
  {
    vram[address - Memory.VramOffset]
  }

  /** A scanline: one shade (0-3) per column. */
  predicate IsLine(line: seq<bv8>) { |line| == ScreenWidth }

  // ---------------------------------------------------------------------
  // Tile addressing and colour
  // ---------------------------------------------------------------------

  /** The tile map selected by an LCDC bit (bit 3 for the background, bit 6 for the window). */
  function TileMapBase(lcdc: bv8, select: bv8): (base: int)
    ensures base == 0x9800 || base == 0x9C00
    ensures base == 0x9C00 <==> lcdc & select != 0
  {
    if lcdc & select != 0 then 0x9C00 else 0x9800
  }

  /** `static_cast<int8_t>`: the byte read as two's complement. */
  function Signed8(b: bv8): (v: int)
    ensures -128 <= v < 128
    ensures (v + 256) % 256 == b as int
  {
    if b < 0x80 then b as int else b as int - 256
  }

  /**
   * The first byte of a tile: "$8000 addressing" (LCDC bit 4 set) takes the
   * index unsigned from 0x8000, "$8800 addressing" takes it signed from 0x9000.
   */
  function TileDataAddress(lcdc: bv8, tileIndex: bv8): (a: int)
    ensures a % 16 == 0
    ensures lcdc & 0x10 != 0 ==> a == 0x8000 + tileIndex as int * 16 && 0x8000 <= a <= 0x8FF0
    ensures lcdc & 0x10 == 0 ==> 0x8800 <= a <= 0x97F0
  {
    if lcdc & 0x10 != 0 then 0x8000 + tileIndex as int * 16
    else 0x9000 + Signed8(tileIndex) * 16
  }

  /**
   * The two modes share tiles 128-255 (0x8800-0x8FFF); tiles 0-127 are
   * 0x8000-0x87FF in one mode and 0x9000-0x97FF in the other.
   */
  lemma TileDataModesShareUpperHalf(tileIndex: bv8)
    ensures tileIndex >= 128 ==> TileDataAddress(0x10, tileIndex) == TileDataAddress(0, tileIndex)
    ensures tileIndex < 128 ==> TileDataAddress(0, tileIndex) == TileDataAddress(0x10, tileIndex) + 0x1000
  {
  }

  /** `(b >> bit) & 0x01`. */
  function PixelBit(b: bv8, bit: bv8): (r: bv8)
    requires bit < 8
    ensures r < 2
  {
    (b >> bit) & 0x01
  }

  /** `((high >> bit) & 1) << 1 | ((low >> bit) & 1)`: the 2-bit colour number of one pixel. */
  function ColorIndex(low: bv8, high: bv8, bit: bv8): (c: bv8)
    requires bit < 8
    ensures c < 4
    ensures c & 0x01 == PixelBit(low, bit) && c >> 1 == PixelBit(high, bit)
    ensures c == 0 <==> PixelBit(low, bit) == 0 && PixelBit(high, bit) == 0
  {
    (PixelBit(high, bit) << 1) | PixelBit(low, bit)
  }

  /** `(palette >> (colorIndex * 2)) & 0x03`. */
  function Shade(palette: bv8, colorIndex: bv8): (s: bv8)
    requires colorIndex < 4
    ensures s < 4
  {
    (palette >> (colorIndex * 2)) & 0x03
  }

  /**
   * A palette is four 2-bit shades, colour 0 in the low bits: reading all
   * four back gives the palette, and 0xE4 is the identity palette.
   */
  lemma ShadeSelectsPaletteEntry(palette: bv8, colorIndex: bv8)
    requires colorIndex < 4
    ensures palette == Shade(palette, 0) | (Shade(palette, 1) << 2) | (Shade(palette, 2) << 4) | (Shade(palette, 3) << 6)
    ensures Shade(0xE4, colorIndex) == colorIndex
  {
  }

  /**
   * The shade of pixel (tileX, tileY) of the tile whose index is stored at
   * `tileAddress` in a tile map: the part the two fetch functions share.
   */
  function TilePixel(vram: seq<bv8>, lcdc: bv8, palette: bv8, tileAddress: int, tileY: int, tileX: int): (s: bv8)
    requires IsVram(vram) && 0x9800 <= tileAddress < 0xA000
    requires 0 <= tileY < 8 && 0 <= tileX < 8
    ensures s < 4
  {
    var tileIndex := VramAt(vram, tileAddress);
    var rowAddress := TileDataAddress(lcdc, tileIndex) + 2 * tileY;
    var low := VramAt(vram, rowAddress);
    var high := VramAt(vram, rowAddress + 1);
    var bit := 7 - tileX;
    Shade(palette, ColorIndex(low, high, bit as bv8))
  }

  /**
   * The shade at (px, py) of the 256x256 plane whose tile map starts at
   * `mapBase`: an independent statement of what both layers draw.
   */
  function PlanePixel(vram: seq<bv8>, mapBase: int, lcdc: bv8, palette: bv8, px: int, py: int): (s: bv8)
    requires IsVram(vram) && (mapBase == 0x9800 || mapBase == 0x9C00)
    requires 0 <= px < 256 && 0 <= py < 256
    ensures s < 4
  {
    TilePixel(vram, lcdc, palette, mapBase + (py / 8) * 32 + px / 8, py % 8, px % 8)
  }

  // ---------------------------------------------------------------------
  // Background
  // ---------------------------------------------------------------------

  /** The shade `fetchBackgroundTileData` computes for column `x` of line `ly`. */
  function BackgroundPixel(vram: seq<bv8>, r: Registers, ly: int, x: int): (s: bv8)
    requires IsVram(vram) && 0 <= ly < ScreenHeight && 0 <= x < ScreenWidth
    ensures s < 4
  {
    var tileRow := (((ly + r.scy) % 256) / 8) % 32;
    var tileCol := ((x + r.scx) / 8) % 32;
    var tileAddress := TileMapBase(r.lcdc, 0x08) + tileRow * 32 + tileCol;
    TilePixel(vram, r.lcdc, r.bgp, tileAddress, (ly + r.scy) % 8, (x + r.scx) % 8)
  }

  /**
   * The background is the plane of the LCDC bit 3 tile map, scrolled by
   * (SCX, SCY) and wrapping around at 256 pixels in both directions.
   */
  lemma BackgroundIsScrolledPlane(vram: seq<bv8>, r: Registers, ly: int, x: int)
    requires IsVram(vram) && 0 <= ly < ScreenHeight && 0 <= x < ScreenWidth
    ensures BackgroundPixel(vram, r, ly, x) ==
            PlanePixel(vram, TileMapBase(r.lcdc, 0x08), r.lcdc, r.bgp,
                       (x + r.scx) % 256, (ly + r.scy) % 256)
  {
    WrapsAt256(x + r.scx);
    WrapsAt256(ly + r.scy);
  }

  /** Tile column and pixel within the tile of a coordinate, before and after wrapping at 256. */
  lemma WrapsAt256(s: int)
    requires 0 <= s
    ensures (s / 8) % 32 == (s % 256) / 8
    ensures ((s % 256) / 8) % 32 == (s % 256) / 8
    ensures s % 8 == (s % 256) % 8
  {
    var q, m := s / 256, s % 256;
    assert s == 256 * q + m;
    assert s / 8 == 32 * q + m / 8;
    assert s % 8 == m % 8;
  }

  /** The line `fetchBackgroundTileData` writes into both the framebuffer and `bgBuffer`. */
  function BackgroundLine(vram: seq<bv8>, r: Registers, ly: int): (line: seq<bv8>)
    requires IsVram(vram) && 0 <= ly < ScreenHeight
    ensures IsLine(line)
    ensures forall x :: 0 <= x < ScreenWidth ==> line[x] < 4
  {
    seq(ScreenWidth, x requires 0 <= x < ScreenWidth => BackgroundPixel(vram, r, ly, x))
  }

  // ---------------------------------------------------------------------
  // Window
  // ---------------------------------------------------------------------

  /** The early return of `fetchWindowTileData` is not taken. */
  predicate WindowVisible(r: Registers, ly: int)
  {
    r.lcdc & 0x20 != 0 && !(ly < r.wy) && !(r.wy > 143) && !(r.wx < 7) && !(r.wx > 166)
  }

  /** Column `x` lies right of the window's left edge WX - 7. */
  predicate InWindow(r: Registers, x: int)
  {
    x - r.wx + 7 >= 0
  }

  /** The shade `fetchWindowTileData` computes for column `x` of line `ly`. */
  function WindowPixel(vram: seq<bv8>, r: Registers, ly: int, x: int): (s: bv8)
    requires IsVram(vram) && 0 <= ly < ScreenHeight && 0 <= x < ScreenWidth
    requires WindowVisible(r, ly) && InWindow(r, x)
    ensures s < 4
  {
    var windowX := x - r.wx + 7;
    var tileRow := ((ly - r.wy) / 8) % 32;
    var tileCol := (windowX / 8) % 32;
    var tileAddress := TileMapBase(r.lcdc, 0x40) + tileRow * 32 + tileCol;
    TilePixel(vram, r.lcdc, r.bgp, tileAddress, (ly - r.wy) % 8, windowX % 8)
  }

  /**
   * The window is the plane of the LCDC bit 6 tile map, unscrolled, with
   * its top-left corner on screen at (WX - 7, WY).
   */
  lemma WindowIsPlacedPlane(vram: seq<bv8>, r: Registers, ly: int, x: int)
    requires IsVram(vram) && 0 <= ly < ScreenHeight && 0 <= x < ScreenWidth
    requires WindowVisible(r, ly) && InWindow(r, x)
    ensures WindowPixel(vram, r, ly, x) ==
            PlanePixel(vram, TileMapBase(r.lcdc, 0x40), r.lcdc, r.bgp, x - r.wx + 7, ly - r.wy)
  {
    var px, py := x - r.wx + 7, ly - r.wy;
    assert (px / 8) % 32 == px / 8 && (py / 8) % 32 == py / 8;
  }

  /**
   * `row` after `fetchWindowTileData`: the window's shades from column
   * WX - 7 on, and nothing at all when the window is off or out of range.
   */
  function WindowLine(row: seq<bv8>, vram: seq<bv8>, r: Registers, ly: int): (line: seq<bv8>)
    requires IsLine(row) && IsVram(vram) && 0 <= ly < ScreenHeight
    ensures IsLine(line)
    ensures !WindowVisible(r, ly) ==> line == row
    ensures forall x :: 0 <= x < ScreenWidth && !InWindow(r, x) ==> line[x] == row[x]
    ensures WindowVisible(r, ly) ==> forall x :: 0 <= x < ScreenWidth && InWindow(r, x) ==> line[x] < 4
  {
    if !WindowVisible(r, ly) then row
    else seq(ScreenWidth, x requires 0 <= x < ScreenWidth =>
               if InWindow(r, x) then WindowPixel(vram, r, ly, x) else row[x])
  }
}
