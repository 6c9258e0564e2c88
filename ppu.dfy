/**
 * The `PPU` class of src/gameboy/ppu/ppu.cpp: the scanline state machine
 * `step`, its interrupt checks and the three layer renderers, updating the
 * framebuffer and `bgBuffer` in place and the STAT and LY registers in
 * memory.
 *
 * The T-cycle `gameboy->getTcycles()` is the parameter of `Step`; what the
 * C++ hands to the CPU (`triggerInterrupt`) and to the renderer (`render`)
 * is returned as a sequence of events. The LCD registers live in the
 * memory's I/O block (see `Memory.IoRegistersOverrunOam`).
 */
module Ppu {
  import Memory
  import Wrappers
  import I = Interrupts
  import opened PpuTiming
  import opened PpuRender
  import opened PpuSprites

  // Register addresses of ppu.hpp.
  const Lcdc: int := 0xFF40
  const Stat: int := 0xFF41
  const Scy: int := 0xFF42
  const Scx: int := 0xFF43
  const Ly: int := 0xFF44
  const Lyc: int := 0xFF45
  const Bgp: int := 0xFF47
  const Obp0: int := 0xFF48
  const Obp1: int := 0xFF49
  const Wy: int := 0xFF4A
  const Wx: int := 0xFF4B

  predicate IsScreen(a: array2<bv8>)
  {
    a.Length0 == ScreenHeight && a.Length1 == ScreenWidth
  }

  /** Row `y` of a 144x160 buffer. */
  function Row(a: array2<bv8>, y: int): (row: seq<bv8>)
    reads a
    requires IsScreen(a) && 0 <= y < ScreenHeight
    ensures IsLine(row)
  {
    seq(ScreenWidth, x requires 0 <= x < ScreenWidth reads a => a[y, x])
  }

  /** The buffer as a sequence of rows. */
  function Rows(a: array2<bv8>): (frame: seq<seq<bv8>>)
    reads a
    requires IsScreen(a)
    ensures |frame| == ScreenHeight
  {
    seq(ScreenHeight, y requires 0 <= y < ScreenHeight reads a => Row(a, y))
  }

  /** The two rows `renderScanline` leaves: the framebuffer's and `bgBuffer`'s. */
  datatype Lines = Lines(frame: seq<bv8>, bg: seq<bv8>)

  /**
   * `renderScanline` on line `v.ly`: the background (into both rows) when
   * LCDC bit 0 is set, the window over it when bit 5 is set, the sprites
   * over both when bit 1 is set. The sprites test their priority against the
   * `bgBuffer` row, which keeps its old contents when the background is off.
   */
  function Scanline(row: seq<bv8>, bgRow: seq<bv8>, v: View): (r: Lines)
    requires IsLine(row) && IsLine(bgRow) && ValidView(v)
    ensures IsLine(r.frame) && IsLine(r.bg)
    ensures r.bg == if BgEnabled(v.regs) then BackgroundLine(v.vram, v.regs, v.ly) else bgRow
    ensures !BgEnabled(v.regs) && !WindowEnabled(v.regs) && !SpritesEnabled(v.regs) ==> r.frame == row
  {
    var background := BackgroundLine(v.vram, v.regs, v.ly);
    var afterBackground := if BgEnabled(v.regs) then background else row;
    var bg := if BgEnabled(v.regs) then background else bgRow;
    var afterWindow := if WindowEnabled(v.regs) then WindowLine(afterBackground, v.vram, v.regs, v.ly) else afterBackground;
    var frame := if SpritesEnabled(v.regs) then SpriteLine(afterWindow, bg, v) else afterWindow;
    Lines(frame, bg)
  }

  /**
   * The layers of a pixel, front to back: the first sprite in X order that
   * writes it, else the window where it covers the column, else the
   * background, else what the row held before.
   */
  lemma ScanlineLayers(row: seq<bv8>, bgRow: seq<bv8>, v: View, x: int)
    requires IsLine(row) && IsLine(bgRow) && ValidView(v) && 0 <= x < ScreenWidth
    ensures var r := Scanline(row, bgRow, v);
            var sorted := SortByX(Visible(v.oam, v.regs.lcdc, v.ly, OamEntries));
            AllOnLine(v.oam, v.regs.lcdc, v.ly, sorted) &&
            var w := FirstDrawing(r.bg, v, sorted, x, 0, PaintedCount(|sorted|));
            r.frame[x] ==
              if SpritesEnabled(v.regs) && w < PaintedCount(|sorted|) then SpriteShade(v, sorted[w].index, w, x)
              else if WindowVisible(v.regs, v.ly) && InWindow(v.regs, x) then WindowPixel(v.vram, v.regs, v.ly, x)
              else if BgEnabled(v.regs) then BackgroundPixel(v.vram, v.regs, v.ly, x)
              else row[x]
  {
    var r := Scanline(row, bgRow, v);
    var visible := Visible(v.oam, v.regs.lcdc, v.ly, OamEntries);
    var sorted := SortByX(visible);
    VisibleOnLine(v.oam, v.regs.lcdc, v.ly, OamEntries);
    PermutationOnLine(v.oam, v.regs.lcdc, v.ly, visible, sorted);
    var background := BackgroundLine(v.vram, v.regs, v.ly);
    var afterBackground := if BgEnabled(v.regs) then background else row;
    var afterWindow := if WindowEnabled(v.regs) then WindowLine(afterBackground, v.vram, v.regs, v.ly) else afterBackground;
    assert afterWindow[x] ==
      if WindowVisible(v.regs, v.ly) && InWindow(v.regs, x) then WindowPixel(v.vram, v.regs, v.ly, x)
      else if BgEnabled(v.regs) then BackgroundPixel(v.vram, v.regs, v.ly, x)
      else row[x];
    if SpritesEnabled(v.regs) {
      PaintFromFirstWins(afterWindow, r.bg, v, sorted, PaintedCount(|sorted|), x);
    }
  }

  class Ppu {
    const memory: Memory.Memory
    const framebuffer: array2<bv8>
    const bgBuffer: array2<bv8>
    var currentLY: int
    var currentMode: Mode
    /** The T-cycle of the last `Step` (455 before the first). */
    ghost var tick: int

    /** The arrays have their sizes and are distinct. */
    ghost predicate Shape()
    {
      memory.Valid() && IsScreen(framebuffer) && IsScreen(bgBuffer) && framebuffer != bgBuffer
    }

    /** `Shape`, and the mode and LY agree with the T-cycle of the last step. */
    ghost predicate Valid()
      reads this
    {
      Shape() && InLockstep(Control(currentMode, currentLY), tick)
    }

    /**
     * `PPU::PPU`: line 0, OAM search, a black framebuffer; `bgBuffer` is
     * not initialised in C++, so nothing is promised about it.
     */
    constructor (memory: Memory.Memory)
      requires memory.Valid()
      ensures Valid() && this.memory == memory
      ensures currentLY == 0 && currentMode == OAMSearch && tick == 455
      ensures fresh(framebuffer) && fresh(bgBuffer)
      ensures forall y, x :: 0 <= y < ScreenHeight && 0 <= x < ScreenWidth ==> framebuffer[y, x] == 0
    {
      this.memory := memory;
      framebuffer := new bv8[ScreenHeight, ScreenWidth]((_, _) => 0);
      bgBuffer := new bv8[ScreenHeight, ScreenWidth];
      currentLY := 0;
      currentMode := OAMSearch;
      tick := 455;
    }

    /** The registers the renderers read through `fetch8`. */
    function Regs(): Registers
      reads memory.io
      requires Shape()
    {
      Registers(memory.Io(Lcdc), memory.Io(Scy) as int, memory.Io(Scx) as int, memory.Io(Bgp),
                memory.Io(Obp0), memory.Io(Obp1), memory.Io(Wy) as int, memory.Io(Wx) as int)
    }

    /**
     * The register map of the renderers: LCDC 0xFF40, SCY 0xFF42, SCX
     * 0xFF43, BGP 0xFF47, OBP0 0xFF48, OBP1 0xFF49, WY 0xFF4A and WX
     * 0xFF4B, each its own byte of the I/O block.
     */
    lemma RegsAreLcdRegisters()
      requires Shape()
      ensures var r := Regs();
              r.lcdc == memory.io[0x40] && r.scy == memory.io[0x42] as int && r.scx == memory.io[0x43] as int &&
              r.bgp == memory.io[0x47] && r.obp0 == memory.io[0x48] && r.obp1 == memory.io[0x49] &&
              r.wy == memory.io[0x4A] as int && r.wx == memory.io[0x4B] as int
    {
    }

    function Vram(): (vram: seq<bv8>)
      reads memory.vram
      requires Shape()
      ensures IsVram(vram)
    {
      memory.vram[..]
    }

    /** What the renderers read, on line `ly`. */
    function ViewAt(ly: int): (v: View)
      reads memory.vram, memory.oam, memory.io
      requires Shape() && 0 <= ly < ScreenHeight
      ensures ValidView(v)
    {
      View(memory.vram[..], memory.oam[..], Regs(), ly)
    }

    /** A read of video RAM, which the renderers make through `fetch8`. */
    function ReadVram(address: int): (b: bv8)
      reads memory.bootrom, memory.romFixed, memory.romBanked, memory.vram, memory.extram
      reads memory.wramFixed, memory.wramBanked, memory.oam, memory.hram
      requires Shape() && InVram(address)
      ensures memory.Fetch8(address) == Wrappers.Some(b)
      ensures b == VramAt(Vram(), address)
    {
      memory.vram[address - Memory.VramOffset]
    }

    /** `fetch8` decodes every video RAM address to the cell `ReadVram` reads. */
    lemma VramIsFetch8(address: int)
      requires Shape() && InVram(address)
      ensures memory.Fetch8(address) == Wrappers.Some(VramAt(Vram(), address))
    {
    }

    /**
     * `step` at T-cycle `t`, the cycle after the last step's: mode, LY and
     * STAT advance as `NextControl` and `NextStat` say, LY is written at
     * T == 455, the CPU and the renderer receive `StepEvents`, and the
     * step that leaves Drawing renders line LY into both buffers. No other
     * register and no other row changes, and the lockstep is kept.
     */
    method Step(t: int) returns (events: seq<Event>)
      requires Valid() && t == NextTick(tick)
      modifies this, memory.io, framebuffer, bgBuffer
      ensures Valid() && tick == t
      ensures Control(currentMode, currentLY) == NextControl(old(Control(currentMode, currentLY)), t)
      ensures memory.Io(Stat) == NextStat(old(Control(currentMode, currentLY)), t, old(memory.Io(Stat)), old(memory.Io(Lyc)))
      ensures memory.Io(Ly) == if t == 455 then currentLY as bv8 else old(memory.Io(Ly))
      ensures forall a :: Memory.IoOffset <= a < Memory.IoOffset + Memory.IoSize && a != Stat && a != Ly ==>
                memory.Io(a) == old(memory.Io(a))
      ensures events == StepEvents(old(Control(currentMode, currentLY)), t, old(memory.Io(Stat)), old(memory.Io(Lyc)), Rows(framebuffer))
      ensures Renders(old(Control(currentMode, currentLY)), t) ==>
                0 <= old(currentLY) < ScreenHeight &&
                Lines(Row(framebuffer, old(currentLY)), Row(bgBuffer, old(currentLY))) ==
                Scanline(old(Row(framebuffer, currentLY)), old(Row(bgBuffer, currentLY)), old(ViewAt(currentLY)))
      ensures forall y, x ::
                (0 <= y < ScreenHeight && 0 <= x < ScreenWidth &&
                 (y != old(currentLY) || !Renders(old(Control(currentMode, currentLY)), t))) ==>
                framebuffer[y, x] == old(framebuffer[y, x]) && bgBuffer[y, x] == old(bgBuffer[y, x])
    {
      ghost var c := Control(currentMode, currentLY);
      ghost var stat, lyc := memory.Io(Stat), memory.Io(Lyc);
      RendersOncePerLine(c, tick);
      LockstepPreserved(c, tick);
      var switchEvents := StepSwitch(t);
      var lineEvents := StepLine(c, t, stat);
      tick := t;
      events := switchEvents + lineEvents;
    }

    /**
     * The `switch` of `step`: OAM search checks STAT at T == 0 and gives
     * way to Drawing from T == 80; Drawing renders the line, writes HBlank
     * into STAT and checks STAT from T == 252; VBlank requests its
     * interrupt at T == 0 on line 144.
     */
    method StepSwitch(t: int) returns (events: seq<Event>)
      requires Shape() && (Renders(Control(currentMode, currentLY), t) ==> 0 <= currentLY < ScreenHeight)
      modifies `currentMode, memory.io, framebuffer, bgBuffer
      ensures currentMode == SwitchMode(old(Control(currentMode, currentLY)), t)
      ensures memory.Io(Stat) ==
                if Renders(old(Control(currentMode, currentLY)), t) then WithMode(old(memory.Io(Stat)), HBlank) else old(memory.Io(Stat))
      ensures forall a :: Memory.IoOffset <= a < Memory.IoOffset + Memory.IoSize && a != Stat ==> memory.Io(a) == old(memory.Io(a))
      ensures events == SwitchEvents(old(Control(currentMode, currentLY)), t, old(memory.Io(Stat)))
      ensures Renders(old(Control(currentMode, currentLY)), t) ==>
                Lines(Row(framebuffer, currentLY), Row(bgBuffer, currentLY)) ==
                Scanline(old(Row(framebuffer, currentLY)), old(Row(bgBuffer, currentLY)), old(ViewAt(currentLY)))
      ensures forall y, x ::
                (0 <= y < ScreenHeight && 0 <= x < ScreenWidth &&
                 (y != currentLY || !Renders(old(Control(currentMode, currentLY)), t))) ==>
                framebuffer[y, x] == old(framebuffer[y, x]) && bgBuffer[y, x] == old(bgBuffer[y, x])
    {
      events := [];
      match currentMode {
        case OAMSearch =>
          if t == 0 {
            events := CheckStatInterrupts();
          }
          if t >= 80 {
            currentMode := Drawing;
          }
        case Drawing =>
          if t >= 252 {
            currentMode := HBlank;
            RenderScanline();
            memory.WriteIo(Stat, WithMode(memory.Io(Stat), currentMode));
            events := CheckStatInterrupts();
          }
        case HBlank =>
        case VBlank =>
          if t == 0 && currentLY == 144 {
            var statEvents := CheckStatInterrupts();
            events := [Irq(I.VBlank)] + statEvents;
          }
      }
    }

    /**
     * The second half of `step`, after the switch took state `c` with STAT
     * `stat` to mode `SwitchMode(c, t)`: the line transition, then the
     * mode written into STAT.
     */
    method StepLine(ghost c: Control, t: int, ghost stat: bv8) returns (events: seq<Event>)
      requires Shape() && 0 <= c.ly <= 153 && currentLY == c.ly && currentMode == SwitchMode(c, t)
      requires memory.Io(Stat) == if Renders(c, t) then WithMode(stat, HBlank) else stat
      modifies `currentLY, `currentMode, memory.io
      ensures Control(currentMode, currentLY) == NextControl(c, t)
      ensures memory.Io(Stat) == NextStat(c, t, stat, old(memory.Io(Lyc)))
      ensures memory.Io(Ly) == if t == 455 then currentLY as bv8 else old(memory.Io(Ly))
      ensures forall a :: Memory.IoOffset <= a < Memory.IoOffset + Memory.IoSize && a != Stat && a != Ly ==>
                memory.Io(a) == old(memory.Io(a))
      ensures events == LineEvents(c.ly, t, stat, old(memory.Io(Lyc)), Rows(framebuffer))
    {
      StatComposes(c, t, stat, memory.Io(Lyc), memory.Io(Stat));
      if Renders(c, t) {
        LineEventsIgnoreModeWrite(c.ly, t, stat, memory.Io(Lyc), Rows(framebuffer), HBlank);
      }
      events := LineTransition(t);
      // update STAT register in mem
      memory.WriteIo(Stat, WithMode(memory.Io(Stat), currentMode));
    }

    /**
     * The line transition of `step`: at T == 455 LY advances, is written,
     * is checked against LYC and wraps from 154 to 0; at T == 0 line 144
     * enters VBlank with its interrupt, a visible line enters OAM search
     * and checks STAT, and line 0 hands the framebuffer to the renderer.
     */
    method LineTransition(t: int) returns (events: seq<Event>)
      requires Shape() && 0 <= currentLY <= 153
      modifies `currentLY, `currentMode, memory.io
      ensures Control(currentMode, currentLY) == LineControl(old(Control(currentMode, currentLY)), t)
      ensures memory.Io(Stat) == if t == 455 then LycStat(old(memory.Io(Stat)), old(memory.Io(Lyc)), old(currentLY) + 1) else old(memory.Io(Stat))
      ensures memory.Io(Ly) == if t == 455 then currentLY as bv8 else old(memory.Io(Ly))
      ensures forall a :: Memory.IoOffset <= a < Memory.IoOffset + Memory.IoSize && a != Stat && a != Ly ==>
                memory.Io(a) == old(memory.Io(a))
      ensures events == LineEvents(old(currentLY), t, old(memory.Io(Stat)), old(memory.Io(Lyc)), Rows(framebuffer))
    {
      events := [];
      if t == 455 {
        events := AdvanceLine();
      } else if t == 0 {
        if currentLY == 144 {
          currentMode := VBlank;
          events := [Irq(I.VBlank)];
        } else if currentLY == 0 || currentLY < 144 {
          currentMode := OAMSearch;
          events := CheckStatInterrupts();
        }
        if currentLY == 0 {
          events := events + [Render(Rows(framebuffer))];
        }
      }
    }

    /**
     * The T == 455 branch of `step`: LY advances and is written, the LYC
     * check sees the new value (154 after line 153), then LY wraps to 0.
     */
    method AdvanceLine() returns (events: seq<Event>)
      requires Shape() && 0 <= currentLY <= 153
      modifies `currentLY, memory.io
      ensures currentLY == if old(currentLY) + 1 > 153 then 0 else old(currentLY) + 1
      ensures memory.Io(Stat) == LycStat(old(memory.Io(Stat)), old(memory.Io(Lyc)), old(currentLY) + 1)
      ensures memory.Io(Ly) == currentLY as bv8
      ensures forall a :: Memory.IoOffset <= a < Memory.IoOffset + Memory.IoSize && a != Stat && a != Ly ==>
                memory.Io(a) == old(memory.Io(a))
      ensures events == if LycRequests(old(memory.Io(Stat)), old(memory.Io(Lyc)), old(currentLY) + 1) then [Irq(I.Lcd)] else []
    {
      currentLY := currentLY + 1;
      memory.WriteIo(Ly, currentLY as bv8);
      label Written:
      events := CheckLycInterrupt();
      label Checked:
      // line 144 needs no preparation for VBlank
      if currentLY > 153 {
        currentLY := 0;
        memory.WriteIo(Ly, currentLY as bv8);
      }
      forall a | Memory.IoOffset <= a < Memory.IoOffset + Memory.IoSize && a != Stat && a != Ly
        ensures memory.Io(a) == old(memory.Io(a))
      {
        assert memory.Io(a) == old@Checked(memory.Io(a)) == old@Written(memory.Io(a));
      }
    }

    /** `checkSTATInterrupts`: an LCD interrupt when one of the four STAT sources holds. */
    method CheckStatInterrupts() returns (events: seq<Event>)
      requires Shape()
      ensures events == StatEvents(memory.Io(Stat), currentMode)
      ensures events == [] || events == [Irq(I.Lcd)]
    {
      var stat := memory.Io(Stat);
      var interruptTriggered := false;
      if stat & 0x08 != 0 && currentMode == HBlank {
        interruptTriggered := true;
      }
      if stat & 0x10 != 0 && currentMode == VBlank {
        interruptTriggered := true;
      }
      if stat & 0x20 != 0 && currentMode == OAMSearch {
        interruptTriggered := true;
      }
      if stat & 0x40 != 0 && stat & 0x04 != 0 {
        interruptTriggered := true;
      }
      events := if interruptTriggered then [Irq(I.Lcd)] else [];
    }

    /**
     * `checkLYCInterrupt`: sets or clears the coincidence flag of STAT and
     * requests an LCD interrupt on a match with STAT bit 6 set; no other
     * register changes.
     */
    method CheckLycInterrupt() returns (events: seq<Event>)
      requires Shape()
      modifies memory.io
      ensures memory.Io(Stat) == LycStat(old(memory.Io(Stat)), memory.Io(Lyc), currentLY)
      ensures events == if LycRequests(old(memory.Io(Stat)), memory.Io(Lyc), currentLY) then [Irq(I.Lcd)] else []
      ensures forall a :: Memory.IoOffset <= a < Memory.IoOffset + Memory.IoSize && a != Stat ==> memory.Io(a) == old(memory.Io(a))
    {
      var stat := memory.Io(Stat);
      var lyc := memory.Io(Lyc);
      ghost var before := stat;
      events := [];
      if lyc as int == currentLY {
        stat := stat | 0x04;
        assert stat & 0x40 == before & 0x40;
        if stat & 0x40 != 0 {
          events := [Irq(I.Lcd)];
        }
      } else {
        stat := stat & 0xFB;
      }
      assert stat == LycStat(before, lyc, currentLY);
      memory.WriteIo(Stat, stat);
    }

    /**
     * `renderScanline`: the background, window and sprite layers of line
     * `currentLY`, each when its LCDC bit is set; no other row changes.
     */
    method RenderScanline()
      requires Shape() && 0 <= currentLY < ScreenHeight
      modifies framebuffer, bgBuffer
      ensures Lines(Row(framebuffer, currentLY), Row(bgBuffer, currentLY)) ==
                Scanline(old(Row(framebuffer, currentLY)), old(Row(bgBuffer, currentLY)), ViewAt(currentLY))
      ensures forall y, x :: 0 <= y < ScreenHeight && y != currentLY && 0 <= x < ScreenWidth ==>
                framebuffer[y, x] == old(framebuffer[y, x]) && bgBuffer[y, x] == old(bgBuffer[y, x])
    {
      ghost var v := ViewAt(currentLY);
      // `isBGEnabled` and the others each fetch LCDC, which the layers leave alone
      var lcdc := memory.Io(Lcdc);
      if lcdc & 0x01 != 0 {
        FetchBackgroundTileData();
      }
      if lcdc & 0x20 != 0 {
        FetchWindowTileData();
      }
      if lcdc & 0x02 != 0 {
        FetchSpriteData();
      }
    }

    /**
     * `fetchBackgroundTileData`: row `currentLY` of the framebuffer and of
     * `bgBuffer` becomes the background line; no other row changes.
     */
    method FetchBackgroundTileData()
      requires Shape() && 0 <= currentLY < ScreenHeight
      modifies framebuffer, bgBuffer
      ensures Row(framebuffer, currentLY) == BackgroundLine(Vram(), Regs(), currentLY)
      ensures Row(bgBuffer, currentLY) == BackgroundLine(Vram(), Regs(), currentLY)
      ensures forall y, x :: 0 <= y < ScreenHeight && y != currentLY && 0 <= x < ScreenWidth ==>
                framebuffer[y, x] == old(framebuffer[y, x]) && bgBuffer[y, x] == old(bgBuffer[y, x])
    {
      var regs := Regs();
      var lcdc, scx, scy, bgp := regs.lcdc, regs.scx, regs.scy, regs.bgp;
      var tileMapBase := if lcdc & 0x08 != 0 then 0x9C00 else 0x9800;
      // the C++ masks `& 0xFF`, `& 0x1F` and `& 7` of non-negative values are `%`
      var tileRow := (((currentLY + scy) % 256) / 8) % 32;
      ghost var line := BackgroundLine(Vram(), regs, currentLY);
      for x := 0 to ScreenWidth
        invariant forall k :: 0 <= k < x ==> framebuffer[currentLY, k] == line[k] && bgBuffer[currentLY, k] == line[k]
        invariant forall y, k :: 0 <= y < ScreenHeight && y != currentLY && 0 <= k < ScreenWidth ==>
                    framebuffer[y, k] == old(framebuffer[y, k]) && bgBuffer[y, k] == old(bgBuffer[y, k])
      {
        var color := BackgroundColor(regs, tileMapBase, tileRow, x);
        bgBuffer[currentLY, x] := color;
        framebuffer[currentLY, x] := color;
      }
      assert Row(framebuffer, currentLY) == line;
      assert Row(bgBuffer, currentLY) == line;
    }

    /**
     * The body of the column loop of `fetchBackgroundTileData`: the shade of
     * column `x`, from the registers read before the loop.
     */
    method BackgroundColor(regs: Registers, tileMapBase: int, tileRow: int, x: int) returns (color: bv8)
      requires Shape() && 0 <= currentLY < ScreenHeight && 0 <= x < ScreenWidth
      requires tileMapBase == TileMapBase(regs.lcdc, 0x08) && tileRow == (((currentLY + regs.scy) % 256) / 8) % 32
      ensures color == BackgroundPixel(Vram(), regs, currentLY, x)
    {
      var tileCol := ((x + regs.scx) / 8) % 32;
      var tileAddress := tileMapBase + tileRow * 32 + tileCol;
      color := TileShade(regs.lcdc, regs.bgp, tileAddress, (currentLY + regs.scy) % 8, (x + regs.scx) % 8);
    }

    /**
     * The part both tile-layer loops share: the tile number at `tileAddress`
     * of a tile map, then the pixel (`tileX`, `tileY`) of that tile through
     * `palette`.
     */
    method TileShade(lcdc: bv8, palette: bv8, tileAddress: int, tileY: int, tileX: int) returns (color: bv8)
      requires Shape() && 0x9800 <= tileAddress < 0xA000 && 0 <= tileY < 8 && 0 <= tileX < 8
      ensures color == TilePixel(Vram(), lcdc, palette, tileAddress, tileY, tileX)
    {
      var tileIndex := ReadVram(tileAddress);
      var tileDataAddress := TileDataAddress(lcdc, tileIndex);
      var rowAddress := tileDataAddress + 2 * tileY;
      var lowByte := ReadVram(rowAddress);
      var highByte := ReadVram(rowAddress + 1);
      var bit := 7 - tileX;
      var colorIndex := ColorIndex(lowByte, highByte, bit as bv8);
      color := Shade(palette, colorIndex);
    }

    /**
     * `fetchWindowTileData`: from column WX - 7 on, row `currentLY` of the
     * framebuffer becomes the window line, unless the early return is taken;
     * `bgBuffer` and the other rows do not change.
     */
    method FetchWindowTileData()
      requires Shape() && 0 <= currentLY < ScreenHeight
      modifies framebuffer
      ensures Row(framebuffer, currentLY) == WindowLine(old(Row(framebuffer, currentLY)), Vram(), Regs(), currentLY)
      ensures forall y, x :: 0 <= y < ScreenHeight && y != currentLY && 0 <= x < ScreenWidth ==>
                framebuffer[y, x] == old(framebuffer[y, x])
    {
      var regs := Regs();
      if !(regs.lcdc & 0x20 != 0) || currentLY < regs.wy || regs.wy > 143 || regs.wx < 7 || regs.wx > 166 {
        return;
      }
      var tileMapBase := if regs.lcdc & 0x40 != 0 then 0x9C00 else 0x9800;
      var tileRow := ((currentLY - regs.wy) / 8) % 32;
      ghost var before := Row(framebuffer, currentLY);
      ghost var line := WindowLine(before, Vram(), regs, currentLY);
      for x := 0 to ScreenWidth
        invariant forall k :: 0 <= k < x ==> framebuffer[currentLY, k] == line[k]
        invariant forall k :: x <= k < ScreenWidth ==> framebuffer[currentLY, k] == before[k]
        invariant forall y, k :: 0 <= y < ScreenHeight && y != currentLY && 0 <= k < ScreenWidth ==>
                    framebuffer[y, k] == old(framebuffer[y, k])
      {
        var windowX := x - regs.wx + 7;
        if windowX >= 0 {
          var color := WindowColor(regs, tileMapBase, tileRow, x);
          framebuffer[currentLY, x] := color;
        }
      }
      assert Row(framebuffer, currentLY) == line;
    }

    /** The body of the column loop of `fetchWindowTileData` for a column inside the window. */
    method WindowColor(regs: Registers, tileMapBase: int, tileRow: int, x: int) returns (color: bv8)
      requires Shape() && 0 <= currentLY < ScreenHeight && 0 <= x < ScreenWidth
      requires WindowVisible(regs, currentLY) && InWindow(regs, x)
      requires tileMapBase == TileMapBase(regs.lcdc, 0x40) && tileRow == ((currentLY - regs.wy) / 8) % 32
      ensures color == WindowPixel(Vram(), regs, currentLY, x)
    {
      var windowX := x - regs.wx + 7;
      var tileCol := (windowX / 8) % 32;
      var tileAddress := tileMapBase + tileRow * 32 + tileCol;
      color := TileShade(regs.lcdc, regs.bgp, tileAddress, (currentLY - regs.wy) % 8, windowX % 8);
    }

    /**
     * `fetchSpriteData`: row `currentLY` of the framebuffer becomes the
     * sprite layer over it, with the priority test against `bgBuffer`.
     */
    method FetchSpriteData()
      requires Shape() && 0 <= currentLY < ScreenHeight
      modifies framebuffer
      ensures Row(framebuffer, currentLY) ==
                SpriteLine(old(Row(framebuffer, currentLY)), Row(bgBuffer, currentLY), ViewAt(currentLY))
      ensures forall y, x :: 0 <= y < ScreenHeight && y != currentLY && 0 <= x < ScreenWidth ==>
                framebuffer[y, x] == old(framebuffer[y, x])
    {
      var regs := Regs();
      ghost var v := ViewAt(currentLY);
      var visibleSprites, visibleSpriteCount := SortedVisible(regs.lcdc);
      var spritesToRender := if visibleSpriteCount > SpritesPerLineLimit then SpritesPerLineLimit else visibleSpriteCount;
      DrawSprites(regs, v, visibleSprites, visibleSpriteCount, spritesToRender);
    }

    /**
     * The last loop of `fetchSpriteData`: the first `spritesToRender`
     * sorted sprites painted from the last to the first, so that the first
     * in X order ends up in front.
     */
    method DrawSprites(regs: Registers, ghost v: View, visibleSprites: array<SpriteInfo>, visibleSpriteCount: int,
                       spritesToRender: int)
      requires Shape() && 0 <= currentLY < ScreenHeight && regs == Regs() && v == ViewAt(currentLY)
      requires 0 <= visibleSpriteCount <= visibleSprites.Length
      requires AllOnLine(v.oam, v.regs.lcdc, v.ly, visibleSprites[..visibleSpriteCount])
      requires spritesToRender == PaintedCount(visibleSpriteCount)
      modifies framebuffer
      ensures Row(framebuffer, currentLY) ==
                PaintFrom(old(Row(framebuffer, currentLY)), Row(bgBuffer, currentLY), v,
                          visibleSprites[..visibleSpriteCount], spritesToRender)
      ensures forall y, x :: 0 <= y < ScreenHeight && y != currentLY && 0 <= x < ScreenWidth ==>
                framebuffer[y, x] == old(framebuffer[y, x])
    {
      ghost var sorted := visibleSprites[..visibleSpriteCount];
      ghost var before := Row(framebuffer, currentLY);
      ghost var bgRow := Row(bgBuffer, currentLY);
      var i := spritesToRender - 1;
      while i >= 0
        invariant -1 <= i < spritesToRender
        invariant Shape() && regs == Regs() && v == ViewAt(currentLY) && bgRow == Row(bgBuffer, currentLY)
        invariant sorted == visibleSprites[..visibleSpriteCount]
        invariant PaintFrom(Row(framebuffer, currentLY), bgRow, v, sorted, i + 1) ==
                  PaintFrom(before, bgRow, v, sorted, spritesToRender)
        invariant forall y, x :: 0 <= y < ScreenHeight && y != currentLY && 0 <= x < ScreenWidth ==>
                    framebuffer[y, x] == old(framebuffer[y, x])
        decreases i
      {
        DrawSlot(regs, v, visibleSprites, visibleSpriteCount, i);
        i := i - 1;
      }
    }

    /** One pass of the drawing loop: slot `i` paints, leaving the slots below it to paint. */
    method DrawSlot(regs: Registers, ghost v: View, visibleSprites: array<SpriteInfo>, visibleSpriteCount: int, i: int)
      requires Shape() && 0 <= currentLY < ScreenHeight && regs == Regs() && v == ViewAt(currentLY)
      requires 0 <= visibleSpriteCount <= visibleSprites.Length
      requires AllOnLine(v.oam, v.regs.lcdc, v.ly, visibleSprites[..visibleSpriteCount])
      requires 0 <= i < visibleSpriteCount && i < OamEntries
      modifies framebuffer
      ensures PaintFrom(Row(framebuffer, currentLY), Row(bgBuffer, currentLY), v, visibleSprites[..visibleSpriteCount], i) ==
              PaintFrom(old(Row(framebuffer, currentLY)), Row(bgBuffer, currentLY), v, visibleSprites[..visibleSpriteCount], i + 1)
      ensures forall y, x :: 0 <= y < ScreenHeight && y != currentLY && 0 <= x < ScreenWidth ==>
                framebuffer[y, x] == old(framebuffer[y, x])
    {
      ghost var sorted := visibleSprites[..visibleSpriteCount];
      var spriteIndex := visibleSprites[i].index;
      assert spriteIndex == sorted[i].index;
      DrawSprite(regs, v, spriteIndex, i);
    }

    /**
     * The first two loops of `fetchSpriteData`: the entries on line
     * `currentLY`, bubble-sorted by X, are exactly the reference order.
     */
    method SortedVisible(lcdc: bv8) returns (visibleSprites: array<SpriteInfo>, visibleSpriteCount: int)
      requires Shape() && 0 <= currentLY < ScreenHeight
      ensures fresh(visibleSprites) && 0 <= visibleSpriteCount <= visibleSprites.Length
      ensures visibleSprites[..visibleSpriteCount] == SortByX(Visible(memory.oam[..], lcdc, currentLY, OamEntries))
      ensures AllOnLine(memory.oam[..], lcdc, currentLY, visibleSprites[..visibleSpriteCount])
    {
      ghost var oam := memory.oam[..];
      visibleSprites, visibleSpriteCount := CollectVisible(lcdc);
      ghost var visible := visibleSprites[..visibleSpriteCount];
      VisibleIsDistinct(oam, lcdc, currentLY, OamEntries);
      BubbleSort(visibleSprites, visibleSpriteCount);
      ghost var sorted := visibleSprites[..visibleSpriteCount];
      StableSortIsSortByX(oam, lcdc, currentLY, sorted);
      VisibleOnLine(oam, lcdc, currentLY, OamEntries);
      PermutationOnLine(oam, lcdc, currentLY, visible, sorted);
    }

    /**
     * The first loop of `fetchSpriteData`: the OAM entries on line
     * `currentLY`, in OAM order, in a fresh 40-entry array.
     */
    method CollectVisible(lcdc: bv8) returns (visibleSprites: array<SpriteInfo>, visibleSpriteCount: int)
      requires Shape() && 0 <= currentLY < ScreenHeight
      ensures fresh(visibleSprites) && visibleSprites.Length == OamEntries
      ensures 0 <= visibleSpriteCount <= OamEntries
      ensures visibleSprites[..visibleSpriteCount] == Visible(memory.oam[..], lcdc, currentLY, OamEntries)
    {
      var spriteHeight := if lcdc & 0x04 != 0 then 16 else 8;
      visibleSprites := new SpriteInfo[OamEntries](_ => SpriteInfo(0, 0));
      visibleSpriteCount := 0;
      ghost var oam := memory.oam[..];
      for i := 0 to OamEntries
        invariant 0 <= visibleSpriteCount <= i
        invariant visibleSprites[..visibleSpriteCount] == Visible(oam, lcdc, currentLY, i)
      {
        visibleSpriteCount := SelectEntry(lcdc, spriteHeight, visibleSprites, visibleSpriteCount, i);
      }
    }

    /** The first loop's body for OAM entry `i`: appended when it is on line `currentLY`. */
    method SelectEntry(lcdc: bv8, spriteHeight: int, visibleSprites: array<SpriteInfo>, visibleSpriteCount: int, i: int)
      returns (count: int)
      requires Shape() && 0 <= currentLY < ScreenHeight && spriteHeight == SpriteHeight(lcdc)
      requires visibleSprites.Length == OamEntries && 0 <= visibleSpriteCount <= i < OamEntries
      requires visibleSprites[..visibleSpriteCount] == Visible(memory.oam[..], lcdc, currentLY, i)
      modifies visibleSprites
      ensures visibleSpriteCount <= count <= i + 1
      ensures visibleSprites[..count] == Visible(memory.oam[..], lcdc, currentLY, i + 1)
    {
      ghost var oam := memory.oam[..];
      count := visibleSpriteCount;
      var yPos := (memory.oam[4 * i] as int - 16) % 256;
      assert yPos == YPos(oam, i);
      if yPos > 144 || currentLY < yPos || currentLY >= yPos + spriteHeight {
        return;
      }
      var xPos := (memory.oam[4 * i + 1] as int - 8) % 256;
      assert xPos == XPos(oam, i);
      if visibleSpriteCount < OamEntries {
        visibleSprites[visibleSpriteCount] := SpriteInfo(i, xPos);
        count := visibleSpriteCount + 1;
      }
    }

    /**
     * One pass of the last loop of `fetchSpriteData`: the sprite of OAM
     * entry `spriteIndex`, at sorted position `slot`, painted over row
     * `currentLY`.
     */
    method DrawSprite(regs: Registers, ghost v: View, spriteIndex: int, slot: int)
      requires Shape() && 0 <= currentLY < ScreenHeight && regs == Regs() && v == ViewAt(currentLY)
      requires 0 <= spriteIndex < OamEntries && 0 <= slot < OamEntries
      requires OnLine(v.oam, v.regs.lcdc, v.ly, spriteIndex)
      modifies framebuffer
      ensures Row(framebuffer, currentLY) ==
                PaintSprite(old(Row(framebuffer, currentLY)), Row(bgBuffer, currentLY), v, spriteIndex, slot)
      ensures forall y, x :: 0 <= y < ScreenHeight && y != currentLY && 0 <= x < ScreenWidth ==>
                framebuffer[y, x] == old(framebuffer[y, x])
    {
      var xPos := (memory.oam[4 * spriteIndex + 1] as int - 8) % 256;
      assert xPos == XPos(v.oam, spriteIndex);
      var lowByte, highByte := SpriteTileRow(regs, spriteIndex, slot);
      var attributes := memory.oam[4 * slot + 3];
      var palette := if attributes & 0x10 != 0 then regs.obp1 else regs.obp0;
      PaintSpriteRow(framebuffer, bgBuffer, currentLY, v, spriteIndex, slot, xPos, attributes, palette, lowByte, highByte);
    }

    /** The two bytes of tile data a sprite shows on line `currentLY`. */
    method SpriteTileRow(regs: Registers, spriteIndex: int, slot: int) returns (lowByte: bv8, highByte: bv8)
      requires Shape() && 0 <= currentLY < ScreenHeight && regs == Regs()
      requires 0 <= spriteIndex < OamEntries && 0 <= slot < OamEntries
      requires OnLine(memory.oam[..], regs.lcdc, currentLY, spriteIndex)
      ensures var address := SpriteRowAddress(memory.oam[..], regs.lcdc, currentLY, spriteIndex, slot);
              lowByte == VramAt(Vram(), address) && highByte == VramAt(Vram(), address + 1)
    {
      var tileDataAddress := SpriteTileAddress(regs.lcdc, spriteIndex, slot);
      lowByte := ReadVram(tileDataAddress);
      highByte := ReadVram(tileDataAddress + 1);
    }

    /** The address of the row of tile data a sprite shows on line `currentLY`, after the flips and the 8x16 pairing. */
    method SpriteTileAddress(lcdc: bv8, spriteIndex: int, slot: int) returns (tileDataAddress: int)
      requires Shape() && 0 <= currentLY < ScreenHeight
      requires 0 <= spriteIndex < OamEntries && 0 <= slot < OamEntries
      requires OnLine(memory.oam[..], lcdc, currentLY, spriteIndex)
      ensures tileDataAddress == SpriteRowAddress(memory.oam[..], lcdc, currentLY, spriteIndex, slot)
    {
      ghost var oam := memory.oam[..];
      var spriteHeight := if lcdc & 0x04 != 0 then 16 else 8;
      var yPos := (memory.oam[4 * spriteIndex] as int - 16) % 256;
      assert yPos == YPos(oam, spriteIndex);
      var tileIndex := memory.oam[4 * slot + 2] as int;
      var attributes := memory.oam[4 * slot + 3];
      var tileY := currentLY - yPos;
      if attributes & 0x40 != 0 {
        tileY := spriteHeight - 1 - tileY;
      }
      assert tileY == SpriteTileY(oam, lcdc, currentLY, spriteIndex, slot);
      if lcdc & 0x04 != 0 {
        tileIndex := tileIndex - tileIndex % 2;  // `tileIndex &= 0xFE`
        if tileY >= 8 {
          tileIndex := tileIndex + 1;
          tileY := tileY - 8;
        }
      }
      tileDataAddress := 0x8000 + tileIndex * 16 + tileY * 2;
    }
  }

  /**
   * The inner loop of the last loop of `fetchSpriteData`: the eight columns
   * of one sprite painted over row `v.ly` of `framebuffer`.
   */
  method PaintSpriteRow(framebuffer: array2<bv8>, bgBuffer: array2<bv8>, ly: int, ghost v: View, spriteIndex: int, slot: int,
                        xPos: int, attributes: bv8, palette: bv8, lowByte: bv8, highByte: bv8)
    requires IsScreen(framebuffer) && IsScreen(bgBuffer) && framebuffer != bgBuffer && ValidView(v) && ly == v.ly
    requires 0 <= spriteIndex < OamEntries && 0 <= slot < OamEntries
    requires OnLine(v.oam, v.regs.lcdc, v.ly, spriteIndex) && xPos == XPos(v.oam, spriteIndex)
    requires attributes == v.oam[4 * slot + 3]
    requires palette == if attributes & 0x10 != 0 then v.regs.obp1 else v.regs.obp0
    requires var address := SpriteRowAddress(v.oam, v.regs.lcdc, v.ly, spriteIndex, slot);
             lowByte == VramAt(v.vram, address) && highByte == VramAt(v.vram, address + 1)
    modifies framebuffer
    ensures Row(framebuffer, ly) ==
              PaintSprite(old(Row(framebuffer, ly)), Row(bgBuffer, ly), v, spriteIndex, slot)
    ensures forall y, x :: 0 <= y < ScreenHeight && y != ly && 0 <= x < ScreenWidth ==>
              framebuffer[y, x] == old(framebuffer[y, x])
  {
    ghost var before := Row(framebuffer, ly);
    ghost var line := PaintSprite(before, Row(bgBuffer, ly), v, spriteIndex, slot);
    for x := 0 to 8
      invariant forall p :: 0 <= p < ScreenWidth ==>
                  framebuffer[ly, p] == if xPos <= p < xPos + x then line[p] else before[p]
      invariant forall y, k :: 0 <= y < ScreenHeight && y != ly && 0 <= k < ScreenWidth ==>
                  framebuffer[y, k] == old(framebuffer[y, k])
    {
      // the C++ also skips `xPos + x < 0`, which the unsigned `xPos` never meets
      if xPos + x < ScreenWidth {
        var pixelX := xPos + x;
        var drawSprite, color :=
          SpriteColumn(v, spriteIndex, slot, attributes, palette, lowByte, highByte, x, pixelX, bgBuffer[ly, pixelX]);
        if drawSprite {
          framebuffer[ly, pixelX] := color;
        }
      }
    }
    assert Row(framebuffer, ly) == line;
  }

  /**
   * The inner loop's body of the last loop of `fetchSpriteData` for column
   * `x` of a sprite (screen column `pixelX`): whether it writes the pixel,
   * and the shade it writes.
   */
  method SpriteColumn(ghost v: View, spriteIndex: int, slot: int, attributes: bv8, palette: bv8,
                      lowByte: bv8, highByte: bv8, x: int, pixelX: int, bgPixel: bv8)
    returns (drawSprite: bool, color: bv8)
    requires ValidView(v) && 0 <= spriteIndex < OamEntries && 0 <= slot < OamEntries
    requires OnLine(v.oam, v.regs.lcdc, v.ly, spriteIndex)
    requires attributes == v.oam[4 * slot + 3]
    requires palette == if attributes & 0x10 != 0 then v.regs.obp1 else v.regs.obp0
    requires 0 <= x < 8 && pixelX == XPos(v.oam, spriteIndex) + x && pixelX < ScreenWidth
    requires var address := SpriteRowAddress(v.oam, v.regs.lcdc, v.ly, spriteIndex, slot);
             lowByte == VramAt(v.vram, address) && highByte == VramAt(v.vram, address + 1)
    ensures drawSprite == Draws(v, bgPixel, spriteIndex, slot, pixelX)
    ensures drawSprite ==> color == SpriteShade(v, spriteIndex, slot, pixelX)
  {
    var colorIndex := SpriteColorAt(v, spriteIndex, slot, attributes, lowByte, highByte, x, pixelX);
    drawSprite, color := false, 0;
    if colorIndex != 0 {
      color := Shade(palette, colorIndex);
      drawSprite := true;
      if attributes & 0x80 != 0 {
        drawSprite := bgPixel == 0;
      }
    }
  }

  /** The colour number of column `x` of the sprite, flipped by attribute bit 5. */
  method SpriteColorAt(ghost v: View, spriteIndex: int, slot: int, attributes: bv8,
                       lowByte: bv8, highByte: bv8, x: int, pixelX: int)
    returns (colorIndex: bv8)
    requires ValidView(v) && 0 <= spriteIndex < OamEntries && 0 <= slot < OamEntries
    requires OnLine(v.oam, v.regs.lcdc, v.ly, spriteIndex)
    requires attributes == v.oam[4 * slot + 3]
    requires 0 <= x < 8 && pixelX == XPos(v.oam, spriteIndex) + x && pixelX < ScreenWidth
    requires var address := SpriteRowAddress(v.oam, v.regs.lcdc, v.ly, spriteIndex, slot);
             lowByte == VramAt(v.vram, address) && highByte == VramAt(v.vram, address + 1)
    ensures Covers(v.oam, spriteIndex, pixelX) && colorIndex == SpriteColorIndex(v, spriteIndex, slot, pixelX)
  {
    var bit := if attributes & 0x20 != 0 then x else 7 - x;
    assert x == pixelX - XPos(v.oam, spriteIndex);
    colorIndex := ColorIndex(lowByte, highByte, bit as bv8);
  }

  /**
   * The bubble sort of `fetchSpriteData` on `a[..n]`: afterwards the
   * entries are a permutation of the old ones in non-decreasing X, and
   * entries of equal X that were in OAM order still are (the sort only
   * swaps neighbours of different X).
   */
  method BubbleSort(a: array<SpriteInfo>, n: int)
    requires 0 <= n <= a.Length
    modifies a
    ensures multiset(a[..n]) == old(multiset(a[..n]))
    ensures SortedByX(a[..n])
    ensures TiesInOamOrder(old(a[..n])) ==> TiesInOamOrder(a[..n])
    ensures a[n..] == old(a[n..])
  {
    ghost var stable := TiesInOamOrder(a[..n]);
    var i := 0;
    while i < n - 1
      invariant 0 <= i <= n && (n > 0 ==> i <= n - 1)
      invariant multiset(a[..n]) == old(multiset(a[..n])) && a[n..] == old(a[n..])
      invariant stable ==> TiesInOamOrder(a[..n])
      invariant forall k, m :: n - i <= k < m < n ==> a[k].x <= a[m].x
      invariant forall k, m :: 0 <= k < n - i <= m < n ==> a[k].x <= a[m].x
    {
      BubblePass(a, n, n - i - 1);
      i := i + 1;
    }
  }

  /**
   * The inner loop of the bubble sort: carries the largest X of
   * `a[..limit + 1]` to position `limit`, leaving `a[limit + 1..]` alone.
   */
  method BubblePass(a: array<SpriteInfo>, n: int, limit: int)
    requires 0 <= limit < n <= a.Length
    requires forall k, m :: 0 <= k <= limit < m < n ==> a[k].x <= a[m].x
    modifies a
    ensures multiset(a[..n]) == old(multiset(a[..n]))
    ensures TiesInOamOrder(old(a[..n])) ==> TiesInOamOrder(a[..n])
    ensures forall k :: limit < k < a.Length ==> a[k] == old(a[k])
    ensures forall k, m :: 0 <= k <= limit < m < n ==> a[k].x <= a[m].x
    ensures forall k :: 0 <= k <= limit ==> a[k].x <= a[limit].x
  {
    for j := 0 to limit
      invariant multiset(a[..n]) == old(multiset(a[..n]))
      invariant TiesInOamOrder(old(a[..n])) ==> TiesInOamOrder(a[..n])
      invariant forall k :: limit < k < a.Length ==> a[k] == old(a[k])
      invariant forall k, m :: 0 <= k <= limit < m < n ==> a[k].x <= a[m].x
      invariant forall k :: 0 <= k <= j ==> a[k].x <= a[j].x
    {
      BubbleStep(a, n, limit, j);
    }
  }

  /** One comparison of the inner loop: an inverted neighbouring pair is swapped. */
  method BubbleStep(a: array<SpriteInfo>, n: int, limit: int, j: int)
    requires 0 <= j < limit < n <= a.Length
    requires forall k, m :: 0 <= k <= limit < m < n ==> a[k].x <= a[m].x
    requires forall k :: 0 <= k <= j ==> a[k].x <= a[j].x
    modifies a
    ensures multiset(a[..n]) == old(multiset(a[..n]))
    ensures TiesInOamOrder(old(a[..n])) ==> TiesInOamOrder(a[..n])
    ensures forall k :: limit < k < a.Length ==> a[k] == old(a[k])
    ensures forall k, m :: 0 <= k <= limit < m < n ==> a[k].x <= a[m].x
    ensures forall k :: 0 <= k <= j + 1 ==> a[k].x <= a[j + 1].x
  {
    if a[j].x > a[j + 1].x {
      SwapNext(a, n, j);
    }
  }

  /** `std::swap(visibleSprites[j], visibleSprites[j + 1])` on an inverted pair. */
  method SwapNext(a: array<SpriteInfo>, n: int, j: int)
    requires 0 <= j < n - 1 && n <= a.Length
    requires a[j].x > a[j + 1].x
    modifies a
    ensures a[j] == old(a[j + 1]) && a[j + 1] == old(a[j])
    ensures forall k :: 0 <= k < a.Length && k != j && k != j + 1 ==> a[k] == old(a[k])
    ensures multiset(a[..n]) == old(multiset(a[..n]))
    ensures TiesInOamOrder(old(a[..n])) ==> TiesInOamOrder(a[..n])
  {
    if TiesInOamOrder(a[..n]) {
      SwapKeepsTies(a[..n], j);
    }
    SwapPermutes(a[..n], j);
    a[j], a[j + 1] := a[j + 1], a[j];
    assert a[..n] == old(a[..n])[j := old(a[j + 1])][j + 1 := old(a[j])];
  }

  lemma SwapPermutes(s: seq<SpriteInfo>, j: int)
    requires 0 <= j < |s| - 1
    ensures multiset(s[j := s[j + 1]][j + 1 := s[j]]) == multiset(s)
  {
  }

  /** Swapping a neighbouring pair of different X keeps equal-X entries in their order. */
  lemma SwapKeepsTies(s: seq<SpriteInfo>, j: int)
    requires 0 <= j < |s| - 1 && s[j].x > s[j + 1].x && TiesInOamOrder(s)
    ensures TiesInOamOrder(s[j := s[j + 1]][j + 1 := s[j]])
  {
    var t := s[j := s[j + 1]][j + 1 := s[j]];
    forall k, m | 0 <= k < m < |t| && t[k].x == t[m].x
      ensures t[k].index < t[m].index
    {
      // the position in `s` of each entry of `t`
      var k' := if k == j then j + 1 else if k == j + 1 then j else k;
      var m' := if m == j then j + 1 else if m == j + 1 then j else m;
      assert t[k] == s[k'] && t[m] == s[m'];
      assert k' < m';
    }
  }
}
