/**
 * The scanline state machine of `PPU::step` (src/gameboy/ppu/ppu.cpp) as
 * pure functions: the mode switch, the LY counter, the STAT byte and the
 * interrupt predicates. The T-cycle within the line (`getTcycles()`) is an
 * input `t` in 0..455.
 */
module PpuTiming {
  import I = Interrupts

  /** `PPU::Mode`. */
  datatype Mode = HBlank | VBlank | OAMSearch | Drawing

  /** The `uint8_t` value of each mode (ppu.hpp). */
  function ModeBits(m: Mode): (b: bv8)
    ensures b < 4
  {
    match m
    case HBlank => 0
    case VBlank => 1
    case OAMSearch => 2
    case Drawing => 3
  }

  /** The mode a STAT byte reports in its two low bits. */
  function ModeOf(stat: bv8): (m: Mode)
    ensures ModeBits(m) == stat & 0x03
  {
    var bits := stat & 0x03;
    if bits == 0 then HBlank else if bits == 1 then VBlank else if bits == 2 then OAMSearch else Drawing
  }

  /** `(stat & 0xFC) | mode`: STAT with its mode field replaced and bits 2-7 kept. */
  function WithMode(stat: bv8, m: Mode): (r: bv8)
    ensures r & 0x03 == ModeBits(m)
    ensures r & 0xFC == stat & 0xFC
  {
    (stat & 0xFC) | ModeBits(m)
  }

  /** A STAT byte written with a mode reports that mode, and a second write overrides the first. */
  lemma WithModeRoundTrip(stat: bv8, m: Mode, m': Mode)
    ensures ModeOf(WithMode(stat, m)) == m
    ensures WithMode(WithMode(stat, m), m') == WithMode(stat, m')
  {
  }

  /**
   * `checkLYCInterrupt`'s update of STAT: the coincidence flag (bit 2) is
   * set exactly when LYC equals LY, and no other bit changes.
   */
  function LycStat(stat: bv8, lyc: bv8, ly: int): (r: bv8)
    ensures (r & 0x04 != 0) <==> lyc as int == ly
    ensures r & 0xFB == stat & 0xFB
  {
    if lyc as int == ly then stat | 0x04 else stat & 0xFB
  }

  /** `checkLYCInterrupt` requests an LCD interrupt when LYC matches and STAT bit 6 is set. */
  predicate LycRequests(stat: bv8, lyc: bv8, ly: int): (b: bool)
    ensures b <==> LycStat(stat, lyc, ly) & 0x44 == 0x44
  {
    lyc as int == ly && stat & 0x40 != 0
  }

  /**
   * The four tests of `checkSTATInterrupts`, by interrupt source: STAT bit
   * 3 + mode enables the interrupt for HBlank, VBlank and OAM search
   * (Drawing has none), and bits 6 and 2 together are the LY coincidence
   * source.
   */
  predicate StatRequests(stat: bv8, m: Mode): (b: bool)
    ensures b <==> (m != Drawing && stat & (0x08 << ModeBits(m)) != 0) || stat & 0x44 == 0x44
  {
    (stat & 0x08 != 0 && m == HBlank) ||
    (stat & 0x10 != 0 && m == VBlank) ||
    (stat & 0x20 != 0 && m == OAMSearch) ||
    (stat & 0x40 != 0 && stat & 0x04 != 0)
  }

  /** The mode field of STAT plays no part in its interrupt requests. */
  lemma StatRequestsIgnoreModeField(stat: bv8, m: Mode)
    ensures StatRequests(stat, m) == StatRequests(WithMode(stat, m), m)
  {
  }

  /** The mode and `currentLY`. */
  datatype Control = Control(mode: Mode, ly: int)

  /** The mode after the `switch` of `step`. */
  function SwitchMode(c: Control, t: int): (m: Mode)
    ensures m != c.mode ==> (c.mode == OAMSearch && m == Drawing && t >= 80) ||
                            (c.mode == Drawing && m == HBlank && t >= 252)
    ensures c.mode == HBlank || c.mode == VBlank ==> m == c.mode
  {
    match c.mode
    case OAMSearch => if t >= 80 then Drawing else OAMSearch
    case Drawing => if t >= 252 then HBlank else Drawing
    case HBlank => HBlank
    case VBlank => VBlank
  }

  /** The switch leaves Drawing, and `renderScanline` runs, in this step. */
  predicate Renders(c: Control, t: int)
  {
    c.mode == Drawing && t >= 252
  }

  /**
   * The second half of `step`, on the state the switch left: at T == 455
   * LY advances and wraps from 154 to 0; at T == 0 line 144 enters VBlank
   * and a visible line starts with OAM search.
   */
  function LineControl(c: Control, t: int): (n: Control)
    ensures t == 455 ==> n == Control(c.mode, if c.ly + 1 > 153 then 0 else c.ly + 1)
    ensures t != 455 ==> n.ly == c.ly
    ensures t != 455 && t != 0 ==> n == c
  {
    if t == 455 then
      var ly := c.ly + 1;
      Control(c.mode, if ly > 153 then 0 else ly)
    else if t == 0 then
      if c.ly == 144 then Control(VBlank, c.ly)
      else if c.ly == 0 || c.ly < 144 then Control(OAMSearch, c.ly)
      else c
    else c
  }

  /** Mode and LY after one `step` at T-cycle `t`. */
  function NextControl(c: Control, t: int): (n: Control)
    ensures t == 455 ==> n.ly == (if c.ly + 1 > 153 then 0 else c.ly + 1)
    ensures t != 455 ==> n.ly == c.ly
    ensures 0 <= c.ly <= 153 ==> 0 <= n.ly <= 153
  {
    LineControl(Control(SwitchMode(c, t), c.ly), t)
  }

  /** What the PPU hands to the CPU and to the renderer. */
  datatype Event = Irq(kind: I.Interrupt) | Render(frame: seq<seq<bv8>>)

  function StatEvents(stat: bv8, m: Mode): (e: seq<Event>)
    ensures e == [] || e == [Irq(I.Lcd)]
    ensures |e| == 1 <==> StatRequests(stat, m)
  {
    if StatRequests(stat, m) then [Irq(I.Lcd)] else []
  }

  /** The events of the switch of `step`. */
  function SwitchEvents(c: Control, t: int, stat: bv8): (e: seq<Event>)
    ensures |e| <= 2
    ensures Irq(I.VBlank) in e <==> c.mode == VBlank && t == 0 && c.ly == 144
    ensures forall k :: 0 <= k < |e| ==> e[k].Irq?
  {
    match c.mode
    case OAMSearch => if t == 0 then StatEvents(stat, OAMSearch) else []
    case Drawing => if t >= 252 then StatEvents(WithMode(stat, HBlank), HBlank) else []
    case HBlank => []
    case VBlank => if t == 0 && c.ly == 144 then [Irq(I.VBlank)] + StatEvents(stat, VBlank) else []
  }

  /**
   * The events of the second half of `step` on line `ly`: the LYC check
   * of the new LY at T == 455; at T == 0 the VBlank interrupt on line 144
   * or the OAM search check on a visible line, then the frame when LY is 0.
   */
  function LineEvents(ly: int, t: int, stat: bv8, lyc: bv8, frame: seq<seq<bv8>>): (e: seq<Event>)
    ensures |e| <= 2
    ensures Irq(I.VBlank) in e <==> t == 0 && ly == 144
    ensures Render(frame) in e <==> t == 0 && ly == 0
    ensures t != 0 ==> forall k :: 0 <= k < |e| ==> e[k] == Irq(I.Lcd)
  {
    if t == 455 then
      if LycRequests(stat, lyc, ly + 1) then [Irq(I.Lcd)] else []
    else if t == 0 then
      (if ly == 144 then [Irq(I.VBlank)]
       else if ly == 0 || ly < 144 then StatEvents(stat, OAMSearch)
       else [])
      + (if ly == 0 then [Render(frame)] else [])
    else []
  }

  /**
   * The events of one `step` at `t`, in order: those of the switch, then
   * those of the second half. `stat` is STAT before the step: the switch's
   * mode write does not touch the bits the second half reads.
   */
  function StepEvents(c: Control, t: int, stat: bv8, lyc: bv8, frame: seq<seq<bv8>>): (e: seq<Event>)
    ensures |e| <= 4
    ensures Irq(I.VBlank) in e <==> t == 0 && c.ly == 144
    ensures Render(frame) in e <==> t == 0 && c.ly == 0
    ensures t != 0 && t != 455 ==> forall k :: 0 <= k < |e| ==> e[k] == Irq(I.Lcd)
  {
    SwitchEvents(c, t, stat) + LineEvents(c.ly, t, stat, lyc, frame)
  }

  /** The second half reads STAT's interrupt enables and flag only, which the switch's mode write keeps. */
  lemma LineEventsIgnoreModeWrite(ly: int, t: int, stat: bv8, lyc: bv8, frame: seq<seq<bv8>>, m: Mode)
    requires t != 0
    ensures LineEvents(ly, t, WithMode(stat, m), lyc, frame) == LineEvents(ly, t, stat, lyc, frame)
  {
    assert WithMode(stat, m) & 0x40 == stat & 0x40;
  }

  /** The final mode write overrides the switch's, and the LYC update touches bit 2 only. */
  lemma ModeWriteIsOverridden(stat: bv8, lyc: bv8, ly: int, m: Mode, m': Mode)
    ensures WithMode(LycStat(WithMode(stat, m), lyc, ly), m') == WithMode(LycStat(stat, lyc, ly), m')
    ensures WithMode(WithMode(stat, m), m') == WithMode(stat, m')
  {
    WithModeRoundTrip(stat, m, m');
    if lyc as int == ly {
      assert LycStat(WithMode(stat, m), lyc, ly) == WithMode(stat | 0x04, m);
    } else {
      assert LycStat(WithMode(stat, m), lyc, ly) == WithMode(stat & 0xFB, m);
    }
    WithModeRoundTrip(LycStat(stat, lyc, ly), m, m');
  }

  /** STAT after one `step`: the LYC update at T == 455, then the final mode write. */
  function NextStat(c: Control, t: int, stat: bv8, lyc: bv8): (r: bv8)
    ensures r & 0x03 == ModeBits(NextControl(c, t).mode)
    ensures t != 455 ==> r & 0xFC == stat & 0xFC
    ensures t == 455 ==> r & 0xF8 == stat & 0xF8 && (r & 0x04 != 0 <==> lyc as int == c.ly + 1)
  {
    WithMode(if t == 455 then LycStat(stat, lyc, c.ly + 1) else stat, NextControl(c, t).mode)
  }

  /**
   * `step` is its `switch` followed by its second half: STAT after the
   * final mode write, computed on the STAT the switch left (`switched`),
   * is `NextStat`.
   */
  lemma StatComposes(c: Control, t: int, stat: bv8, lyc: bv8, switched: bv8)
    requires switched == if Renders(c, t) then WithMode(stat, HBlank) else stat
    ensures WithMode(if t == 455 then LycStat(switched, lyc, c.ly + 1) else switched, NextControl(c, t).mode) ==
              NextStat(c, t, stat, lyc)
  {
    if Renders(c, t) {
      ModeWriteIsOverridden(stat, lyc, c.ly + 1, HBlank, NextControl(c, t).mode);
    }
  }

  // ---------------------------------------------------------------------
  // The lockstep between the mode, LY and the T-cycle
  // ---------------------------------------------------------------------

  /** The mode of a visible line (LY < 144) at T-cycle `t`. */
  function LineMode(t: int): Mode
  {
    if t < 80 then OAMSearch else if t < 252 then Drawing else HBlank
  }

  /**
   * The state after the step at T-cycle `t`, when the steps so far had the
   * T-cycles 0, 1, ..., 455, 0, ... (the PPU starts in OAM search on line
   * 0, as if just after a T == 455).
   */
  predicate InLockstep(c: Control, t: int)
  {
    0 <= c.ly <= 153 && 0 <= t < 456 &&
    if t == 455 then
      if 1 <= c.ly <= 144 then c.mode == HBlank
      else c.mode == VBlank || (c.ly == 0 && c.mode == OAMSearch)
    else if c.ly >= 144 then c.mode == VBlank
    else c.mode == LineMode(t)
  }

  /** The T-cycle that follows `t`. */
  function NextTick(t: int): (u: int)
    requires 0 <= t < 456
    ensures 0 <= u < 456
  {
    (t + 1) % 456
  }

  /** The constructed PPU (LY 0, OAM search) is in lockstep, as if after T == 455. */
  lemma InitialLockstep()
    ensures InLockstep(Control(OAMSearch, 0), 455)
  {
  }

  /** A step at the next T-cycle keeps the lockstep. */
  lemma LockstepPreserved(c: Control, t: int)
    requires InLockstep(c, t)
    ensures InLockstep(NextControl(c, NextTick(t)), NextTick(t))
  {
  }

  /**
   * In lockstep, `renderScanline` runs exactly once per visible line, at
   * T == 252, and always on a row of the 144-line framebuffer.
   */
  lemma RendersOncePerLine(c: Control, t: int)
    requires InLockstep(c, t)
    ensures Renders(c, NextTick(t)) <==> NextTick(t) == 252 && c.ly < 144
    ensures Renders(c, NextTick(t)) ==> 0 <= c.ly < 144
  {
  }

  /**
   * In lockstep the VBlank case of the switch never fires (the mode is still
   * HBlank when LY reaches 144), so VBlank is requested exactly once per
   * frame, at T == 0 of line 144, by the second half of `step`.
   */
  lemma VBlankOncePerFrame(c: Control, t: int, stat: bv8, lyc: bv8, frame: seq<seq<bv8>>)
    requires InLockstep(c, t)
    ensures var e := StepEvents(c, NextTick(t), stat, lyc, frame);
            Irq(I.VBlank) in e <==> NextTick(t) == 0 && c.ly == 144
    ensures var e := StepEvents(c, NextTick(t), stat, lyc, frame);
            NextTick(t) == 0 && c.ly == 144 ==> e == [Irq(I.VBlank)]
  {
  }

  /** The T-cycle of the last of `n` steps that follow the step at `t`. */
  function TickAfter(t: int, n: nat): (u: int)
    requires 0 <= t < 456
    ensures 0 <= u < 456
  {
    (t + n) % 456
  }

  /** The state `n` steps after the step at `t`, each at the following T-cycle. */
  function Run(c: Control, t: int, n: nat): Control
    requires 0 <= t < 456
    decreases n
  {
    if n == 0 then c else NextControl(Run(c, t, n - 1), TickAfter(t, n))
  }

  /** Every run from a state in lockstep stays in lockstep. */
  lemma {:induction false} RunInLockstep(c: Control, t: int, n: nat)
    requires InLockstep(c, t)
    ensures InLockstep(Run(c, t, n), TickAfter(t, n))
    decreases n
  {
    if n > 0 {
      RunInLockstep(c, t, n - 1);
      assert NextTick(TickAfter(t, n - 1)) == TickAfter(t, n);
      LockstepPreserved(Run(c, t, n - 1), TickAfter(t, n - 1));
    }
  }

  /** The steps at T-cycles 0 to 454 of a line leave LY alone. */
  lemma {:induction false} RunWithinLine(c: Control, t: int, n: nat)
    requires t == 455 && n <= 455
    ensures Run(c, t, n).ly == c.ly
    decreases n
  {
    if n > 0 {
      RunWithinLine(c, t, n - 1);
      assert TickAfter(t, n) == n - 1;
    }
  }

  /**
   * A whole line of 456 T-cycles, from just after a T == 455, advances LY
   * by one modulo 154.
   */
  lemma LineAdvancesLy(c: Control, t: int, n: nat)
    requires t == 455 && n == 456
    requires InLockstep(c, t)
    ensures Run(c, t, n).ly == (c.ly + 1) % 154
  {
    RunWithinLine(c, t, n - 1);
    var last := Run(c, t, n - 1);
    assert TickAfter(t, n) == 455;
    assert Run(c, t, n) == NextControl(last, 455);
  }

  /** A whole line ends in the state it started from: in lockstep after T == 455. */
  lemma LineKeepsLockstep(c: Control, t: int, n: nat)
    requires t == 455 && n == 456
    requires InLockstep(c, t)
    ensures InLockstep(Run(c, t, n), t)
  {
    RunInLockstep(c, t, n);
    assert TickAfter(t, n) == t;
  }
}
