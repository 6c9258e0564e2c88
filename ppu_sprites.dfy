/**
 * What `fetchSpriteData` (src/gameboy/ppu/ppu.cpp) computes for one
 * scanline, as pure functions: which OAM entries are on the line, the
 * order the bubble sort leaves them in, and how the first ten of them are
 * painted over the line.
 *
 * OAM holds 40 entries of 4 bytes: Y + 16, X + 8, tile index, attributes
 * (bit 4 palette OBP1, bit 5 horizontal flip, bit 6 vertical flip, bit 7
 * behind the background).
 */
module PpuSprites {
  import Memory
  import opened PpuRender

  const OamEntries: int := 40
  const SpritesPerLineLimit: int := 10

  predicate IsOam(oam: seq<bv8>) { |oam| == Memory.OamSize }

  /** What the painting reads besides the line itself. */
  datatype View = View(vram: seq<bv8>, oam: seq<bv8>, regs: Registers, ly: int)

  predicate ValidView(v: View)
  {
    IsVram(v.vram) && IsOam(v.oam) && 0 <= v.ly < ScreenHeight
  }

  /** `spriteHeight`: 16 in 8x16 mode (LCDC bit 2), else 8. */
  function SpriteHeight(lcdc: bv8): (h: int)
    ensures h == 8 || h == 16
    ensures h == 16 <==> lcdc & 0x04 != 0
  {
    if lcdc & 0x04 != 0 then 16 else 8
  }

  /** `uint8_t yPos = fetch8(OAM_OFFSET + i * 4) - 16`: wraps modulo 256. */
  function YPos(oam: seq<bv8>, i: int): (y: int)
    requires IsOam(oam) && 0 <= i < OamEntries
    ensures 0 <= y < 256
  {
    (oam[4 * i] as int - 16) % 256
  }

  /** `uint8_t xPos = fetch8(OAM_OFFSET + i * 4 + 1) - 8`: wraps modulo 256. */
  function XPos(oam: seq<bv8>, i: int): (x: int)
    requires IsOam(oam) && 0 <= i < OamEntries
    ensures 0 <= x < 256
  {
    (oam[4 * i + 1] as int - 8) % 256
  }

  /**
   * Entry `i` passes the selection test of the first loop: exactly when
   * its top row Y - 16, taken modulo 256, is at most 144 and `ly` is one
   * of its `height` rows.
   */
  predicate OnLine(oam: seq<bv8>, lcdc: bv8, ly: int, i: int): (b: bool)
    requires IsOam(oam) && 0 <= i < OamEntries
    ensures b <==> var top := (oam[4 * i] as int - 16) % 256;
                   top <= 144 && top <= ly < top + SpriteHeight(lcdc)
  {
    var yPos := YPos(oam, i);
    !(yPos > 144 || ly < yPos || ly >= yPos + SpriteHeight(lcdc))
  }

  /** `SpriteInfo`: the OAM entry and its (wrapped) X position. */
  datatype SpriteInfo = SpriteInfo(index: int, x: int)

  /** Every entry of `s` is an OAM entry on the line, with its own X position. */
  predicate AllOnLine(oam: seq<bv8>, lcdc: bv8, ly: int, s: seq<SpriteInfo>)
    requires IsOam(oam)
  {
    forall k :: 0 <= k < |s| ==>
      0 <= s[k].index < OamEntries && OnLine(oam, lcdc, ly, s[k].index) && s[k].x == XPos(oam, s[k].index)
  }

  /** The first `n` OAM entries' selection, in OAM order: `visibleSprites` after the first loop. */
  function Visible(oam: seq<bv8>, lcdc: bv8, ly: int, n: int): (s: seq<SpriteInfo>)
    requires IsOam(oam) && 0 <= n <= OamEntries
    ensures |s| <= n
    ensures forall k :: 0 <= k < |s| ==> 0 <= s[k].index < n
  {
    if n == 0 then []
    else
      var before := Visible(oam, lcdc, ly, n - 1);
      if OnLine(oam, lcdc, ly, n - 1) then before + [SpriteInfo(n - 1, XPos(oam, n - 1))] else before
  }

  /** Every selected entry is on the line and carries its own X position. */
  lemma {:induction false} VisibleOnLine(oam: seq<bv8>, lcdc: bv8, ly: int, n: int)
    requires IsOam(oam) && 0 <= n <= OamEntries
    ensures AllOnLine(oam, lcdc, ly, Visible(oam, lcdc, ly, n))
  {
    if n > 0 {
      VisibleOnLine(oam, lcdc, ly, n - 1);
      var before := Visible(oam, lcdc, ly, n - 1);
      var s := Visible(oam, lcdc, ly, n);
      if OnLine(oam, lcdc, ly, n - 1) {
        assert s == before + [SpriteInfo(n - 1, XPos(oam, n - 1))];
        forall k | 0 <= k < |s|
          ensures 0 <= s[k].index < OamEntries && OnLine(oam, lcdc, ly, s[k].index) && s[k].x == XPos(oam, s[k].index)
        {
          if k < |before| {
            assert s[k] == before[k];
          }
        }
      } else {
        assert s == before;
      }
    }
  }

  predicate IncreasingIndices(s: seq<SpriteInfo>)
  {
    forall k, m :: 0 <= k < m < |s| ==> s[k].index < s[m].index
  }

  /** The selection keeps OAM order: indices strictly increase. */
  lemma {:induction false} VisibleInOamOrder(oam: seq<bv8>, lcdc: bv8, ly: int, n: int)
    requires IsOam(oam) && 0 <= n <= OamEntries
    ensures IncreasingIndices(Visible(oam, lcdc, ly, n))
  {
    if n > 0 {
      VisibleInOamOrder(oam, lcdc, ly, n - 1);
      var before := Visible(oam, lcdc, ly, n - 1);
      var s := Visible(oam, lcdc, ly, n);
      if OnLine(oam, lcdc, ly, n - 1) {
        assert s == before + [SpriteInfo(n - 1, XPos(oam, n - 1))];
        IndexAppended(before, SpriteInfo(n - 1, XPos(oam, n - 1)), n - 1);
      } else {
        assert s == before;
      }
    }
  }

  /** Appending an entry whose index exceeds all others keeps indices increasing. */
  lemma IndexAppended(s: seq<SpriteInfo>, e: SpriteInfo, bound: int)
    requires IncreasingIndices(s)
    requires forall k :: 0 <= k < |s| ==> s[k].index < bound
    requires e.index == bound
    ensures IncreasingIndices(s + [e])
  {
    var r := s + [e];
    forall k, m | 0 <= k < m < |r|
      ensures r[k].index < r[m].index
    {
      assert r[k] == s[k];
      if m < |s| {
        assert r[m] == s[m];
      }
    }
  }

  /** Every one of the first `n` entries that is on the line is selected. */
  lemma {:induction false} VisibleComplete(oam: seq<bv8>, lcdc: bv8, ly: int, n: int, i: int)
    requires IsOam(oam) && 0 <= i < n <= OamEntries
    requires OnLine(oam, lcdc, ly, i)
    ensures exists k :: 0 <= k < |Visible(oam, lcdc, ly, n)| && Visible(oam, lcdc, ly, n)[k].index == i
  {
    var before := Visible(oam, lcdc, ly, n - 1);
    var s := Visible(oam, lcdc, ly, n);
    if i == n - 1 {
      assert s[|s| - 1].index == i;
    } else {
      VisibleComplete(oam, lcdc, ly, n - 1, i);
      var k :| 0 <= k < |before| && before[k].index == i;
      assert s[k] == before[k];
    }
  }

  // ---------------------------------------------------------------------
  // Order
  // ---------------------------------------------------------------------

  /** Lower X first, OAM order on equal X. */
  predicate Less(a: SpriteInfo, b: SpriteInfo)
  {
    a.x < b.x || (a.x == b.x && a.index < b.index)
  }

  predicate StrictlySorted(s: seq<SpriteInfo>)
  {
    forall i, j :: 0 <= i < j < |s| ==> Less(s[i], s[j])
  }

  /** Non-decreasing X: what the bubble sort's comparison establishes. */
  predicate SortedByX(s: seq<SpriteInfo>)
  {
    forall i, j :: 0 <= i < j < |s| ==> s[i].x <= s[j].x
  }

  /** Entries of equal X keep their OAM order: the bubble sort is stable. */
  predicate TiesInOamOrder(s: seq<SpriteInfo>)
  {
    forall i, j :: 0 <= i < j < |s| && s[i].x == s[j].x ==> s[i].index < s[j].index
  }

  predicate Distinct(s: seq<SpriteInfo>)
  {
    forall i, j :: 0 <= i < j < |s| ==> s[i] != s[j]
  }

  /** Sorted by X and stable, for entries with distinct OAM indices, is sorted by (X, index). */
  lemma StableSortIsStrict(s: seq<SpriteInfo>)
    ensures SortedByX(s) && TiesInOamOrder(s) <==> StrictlySorted(s)
  {
  }

  /** A sequence collected in OAM order is stable-sorted once sorted by X alone. */
  lemma VisibleIsDistinct(oam: seq<bv8>, lcdc: bv8, ly: int, n: int)
    requires IsOam(oam) && 0 <= n <= OamEntries
    ensures Distinct(Visible(oam, lcdc, ly, n))
    ensures TiesInOamOrder(Visible(oam, lcdc, ly, n))
  {
    VisibleInOamOrder(oam, lcdc, ly, n);
  }

  /** Insertion of `e` before the first entry that follows it. */
  function Insert(s: seq<SpriteInfo>, e: SpriteInfo): (r: seq<SpriteInfo>)
    ensures |r| == |s| + 1
    ensures multiset(r) == multiset(s) + multiset{e}
  {
    if s == [] then [e]
    else if Less(e, s[0]) then [e] + s
    else
      assert s == [s[0]] + s[1..];
      [s[0]] + Insert(s[1..], e)
  }

  lemma {:induction false} InsertSorted(s: seq<SpriteInfo>, e: SpriteInfo)
    requires StrictlySorted(s) && e !in multiset(s)
    ensures StrictlySorted(Insert(s, e))
    decreases |s|
  {
    if s != [] && !Less(e, s[0]) {
      assert s == [s[0]] + s[1..];
      assert e !in multiset(s[1..]);
      InsertSorted(s[1..], e);
      var r := Insert(s, e);
      assert r == [s[0]] + Insert(s[1..], e);
      forall j | 0 < j < |r|
        ensures Less(r[0], r[j])
      {
        var t := Insert(s[1..], e);
        assert r[j] == t[j - 1];
        assert r[j] in multiset(t);
        assert r[j] in multiset(s[1..]) || r[j] == e;
        if r[j] != e {
          var m :| 0 <= m < |s[1..]| && s[1..][m] == r[j];
          assert s[m + 1] == r[j];
        }
      }
    }
  }

  /** The reference order: an insertion sort by (X, index). */
  function SortByX(s: seq<SpriteInfo>): (r: seq<SpriteInfo>)
    ensures |r| == |s|
    ensures multiset(r) == multiset(s)
  {
    if s == [] then []
    else
      assert s == [s[0]] + s[1..];
      Insert(SortByX(s[1..]), s[0])
  }

  lemma {:induction false} SortByXSorted(s: seq<SpriteInfo>)
    requires Distinct(s)
    ensures StrictlySorted(SortByX(s))
    decreases |s|
  {
    if s != [] {
      assert s == [s[0]] + s[1..];
      SortByXSorted(s[1..]);
      assert s[0] !in s[1..];
      assert s[0] !in multiset(SortByX(s[1..]));
      InsertSorted(SortByX(s[1..]), s[0]);
    }
  }

  /** Two strictly sorted arrangements of the same entries are the same sequence. */
  lemma {:induction false} StrictlySortedUnique(s: seq<SpriteInfo>, t: seq<SpriteInfo>)
    requires StrictlySorted(s) && StrictlySorted(t) && multiset(s) == multiset(t)
    ensures s == t
    decreases |s|
  {
    assert |s| == |multiset(s)| == |multiset(t)| == |t|;
    if s != [] {
      SmallestFirst(s, t);
      var s', t' := s[1..], t[1..];
      assert s == [s[0]] + s' && t == [t[0]] + t';
      assert multiset(s') == multiset(t') by {
        calc {
          multiset(s');
          multiset(s) - multiset{s[0]};
          multiset(t) - multiset{t[0]};
          multiset(t');
        }
      }
      TailStrictlySorted(s);
      TailStrictlySorted(t);
      StrictlySortedUnique(s', t');
    }
  }

  /** Both arrangements start with the least entry. */
  lemma SmallestFirst(s: seq<SpriteInfo>, t: seq<SpriteInfo>)
    requires StrictlySorted(s) && StrictlySorted(t) && multiset(s) == multiset(t) && s != [] && t != []
    ensures s[0] == t[0]
  {
    assert s[0] in multiset(t) && t[0] in multiset(s);
    var m :| 0 <= m < |t| && t[m] == s[0];
    var k :| 0 <= k < |s| && s[k] == t[0];
    assert m == 0 || k == 0;
  }

  lemma TailStrictlySorted(s: seq<SpriteInfo>)
    requires StrictlySorted(s) && s != []
    ensures StrictlySorted(s[1..])
  {
    forall i, j | 0 <= i < j < |s| - 1
      ensures Less(s[1..][i], s[1..][j])
    {
      assert s[1..][i] == s[i + 1] && s[1..][j] == s[j + 1];
    }
  }

  /**
   * Whatever sorts the entries on the line by X and keeps OAM order on
   * ties produces exactly the reference order.
   */
  lemma StableSortIsSortByX(oam: seq<bv8>, lcdc: bv8, ly: int, sorted: seq<SpriteInfo>)
    requires IsOam(oam)
    requires multiset(sorted) == multiset(Visible(oam, lcdc, ly, OamEntries))
    requires SortedByX(sorted) && TiesInOamOrder(sorted)
    ensures sorted == SortByX(Visible(oam, lcdc, ly, OamEntries))
  {
    var visible := Visible(oam, lcdc, ly, OamEntries);
    VisibleIsDistinct(oam, lcdc, ly, OamEntries);
    VisibleOnLine(oam, lcdc, ly, OamEntries);
    SortByXSorted(visible);
    StableSortIsStrict(sorted);
    StrictlySortedUnique(sorted, SortByX(visible));
  }

  /** A permutation of entries on the line holds entries on the line. */
  lemma PermutationOnLine(oam: seq<bv8>, lcdc: bv8, ly: int, s: seq<SpriteInfo>, t: seq<SpriteInfo>)
    requires IsOam(oam) && AllOnLine(oam, lcdc, ly, s) && multiset(s) == multiset(t)
    ensures AllOnLine(oam, lcdc, ly, t)
  {
    forall k | 0 <= k < |t|
      ensures 0 <= t[k].index < OamEntries && OnLine(oam, lcdc, ly, t[k].index) && t[k].x == XPos(oam, t[k].index)
    {
      assert t[k] in multiset(s);
      var m :| 0 <= m < |s| && s[m] == t[k];
    }
  }

  // ---------------------------------------------------------------------
  // Painting
  // ---------------------------------------------------------------------

  /**
   * The tile data row a sprite contributes on the line: its row `ly - yPos`,
   * flipped when attribute bit 6 is set, in the upper or lower tile of an
   * 8x16 pair. The tile index and the attributes come from OAM entry
   * `slot`, the sprite's position in the sorted order, as the C++ reads them.
   */
  function SpriteRowAddress(oam: seq<bv8>, lcdc: bv8, ly: int, spriteIndex: int, slot: int): (a: int)
    requires IsOam(oam) && 0 <= spriteIndex < OamEntries && 0 <= slot < OamEntries
    requires OnLine(oam, lcdc, ly, spriteIndex)
    ensures 0x8000 <= a && a + 1 < 0x9000 && a % 2 == 0
  {
    var tileY := SpriteTileY(oam, lcdc, ly, spriteIndex, slot);
    var tileIndex := oam[4 * slot + 2] as int;
    if lcdc & 0x04 != 0 then
      // `tileIndex &= 0xFE`, then the lower tile of the pair for rows 8 to 15
      var even := tileIndex - tileIndex % 2;
      if tileY >= 8 then 0x8000 + (even + 1) * 16 + (tileY - 8) * 2
      else 0x8000 + even * 16 + tileY * 2
    else
      0x8000 + tileIndex * 16 + tileY * 2
  }

  /** The sprite's row on the line, `ly - yPos`, mirrored when attribute bit 6 is set. */
  function SpriteTileY(oam: seq<bv8>, lcdc: bv8, ly: int, spriteIndex: int, slot: int): (y: int)
    requires IsOam(oam) && 0 <= spriteIndex < OamEntries && 0 <= slot < OamEntries
    requires OnLine(oam, lcdc, ly, spriteIndex)
    ensures 0 <= y < SpriteHeight(lcdc)
    ensures oam[4 * slot + 3] & 0x40 == 0 ==> y == ly - YPos(oam, spriteIndex)
    ensures oam[4 * slot + 3] & 0x40 != 0 ==> y == SpriteHeight(lcdc) - 1 - (ly - YPos(oam, spriteIndex))
  {
    var tileY := ly - YPos(oam, spriteIndex);
    if oam[4 * slot + 3] & 0x40 != 0 then SpriteHeight(lcdc) - 1 - tileY else tileY
  }

  /** Column `px` lies in the 8 columns of sprite `spriteIndex`. */
  predicate Covers(oam: seq<bv8>, spriteIndex: int, px: int)
    requires IsOam(oam) && 0 <= spriteIndex < OamEntries
  {
    XPos(oam, spriteIndex) <= px < XPos(oam, spriteIndex) + 8
  }

  /** The colour number of the sprite at column `px`, after the horizontal flip of attribute bit 5. */
  function SpriteColorIndex(v: View, spriteIndex: int, slot: int, px: int): (c: bv8)
    requires ValidView(v) && 0 <= spriteIndex < OamEntries && 0 <= slot < OamEntries
    requires OnLine(v.oam, v.regs.lcdc, v.ly, spriteIndex) && Covers(v.oam, spriteIndex, px)
    ensures c < 4
  {
    var address := SpriteRowAddress(v.oam, v.regs.lcdc, v.ly, spriteIndex, slot);
    var x := px - XPos(v.oam, spriteIndex);
    var bit := if v.oam[4 * slot + 3] & 0x20 != 0 then x else 7 - x;
    ColorIndex(VramAt(v.vram, address), VramAt(v.vram, address + 1), bit as bv8)
  }

  /**
   * The sprite writes column `px`: the column is on screen and covered,
   * the colour number is not 0 (transparent), and a sprite behind the
   * background (attribute bit 7) only shows where `bgBuffer` is 0.
   */
  predicate Draws(v: View, bgPixel: bv8, spriteIndex: int, slot: int, px: int)
    requires ValidView(v) && 0 <= spriteIndex < OamEntries && 0 <= slot < OamEntries
    requires OnLine(v.oam, v.regs.lcdc, v.ly, spriteIndex)
  {
    0 <= px < ScreenWidth && Covers(v.oam, spriteIndex, px) &&
    SpriteColorIndex(v, spriteIndex, slot, px) != 0 &&
    (v.oam[4 * slot + 3] & 0x80 != 0 ==> bgPixel == 0)
  }

  /** The shade the sprite writes: its colour through OBP1 (attribute bit 4) or OBP0. */
  function SpriteShade(v: View, spriteIndex: int, slot: int, px: int): (s: bv8)
    requires ValidView(v) && 0 <= spriteIndex < OamEntries && 0 <= slot < OamEntries
    requires OnLine(v.oam, v.regs.lcdc, v.ly, spriteIndex) && Covers(v.oam, spriteIndex, px)
    ensures s < 4
  {
    var palette := if v.oam[4 * slot + 3] & 0x10 != 0 then v.regs.obp1 else v.regs.obp0;
    Shade(palette, SpriteColorIndex(v, spriteIndex, slot, px))
  }

  /** `row` after the inner loop of the last loop for one sprite. */
  function PaintSprite(row: seq<bv8>, bgRow: seq<bv8>, v: View, spriteIndex: int, slot: int): (line: seq<bv8>)
    requires IsLine(row) && IsLine(bgRow) && ValidView(v)
    requires 0 <= spriteIndex < OamEntries && 0 <= slot < OamEntries
    requires OnLine(v.oam, v.regs.lcdc, v.ly, spriteIndex)
    ensures IsLine(line)
    ensures forall px :: 0 <= px < ScreenWidth && line[px] != row[px] ==>
              Covers(v.oam, spriteIndex, px) && SpriteColorIndex(v, spriteIndex, slot, px) != 0 &&
              (v.oam[4 * slot + 3] & 0x80 != 0 ==> bgRow[px] == 0) && line[px] < 4
  {
    seq(ScreenWidth, px requires 0 <= px < ScreenWidth =>
          if Draws(v, bgRow[px], spriteIndex, slot, px) then SpriteShade(v, spriteIndex, slot, px) else row[px])
  }

  /** The sprites `sorted[k - 1]`, ..., `sorted[0]` painted in that order, each with its position as OAM slot. */
  function PaintFrom(row: seq<bv8>, bgRow: seq<bv8>, v: View, sorted: seq<SpriteInfo>, k: int): (line: seq<bv8>)
    requires IsLine(row) && IsLine(bgRow) && ValidView(v)
    requires AllOnLine(v.oam, v.regs.lcdc, v.ly, sorted) && k <= |sorted| && k <= OamEntries
    ensures IsLine(line)
    ensures forall px :: 0 <= px < ScreenWidth && line[px] != row[px] ==> line[px] < 4
    decreases k
  {
    if k <= 0 then row
    else PaintFrom(PaintSprite(row, bgRow, v, sorted[k - 1].index, k - 1), bgRow, v, sorted, k - 1)
  }

  /** The first of the positions `j`, ..., `k - 1` whose sprite writes column `px`, or `k` if none. */
  function FirstDrawing(bgRow: seq<bv8>, v: View, sorted: seq<SpriteInfo>, px: int, j: int, k: int): (w: int)
    requires IsLine(bgRow) && ValidView(v) && 0 <= px < ScreenWidth
    requires AllOnLine(v.oam, v.regs.lcdc, v.ly, sorted) && 0 <= j <= k <= |sorted| && k <= OamEntries
    ensures j <= w <= k
    ensures w < k ==> Draws(v, bgRow[px], sorted[w].index, w, px)
    ensures forall i :: j <= i < w ==> !Draws(v, bgRow[px], sorted[i].index, i, px)
    decreases k - j
  {
    if j == k then k
    else if Draws(v, bgRow[px], sorted[j].index, j, px) then j
    else FirstDrawing(bgRow, v, sorted, px, j + 1, k)
  }

  /** Every search that finds a sprite among the first `k - 1` positions finds it among the first `k`. */
  lemma {:induction false} FirstDrawingExtends(bgRow: seq<bv8>, v: View, sorted: seq<SpriteInfo>, px: int, j: int, k: int)
    requires IsLine(bgRow) && ValidView(v) && 0 <= px < ScreenWidth
    requires AllOnLine(v.oam, v.regs.lcdc, v.ly, sorted) && 0 <= j < k <= |sorted| && k <= OamEntries
    ensures var w := FirstDrawing(bgRow, v, sorted, px, j, k - 1);
            FirstDrawing(bgRow, v, sorted, px, j, k) ==
              if w < k - 1 then w
              else if Draws(v, bgRow[px], sorted[k - 1].index, k - 1, px) then k - 1
              else k
    decreases k - j
  {
    if j < k - 1 && !Draws(v, bgRow[px], sorted[j].index, j, px) {
      FirstDrawingExtends(bgRow, v, sorted, px, j + 1, k);
    }
  }

  /**
   * The sprite layer at column `px` is decided by the first sorted sprite
   * (lowest X, then lowest OAM index) among the `k` painted that writes it;
   * where none does, the column keeps its value.
   */
  lemma {:induction false} PaintFromFirstWins(row: seq<bv8>, bgRow: seq<bv8>, v: View, sorted: seq<SpriteInfo>, k: int, px: int)
    requires IsLine(row) && IsLine(bgRow) && ValidView(v) && 0 <= px < ScreenWidth
    requires AllOnLine(v.oam, v.regs.lcdc, v.ly, sorted) && 0 <= k <= |sorted| && k <= OamEntries
    ensures var w := FirstDrawing(bgRow, v, sorted, px, 0, k);
            PaintFrom(row, bgRow, v, sorted, k)[px] ==
              if w < k then SpriteShade(v, sorted[w].index, w, px) else row[px]
    decreases k
  {
    if k > 0 {
      var painted := PaintSprite(row, bgRow, v, sorted[k - 1].index, k - 1);
      assert painted[px] == if Draws(v, bgRow[px], sorted[k - 1].index, k - 1, px)
                            then SpriteShade(v, sorted[k - 1].index, k - 1, px) else row[px];
      PaintFromFirstWins(painted, bgRow, v, sorted, k - 1, px);
      FirstDrawingExtends(bgRow, v, sorted, px, 0, k);
    }
  }

  /** A column that painting changes is written by one of the painted sprites. */
  lemma PaintFromChanges(row: seq<bv8>, bgRow: seq<bv8>, v: View, sorted: seq<SpriteInfo>, k: int, px: int)
    requires IsLine(row) && IsLine(bgRow) && ValidView(v) && 0 <= px < ScreenWidth
    requires AllOnLine(v.oam, v.regs.lcdc, v.ly, sorted) && 0 <= k <= |sorted| && k <= OamEntries
    ensures PaintFrom(row, bgRow, v, sorted, k)[px] != row[px] ==>
              exists w :: 0 <= w < k && Draws(v, bgRow[px], sorted[w].index, w, px)
  {
    PaintFromFirstWins(row, bgRow, v, sorted, k, px);
    var w := FirstDrawing(bgRow, v, sorted, px, 0, k);
    if w < k {
      assert Draws(v, bgRow[px], sorted[w].index, w, px);
    }
  }

  /**
   * `row` after `fetchSpriteData`: the entries on the line, sorted by X,
   * the first ten painted from the tenth (or last) down to the first.
   */
  function SpriteLine(row: seq<bv8>, bgRow: seq<bv8>, v: View): (line: seq<bv8>)
    requires IsLine(row) && IsLine(bgRow) && ValidView(v)
    ensures IsLine(line)
    ensures forall px :: 0 <= px < ScreenWidth && line[px] != row[px] ==> line[px] < 4
  {
    var visible := Visible(v.oam, v.regs.lcdc, v.ly, OamEntries);
    var sorted := SortByX(visible);
    VisibleOnLine(v.oam, v.regs.lcdc, v.ly, OamEntries);
    PermutationOnLine(v.oam, v.regs.lcdc, v.ly, visible, sorted);
    PaintFrom(row, bgRow, v, sorted, PaintedCount(|sorted|))
  }

  /** `std::min(visibleSprites.size(), 10)`. */
  function PaintedCount(n: int): (k: int)
    requires 0 <= n
    ensures k <= SpritesPerLineLimit && k <= n && (k == n || k == SpritesPerLineLimit)
  {
    if n > SpritesPerLineLimit then SpritesPerLineLimit else n
  }

  /**
   * A column the sprite layer changes is written by one of the first ten
   * sprites in X order, which is on the line and not transparent there.
   */
  lemma SpriteLineChanges(row: seq<bv8>, bgRow: seq<bv8>, v: View, px: int)
    requires IsLine(row) && IsLine(bgRow) && ValidView(v) && 0 <= px < ScreenWidth
    ensures var sorted := SortByX(Visible(v.oam, v.regs.lcdc, v.ly, OamEntries));
            SpriteLine(row, bgRow, v)[px] != row[px] ==>
              AllOnLine(v.oam, v.regs.lcdc, v.ly, sorted) &&
              exists w :: 0 <= w < |sorted| && w < SpritesPerLineLimit &&
                Draws(v, bgRow[px], sorted[w].index, w, px)
  {
    var visible := Visible(v.oam, v.regs.lcdc, v.ly, OamEntries);
    var sorted := SortByX(visible);
    VisibleOnLine(v.oam, v.regs.lcdc, v.ly, OamEntries);
    PermutationOnLine(v.oam, v.regs.lcdc, v.ly, visible, sorted);
    PaintFromChanges(row, bgRow, v, sorted, PaintedCount(|sorted|), px);
  }
}
