/**
 * The memory of src/gameboy/memory/memory.cpp: nine fixed-size byte arrays
 * and the address decoder `fetch8`, which maps an `int` address to one cell
 * of one array by an if-chain over ascending offsets.
 *
 * `fetch8` hands out a mutable reference; here that is split into the pure
 * decoder `Decode`, the read `Memory.Fetch8` and the write `Memory.Write8`.
 * The decoder does not check the index against the array size, so some
 * addresses decode past the end of their array (undefined behaviour in C++);
 * `Overruns` names them and reads and writes exclude them.
 */
module Memory {
  import opened Wrappers

  // Sizes and offsets of memory.hpp.
  const BootRomSize: int := 256
  const RomFixedSize: int := 16384
  const RomBankedSize: int := 16384
  const VramSize: int := 8192
  const ExtRamSize: int := 8192
  const WramFixedSize: int := 4096
  const WramBankedSize: int := 4096
  const OamSize: int := 160
  const HramSize: int := 128

  const BootRomOffset: int := 0x0000
  const RomFixedOffset: int := 0x0000
  const RomBankedOffset: int := 0x4000
  const VramOffset: int := 0x8000
  const ExtRamOffset: int := 0xA000
  const WramFixedOffset: int := 0xC000
  const WramBankedOffset: int := 0xD000
  const OamOffset: int := 0xFE00
  const HramOffset: int := 0xFF80

  /** The 128-byte I/O register block 0xFF00-0xFF7F, which memory.hpp does not declare. */
  const IoOffset: int := 0xFF00
  const IoSize: int := 128

  datatype Region = BootRom | RomFixed | RomBanked | Vram | ExtRam | WramFixed | WramBanked | Oam | Hram

  function Size(r: Region): int {
    match r
    case BootRom => BootRomSize
    case RomFixed => RomFixedSize
    case RomBanked => RomBankedSize
    case Vram => VramSize
    case ExtRam => ExtRamSize
    case WramFixed => WramFixedSize
    case WramBanked => WramBankedSize
    case Oam => OamSize
    case Hram => HramSize
  }

  function Offset(r: Region): int {
    match r
    case BootRom => BootRomOffset
    case RomFixed => RomFixedOffset
    case RomBanked => RomBankedOffset
    case Vram => VramOffset
    case ExtRam => ExtRamOffset
    case WramFixed => WramFixedOffset
    case WramBanked => WramBankedOffset
    case Oam => OamOffset
    case Hram => HramOffset
  }

  /**
   * The address range that `fetch8` tests for region `r`: from its offset
   * up to the next region's offset (no upper bound for HRAM).
   */
  predicate InRange(r: Region, address: int) {
    match r
    case BootRom => BootRomOffset <= address < RomFixedOffset
    case RomFixed => RomFixedOffset <= address < RomBankedOffset
    case RomBanked => RomBankedOffset <= address < VramOffset
    case Vram => VramOffset <= address < ExtRamOffset
    case ExtRam => ExtRamOffset <= address < WramFixedOffset
    case WramFixed => WramFixedOffset <= address < WramBankedOffset
    case WramBanked => WramBankedOffset <= address < OamOffset
    case Oam => OamOffset <= address < HramOffset
    case Hram => HramOffset <= address
  }

  /** One cell of one backing array. */
  datatype Cell = Cell(region: Region, index: int)

  /**
   * The if-chain of `Memory::fetch8`. `None` is the error path: the address
   * matches no test, the error is logged and the process exits.
   */
  function Decode(address: int): (c: Option<Cell>)
    ensures c.None? <==> address < 0
    ensures c.Some? ==> c.value.index == address - Offset(c.value.region) && InRange(c.value.region, address)
  {
    if BootRomOffset <= address < RomFixedOffset then Some(Cell(BootRom, address - BootRomOffset))
    else if RomFixedOffset <= address < RomBankedOffset then Some(Cell(RomFixed, address - RomFixedOffset))
    else if RomBankedOffset <= address < VramOffset then Some(Cell(RomBanked, address - RomBankedOffset))
    else if VramOffset <= address < ExtRamOffset then Some(Cell(Vram, address - VramOffset))
    else if ExtRamOffset <= address < WramFixedOffset then Some(Cell(ExtRam, address - ExtRamOffset))
    else if WramFixedOffset <= address < WramBankedOffset then Some(Cell(WramFixed, address - WramFixedOffset))
    else if WramBankedOffset <= address < OamOffset then Some(Cell(WramBanked, address - WramBankedOffset))
    else if OamOffset <= address < HramOffset then Some(Cell(Oam, address - OamOffset))
    else if address >= HramOffset then Some(Cell(Hram, address - HramOffset))
    else None
  }

  /** The address decodes to a cell inside its array. */
  predicate Fits(address: int)
  {
    Decode(address).Some? && Decode(address).value.index < Size(Decode(address).value.region)
  }

  /** The address decodes to an index past the end of its array. */
  predicate Overruns(address: int)
  {
    Decode(address).Some? && Decode(address).value.index >= Size(Decode(address).value.region)
  }

  /** The regions' ranges are disjoint: an address lies in exactly one of them, the one it decodes to. */
  lemma DecodeIsTheUniqueRange(address: int, r: Region)
    requires address >= 0
    ensures InRange(r, address) <==> Decode(address).value.region == r
  {
  }

  /** Every decoded address is within its array exactly on these ranges. */
  lemma FitsExactly(address: int)
    ensures Fits(address) <==> 0 <= address < 0xE000 || 0xFE00 <= address < 0xFEA0 || 0xFF80 <= address <= 0xFFFF
  {
  }

  /**
   * Echo RAM 0xE000-0xFDFF (through the banked WRAM array), 0xFEA0-0xFF7F
   * (through the OAM array, including every I/O register) and everything
   * above 0xFFFF decode past the end of their array.
   */
  lemma OverrunsExactly(address: int)
    ensures Overruns(address) <==> 0xE000 <= address < 0xFE00 || 0xFEA0 <= address < 0xFF80 || address > 0xFFFF
    ensures Overruns(address) || Fits(address) || address < 0
  {
  }

  /** `BOOTROM_OFFSET == ROM_FIXED_OFFSET`: the boot-ROM test never succeeds, 0x0000-0x3FFF is fixed ROM. */
  lemma BootRomUnreachable(address: int)
    ensures Decode(address).Some? ==> Decode(address).value.region != BootRom
    ensures 0 <= address < 0x4000 ==> Decode(address) == Some(Cell(RomFixed, address))
  {
  }

  /** Distinct addresses that fit decode to distinct cells: there is no mirroring. */
  lemma DecodeInjective(a: int, b: int)
    requires Fits(a) && Fits(b) && a != b
    ensures Decode(a) != Decode(b)
  {
  }

  /** The LCD registers the PPU uses (STAT 0xFF41, for one) decode into the OAM array, past its end. */
  lemma IoRegistersOverrunOam(address: int)
    requires IoOffset <= address < IoOffset + IoSize
    ensures Decode(address) == Some(Cell(Oam, address - OamOffset))
    ensures Decode(address).value.index >= OamSize && Overruns(address)
  {
  }

  class Memory {
    const bootrom: array<bv8>
    const romFixed: array<bv8>
    const romBanked: array<bv8>
    const vram: array<bv8>
    const extram: array<bv8>
    const wramFixed: array<bv8>
    const wramBanked: array<bv8>
    const oam: array<bv8>
    const hram: array<bv8>
    /** Storage for 0xFF00-0xFF7F, which the decoder cannot reach; see `Io`. */
    const io: array<bv8>

    ghost predicate Valid()
    {
      bootrom.Length == BootRomSize && romFixed.Length == RomFixedSize &&
      romBanked.Length == RomBankedSize && vram.Length == VramSize &&
      extram.Length == ExtRamSize && wramFixed.Length == WramFixedSize &&
      wramBanked.Length == WramBankedSize && oam.Length == OamSize &&
      hram.Length == HramSize && io.Length == IoSize &&
      // arrays of equal size are distinct objects (the others differ in length)
      romFixed != romBanked && vram != extram && wramFixed != wramBanked && hram != io
    }

    /** The backing array of a region. */
    function ArrayOf(r: Region): (a: array<bv8>)
      requires Valid()
      ensures a.Length == Size(r)
    {
      match r
      case BootRom => bootrom
      case RomFixed => romFixed
      case RomBanked => romBanked
      case Vram => vram
      case ExtRam => extram
      case WramFixed => wramFixed
      case WramBanked => wramBanked
      case Oam => oam
      case Hram => hram
    }

    /** `Memory::Memory()`: every array is value-initialised to zero. */
    constructor ()
      ensures Valid()
      ensures fresh(bootrom) && fresh(romFixed) && fresh(romBanked) && fresh(vram) && fresh(extram)
      ensures fresh(wramFixed) && fresh(wramBanked) && fresh(oam) && fresh(hram) && fresh(io)
      ensures forall a :: Fits(a) ==> Fetch8(a) == Some(0)
      ensures forall k :: 0 <= k < BootRomSize ==> bootrom[k] == 0
      ensures forall a :: IoOffset <= a < IoOffset + IoSize ==> Io(a) == 0
    {
      bootrom := new bv8[BootRomSize](_ => 0);
      romFixed := new bv8[RomFixedSize](_ => 0);
      romBanked := new bv8[RomBankedSize](_ => 0);
      vram := new bv8[VramSize](_ => 0);
      extram := new bv8[ExtRamSize](_ => 0);
      wramFixed := new bv8[WramFixedSize](_ => 0);
      wramBanked := new bv8[WramBankedSize](_ => 0);
      oam := new bv8[OamSize](_ => 0);
      hram := new bv8[HramSize](_ => 0);
      io := new bv8[IoSize](_ => 0);
    }

    /**
     * Reading through the reference `fetch8` returns. `None` is the
     * error-and-exit path of a negative address.
     */
    function Fetch8(address: int): (r: Option<bv8>)
      reads bootrom, romFixed, romBanked, vram, extram, wramFixed, wramBanked, oam, hram
      requires Valid() && !Overruns(address)
      ensures r.None? <==> address < 0
    {
      match Decode(address)
      case None => None
      case Some(c) => Some(ArrayOf(c.region)[c.index])
    }

    /**
     * Writing through the reference `fetch8` returns: afterwards the address
     * reads back the byte and every other address reads as before. `ok` is
     * false on the error-and-exit path, which changes nothing.
     */
    method Write8(address: int, v: bv8) returns (ok: bool)
      requires Valid() && !Overruns(address)
      modifies bootrom, romFixed, romBanked, vram, extram, wramFixed, wramBanked, oam, hram
      ensures ok <==> address >= 0
      ensures ok ==> Fetch8(address) == Some(v)
      ensures forall a :: Fits(a) && a != address ==> Fetch8(a) == old(Fetch8(a))
      ensures !ok ==> forall a :: Fits(a) ==> Fetch8(a) == old(Fetch8(a))
      ensures forall k :: 0 <= k < BootRomSize ==> bootrom[k] == old(bootrom[k])
    {
      match Decode(address) {
        case None =>
          ok := false;
        case Some(c) =>
          ArrayOf(c.region)[c.index] := v;
          ok := true;
      }
    }

    /** An I/O register: what a read of 0xFF00-0xFF7F evidently means (see `IoRegistersOverrunOam`). */
    function Io(address: int): (b: bv8)
      reads io
      requires Valid() && IoOffset <= address < IoOffset + IoSize
      ensures b == io[address - IoOffset]
      ensures Decode(address) == Some(Cell(Oam, address - OamOffset)) && Overruns(address)
    {
      io[address - IoOffset]
    }

    /** Writing an I/O register changes that register and nothing else. */
    method WriteIo(address: int, v: bv8)
      requires Valid() && IoOffset <= address < IoOffset + IoSize
      modifies io
      ensures Io(address) == v
      ensures forall a :: IoOffset <= a < IoOffset + IoSize && a != address ==> Io(a) == old(Io(a))
    {
      io[address - IoOffset] := v;
    }
  }
}
