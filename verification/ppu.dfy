/**
 * The picture processing unit of src/ppu.c as far as the CPU can observe
 * it: the loopy scroll registers v/t/x/w, the eight memory-mapped
 * registers $2000-$2007 with their side effects, the nametable and
 * palette address decode, the scroll increments performed while
 * rendering, and the dot/scanline counter with its VBlank/NMI latch.
 *
 * v and t are 15-bit quantities kept in a `uint16_t`: bits 14-12 fine Y,
 * bit 11 and bit 10 the nametable select, bits 9-5 coarse Y, bits 4-0
 * coarse X.  RAM tables (OAM, nametables, palette) are total function
 * values updated with Memory.Put.
 */
module Ppu {
  import opened Bits
  import opened Memory

  /** `enum mirror_type`. */
  datatype Mirror = Vertical | Horizontal | FourScreen

  const DotsPerScanline: int := 341
  const ScanlinesPerFrame: int := 262
  const VBlankScanline: int := 241
  const PreRenderScanline: int := 261

  /** `ciram[2 * 1024]` as declared in the PPU struct. */
  const CiramSize: int := 0x800

  /** The nametable store the model uses: 4 KiB, so that the four-screen
   *  layout `nt_phys_index` computes has room (see FourScreenOverrunsCiram). */
  type Nametables = bv12 -> bv8

  /** OAM (256 bytes) and the 32-byte palette, indexed by a byte. */
  type Table = bv8 -> bv8

  /** `struct PPU` without the mapper pointer and the cycle accumulator
   *  (which `ppu_tick` drains to zero before it returns).  `w` is the
   *  write toggle, which the source only ever sets to 0 or 1. */
  datatype Ppu = Ppu(v: bv16, t: bv16, x: bv8, w: bool,
                     ctrl: bv8, mask: bv8, status: bv8,
                     oam: Table, oamAddr: bv8,
                     vram: Nametables, palette: Table, buffer: bv8,
                     scanline: int, dot: int,
                     sprite0Hit: bool, spriteOverflow: bool,
                     mirror: Mirror, nmiPending: bool)

  /** A register read: the PPU after its side effects and the byte read. */
  datatype ReadOut = ReadOut(p: Ppu, value: bv8)

  /** `ppu_init`: every register, table and counter zero. */
  function Init(mirror: Mirror): (r: Ppu)
    ensures r.v == 0 && r.t == 0 && !r.w && r.status == 0 && r.scanline == 0 && r.dot == 0
    ensures !r.nmiPending && r.mirror == mirror
  {
    Ppu(0, 0, 0, false, 0, 0, 0, (i: bv8) => 0, 0, (i: bv12) => 0, (i: bv8) => 0, 0,
        0, 0, false, false, mirror, false)
  }

  // ------------------------------------------------------------------
  // Address decode
  // ------------------------------------------------------------------

  /** `nt_phys_index`: the nametable byte an address in $2000-$2FFF (or a
   *  mirror of it) selects.  Only the low 12 bits of the address matter.
   *  Vertical mirroring maps the four logical pages 0,1,0,1; horizontal
   *  maps them 0,0,1,1; four-screen keeps all four. */
  function NtIndex(m: Mirror, addr: bv16): (r: bv12)
    ensures r & 0x3FF == (addr & 0x3FF) as bv12
    ensures m.Vertical? ==> r < 0x800 && (r >= 0x400 <==> addr & 0x400 != 0)
    ensures m.Horizontal? ==> r < 0x800 && (r >= 0x400 <==> addr & 0x800 != 0)
    ensures m.FourScreen? ==> r == (addr & 0xFFF) as bv12
  {
    NtOf(m, ((addr - 0x2000) & 0x0FFF) as bv12 / 0x400, ((addr - 0x2000) & 0x0FFF) as bv12 % 0x400)
  }

  function NtOf(m: Mirror, page: bv12, offs: bv12): bv12
    requires page < 4 && offs < 0x400
  {
    if m.Vertical? then (page % 2) * 0x400 + offs
    else if m.Horizontal? then (page / 2) * 0x400 + offs
    else page * 0x400 + offs
  }

  /** Addresses that agree in their low 12 bits select the same byte. */
  lemma NtIndexLow12(m: Mirror, a: bv16, b: bv16)
    requires a & 0xFFF == b & 0xFFF
    ensures NtIndex(m, a) == NtIndex(m, b)
  {
  }

  /** Under four-screen mirroring the index leaves the 2 KiB `ciram` for
   *  exactly the addresses of the third and fourth logical nametables. */
  lemma FourScreenOverrunsCiram(a: bv16)
    ensures NtIndex(FourScreen, 0x2800) as int == CiramSize
    ensures NtIndex(FourScreen, a) as int < CiramSize <==> a & 0x800 == 0
  {
  }

  /** `pal_index_fix`: the palette slot of an address.  The entries
   *  $3F10/$3F14/$3F18/$3F1C alias $3F00/$3F04/$3F08/$3F0C. */
  function PalIndex(addr: bv16): (r: bv8)
    ensures r < 0x20
    ensures addr & 0x13 == 0x10 ==> r == (addr & 0x0F) as bv8
    ensures addr & 0x13 != 0x10 ==> r == (addr & 0x1F) as bv8
  {
    PalFix((addr & 0x1F) as bv8)
  }

  function PalFix(i: bv8): bv8
  {
    if i == 0x10 then 0x00
    else if i == 0x14 then 0x04
    else if i == 0x18 then 0x08
    else if i == 0x1C then 0x0C
    else i
  }

  /** `ppu_read`: pattern-table addresses read 0 (the mapper call is
   *  commented out); $2000-$3FFF read the nametables, $3000-$3FFF through
   *  the $2000 mirror.  The palette branch after them is unreachable,
   *  because the address has already been reduced to 14 bits. */
  function PpuRead(p: Ppu, addr: bv16): (r: bv8)
    ensures addr & 0x3FFF < 0x2000 ==> r == 0
    ensures addr & 0x3FFF >= 0x2000 ==> r == p.vram(NtIndex(p.mirror, addr))
  {
    if addr & 0x3FFF <= 0x1FFF then 0
    else if addr & 0x3FFF <= 0x2FFF then p.vram(NtIndex(p.mirror, addr & 0x3FFF))
    else p.vram(NtIndex(p.mirror, (addr & 0x3FFF) - 0x1000))
  }

  /** `ppu_write` as written: the comment on its second line swallows the
   *  no-op, so the first nametable store becomes the body of the
   *  `a <= 0x1FFF` test, the `a - 0x1000` store always runs, and so does
   *  the palette store.  Every address therefore writes both its
   *  nametable byte and its palette slot. */
  function PpuWrite(p: Ppu, addr: bv16, val: bv8): (r: Ppu)
    ensures forall i :: r.vram(i) == if i == NtIndex(p.mirror, addr) then val else p.vram(i)
    ensures forall i :: r.palette(i) == if i == PalIndex(addr) then val else p.palette(i)
    ensures r == p.(vram := r.vram, palette := r.palette)
  {
    p.(vram := NtStores(p.vram, p.mirror, addr & 0x3FFF, val),
       palette := Put(p.palette, PalIndex(addr & 0x3FFF), val))
  }

  /** The two nametable stores of `ppu_write`. */
  function NtStores(vram: Nametables, m: Mirror, a: bv16, val: bv8): Nametables
  {
    var afterFirst := if a <= 0x1FFF && a <= 0x2FFF then Put(vram, NtIndex(m, a), val) else vram;
    if a <= 0x3FFF then Put(afterFirst, NtIndex(m, a - 0x1000), val) else afterFirst
  }

  /** A write followed by a read of the same address returns the byte
   *  written, everywhere in $2000-$3FFF. */
  lemma WriteThenRead(p: Ppu, addr: bv16, val: bv8)
    requires addr & 0x3FFF >= 0x2000
    ensures PpuRead(PpuWrite(p, addr, val), addr) == val
  {
  }

  /** Reads never consult the palette, so $3F10 does not read back what
   *  was written at $3F00 even though both land in palette slot 0. */
  lemma ReadIgnoresPalette(p: Ppu, pal: Table, addr: bv16)
    ensures PpuRead(p.(palette := pal), addr) == PpuRead(p, addr)
    ensures PalIndex(0x3F10) == PalIndex(0x3F00)
    ensures NtIndex(p.mirror, 0x3F10) != NtIndex(p.mirror, 0x3F00)
  {
  }

  // ------------------------------------------------------------------
  // Loopy register fields
  // ------------------------------------------------------------------

  function CoarseX(v: bv16): bv16 { v & 0x1F }
  function CoarseY(v: bv16): bv16 { (v >> 5) & 0x1F }
  function FineY(v: bv16): bv16 { (v >> 12) & 7 }

  /** The $2000 write into t: only the nametable bits 10-11 change. */
  function NametableSelect(t: bv16, val: bv8): (r: bv16)
    ensures r & 0xF3FF == t & 0xF3FF
    ensures (r >> 10) & 3 == (val & 3) as bv16
  {
    (t & 0xF3FF) | ((val & 0x03) as bv16 << 10)
  }

  /** First $2005 write: coarse X from the top five bits of the value. */
  function ScrollX(t: bv16, val: bv8): (r: bv16)
    ensures CoarseX(r) == (val >> 3) as bv16
    ensures r & 0xFFE0 == t & 0xFFE0
  {
    (t & 0xFFE0) | (val >> 3) as bv16
  }

  /** Second $2005 write: fine Y from bits 0-2, coarse Y from bits 3-7;
   *  bits 0-4, 10-11 and 15 of t are kept. */
  function ScrollY(t: bv16, val: bv8): (r: bv16)
    ensures FineY(r) == (val & 7) as bv16
    ensures CoarseY(r) == (val >> 3) as bv16
    ensures r & 0x8C1F == t & 0x8C1F
  {
    (t & 0x8C1F) | ((val & 0x07) as bv16 << 12) | (((val >> 3) & 0x1F) as bv16 << 5)
  }

  /** First $2006 write: bits 8-13 from the value, bits 14-15 cleared. */
  function AddrHi(t: bv16, val: bv8): (r: bv16)
    ensures r >> 8 == (val & 0x3F) as bv16
    ensures r & 0xFF == t & 0xFF
  {
    (t & 0x00FF) | ((val & 0x3F) as bv16 << 8)
  }

  /** Second $2006 write: the low byte from the value, bit 15 cleared. */
  function AddrLo(t: bv16, val: bv8): (r: bv16)
    ensures r & 0xFF == val as bv16
    ensures r >> 8 == (t >> 8) & 0x7F
  {
    (t & 0x7F00) | val as bv16
  }

  /** A high/low pair of $2006 writes leaves `((hi & 0x3F) << 8) | lo`,
   *  whatever t held before. */
  lemma AddressPair(t: bv16, hi: bv8, lo: bv8)
    ensures AddrLo(AddrHi(t, hi), lo) == ((hi & 0x3F) as bv16 << 8) | lo as bv16
  {
  }

  /** `increment_coarse_x`: coarse X 31 wraps to 0 and flips the
   *  horizontal nametable bit; any other coarse X gains one.  No other
   *  bit changes, so a 15-bit v stays a 15-bit v. */
  function IncrementCoarseX(v: bv16): (r: bv16)
    ensures CoarseX(v) == 31 ==> CoarseX(r) == 0 && (r & 0x400 == 0 <==> v & 0x400 != 0)
    ensures CoarseX(v) < 31 ==> CoarseX(r) == CoarseX(v) + 1 && r & 0x400 == v & 0x400
    ensures r & 0xFBE0 == v & 0xFBE0
    ensures v < 0x8000 ==> r < 0x8000
  {
    if v & 0x001F == 31 then (v & 0xFFE0) ^ 0x0400 else v + 1
  }

  /** `increment_y`: fine Y below 7 just gains one; at 7 it wraps to 0 and
   *  coarse Y moves on, 29 wrapping to 0 and flipping the vertical
   *  nametable bit, 31 wrapping to 0 without the flip.  Coarse X, the
   *  horizontal nametable bit and bit 15 never change. */
  function IncrementY(v: bv16): (r: bv16)
    ensures FineY(v) < 7 ==> FineY(r) == FineY(v) + 1 && r & 0x8FFF == v & 0x8FFF
    ensures FineY(v) == 7 ==> FineY(r) == 0
    ensures FineY(v) == 7 ==> CoarseY(r) == (if CoarseY(v) == 29 || CoarseY(v) == 31 then 0 else CoarseY(v) + 1)
    ensures FineY(v) == 7 ==> (r & 0x800 != v & 0x800 <==> CoarseY(v) == 29)
    ensures r & 0x841F == v & 0x841F
  {
    if v & 0x7000 != 0x7000 then v + 0x1000
    else CoarseYStep(v & 0x8FFF, ((v & 0x8FFF) & 0x03E0) >> 5)
  }

  /** The coarse-Y half of `increment_y`, fine Y already cleared. */
  function CoarseYStep(v: bv16, coarse: bv16): bv16
  {
    if coarse == 29 then ((v ^ 0x0800) & 0xFC1F) | (0 << 5)
    else if coarse == 31 then (v & 0xFC1F) | (0 << 5)
    else (v & 0xFC1F) | ((coarse + 1) << 5)
  }

  /** `copy_horizontal_t_to_v`: coarse X and the horizontal nametable bit. */
  function CopyHorizontal(v: bv16, t: bv16): (r: bv16)
    ensures CoarseX(r) == CoarseX(t) && r & 0x0400 == t & 0x0400
    ensures r & 0xFBE0 == v & 0xFBE0
  {
    (v & 0xFBE0) | (t & 0x041F)
  }

  /** `copy_vertical_t_to_v`: fine Y, the vertical nametable bit, coarse Y. */
  function CopyVertical(v: bv16, t: bv16): (r: bv16)
    ensures FineY(r) == FineY(t) && CoarseY(r) == CoarseY(t) && r & 0x0800 == t & 0x0800
    ensures r & 0x841F == v & 0x841F
  {
    (v & 0x841F) | (t & 0x7BE0)
  }

  /** The two copies touch disjoint bits and together cover all fifteen,
   *  in either order: after both, v agrees with t except in bit 15. */
  lemma CopiesCoverV(v: bv16, t: bv16)
    ensures CopyVertical(CopyHorizontal(v, t), t) == CopyHorizontal(CopyVertical(v, t), t)
    ensures CopyVertical(CopyHorizontal(v, t), t) & 0x7FFF == t & 0x7FFF
    ensures CopyVertical(CopyHorizontal(v, t), t) & 0x8000 == v & 0x8000
  {
  }

  /** `rendering_enabled`: background or sprites shown. */
  predicate RenderingEnabled(mask: bv8)
  {
    mask & 0x08 != 0 || mask & 0x10 != 0
  }

  predicate FetchDot(dot: int)
  {
    ((1 <= dot <= 255) || (321 <= dot <= 336)) && dot % 8 == 0
  }

  /** `handle_scroll_increments`: while rendering, at most one of the four
   *  updates applies on a given dot, because their dot ranges are
   *  disjoint; with rendering off v is left alone. */
  function ScrollUpdate(v: bv16, t: bv16, mask: bv8, scanline: int, dot: int): (r: bv16)
    ensures RenderingEnabled(mask) && FetchDot(dot) ==> r == IncrementCoarseX(v)
    ensures RenderingEnabled(mask) && dot == 256 ==> r == IncrementY(v)
    ensures RenderingEnabled(mask) && dot == 257 ==> r == CopyHorizontal(v, t)
    ensures RenderingEnabled(mask) && scanline == 261 && 280 <= dot <= 304 ==> r == CopyVertical(v, t)
    ensures !RenderingEnabled(mask) || !(FetchDot(dot) || dot == 256 || dot == 257 || (scanline == 261 && 280 <= dot <= 304)) ==> r == v
  {
    if !RenderingEnabled(mask) then v
    else ScrollSteps(v, t, scanline, dot)
  }

  function ScrollSteps(v: bv16, t: bv16, scanline: int, dot: int): bv16
  {
    var v1 := if FetchDot(dot) then IncrementCoarseX(v) else v;
    var v2 := if dot == 256 then IncrementY(v1) else v1;
    var v3 := if dot == 257 then CopyHorizontal(v2, t) else v2;
    if scanline == 261 && 280 <= dot <= 304 then CopyVertical(v3, t) else v3
  }

  // ------------------------------------------------------------------
  // Registers $2000-$2007
  // ------------------------------------------------------------------

  /** `write_2000`: PPUCTRL takes the value and its low two bits select
   *  the nametable in t; nothing else changes. */
  function Write2000(p: Ppu, val: bv8): (r: Ppu)
    ensures r.ctrl == val
    ensures r.t & 0xF3FF == p.t & 0xF3FF && (r.t >> 10) & 3 == (val & 3) as bv16
    ensures r == p.(ctrl := val, t := r.t)
  {
    p.(ctrl := val, t := NametableSelect(p.t, val))
  }

  /** `read_2002`: the status as it was, then VBlank and w cleared. */
  function Read2002(p: Ppu): (r: ReadOut)
    ensures r.value == p.status
    ensures r.p == p.(status := p.status & 0x7F, w := false)
  {
    ReadOut(p.(status := p.status & 0x7F, w := false), p.status)
  }

  /** `write_2004` and `ppu_oam_dma_push_byte`: store at the OAM cursor
   *  and advance it modulo 256; nothing else changes. */
  function OamPush(p: Ppu, val: bv8): (r: Ppu)
    ensures r.oam(p.oamAddr) == val
    ensures r.oamAddr == p.oamAddr + 1
    ensures r == p.(oam := r.oam, oamAddr := r.oamAddr)
  {
    p.(oam := Put(p.oam, p.oamAddr, val), oamAddr := p.oamAddr + 1)
  }

  /** A push leaves every other OAM byte alone. */
  lemma OamPushOther(p: Ppu, val: bv8, i: bv8)
    ensures OamPush(p, val).oam(i) == if i == p.oamAddr then val else p.oam(i)
  {
  }

  /** `write_2005`: the toggle selects the X or the Y half. */
  function Write2005(p: Ppu, val: bv8): (r: Ppu)
    ensures !p.w ==> r == p.(x := val & 7, t := ScrollX(p.t, val), w := true)
    ensures p.w ==> r == p.(t := ScrollY(p.t, val), w := false)
  {
    if !p.w then p.(x := val & 0x07, t := ScrollX(p.t, val), w := true)
    else p.(t := ScrollY(p.t, val), w := false)
  }

  /** `write_2006`: high byte into t, then low byte into t and t into v. */
  function Write2006(p: Ppu, val: bv8): (r: Ppu)
    ensures r.w == !p.w
    ensures !p.w ==> r.v == p.v && r.t == AddrHi(p.t, val)
    ensures p.w ==> r.v == r.t && r.t == AddrLo(p.t, val)
    ensures r == p.(t := r.t, v := r.v, w := r.w)
  {
    if !p.w then p.(t := AddrHi(p.t, val), w := true)
    else p.(t := AddrLo(p.t, val), v := AddrLo(p.t, val), w := false)
  }

  /** The $2007 address step: 32 when PPUCTRL bit 2 is set, else 1. */
  function Increment(ctrl: bv8): (r: bv16)
    ensures r == 1 || r == 32
  {
    if ctrl & 0x04 != 0 then 32 else 1
  }

  /** `write_2007`: store at v, then advance v within 14 bits. */
  function Write2007(p: Ppu, val: bv8): (r: Ppu)
    ensures r.v == (p.v + Increment(p.ctrl)) & 0x3FFF
    ensures r == PpuWrite(p, p.v, val).(v := r.v)
  {
    PpuWrite(p, p.v, val).(v := (p.v + Increment(p.ctrl)) & 0x3FFF)
  }

  /** `read_2007`: below $3F00 the previous buffer is returned and the
   *  buffer refilled from v; from $3F00 the byte at v is returned at once
   *  and the buffer is loaded from v - $1000.  v then advances. */
  function Read2007(p: Ppu): (r: ReadOut)
    ensures r.p == p.(buffer := r.p.buffer, v := (p.v + Increment(p.ctrl)) & 0x3FFF)
    ensures p.v & 0x3FFF < 0x3F00 ==> r.value == p.buffer && r.p.buffer == PpuRead(p, p.v)
    ensures p.v & 0x3FFF >= 0x3F00 ==> r.value == PpuRead(p, p.v)
    ensures p.v & 0x3FFF >= 0x3F00 ==> r.p.buffer == PpuRead(p, (p.v - 0x1000) & 0x3FFF)
  {
    if p.v & 0x3FFF < 0x3F00 then
      ReadOut(p.(buffer := PpuRead(p, p.v), v := (p.v + Increment(p.ctrl)) & 0x3FFF), p.buffer)
    else
      ReadOut(p.(buffer := PpuRead(p, (p.v - 0x1000) & 0x3FFF), v := (p.v + Increment(p.ctrl)) & 0x3FFF),
              PpuRead(p, p.v))
  }

  /** `ppu_reg_read`: only $2002, $2004 and $2007 are readable; the other
   *  five registers read 0 and have no side effect. */
  function RegRead(p: Ppu, reg: bv8): (r: ReadOut)
    ensures reg & 7 == 2 ==> r == Read2002(p)
    ensures reg & 7 == 4 ==> r == ReadOut(p, p.oam(p.oamAddr))
    ensures reg & 7 == 7 ==> r == Read2007(p)
    ensures reg & 7 !in {2, 4, 7} ==> r == ReadOut(p, 0)
  {
    if reg & 7 == 2 then Read2002(p)
    else if reg & 7 == 4 then ReadOut(p, p.oam(p.oamAddr))
    else if reg & 7 == 7 then Read2007(p)
    else ReadOut(p, 0)
  }

  /** `ppu_reg_write`: the register index is taken modulo 8; $2002 is
   *  read-only and ignores writes. */
  function RegWrite(p: Ppu, reg: bv8, val: bv8): (r: Ppu)
    ensures reg & 7 == 0 ==> r == p.(ctrl := val, t := NametableSelect(p.t, val))
    ensures reg & 7 == 1 ==> r == p.(mask := val)
    ensures reg & 7 == 2 ==> r == p
    ensures reg & 7 == 3 ==> r == p.(oamAddr := val)
    ensures reg & 7 == 4 ==> r == OamPush(p, val)
    ensures reg & 7 == 5 ==> r == Write2005(p, val)
    ensures reg & 7 == 6 ==> r == Write2006(p, val)
    ensures reg & 7 == 7 ==> r == Write2007(p, val)
  {
    if reg & 7 == 0 then Write2000(p, val)
    else if reg & 7 == 1 then p.(mask := val)
    else if reg & 7 == 3 then p.(oamAddr := val)
    else if reg & 7 == 4 then OamPush(p, val)
    else if reg & 7 == 5 then Write2005(p, val)
    else if reg & 7 == 6 then Write2006(p, val)
    else if reg & 7 == 7 then Write2007(p, val)
    else p
  }

  /** Two $2006 writes starting with the toggle clear load the same
   *  15-bit-or-less address into both t and v and leave the toggle clear. */
  lemma SetAddress(p: Ppu, hi: bv8, lo: bv8)
    requires !p.w
    ensures Write2006(Write2006(p, hi), lo).v == ((hi & 0x3F) as bv16 << 8) | lo as bv16
    ensures Write2006(Write2006(p, hi), lo).t == ((hi & 0x3F) as bv16 << 8) | lo as bv16
    ensures !Write2006(Write2006(p, hi), lo).w
  {
    AddressPair(p.t, hi, lo);
  }

  /** The two $2005 writes of one frame set fine X, coarse X, fine Y and
   *  coarse Y of t and leave the toggle where it started. */
  lemma SetScroll(p: Ppu, xs: bv8, ys: bv8)
    requires !p.w
    ensures Write2005(Write2005(p, xs), ys).x == xs & 7
    ensures CoarseX(Write2005(Write2005(p, xs), ys).t) == (xs >> 3) as bv16
    ensures FineY(Write2005(Write2005(p, xs), ys).t) == (ys & 7) as bv16
    ensures CoarseY(Write2005(Write2005(p, xs), ys).t) == (ys >> 3) as bv16
    ensures !Write2005(Write2005(p, xs), ys).w
  {
    assert CoarseX(ScrollY(ScrollX(p.t, xs), ys)) == CoarseX(ScrollX(p.t, xs));
  }

  // ------------------------------------------------------------------
  // Timing
  // ------------------------------------------------------------------

  /** Dot and scanline within the frame. */
  datatype Pos = Pos(scanline: int, dot: int)

  predicate InFrame(scanline: int, dot: int)
  {
    0 <= scanline < ScanlinesPerFrame && 0 <= dot < DotsPerScanline
  }

  /** The counter part of `step_one_ppu_cycle`: one dot later in raster
   *  order, wrapping at the end of the line and of the frame. */
  function Advance(scanline: int, dot: int): (r: Pos)
    ensures InFrame(scanline, dot) ==> InFrame(r.scanline, r.dot)
    ensures InFrame(scanline, dot) ==>
      r.scanline * DotsPerScanline + r.dot
        == (scanline * DotsPerScanline + dot + 1) % (DotsPerScanline * ScanlinesPerFrame)
  {
    if dot + 1 == DotsPerScanline then
      Pos(if scanline + 1 == ScanlinesPerFrame then 0 else scanline + 1, 0)
    else Pos(scanline, dot + 1)
  }

  /** The VBlank flag and NMI request raised on reaching (241, 1): an NMI
   *  is requested exactly when PPUCTRL bit 7 is set, and a request
   *  already pending is kept. */
  function EnterVBlank(p: Ppu): (r: Ppu)
    ensures Neg(r.status) && r.status & 0x7F == p.status & 0x7F
    ensures r.nmiPending == (p.nmiPending || p.ctrl & 0x80 != 0)
    ensures r == p.(status := r.status, nmiPending := r.nmiPending)
  {
    p.(status := p.status | 0x80, nmiPending := if p.ctrl & 0x80 != 0 then true else p.nmiPending)
  }

  /** The pre-render clear on reaching (261, 1); w is deliberately kept. */
  function LeaveVBlank(p: Ppu): (r: Ppu)
    ensures !Neg(r.status) && r.status & 0x7F == p.status & 0x7F
    ensures !r.sprite0Hit && !r.spriteOverflow
    ensures r == p.(status := r.status, sprite0Hit := false, spriteOverflow := false)
  {
    p.(status := p.status & 0x7F, sprite0Hit := false, spriteOverflow := false)
  }

  /** `step_one_ppu_cycle`: advance the counters, latch or clear VBlank
   *  at the new position, then apply that dot's scroll update. */
  function StepDot(p: Ppu): (r: Ppu)
    ensures Pos(r.scanline, r.dot) == Advance(p.scanline, p.dot)
    ensures r.v == ScrollUpdate(p.v, p.t, p.mask, r.scanline, r.dot)
  {
    Scrolled(Latched(Moved(p, Advance(p.scanline, p.dot))))
  }

  function Moved(p: Ppu, pos: Pos): (r: Ppu)
    ensures r.scanline == pos.scanline && r.dot == pos.dot
  {
    p.(scanline := pos.scanline, dot := pos.dot)
  }

  /** The VBlank latch of the position just reached. */
  function Latched(p: Ppu): (r: Ppu)
    ensures !(p.dot == 1 && (p.scanline == VBlankScanline || p.scanline == PreRenderScanline)) ==> r == p
    ensures r == p.(status := r.status, nmiPending := r.nmiPending,
                    sprite0Hit := r.sprite0Hit, spriteOverflow := r.spriteOverflow)
  {
    if p.scanline == VBlankScanline && p.dot == 1 then EnterVBlank(p)
    else if p.scanline == PreRenderScanline && p.dot == 1 then LeaveVBlank(p)
    else p
  }

  function Scrolled(p: Ppu): (r: Ppu)
    ensures r == p.(v := r.v)
  {
    p.(v := ScrollUpdate(p.v, p.t, p.mask, p.scanline, p.dot))
  }

  /** Reaching (241, 1) sets the VBlank bit and requests an NMI exactly
   *  when PPUCTRL bit 7 is set (a pending request is kept). */
  lemma StepDotEntersVBlank(p: Ppu)
    requires Advance(p.scanline, p.dot) == Pos(VBlankScanline, 1)
    ensures Neg(StepDot(p).status)
    ensures StepDot(p).nmiPending == (p.nmiPending || p.ctrl & 0x80 != 0)
  {
    assert Latched(Moved(p, Pos(VBlankScanline, 1))).nmiPending == (p.nmiPending || p.ctrl & 0x80 != 0);
  }

  /** Reaching (261, 1) clears VBlank and both sprite flags, not w. */
  lemma StepDotLeavesVBlank(p: Ppu)
    requires Advance(p.scanline, p.dot) == Pos(PreRenderScanline, 1)
    ensures !Neg(StepDot(p).status)
    ensures !StepDot(p).sprite0Hit && !StepDot(p).spriteOverflow
    ensures StepDot(p).w == p.w && StepDot(p).nmiPending == p.nmiPending
  {
    assert !Neg(Latched(Moved(p, Pos(PreRenderScanline, 1))).status);
  }

  /** Any other dot leaves the status, the NMI request and the sprite
   *  flags as they were. */
  lemma StepDotElsewhere(p: Ppu)
    requires Advance(p.scanline, p.dot).dot != 1 ||
      (Advance(p.scanline, p.dot).scanline != VBlankScanline && Advance(p.scanline, p.dot).scanline != PreRenderScanline)
    ensures StepDot(p).status == p.status && StepDot(p).nmiPending == p.nmiPending
    ensures StepDot(p).sprite0Hit == p.sprite0Hit && StepDot(p).spriteOverflow == p.spriteOverflow
  {
    assert Latched(Moved(p, Advance(p.scanline, p.dot))) == Moved(p, Advance(p.scanline, p.dot));
  }

  /** A dot changes nothing but the counters, the VBlank state and v:
   *  registers, toggle, tables and buffer are kept. */
  lemma StepDotFrame(p: Ppu)
    ensures StepDot(p) == p.(scanline := StepDot(p).scanline, dot := StepDot(p).dot,
                             status := StepDot(p).status, nmiPending := StepDot(p).nmiPending,
                             sprite0Hit := StepDot(p).sprite0Hit, spriteOverflow := StepDot(p).spriteOverflow,
                             v := StepDot(p).v)
  {
  }

  /** n consecutive dots.  Dots never touch the registers, the toggle,
   *  OAM, the nametables, the palette or the read buffer. */
  function Steps(p: Ppu, n: nat): (r: Ppu)
    ensures r == p.(scanline := r.scanline, dot := r.dot, status := r.status, nmiPending := r.nmiPending,
                    sprite0Hit := r.sprite0Hit, spriteOverflow := r.spriteOverflow, v := r.v)
    decreases n
  {
    if n == 0 then p else Steps(StepDot(p), n - 1)
  }

  /** Dots compose: n + k dots are n dots followed by k more. */
  lemma {:induction false} StepsAdd(p: Ppu, n: nat, k: nat)
    ensures Steps(p, n + k) == Steps(Steps(p, n), k)
    decreases n
  {
    if n > 0 {
      StepsAdd(StepDot(p), n - 1, k);
    }
  }

  /** A PPU inside the frame stays inside it, however many dots pass. */
  lemma {:induction false} StepsStayInFrame(p: Ppu, n: nat)
    requires InFrame(p.scanline, p.dot)
    ensures InFrame(Steps(p, n).scanline, Steps(p, n).dot)
    decreases n
  {
    if n > 0 {
      StepsStayInFrame(StepDot(p), n - 1);
    }
  }

  /** A position as a dot count from the start of the frame. */
  function RasterIndex(scanline: int, dot: int): int
  {
    scanline * DotsPerScanline + dot
  }

  const DotsPerFrame: int := 89342

  /** Reducing modulo the frame length before adding more dots changes
   *  nothing. */
  lemma ModFrameAdd(a: int, b: int)
    ensures (a % DotsPerFrame + b) % DotsPerFrame == (a + b) % DotsPerFrame
  {
    var q := a / DotsPerFrame;
    var q2 := (a % DotsPerFrame + b) / DotsPerFrame;
    var r2 := (a % DotsPerFrame + b) % DotsPerFrame;
    assert a + b == (q + q2) * DotsPerFrame + r2;
    ModUnique(a + b, DotsPerFrame, q + q2, r2);
  }

  /** n dots move the raster position n places on, modulo the 341 x 262
   *  dots of a frame. */
  lemma {:induction false} StepsPosition(p: Ppu, n: nat)
    requires InFrame(p.scanline, p.dot)
    ensures RasterIndex(Steps(p, n).scanline, Steps(p, n).dot)
      == (RasterIndex(p.scanline, p.dot) + n) % DotsPerFrame
    decreases n
  {
    if n == 0 {
      ModUnique(RasterIndex(p.scanline, p.dot), DotsPerFrame, 0, RasterIndex(p.scanline, p.dot));
    } else {
      StepsPosition(StepDot(p), n - 1);
      ModFrameAdd(RasterIndex(p.scanline, p.dot) + 1, n - 1);
    }
  }

  /** `ppu_tick`: three dots per CPU cycle, counted down through the
   *  accumulator. */
  method Tick(p: Ppu, cpuCycles: nat) returns (r: Ppu)
    ensures r == Steps(p, 3 * cpuCycles)
    ensures InFrame(p.scanline, p.dot) ==> InFrame(r.scanline, r.dot)
  {
    var accum: nat := 3 * cpuCycles;
    r := p;
    while accum > 0
      invariant Steps(r, accum) == Steps(p, 3 * cpuCycles)
      invariant InFrame(p.scanline, p.dot) ==> InFrame(r.scanline, r.dot)
    {
      r := StepDot(r);
      accum := accum - 1;
    }
  }

  /** `ppu_nmi_pending` / `ppu_clear_nmi`. */
  function ClearNmi(p: Ppu): (r: Ppu)
    ensures !r.nmiPending && r.(nmiPending := p.nmiPending) == p
  {
    p.(nmiPending := false)
  }
}
