/**
 * The CPU bus of src/bus.c: 2 KiB of work RAM mirrored through
 * $0000-$1FFF, the eight PPU registers mirrored through $2000-$3FFF, the
 * APU stub, OAM DMA at $4014, the two pads at $4016/$4017 and the mapper
 * from $6000.  A read returns the byte and the bus after the read's side
 * effects (PPU status and buffer, pad shift position).
 *
 * The bus calls `controller_read_shift` and `controller_write_strobe`,
 * which src/controller.c does not define; they are modelled with the
 * per-pad read and strobe logic src/controller.c does define.
 */
module Bus {
  import opened Bits
  import opened Memory
  import Ppu
  import Mapper
  import Controller

  /** The 2 KiB work RAM, indexed by the low 11 address bits. */
  type Ram = bv11 -> bv8

  datatype Bus = Bus(ram: Ram, ppu: Ppu.Ppu, mapper: Mapper.Mapper,
                     pad1: Controller.Pad, pad2: Controller.Pad,
                     dmaActive: bool, dmaPage: bv16, dmaIndex: nat, dmaEven: bool)

  datatype BusRead = BusRead(bus: Bus, value: bv8)

  predicate BusValid(b: Bus)
  {
    Mapper.MapperValid(b.mapper) && b.dmaIndex <= 256
  }

  const ZeroRam: Ram := (i: bv11) => 0

  /** `bus_init`: cleared RAM and no DMA in progress. */
  function Init(ppu: Ppu.Ppu, mapper: Mapper.Mapper, pad1: Controller.Pad, pad2: Controller.Pad): (r: Bus)
    ensures forall i :: r.ram(i) == 0
    ensures !r.dmaActive && r.dmaPage == 0 && r.dmaIndex == 0 && !r.dmaEven
    ensures r.ppu == ppu && r.mapper == mapper && r.pad1 == pad1 && r.pad2 == pad2
  {
    Bus(ZeroRam, ppu, mapper, pad1, pad2, false, 0, 0, false)
  }

  /** `bus_reset`: RAM and DMA state cleared, devices kept. */
  function Reset(b: Bus): (r: Bus)
    ensures forall i :: r.ram(i) == 0
    ensures r == Init(b.ppu, b.mapper, b.pad1, b.pad2)
  {
    b.(ram := ZeroRam, dmaActive := false, dmaPage := 0, dmaIndex := 0, dmaEven := false)
  }

  function RamIndex(addr: bv16): bv11 { (addr & 0x07FF) as bv11 }

  /** The register index handed to the PPU: `0x2000 + ((addr - 0x2000) & 7)`
   *  truncated to the byte parameter, which is the low three address
   *  bits. */
  function PpuReg(addr: bv16): (reg: bv8)
    ensures reg == (addr & 7) as bv8
  {
    ((0x2000 + ((addr - 0x2000) & 0x7)) & 0xFF) as bv8
  }

  predicate IsApu(addr: bv16) { (0x4000 <= addr <= 0x4013) || addr == 0x4015 }

  /** `bus_cpu_read8`. */
  function Read(b: Bus, addr: bv16): (r: BusRead)
    requires BusValid(b)
    ensures addr <= 0x1FFF ==> r == BusRead(b, b.ram(RamIndex(addr)))
    ensures 0x2000 <= addr <= 0x3FFF ==>
      r == BusRead(b.(ppu := Ppu.RegRead(b.ppu, (addr & 7) as bv8).p), Ppu.RegRead(b.ppu, (addr & 7) as bv8).value)
    ensures addr == 0x4016 ==> r.bus == b.(pad1 := Controller.ReadSerial(b.pad1).pad)
    ensures addr == 0x4017 ==> r.bus == b.(pad2 := Controller.ReadSerial(b.pad2).pad)
    ensures addr == 0x4016 ==> r.value == (Controller.ReadSerial(b.pad1).bit & 1) | 0x40
    ensures addr == 0x4017 ==> r.value == (Controller.ReadSerial(b.pad2).bit & 1) | 0x40
    ensures addr == 0x4016 || addr == 0x4017 ==> r.value == 0x40 || r.value == 0x41
    ensures 0x4000 <= addr <= 0x5FFF && addr != 0x4016 && addr != 0x4017 ==> r == BusRead(b, 0)
    ensures addr >= 0x6000 ==> r == BusRead(b, Mapper.CpuRead(b.mapper, addr as int))
  {
    if addr <= 0x1FFF then BusRead(b, b.ram(RamIndex(addr)))
    else if addr <= 0x3FFF then
      BusRead(b.(ppu := Ppu.RegRead(b.ppu, PpuReg(addr)).p), Ppu.RegRead(b.ppu, PpuReg(addr)).value)
    else if IsApu(addr) then BusRead(b, 0)
    else if addr == 0x4014 then BusRead(b, 0)
    else if addr == 0x4016 then
      BusRead(b.(pad1 := Controller.ReadSerial(b.pad1).pad), (Controller.ReadSerial(b.pad1).bit & 1) | 0x40)
    else if addr == 0x4017 then
      BusRead(b.(pad2 := Controller.ReadSerial(b.pad2).pad), (Controller.ReadSerial(b.pad2).bit & 1) | 0x40)
    else if 0x4020 <= addr <= 0x5FFF then BusRead(b, 0)
    else if addr >= 0x6000 then BusRead(b, Mapper.CpuRead(b.mapper, addr as int))
    else BusRead(b, 0)
  }

  /** `start_oam_dma`: the source page is the written byte times 256, the
   *  copy starts at byte 0, and the alignment flag comes from
   *  `DEBUG_current_cpu_cycle_is_even`, which always says odd. */
  function StartDma(b: Bus, value: bv8): (r: Bus)
    ensures r.dmaActive && r.dmaIndex == 0 && !r.dmaEven
    ensures r.dmaPage == Word(0, value)
    ensures r == b.(dmaActive := true, dmaPage := r.dmaPage, dmaIndex := 0, dmaEven := false)
  {
    b.(dmaActive := true, dmaPage := value as bv16 << 8, dmaIndex := 0, dmaEven := false)
  }

  /** `bus_cpu_write8`. */
  function Write(b: Bus, addr: bv16, value: bv8): (r: Bus)
    requires BusValid(b)
    ensures BusValid(r)
    ensures addr <= 0x1FFF ==> r == b.(ram := Put(b.ram, RamIndex(addr), value))
    ensures 0x2000 <= addr <= 0x3FFF ==> r == b.(ppu := Ppu.RegWrite(b.ppu, (addr & 7) as bv8, value))
    ensures addr == 0x4014 ==> r == StartDma(b, value)
    ensures addr == 0x4016 ==> r == b.(pad1 := Controller.Strobe(b.pad1, value & 1))
    ensures addr == 0x4017 ==> r == b.(pad2 := Controller.Strobe(b.pad2, value & 1))
    ensures 0x4000 <= addr <= 0x5FFF && addr != 0x4014 && addr != 0x4016 && addr != 0x4017 ==> r == b
    ensures addr >= 0x6000 ==> r == b.(mapper := Mapper.CpuWrite(b.mapper, addr as int, value))
  {
    if addr <= 0x1FFF then b.(ram := Put(b.ram, RamIndex(addr), value))
    else if addr <= 0x3FFF then b.(ppu := Ppu.RegWrite(b.ppu, PpuReg(addr), value))
    else if IsApu(addr) then b
    else if addr == 0x4014 then StartDma(b, value).(dmaActive := true)
    else if addr == 0x4016 then b.(pad1 := Controller.Strobe(b.pad1, value & 1))
    else if addr == 0x4017 then b.(pad2 := Controller.Strobe(b.pad2, value & 1))
    else if 0x4020 <= addr <= 0x5FFF then b
    else if addr >= 0x6000 then b.(mapper := Mapper.CpuWrite(b.mapper, addr as int, value))
    else b
  }

  /** Work RAM appears four times: $0000, $0800, $1000 and $1800 name the
   *  same byte. */
  lemma RamMirrors(b: Bus, addr: bv16)
    requires BusValid(b) && addr <= 0x07FF
    ensures Read(b, addr).value == Read(b, addr + 0x0800).value
    ensures Read(b, addr).value == Read(b, addr + 0x1000).value
    ensures Read(b, addr).value == Read(b, addr + 0x1800).value
  {
  }

  /** A RAM write reads back at every mirror of its address and leaves the
   *  other RAM bytes alone. */
  lemma RamRoundTrip(b: Bus, addr: bv16, value: bv8, other: bv16)
    requires BusValid(b) && addr <= 0x1FFF && other <= 0x1FFF
    ensures Read(Write(b, addr, value), other).value ==
      (if other & 0x07FF == addr & 0x07FF then value else Read(b, other).value)
  {
  }

  /** The PPU registers repeat every eight bytes up to $3FFF. */
  lemma PpuRegistersMirror(b: Bus, addr: bv16, value: bv8)
    requires BusValid(b) && 0x2000 <= addr <= 0x3FFF
    ensures Read(b, addr) == Read(b, 0x2000 + (addr & 7))
    ensures Write(b, addr, value) == Write(b, 0x2000 + (addr & 7), value)
  {
  }

  /** A write to $2008 lands in PPUCTRL, as one to $2000 does. */
  lemma CtrlMirror(b: Bus, value: bv8)
    requires BusValid(b)
    ensures Write(b, 0x2008, value).ppu.ctrl == value
    ensures Write(b, 0x3FF8, value).ppu.ctrl == value
  {
  }

  // ------------------------------------------------------------------
  // OAM DMA
  // ------------------------------------------------------------------

  /** `dma_cpu_peek`: DMA sees work RAM and the mapper only. */
  function DmaPeek(b: Bus, addr: bv16): (r: bv8)
    requires BusValid(b)
    ensures 0x2000 <= addr < 0x6000 ==> r == 0
  {
    if addr <= 0x1FFF then b.ram(RamIndex(addr))
    else if addr >= 0x6000 then Mapper.CpuRead(b.mapper, addr as int)
    else 0
  }

  /** DMA reads what the CPU would read from RAM and cartridge space,
   *  without the side effects, and 0 from the register pages. */
  lemma DmaPeekIsRead(b: Bus, addr: bv16)
    requires BusValid(b)
    ensures addr <= 0x1FFF || addr >= 0x6000 ==> DmaPeek(b, addr) == Read(b, addr).value && Read(b, addr).bus == b
    ensures 0x2000 <= addr < 0x6000 ==> DmaPeek(b, addr) == 0
  {
  }

  /** The source page as DMA sees it: byte k is at `dmaPage | k`. */
  function Page(b: Bus): int -> bv8
    requires BusValid(b)
  {
    (k: int) => DmaPeek(b, PageAddr(b.dmaPage, k))
  }

  /** `dma_page | dma_index` for an index that fits a byte. */
  function PageAddr(page: bv16, k: int): bv16
  {
    if 0 <= k < 256 then page | (k as bv8) as bv16 else page
  }

  /** Bytes k..255 of a page pushed into OAM one by one. */
  function Fill(p: Ppu.Ppu, page: int -> bv8, k: nat): Ppu.Ppu
    requires k <= 256
    decreases 256 - k
  {
    if k == 256 then p else Fill(Ppu.OamPush(p, page(k)), page, k + 1)
  }

  /** The copy loop of `bus_tick_dma_if_active`: push bytes i..255 of the
   *  page, two cycles each. */
  method CopyLoop(ppu: Ppu.Ppu, page: int -> bv8, i: nat) returns (r: Ppu.Ppu, cycles: int)
    requires i <= 256
    ensures r == Fill(ppu, page, i)
    ensures cycles == 2 * (256 - i)
  {
    r := ppu;
    cycles := 0;
    var j := i;
    while j < 256
      invariant i <= j <= 256
      invariant Fill(r, page, j) == Fill(ppu, page, i)
      invariant cycles == 2 * (j - i)
    {
      r := Ppu.OamPush(r, page(j));
      j := j + 1;
      cycles := cycles + 2;
    }
  }

  /** `bus_tick_dma_if_active`: one alignment cycle when the start was odd,
   *  then two cycles per byte for the bytes still to copy; the transfer
   *  completes in one call. */
  method TickDma(b: Bus) returns (r: Bus, cycles: int)
    requires BusValid(b)
    ensures BusValid(r)
    ensures !b.dmaActive ==> r == b && cycles == 0
    ensures b.dmaActive ==> cycles == (if b.dmaEven then 0 else 1) + 2 * (256 - b.dmaIndex)
    ensures b.dmaActive ==>
      r == b.(ppu := Fill(b.ppu, Page(b), b.dmaIndex), dmaIndex := 256, dmaActive := false, dmaEven := true)
  {
    if !b.dmaActive {
      return b, 0;
    }
    var ppu, copying := CopyLoop(b.ppu, Page(b), b.dmaIndex);
    cycles := (if b.dmaEven then 0 else 1) + copying;
    r := b.(ppu := ppu, dmaIndex := 256, dmaActive := false, dmaEven := true);
  }

  /** A DMA started by a $4014 write takes 513 cycles. */
  lemma DmaCycles(b: Bus, value: bv8)
    requires BusValid(b)
    ensures var s := Write(b, 0x4014, value);
      s.dmaActive && (if s.dmaEven then 0 else 1) + 2 * (256 - s.dmaIndex) == 513
  {
  }

  /** How many places past cursor position a the OAM slot s lies. */
  function Dist(a: bv8, s: bv8): (d: int)
    ensures 0 <= d < 256
  {
    (s - a) as int
  }

  /** Advancing the cursor from a to a + 1 brings every slot but a one
   *  place closer, and puts a itself farthest away. */
  lemma DistStep(a: bv8, s: bv8)
    ensures s != a ==> Dist(a + 1, s) == Dist(a, s) - 1
    ensures s == a ==> Dist(a + 1, s) == 255 && Dist(a, s) == 0
  {
  }

  /** Only the cursor's own slot is at distance 0. */
  lemma DistZero(a: bv8, s: bv8)
    ensures Dist(a, s) == 0 <==> s == a
  {
  }

  /** One step of a fill: push byte k, then fill from k + 1. */
  lemma FillUnfold(p: Ppu.Ppu, page: int -> bv8, k: nat)
    requires k < 256
    ensures Fill(p, page, k) == Fill(Ppu.OamPush(p, page(k)), page, k + 1)
    ensures Ppu.OamPush(p, page(k)).oamAddr == p.oamAddr + 1
  {
  }

  /** How far the cursor has moved after filling from k. */
  function Moved(k: nat): nat
    requires k <= 256
  {
    if k == 0 then 0 else 256 - k
  }

  /** What slot s holds after a fill from k + 1 started one place later,
   *  over a table whose slot a already holds byte k, is what it holds
   *  after a fill from k. */
  lemma SlotBack(a: bv8, s: bv8, k: nat, page: int -> bv8, before: bv8, after: bv8)
    requires k < 256
    requires after == if Dist(a + 1, s) < 256 - (k + 1) then page(k + 1 + Dist(a + 1, s))
                      else if s == a then page(k) else before
    ensures after == if Dist(a, s) < 256 - k then page(k + Dist(a, s)) else before
  {
    DistStep(a, s);
  }

  /** The cursor distance after a fill from k + 1, seen from one slot
   *  earlier, is the distance after a fill from k. */
  lemma CursorBack(a: bv8, c: bv8, k: nat)
    requires k < 256
    requires Dist(a + 1, c) == Moved(k + 1)
    ensures Dist(a, c) == Moved(k)
  {
    DistStep(a, c);
  }

  /** Filling bytes k..255 from cursor position a: the slot d places past
   *  the cursor receives byte k + d when d < 256 - k, and keeps its
   *  contents otherwise. */
  lemma {:induction false} FillSlot(p: Ppu.Ppu, page: int -> bv8, k: nat, s: bv8)
    requires k <= 256
    ensures Fill(p, page, k).oam(s) ==
      if Dist(p.oamAddr, s) < 256 - k then page(k + Dist(p.oamAddr, s)) else p.oam(s)
    decreases 256 - k
  {
    if k < 256 {
      FillUnfold(p, page, k);
      FillSlot(Ppu.OamPush(p, page(k)), page, k + 1, s);
      Ppu.OamPushOther(p, page(k), s);
      SlotBack(p.oamAddr, s, k, page, p.oam(s), Fill(p, page, k).oam(s));
    }
  }

  /** Filling bytes k..255 moves the cursor 256 - k places on. */
  lemma {:induction false} FillCursor(p: Ppu.Ppu, page: int -> bv8, k: nat)
    requires k <= 256
    ensures Dist(p.oamAddr, Fill(p, page, k).oamAddr) == Moved(k)
    decreases 256 - k
  {
    if k < 256 {
      FillUnfold(p, page, k);
      FillCursor(Ppu.OamPush(p, page(k)), page, k + 1);
      CursorBack(p.oamAddr, Fill(p, page, k).oamAddr, k);
    }
  }

  /** A whole fill: every OAM slot s holds byte `s - oamAddr` of the
   *  page. */
  lemma FillAll(p: Ppu.Ppu, page: int -> bv8, s: bv8)
    ensures Fill(p, page, 0).oam(s) == page(Dist(p.oamAddr, s))
  {
    FillSlot(p, page, 0, s);
  }

  /** After a whole fill the cursor is back where it started. */
  lemma FillReturns(p: Ppu.Ppu, page: int -> bv8)
    ensures Fill(p, page, 0).oamAddr == p.oamAddr
  {
    FillCursor(p, page, 0);
    DistZero(p.oamAddr, Fill(p, page, 0).oamAddr);
  }

  /** DMA reads depend only on RAM and the cartridge. */
  lemma DmaPeekFrame(b: Bus, c: Bus, addr: bv16)
    requires BusValid(b) && BusValid(c) && b.ram == c.ram && b.mapper == c.mapper
    ensures DmaPeek(b, addr) == DmaPeek(c, addr)
  {
  }

  /** Byte d of a page is at the address with high byte the page number
   *  and low byte d. */
  lemma PageOffset(page: bv8, a: bv8, s: bv8)
    ensures PageAddr(Word(0, page), Dist(a, s)) == Word(s - a, page)
  {
    DistByte(a, s);
  }

  /** The distance of slot s from cursor a, as a byte, is `s - a`. */
  lemma DistByte(a: bv8, s: bv8)
    ensures Dist(a, s) as bv8 == s - a
  {
  }

  /** The DMA a $4014 write starts (`Write` hands it to `StartDma`): once
   *  it has run, OAM slot s holds the byte DMA peeks at `value:(s - oamAddr)`
   *  (high byte the written value, low byte the slot's distance from the
   *  cursor), and the cursor is where it was. */
  lemma DmaFillsOam(b: Bus, value: bv8, s: bv8)
    requires BusValid(b)
    ensures var w := StartDma(b, value);
      Fill(w.ppu, Page(w), w.dmaIndex).oam(s) == DmaPeek(b, Word(s - b.ppu.oamAddr, value))
    ensures var w := StartDma(b, value);
      Fill(w.ppu, Page(w), w.dmaIndex).oamAddr == b.ppu.oamAddr
  {
    var w := StartDma(b, value);
    FillAll(w.ppu, Page(w), s);
    FillReturns(w.ppu, Page(w));
    PageOffset(value, b.ppu.oamAddr, s);
    DmaPeekFrame(w, b, Word(s - b.ppu.oamAddr, value));
  }
}
