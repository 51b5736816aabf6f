/**
 * Mapper 1 (MMC1, SxROM) of src/mapper_mmc1.c.  The CPU programs the
 * mapper one bit at a time: five writes to $8000-$FFFF shift bit 0 of the
 * written value into a 5-bit register, least significant bit first, and
 * the fifth write stores the assembled value in the register its address
 * selects (control, CHR bank 0, CHR bank 1, PRG bank).  A write with bit 7
 * set abandons the sequence.
 *
 * `control | 0x0C` is forced on every control write, so the PRG mode is
 * always 3 (switchable 16 KiB bank at $8000, last bank fixed at $C000);
 * the other PRG modes are modelled as written but cannot be selected.
 * The mirroring bits of the control register are ignored by the source.
 */
module Mmc1 {
  import opened Bits
  import opened Cartridge

  /** The mapper registers, with the C field widths: the shift register
   *  and the four loadable registers are bytes, the counters and the
   *  cached modes are ints. */
  datatype Regs = Regs(shift: bv8, count: int, control: bv8,
                       chrBank0: bv8, chrBank1: bv8, prgBank: bv8,
                       prgMode: int, chrMode: int)

  /** The mapper: its registers, the cartridge it reads PRG-ROM and
   *  CHR-ROM from, and its own 8 KiB CHR-RAM when the cartridge has no
   *  CHR-ROM. */
  datatype Board = Board(cart: Cart, regs: Regs, chrIsRam: bool, chr: seq<bv8>)

  const BankSize: int := 0x4000

  predicate BoardValid(b: Board)
  {
    && Valid(b.cart)
    && b.chrIsRam == (b.cart.header.chrKib == 0)
    && (b.chrIsRam ==> |b.chr| == 0x2000)
  }

  /** What every reachable register state satisfies. */
  predicate Inv(r: Regs)
  {
    && 0 <= r.count <= 4
    && r.shift < 32
    && (r.count == 0 ==> r.shift == 0)
    && r.control & 0x0C == 0x0C
    && r.prgMode == 3
    && r.chrMode == ((r.control >> 4) & 1) as int
    && r.prgBank < 16
  }

  const PowerOn: Regs := Regs(0, 0, 0x0C, 0, 0, 0, 3, 0)

  /** `mapper_mmc1_create`: a zeroed CHR-RAM when the cartridge has no
   *  CHR-ROM, and the power-on registers. */
  function Create(c: Cart): (r: Board)
    requires Valid(c)
    ensures BoardValid(r) && Inv(r.regs)
    ensures r.cart == c && r.chrIsRam == (c.header.chrKib == 0)
    ensures r.chrIsRam ==> forall i :: 0 <= i < |r.chr| ==> r.chr[i] == 0
  {
    Board(c, PowerOn, KiB(c.header.chrKib) == 0,
          if KiB(c.header.chrKib) == 0 then Zeros(0x2000) else [])
  }

  /** `prg_size` and `prg_bank_count`. */
  function PrgSize(b: Board): nat { |b.cart.prgRom| }

  function BankCount(b: Board): (n: nat)
    requires BoardValid(b)
    ensures n >= 1 && n * BankSize == PrgSize(b)
  {
    PrgSize(b) / BankSize
  }

  /** The PRG offset, before the final `% prg_size`, for each PRG mode.
   *  Outside the 32 KiB modes it already lies inside the image, so the
   *  final reduction changes nothing there. */
  function PrgOffset(b: Board, addr: Addr): (off: nat)
    requires BoardValid(b) && addr >= 0x8000
    ensures !(b.regs.prgMode == 0 || b.regs.prgMode == 1) ==> off < PrgSize(b)
  {
    var r := b.regs;
    if r.prgMode == 0 || r.prgMode == 1 then
      var bank16 := (r.prgBank & 0xFE) as int;
      if addr < 0xC000 then bank16 * BankSize + (addr - 0x8000)
      else (bank16 + 1) * BankSize + (addr - 0xC000)
    else if r.prgMode == 2 then
      if addr < 0xC000 then addr - 0x8000
      else (r.prgBank as int % BankCount(b)) * BankSize + (addr - 0xC000)
    else
      if addr < 0xC000 then (r.prgBank as int % BankCount(b)) * BankSize + (addr - 0x8000)
      else (BankCount(b) - 1) * BankSize + (addr - 0xC000)
  }

  /** `mmc1_cpu_read`: open bus below $8000 (the mapper has no PRG-RAM
   *  window), otherwise a PRG-ROM byte. */
  function CpuRead(b: Board, addr: Addr): (r: bv8)
    requires BoardValid(b)
    ensures addr < 0x8000 ==> r == 0xFF
  {
    if addr < 0x8000 then 0xFF
    else b.cart.prgRom[PrgOffset(b, addr) % PrgSize(b)]
  }

  /** In mode 3 the bank chosen by the PRG register (reduced modulo the
   *  bank count) appears at $8000-$BFFF ... */
  lemma SwitchableBankAt8000(b: Board, addr: Addr)
    requires BoardValid(b) && Inv(b.regs) && 0x8000 <= addr < 0xC000
    ensures CpuRead(b, addr) ==
      b.cart.prgRom[(b.regs.prgBank as int % BankCount(b)) * BankSize + (addr - 0x8000)]
  {
    var k, off := b.regs.prgBank as int % BankCount(b), addr - 0x8000;
    MulMonotone(k + 1, BankCount(b), BankSize);
    ModUnique(k * BankSize + off, PrgSize(b), 0, k * BankSize + off);
  }

  /** ... and the last bank of the image is fixed at $C000-$FFFF. */
  lemma LastBankAtC000(b: Board, addr: Addr)
    requires BoardValid(b) && Inv(b.regs) && addr >= 0xC000
    ensures CpuRead(b, addr) == b.cart.prgRom[PrgSize(b) - BankSize + (addr - 0xC000)]
  {
    var off := addr - 0xC000;
    ModUnique((BankCount(b) - 1) * BankSize + off, PrgSize(b), 0, PrgSize(b) - BankSize + off);
  }

  /** `mmc1_write_control`: bits 2 and 3 are forced on, and the cached
   *  PRG and CHR modes are recomputed from the stored value. */
  function WriteControl(r: Regs, v: bv8): (r': Regs)
    ensures r'.control == v | 0x0C && r'.prgMode == 3
    ensures r'.chrMode == (if v & 0x10 != 0 then 1 else 0)
    ensures r' == r.(control := r'.control, prgMode := r'.prgMode, chrMode := r'.chrMode)
  {
    r.(control := v | 0x0C,
       prgMode := (((v | 0x0C) >> 2) & 3) as int,
       chrMode := (((v | 0x0C) >> 4) & 1) as int)
  }

  /** One serial bit: the register moves right and bit 0 of the written
   *  value enters at bit 4. */
  function ShiftIn(shift: bv8, value: bv8): (r: bv8)
    ensures r & 0x0F == (shift >> 1) & 0x0F
    ensures r >> 4 == (shift >> 5) | (value & 1)
  {
    (shift >> 1) | ((value & 1) << 4)
  }

  /** The fifth write stores the assembled value in the register its
   *  address selects. */
  function Load(r: Regs, addr: Addr, data: bv8): (r': Regs)
    requires addr >= 0x8000
    ensures addr < 0xA000 ==> r' == WriteControl(r, data)
    ensures 0xA000 <= addr < 0xC000 ==> r' == r.(chrBank0 := data)
    ensures 0xC000 <= addr < 0xE000 ==> r' == r.(chrBank1 := data)
    ensures addr >= 0xE000 ==> r' == r.(prgBank := data & 0x0F)
  {
    if addr < 0xA000 then WriteControl(r, data)
    else if addr < 0xC000 then r.(chrBank0 := data)
    else if addr < 0xE000 then r.(chrBank1 := data)
    else r.(prgBank := data & 0x0F)
  }

  /** `mmc1_cpu_write` on the registers. */
  function WriteRegs(r: Regs, addr: Addr, value: bv8): (r': Regs)
    ensures addr < 0x8000 ==> r' == r
    ensures addr >= 0x8000 && value & 0x80 != 0 ==>
      r' == WriteControl(r.(shift := 0, count := 0), r.control | 0x0C)
    ensures addr >= 0x8000 && value & 0x80 == 0 && r.count + 1 != 5 ==>
      r' == r.(shift := ShiftIn(r.shift, value), count := r.count + 1)
    ensures addr >= 0x8000 && value & 0x80 == 0 && r.count + 1 == 5 ==>
      r' == Load(r.(shift := 0, count := 0), addr, ShiftIn(r.shift, value))
  {
    if addr < 0x8000 then r
    else if value & 0x80 != 0 then WriteControl(r.(shift := 0, count := 0), r.control | 0x0C)
    else if r.count + 1 == 5 then Load(r.(shift := 0, count := 0), addr, ShiftIn(r.shift, value))
    else r.(shift := ShiftIn(r.shift, value), count := r.count + 1)
  }

  function CpuWrite(b: Board, addr: Addr, value: bv8): (r: Board)
    ensures r == b.(regs := r.regs)
    ensures r.regs == WriteRegs(b.regs, addr, value)
  {
    b.(regs := WriteRegs(b.regs, addr, value))
  }

  /** The power-on registers satisfy the invariant, and every write keeps
   *  it. */
  lemma PowerOnInv()
    ensures Inv(PowerOn)
  {
  }

  lemma WriteKeepsInv(r: Regs, addr: Addr, value: bv8)
    requires Inv(r)
    ensures Inv(WriteRegs(r, addr, value))
  {
    if addr >= 0x8000 && value & 0x80 == 0 {
      ShiftBounded(r.shift, value);
      if r.count + 1 == 5 {
        LoadKeepsInv(r.(shift := 0, count := 0), addr, ShiftIn(r.shift, value));
      }
    }
  }

  lemma ShiftBounded(shift: bv8, value: bv8)
    requires shift < 32
    ensures ShiftIn(shift, value) < 32
  {
  }

  lemma LoadKeepsInv(r: Regs, addr: Addr, data: bv8)
    requires Inv(r) && r.count == 0 && addr >= 0x8000
    ensures Inv(Load(r, addr, data))
  {
  }

  /** A reset write (bit 7 set) abandons a partial sequence and leaves the
   *  control register as it was. */
  lemma ResetWrite(r: Regs, addr: Addr, value: bv8)
    requires Inv(r) && addr >= 0x8000 && value & 0x80 != 0
    ensures WriteRegs(r, addr, value) == r.(shift := 0, count := 0)
  {
  }

  /** The value five serial writes deliver: bit i is bit 0 of the i-th
   *  written value. */
  function Serial(v0: bv8, v1: bv8, v2: bv8, v3: bv8, v4: bv8): (d: bv8)
    ensures d < 32
    ensures d & 1 == v0 & 1 && (d >> 1) & 1 == v1 & 1 && (d >> 2) & 1 == v2 & 1
    ensures (d >> 3) & 1 == v3 & 1 && (d >> 4) & 1 == v4 & 1
  {
    (v0 & 1) | ((v1 & 1) << 1) | ((v2 & 1) << 2) | ((v3 & 1) << 3) | ((v4 & 1) << 4)
  }

  /** Shifting five bits into an empty register assembles them LSB first. */
  lemma ShiftFive(v0: bv8, v1: bv8, v2: bv8, v3: bv8, v4: bv8)
    ensures ShiftIn(ShiftIn(ShiftIn(ShiftIn(ShiftIn(0, v0), v1), v2), v3), v4)
            == Serial(v0, v1, v2, v3, v4)
  {
  }

  /** Five writes without bit 7, starting from an empty shift register,
   *  load the assembled value into the register chosen by the address of
   *  the fifth write; the addresses of the first four do not matter. */
  lemma {:induction false} FiveWrites(r: Regs, a0: Addr, a1: Addr, a2: Addr, a3: Addr, a4: Addr,
                                      v0: bv8, v1: bv8, v2: bv8, v3: bv8, v4: bv8)
    requires Inv(r) && r.count == 0
    requires a0 >= 0x8000 && a1 >= 0x8000 && a2 >= 0x8000 && a3 >= 0x8000 && a4 >= 0x8000
    requires v0 & 0x80 == 0 && v1 & 0x80 == 0 && v2 & 0x80 == 0 && v3 & 0x80 == 0 && v4 & 0x80 == 0
    ensures WriteRegs(WriteRegs(WriteRegs(WriteRegs(WriteRegs(r, a0, v0), a1, v1), a2, v2), a3, v3), a4, v4)
            == Load(r, a4, Serial(v0, v1, v2, v3, v4))
  {
    var s1 := WriteRegs(r, a0, v0);
    assert s1 == r.(shift := ShiftIn(0, v0), count := 1);
    var s2 := WriteRegs(s1, a1, v1);
    assert s2 == r.(shift := ShiftIn(ShiftIn(0, v0), v1), count := 2);
    var s3 := WriteRegs(s2, a2, v2);
    assert s3 == r.(shift := ShiftIn(ShiftIn(ShiftIn(0, v0), v1), v2), count := 3);
    var s4 := WriteRegs(s3, a3, v3);
    assert s4 == r.(shift := ShiftIn(ShiftIn(ShiftIn(ShiftIn(0, v0), v1), v2), v3), count := 4);
    ShiftFive(v0, v1, v2, v3, v4);
  }

  /** The CHR size the offsets are reduced by: 8 KiB of CHR-RAM, or the
   *  CHR-ROM size. */
  function ChrSize(b: Board): (n: nat)
    requires BoardValid(b)
    ensures n >= 1
    ensures b.chrIsRam ==> n == |b.chr|
    ensures !b.chrIsRam ==> n == |b.cart.chrRom.value|
  {
    if b.chrIsRam then 0x2000 else KiB(b.cart.header.chrKib)
  }

  /** The CHR offset before `% size`: one 8 KiB bank (`chr_bank0 & ~1`) in
   *  CHR mode 0, two independent 4 KiB banks in mode 1. */
  function ChrOffset(r: Regs, addr: Addr): (off: nat)
    ensures addr < 0x2000 && r.chrMode == 0 ==>
      off / 0x2000 == (r.chrBank0 & 0xFE) as int && off % 0x2000 == addr
    ensures addr < 0x2000 && r.chrMode != 0 ==>
      off / 0x1000 == (if addr < 0x1000 then r.chrBank0 else r.chrBank1) as int && off % 0x1000 == addr % 0x1000
  {
    if r.chrMode == 0 then (r.chrBank0 & 0xFE) as int * 0x2000 + addr
    else if addr < 0x1000 then r.chrBank0 as int * 0x1000 + addr
    else r.chrBank1 as int * 0x1000 + (addr - 0x1000)
  }

  function ChrIndex(b: Board, addr: Addr): (i: nat)
    requires BoardValid(b)
    ensures i < ChrSize(b)
  {
    ChrOffset(b.regs, addr) % ChrSize(b)
  }

  /** `mmc1_chr_read`. */
  function ChrRead(b: Board, addr: Addr): bv8
    requires BoardValid(b)
  {
    if b.chrIsRam then b.chr[ChrIndex(b, addr)]
    else b.cart.chrRom.value[ChrIndex(b, addr)]
  }

  /** `mmc1_chr_write`: CHR-ROM is read-only. */
  function ChrWrite(b: Board, addr: Addr, v: bv8): (r: Board)
    requires BoardValid(b)
    ensures BoardValid(r)
    ensures !b.chrIsRam ==> r == b
    ensures b.chrIsRam ==> r == b.(chr := r.chr) && |r.chr| == |b.chr|
    ensures b.chrIsRam ==> forall i :: 0 <= i < |b.chr| && i != ChrIndex(b, addr) ==> r.chr[i] == b.chr[i]
  {
    if b.chrIsRam then b.(chr := b.chr[ChrIndex(b, addr) := v]) else b
  }

  /** CHR-RAM returns what was written at the same PPU address. */
  lemma ChrRamRoundTrip(b: Board, addr: Addr, v: bv8)
    requires BoardValid(b) && b.chrIsRam
    ensures ChrRead(ChrWrite(b, addr, v), addr) == v
  {
  }

  /** With 8 KiB of CHR-RAM in CHR mode 0 the bank register has no effect:
   *  the pattern tables are the RAM itself. */
  lemma ChrRam8KibIgnoresBank(b: Board, addr: Addr)
    requires BoardValid(b) && b.chrIsRam && b.regs.chrMode == 0 && addr < 0x2000
    ensures ChrRead(b, addr) == b.chr[addr]
  {
    var k := (b.regs.chrBank0 & 0xFE) as int;
    ModUnique(k * 0x2000 + addr, 0x2000, k, addr);
  }
}
