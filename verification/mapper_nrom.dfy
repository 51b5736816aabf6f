/**
 * Mapper 0 (NROM) of src/mapper_nrom.c: PRG-ROM at $8000-$FFFF, masked to
 * its size so that a 16 KiB image appears twice; optional PRG-RAM at
 * $6000-$7FFF; CHR-ROM, or 8 KiB of CHR-RAM when the cartridge has none,
 * on the PPU side.  The mapper keeps no state of its own: everything it
 * reads or writes lives in the cartridge.
 */
module Nrom {
  import opened Bits
  import opened Cartridge

  /** The PRG-ROM offset for a CPU address at or above $8000: the offset
   *  from $8000 masked with `size - 1`. */
  function PrgIndex(c: Cart, addr: Addr): (i: nat)
    requires Valid(c) && addr >= 0x8000
    ensures i < |c.prgRom| && i <= addr - 0x8000
  {
    Masked(addr - 0x8000, |c.prgRom|)
  }

  /** An offset ANDed with `size - 1`: in range, and never beyond the
   *  offset itself. */
  function Masked(off: nat, size: nat): (i: nat)
    requires size >= 1
    ensures i < size && i <= off
  {
    BitAndBound(off, size - 1);
    BitAndBoundLeft(off, size - 1);
    BitAnd(off, size - 1)
  }

  /** `nrom_cpu_read`: open bus (0xFF) below $6000 and in the PRG-RAM
   *  window of a cartridge without PRG-RAM. */
  function CpuRead(c: Cart, addr: Addr): (r: bv8)
    requires Valid(c)
    ensures addr < 0x6000 ==> r == 0xFF
    ensures 0x6000 <= addr < 0x8000 && c.prgRam.None? ==> r == 0xFF
    ensures 0x6000 <= addr < 0x8000 && c.prgRam.Some? ==> r == c.prgRam.value[addr - 0x6000]
    ensures addr >= 0x8000 ==> r == c.prgRom[PrgIndex(c, addr)]
  {
    if addr < 0x6000 then 0xFF
    else if addr < 0x8000 then
      (if c.prgRam.Some? then c.prgRam.value[addr - 0x6000] else 0xFF)
    else c.prgRom[PrgIndex(c, addr)]
  }

  /** When PRG-ROM is 2^k bytes, the mask is reduction modulo its size. */
  lemma PrgIndexIsMod(c: Cart, addr: Addr, k: nat)
    requires Valid(c) && addr >= 0x8000 && |c.prgRom| == Pow2(k)
    ensures PrgIndex(c, addr) == (addr - 0x8000) % |c.prgRom|
  {
    BitAndLowMask(addr - 0x8000, k);
    LowBitsIsMod(addr - 0x8000, k);
  }

  /** NROM-128: the 16 KiB bank is visible at $8000 and again at $C000. */
  lemma Nrom128Mirrors(c: Cart, addr: Addr)
    requires Valid(c) && c.header.prgKib == 16 && 0x8000 <= addr < 0xC000
    ensures CpuRead(c, addr) == c.prgRom[addr - 0x8000]
    ensures CpuRead(c, addr + 0x4000) == CpuRead(c, addr)
  {
    var off := addr - 0x8000;
    Pow2Sizes();
    PrgIndexIsMod(c, addr, 14);
    PrgIndexIsMod(c, addr + 0x4000, 14);
    ModUnique(off, |c.prgRom|, 0, off);
    assert (addr + 0x4000) as int - 0x8000 == off + 0x4000;
    ModUnique(off + 0x4000, |c.prgRom|, 1, off);
  }

  /** NROM-256: the 32 KiB image is mapped linearly. */
  lemma Nrom256Linear(c: Cart, addr: Addr)
    requires Valid(c) && c.header.prgKib == 32 && addr >= 0x8000
    ensures CpuRead(c, addr) == c.prgRom[addr - 0x8000]
  {
    Pow2Sizes();
    PrgIndexIsMod(c, addr, 15);
    ModUnique(addr - 0x8000, |c.prgRom|, 0, addr - 0x8000);
  }

  /** `nrom_cpu_write`: only the PRG-RAM window of a cartridge with PRG-RAM
   *  is writable; anything else leaves the cartridge as it was. */
  function CpuWrite(c: Cart, addr: Addr, v: bv8): (r: Cart)
    requires Valid(c)
    ensures Valid(r)
    ensures !(0x6000 <= addr < 0x8000 && c.prgRam.Some?) ==> r == c
    ensures 0x6000 <= addr < 0x8000 && c.prgRam.Some? ==>
      r == c.(prgRam := Some(c.prgRam.value[addr - 0x6000 := v]))
  {
    if 0x6000 <= addr < 0x8000 && c.prgRam.Some? then
      c.(prgRam := Some(c.prgRam.value[addr - 0x6000 := v]))
    else c
  }

  /** A byte written to PRG-RAM reads back. */
  lemma PrgRamRoundTrip(c: Cart, addr: Addr, v: bv8)
    requires Valid(c) && c.prgRam.Some? && 0x6000 <= addr < 0x8000
    ensures CpuRead(CpuWrite(c, addr, v), addr) == v
  {
  }

  /** A write reaches one CPU address at most: every other reads as before. */
  lemma CpuWriteElsewhere(c: Cart, addr: Addr, v: bv8, other: Addr)
    requires Valid(c) && other != addr
    ensures CpuRead(CpuWrite(c, addr, v), other) == CpuRead(c, other)
  {
  }

  /** The CHR offset: the PPU address folded into $0000-$1FFF (`& 0x1FFF`
   *  on a 16-bit value, written here as the remainder modulo 0x2000), then
   *  masked with the CHR-ROM size, or with 8 KiB for CHR-RAM. */
  function ChrIndex(c: Cart, addr: Addr): (i: nat)
    requires Valid(c)
    ensures c.chrRom.None? ==> i == addr % 0x2000 && i < |c.chrRam|
    ensures c.chrRom.Some? ==> i < |c.chrRom.value| && i <= addr % 0x2000
  {
    if c.chrRom.None? then addr % 0x2000
    else Masked(addr % 0x2000, |c.chrRom.value|)
  }

  /** `nrom_chr_read`. */
  function ChrRead(c: Cart, addr: Addr): (r: bv8)
    requires Valid(c)
    ensures c.chrRom.None? ==> r == c.chrRam[addr % 0x2000]
    ensures c.chrRom.Some? ==> r == c.chrRom.value[ChrIndex(c, addr)]
  {
    if c.chrRom.None? then c.chrRam[ChrIndex(c, addr)]
    else c.chrRom.value[ChrIndex(c, addr)]
  }

  /** An 8 KiB CHR-ROM fills the pattern tables exactly. */
  lemma ChrRom8Linear(c: Cart, addr: Addr)
    requires Valid(c) && c.header.chrKib == 8 && addr < 0x2000
    ensures ChrRead(c, addr) == c.chrRom.value[addr]
  {
    Pow2Sizes();
    var off := addr % 0x2000;
    assert off == addr;
    BitAndLowMask(off, 13);
    LowBitsSmall(off, 13);
    assert Masked(off, 0x2000) == off;
    assert |c.chrRom.value| == 0x2000;
  }

  /** `nrom_chr_write`: CHR-RAM is written, CHR-ROM is not. */
  function ChrWrite(c: Cart, addr: Addr, v: bv8): (r: Cart)
    requires Valid(c)
    ensures Valid(r)
    ensures c.chrRom.Some? ==> r == c
    ensures c.chrRom.None? ==> r == c.(chrRam := c.chrRam[addr % 0x2000 := v])
  {
    if c.chrRom.None? then c.(chrRam := c.chrRam[ChrIndex(c, addr) := v]) else c
  }

  /** CHR-RAM keeps what the PPU writes: the byte reads back at every
   *  address with the same low 13 bits, and other bytes are unchanged. */
  lemma ChrRamRoundTrip(c: Cart, addr: Addr, v: bv8, other: Addr)
    requires Valid(c) && c.chrRom.None?
    ensures ChrRead(ChrWrite(c, addr, v), other) ==
      (if other % 0x2000 == addr % 0x2000 then v else ChrRead(c, other))
  {
  }
}
