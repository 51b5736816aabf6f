/**
 * The mapper interface of src/headers/mapper.h and the factory of
 * src/mapper_factory.c: a cartridge gets NROM for mapper number 0, MMC1
 * for mapper number 1, and nothing otherwise.  The function-pointer table
 * becomes a datatype with one variant per mapper and a dispatch per slot.
 */
module Mapper {
  import opened Bits
  import opened Cartridge
  import Nrom
  import Mmc1

  datatype Mapper = NromBoard(cart: Cart) | Mmc1Board(board: Mmc1.Board)

  predicate MapperValid(m: Mapper)
  {
    match m
    case NromBoard(c) => Valid(c)
    case Mmc1Board(b) => Mmc1.BoardValid(b) && Mmc1.Inv(b.regs)
  }

  /** `create_mapper_for_cart`. */
  function Create(c: Cart): (r: Option<Mapper>)
    requires Valid(c)
    ensures r.Some? <==> c.header.mapperId == 0 || c.header.mapperId == 1
    ensures r.Some? ==> MapperValid(r.value)
    ensures c.header.mapperId == 0 ==> r == Some(NromBoard(c))
    ensures c.header.mapperId == 1 ==> r.Some? && r.value.Mmc1Board? && r.value.board.cart == c
  {
    if c.header.mapperId == 0 then Some(NromBoard(c))
    else if c.header.mapperId == 1 then Some(Mmc1Board(Mmc1.Create(c)))
    else None
  }

  /** `mapper_cpu_read`: the board's own read; below $6000 every board
   *  answers with open bus. */
  function CpuRead(m: Mapper, addr: Addr): (r: bv8)
    requires MapperValid(m)
    ensures addr < 0x6000 ==> r == 0xFF
  {
    match m
    case NromBoard(c) => Nrom.CpuRead(c, addr)
    case Mmc1Board(b) => Mmc1.CpuRead(b, addr)
  }

  function CpuWrite(m: Mapper, addr: Addr, v: bv8): (r: Mapper)
    requires MapperValid(m)
    ensures MapperValid(r)
    ensures r.NromBoard? == m.NromBoard?
  {
    match m
    case NromBoard(c) => NromBoard(Nrom.CpuWrite(c, addr, v))
    case Mmc1Board(b) =>
      Mmc1.WriteKeepsInv(b.regs, addr, v);
      Mmc1Board(Mmc1.CpuWrite(b, addr, v))
  }

  function ChrRead(m: Mapper, addr: Addr): bv8
    requires MapperValid(m)
  {
    match m
    case NromBoard(c) => Nrom.ChrRead(c, addr)
    case Mmc1Board(b) => Mmc1.ChrRead(b, addr)
  }

  function ChrWrite(m: Mapper, addr: Addr, v: bv8): (r: Mapper)
    requires MapperValid(m)
    ensures MapperValid(r)
  {
    match m
    case NromBoard(c) => NromBoard(Nrom.ChrWrite(c, addr, v))
    case Mmc1Board(b) => Mmc1Board(Mmc1.ChrWrite(b, addr, v))
  }

  /** Boards whose pattern memory is RAM. */
  predicate ChrIsRam(m: Mapper)
  {
    match m
    case NromBoard(c) => c.chrRom.None?
    case Mmc1Board(b) => b.chrIsRam
  }

  /** Through the dispatch, CHR-RAM returns the byte just written at the
   *  same PPU address, and a board with CHR-ROM ignores pattern writes. */
  lemma ChrRoundTrip(m: Mapper, addr: Addr, v: bv8)
    requires MapperValid(m)
    ensures ChrIsRam(m) ==> ChrRead(ChrWrite(m, addr, v), addr) == v
    ensures !ChrIsRam(m) ==> ChrWrite(m, addr, v) == m
  {
    match m
    case NromBoard(c) =>
      if c.chrRom.None? {
        Nrom.ChrRamRoundTrip(c, addr, v, addr);
      }
    case Mmc1Board(b) =>
      if b.chrIsRam {
        Mmc1.ChrRamRoundTrip(b, addr, v);
      }
  }

  /** The two mappers agree on a 32 KiB image straight after power-on:
   *  MMC1's mode 3 with PRG bank 0 puts bank 0 at $8000 and the last
   *  bank at $C000, which is NROM-256's linear map. */
  lemma Mmc1PowerOnIsNrom256(c: Cart, addr: Addr)
    requires Valid(c) && c.header.prgKib == 32 && addr >= 0x8000
    ensures Mmc1.CpuRead(Mmc1.Create(c), addr) == Nrom.CpuRead(c, addr)
  {
    Nrom.Nrom256Linear(c, addr);
    if addr < 0xC000 {
      Mmc1.SwitchableBankAt8000(Mmc1.Create(c), addr);
    } else {
      Mmc1.LastBankAtC000(Mmc1.Create(c), addr);
    }
  }

  /** A write through the dispatch never reaches a different mapper's
   *  PRG-ROM. */
  lemma WritesKeepPrgRom(m: Mapper, addr: Addr, v: bv8)
    requires MapperValid(m)
    ensures m.NromBoard? ==> CpuWrite(m, addr, v).cart.prgRom == m.cart.prgRom
    ensures m.Mmc1Board? ==> CpuWrite(m, addr, v).board.cart == m.board.cart
  {
  }
}
