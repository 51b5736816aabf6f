/**
 * The iNES header decode of src/cartridge.c (`valid_signature` and the
 * field extraction inside `read_allocate_cartridge`) and the cartridge
 * image it produces: PRG-ROM, optional CHR-ROM, PRG-RAM and CHR-RAM.
 *
 * The loader's file handling is reduced to its outcome: given the file's
 * bytes, either the image the reads would fill in, or the first check
 * that makes the loader exit.
 */
module Cartridge {
  import opened Bits
  import opened Ppu

  /** Why the loader gives up, in the order it checks. */
  datatype LoadError =
    | ZeroPrg            // header byte 4 is 0: no PRG-ROM
    | UnsupportedFormat  // flags 7 format field is not iNES 1.0
    | Truncated          // the file ends before the CHR-ROM does

  datatype Result<T> = Ok(value: T) | Err(error: LoadError)

  /** The decoded header.  Sizes are in KiB, as the source stores them in
   *  its `*_size_bytes` fields. */
  datatype Header = Header(validSignature: bool,
                           prgKib: nat, chrKib: nat,
                           battery: bool, trainer: bool,
                           mirroring: Mirror, mapperId: nat,
                           kind: nat, prgRamKib: nat, pal: bool)

  /** A loaded cartridge.  `chrRom` is None when the header declares no
   *  CHR-ROM; then the 8 KiB `chrRam` is used instead. */
  datatype Cart = Cart(header: Header,
                       prgRom: seq<bv8>, chrRom: Option<seq<bv8>>,
                       prgRam: Option<seq<bv8>>, chrRam: seq<bv8>)

  /** The source's KIB macro: a size in KiB as a byte count. */
  function KiB(n: nat): nat { 1024 * n }

  const ChrRamSize: nat := 0x2000

  /** What the mappers rely on: the buffers have the sizes the header
   *  declares, and PRG-ROM is a whole number of 16 KiB banks. */
  predicate Valid(c: Cart)
  {
    && c.header.prgKib >= 16 && c.header.prgKib % 16 == 0
    && |c.prgRom| == KiB(c.header.prgKib)
    && (c.chrRom.Some? <==> c.header.chrKib > 0)
    && (c.chrRom.Some? ==> |c.chrRom.value| == KiB(c.header.chrKib))
    && (c.chrRom.None? ==> |c.chrRam| == ChrRamSize)
    && (c.prgRam.Some? ==> |c.prgRam.value| >= ChrRamSize)
  }

  /** `valid_signature`: at least four bytes, spelling "NES" and 0x1A. */
  function ValidSignature(buf: seq<bv8>): (r: bool)
    ensures r <==> |buf| >= 4 && buf[0] == 'N' as bv8 && buf[1] == 'E' as bv8
                   && buf[2] == 'S' as bv8 && buf[3] == 0x1A
  {
    if |buf| < 4 then false
    else Signature(buf[0], buf[1], buf[2], buf[3]) == 0x1A53454E
  }

  /** The first four bytes read as a little-endian 32-bit word. */
  function Signature(b0: bv8, b1: bv8, b2: bv8, b3: bv8): bv32
  {
    b0 as bv32 | (b1 as bv32 << 8) | (b2 as bv32 << 16) | (b3 as bv32 << 24)
  }

  /** The mirroring field as written: bit 0 and bit 3 of flags 6 are
   *  added as integers and the sum read as `enum mirror_type`. */
  function MirroringAsWritten(flags6: bv8): (r: Mirror)
    ensures r.Vertical? <==> flags6 & 0x09 == 0
    ensures r.Horizontal? <==> flags6 & 0x09 == 0x01 || flags6 & 0x09 == 0x08
    ensures r.FourScreen? <==> flags6 & 0x09 == 0x09
  {
    var sum := (if flags6 & 0x01 != 0 then 1 else 0) + (if flags6 & 0x08 != 0 then 1 else 0);
    if sum == 0 then Vertical else if sum == 1 then Horizontal else FourScreen
  }

  /** Bit 3 alone (a four-screen cartridge) and bit 0 alone (the iNES
   *  "vertical" bit) both come out as horizontal mirroring. */
  lemma MirroringAsWrittenMisreads()
    ensures MirroringAsWritten(0x08) == Horizontal
    ensures MirroringAsWritten(0x01) == Horizontal
    ensures MirroringAsWritten(0x00) == Vertical
  {
  }

  /** The mirroring the flag names describe: bit 3 selects four-screen,
   *  otherwise bit 0 selects vertical and its absence horizontal. */
  function Mirroring(flags6: bv8): (r: Mirror)
    ensures r.FourScreen? <==> flags6 & 0x08 != 0
    ensures r.Vertical? <==> flags6 & 0x08 == 0 && flags6 & 0x01 != 0
    ensures r.Horizontal? <==> flags6 & 0x09 == 0
  {
    if flags6 & 0x08 != 0 then FourScreen
    else if flags6 & 0x01 != 0 then Vertical
    else Horizontal
  }

  /** The value as written agrees with the intended mirroring only when
   *  both bits are set; every other flags 6 byte decodes wrongly. */
  lemma MirroringAgreement(flags6: bv8)
    ensures MirroringAsWritten(flags6) == Mirroring(flags6) <==> flags6 & 0x09 == 0x09
  {
  }

  /** The mapper number: high nibble from flags 7, low nibble from the
   *  high nibble of flags 6. */
  function MapperId(flags6: bv8, flags7: bv8): (r: nat)
    ensures r < 256
    ensures r == (flags7 >> 4) as nat * 16 + (flags6 >> 4) as nat
  {
    assert flags7 & 0xF0 == (flags7 >> 4) << 4;
    assert (flags6 & 0xF0) >> 4 == flags6 >> 4;
    NibblesOr(flags7 >> 4, flags6 >> 4);
    ((flags7 & 0xF0) | ((flags6 & 0xF0) >> 4)) as nat
  }

  /** Or-ing a high nibble with a low nibble is adding them. */
  lemma NibblesOr(hi: bv8, lo: bv8)
    requires hi < 16 && lo < 16
    ensures ((hi << 4) | lo) as nat == hi as nat * 16 + lo as nat
  {
  }

  /** The format field `flags7 & 0x0C`.  It is compared with the enum
   *  values 0 (iNES 1.0) and 1 (NES 2.0); it can never equal 1, so only
   *  iNES 1.0 headers are accepted. */
  function Format(flags7: bv8): (r: bv8)
    ensures r in {0, 4, 8, 12}
    ensures r != 1
  {
    flags7 & 0x0C
  }

  /** PRG-RAM in KiB from header byte 8: 8 KiB per unit, and one unit
   *  when the byte is 0. */
  function PrgRamKib(units: bv8): (r: nat)
    ensures r >= 8 && r % 8 == 0
    ensures units != 0 ==> r / 8 == units as nat
  {
    if units == 0 then 8 else units as nat * 8
  }

  /** File offsets: the 16-byte header, the optional 512-byte trainer,
   *  then PRG-ROM, then CHR-ROM. */
  function PrgStart(trainer: bool): nat { 16 + (if trainer then 512 else 0) }

  function ChrStart(trainer: bool, prgKib: nat): nat { PrgStart(trainer) + KiB(prgKib) }

  function ChrEnd(trainer: bool, prgKib: nat, chrKib: nat): (r: nat)
    ensures r >= ChrStart(trainer, prgKib) >= PrgStart(trainer) >= 16
  {
    ChrStart(trainer, prgKib) + KiB(chrKib)
  }

  /** The header decode of `read_allocate_cartridge`.  An invalid
   *  signature is only recorded (the loader prints a warning and goes on);
   *  the three checks that end the loader are taken in its order. */
  function Decode(raw: seq<bv8>, fileSize: nat): (r: Result<Header>)
    requires |raw| == 16
    ensures r.Err? && r.error == ZeroPrg <==> raw[4] == 0
    ensures r.Err? && r.error == UnsupportedFormat <==> raw[4] != 0 && raw[7] & 0x0C != 0
    ensures r.Ok? <==> raw[4] != 0 && raw[7] & 0x0C == 0
                       && ChrEnd(raw[6] & 0x04 != 0, raw[4] as nat * 16, raw[5] as nat * 8) <= fileSize
    ensures r.Ok? ==> r.value.validSignature == ValidSignature(raw)
    ensures r.Ok? ==> r.value.prgKib == raw[4] as nat * 16 && r.value.chrKib == raw[5] as nat * 8
    ensures r.Ok? ==> r.value.battery == (raw[6] & 0x02 != 0) && r.value.trainer == (raw[6] & 0x04 != 0)
    ensures r.Ok? ==> r.value.mirroring == Mirroring(raw[6]) && r.value.mapperId == MapperId(raw[6], raw[7])
    ensures r.Ok? ==> r.value.kind == (raw[7] & 0x03) as nat && r.value.pal == (raw[9] & 0x01 != 0)
    ensures r.Ok? ==> r.value.prgRamKib == PrgRamKib(raw[8])
  {
    if raw[4] as nat * 16 == 0 then Err(ZeroPrg)
    else if Format(raw[7]) != 0 then Err(UnsupportedFormat)
    else if ChrEnd(raw[6] & 0x04 != 0, raw[4] as nat * 16, raw[5] as nat * 8) > fileSize then Err(Truncated)
    else Ok(Header(ValidSignature(raw), raw[4] as nat * 16, raw[5] as nat * 8,
                   raw[6] & 0x02 != 0, raw[6] & 0x04 != 0,
                   Mirroring(raw[6]), MapperId(raw[6], raw[7]),
                   (raw[7] & 0x03) as nat, PrgRamKib(raw[8]), raw[9] & 0x01 != 0))
  }

  function Zeros(n: nat): (r: seq<bv8>)
    ensures |r| == n && forall i :: 0 <= i < n ==> r[i] == 0
  {
    seq(n, i => 0)
  }

  /** The whole loader on a file's contents: decode the header, then cut
   *  PRG-ROM and CHR-ROM out of the file at the decoded offsets.  PRG-RAM
   *  is zeroed; CHR-RAM (left uninitialised by the loader) is zero here.
   *  A file shorter than the header cannot be decoded. */
  function Load(file: seq<bv8>): (r: Result<Cart>)
    ensures |file| < 16 ==> r == Err(Truncated)
    ensures |file| >= 16 ==> (r.Ok? <==> Decode(file[..16], |file|).Ok?)
    ensures r.Ok? ==> Valid(r.value)
    ensures r.Ok? ==> r.value.header == Decode(file[..16], |file|).value
    ensures r.Ok? ==> r.value.prgRom == file[PrgStart(r.value.header.trainer)..ChrStart(r.value.header.trainer, r.value.header.prgKib)]
    ensures r.Ok? && r.value.header.chrKib > 0 ==>
      r.value.chrRom == Some(file[ChrStart(r.value.header.trainer, r.value.header.prgKib)
                                  ..ChrEnd(r.value.header.trainer, r.value.header.prgKib, r.value.header.chrKib)])
  {
    if |file| < 16 then Err(Truncated)
    else
      match Decode(file[..16], |file|)
      case Err(e) => Err(e)
      case Ok(h) =>
        Ok(Cart(h,
                file[PrgStart(h.trainer)..ChrStart(h.trainer, h.prgKib)],
                if h.chrKib == 0 then None
                else Some(file[ChrStart(h.trainer, h.prgKib)..ChrEnd(h.trainer, h.prgKib, h.chrKib)]),
                Some(Zeros(KiB(h.prgRamKib))),
                if h.chrKib == 0 then Zeros(ChrRamSize) else []))
  }
}
