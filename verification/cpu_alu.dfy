/**
 * The 6502 status register P (NV-BDIZC) and the flag helpers of src/cpu.c:
 * `set_flag`, `set_ZN`, and the arithmetic cores `adc_core`, `sbc_core`,
 * `do_cpm`, together with the shift/rotate and BIT computations that the
 * `op_*` handlers perform inline.
 *
 * P is kept as eight named flags; `Pack` and `Unpack` convert to and from
 * the byte the source stores, with the bit assignment of its FLAG_*
 * constants.  Results are stated in bit-vector terms: a sum of two bytes
 * and a carry fits in 16 bits, so `a as bv16 + m as bv16 + c > 0xFF` is
 * exactly the arithmetic statement "A + M + C > 255".
 */
module Status {

  datatype Flags = Flags(n: bool, v: bool, u: bool, b: bool, d: bool, i: bool, z: bool, c: bool)

  /** The FLAG_* masks of the source. */
  const C: bv8 := 0x01
  const Z: bv8 := 0x02
  const I: bv8 := 0x04
  const D: bv8 := 0x08
  const B: bv8 := 0x10
  const U: bv8 := 0x20
  const V: bv8 := 0x40
  const N: bv8 := 0x80

  function Bit(on: bool, mask: bv8): bv8 { if on then mask else 0 }

  /** The byte P as the source stores it. */
  function Pack(f: Flags): (p: bv8)
    ensures (p & C != 0) == f.c && (p & Z != 0) == f.z && (p & I != 0) == f.i
    ensures (p & D != 0) == f.d && (p & B != 0) == f.b && (p & U != 0) == f.u
    ensures (p & V != 0) == f.v && (p & N != 0) == f.n
  {
    Bit(f.n, N) | Bit(f.v, V) | Bit(f.u, U) | Bit(f.b, B)
    | Bit(f.d, D) | Bit(f.i, I) | Bit(f.z, Z) | Bit(f.c, C)
  }

  /** The flags a status byte holds. */
  function Unpack(p: bv8): (f: Flags)
    ensures Pack(f) == p
  {
    Flags(p & N != 0, p & V != 0, p & U != 0, p & B != 0,
          p & D != 0, p & I != 0, p & Z != 0, p & C != 0)
  }

  lemma UnpackPack(f: Flags)
    ensures Unpack(Pack(f)) == f
  {
  }

  lemma PackUnpack(p: bv8)
    ensures Pack(Unpack(p)) == p
  {
  }

  /** `set_ZN`: Z iff the value is zero, N iff its bit 7 is set; the other
   *  six flags are untouched. */
  function SetZN(f: Flags, v: bv8): (r: Flags)
    ensures r.z <==> v == 0
    ensures r.n <==> v & 0x80 != 0
    ensures r == f.(z := r.z, n := r.n)
  {
    f.(z := v == 0, n := v & 0x80 != 0)
  }
}

module Alu {
  import opened Bits
  import opened Status

  /** A computed byte together with the flags after the operation. */
  datatype AluOut = AluOut(res: bv8, p: Flags)

  /** `adc_core`: binary add with carry.  The result is A + M + C modulo
   *  256, C reports an unsigned carry out, V reports that A and M have the
   *  same sign and the result has the other one.  Z and N are left to the
   *  caller, as in the source. */
  function AdcCore(a: bv8, m: bv8, p: Flags): (r: AluOut)
    ensures r.res == a + m + BitOf(p.c)
    ensures r.p.c <==> a as bv16 + m as bv16 + BitOf(p.c) as bv16 > 0xFF
    ensures r.p.v <==> (Neg(a) == Neg(m) && Neg(r.res) != Neg(a))
    ensures r.p == p.(c := r.p.c, v := r.p.v)
  {
    AdcOf(a, m, p, a as bv16 + m as bv16 + BitOf(p.c) as bv16)
  }

  /** The tail of `adc_core` once `sum16` is known. */
  function AdcOf(a: bv8, m: bv8, p: Flags, sum16: bv16): AluOut
  {
    AluOut((sum16 & 0xFF) as bv8,
           p.(c := sum16 > 0xFF,
              v := (!(a ^ m)) & (a ^ (sum16 & 0xFF) as bv8) & 0x80 != 0))
  }

  /** `sbc_core`: ADC of the complemented operand.  C acts as "no borrow":
   *  the result is A - M - (1 - C) modulo 256 and C is set iff
   *  A >= M + (1 - C); V is set iff A and M differ in sign and the result's
   *  sign differs from A's. */
  function SbcCore(a: bv8, m: bv8, p: Flags): (r: AluOut)
    ensures r == AdcCore(a, m ^ 0xFF, p)
    ensures r.res == a - m - BitOf(!p.c)
    ensures r.p.c <==> a as bv16 >= m as bv16 + BitOf(!p.c) as bv16
    ensures r.p.v <==> (Neg(a) != Neg(m) && Neg(r.res) != Neg(a))
    ensures r.p == p.(c := r.p.c, v := r.p.v)
  {
    SbcResult(a, m, p);
    SbcCarry(a, m, p);
    SbcOverflow(a, m, p);
    AdcCore(a, m ^ 0xFF, p)
  }

  lemma SbcResult(a: bv8, m: bv8, p: Flags)
    ensures AdcCore(a, m ^ 0xFF, p).res == a - m - BitOf(!p.c)
  {
    ComplementAdd(a, m, p.c);
  }

  /** Adding the one's complement with carry is subtracting with borrow. */
  lemma ComplementAdd(a: bv8, m: bv8, carry: bool)
    ensures a + (m ^ 0xFF) + BitOf(carry) == a - m - BitOf(!carry)
  {
  }

  lemma SbcCarry(a: bv8, m: bv8, p: Flags)
    ensures AdcCore(a, m ^ 0xFF, p).p.c <==> a as bv16 >= m as bv16 + BitOf(!p.c) as bv16
  {
  }

  lemma SbcOverflow(a: bv8, m: bv8, p: Flags)
    ensures AdcCore(a, m ^ 0xFF, p).p.v <==> (Neg(a) != Neg(m) && Neg(AdcCore(a, m ^ 0xFF, p).res) != Neg(a))
  {
  }

  /** The carry of ADC as a statement about unbounded integers. */
  lemma AdcCarryIsUnsignedOverflow(a: bv8, m: bv8, p: Flags)
    ensures AdcCore(a, m, p).p.c <==> a as int + m as int + (if p.c then 1 else 0) > 255
  {
  }

  /** `do_cpm`: compare a register with an operand without changing it.
   *  C iff reg >= operand (unsigned), Z iff they are equal, N is bit 7 of
   *  the difference modulo 256. */
  function Compare(reg: bv8, m: bv8, p: Flags): (r: Flags)
    ensures r.c <==> reg >= m
    ensures r.z <==> reg == m
    ensures r.n <==> Neg(reg - m)
    ensures r == p.(c := r.c, z := r.z, n := r.n)
  {
    SetZN(p.(c := reg >= m), ((reg as bv16 - m as bv16) & 0xFF) as bv8)
  }

  /** ASL: C receives bit 7, the byte doubles modulo 256. */
  function Asl(v: bv8, p: Flags): (r: AluOut)
    ensures r.res == v + v
    ensures r.p == p.(c := Neg(v))
  {
    AluOut(v << 1, p.(c := v & 0x80 != 0))
  }

  /** LSR: C receives bit 0, the byte halves; 2 * result + C rebuilds it. */
  function Lsr(v: bv8, p: Flags): (r: AluOut)
    ensures r.res < 0x80
    ensures r.res + r.res + BitOf(r.p.c) == v
    ensures r.p == p.(c := r.p.c)
  {
    AluOut(v >> 1, p.(c := v & 0x01 != 0))
  }

  /** ROL: shift left through the carry, the old C entering at bit 0. */
  function Rol(v: bv8, p: Flags): (r: AluOut)
    ensures r.res == v + v + BitOf(p.c)
    ensures r.p == p.(c := Neg(v))
  {
    AluOut((v << 1) | BitOf(p.c), p.(c := v & 0x80 != 0))
  }

  /** ROR: shift right through the carry, the old C entering at bit 7. */
  function Ror(v: bv8, p: Flags): (r: AluOut)
    ensures Neg(r.res) == p.c
    ensures (r.res & 0x7F) + (r.res & 0x7F) + BitOf(r.p.c) == v
    ensures r.p == p.(c := r.p.c)
  {
    AluOut(RorByte(v, p.c), p.(c := v & 0x01 != 0))
  }

  function RorByte(v: bv8, carry: bool): (r: bv8)
    ensures Neg(r) == carry
    ensures (r & 0x7F) + (r & 0x7F) + BitOf(v & 0x01 != 0) == v
  {
    (v >> 1) | (BitOf(carry) << 7)
  }

  /** ROL and ROR undo each other, value and carry together. */
  lemma RorUndoesRol(v: bv8, p: Flags)
    ensures Ror(Rol(v, p).res, Rol(v, p).p) == AluOut(v, p)
  {
  }

  lemma RolUndoesRor(v: bv8, p: Flags)
    ensures Rol(Ror(v, p).res, Ror(v, p).p) == AluOut(v, p)
  {
  }

  /** BIT: Z from A AND M, V and N copied from bits 6 and 7 of M; A is not
   *  changed and C, I, D, B, U are kept. */
  function BitTest(a: bv8, m: bv8, p: Flags): (r: Flags)
    ensures r.z <==> a & m == 0
    ensures r.v <==> m & 0x40 != 0
    ensures r.n <==> Neg(m)
    ensures r == p.(z := r.z, v := r.v, n := r.n)
  {
    p.(z := a & m == 0, v := m & 0x40 != 0, n := m & 0x80 != 0)
  }

  /** The three ADC cases and two SBC cases exercised by the repository's
   *  own CPU test program. */
  lemma AdcSbcExamples(p: Flags)
    ensures AdcCore(0x50, 0x10, p.(c := false)).res == 0x60
    ensures !AdcCore(0x50, 0x10, p.(c := false)).p.c && !AdcCore(0x50, 0x10, p.(c := false)).p.v
    ensures AdcCore(0x50, 0x50, p.(c := false)).res == 0xA0 && AdcCore(0x50, 0x50, p.(c := false)).p.v
    ensures AdcCore(0xFF, 0x01, p.(c := false)).res == 0x00 && AdcCore(0xFF, 0x01, p.(c := false)).p.c
    ensures SbcCore(0x40, 0x10, p.(c := true)).res == 0x30 && SbcCore(0x40, 0x10, p.(c := true)).p.c
    ensures SbcCore(0x30, 0x40, p.(c := true)).res == 0xF0 && !SbcCore(0x30, 0x40, p.(c := true)).p.c
  {
  }
}
