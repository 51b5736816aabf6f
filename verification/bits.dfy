/**
 * Fixed-width helpers shared by every component of the emulator model:
 * byte/word packing for the 6502's little-endian 16-bit values, the
 * Option type used where a C lookup can fall outside its table, and a
 * bitwise AND on naturals for the cartridge-side index masks, which the
 * C code computes on `uint32_t`/`size_t` quantities.
 */
module Bits {

  datatype Option<T> = None | Some(value: T)

  /** A 16-bit address as a number, for the cartridge-side index
   *  arithmetic (offsets, bank products, masks). */
  type Addr = a: int | 0 <= a < 0x1_0000

  /** A `uint8_t` as a number, for the APU's integer registers. */
  type Byte = b: int | 0 <= b < 0x100

  /** Low byte of a word, `(uint8_t)(w & 0xFF)`. */
  function Lo(w: bv16): bv8 { (w & 0xFF) as bv8 }

  /** High byte of a word, `(uint8_t)(w >> 8)`. */
  function Hi(w: bv16): bv8 { (w >> 8) as bv8 }

  /** `(uint16_t)hi << 8 | lo`: the inverse of splitting with Lo/Hi. */
  function Word(lo: bv8, hi: bv8): (w: bv16)
    ensures Lo(w) == lo && Hi(w) == hi
  {
    (hi as bv16 << 8) | lo as bv16
  }

  lemma WordOfBytes(w: bv16)
    ensures Word(Lo(w), Hi(w)) == w
  {
  }

  /** True when bit 7 (the sign bit of a 6502 byte) is set. */
  predicate Neg(b: bv8) { b & 0x80 != 0 }

  /** The carry-in as a byte: 1 when set, 0 otherwise. */
  function BitOf(b: bool): bv8 { if b then 1 else 0 }

  function Pow2(k: nat): (r: nat)
    ensures r >= 1
  {
    if k == 0 then 1 else 2 * Pow2(k - 1)
  }

  /** The powers the cartridge masks use: 8, 16 and 32 KiB. */
  lemma Pow2Sizes()
    ensures Pow2(13) == 0x2000 && Pow2(14) == 0x4000 && Pow2(15) == 0x8000
  {
    assert Pow2(1) == 2;
    assert Pow2(2) == 4;
    assert Pow2(3) == 8;
    assert Pow2(4) == 16;
    assert Pow2(5) == 32;
    assert Pow2(6) == 64;
    assert Pow2(7) == 128;
    assert Pow2(8) == 256;
    assert Pow2(9) == 512;
    assert Pow2(10) == 1024;
    assert Pow2(11) == 2048;
    assert Pow2(12) == 4096;
  }

  /** Bitwise AND of two naturals, bit by bit from the least significant. */
  function BitAnd(x: nat, y: nat): nat
  {
    if x == 0 || y == 0 then 0
    else 2 * BitAnd(x / 2, y / 2) + (if x % 2 == 1 && y % 2 == 1 then 1 else 0)
  }

  /** A mask never lets through more than the mask itself. */
  lemma {:induction false} BitAndBound(x: nat, y: nat)
    ensures BitAnd(x, y) <= y
  {
    if x != 0 && y != 0 {
      BitAndBound(x / 2, y / 2);
    }
  }

  /** Nor more than the value masked. */
  lemma {:induction false} BitAndBoundLeft(x: nat, y: nat)
    ensures BitAnd(x, y) <= x
  {
    if x != 0 && y != 0 {
      BitAndBoundLeft(x / 2, y / 2);
    }
  }

  /** The low k bits of x, as a number. */
  function LowBits(x: nat, k: nat): (r: nat)
    ensures r < Pow2(k)
  {
    if k == 0 then 0 else 2 * LowBits(x / 2, k - 1) + x % 2
  }

  /** AND with `2^k - 1` keeps exactly the low k bits. */
  lemma {:induction false} BitAndLowMask(x: nat, k: nat)
    ensures BitAnd(x, Pow2(k) - 1) == LowBits(x, k)
  {
    if k > 0 && x != 0 {
      BitAndLowMask(x / 2, k - 1);
      assert (Pow2(k) - 1) / 2 == Pow2(k - 1) - 1;
      if k == 1 {
        assert BitAnd(x / 2, 0) == 0;
        assert LowBits(x / 2, 0) == 0;
      }
    } else if k > 0 {
      LowBitsZero(k);
    }
  }

  lemma {:induction false} LowBitsZero(k: nat)
    ensures LowBits(0, k) == 0
  {
    if k > 0 {
      LowBitsZero(k - 1);
    }
  }

  /** A number that already fits in k bits is its own low k bits. */
  lemma {:induction false} LowBitsSmall(x: nat, k: nat)
    requires x < Pow2(k)
    ensures LowBits(x, k) == x
  {
    if k > 0 {
      LowBitsSmall(x / 2, k - 1);
    }
  }

  /** The low k bits of x are x modulo 2^k. */
  lemma {:induction false} LowBitsIsMod(x: nat, k: nat)
    ensures LowBits(x, k) == x % Pow2(k)
  {
    if k > 0 {
      LowBitsIsMod(x / 2, k - 1);
      DivModHalf(x, Pow2(k - 1));
    }
  }

  /** Splitting off the lowest bit before reducing modulo 2m. */
  lemma DivModHalf(x: nat, m: nat)
    requires m >= 1
    ensures x % (2 * m) == 2 * ((x / 2) % m) + x % 2
  {
    var h, s, q := x / 2, (x / 2) % m, (x / 2) / m;
    assert h == q * m + s;
    assert x == q * (2 * m) + (2 * s + x % 2) by {
      assert x == 2 * h + x % 2;
      assert 2 * (q * m) == q * (2 * m);
    }
    ModUnique(x, 2 * m, q, 2 * s + x % 2);
  }

  /** The remainder is the unique r in [0, d) with x = q*d + r. */
  lemma ModUnique(x: int, d: int, q: int, r: int)
    requires d > 0 && 0 <= r < d && x == q * d + r
    ensures x % d == r
  {
    var q', r' := x / d, x % d;
    assert x == q' * d + r';
    if q' > q {
      MulMonotone(q + 1, q', d);
    } else if q' < q {
      MulMonotone(q' + 1, q, d);
    }
  }

  /** The quotient is the unique q with x = q*d + r and r in [0, d). */
  lemma DivUnique(x: int, d: int, q: int, r: int)
    requires d > 0 && 0 <= r < d && x == q * d + r
    ensures x / d == q
  {
    var q' := x / d;
    assert x == q' * d + x % d;
    if q' > q {
      MulMonotone(q + 1, q', d);
    } else if q' < q {
      MulMonotone(q' + 1, q, d);
    }
  }

  lemma MulMonotone(a: int, b: int, d: int)
    requires a <= b && d >= 0
    ensures a * d <= b * d
  {
  }

  /** Adding 2^k does not change the low k bits: the mask mirrors. */
  lemma {:induction false} LowBitsPeriodic(x: nat, k: nat)
    ensures LowBits(x + Pow2(k), k) == LowBits(x, k)
  {
    if k > 0 {
      assert (x + Pow2(k)) / 2 == x / 2 + Pow2(k - 1);
      LowBitsPeriodic(x / 2, k - 1);
    }
  }
}
