/**
 * The CPU's view of its 64 KiB address space, abstracted as a total map
 * from 16-bit addresses to bytes (a Dafny function value, so that every
 * address has a byte and a write is a point update).
 * The bus (RAM mirroring, PPU registers, mapper) is modelled separately in
 * module Bus; the CPU interpreter is proved against this plain memory so
 * that its flag, stack and addressing properties do not depend on device
 * side effects.
 */
module Memory {

  type Mem = bv16 -> bv8

  function Read(m: Mem, a: bv16): bv8
  {
    m(a)
  }

  /** A write changes exactly one cell. */
  function Write(m: Mem, a: bv16, v: bv8): (r: Mem)
    ensures Read(r, a) == v
    ensures forall b :: b != a ==> Read(r, b) == Read(m, b)
  {
    Put(m, a, v)
  }

  /** A point update of any total table: the PPU's OAM, nametable and
   *  palette RAMs, the bus's 2 KiB RAM and the cartridge RAMs use it too. */
  function Put<K(==,!new), V>(f: K -> V, k: K, v: V): (r: K -> V)
    ensures r(k) == v
    ensures forall j :: j != k ==> r(j) == f(j)
  {
    (j: K) => if j == k then v else f(j)
  }
}
