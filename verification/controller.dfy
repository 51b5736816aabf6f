/**
 * The standard NES pad of src/controller.c: an 8-bit button mask that a
 * strobe write latches and that reads then deliver one bit at a time,
 * button A first, with 1s once all eight buttons have been shifted out.
 * While the strobe is held, every read reports button A of the live mask.
 *
 * The host keyboard and gamepad poll (`read_pad_*_as_bitmask`, raylib) is
 * a parameter: the masks the poll would return are passed in.  The
 * button count, the bit of button A and the register addresses are not
 * defined in any source file of this model; the values used are the NES
 * ones (8 buttons, A at bit 0, strobe at $4016, pads at $4016 and $4017).
 */
module Controller {

  const ButtonCount: nat := 8
  const StrobeAddr: bv16 := 0x4016
  const Pad1Addr: bv16 := 0x4016
  const Pad2Addr: bv16 := 0x4017

  /** One pad: the strobe level, the live button mask, the mask latched by
   *  the last strobe, and how many bits have been read since. */
  datatype Pad = Pad(strobe: bool, current: bv8, latched: bv8, index: nat)

  datatype Pads = Pads(pad1: Pad, pad2: Pad)

  /** A read: the pad afterwards and the bit delivered. */
  datatype Serial = Serial(pad: Pad, bit: bv8)

  /** Button i of a mask, as the 0/1 byte a read delivers. */
  function Button(mask: bv8, i: nat): (b: bv8)
    requires i < 8
    ensures b == 0 || b == 1
  {
    (mask >> i) & 1
  }

  /** `controller_init`: strobe low, no buttons, nothing left to shift. */
  function Init(): (r: Pad)
    ensures !r.strobe && r.current == 0 && r.latched == 0 && r.index == ButtonCount
  {
    Pad(false, 0, 0, ButtonCount)
  }

  /** `controller_poll_host_input`: the live masks of both pads. */
  function Poll(c: Pads, host1: bv8, host2: bv8): (r: Pads)
    ensures r.pad1.current == host1 && r.pad2.current == host2
    ensures r.pad1 == c.pad1.(current := host1) && r.pad2 == c.pad2.(current := host2)
  {
    Pads(c.pad1.(current := host1), c.pad2.(current := host2))
  }

  /** The per-pad part of a strobe write: bit 0 of the value becomes the
   *  strobe level; a 1 latches the live mask and restarts the sequence. */
  function Strobe(p: Pad, value: bv8): (r: Pad)
    ensures r.strobe == (value & 1 != 0)
    ensures value & 1 != 0 ==> r == p.(strobe := true, latched := p.current, index := 0)
    ensures value & 1 == 0 ==> r == p.(strobe := false)
  {
    if value & 1 != 0 then p.(strobe := true, latched := p.current, index := 0)
    else p.(strobe := false)
  }

  /** `controller_cpu_write`: only the strobe address does anything, and it
   *  strobes both pads, polling the host first when bit 0 is set. */
  function CpuWrite(c: Pads, addr: bv16, value: bv8, host1: bv8, host2: bv8): (r: Pads)
    ensures addr != StrobeAddr ==> r == c
    ensures addr == StrobeAddr && value & 1 != 0 ==>
      r.pad1.latched == host1 && r.pad2.latched == host2 && r.pad1.index == 0 && r.pad2.index == 0
    ensures addr == StrobeAddr ==> r.pad1.strobe == r.pad2.strobe == (value & 1 != 0)
    ensures addr == StrobeAddr && value & 1 == 0 ==>
      r == Pads(c.pad1.(strobe := false), c.pad2.(strobe := false))
    ensures addr == StrobeAddr && value & 1 != 0 ==>
      r == Pads(c.pad1.(strobe := true, current := host1, latched := host1, index := 0),
                c.pad2.(strobe := true, current := host2, latched := host2, index := 0))
  {
    if addr != StrobeAddr then c
    else if value & 1 != 0 then
      var polled := Poll(c, host1, host2);
      Pads(Strobe(polled.pad1, value), Strobe(polled.pad2, value))
    else Pads(Strobe(c.pad1, value), Strobe(c.pad2, value))
  }

  /** `controller_read_serial`. */
  function ReadSerial(p: Pad): (r: Serial)
    ensures r.bit == 0 || r.bit == 1
    ensures p.strobe ==> r.pad == p && r.bit == Button(p.current, 0)
    ensures !p.strobe ==> r.pad == p.(index := p.index + 1)
    ensures !p.strobe && p.index < ButtonCount ==> r.bit == Button(p.latched, p.index)
    ensures !p.strobe && p.index >= ButtonCount ==> r.bit == 1
  {
    if p.strobe then Serial(p, (p.current >> 0) & 1)
    else if p.index < ButtonCount then Serial(p.(index := p.index + 1), (p.latched >> p.index) & 1)
    else Serial(p.(index := p.index + 1), 1)
  }

  /** `controller_cpu_read`: pad 1 or pad 2, open bus (0xFF) elsewhere. */
  function CpuRead(c: Pads, addr: bv16): (r: (Pads, bv8))
    ensures addr == Pad1Addr ==> r == (Pads(ReadSerial(c.pad1).pad, c.pad2), ReadSerial(c.pad1).bit)
    ensures addr == Pad2Addr ==> r == (Pads(c.pad1, ReadSerial(c.pad2).pad), ReadSerial(c.pad2).bit)
    ensures addr != Pad1Addr && addr != Pad2Addr ==> r == (c, 0xFF)
  {
    if addr == Pad1Addr then (Pads(ReadSerial(c.pad1).pad, c.pad2), ReadSerial(c.pad1).bit)
    else if addr == Pad2Addr then (Pads(c.pad1, ReadSerial(c.pad2).pad), ReadSerial(c.pad2).bit)
    else (c, 0xFF)
  }

  /** The bits n consecutive reads deliver. */
  function Reads(p: Pad, n: nat): (bits: seq<bv8>)
    ensures |bits| == n
    ensures !p.strobe ==> forall k :: 0 <= k < n ==>
      bits[k] == (if p.index + k < ButtonCount then Button(p.latched, p.index + k) else 1)
    decreases n
  {
    if n == 0 then []
    else [ReadSerial(p).bit] + Reads(ReadSerial(p).pad, n - 1)
  }

  /** After strobing with a 1 and then a 0, eight reads return the polled
   *  buttons in order, A first (bit i of the host mask on read i), and
   *  every later read returns 1. */
  lemma StrobeThenRead(c: Pads, host1: bv8, host2: bv8, n: nat)
    ensures var s := CpuWrite(CpuWrite(c, StrobeAddr, 1, host1, host2), StrobeAddr, 0, host1, host2);
      forall k :: 0 <= k < n ==>
        Reads(s.pad1, n)[k] == (if k < ButtonCount then Button(host1, k) else 1)
  {
  }

  /** While the strobe is held, every read reports button A of the live
   *  mask and the pad does not move on. */
  lemma StrobeHeld(p: Pad, n: nat)
    requires p.strobe
    ensures forall k :: 0 <= k < n ==> Reads(p, n)[k] == Button(p.current, 0)
  {
  }
}
