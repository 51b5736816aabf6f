/**
 * The APU's delta modulation channel (src/apu/dmc.c): a rate divider
 * that paces a 1-bit delta decoder, fed one sample byte at a time from
 * the CPU address space through a fetch callback, and a 7-bit output
 * level that each delta raises or lowers by 2.
 *
 * The fetch callback (`d->dma`) is a parameter.  The IRQ handle's
 * `pull`/`release` calls are external; the channel's `interrupt` flag is
 * what the model keeps of them.
 */
module Dmc {
  import opened Bits
  import Divider

  /** The CPU read a sample fetch performs. */
  type Fetch = Addr -> Byte

  datatype Dmc = Dmc(irqEnable: bool, loop: bool, volume: int,
                     changeEnabled: bool, changeRate: Divider.Divider,
                     sampleBegin: Addr, sampleLength: int,
                     remainingBytes: int, currentAddress: Addr,
                     sampleBuffer: Byte, shifter: int, remainingBits: int,
                     silenced: bool, interrupt: bool)

  /** A 7-bit output level, a byte in the shifter, and byte counts that
   *  do not go below 0. */
  predicate Valid(d: Dmc)
  {
    && 0 <= d.volume <= 127 && 0 <= d.shifter < 256
    && d.sampleLength >= 0 && d.remainingBytes >= 0
  }

  /** `dmc_init`: everything off and zero, rate divider of period 0. */
  function Init(): (d: Dmc)
    ensures Valid(d) && !d.irqEnable && !d.loop && !d.changeEnabled && !d.interrupt
    ensures d.volume == 0 && d.remainingBytes == 0 && !HasMoreSamples(d)
  {
    Dmc(false, false, 0, false, Divider.Init(0), 0, 0, 0, 0, 0, 0, 0, false, false)
  }

  /** `has_more_samples`. */
  predicate HasMoreSamples(d: Dmc)
  {
    d.remainingBytes > 0
  }

  /** `set_irq_enable`: disabling drops the bytes left; enabling with none
   *  left restarts the sample from its beginning. */
  function SetIrqEnable(d: Dmc, enable: bool): (r: Dmc)
    ensures r.irqEnable == enable
    ensures !enable ==> r == d.(irqEnable := false, remainingBytes := 0) && !HasMoreSamples(r)
    ensures enable && d.remainingBytes == 0 ==>
      r == d.(irqEnable := true, currentAddress := d.sampleBegin, remainingBytes := d.sampleLength)
    ensures enable && d.remainingBytes != 0 ==> r == d.(irqEnable := true)
    ensures Valid(d) ==> Valid(r)
  {
    if !enable then d.(irqEnable := false, remainingBytes := 0)
    else if d.remainingBytes == 0 then
      d.(irqEnable := true, currentAddress := d.sampleBegin, remainingBytes := d.sampleLength)
    else d.(irqEnable := true)
  }

  /** The 16 rate divider periods, in CPU cycles. */
  const RateTable: seq<int> :=
    [428, 380, 340, 320, 286, 254, 226, 214, 190, 160, 142, 128, 106, 84, 72, 54]

  /** `set_rate`: the period from the table, and the count restarted. */
  function SetRate(d: Dmc, idx: nat): (r: Dmc)
    requires idx < 16
    ensures r == d.(changeRate := r.changeRate)
    ensures r.changeRate.period == RateTable[idx] && r.changeRate.counter == RateTable[idx]
    ensures 54 <= r.changeRate.period <= 428 && Divider.Valid(r.changeRate)
  {
    d.(changeRate := Divider.Reset(Divider.SetPeriod(d.changeRate, RateTable[idx])))
  }

  /** `clear_interrupt`. */
  function ClearInterrupt(d: Dmc): (r: Dmc)
    ensures !r.interrupt && r == d.(interrupt := false)
  {
    d.(interrupt := false)
  }

  /** Clearing twice is clearing once. */
  lemma ClearIdempotent(d: Dmc)
    ensures ClearInterrupt(ClearInterrupt(d)) == ClearInterrupt(d)
  {
  }

  // ------------------------------------------------------------------
  // Sample fetch
  // ------------------------------------------------------------------

  /** A sample fetch: the channel afterwards and whether a byte was read. */
  datatype Loaded = Loaded(d: Dmc, ok: bool)

  /** The first half of `load_sample`: with no bytes left and no loop the
   *  fetch fails, raising the interrupt when enabled; with loop the sample
   *  restarts; otherwise one byte is counted off. */
  function Start(d: Dmc): (r: Loaded)
    ensures !r.ok <==> d.remainingBytes == 0 && !d.loop
    ensures !r.ok ==> r.d == d.(interrupt := d.interrupt || d.irqEnable)
    ensures r.ok && d.remainingBytes == 0 ==>
      r.d == d.(currentAddress := d.sampleBegin, remainingBytes := d.sampleLength)
    ensures d.remainingBytes != 0 ==> r.ok && r.d == d.(remainingBytes := d.remainingBytes - 1)
  {
    if d.remainingBytes == 0 then
      if !d.loop then Loaded(d.(interrupt := d.interrupt || d.irqEnable), false)
      else Loaded(d.(currentAddress := d.sampleBegin, remainingBytes := d.sampleLength), true)
    else Loaded(d.(remainingBytes := d.remainingBytes - 1), true)
  }

  /** The address step as written: the `==` on the 0xFFFF branch compares
   *  instead of assigning, so the address stays at 0xFFFF. */
  function NextAddressAsWritten(a: Addr): (r: Addr)
    ensures a == 0xFFFF ==> r == 0xFFFF
    ensures a < 0xFFFF ==> r == a + 1
  {
    if a == 0xFFFF then a else a + 1
  }

  /** The address step evidently intended: past 0xFFFF the fetch wraps to
   *  0x8000, so a sample in cartridge space stays in 0x8000 .. 0xFFFF. */
  function NextAddress(a: Addr): (r: Addr)
    ensures a == 0xFFFF ==> r == 0x8000
    ensures a < 0xFFFF ==> r == a + 1
    ensures a >= 0x8000 ==> r >= 0x8000
    ensures r != a
  {
    if a == 0xFFFF then 0x8000 else a + 1
  }

  /** `load_sample` as written. */
  function LoadSampleAsWritten(d: Dmc, fetch: Fetch): (r: Loaded)
    ensures r.ok == Start(d).ok
    ensures r.ok ==> r.d.sampleBuffer == fetch(Start(d).d.currentAddress)
    ensures r.ok ==> r.d.currentAddress == NextAddressAsWritten(Start(d).d.currentAddress)
  {
    var s := Start(d);
    if !s.ok then s
    else Loaded(s.d.(sampleBuffer := fetch(s.d.currentAddress),
                     currentAddress := NextAddressAsWritten(s.d.currentAddress)), true)
  }

  /** As written, a sample that reaches 0xFFFF stays there: every later
   *  fetch reads 0xFFFF again. */
  lemma LoadAsWrittenStuck(d: Dmc, fetch: Fetch)
    requires d.currentAddress == 0xFFFF && d.remainingBytes >= 2
    ensures LoadSampleAsWritten(d, fetch).d.currentAddress == 0xFFFF
    ensures LoadSampleAsWritten(LoadSampleAsWritten(d, fetch).d, fetch).d.sampleBuffer == fetch(0xFFFF)
    ensures LoadSampleAsWritten(d, fetch).d.sampleBuffer == fetch(0xFFFF)
  {
  }

  /** `load_sample` with the intended wrap: a successful fetch reads the
   *  byte at the (possibly restarted) address and moves on to the next
   *  one; a failed fetch changes nothing but the interrupt. */
  function LoadSample(d: Dmc, fetch: Fetch): (r: Loaded)
    ensures !r.ok <==> d.remainingBytes == 0 && !d.loop
    ensures !r.ok ==> r.d == d.(interrupt := d.interrupt || d.irqEnable)
    ensures r.ok ==> r.d == Start(d).d.(sampleBuffer := r.d.sampleBuffer, currentAddress := r.d.currentAddress)
    ensures r.ok ==> r.d.sampleBuffer == fetch(Start(d).d.currentAddress)
    ensures r.ok ==> r.d.currentAddress == NextAddress(Start(d).d.currentAddress)
    ensures Valid(d) ==> Valid(r.d)
  {
    var s := Start(d);
    if !s.ok then s
    else Loaded(s.d.(sampleBuffer := fetch(s.d.currentAddress),
                     currentAddress := NextAddress(s.d.currentAddress)), true)
  }

  /** Consecutive fetches from 0xFFFF read 0xFFFF and then 0x8000. */
  lemma LoadSampleWraps(d: Dmc, fetch: Fetch)
    requires d.currentAddress == 0xFFFF && d.remainingBytes >= 2
    ensures LoadSample(d, fetch).d.sampleBuffer == fetch(0xFFFF)
    ensures LoadSample(LoadSample(d, fetch).d, fetch).d.sampleBuffer == fetch(0x8000)
  {
  }

  // ------------------------------------------------------------------
  // Output unit
  // ------------------------------------------------------------------

  /** A delta: the channel afterwards and the bit shifted out. */
  datatype Popped = Popped(d: Dmc, bit: int)

  /** `pop_delta`.  The refill test reads `remaining_bytes`, not
   *  `remaining_bits`: the shifter is refilled only once the sample has no
   *  bytes left, and otherwise the bit count just goes down.  The bit is
   *  the shifter's low bit, and the shifter moves right by one. */
  function PopDelta(d: Dmc, fetch: Fetch): (r: Popped)
    ensures r.bit == 0 || r.bit == 1
    ensures d.remainingBytes != 0 ==>
      r == Popped(d.(remainingBits := d.remainingBits - 1, shifter := d.shifter / 2), d.shifter % 2)
    ensures d.remainingBytes == 0 && LoadSample(d.(remainingBits := 8), fetch).ok ==>
      !r.d.silenced && r.bit == LoadSample(d.(remainingBits := 8), fetch).d.sampleBuffer % 2
    ensures d.remainingBytes == 0 && !LoadSample(d.(remainingBits := 8), fetch).ok ==>
      r.d.silenced && r.bit == d.shifter % 2
    ensures r.d.volume == d.volume && r.d.changeEnabled == d.changeEnabled
    ensures Valid(d) ==> Valid(r.d)
  {
    var refilled :=
      if d.remainingBytes == 0 then
        var l := LoadSample(d.(remainingBits := 8), fetch);
        if l.ok then l.d.(shifter := l.d.sampleBuffer, silenced := false) else l.d.(silenced := true)
      else d.(remainingBits := d.remainingBits - 1);
    Popped(refilled.(shifter := refilled.shifter / 2), refilled.shifter % 2)
  }

  function Pops(d: Dmc, fetch: Fetch, n: nat): Dmc
    decreases n
  {
    if n == 0 then d else Pops(PopDelta(d, fetch).d, fetch, n - 1)
  }

  /** While bytes remain, pops never refill the shifter: a byte below 2^k
   *  is drained after k pops, and from then on every delta is 0. */
  lemma {:induction false} ShifterDrains(d: Dmc, fetch: Fetch, k: nat, n: nat)
    requires d.remainingBytes != 0 && 0 <= d.shifter < Pow2(k) && n >= k
    ensures Pops(d, fetch, n).shifter == 0
    ensures Pops(d, fetch, n).remainingBytes == d.remainingBytes
    ensures PopDelta(Pops(d, fetch, n), fetch).bit == 0
    decreases n
  {
    if n > 0 {
      var next := PopDelta(d, fetch).d;
      if k > 0 {
        ShifterDrains(next, fetch, k - 1, n - 1);
      } else {
        ShifterDrains(next, fetch, 0, n - 1);
      }
    }
  }

  /** `dmc_clock`: nothing unless the channel is enabled and its rate
   *  divider fires; then a delta is popped and, unless silenced, moves the
   *  level by 2 within 0 .. 127. */
  function Clock(d: Dmc, fetch: Fetch): (r: Dmc)
    ensures !d.changeEnabled ==> r == d
    ensures d.changeEnabled && !Divider.Clock(d.changeRate).fired ==>
      r == d.(changeRate := Divider.Clock(d.changeRate).d)
    ensures r.volume == d.volume || r.volume == d.volume + 2 || r.volume == d.volume - 2
    ensures r.silenced ==> r.volume == d.volume
    ensures 0 <= d.volume <= 127 ==> 0 <= r.volume <= 127
    ensures Valid(d) ==> Valid(r)
  {
    if !d.changeEnabled then d
    else
      var c := Divider.Clock(d.changeRate);
      if !c.fired then d.(changeRate := c.d)
      else
        var p := PopDelta(d.(changeRate := c.d), fetch);
        if p.d.silenced then p.d else p.d.(volume := Level(p.d.volume, p.bit))
  }

  /** The output level after a delta: up 2 for a 1 and down 2 for a 0,
   *  unless that would leave 0 .. 127. */
  function Level(volume: int, bit: int): (v: int)
    ensures v == volume || v == volume + 2 || v == volume - 2
    ensures bit == 1 ==> v >= volume
    ensures bit == 0 ==> v <= volume
    ensures 0 <= volume <= 127 ==> 0 <= v <= 127
  {
    if bit == 1 && volume <= 125 then volume + 2
    else if bit == 0 && volume >= 2 then volume - 2
    else volume
  }

  /** `dmc_sample`: the output level. */
  function Sample(d: Dmc): (v: int)
    ensures v == d.volume
    ensures Valid(d) ==> 0 <= v <= 127
  {
    d.volume
  }
}
