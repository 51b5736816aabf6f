/**
 * The APU of src/apu/APU.c: five channels and the frame sequencer, the
 * CPU's writes to the `$4000`-`$4017` registers, the `$4015` status read,
 * and the CPU-rate step that clocks the channels and, every second
 * cycle, the frame sequencer and the pulse channels.
 *
 * The frame sequencer's quarter and half clocks reach the units by name:
 * a quarter clock steps the three envelopes and the triangle's linear
 * counter, a half clock the two sweeps and the four length counters.
 * The sample fetch of the DMC and the `control` routine a `$4015` write
 * calls are parameters; mixing the samples into a float is left out, so
 * a step returns the five channel levels it would mix.
 */
module Apu {
  import opened Bits
  import Divider
  import Units
  import Pulse
  import Triangle
  import Noise
  import Dmc
  import FrameCounter

  datatype Apu = Apu(pulse1: Pulse.Pulse, pulse2: Pulse.Pulse, triangle: Triangle.Triangle,
                     noise: Noise.Noise, dmc: Dmc.Dmc, fc: FrameCounter.FrameCounter,
                     divideByTwo: bool)

  /** The routine a `$4015` write hands bit 4 to. */
  type Control = (Dmc.Dmc, bool) -> Dmc.Dmc

  /** The five levels a half-rate step mixes. */
  datatype Levels = Levels(pulse1: int, pulse2: int, triangle: int, noise: int, dmc: int)

  /** A step: the APU afterwards and, on the cycles that mix, the levels. */
  datatype Stepped = Stepped(a: Apu, levels: Option<Levels>)

  /** A status read: the APU afterwards and the byte read. */
  datatype Status = Status(a: Apu, value: Byte)

  // ------------------------------------------------------------------
  // Registers
  // ------------------------------------------------------------------

  const Sq1Vol: int := 0x4000
  const Sq1Sweep: int := 0x4001
  const Sq1Lo: int := 0x4002
  const Sq1Hi: int := 0x4003
  const Sq2Vol: int := 0x4004
  const Sq2Sweep: int := 0x4005
  const Sq2Lo: int := 0x4006
  const Sq2Hi: int := 0x4007
  const TriLinear: int := 0x4008
  const TriLo: int := 0x400A
  const TriHi: int := 0x400B
  const NoiseVol: int := 0x400C
  const NoiseLo: int := 0x400E
  const NoiseHi: int := 0x400F
  const DmcFreq: int := 0x4010
  const DmcRaw: int := 0x4011
  const DmcStart: int := 0x4012
  const DmcLen: int := 0x4013
  const ApuControl: int := 0x4015
  const FrameControl: int := 0x4017

  /** The addresses `write_register` handles: `$4000`-`$4017` without the
   *  unused `$4009`, `$400D`, `$4014` and `$4016`. */
  predicate IsRegister(addr: int)
  {
    0x4000 <= addr <= 0x4017 && addr != 0x4009 && addr != 0x400D && addr != 0x4014 && addr != 0x4016
  }

  /** The place value of bit k of a byte. */
  function Place(k: nat): (p: int)
    requires k < 8
  {
    [1, 2, 4, 8, 16, 32, 64, 128][k]
  }

  /** Bit k of a byte. */
  function Bit(v: Byte, k: nat): bool
    requires k < 8
  {
    (v / Place(k)) % 2 == 1
  }

  // ------------------------------------------------------------------
  // State
  // ------------------------------------------------------------------

  /** Every channel and the frame sequencer in their valid ranges, with
   *  pulse 1 and pulse 2 in their places. */
  predicate Valid(a: Apu)
  {
    && Pulse.Valid(a.pulse1) && Pulse.Valid(a.pulse2)
    && a.pulse1.kind == Pulse.Pulse1 && a.pulse2.kind == Pulse.Pulse2
    && Triangle.Valid(a.triangle) && Noise.Valid(a.noise)
    && Dmc.Valid(a.dmc) && FrameCounter.Valid(a.fc)
  }

  /** The channels built by `apu_init`, and `divideByTwo` false as the
   *  zeroed allocation leaves it. */
  function Init(): (a: Apu)
    ensures Valid(a) && !a.divideByTwo
    ensures a.fc == FrameCounter.Init() && a.dmc == Dmc.Init()
  {
    Apu(Pulse.Init(Pulse.Pulse1), Pulse.Init(Pulse.Pulse2), Triangle.Init(), Noise.Init(),
        Dmc.Init(), FrameCounter.Init(), false)
  }

  /** A `$4015` write's `control` keeps a valid DMC valid. */
  ghost predicate ControlKeepsValid(control: Control)
  {
    forall d: Dmc.Dmc, enable: bool :: Dmc.Valid(d) ==> Dmc.Valid(control(d, enable))
  }

  // ------------------------------------------------------------------
  // Frame sequencer fan-out
  // ------------------------------------------------------------------

  /** A quarter-frame clock: the three envelopes and the linear counter. */
  function Quarter(a: Apu): (r: Apu)
    ensures r == a.(pulse1 := r.pulse1, pulse2 := r.pulse2, triangle := r.triangle, noise := r.noise)
    ensures r.pulse1 == a.pulse1.(env := Units.EnvelopeQuarter(a.pulse1.env))
    ensures r.pulse2 == a.pulse2.(env := Units.EnvelopeQuarter(a.pulse2.env))
    ensures r.noise == a.noise.(env := Units.EnvelopeQuarter(a.noise.env))
    ensures r.triangle == a.triangle.(linear := Units.LinearQuarter(a.triangle.linear))
    ensures Valid(a) ==> Valid(r)
  {
    a.(pulse1 := a.pulse1.(env := Units.EnvelopeQuarter(a.pulse1.env)),
       pulse2 := a.pulse2.(env := Units.EnvelopeQuarter(a.pulse2.env)),
       noise := a.noise.(env := Units.EnvelopeQuarter(a.noise.env)),
       triangle := a.triangle.(linear := Units.LinearQuarter(a.triangle.linear)))
  }

  /** A half-frame clock: the two sweeps and the four length counters. */
  function Half(a: Apu): (r: Apu)
    ensures r == a.(pulse1 := r.pulse1, pulse2 := r.pulse2, triangle := r.triangle, noise := r.noise)
    ensures r.pulse1 == a.pulse1.(sweep := Pulse.SweepHalfFrame(a.pulse1.sweep),
                                  length := Units.LengthHalfFrame(a.pulse1.length))
    ensures r.pulse2 == a.pulse2.(sweep := Pulse.SweepHalfFrame(a.pulse2.sweep),
                                  length := Units.LengthHalfFrame(a.pulse2.length))
    ensures r.triangle == a.triangle.(length := Units.LengthHalfFrame(a.triangle.length))
    ensures r.noise == a.noise.(length := Units.LengthHalfFrame(a.noise.length))
    ensures Valid(a) ==> Valid(r)
  {
    a.(pulse1 := a.pulse1.(sweep := Pulse.SweepHalfFrame(a.pulse1.sweep),
                           length := Units.LengthHalfFrame(a.pulse1.length)),
       pulse2 := a.pulse2.(sweep := Pulse.SweepHalfFrame(a.pulse2.sweep),
                           length := Units.LengthHalfFrame(a.pulse2.length)),
       triangle := a.triangle.(length := Units.LengthHalfFrame(a.triangle.length)),
       noise := a.noise.(length := Units.LengthHalfFrame(a.noise.length)))
  }

  /** The two clocks touch different units, so the order in which the
   *  sequencer's slot loop interleaves them does not matter. */
  lemma QuarterHalfCommute(a: Apu)
    ensures Half(Quarter(a)) == Quarter(Half(a))
  {
  }

  /** The events of one sequencer step, delivered to every unit. */
  function Deliver(a: Apu, ev: FrameCounter.Events): (r: Apu)
    ensures !ev.quarter && !ev.half ==> r == a
    ensures ev.quarter && !ev.half ==> r == Quarter(a)
    ensures !ev.quarter && ev.half ==> r == Half(a)
    ensures ev.quarter && ev.half ==> r == Half(Quarter(a))
    ensures r.fc == a.fc && r.dmc == a.dmc && r.divideByTwo == a.divideByTwo
    ensures r.pulse1.period == a.pulse1.period && r.pulse2.period == a.pulse2.period
    ensures Valid(a) ==> Valid(r)
  {
    var q := if ev.quarter then Quarter(a) else a;
    if ev.half then Half(q) else q
  }

  // ------------------------------------------------------------------
  // Register writes
  // ------------------------------------------------------------------

  /** The period after a low-byte write: the high byte kept, the low byte
   *  replaced, `(period & 0xFF00) | value` for a period of 16 bits. */
  function LowPeriod(period: int, value: Byte): (r: int)
    ensures r % 256 == value
    ensures 0 <= period <= Pulse.MaxPeriod ==> r / 256 == period / 256 && 0 <= r <= Pulse.MaxPeriod
  {
    period / 256 % 256 * 256 + value
  }

  /** The period after a high-byte write: the low byte kept, bits 8-10
   *  from the low three bits of the value, `(period & 0x00FF) | ((value &
   *  7) << 8)`. */
  function HighPeriod(period: int, value: Byte): (r: int)
    ensures r / 256 == value % 8 && r % 256 == period % 256
    ensures 0 <= r <= Pulse.MaxPeriod
  {
    period % 256 + value % 8 * 256
  }

  /** `$4000`/`$4004`: the volume or envelope period in bits 0-3, constant
   *  volume in bit 4, envelope loop and length halt both from bit 5, and
   *  the duty in bits 6-7. */
  function PulseVolume(p: Pulse.Pulse, value: Byte): (r: Pulse.Pulse)
    ensures r.env == p.env.(fixed := value % 16, constant := Bit(value, 4), looping := Bit(value, 5))
    ensures r.length == p.length.(halt := Bit(value, 5))
    ensures r == p.(env := r.env, length := r.length, seqType := value / 64)
    ensures Pulse.Valid(p) ==> Pulse.Valid(r)
  {
    p.(env := p.env.(fixed := value % 16, constant := Bit(value, 4), looping := Bit(value, 5)),
       length := p.length.(halt := Bit(value, 5)),
       seqType := value / 64)
  }

  /** `$4001`/`$4005`: enable in bit 7, divider period in bits 4-6, negate
   *  in bit 3, shift in bits 0-2, and a reload requested. */
  function PulseSweep(p: Pulse.Pulse, value: Byte): (r: Pulse.Pulse)
    ensures r == p.(sweep := p.sweep.(enabled := Bit(value, 7), period := value / 16 % 8,
                                      negate := Bit(value, 3), shift := value % 8, reload := true))
    ensures Pulse.Valid(p) ==> Pulse.Valid(r)
  {
    p.(sweep := p.sweep.(enabled := Bit(value, 7), period := value / 16 % 8,
                         negate := Bit(value, 3), shift := value % 8, reload := true))
  }

  /** `$4002`/`$4006`: the low byte of the period. */
  function PulseLo(p: Pulse.Pulse, value: Byte): (r: Pulse.Pulse)
    ensures r == Pulse.SetPeriod(p, LowPeriod(p.period, value))
    ensures Pulse.Valid(p) ==> Pulse.Valid(r)
  {
    Pulse.SetPeriod(p, LowPeriod(p.period, value))
  }

  /** `$4003`/`$4007`: the high bits of the period, a length load from
   *  bits 3-7, the sequencer back to step 0 and an envelope restart. */
  function PulseHi(p: Pulse.Pulse, value: Byte): (r: Pulse.Pulse)
    ensures r.period == HighPeriod(p.period, value) && r.seqIdx == 0 && r.env.start
    ensures r.length == Units.LoadFromTable(p.length, value / 8)
    ensures r.sweep == p.sweep && r.seqType == p.seqType && r.kind == p.kind
    ensures Pulse.Valid(p) ==> Pulse.Valid(r)
  {
    Pulse.SetPeriod(p.(length := Units.LoadFromTable(p.length, value / 8), seqIdx := 0,
                       env := p.env.(start := true)),
                    HighPeriod(p.period, value))
  }

  /** `$4008`: the linear reload value from bits 0-6, a reload requested,
   *  and linear control and length halt both from bit 7. */
  function TriangleLinear(t: Triangle.Triangle, value: Byte): (r: Triangle.Triangle)
    ensures r.linear == t.linear.(reloadValue := value % 128, reload := true, control := Bit(value, 7))
    ensures r == t.(linear := r.linear, length := t.length.(halt := Bit(value, 7)))
    ensures Triangle.Valid(t) ==> Triangle.Valid(r)
  {
    t.(linear := Units.SetLinear(t.linear, value % 128).(reload := true, control := Bit(value, 7)),
       length := t.length.(halt := Bit(value, 7)))
  }

  /** `$400A`: the low byte of the triangle period. */
  function TriangleLo(t: Triangle.Triangle, value: Byte): (r: Triangle.Triangle)
    ensures r == Triangle.SetPeriod(t, LowPeriod(t.period, value))
    ensures Triangle.Valid(t) ==> Triangle.Valid(r)
  {
    Triangle.SetPeriod(t, LowPeriod(t.period, value))
  }

  /** `$400B`: the high bits of the period, a length load and a linear
   *  reload requested. */
  function TriangleHi(t: Triangle.Triangle, value: Byte): (r: Triangle.Triangle)
    ensures r.period == HighPeriod(t.period, value) && r.linear == t.linear.(reload := true)
    ensures r.length == Units.LoadFromTable(t.length, value / 8) && r.seqIdx == t.seqIdx
    ensures Triangle.Valid(t) ==> Triangle.Valid(r)
  {
    var loaded := Triangle.SetPeriod(t.(length := Units.LoadFromTable(t.length, value / 8)),
                                     HighPeriod(t.period, value));
    loaded.(linear := loaded.linear.(reload := true))
  }

  /** `$400C`: the envelope fields and the length halt, as for a pulse. */
  function NoiseVolume(n: Noise.Noise, value: Byte): (r: Noise.Noise)
    ensures r.env == n.env.(fixed := value % 16, constant := Bit(value, 4), looping := Bit(value, 5))
    ensures r == n.(env := r.env, length := n.length.(halt := Bit(value, 5)))
    ensures Noise.Valid(n) ==> Noise.Valid(r)
  {
    n.(env := n.env.(fixed := value % 16, constant := Bit(value, 4), looping := Bit(value, 5)),
       length := n.length.(halt := Bit(value, 5)))
  }

  /** `$400E`: the channel's mode from bit 7 and the timer period from the
   *  table entry in bits 0-3. */
  function NoisePeriod(n: Noise.Noise, value: Byte): (r: Noise.Noise)
    ensures r == Noise.SetPeriodFromTable(n.(mode := if Bit(value, 7) then Noise.Bit6 else Noise.Bit1), value % 16)
    ensures Noise.Valid(n) ==> Noise.Valid(r)
  {
    Noise.SetPeriodFromTable(n.(mode := if Bit(value, 7) then Noise.Bit6 else Noise.Bit1), value % 16)
  }

  /** `$400F`: a length load and the envelope divider restarted. */
  function NoiseLength(n: Noise.Noise, value: Byte): (r: Noise.Noise)
    ensures r == n.(length := Units.LoadFromTable(n.length, value / 8),
                    env := n.env.(div := Divider.Reset(n.env.div)))
    ensures Noise.Valid(n) ==> Noise.Valid(r)
  {
    n.(length := Units.LoadFromTable(n.length, value / 8), env := n.env.(div := Divider.Reset(n.env.div)))
  }

  /** `$4010`-`$4013`: the IRQ enable and loop flags and the rate; the
   *  output level; the sample start at `$C000 + 64 * value`; the sample
   *  length `16 * value + 1`.  The IRQ flag is assigned directly, without
   *  `set_irq_enable`. */
  function DmcWrite(d: Dmc.Dmc, addr: int, value: Byte): (r: Dmc.Dmc)
    requires DmcFreq <= addr <= DmcLen
    ensures addr == DmcFreq ==> r == Dmc.SetRate(d.(irqEnable := Bit(value, 7), loop := Bit(value, 6)), value % 16)
    ensures addr == DmcRaw ==> r == d.(volume := value % 128)
    ensures addr == DmcStart ==> r == d.(sampleBegin := 0xC000 + 64 * value) && r.sampleBegin >= 0xC000
    ensures addr == DmcLen ==> r == d.(sampleLength := 16 * value + 1) && r.sampleLength % 16 == 1
    ensures Dmc.Valid(d) ==> Dmc.Valid(r)
  {
    if addr == DmcFreq then Dmc.SetRate(d.(irqEnable := Bit(value, 7), loop := Bit(value, 6)), value % 16)
    else if addr == DmcRaw then d.(volume := value % 128)
    else if addr == DmcStart then d.(sampleBegin := 0xC000 + 64 * value)
    else d.(sampleLength := 16 * value + 1)
  }

  /** `$4015`: bits 0-3 enable the four length counters (a disabled one is
   *  emptied) and bit 4 goes to `control`. */
  function WriteControl(a: Apu, value: Byte, control: Control): (r: Apu)
    ensures r.pulse1 == a.pulse1.(length := Units.SetEnable(a.pulse1.length, Bit(value, 0)))
    ensures r.pulse2 == a.pulse2.(length := Units.SetEnable(a.pulse2.length, Bit(value, 1)))
    ensures r.triangle == a.triangle.(length := Units.SetEnable(a.triangle.length, Bit(value, 2)))
    ensures r.noise == a.noise.(length := Units.SetEnable(a.noise.length, Bit(value, 3)))
    ensures r == a.(pulse1 := r.pulse1, pulse2 := r.pulse2, triangle := r.triangle, noise := r.noise,
                    dmc := control(a.dmc, Bit(value, 4)))
    ensures Valid(a) && ControlKeepsValid(control) ==> Valid(r)
  {
    a.(pulse1 := a.pulse1.(length := Units.SetEnable(a.pulse1.length, Bit(value, 0))),
       pulse2 := a.pulse2.(length := Units.SetEnable(a.pulse2.length, Bit(value, 1))),
       triangle := a.triangle.(length := Units.SetEnable(a.triangle.length, Bit(value, 2))),
       noise := a.noise.(length := Units.SetEnable(a.noise.length, Bit(value, 3))),
       dmc := control(a.dmc, Bit(value, 4)))
  }

  /** `$4017`: bit 7 selects the 5-step sequence, bit 6 inhibits the frame
   *  IRQ, and the sequencer's reset delivers its clocks at once. */
  function WriteFrameControl(a: Apu, value: Byte): (r: Apu)
    ensures r.fc == FrameCounter.Reset(a.fc, if value >= 128 then FrameCounter.Seq5Step else FrameCounter.Seq4Step,
                                       Bit(value, 6)).fc
    ensures r.dmc == a.dmc && r.divideByTwo == a.divideByTwo
    ensures value < 128 ==> r == a.(fc := r.fc)
    ensures value >= 128 ==> r == Half(Quarter(a)).(fc := r.fc)
    ensures Valid(a) ==> Valid(r)
  {
    var reset := FrameCounter.Reset(a.fc, if value >= 128 then FrameCounter.Seq5Step else FrameCounter.Seq4Step,
                                    Bit(value, 6));
    Deliver(a.(fc := reset.fc), reset.ev)
  }

  /** `write_register`: the channel the address belongs to is updated;
   *  every other part of the APU is left as it was, and an address outside
   *  the register set changes nothing. */
  function Write(a: Apu, addr: int, value: Byte, control: Control): (r: Apu)
    ensures !IsRegister(addr) ==> r == a
    ensures Sq1Vol <= addr <= Sq1Hi ==> r == a.(pulse1 := r.pulse1)
    ensures Sq2Vol <= addr <= Sq2Hi ==> r == a.(pulse2 := r.pulse2)
    ensures TriLinear <= addr <= TriHi ==> r == a.(triangle := r.triangle)
    ensures NoiseVol <= addr <= NoiseHi ==> r == a.(noise := r.noise)
    ensures DmcFreq <= addr <= DmcLen ==> r == a.(dmc := DmcWrite(a.dmc, addr, value))
    ensures r.divideByTwo == a.divideByTwo
    ensures addr != FrameControl ==> r.fc == a.fc
    ensures Valid(a) && ControlKeepsValid(control) ==> Valid(r)
  {
    if addr == Sq1Vol then a.(pulse1 := PulseVolume(a.pulse1, value))
    else if addr == Sq1Sweep then a.(pulse1 := PulseSweep(a.pulse1, value))
    else if addr == Sq1Lo then a.(pulse1 := PulseLo(a.pulse1, value))
    else if addr == Sq1Hi then a.(pulse1 := PulseHi(a.pulse1, value))
    else if addr == Sq2Vol then a.(pulse2 := PulseVolume(a.pulse2, value))
    else if addr == Sq2Sweep then a.(pulse2 := PulseSweep(a.pulse2, value))
    else if addr == Sq2Lo then a.(pulse2 := PulseLo(a.pulse2, value))
    else if addr == Sq2Hi then a.(pulse2 := PulseHi(a.pulse2, value))
    else if addr == TriLinear then a.(triangle := TriangleLinear(a.triangle, value))
    else if addr == TriLo then a.(triangle := TriangleLo(a.triangle, value))
    else if addr == TriHi then a.(triangle := TriangleHi(a.triangle, value))
    else if addr == NoiseVol then a.(noise := NoiseVolume(a.noise, value))
    else if addr == NoiseLo then a.(noise := NoisePeriod(a.noise, value))
    else if addr == NoiseHi then a.(noise := NoiseLength(a.noise, value))
    else if DmcFreq <= addr <= DmcLen then a.(dmc := DmcWrite(a.dmc, addr, value))
    else if addr == ApuControl then WriteControl(a, value, control)
    else if addr == FrameControl then WriteFrameControl(a, value)
    else a
  }

  /** Writing the low byte and then the high byte of a pulse period sets
   *  the whole 11-bit period, in either order. */
  lemma PeriodWrites(a: Apu, lo: Byte, hi: Byte, control: Control)
    requires Valid(a)
    ensures Write(Write(a, Sq1Lo, lo, control), Sq1Hi, hi, control).pulse1.period == hi % 8 * 256 + lo
    ensures Write(Write(a, Sq1Hi, hi, control), Sq1Lo, lo, control).pulse1.period == hi % 8 * 256 + lo
  {
  }

  /** A 5-step `$4017` write clocks every envelope and length counter at
   *  once; a 4-step one clocks nothing. */
  lemma FiveStepWriteClocks(a: Apu, value: Byte, control: Control)
    ensures value >= 128 ==>
      Write(a, FrameControl, value, control).pulse1.env == Units.EnvelopeQuarter(a.pulse1.env)
      && Write(a, FrameControl, value, control).noise.length == Units.LengthHalfFrame(a.noise.length)
    ensures value < 128 ==> Write(a, FrameControl, value, control) == a.(fc := Write(a, FrameControl, value, control).fc)
  {
  }

  // ------------------------------------------------------------------
  // Status read
  // ------------------------------------------------------------------

  function Ind(b: bool): nat { if b then 1 else 0 }

  /** A bit set at place p of a sum reads back: the terms below p do not
   *  reach it and the terms above it are multiples of 2p. */
  lemma BitOfSum(v: int, p: int, lo: int, b: bool, hi: int)
    requires p > 0 && 0 <= lo < p && hi >= 0
    requires v == lo + p * Ind(b) + 2 * p * hi
    ensures v / p % 2 == Ind(b)
  {
    var q := Ind(b) + 2 * hi;
    assert v == q * p + lo;
    DivUnique(v, p, q, lo);
    ModUnique(q, 2, hi, Ind(b));
  }

  /** The status byte as a sum of its seven flags' place values. */
  function StatusSum(b0: bool, b1: bool, b2: bool, b3: bool, b4: bool, b6: bool, b7: bool): int
  {
    Ind(b0) + 2 * Ind(b1) + 4 * Ind(b2) + 8 * Ind(b3) + 16 * Ind(b4) + 64 * Ind(b6) + 128 * Ind(b7)
  }

  lemma StatusLowBits(b0: bool, b1: bool, b2: bool, b3: bool, b4: bool, b6: bool, b7: bool)
    ensures var v := StatusSum(b0, b1, b2, b3, b4, b6, b7);
      v / 1 % 2 == Ind(b0) && v / 2 % 2 == Ind(b1)
  {
    var v := StatusSum(b0, b1, b2, b3, b4, b6, b7);
    var i0, i1, i2, i3, i4, i6, i7 := Ind(b0), Ind(b1), Ind(b2), Ind(b3), Ind(b4), Ind(b6), Ind(b7);
    BitOfSum(v, 1, 0, b0, i1 + 2 * i2 + 4 * i3 + 8 * i4 + 32 * i6 + 64 * i7);
    BitOfSum(v, 2, i0, b1, i2 + 2 * i3 + 4 * i4 + 16 * i6 + 32 * i7);
  }

  lemma StatusMiddleBits(b0: bool, b1: bool, b2: bool, b3: bool, b4: bool, b6: bool, b7: bool)
    ensures var v := StatusSum(b0, b1, b2, b3, b4, b6, b7);
      v / 4 % 2 == Ind(b2) && v / 8 % 2 == Ind(b3)
  {
    var v := StatusSum(b0, b1, b2, b3, b4, b6, b7);
    var i0, i1, i2, i3, i4, i6, i7 := Ind(b0), Ind(b1), Ind(b2), Ind(b3), Ind(b4), Ind(b6), Ind(b7);
    BitOfSum(v, 4, i0 + 2 * i1, b2, i3 + 2 * i4 + 8 * i6 + 16 * i7);
    BitOfSum(v, 8, i0 + 2 * i1 + 4 * i2, b3, i4 + 4 * i6 + 8 * i7);
  }

  lemma StatusHighBits(b0: bool, b1: bool, b2: bool, b3: bool, b4: bool, b6: bool, b7: bool)
    ensures var v := StatusSum(b0, b1, b2, b3, b4, b6, b7);
      v / 16 % 2 == Ind(b4) && v / 32 % 2 == 0 && v / 64 % 2 == Ind(b6) && v / 128 % 2 == Ind(b7)
  {
    var v := StatusSum(b0, b1, b2, b3, b4, b6, b7);
    var i0, i1, i2, i3, i4, i6, i7 := Ind(b0), Ind(b1), Ind(b2), Ind(b3), Ind(b4), Ind(b6), Ind(b7);
    BitOfSum(v, 16, i0 + 2 * i1 + 4 * i2 + 8 * i3, b4, 2 * i6 + 4 * i7);
    BitOfSum(v, 32, i0 + 2 * i1 + 4 * i2 + 8 * i3 + 16 * i4, false, i6 + 2 * i7);
    BitOfSum(v, 64, i0 + 2 * i1 + 4 * i2 + 8 * i3 + 16 * i4, b6, i7);
    BitOfSum(v, 128, i0 + 2 * i1 + 4 * i2 + 8 * i3 + 16 * i4 + 64 * i6, b7, 0);
  }

  /** The status byte from its seven flags; bit 5 is always 0. */
  function StatusByte(b0: bool, b1: bool, b2: bool, b3: bool, b4: bool, b6: bool, b7: bool): (v: Byte)
    ensures Bit(v, 0) == b0 && Bit(v, 1) == b1 && Bit(v, 2) == b2 && Bit(v, 3) == b3
    ensures Bit(v, 4) == b4 && !Bit(v, 5) && Bit(v, 6) == b6 && Bit(v, 7) == b7
  {
    StatusLowBits(b0, b1, b2, b3, b4, b6, b7);
    StatusMiddleBits(b0, b1, b2, b3, b4, b6, b7);
    StatusHighBits(b0, b1, b2, b3, b4, b6, b7);
    StatusSum(b0, b1, b2, b3, b4, b6, b7)
  }

  /** `read_status`: bits 0-3 say which length counters are running, bit 4
   *  that the DMC has no bytes left (the test is negated as written), bit
   *  6 the frame IRQ and bit 7 the DMC IRQ; both IRQ flags are then
   *  cleared and nothing else changes. */
  function ReadStatus(a: Apu): (r: Status)
    ensures Bit(r.value, 0) == !Units.Muted(a.pulse1.length) && Bit(r.value, 1) == !Units.Muted(a.pulse2.length)
    ensures Bit(r.value, 2) == !Units.Muted(a.triangle.length) && Bit(r.value, 3) == !Units.Muted(a.noise.length)
    ensures Bit(r.value, 4) == !Dmc.HasMoreSamples(a.dmc) && !Bit(r.value, 5)
    ensures Bit(r.value, 6) == a.fc.frameInterrupt && Bit(r.value, 7) == a.dmc.interrupt
    ensures r.a == a.(fc := a.fc.(frameInterrupt := false), dmc := a.dmc.(interrupt := false))
    ensures Valid(a) ==> Valid(r.a)
  {
    var v := StatusByte(!Units.Muted(a.pulse1.length), !Units.Muted(a.pulse2.length),
                        !Units.Muted(a.triangle.length), !Units.Muted(a.noise.length),
                        !Dmc.HasMoreSamples(a.dmc), a.fc.frameInterrupt, a.dmc.interrupt);
    Status(a.(fc := FrameCounter.ClearFrameInterrupt(a.fc).fc, dmc := Dmc.ClearInterrupt(a.dmc)), v)
  }

  /** A second read reports both IRQs clear and the same channel bits, and
   *  changes nothing more. */
  lemma ReadStatusTwice(a: Apu)
    ensures var first := ReadStatus(a); var second := ReadStatus(first.a);
      && !Bit(second.value, 6) && !Bit(second.value, 7) && second.a == first.a
      && (forall k :: 0 <= k <= 5 ==> Bit(second.value, k) == Bit(first.value, k))
  {
    var first := ReadStatus(a);
    var second := ReadStatus(first.a);
    forall k | 0 <= k <= 5
      ensures Bit(second.value, k) == Bit(first.value, k)
    {
      assert k == 0 || k == 1 || k == 2 || k == 3 || k == 4 || k == 5;
    }
  }

  /** A `$4015` write that disables a channel makes the next status read
   *  report it silent. */
  lemma DisabledReadsSilent(a: Apu, value: Byte, control: Control, k: nat)
    requires k < 4 && !Bit(value, k)
    ensures !Bit(ReadStatus(Write(a, ApuControl, value, control)).value, k)
  {
    assert k == 0 || k == 1 || k == 2 || k == 3;
  }

  // ------------------------------------------------------------------
  // Step
  // ------------------------------------------------------------------

  /** The pulse sequencers' steps lie inside the duty table, so the
   *  levels can be read. */
  predicate InTable(a: Apu)
  {
    a.pulse1.seqType < 4 && a.pulse1.seqIdx < 8 && a.pulse2.seqType < 4 && a.pulse2.seqIdx < 8
  }

  /** The five levels `step` hands to the mixer. */
  function Output(a: Apu): (l: Levels)
    requires InTable(a)
    ensures l == Levels(Pulse.Sample(a.pulse1), Pulse.Sample(a.pulse2), Triangle.Sample(a.triangle),
                        Noise.Sample(a.noise), Dmc.Sample(a.dmc))
    ensures Valid(a) ==> 0 <= l.pulse1 <= 15 && 0 <= l.pulse2 <= 15 && 0 <= l.triangle <= 15
    ensures Valid(a) ==> 0 <= l.noise <= 15 && 0 <= l.dmc <= 127
  {
    Levels(Pulse.Sample(a.pulse1), Pulse.Sample(a.pulse2), Triangle.Sample(a.triangle),
           Noise.Sample(a.noise), Dmc.Sample(a.dmc))
  }

  /** The part of `step` that runs every CPU cycle: noise, DMC and
   *  triangle clocked. */
  function EveryCycle(a: Apu, fetch: Dmc.Fetch): (r: Apu)
    ensures r == a.(noise := Noise.Clock(a.noise), dmc := Dmc.Clock(a.dmc, fetch),
                    triangle := Triangle.Clock(a.triangle))
    ensures Valid(a) ==> Valid(r)
  {
    Noise.ClockKeepsValid(a.noise);
    a.(noise := Noise.Clock(a.noise), dmc := Dmc.Clock(a.dmc, fetch), triangle := Triangle.Clock(a.triangle))
  }

  /** The part that runs every second cycle: a sequencer step with its
   *  clocks delivered, then the two pulse channels clocked. */
  function HalfRate(a: Apu): (r: Apu)
    ensures var c := FrameCounter.Clock(a.fc);
            var d := Deliver(a.(fc := c.fc), c.ev);
            r == d.(pulse1 := Pulse.Clock(d.pulse1), pulse2 := Pulse.Clock(d.pulse2))
    ensures r.fc == FrameCounter.Clock(a.fc).fc && r.dmc == a.dmc && r.divideByTwo == a.divideByTwo
    ensures r.pulse1.period == a.pulse1.period && r.pulse2.period == a.pulse2.period
    ensures InTable(a) ==> InTable(r)
    ensures Valid(a) ==> Valid(r)
  {
    var c := FrameCounter.Clock(a.fc);
    var delivered := Deliver(a.(fc := c.fc), c.ev);
    delivered.(pulse1 := Pulse.Clock(delivered.pulse1), pulse2 := Pulse.Clock(delivered.pulse2))
  }

  /** `step`: every call clocks noise, DMC and triangle; every second call
   *  also steps the frame sequencer and the pulse channels and yields the
   *  levels to mix; the half-rate flag toggles.  A step keeps the APU
   *  valid and never changes a pulse period: the sweep's target is
   *  computed for the mute test only. */
  function Step(a: Apu, fetch: Dmc.Fetch): (r: Stepped)
    requires InTable(a)
    ensures r.a.divideByTwo == !a.divideByTwo
    ensures r.levels.Some? <==> a.divideByTwo
    ensures !a.divideByTwo ==> r.a == EveryCycle(a, fetch).(divideByTwo := true)
    ensures a.divideByTwo ==> r.a == HalfRate(EveryCycle(a, fetch)).(divideByTwo := false)
    ensures a.divideByTwo ==> r.levels == Some(Output(r.a))
    ensures a.divideByTwo ==> r.a.fc == FrameCounter.Clock(a.fc).fc
    ensures r.a.dmc == Dmc.Clock(a.dmc, fetch)
    ensures r.a.pulse1.period == a.pulse1.period && r.a.pulse2.period == a.pulse2.period
    ensures InTable(r.a)
    ensures Valid(a) ==> Valid(r.a)
  {
    var every := EveryCycle(a, fetch);
    if a.divideByTwo then
      var half := HalfRate(every).(divideByTwo := false);
      Stepped(half, Some(Output(half)))
    else Stepped(every.(divideByTwo := true), None)
  }

  /** Two steps clock the frame sequencer exactly once and the DMC
   *  twice, and restore the half-rate flag. */
  lemma TwoStepsOneFrameClock(a: Apu, fetch: Dmc.Fetch)
    requires InTable(a)
    ensures var s := Step(Step(a, fetch).a, fetch);
      && s.a.fc == FrameCounter.Clock(a.fc).fc
      && s.a.dmc == Dmc.Clock(Dmc.Clock(a.dmc, fetch), fetch)
      && s.a.divideByTwo == a.divideByTwo
  {
  }
}
