/**
 * The APU's noise channel (src/apu/noise.c): a 15-bit linear feedback
 * shift register clocked by a divider whose period comes from a 16-entry
 * table, with an envelope and a length counter.
 */
module Noise {
  import Divider
  import Units

  /** `enum Mode`: feedback from bit 1 or from bit 6. */
  datatype Mode = Bit1 | Bit6

  /** The file-scope `mode` that the feedback reads.  Nothing assigns it,
   *  so it keeps its zero value, Bit1; the register writes set the
   *  channel's own `mode` field instead. */
  const GlobalMode: Mode := Bit1

  datatype Noise = Noise(env: Units.Envelope, length: Units.Length, div: Divider.Divider,
                         mode: Mode, period: int, shiftReg: bv32)

  /** A 4-bit envelope, a length within the table, and a register of 15
   *  bits that is not 0. */
  predicate Valid(n: Noise)
  {
    && Units.EnvelopeValid(n.env) && Units.LengthValid(n.length)
    && 0 < n.shiftReg < 0x8000
  }

  /** The 16 timer periods a `$400E` write selects. */
  const PeriodTable: seq<int> :=
    [4, 8, 16, 32, 64, 96, 128, 160, 202, 254, 380, 508, 762, 1016, 2034, 4068]

  /** `noise_init`: shift register 1, mode Bit1, the units in their init
   *  states. */
  function Init(): (n: Noise)
    ensures n.shiftReg == 1 && n.mode == Bit1 && n.period == 0 && Valid(n)
    ensures n.env == Units.EnvelopeInit() && n.length == Units.LengthInit()
  {
    Noise(Units.EnvelopeInit(), Units.LengthInit(), Divider.Init(0), Bit1, 0, 1)
  }

  /** `set_period_from_table`: the divider's period becomes table entry
   *  idx; the channel's own `period` field is left as it was. */
  function SetPeriodFromTable(n: Noise, idx: nat): (r: Noise)
    requires idx < 16
    ensures r == n.(div := Divider.SetPeriod(n.div, PeriodTable[idx]))
    ensures 4 <= r.div.period <= 4068 && r.div.period % 2 == 0
  {
    n.(div := Divider.SetPeriod(n.div, PeriodTable[idx]))
  }

  /** The feedback bit: when bit 1 is set the first input is `mode ==
   *  Bit1` on the file-scope mode, otherwise it is bit 6; the feedback is
   *  that input differing from bit 0. */
  function Feedback(reg: bv32): bool
  {
    (if reg & 0x2 != 0 then GlobalMode == Bit1 else reg & 0x40 != 0) != (reg & 0x1 != 0)
  }

  /** The register after one clock of divider d. */
  function NextRegister(d: Divider.Divider, reg: bv32): (r: bv32)
    ensures reg < 0x8000 ==> r < 0x8000
  {
    if !Divider.Clock(d).fired then reg else (reg >> 1) | (if Feedback(reg) then 0x4000 else 0)
  }

  /** `n_clock`: the divider is clocked, and only when it fires does the
   *  register shift right by one with the feedback entering bit 14. */
  function Clock(n: Noise): (r: Noise)
    ensures r == n.(div := Divider.Clock(n.div).d, shiftReg := r.shiftReg)
    ensures !Divider.Clock(n.div).fired ==> r.shiftReg == n.shiftReg
  {
    n.(div := Divider.Clock(n.div).d, shiftReg := NextRegister(n.div, n.shiftReg))
  }

  /** When the divider fires, the register shifts right by one and the
   *  feedback enters bit 14. */
  lemma ClockShifts(n: Noise)
    requires Divider.Clock(n.div).fired
    ensures Clock(n).shiftReg == (n.shiftReg >> 1) | (if Feedback(n.shiftReg) then 0x4000 else 0)
  {
  }

  /** From 15 bits the register stays within 15 bits. */
  lemma ClockKeeps15Bits(n: Noise)
    requires n.shiftReg < 0x8000
    ensures Clock(n).shiftReg < 0x8000
  {
  }

  /** A non-zero register never becomes 0, so the noise never locks up
   *  from a valid state. */
  lemma ClockNonZero(n: Noise)
    requires n.shiftReg != 0 && n.shiftReg < 0x8000
    ensures Clock(n).shiftReg != 0
  {
  }

  /** A clock keeps the channel valid: it touches only the divider and
   *  the register, and the register keeps 15 bits and never becomes 0. */
  lemma ClockKeepsValid(n: Noise)
    ensures Valid(n) ==> Valid(Clock(n))
  {
    if Valid(n) {
      ClockKeeps15Bits(n);
      ClockNonZero(n);
    }
  }

  /** The channel's `mode` field has no effect on the register: the
   *  feedback reads the file-scope mode. */
  lemma ModeIgnored(n: Noise, m: Mode)
    ensures Clock(n.(mode := m)).shiftReg == Clock(n).shiftReg
  {
  }

  /** `n_sample`: the envelope volume. */
  function Sample(n: Noise): (v: int)
    ensures v == Units.Volume(n.env)
    ensures Units.EnvelopeValid(n.env) ==> 0 <= v <= 15
  {
    Units.Volume(n.env)
  }

  /** The sample depends on neither the shift register nor the length
   *  counter: a muted noise channel still sounds. */
  lemma SampleIgnoresRegister(n: Noise, reg: bv32, len: Units.Length)
    ensures Sample(n.(shiftReg := reg, length := len)) == Sample(n)
  {
  }
}
