/**
 * The APU's frame sequencer (src/apu/frame_counter.c): a counter of APU
 * cycles that emits quarter-frame and half-frame clocks at fixed counts,
 * in a 4-step sequence (with a frame IRQ) or a 5-step one.
 *
 * The fan-out to the units is returned as events; module Apu applies
 * them.  The IRQ handle's `pull`/`release` are external: the model keeps
 * the `frame_interrupt` flag and reports when a release is made.
 */
module FrameCounter {

  datatype Mode = Seq4Step | Seq5Step

  const Q1: int := 7457
  const Q2: int := 14913
  const Q3: int := 22371
  const Q4: int := 29829
  const Q5: int := 37281
  const Seq4Length: int := 29830
  const Seq5Length: int := 37282

  datatype FrameCounter = FrameCounter(mode: Mode, counter: int, inhibit: bool, frameInterrupt: bool)

  /** The clocks a step sends to every unit. */
  datatype Events = Events(quarter: bool, half: bool)

  const NoEvents := Events(false, false)
  const BothEvents := Events(true, true)

  datatype Clocked = Clocked(fc: FrameCounter, ev: Events)

  /** The counter is below the 5-step length, which ends either
   *  sequence. */
  predicate Valid(fc: FrameCounter)
  {
    0 <= fc.counter < Seq5Length
  }

  /** The last step of each sequence, and the count after which it
   *  starts over. */
  function LastStep(m: Mode): int
  {
    if m == Seq4Step then Q4 else Q5
  }

  function SequenceLength(m: Mode): int
  {
    if m == Seq4Step then Seq4Length else Seq5Length
  }

  /** The counts that emit a quarter-frame clock and a half-frame clock in
   *  each mode. */
  predicate IsQuarterStep(m: Mode, c: int)
  {
    c == Q1 || c == Q2 || c == Q3 || c == LastStep(m)
  }

  predicate IsHalfStep(m: Mode, c: int)
  {
    c == Q2 || c == LastStep(m)
  }

  /** `frame_counter_init`: 4-step mode, count 0, no inhibit, no IRQ. */
  function Init(): (fc: FrameCounter)
    ensures Valid(fc) && fc.mode == Seq4Step && fc.counter == 0
    ensures !fc.inhibit && !fc.frameInterrupt
  {
    FrameCounter(Seq4Step, 0, false, false)
  }

  /** The counter after clearing and whether the IRQ line was released. */
  datatype Cleared = Cleared(fc: FrameCounter, released: bool)

  /** `frame_counter_clear_frame_interrupt`: the flag is cleared, and the
   *  IRQ released only if it was set. */
  function ClearFrameInterrupt(fc: FrameCounter): (r: Cleared)
    ensures r.fc == fc.(frameInterrupt := false)
    ensures r.released == fc.frameInterrupt
  {
    if fc.frameInterrupt then Cleared(fc.(frameInterrupt := false), true) else Cleared(fc, false)
  }

  /** A second clear finds nothing to release and changes nothing. */
  lemma ClearIdempotent(fc: FrameCounter)
    ensures ClearFrameInterrupt(ClearFrameInterrupt(fc).fc) == Cleared(ClearFrameInterrupt(fc).fc, false)
  {
  }

  /** `frame_counter_reset` (a `$4017` write): the mode and inhibit change,
   *  an inhibit clears the frame IRQ, and 5-step mode clocks every unit
   *  once at once.  The counter is not touched. */
  function Reset(fc: FrameCounter, mode: Mode, inhibit: bool): (r: Clocked)
    ensures r.fc.mode == mode && r.fc.inhibit == inhibit && r.fc.counter == fc.counter
    ensures r.fc.frameInterrupt == (fc.frameInterrupt && !inhibit)
    ensures r.ev == (if mode == Seq5Step then BothEvents else NoEvents)
    ensures Valid(fc) ==> Valid(r.fc)
  {
    var updated := fc.(mode := mode, inhibit := inhibit);
    var cleared := if inhibit then ClearFrameInterrupt(updated).fc else updated;
    Clocked(cleared, if mode == Seq5Step then BothEvents else NoEvents)
  }

  /** `frame_counter_clock`: the count goes up by one; a quarter clock at
   *  the quarter steps of the mode, a half clock at its half steps, the
   *  frame IRQ at the fourth step of the 4-step mode unless inhibited; and
   *  at the end of the sequence (or of the 5-step length, whatever the
   *  mode) the count returns to 0. */
  function Clock(fc: FrameCounter): (r: Clocked)
    ensures r.fc.mode == fc.mode && r.fc.inhibit == fc.inhibit
    ensures r.ev.quarter <==> IsQuarterStep(fc.mode, fc.counter + 1)
    ensures r.ev.half <==> IsHalfStep(fc.mode, fc.counter + 1)
    ensures r.fc.frameInterrupt <==>
      fc.frameInterrupt || (fc.counter + 1 == Q4 && fc.mode == Seq4Step && !fc.inhibit)
    ensures r.fc.counter ==
      if fc.counter + 1 == SequenceLength(fc.mode) || fc.counter + 1 == Seq5Length then 0 else fc.counter + 1
    ensures Valid(fc) ==> Valid(r.fc)
  {
    var c := fc.counter + 1;
    var ev :=
      if c == Q1 || c == Q3 then Events(true, false)
      else if c == Q2 then BothEvents
      else if c == Q4 then (if fc.mode == Seq4Step then BothEvents else NoEvents)
      else if c == Q5 then (if fc.mode == Seq5Step then BothEvents else NoEvents)
      else NoEvents;
    var irq := c == Q4 && fc.mode == Seq4Step && !fc.inhibit;
    var wrapped := (fc.mode == Seq4Step && c == Seq4Length) || c == Seq5Length;
    Clocked(fc.(counter := if wrapped then 0 else c, frameInterrupt := fc.frameInterrupt || irq), ev)
  }

  // ------------------------------------------------------------------
  // Whole sequences
  // ------------------------------------------------------------------

  function Ind(b: bool): nat { if b then 1 else 0 }

  /** How many quarter steps and half steps of a mode lie in (lo, hi]. */
  function QuartersIn(m: Mode, lo: int, hi: int): nat
  {
    Ind(lo < Q1 <= hi) + Ind(lo < Q2 <= hi) + Ind(lo < Q3 <= hi) + Ind(lo < LastStep(m) <= hi)
  }

  function HalvesIn(m: Mode, lo: int, hi: int): nat
  {
    Ind(lo < Q2 <= hi) + Ind(lo < LastStep(m) <= hi)
  }

  /** n clocks, with the quarter and half clocks they emitted. */
  datatype Tally = Tally(fc: FrameCounter, quarters: nat, halves: nat)

  function Run(fc: FrameCounter, n: nat): Tally
    decreases n
  {
    if n == 0 then Tally(fc, 0, 0)
    else
      var t := Run(fc, n - 1);
      var c := Clock(t.fc);
      Tally(c.fc, t.quarters + (if c.ev.quarter then 1 else 0), t.halves + (if c.ev.half then 1 else 0))
  }

  /** Before the sequence ends, n clocks move the count by n and emit one
   *  clock for each step they pass. */
  lemma {:induction false} RunCounts(fc: FrameCounter, n: nat)
    requires 0 <= fc.counter && fc.counter + n < SequenceLength(fc.mode)
    ensures Run(fc, n).fc.counter == fc.counter + n
    ensures Run(fc, n).fc.mode == fc.mode && Run(fc, n).fc.inhibit == fc.inhibit
    ensures Run(fc, n).quarters == QuartersIn(fc.mode, fc.counter, fc.counter + n)
    ensures Run(fc, n).halves == HalvesIn(fc.mode, fc.counter, fc.counter + n)
    ensures Run(fc, n).fc.frameInterrupt ==
      (fc.frameInterrupt || (fc.mode == Seq4Step && !fc.inhibit && fc.counter < Q4 <= fc.counter + n))
    decreases n
  {
    if n > 0 {
      RunCounts(fc, n - 1);
    }
  }

  /** A whole sequence from count 0 ends back at count 0, with the frame
   *  IRQ raised in 4-step mode unless inhibited. */
  lemma WholeSequence(fc: FrameCounter, n: nat)
    requires fc.counter == 0 && n == SequenceLength(fc.mode)
    ensures Run(fc, n).fc == fc.(frameInterrupt := fc.frameInterrupt || (fc.mode == Seq4Step && !fc.inhibit))
  {
    RunCounts(fc, n - 1);
  }

  /** Up to its last step a sequence holds four quarter steps and two
   *  half steps, and the count after it is neither. */
  lemma StepsOfSequence(m: Mode)
    ensures SequenceLength(m) == LastStep(m) + 1
    ensures QuartersIn(m, 0, LastStep(m)) == 4 && HalvesIn(m, 0, LastStep(m)) == 2
    ensures !IsQuarterStep(m, SequenceLength(m)) && !IsHalfStep(m, SequenceLength(m))
  {
  }

  /** A whole sequence emits four quarter clocks and two half clocks. */
  lemma WholeSequenceClocks(fc: FrameCounter, n: nat)
    requires fc.counter == 0 && n == SequenceLength(fc.mode)
    ensures Run(fc, n).quarters == 4 && Run(fc, n).halves == 2
  {
    StepsOfSequence(fc.mode);
    RunCounts(fc, n - 1);
    var t := Run(fc, n - 1);
    assert t.fc.counter + 1 == SequenceLength(fc.mode) && t.fc.mode == fc.mode;
    var c := Clock(t.fc);
    assert !c.ev.quarter && !c.ev.half;
  }
}
