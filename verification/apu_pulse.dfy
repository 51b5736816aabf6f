/**
 * The APU's two pulse channels (src/apu/pulse.c and
 * src/headers/apu/pulse_units.h): an 8-step duty sequencer paced by a
 * divider on the 11-bit period, an envelope, a length counter, and a
 * sweep unit whose target period decides whether the channel is muted.
 */
module Pulse {
  import opened Bits
  import Divider
  import Units

  /** `enum Pulse_Type`: Pulse1 = 1, Pulse2 = 2. */
  datatype Kind = Pulse1 | Pulse2

  function KindValue(k: Kind): int { if k.Pulse1? then 1 else 2 }

  datatype Sweep = Sweep(period: int, enabled: bool, reload: bool, negate: bool,
                         shift: nat, onesComplement: bool, div: Divider.Divider)

  datatype Pulse = Pulse(env: Units.Envelope, length: Units.Length,
                         seqIdx: nat, seqType: nat, sequencer: Divider.Divider,
                         period: int, kind: Kind, sweep: Sweep)

  /** `size_t` holds values below 2^64. */
  const SizeLimit: nat := 0x1_0000_0000_0000_0000

  /** The largest pulse period, and the largest sweep target that is not
   *  muted. */
  const MaxPeriod: int := 0x7FF

  /** The 3-bit sweep fields, the 11-bit period shared with the
   *  sequencer's divider, and a sequencer step inside the duty row. */
  predicate SweepValid(s: Sweep)
  {
    && 0 <= s.period <= 7 && s.shift <= 7
    && 0 <= s.div.period <= 7 && 0 <= s.div.counter <= 7
  }

  predicate Valid(p: Pulse)
  {
    && Units.EnvelopeValid(p.env) && Units.LengthValid(p.length)
    && p.seqIdx < 8 && p.seqType < 4
    && 0 <= p.period <= MaxPeriod && p.sequencer.period == p.period
    && 0 <= p.sequencer.counter <= MaxPeriod
    && SweepValid(p.sweep)
  }

  // ------------------------------------------------------------------
  // Duty table
  // ------------------------------------------------------------------

  /** `_sequences`: four rows of eight steps, 12.5%, 25%, 50% and 25%
   *  negated. */
  const DutyTable: seq<bool> :=
    [false, false, false, false, false, false, false, true,
     false, false, false, false, false, false, true,  true,
     false, false, false, false, true,  true,  true,  true,
     true,  true,  true,  true,  true,  true,  false, false]

  function CountTrue(s: seq<bool>): (n: nat)
    ensures n <= |s|
  {
    if s == [] then 0 else (if s[0] then 1 else 0) + CountTrue(s[1..])
  }

  /** Row `cycle` of the table. */
  function DutyRow(cycle: nat): (row: seq<bool>)
    requires cycle < 4
    ensures |row| == 8 && forall i :: 0 <= i < 8 ==> row[i] == DutyTable[8 * cycle + i]
  {
    DutyTable[8 * cycle..8 * cycle + 8]
  }

  /** The rows have 1, 2, 4 and 6 active steps: 12.5%, 25%, 50% and 75%
   *  duty. */
  lemma DutyRowCounts()
    ensures CountTrue(DutyRow(0)) == 1 && CountTrue(DutyRow(1)) == 2
    ensures CountTrue(DutyRow(2)) == 4 && CountTrue(DutyRow(3)) == 6
  {
    assert DutyRow(0) == [false, false, false, false, false, false, false, true];
    assert DutyRow(1) == [false, false, false, false, false, false, true, true];
    assert DutyRow(2) == [false, false, false, false, true, true, true, true];
    assert DutyRow(3) == [true, true, true, true, true, true, false, false];
  }

  /** The last row is the step-by-step complement of the second. */
  lemma DutyRowNegated(i: nat)
    requires i < 8
    ensures DutyRow(3)[i] == !DutyRow(1)[i]
  {
  }

  /** `active` as written: the table is read at `cycle * 8 + idx` with no
   *  bound check; None stands for a read outside the 32 entries. */
  function ActiveAsWritten(cycle: nat, idx: nat): (r: Option<bool>)
    ensures r.Some? <==> 8 * cycle + idx < 32
    ensures r.Some? ==> r.value == DutyTable[8 * cycle + idx]
  {
    if 8 * cycle + idx < 32 then Some(DutyTable[8 * cycle + idx]) else None
  }

  /** `active` for a step inside its row. */
  function Active(cycle: nat, idx: nat): (r: bool)
    requires cycle < 4 && idx < 8
    ensures r == DutyRow(cycle)[idx]
    ensures ActiveAsWritten(cycle, idx) == Some(r)
  {
    DutyTable[8 * cycle + idx]
  }

  // ------------------------------------------------------------------
  // Sequencer
  // ------------------------------------------------------------------

  /** The sequencer step of `p_clock` as written: `8 + (seq_idx - 1) % 8`
   *  on a `size_t`, where 0 - 1 wraps to 2^64 - 1.  The result is always
   *  8 to 15, past the end of the duty row. */
  function SeqStepAsWritten(idx: nat): (r: nat)
    requires idx < SizeLimit
    ensures 8 <= r <= 15
    ensures idx == 0 ==> r == 15
    ensures idx > 0 ==> r == 8 + (idx - 1) % 8
  {
    8 + ((idx - 1) % SizeLimit) % 8
  }

  /** With the written step, the sample reads the next duty row, and for
   *  the last row it reads past the end of the table. */
  lemma SeqAsWrittenLeavesRow(cycle: nat, idx: nat)
    requires cycle < 4 && idx < SizeLimit
    ensures cycle == 3 ==> ActiveAsWritten(cycle, SeqStepAsWritten(idx)).None?
    ensures cycle < 3 ==>
      ActiveAsWritten(cycle, SeqStepAsWritten(idx)) == Some(DutyRow(cycle + 1)[SeqStepAsWritten(idx) - 8])
  {
  }

  /** The evident intent, `(8 + seq_idx - 1) % 8`: the step moves back one
   *  place in the row, from 0 round to 7. */
  function SeqStep(idx: nat): (r: nat)
    ensures r < 8
    ensures idx < 8 ==> r == if idx == 0 then 7 else idx - 1
  {
    (8 + idx - 1) % 8
  }

  function SeqSteps(idx: nat, n: nat): nat
    decreases n
  {
    if n == 0 then idx else SeqSteps(SeqStep(idx), n - 1)
  }

  /** n steps from a place in the row land n places back, modulo 8: the
   *  sequencer visits the whole row every eight steps. */
  lemma {:induction false} SeqStepsBack(idx: nat, n: nat)
    requires idx < 8
    ensures SeqSteps(idx, n) == (idx - n) % 8
    decreases n
  {
    if n > 0 {
      SeqStepsBack(SeqStep(idx), n - 1);
      ModUnique(idx - n, 8, (SeqStep(idx) - (n - 1)) / 8 - (if idx == 0 then 1 else 0),
                (SeqStep(idx) - (n - 1)) % 8);
    }
  }

  /** `p_set_period`: the channel's period and its sequencer's. */
  function SetPeriod(p: Pulse, pi: int): (r: Pulse)
    ensures r.period == pi && r.sequencer == Divider.SetPeriod(p.sequencer, pi)
    ensures r == p.(period := pi, sequencer := r.sequencer)
    ensures Valid(p) && 0 <= pi <= MaxPeriod ==> Valid(r)
  {
    p.(period := pi, sequencer := Divider.SetPeriod(p.sequencer, pi))
  }

  /** `p_clock` with the corrected step: the sequencer divider is clocked
   *  and, when it fires, the step moves one place back in the row. */
  function Clock(p: Pulse): (r: Pulse)
    ensures r == p.(sequencer := Divider.Clock(p.sequencer).d, seqIdx := r.seqIdx)
    ensures Divider.Clock(p.sequencer).fired ==> r.seqIdx == SeqStep(p.seqIdx)
    ensures !Divider.Clock(p.sequencer).fired ==> r.seqIdx == p.seqIdx
    ensures Valid(p) ==> Valid(r)
  {
    var c := Divider.Clock(p.sequencer);
    p.(sequencer := c.d, seqIdx := if c.fired then SeqStep(p.seqIdx) else p.seqIdx)
  }

  // ------------------------------------------------------------------
  // Sweep
  // ------------------------------------------------------------------

  /** `calculate_target`: the current period plus or minus itself shifted
   *  right; with negate, ones'-complement channels subtract one more, and
   *  the result is floored at 0.  `>>` on an int is floor division by
   *  2^shift. */
  function CalculateTarget(s: Sweep, current: int): (r: int)
    ensures !s.negate ==> r == current + current / Pow2(s.shift)
    ensures s.negate ==> r >= 0
    ensures s.negate && s.onesComplement ==>
      r == if current - current / Pow2(s.shift) - 1 < 0 then 0 else current - current / Pow2(s.shift) - 1
    ensures s.negate && !s.onesComplement ==>
      r == if current - current / Pow2(s.shift) < 0 then 0 else current - current / Pow2(s.shift)
  {
    var amt := current / Pow2(s.shift);
    if !s.negate then current + amt
    else if s.onesComplement then (if 0 > current - amt - 1 then 0 else current - amt - 1)
    else (if 0 > current - amt then 0 else current - amt)
  }

  /** A sweep up never lowers a period and at most doubles it; a sweep down
   *  never raises it. */
  lemma TargetBounds(s: Sweep, current: int)
    requires current >= 0
    ensures !s.negate ==> current <= CalculateTarget(s, current) <= 2 * current
    ensures s.negate ==> 0 <= CalculateTarget(s, current) <= current
  {
    DivBelow(current, Pow2(s.shift));
  }

  lemma DivBelow(x: int, d: int)
    requires x >= 0 && d >= 1
    ensures 0 <= x / d <= x
  {
    var q := x / d;
    assert x == q * d + x % d;
    if q > x {
      MulMonotone(x + 1, q, d);
    }
  }

  /** `is_muted`: a period below 8 or a target beyond 11 bits. */
  predicate IsMuted(current: int, target: int)
  {
    current < 8 || target > MaxPeriod
  }

  /** `sweep_init`: everything off, divider of period 0. */
  function SweepInit(onesComplement: bool): (s: Sweep)
    ensures SweepValid(s) && !s.enabled && !s.reload && !s.negate && s.shift == 0
    ensures s.onesComplement == onesComplement
  {
    Sweep(0, false, false, false, 0, onesComplement, Divider.Init(0))
  }

  /** `s_half_frame_clock`: a pending reload sets the divider's period and
   *  ends the clock; an enabled sweep clocks its divider.  The target it
   *  then computes is discarded, so only the divider and the reload flag
   *  ever change. */
  function SweepHalfFrame(s: Sweep): (r: Sweep)
    ensures r == s.(div := r.div, reload := false)
    ensures s.reload ==> r.div == Divider.SetPeriod(s.div, s.period)
    ensures !s.reload && s.enabled ==> r.div == Divider.Clock(s.div).d
    ensures !s.reload && !s.enabled ==> r == s
    ensures SweepValid(s) ==> SweepValid(r)
  {
    if s.reload then s.(div := Divider.SetPeriod(s.div, s.period), reload := false)
    else if !s.enabled then s
    else s.(div := Divider.Clock(s.div).d)
  }

  // ------------------------------------------------------------------
  // Channel
  // ------------------------------------------------------------------

  /** `pulse_init`: the sweep's ones'-complement flag is the Pulse_Type
   *  value converted to bool, true for both channels.  The other units are
   *  in their init states. */
  function Init(kind: Kind): (p: Pulse)
    ensures Valid(p) && p.kind == kind
    ensures p.sweep.onesComplement
    ensures p.seqIdx == 0 && p.period == 0
  {
    Pulse(Units.EnvelopeInit(), Units.LengthInit(), 0, 0, Divider.Init(0), 0, kind,
          SweepInit(KindValue(kind) != 0))
  }

  /** `p_sample` as written: the sweep's mute test is given the sweep
   *  divider's period (a 3-bit field) instead of the channel's period.
   *  None stands for a duty read outside the table. */
  function SampleAsWritten(p: Pulse): (r: Option<int>)
    ensures r.None? ==> !Units.Muted(p.length) && p.seqType * 8 + p.seqIdx >= 32
    ensures Units.Muted(p.length) ==> r == Some(0)
  {
    if Units.Muted(p.length) then Some(0)
    else if IsMuted(p.sweep.period, CalculateTarget(p.sweep, p.sweep.period)) then Some(0)
    else match ActiveAsWritten(p.seqType, p.seqIdx)
      case None => None
      case Some(on) => Some(if on then Units.Volume(p.env) else 0)
  }

  /** The sweep period written by `$4001` is at most 7, below the mute
   *  threshold of 8: as written, a pulse channel is always silent. */
  lemma SampleAsWrittenSilent(p: Pulse)
    requires p.sweep.period <= 7
    ensures SampleAsWritten(p) == Some(0)
  {
  }

  /** `p_sample` with the channel's own period in the mute test: the
   *  envelope volume when the length counter runs, the period is in
   *  range and the duty step is on; 0 otherwise. */
  function Sample(p: Pulse): (r: int)
    requires p.seqType < 4 && p.seqIdx < 8
    ensures r == 0 || r == Units.Volume(p.env)
    ensures Units.Muted(p.length) ==> r == 0
    ensures IsMuted(p.period, CalculateTarget(p.sweep, p.period)) ==> r == 0
    ensures !Active(p.seqType, p.seqIdx) ==> r == 0
    ensures (!Units.Muted(p.length) && !IsMuted(p.period, CalculateTarget(p.sweep, p.period))
             && Active(p.seqType, p.seqIdx)) ==> r == Units.Volume(p.env)
    ensures Valid(p) ==> 0 <= r <= Units.MaxVolume
  {
    if Units.Muted(p.length) then 0
    else if IsMuted(p.period, CalculateTarget(p.sweep, p.period)) then 0
    else if !Active(p.seqType, p.seqIdx) then 0
    else Units.Volume(p.env)
  }

  /** The corrected sample is audible: a running channel with period 0x100,
   *  no sweep and the 50% duty at its first active step plays its volume,
   *  where the written one is silent. */
  lemma SampleAudible(p: Pulse)
    requires Valid(p) && !Units.Muted(p.length) && p.period == 0x100
    requires !p.sweep.negate && p.sweep.shift == 0 && p.seqType == 2 && p.seqIdx == 4
    ensures Sample(p) == Units.Volume(p.env)
    ensures SampleAsWritten(p) == Some(0)
  {
    assert Pow2(0) == 1;
  }
}
