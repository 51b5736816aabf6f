/**
 * The APU's triangle channel (src/apu/triangle.c): a 32-step sequencer
 * paced by a divider, gated by the length counter and the linear
 * counter, whose step is mapped onto a 15 .. 0 .. 15 ramp.
 */
module Triangle {
  import Divider
  import Units

  datatype Triangle = Triangle(length: Units.Length, linear: Units.Linear,
                               seqIdx: nat, sequencer: Divider.Divider, period: int)

  /** A length within the table and a step inside the 32-step sequence. */
  predicate Valid(t: Triangle)
  {
    Units.LengthValid(t.length) && t.seqIdx < 32
  }

  /** `triangle_init`: fresh counters, step 0, divider of period 0. */
  function Init(): (t: Triangle)
    ensures t.seqIdx == 0 && t.period == 0
    ensures t.length == Units.LengthInit() && t.linear == Units.LinearInit()
    ensures Sample(t) == 15 && Valid(t)
  {
    Triangle(Units.LengthInit(), Units.LinearInit(), 0, Divider.Init(0), 0)
  }

  /** `t_set_period`: the channel's period and its sequencer's. */
  function SetPeriod(t: Triangle, p: int): (r: Triangle)
    ensures r.period == p && r.sequencer == Divider.SetPeriod(t.sequencer, p)
    ensures r == t.(period := p, sequencer := r.sequencer)
  {
    t.(period := p, sequencer := Divider.SetPeriod(t.sequencer, p))
  }

  /** `t_clock`: nothing moves while the length counter is muted or the
   *  linear counter is 0; otherwise the sequencer divider is clocked and,
   *  when it fires, the step advances modulo 32. */
  function Clock(t: Triangle): (r: Triangle)
    ensures Units.Muted(t.length) || t.linear.counter == 0 ==> r == t
    ensures !Units.Muted(t.length) && t.linear.counter != 0 ==>
      r == t.(sequencer := Divider.Clock(t.sequencer).d, seqIdx := r.seqIdx)
    ensures !Units.Muted(t.length) && t.linear.counter != 0 && Divider.Clock(t.sequencer).fired ==>
      r.seqIdx == (t.seqIdx + 1) % 32
    ensures !Divider.Clock(t.sequencer).fired ==> r.seqIdx == t.seqIdx
    ensures t.seqIdx < 32 ==> r.seqIdx < 32
    ensures r.length == t.length && r.linear == t.linear && r.period == t.period
    ensures Valid(t) ==> Valid(r)
  {
    if Units.Muted(t.length) then t
    else if t.linear.counter == 0 then t
    else
      var c := Divider.Clock(t.sequencer);
      t.(sequencer := c.d, seqIdx := if c.fired then (t.seqIdx + 1) % 32 else t.seqIdx)
  }

  /** `t_volume` (and `t_sample`): 15 down to 0 over the first half of the
   *  sequence, 0 up to 15 over the second. */
  function Volume(idx: nat): (v: int)
    ensures idx < 32 ==> 0 <= v <= 15
    ensures idx < 16 ==> v == 15 - idx
    ensures idx >= 16 ==> v == idx - 16
  {
    if idx < 16 then 15 - idx else idx - 16
  }

  /** `t_sample`: the level of the current step, within 0-15 while the
   *  step is inside the sequence. */
  function Sample(t: Triangle): (r: int)
    ensures t.seqIdx < 32 ==> 0 <= r <= 15
    ensures t.seqIdx < 16 ==> r == 15 - t.seqIdx
    ensures t.seqIdx >= 16 ==> r == t.seqIdx - 16
  {
    Volume(t.seqIdx)
  }

  /** The waveform is symmetric: step i and step 31 - i have the same
   *  level, and neighbouring steps differ by at most one except at the
   *  repeated 0 and 15. */
  lemma VolumeSymmetric(i: nat)
    requires i < 32
    ensures Volume(i) == Volume(31 - i)
    ensures i < 31 ==> (Volume(i + 1) - Volume(i) == 1 || Volume(i) - Volume(i + 1) == 1
                        || (i == 15 && Volume(i) == Volume(i + 1) == 0))
  {
  }

  function Clocks(t: Triangle, n: nat): Triangle
    decreases n
  {
    if n == 0 then t else Clocks(Clock(t), n - 1)
  }

  /** However long the channel runs, the step stays in the sequence, so
   *  the output stays a 4-bit level. */
  lemma {:induction false} ClocksStayInSequence(t: Triangle, n: nat)
    requires t.seqIdx < 32
    ensures Clocks(t, n).seqIdx < 32 && 0 <= Sample(Clocks(t, n)) <= 15
    decreases n
  {
    if n > 0 {
      ClocksStayInSequence(Clock(t), n - 1);
    }
  }

  /** A silenced triangle holds its level: muted or with an empty linear
   *  counter, no number of clocks changes it. */
  lemma {:induction false} SilencedHolds(t: Triangle, n: nat)
    requires Units.Muted(t.length) || t.linear.counter == 0
    ensures Clocks(t, n) == t
    decreases n
  {
    if n > 0 {
      SilencedHolds(Clock(t), n - 1);
    }
  }
}
