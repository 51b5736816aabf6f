/**
 * The APU's shared units (src/apu/units.c): the length counter that
 * silences a channel when it runs out, the triangle's linear counter, and
 * the volume envelope with its decay divider.
 */
module Units {
  import Divider

  // ------------------------------------------------------------------
  // Length counter
  // ------------------------------------------------------------------

  /** The 32 lengths a `$4003`-style write can load, indexed by the top
   *  five bits of the value. */
  const LengthTable: seq<int> :=
    [10, 254, 20, 2,  40, 4,  80, 6,
     160, 8,  60, 10, 14, 12, 26, 14,
     12, 16,  24, 18, 48, 20, 96, 22,
     192, 24, 72, 26, 16, 28, 32, 30]

  datatype Length = Length(halt: bool, enabled: bool, counter: int)

  /** The counter never leaves the range of the table. */
  predicate LengthValid(l: Length)
  {
    0 <= l.counter <= 254
  }

  /** `muted`: a disabled or exhausted counter silences its channel. */
  predicate Muted(l: Length)
  {
    !l.enabled || l.counter == 0
  }

  /** Every table entry is a positive even length of at most 254. */
  lemma LengthTableRange(i: nat)
    requires i < 32
    ensures 2 <= LengthTable[i] <= 254 && LengthTable[i] % 2 == 0
  {
  }

  /** `length_init`: not halted, disabled, empty. */
  function LengthInit(): (l: Length)
    ensures !l.halt && !l.enabled && l.counter == 0
    ensures LengthValid(l) && Muted(l)
  {
    Length(false, false, 0)
  }

  /** `set_enable`: disabling also empties the counter. */
  function SetEnable(l: Length, v: bool): (r: Length)
    ensures r.enabled == v && r.halt == l.halt
    ensures !v ==> r.counter == 0 && Muted(r)
    ensures v ==> r.counter == l.counter
    ensures LengthValid(l) ==> LengthValid(r)
  {
    if v then l.(enabled := true) else l.(enabled := false, counter := 0)
  }

  /** `set_from_table`: a disabled counter ignores the load; an enabled one
   *  takes the table entry and is no longer muted. */
  function LoadFromTable(l: Length, index: nat): (r: Length)
    requires index < 32
    ensures !l.enabled ==> r == l
    ensures l.enabled ==> r == l.(counter := LengthTable[index])
    ensures l.enabled ==> !Muted(r)
    ensures LengthValid(l) ==> LengthValid(r)
  {
    LengthTableRange(index);
    if !l.enabled then l else l.(counter := LengthTable[index])
  }

  /** `half_frame_clock` of the length counter: one count down unless
   *  halted or already at 0, so the counter never goes below 0. */
  function LengthHalfFrame(l: Length): (r: Length)
    ensures r == l.(counter := r.counter)
    ensures !l.halt && l.counter != 0 ==> r.counter == l.counter - 1
    ensures l.halt || l.counter == 0 ==> r == l
    ensures LengthValid(l) ==> LengthValid(r)
  {
    if l.halt || l.counter == 0 then l else l.(counter := l.counter - 1)
  }

  /** n half-frame clocks in a row. */
  function LengthHalfFrames(l: Length, n: nat): Length
    decreases n
  {
    if n == 0 then l else LengthHalfFrames(LengthHalfFrame(l), n - 1)
  }

  /** An unhalted counter of c is c - n after n half frames, and stops at
   *  0: a loaded length silences the channel after exactly that many half
   *  frames. */
  lemma {:induction false} LengthRunsOut(l: Length, n: nat)
    requires !l.halt && l.counter >= 0
    ensures LengthHalfFrames(l, n).counter == if l.counter >= n then l.counter - n else 0
    decreases n
  {
    if n > 0 {
      LengthRunsOut(LengthHalfFrame(l), n - 1);
    }
  }

  /** A halted counter keeps its value however many half frames pass. */
  lemma {:induction false} LengthHeld(l: Length, n: nat)
    requires l.halt
    ensures LengthHalfFrames(l, n) == l
    decreases n
  {
    if n > 0 {
      LengthHeld(LengthHalfFrame(l), n - 1);
    }
  }

  // ------------------------------------------------------------------
  // Linear counter
  // ------------------------------------------------------------------

  datatype Linear = Linear(reload: bool, reloadValue: int, control: bool, counter: int)

  /** `linear_init`: no reload pending, reload value 0, control set. */
  function LinearInit(): (l: Linear)
    ensures !l.reload && l.reloadValue == 0 && l.control && l.counter == 0
  {
    Linear(false, 0, true, 0)
  }

  /** `set_linear`: only the reload value changes. */
  function SetLinear(l: Linear, v: int): (r: Linear)
    ensures r == l.(reloadValue := v)
  {
    l.(reloadValue := v)
  }

  /** `lc_quarter_frame_clock`: a pending reload loads the reload value
   *  (and stays pending while control is set); then, in the same clock, a
   *  non-zero counter counts down. */
  function LinearQuarter(l: Linear): (r: Linear)
    ensures r.reloadValue == l.reloadValue && r.control == l.control
    ensures r.reload == (l.reload && l.control)
    ensures l.reload && l.reloadValue >= 0 ==>
      r.counter == if l.reloadValue > 0 then l.reloadValue - 1 else 0
    ensures !l.reload && l.counter >= 0 ==>
      r.counter == if l.counter > 0 then l.counter - 1 else 0
  {
    var loaded := if l.reload then l.(counter := l.reloadValue, reload := l.control) else l;
    if loaded.counter == 0 then loaded else loaded.(counter := loaded.counter - 1)
  }

  /** While control holds the reload, every quarter frame reloads: the
   *  clock is idempotent. */
  lemma LinearHeld(l: Linear)
    requires l.reload && l.control
    ensures LinearQuarter(LinearQuarter(l)) == LinearQuarter(l)
  {
  }

  function LinearQuarters(l: Linear, n: nat): Linear
    decreases n
  {
    if n == 0 then l else LinearQuarters(LinearQuarter(l), n - 1)
  }

  /** With control clear, a reload of v silences the triangle after v
   *  quarter frames: the counter after n clocks is v - n, floored at 0. */
  lemma LinearRunsOut(l: Linear, n: nat)
    requires l.reload && !l.control && l.reloadValue >= 0 && n >= 1
    ensures LinearQuarters(l, n).counter == if l.reloadValue >= n then l.reloadValue - n else 0
  {
    LinearCountsDown(LinearQuarter(l), n - 1);
  }

  lemma {:induction false} LinearCountsDown(l: Linear, n: nat)
    requires !l.reload && l.counter >= 0
    ensures LinearQuarters(l, n).counter == if l.counter >= n then l.counter - n else 0
    decreases n
  {
    if n > 0 {
      LinearCountsDown(LinearQuarter(l), n - 1);
    }
  }

  // ------------------------------------------------------------------
  // Volume envelope
  // ------------------------------------------------------------------

  const MaxVolume: int := 0xF

  /** `fixed` is both the constant volume and the decay divider's period,
   *  as the source's `fixedVolumeOrPeriod`. */
  datatype Envelope = Envelope(fixed: int, decay: int, div: Divider.Divider,
                               constant: bool, looping: bool, start: bool)

  /** Volumes are 4-bit, and so is the divider that paces the decay. */
  predicate EnvelopeValid(e: Envelope)
  {
    && 0 <= e.fixed <= MaxVolume && 0 <= e.decay <= MaxVolume
    && 0 <= e.div.period <= MaxVolume && 0 <= e.div.counter <= MaxVolume
  }

  /** `get`: the constant volume, or the decaying one. */
  function Volume(e: Envelope): (v: int)
    ensures e.constant ==> v == e.fixed
    ensures !e.constant ==> v == e.decay
    ensures EnvelopeValid(e) ==> 0 <= v <= MaxVolume
  {
    if e.constant then e.fixed else e.decay
  }

  /** `volume_init`: constant full volume, divider of period 0. */
  function EnvelopeInit(): (e: Envelope)
    ensures EnvelopeValid(e) && Volume(e) == MaxVolume
    ensures !e.looping && !e.start && e.div == Divider.Init(0)
  {
    Envelope(MaxVolume, MaxVolume, Divider.Init(0), true, false, false)
  }

  /** `v_quarter_frame_clock`: a pending start sets full decay and the
   *  divider's period and does nothing else; otherwise the divider is
   *  clocked and, when it fires, the decay steps down, wrapping to 15 only
   *  when looping. */
  function EnvelopeQuarter(e: Envelope): (r: Envelope)
    ensures r.fixed == e.fixed && r.constant == e.constant && r.looping == e.looping && !r.start
    ensures e.start ==> r.decay == MaxVolume && r.div == Divider.SetPeriod(e.div, e.fixed)
    ensures !e.start ==> r.div == Divider.Clock(e.div).d
    ensures !e.start && !Divider.Clock(e.div).fired ==> r.decay == e.decay
    ensures !e.start && Divider.Clock(e.div).fired ==>
      r.decay == if e.decay > 0 then e.decay - 1 else if e.looping then MaxVolume else e.decay
    ensures EnvelopeValid(e) ==> EnvelopeValid(r)
  {
    if e.start then e.(start := false, decay := MaxVolume, div := Divider.SetPeriod(e.div, e.fixed))
    else
      var c := Divider.Clock(e.div);
      if !c.fired then e.(div := c.d)
      else if e.decay > 0 then e.(div := c.d, decay := e.decay - 1)
      else if e.looping then e.(div := c.d, decay := MaxVolume)
      else e.(div := c.d)
  }

  function EnvelopeQuarters(e: Envelope, n: nat): Envelope
    decreases n
  {
    if n == 0 then e else EnvelopeQuarters(EnvelopeQuarter(e), n - 1)
  }

  /** Without looping, the decay never rises once started, and a decay of
   *  0 stays 0. */
  lemma {:induction false} DecayNeverRises(e: Envelope, n: nat)
    requires !e.start && !e.looping
    ensures EnvelopeQuarters(e, n).decay <= e.decay
    ensures e.decay == 0 ==> EnvelopeQuarters(e, n).decay == 0
    decreases n
  {
    if n > 0 {
      DecayNeverRises(EnvelopeQuarter(e), n - 1);
    }
  }
}
