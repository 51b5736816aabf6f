/**
 * The APU's divider (src/headers/apu/divider.h): a counter that counts
 * down to 0 and, on the clock that finds it at 0, fires and reloads the
 * period.  Every channel's timer and the envelope, sweep and DMC rate
 * units are dividers.
 */
module Divider {
  import opened Bits

  datatype Divider = Divider(period: int, counter: int)

  /** The divider after one clock and whether that clock fired. */
  datatype Clocked = Clocked(d: Divider, fired: bool)

  /** The counter lies between 0 and the period. */
  predicate Valid(d: Divider)
  {
    0 <= d.counter <= d.period
  }

  /** `divider_init`: the given period and a counter of 0, so the first
   *  clock fires. */
  function Init(period: int): (d: Divider)
    ensures d.period == period
    ensures period >= 0 ==> Valid(d)
    ensures Clock(d).fired
  {
    Divider(period, 0)
  }

  /** `div_clock`: at 0 the divider fires and reloads the period; otherwise
   *  it counts down and does not fire. */
  function Clock(d: Divider): (r: Clocked)
    ensures r.fired <==> d.counter == 0
    ensures r.d.period == d.period
    ensures r.fired ==> r.d.counter == d.period
    ensures !r.fired ==> r.d.counter == d.counter - 1
    ensures Valid(d) ==> Valid(r.d)
  {
    if d.counter == 0 then Clocked(d.(counter := d.period), true)
    else Clocked(d.(counter := d.counter - 1), false)
  }

  /** `set_period`: only the period changes; the count in progress runs
   *  out first. */
  function SetPeriod(d: Divider, p: int): (r: Divider)
    ensures r.period == p && r.counter == d.counter
    ensures 0 <= d.counter <= p ==> Valid(r)
  {
    d.(period := p)
  }

  /** `div_reset`: the counter restarts from the period, so the next fire
   *  comes after period + 1 clocks. */
  function Reset(d: Divider): (r: Divider)
    ensures r.period == d.period && r.counter == d.period
    ensures d.period >= 0 ==> Valid(r)
    ensures d.period > 0 ==> !Clock(r).fired
  {
    d.(counter := d.period)
  }

  /** n clocks: the divider afterwards and what each clock returned. */
  datatype Ran = Ran(d: Divider, fires: seq<bool>)

  function Run(d: Divider, n: nat): (r: Ran)
    ensures |r.fires| == n && r.d.period == d.period
    decreases n
  {
    if n == 0 then Ran(d, [])
    else
      var rest := Run(Clock(d).d, n - 1);
      Ran(rest.d, [Clock(d).fired] + rest.fires)
  }

  /** Clock i of a run fires exactly when i is congruent to the starting
   *  counter modulo period + 1: the first fire comes after `counter`
   *  clocks and then one every period + 1. */
  lemma {:induction false} RunFires(d: Divider, n: nat, i: nat)
    requires Valid(d) && i < n
    ensures Run(d, n).fires[i] <==> i % (d.period + 1) == d.counter
    decreases n
  {
    if i == 0 {
      ModUnique(0, d.period + 1, 0, 0);
    } else {
      RunFires(Clock(d).d, n - 1, i - 1);
      StepBack(i, d.period, d.counter);
    }
  }

  /** One clock earlier in the run is one count earlier in the divider. */
  lemma StepBack(i: int, p: int, c: int)
    requires 0 <= c <= p && i >= 1
    ensures (i - 1) % (p + 1) == (if c == 0 then p else c - 1) <==> i % (p + 1) == c
  {
    var q, r := (i - 1) / (p + 1), (i - 1) % (p + 1);
    if r == p {
      ModUnique(i, p + 1, q + 1, 0);
    } else {
      ModUnique(i, p + 1, q, r + 1);
    }
  }

  /** A divider straight from `divider_init` fires on clock 0 and then on
   *  every (period + 1)-th clock. */
  lemma InitFiresEvery(period: nat, n: nat, i: nat)
    requires i < n
    ensures Run(Init(period), n).fires[i] <==> i % (period + 1) == 0
  {
    RunFires(Init(period), n, i);
  }

  /** A counter of c runs out after c clocks, none of which fires. */
  lemma {:induction false} Countdown(d: Divider)
    requires Valid(d)
    ensures Run(d, d.counter).d == d.(counter := 0)
    ensures forall i :: 0 <= i < d.counter ==> !Run(d, d.counter).fires[i]
    decreases d.counter
  {
    if d.counter > 0 {
      var rest := Run(Clock(d).d, d.counter - 1);
      Countdown(Clock(d).d);
      assert Run(d, d.counter).fires == [false] + rest.fires;
    }
  }

  /** From 0, period + 1 clocks bring the divider back where it started. */
  lemma Periodic(d: Divider)
    requires Valid(d) && d.counter == 0
    ensures Run(d, d.period + 1).d == d
  {
    Countdown(Clock(d).d);
  }
}
