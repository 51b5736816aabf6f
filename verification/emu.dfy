/**
 * The emulator loop of src/emu.c: one CPU instruction, three PPU dots per
 * CPU cycle, and the NMI bridge that turns a pending PPU NMI into a raised
 * CPU NMI line; runs for a number of instructions or of frames.
 *
 * The CPU works on its flat memory (module Cpu6502) and the PPU is stepped
 * beside it; the bus routing between them is module Bus.  The loop is
 * written over any CPU step function that takes 2 to 15 cycles, and
 * `Cpu6502.Step` is one (CpuStepPaced).
 */
module Emu {
  import Cpu6502
  import Ppu

  datatype Emu = Emu(m: Cpu6502.Machine, ppu: Ppu.Ppu)

  /** The emulator after one tick and the CPU cycles the tick used. */
  datatype Ticked = Ticked(e: Emu, used: nat)

  /** A `cpu_step`: the machine after one instruction and its cycles. */
  type CpuStep = Cpu6502.Machine -> Cpu6502.Stepped

  /** Every step takes between 2 and 15 cycles. */
  ghost predicate Paced(step: CpuStep)
  {
    forall m :: 2 <= step(m).cycles <= 15
  }

  /** The interpreter's `cpu_step` is paced. */
  lemma CpuStepPaced()
    ensures Paced(Cpu6502.Step)
  {
  }

  /** `cycles_for_frame`: NTSC frames alternate 29780 and 29781 CPU cycles.
   *  `frame_index & 1` on a two's-complement int is the Euclidean
   *  remainder modulo 2. */
  function CyclesForFrame(frame: int): (r: nat)
    ensures r == 29780 || r == 29781
    ensures r == 29781 <==> frame % 2 == 1
  {
    if frame % 2 == 1 then 29781 else 29780
  }

  /** Two consecutive frames take 59561 cycles, 29780.5 on average. */
  lemma FramePairCycles(frame: int)
    ensures CyclesForFrame(frame) + CyclesForFrame(frame + 1) == 59561
  {
  }

  /** The NMI bridge: a pending PPU NMI raises the CPU line and is cleared;
   *  nothing else changes. */
  function NmiBridge(e: Emu): (r: Emu)
    ensures !r.ppu.nmiPending
    ensures r.m.cpu.nmiLine == (e.m.cpu.nmiLine || e.ppu.nmiPending)
    ensures r.m.mem == e.m.mem && r.m.cpu == e.m.cpu.(nmiLine := r.m.cpu.nmiLine)
    ensures r.ppu == e.ppu.(nmiPending := false)
  {
    if e.ppu.nmiPending then Emu(e.m.(cpu := Cpu6502.RaiseNmi(e.m.cpu)), Ppu.ClearNmi(e.ppu))
    else e
  }

  /** `cpu_reset` on the whole machine: the CPU registers reset and the
   *  PPU's pending NMI dropped, so the bridge has nothing to deliver until
   *  the PPU next enters VBlank. */
  function Reset(e: Emu): (r: Emu)
    ensures r.m == Cpu6502.Reset(e.m)
    ensures !r.ppu.nmiPending && r.ppu.(nmiPending := e.ppu.nmiPending) == e.ppu
    ensures !r.m.cpu.nmiLine && NmiBridge(r) == r
  {
    Emu(Cpu6502.Reset(e.m), Ppu.ClearNmi(e.ppu))
  }

  /** Resetting twice is resetting once. */
  lemma ResetIdempotent(e: Emu)
    ensures Reset(Reset(e)) == Reset(e)
  {
    Cpu6502.ResetIdempotent(e.m);
  }

  /** `emu_step_one_tick`: one `cpu_step`, `ppu_tick` with its cycles, then
   *  the NMI bridge. */
  function Tick(e: Emu, step: CpuStep): (r: Ticked)
    ensures r.used == step(e.m).cycles
    ensures !r.e.ppu.nmiPending
  {
    Ticked(NmiBridge(Emu(step(e.m).m, Ppu.Steps(e.ppu, 3 * step(e.m).cycles))), step(e.m).cycles)
  }

  /** A tick leaves the CPU where `cpu_step` left it, except for an NMI
   *  line raised when the PPU requested an NMI during its dots. */
  lemma TickCpu(e: Emu, step: CpuStep)
    ensures Tick(e, step).e.m.mem == step(e.m).m.mem
    ensures Tick(e, step).e.m.cpu == step(e.m).m.cpu.(nmiLine := Tick(e, step).e.m.cpu.nmiLine)
    ensures Tick(e, step).e.m.cpu.nmiLine
      == (step(e.m).m.cpu.nmiLine || Ppu.Steps(e.ppu, 3 * Tick(e, step).used).nmiPending)
  {
  }

  /** A tick moves the PPU three dots per CPU cycle in raster order, and
   *  keeps it inside the frame. */
  lemma TickPpu(e: Emu, step: CpuStep)
    requires Ppu.InFrame(e.ppu.scanline, e.ppu.dot)
    ensures Ppu.InFrame(Tick(e, step).e.ppu.scanline, Tick(e, step).e.ppu.dot)
    ensures Ppu.RasterIndex(Tick(e, step).e.ppu.scanline, Tick(e, step).e.ppu.dot)
      == (Ppu.RasterIndex(e.ppu.scanline, e.ppu.dot) + 3 * Tick(e, step).used) % Ppu.DotsPerFrame
  {
    Ppu.StepsStayInFrame(e.ppu, 3 * Tick(e, step).used);
    Ppu.StepsPosition(e.ppu, 3 * Tick(e, step).used);
  }

  // ------------------------------------------------------------------
  // Running for a number of instructions
  // ------------------------------------------------------------------

  /** n ticks in a row. */
  function Ticks(e: Emu, step: CpuStep, n: nat): Emu
    decreases n
  {
    if n == 0 then e else Ticks(Tick(e, step).e, step, n - 1)
  }

  /** Ticks compose: n + k ticks are n ticks followed by k more. */
  lemma {:induction false} TicksAdd(e: Emu, step: CpuStep, n: nat, k: nat)
    ensures Ticks(e, step, n + k) == Ticks(Ticks(e, step, n), step, k)
    decreases n
  {
    if n > 0 {
      TicksAdd(Tick(e, step).e, step, n - 1, k);
    }
  }

  /** However many ticks run, the PPU stays inside the frame. */
  lemma {:induction false} TicksStayInFrame(e: Emu, step: CpuStep, n: nat)
    requires Ppu.InFrame(e.ppu.scanline, e.ppu.dot)
    ensures Ppu.InFrame(Ticks(e, step, n).ppu.scanline, Ticks(e, step, n).ppu.dot)
    decreases n
  {
    if n > 0 {
      TickPpu(e, step);
      TicksStayInFrame(Tick(e, step).e, step, n - 1);
    }
  }

  /** `emu_run_for_instructions`: `instr_count` ticks. */
  method RunForInstructions(e: Emu, step: CpuStep, count: nat) returns (r: Emu)
    ensures r == Ticks(e, step, count)
  {
    r := e;
    var i := 0;
    while i < count
      invariant i <= count
      invariant Ticks(r, step, count - i) == Ticks(e, step, count)
    {
      r := Tick(r, step).e;
      i := i + 1;
    }
  }

  // ------------------------------------------------------------------
  // Running for frames
  // ------------------------------------------------------------------

  /** A tick function: `emu_step_one_tick` is `Tick` with `cpu_step`.  The
   *  frame loop is stated over any tick that takes 2 to 15 cycles. */
  type TickFn = Emu -> Ticked

  ghost predicate TickPaced(tick: TickFn)
  {
    forall e :: 2 <= tick(e).used <= 15
  }

  /** A paced CPU step gives a paced tick. */
  lemma TickIsPaced(step: CpuStep)
    requires Paced(step)
    ensures TickPaced(e => Tick(e, step))
  {
    forall e
      ensures 2 <= Tick(e, step).used <= 15
    {
      assert 2 <= step(e.m).cycles <= 15;
    }
  }

  /** `emu_step_one_tick` with the interpreter's `cpu_step` is paced. */
  lemma EmuTickPaced()
    ensures TickPaced(e => Tick(e, Cpu6502.Step))
  {
    CpuStepPaced();
    TickIsPaced(Cpu6502.Step);
  }

  /** The outcome of one frame's budget loop: the emulator, the CPU cycles
   *  actually executed, the cycles deducted from the budget, and the
   *  number of ticks run. */
  datatype Frame = Frame(e: Emu, executed: nat, deducted: nat, ticks: nat)

  /** The budget loop of `emu_run_for_frames` as written: each iteration
   *  runs `emu_step_one_tick` and then a second, inlined copy of it, and
   *  only the second tick's cycles are deducted.  Every iteration executes
   *  at least two cycles more than it deducts, and the loop ends on the
   *  first deduction that reaches the budget. */
  function FrameAsWritten(e: Emu, tick: TickFn, budget: int): (r: Frame)
    requires TickPaced(tick)
    ensures r.executed >= r.deducted + r.ticks
    ensures r.ticks % 2 == 0
    ensures budget <= 0 ==> r == Frame(e, 0, 0, 0)
    ensures budget > 0 ==> budget <= r.deducted < budget + 15
    ensures 15 * r.ticks >= 2 * budget
    decreases budget
  {
    if budget <= 0 then Frame(e, 0, 0, 0)
    else
      var first := tick(e);
      var second := tick(first.e);
      var rest := FrameAsWritten(second.e, tick, budget - second.used);
      Frame(rest.e, first.used + second.used + rest.executed, second.used + rest.deducted, 2 + rest.ticks)
  }

  /** The loop with one tick per iteration and every tick's cycles
   *  deducted: the cycles executed are the cycles deducted, and they
   *  overshoot the budget by less than one instruction. */
  function FrameIntended(e: Emu, tick: TickFn, budget: int): (r: Frame)
    requires TickPaced(tick)
    ensures r.executed == r.deducted
    ensures budget <= 0 ==> r == Frame(e, 0, 0, 0)
    ensures budget > 0 ==> budget <= r.executed < budget + 15
    ensures 2 * r.ticks <= r.executed <= 15 * r.ticks
    decreases budget
  {
    if budget <= 0 then Frame(e, 0, 0, 0)
    else
      var t := tick(e);
      var rest := FrameIntended(t.e, tick, budget - t.used);
      Frame(rest.e, t.used + rest.executed, t.used + rest.deducted, 1 + rest.ticks)
  }

  /** As written, the first NTSC frame (budget 29780) executes at least
   *  33752 CPU cycles: at least 1986 iterations, each running an
   *  undeducted tick of 2 or more cycles.  The intended loop stops within
   *  29794. */
  lemma FrameAsWrittenOverruns(e: Emu, tick: TickFn)
    requires TickPaced(tick)
    ensures FrameAsWritten(e, tick, CyclesForFrame(0)).executed >= 33752
    ensures FrameIntended(e, tick, CyclesForFrame(0)).executed <= 29794
  {
    var f := FrameAsWritten(e, tick, 29780);
    assert f.ticks >= 3971;
    assert f.ticks != 3971;
  }

  /** Frames `from` .. `frames - 1` of `emu_run_for_frames`, frame f with
   *  the budget `cycles_for_frame(f)`. */
  function FramesAsWritten(e: Emu, tick: TickFn, from: int, frames: int): Emu
    requires TickPaced(tick)
    decreases frames - from
  {
    if from >= frames then e
    else FramesAsWritten(FrameAsWritten(e, tick, CyclesForFrame(from)).e, tick, from + 1, frames)
  }

  function FramesIntended(e: Emu, tick: TickFn, from: int, frames: int): Emu
    requires TickPaced(tick)
    decreases frames - from
  {
    if from >= frames then e
    else FramesIntended(FrameIntended(e, tick, CyclesForFrame(from)).e, tick, from + 1, frames)
  }

  /** The budget loop of one frame, as written. */
  method RunFrameAsWritten(e: Emu, tick: TickFn, f: int) returns (r: Emu)
    requires TickPaced(tick)
    ensures r == FrameAsWritten(e, tick, CyclesForFrame(f)).e
  {
    var budget: int := CyclesForFrame(f);
    r := e;
    while budget > 0
      invariant FrameAsWritten(r, tick, budget).e == FrameAsWritten(e, tick, CyclesForFrame(f)).e
      decreases budget
    {
      r := tick(r).e;
      var second := tick(r);
      r := second.e;
      budget := budget - second.used;
    }
  }

  /** `emu_run_for_frames` as written. */
  method RunForFramesAsWritten(e: Emu, tick: TickFn, frames: int) returns (r: Emu)
    requires TickPaced(tick)
    ensures r == FramesAsWritten(e, tick, 0, frames)
  {
    r := e;
    var f := 0;
    while f < frames
      invariant f <= frames || frames <= 0
      invariant FramesAsWritten(r, tick, f, frames) == FramesAsWritten(e, tick, 0, frames)
      decreases frames - f
    {
      r := RunFrameAsWritten(r, tick, f);
      f := f + 1;
    }
  }

  /** The budget loop of one frame with one tick per iteration. */
  method RunFrame(e: Emu, tick: TickFn, f: int) returns (r: Emu)
    requires TickPaced(tick)
    ensures r == FrameIntended(e, tick, CyclesForFrame(f)).e
  {
    var budget: int := CyclesForFrame(f);
    r := e;
    while budget > 0
      invariant FrameIntended(r, tick, budget).e == FrameIntended(e, tick, CyclesForFrame(f)).e
      decreases budget
    {
      var t := tick(r);
      r := t.e;
      budget := budget - t.used;
    }
  }

  /** `emu_run_for_frames` with every instruction's cycles counted. */
  method RunForFrames(e: Emu, tick: TickFn, frames: int) returns (r: Emu)
    requires TickPaced(tick)
    ensures r == FramesIntended(e, tick, 0, frames)
  {
    r := e;
    var f := 0;
    while f < frames
      invariant f <= frames || frames <= 0
      invariant FramesIntended(r, tick, f, frames) == FramesIntended(e, tick, 0, frames)
      decreases frames - f
    {
      r := RunFrame(r, tick, f);
      f := f + 1;
    }
  }
}
