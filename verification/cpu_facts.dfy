/**
 * Properties of the 6502 interpreter that relate several operations:
 * stack round trips (JSR/RTS, PHP/PLP, PHA/PLA, BRK/RTI, interrupt/RTI),
 * cycle counts, and what one `cpu_step` does around an interrupt.
 */
module CpuFacts {
  import opened Bits
  import opened Memory
  import opened Status
  import opened Opcodes
  import opened Cpu6502

  /** INX and DEX (and INY, DEY) wrap modulo 256 and undo each other. */
  lemma CountersUndoEachOther(c: Cpu)
    ensures Counter(Counter(c, INX), DEX).x == c.x
    ensures Counter(Counter(c, DEY), INY).y == c.y
    ensures c.x == 0xFF ==> Counter(c, INX).x == 0 && Counter(c, INX).p.z
    ensures c.x == 0 ==> Counter(c, DEX).x == 0xFF && Counter(c, DEX).p.n
  {
  }

  /** An offset below $80 jumps forward by that many bytes; an offset of
   *  $80 or more jumps back by 256 minus it (so $FE is an infinite loop
   *  on a two-byte branch). */
  lemma BranchTargetDistance(base: bv16, off: bv8)
    ensures !Neg(off) ==> BranchTarget(base, off) - base == off as bv16
    ensures Neg(off) ==> base - BranchTarget(base, off) == (0 - off) as bv16
    ensures BranchTarget(base + 2, 0xFE) == base
  {
  }

  /** Only indexed reads pay for a page crossing, and they pay exactly one
   *  cycle; stores and read-modify-writes always cost their base count. */
  lemma PagePenaltyOnlyWhenCrossed(m: Machine, i: Instr)
    requires WellFormed(i) && i.mode.Addressed()
    ensures Cycles(m, i) == BaseCycles(i) || Cycles(m, i) == BaseCycles(i) + 1
    ensures Cycles(m, i) == BaseCycles(i) + 1 <==> PagePenalty(i) && Effective(m, i.mode).crossed
    ensures IsStore(i.op) || IsRmw(i.op) ==> Cycles(m, i) == BaseCycles(i)
  {
  }

  /** Fixed costs the handlers return: STA abs,X 5, STA (zp),Y 6, any
   *  read-modify-write on abs,X 7. */
  lemma FixedCycleCounts(m: Machine, op: Op)
    requires IsRmw(op)
    ensures Cycles(m, Instr(STA, AbsX)) == 5
    ensures Cycles(m, Instr(STA, IndY)) == 6
    ensures Cycles(m, Instr(op, AbsX)) == 7
  {
  }

  /** JSR then RTS resumes right after the JSR operand with S back where
   *  it was. */
  lemma JsrRtsRoundTrip(m: Machine)
    ensures Rts(Jsr(m)).cpu.pc == m.cpu.pc + 2
    ensures Rts(Jsr(m)).cpu.s == m.cpu.s
  {
    JsrRtsReturnAddress(m);
  }

  /** PHP then PLP gives back P with B cleared and U set. */
  lemma PhpPlpRoundTrip(m: Machine)
    ensures Plp(Php(m)).cpu.p == m.cpu.p.(b := false, u := true)
    ensures Plp(Php(m)).cpu.s == m.cpu.s
  {
    Push8ThenPull8(m, PushedBySoftware(m.cpu.p));
  }

  /** PHA then PLA restores A and S. */
  lemma PhaPlaRoundTrip(m: Machine)
    ensures Pla(Push8(m, m.cpu.a)).cpu.a == m.cpu.a
    ensures Pla(Push8(m, m.cpu.a)).cpu.s == m.cpu.s
  {
    Push8ThenPull8(m, m.cpu.a);
  }

  /** An interrupt handler that ends in RTI returns to the interrupted PC
   *  with P restored (B clear, U set) and S back where it was, whatever I
   *  the handler entered with. */
  lemma InterruptRtiRoundTrip(m: Machine, vec: bv16)
    ensures Rti(ServiceInterrupt(m, vec)).cpu.pc == m.cpu.pc
    ensures Rti(ServiceInterrupt(m, vec)).cpu.p == m.cpu.p.(b := false, u := true)
    ensures Rti(ServiceInterrupt(m, vec)).cpu.s == m.cpu.s
  {
    InterruptRtiReturnAddress(m, vec);
    InterruptRtiStatus(m, vec);
  }

  /** BRK then RTI resumes two bytes after the BRK opcode (BRK skips a
   *  padding byte), with S restored. */
  lemma BrkRtiRoundTrip(m: Machine)
    ensures Rti(Brk(m)).cpu.pc == m.cpu.pc + 1
    ensures Rti(Brk(m)).cpu.p == m.cpu.p.(b := false, u := true)
    ensures Rti(Brk(m)).cpu.s == m.cpu.s
  {
    BrkRtiReturnAddress(m);
    BrkRtiStatus(m);
  }

  /** Opcodes outside the switch, including $15, $35, $55 and $EB which the
   *  reference cycle table prices, advance PC by one and cost 2 cycles
   *  when no interrupt is pending. */
  lemma UnassignedOpcode(m: Machine)
    requires Decode(Read(m.mem, m.cpu.pc)).None?
    requires !m.cpu.nmiLine && !m.cpu.irqLine
    ensures Step(m).m == m.(cpu := m.cpu.(pc := m.cpu.pc + 1))
    ensures Step(m).cycles == 2
  {
  }

  /** The instruction `cpu_step` runs before its interrupt check. */
  function Executed(m: Machine): Stepped
  {
    Dispatch(m.(cpu := m.cpu.(pc := m.cpu.pc + 1)), Read(m.mem, m.cpu.pc))
  }

  /** A pending NMI is taken after any instruction, even with I set: it
   *  adds 7 cycles to the instruction's own, jumps through $FFFA and
   *  lowers the NMI line.  After an opcode without a case the step costs
   *  9 cycles. */
  lemma NmiAfterInstruction(m: Machine)
    requires m.cpu.nmiLine
    ensures Step(m).cycles == Executed(m).cycles + 7 && 9 <= Step(m).cycles <= 14
    ensures Step(m).m.cpu.pc == Vector(Step(m).m.mem, NmiVector)
    ensures !Step(m).m.cpu.nmiLine
    ensures Decode(Read(m.mem, m.cpu.pc)).None? ==> Step(m).cycles == 9
  {
    assert Executed(m).m.cpu.nmiLine;
  }

  /** With NMI low, a raised IRQ line is serviced after the instruction
   *  exactly when the instruction leaves I clear.  When it leaves I set,
   *  the step is the instruction alone and the line stays raised. */
  lemma IrqMasked(m: Machine)
    requires !m.cpu.nmiLine && m.cpu.irqLine
    ensures Executed(m).m.cpu.p.i ==> Step(m) == Executed(m) && Step(m).m.cpu.irqLine
    ensures !Executed(m).m.cpu.p.i ==>
      Step(m).cycles == Executed(m).cycles + 7 && !Step(m).m.cpu.irqLine
      && Step(m).m.cpu.pc == Vector(Step(m).m.mem, IrqVector)
    ensures Decode(Read(m.mem, m.cpu.pc)).None? && m.cpu.p.i ==>
      Step(m).cycles == 2 && Step(m).m.cpu.irqLine
  {
    assert !Executed(m).m.cpu.nmiLine && Executed(m).m.cpu.irqLine;
  }

  // Each round trip is proved one register at a time, so that every proof
  // sees only the stack facts it needs.

  lemma JsrRtsReturnAddress(m: Machine)
    ensures Rts(Jsr(m)).cpu.pc == m.cpu.pc + 2
  {
    var j := Jsr(m);
    assert j.cpu.s + 1 == m.cpu.s - 1 && j.cpu.s + 2 == m.cpu.s;
    PullWordBack(j, m.cpu.pc + 1);
  }

  lemma InterruptRtiReturnAddress(m: Machine, vec: bv16)
    ensures Rti(ServiceInterrupt(m, vec)).cpu.pc == m.cpu.pc
  {
    var after := Pull8(ServiceInterrupt(m, vec)).m;
    assert after.cpu.s + 1 == m.cpu.s - 1 && after.cpu.s + 2 == m.cpu.s;
    PullWordBack(after, m.cpu.pc);
  }

  lemma InterruptRtiStatus(m: Machine, vec: bv16)
    ensures Rti(ServiceInterrupt(m, vec)).cpu.p == m.cpu.p.(b := false, u := true)
  {
    var h := ServiceInterrupt(m, vec);
    assert h.cpu.s + 1 == m.cpu.s - 2;
    assert Pull8(h).v == PushedByInterrupt(m.cpu.p);
    InterruptRestored(m.cpu.p);
  }

  lemma BrkRtiReturnAddress(m: Machine)
    ensures Rti(Brk(m)).cpu.pc == m.cpu.pc + 1
  {
    var after := Pull8(Brk(m)).m;
    assert after.cpu.s + 1 == m.cpu.s - 1 && after.cpu.s + 2 == m.cpu.s;
    PullWordBack(after, m.cpu.pc + 1);
  }

  lemma BrkRtiStatus(m: Machine)
    ensures Rti(Brk(m)).cpu.p == m.cpu.p.(b := false, u := true)
  {
    var h := Brk(m);
    assert h.cpu.s + 1 == m.cpu.s - 2;
    assert Pull8(h).v == PushedBySoftware(m.cpu.p);
    SoftwareRestored(m.cpu.p);
  }

  /** Pulling back a status byte pushed by BRK/PHP or by interrupt entry
   *  gives the original flags with B clear and U set. */
  lemma SoftwareRestored(p: Flags)
    ensures Restored(PushedBySoftware(p)) == p.(b := false, u := true)
  {
  }

  lemma InterruptRestored(p: Flags)
    ensures Restored(PushedByInterrupt(p)) == p.(b := false, u := true)
  {
  }
}
