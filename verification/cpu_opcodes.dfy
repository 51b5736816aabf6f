/**
 * The opcode dispatch of `execute_and_return_cycles` (src/cpu.c) as data:
 * each assigned opcode decodes to a mnemonic and an addressing mode, and
 * each instruction has a base cycle count (the value its `op_*` handler
 * returns when no page is crossed and no branch is taken).  The cycle
 * table `operation_cycles` of headers/CPUopcodes.h, which the interpreter
 * does not use, is kept as an independent reference and cross-checked.
 */
module Opcodes {
  import opened Bits

  datatype Op =
    | LDA | LDX | LDY | STA | STX | STY
    | AND | ORA | EOR | ADC | SBC | CMP | CPX | CPY | BIT
    | INC | DEC | ASL | LSR | ROL | ROR
    | JMP | JSR | RTS | BRK | RTI
    | BEQ | BNE | BCS | BCC | BMI | BPL | BVS | BVC
    | PHA | PLA | PHP | PLP
    | SEC | CLC | SEI | CLI | CLV | CLD | SED
    | TAX | TAY | TXA | TYA | TSX | TXS
    | INX | DEX | INY | DEY | NOP

  datatype Mode =
    | Imp | Acc | Imm | Zp | ZpX | ZpY | Abs | AbsX | AbsY | IndX | IndY | Ind | Rel
  {
    /** Modes whose operand is a memory address (an immediate operand is
     *  the byte at PC, so it is addressed too). */
    predicate Addressed() { !(this.Imp? || this.Acc? || this.Rel?) }
  }

  datatype Instr = Instr(op: Op, mode: Mode)

  predicate IsLoad(op: Op) { op.LDA? || op.LDX? || op.LDY? }
  predicate IsStore(op: Op) { op.STA? || op.STX? || op.STY? }
  /** Instructions that read one operand byte and compute from it. */
  predicate IsRead(op: Op)
  {
    op.AND? || op.ORA? || op.EOR? || op.ADC? || op.SBC? || op.CMP? || op.CPX? || op.CPY? || op.BIT?
  }
  /** Read-modify-write instructions. */
  predicate IsRmw(op: Op) { op.INC? || op.DEC? || op.ASL? || op.LSR? || op.ROL? || op.ROR? }
  predicate IsBranch(op: Op)
  {
    op.BEQ? || op.BNE? || op.BCS? || op.BCC? || op.BMI? || op.BPL? || op.BVS? || op.BVC?
  }

  /** The shape every decoded instruction has: memory instructions carry an
   *  addressed mode, shifts may also work on the accumulator, branches are
   *  relative and the rest are implied. */
  predicate WellFormed(i: Instr)
  {
    if IsLoad(i.op) || IsStore(i.op) || IsRead(i.op) || i.op.JMP? || i.op.JSR? then i.mode.Addressed()
    else if IsRmw(i.op) then i.mode.Acc? || i.mode.Addressed()
    else if IsBranch(i.op) then i.mode.Rel?
    else i.mode.Imp?
  }

  /** The cases of the dispatch switch, laid out as the usual 16 x 16
   *  opcode matrix (high nibble selects the row); every opcode without a
   *  case takes the `default` arm. */
  function Decode(code: bv8): (r: Option<Instr>)
    ensures r.Some? ==> WellFormed(r.value)
  {
    DecodeFacts(code >> 4, code & 0x0F);
    DecodeRow(code >> 4, code & 0x0F)
  }

  function DecodeRow(hi: bv8, lo: bv8): Option<Instr>
  {
    match hi
    case 0x0 => DecodeRow0(lo)
    case 0x1 => DecodeRow1(lo)
    case 0x2 => DecodeRow2(lo)
    case 0x3 => DecodeRow3(lo)
    case 0x4 => DecodeRow4(lo)
    case 0x5 => DecodeRow5(lo)
    case 0x6 => DecodeRow6(lo)
    case 0x7 => DecodeRow7(lo)
    case 0x8 => DecodeRow8(lo)
    case 0x9 => DecodeRow9(lo)
    case 0xA => DecodeRowA(lo)
    case 0xB => DecodeRowB(lo)
    case 0xC => DecodeRowC(lo)
    case 0xD => DecodeRowD(lo)
    case 0xE => DecodeRowE(lo)
    case _ => DecodeRowF(lo)
  }

  /** Each decoded instruction is well formed and its base cycle count is
   *  the one `operation_cycles` lists for its opcode. */
  lemma DecodeFacts(hi: bv8, lo: bv8)
    requires hi < 16 && lo < 16
    ensures DecodeRow(hi, lo).Some? ==> WellFormed(DecodeRow(hi, lo).value)
    ensures DecodeRow(hi, lo).Some? ==> BaseCycles(DecodeRow(hi, lo).value) == OperationCycles[hi as int][lo as int]
  {
    match hi
    case 0x0 => RowFacts0(lo);
    case 0x1 => RowFacts1(lo);
    case 0x2 => RowFacts2(lo);
    case 0x3 => RowFacts3(lo);
    case 0x4 => RowFacts4(lo);
    case 0x5 => RowFacts5(lo);
    case 0x6 => RowFacts6(lo);
    case 0x7 => RowFacts7(lo);
    case 0x8 => RowFacts8(lo);
    case 0x9 => RowFacts9(lo);
    case 0xA => RowFactsA(lo);
    case 0xB => RowFactsB(lo);
    case 0xC => RowFactsC(lo);
    case 0xD => RowFactsD(lo);
    case 0xE => RowFactsE(lo);
    case _ => RowFactsF(lo);
  }

  // RowFacts0..RowFactsF and RowCycles0..RowCyclesF are the case split
  // behind DecodeFacts and BaseCyclesAgreeWithTable: one row of the
  // opcode table each, so that no single proof obligation has to cover all
  // 256 opcodes.  Each is checked by evaluating its sixteen cases.

  lemma RowFacts0(lo: bv8)
    requires lo < 16
    ensures DecodeRow0(lo).Some? ==> WellFormed(DecodeRow0(lo).value)
    ensures DecodeRow0(lo).Some? ==> BaseCycles(DecodeRow0(lo).value) == OperationCycles[0x0][lo as int]
  {
    RowCycles0(lo);
  }

  lemma RowCycles0(lo: bv8)
    requires lo < 16
    ensures DecodeRow0(lo).Some? ==> BaseCycles(DecodeRow0(lo).value) == OperationCycles[0x0][lo as int]
  {
  }

  lemma RowFacts1(lo: bv8)
    requires lo < 16
    ensures DecodeRow1(lo).Some? ==> WellFormed(DecodeRow1(lo).value)
    ensures DecodeRow1(lo).Some? ==> BaseCycles(DecodeRow1(lo).value) == OperationCycles[0x1][lo as int]
  {
    RowCycles1(lo);
  }

  lemma RowCycles1(lo: bv8)
    requires lo < 16
    ensures DecodeRow1(lo).Some? ==> BaseCycles(DecodeRow1(lo).value) == OperationCycles[0x1][lo as int]
  {
  }

  lemma RowFacts2(lo: bv8)
    requires lo < 16
    ensures DecodeRow2(lo).Some? ==> WellFormed(DecodeRow2(lo).value)
    ensures DecodeRow2(lo).Some? ==> BaseCycles(DecodeRow2(lo).value) == OperationCycles[0x2][lo as int]
  {
    RowCycles2(lo);
  }

  lemma RowCycles2(lo: bv8)
    requires lo < 16
    ensures DecodeRow2(lo).Some? ==> BaseCycles(DecodeRow2(lo).value) == OperationCycles[0x2][lo as int]
  {
  }

  lemma RowFacts3(lo: bv8)
    requires lo < 16
    ensures DecodeRow3(lo).Some? ==> WellFormed(DecodeRow3(lo).value)
    ensures DecodeRow3(lo).Some? ==> BaseCycles(DecodeRow3(lo).value) == OperationCycles[0x3][lo as int]
  {
    RowCycles3(lo);
  }

  lemma RowCycles3(lo: bv8)
    requires lo < 16
    ensures DecodeRow3(lo).Some? ==> BaseCycles(DecodeRow3(lo).value) == OperationCycles[0x3][lo as int]
  {
  }

  lemma RowFacts4(lo: bv8)
    requires lo < 16
    ensures DecodeRow4(lo).Some? ==> WellFormed(DecodeRow4(lo).value)
    ensures DecodeRow4(lo).Some? ==> BaseCycles(DecodeRow4(lo).value) == OperationCycles[0x4][lo as int]
  {
    RowCycles4(lo);
  }

  lemma RowCycles4(lo: bv8)
    requires lo < 16
    ensures DecodeRow4(lo).Some? ==> BaseCycles(DecodeRow4(lo).value) == OperationCycles[0x4][lo as int]
  {
  }

  lemma RowFacts5(lo: bv8)
    requires lo < 16
    ensures DecodeRow5(lo).Some? ==> WellFormed(DecodeRow5(lo).value)
    ensures DecodeRow5(lo).Some? ==> BaseCycles(DecodeRow5(lo).value) == OperationCycles[0x5][lo as int]
  {
    RowCycles5(lo);
  }

  lemma RowCycles5(lo: bv8)
    requires lo < 16
    ensures DecodeRow5(lo).Some? ==> BaseCycles(DecodeRow5(lo).value) == OperationCycles[0x5][lo as int]
  {
  }

  lemma RowFacts6(lo: bv8)
    requires lo < 16
    ensures DecodeRow6(lo).Some? ==> WellFormed(DecodeRow6(lo).value)
    ensures DecodeRow6(lo).Some? ==> BaseCycles(DecodeRow6(lo).value) == OperationCycles[0x6][lo as int]
  {
    RowCycles6(lo);
  }

  lemma RowCycles6(lo: bv8)
    requires lo < 16
    ensures DecodeRow6(lo).Some? ==> BaseCycles(DecodeRow6(lo).value) == OperationCycles[0x6][lo as int]
  {
  }

  lemma RowFacts7(lo: bv8)
    requires lo < 16
    ensures DecodeRow7(lo).Some? ==> WellFormed(DecodeRow7(lo).value)
    ensures DecodeRow7(lo).Some? ==> BaseCycles(DecodeRow7(lo).value) == OperationCycles[0x7][lo as int]
  {
    RowCycles7(lo);
  }

  lemma RowCycles7(lo: bv8)
    requires lo < 16
    ensures DecodeRow7(lo).Some? ==> BaseCycles(DecodeRow7(lo).value) == OperationCycles[0x7][lo as int]
  {
  }

  lemma RowFacts8(lo: bv8)
    requires lo < 16
    ensures DecodeRow8(lo).Some? ==> WellFormed(DecodeRow8(lo).value)
    ensures DecodeRow8(lo).Some? ==> BaseCycles(DecodeRow8(lo).value) == OperationCycles[0x8][lo as int]
  {
    RowCycles8(lo);
  }

  lemma RowCycles8(lo: bv8)
    requires lo < 16
    ensures DecodeRow8(lo).Some? ==> BaseCycles(DecodeRow8(lo).value) == OperationCycles[0x8][lo as int]
  {
  }

  lemma RowFacts9(lo: bv8)
    requires lo < 16
    ensures DecodeRow9(lo).Some? ==> WellFormed(DecodeRow9(lo).value)
    ensures DecodeRow9(lo).Some? ==> BaseCycles(DecodeRow9(lo).value) == OperationCycles[0x9][lo as int]
  {
    RowCycles9(lo);
  }

  lemma RowCycles9(lo: bv8)
    requires lo < 16
    ensures DecodeRow9(lo).Some? ==> BaseCycles(DecodeRow9(lo).value) == OperationCycles[0x9][lo as int]
  {
  }

  lemma RowFactsA(lo: bv8)
    requires lo < 16
    ensures DecodeRowA(lo).Some? ==> WellFormed(DecodeRowA(lo).value)
    ensures DecodeRowA(lo).Some? ==> BaseCycles(DecodeRowA(lo).value) == OperationCycles[0xA][lo as int]
  {
    RowCyclesA(lo);
  }

  lemma RowCyclesA(lo: bv8)
    requires lo < 16
    ensures DecodeRowA(lo).Some? ==> BaseCycles(DecodeRowA(lo).value) == OperationCycles[0xA][lo as int]
  {
  }

  lemma RowFactsB(lo: bv8)
    requires lo < 16
    ensures DecodeRowB(lo).Some? ==> WellFormed(DecodeRowB(lo).value)
    ensures DecodeRowB(lo).Some? ==> BaseCycles(DecodeRowB(lo).value) == OperationCycles[0xB][lo as int]
  {
    RowCyclesB(lo);
  }

  lemma RowCyclesB(lo: bv8)
    requires lo < 16
    ensures DecodeRowB(lo).Some? ==> BaseCycles(DecodeRowB(lo).value) == OperationCycles[0xB][lo as int]
  {
  }

  lemma RowFactsC(lo: bv8)
    requires lo < 16
    ensures DecodeRowC(lo).Some? ==> WellFormed(DecodeRowC(lo).value)
    ensures DecodeRowC(lo).Some? ==> BaseCycles(DecodeRowC(lo).value) == OperationCycles[0xC][lo as int]
  {
    RowCyclesC(lo);
  }

  lemma RowCyclesC(lo: bv8)
    requires lo < 16
    ensures DecodeRowC(lo).Some? ==> BaseCycles(DecodeRowC(lo).value) == OperationCycles[0xC][lo as int]
  {
  }

  lemma RowFactsD(lo: bv8)
    requires lo < 16
    ensures DecodeRowD(lo).Some? ==> WellFormed(DecodeRowD(lo).value)
    ensures DecodeRowD(lo).Some? ==> BaseCycles(DecodeRowD(lo).value) == OperationCycles[0xD][lo as int]
  {
    RowCyclesD(lo);
  }

  lemma RowCyclesD(lo: bv8)
    requires lo < 16
    ensures DecodeRowD(lo).Some? ==> BaseCycles(DecodeRowD(lo).value) == OperationCycles[0xD][lo as int]
  {
  }

  lemma RowFactsE(lo: bv8)
    requires lo < 16
    ensures DecodeRowE(lo).Some? ==> WellFormed(DecodeRowE(lo).value)
    ensures DecodeRowE(lo).Some? ==> BaseCycles(DecodeRowE(lo).value) == OperationCycles[0xE][lo as int]
  {
    RowCyclesE(lo);
  }

  lemma RowCyclesE(lo: bv8)
    requires lo < 16
    ensures DecodeRowE(lo).Some? ==> BaseCycles(DecodeRowE(lo).value) == OperationCycles[0xE][lo as int]
  {
  }

  lemma RowFactsF(lo: bv8)
    requires lo < 16
    ensures DecodeRowF(lo).Some? ==> WellFormed(DecodeRowF(lo).value)
    ensures DecodeRowF(lo).Some? ==> BaseCycles(DecodeRowF(lo).value) == OperationCycles[0xF][lo as int]
  {
    RowCyclesF(lo);
  }

  lemma RowCyclesF(lo: bv8)
    requires lo < 16
    ensures DecodeRowF(lo).Some? ==> BaseCycles(DecodeRowF(lo).value) == OperationCycles[0xF][lo as int]
  {
  }

  function DecodeRow0(lo: bv8): Option<Instr>
  {
    match lo
    case 0x0 => Some(Instr(BRK, Imp))
    case 0x1 => Some(Instr(ORA, IndX))
    case 0x5 => Some(Instr(ORA, Zp))
    case 0x6 => Some(Instr(ASL, Zp))
    case 0x8 => Some(Instr(PHP, Imp))
    case 0x9 => Some(Instr(ORA, Imm))
    case 0xA => Some(Instr(ASL, Acc))
    case 0xD => Some(Instr(ORA, Abs))
    case 0xE => Some(Instr(ASL, Abs))
    case _ => None
  }

  function DecodeRow1(lo: bv8): Option<Instr>
  {
    match lo
    case 0x0 => Some(Instr(BPL, Rel))
    case 0x1 => Some(Instr(ORA, IndY))
    case 0x6 => Some(Instr(ASL, ZpX))
    case 0x8 => Some(Instr(CLC, Imp))
    case 0x9 => Some(Instr(ORA, AbsY))
    case 0xD => Some(Instr(ORA, AbsX))
    case 0xE => Some(Instr(ASL, AbsX))
    case _ => None
  }

  function DecodeRow2(lo: bv8): Option<Instr>
  {
    match lo
    case 0x0 => Some(Instr(JSR, Abs))
    case 0x1 => Some(Instr(AND, IndX))
    case 0x4 => Some(Instr(BIT, Zp))
    case 0x5 => Some(Instr(AND, Zp))
    case 0x6 => Some(Instr(ROL, Zp))
    case 0x8 => Some(Instr(PLP, Imp))
    case 0x9 => Some(Instr(AND, Imm))
    case 0xA => Some(Instr(ROL, Acc))
    case 0xC => Some(Instr(BIT, Abs))
    case 0xD => Some(Instr(AND, Abs))
    case 0xE => Some(Instr(ROL, Abs))
    case _ => None
  }

  function DecodeRow3(lo: bv8): Option<Instr>
  {
    match lo
    case 0x0 => Some(Instr(BMI, Rel))
    case 0x1 => Some(Instr(AND, IndY))
    case 0x6 => Some(Instr(ROL, ZpX))
    case 0x8 => Some(Instr(SEC, Imp))
    case 0x9 => Some(Instr(AND, AbsY))
    case 0xD => Some(Instr(AND, AbsX))
    case 0xE => Some(Instr(ROL, AbsX))
    case _ => None
  }

  function DecodeRow4(lo: bv8): Option<Instr>
  {
    match lo
    case 0x0 => Some(Instr(RTI, Imp))
    case 0x1 => Some(Instr(EOR, IndX))
    case 0x5 => Some(Instr(EOR, Zp))
    case 0x6 => Some(Instr(LSR, Zp))
    case 0x8 => Some(Instr(PHA, Imp))
    case 0x9 => Some(Instr(EOR, Imm))
    case 0xA => Some(Instr(LSR, Acc))
    case 0xC => Some(Instr(JMP, Abs))
    case 0xD => Some(Instr(EOR, Abs))
    case 0xE => Some(Instr(LSR, Abs))
    case _ => None
  }

  function DecodeRow5(lo: bv8): Option<Instr>
  {
    match lo
    case 0x0 => Some(Instr(BVC, Rel))
    case 0x1 => Some(Instr(EOR, IndY))
    case 0x6 => Some(Instr(LSR, ZpX))
    case 0x8 => Some(Instr(CLI, Imp))
    case 0x9 => Some(Instr(EOR, AbsY))
    case 0xD => Some(Instr(EOR, AbsX))
    case 0xE => Some(Instr(LSR, AbsX))
    case _ => None
  }

  function DecodeRow6(lo: bv8): Option<Instr>
  {
    match lo
    case 0x0 => Some(Instr(RTS, Imp))
    case 0x1 => Some(Instr(ADC, IndX))
    case 0x5 => Some(Instr(ADC, Zp))
    case 0x6 => Some(Instr(ROR, Zp))
    case 0x8 => Some(Instr(PLA, Imp))
    case 0x9 => Some(Instr(ADC, Imm))
    case 0xA => Some(Instr(ROR, Acc))
    case 0xC => Some(Instr(JMP, Ind))
    case 0xD => Some(Instr(ADC, Abs))
    case 0xE => Some(Instr(ROR, Abs))
    case _ => None
  }

  function DecodeRow7(lo: bv8): Option<Instr>
  {
    match lo
    case 0x0 => Some(Instr(BVS, Rel))
    case 0x1 => Some(Instr(ADC, IndY))
    case 0x5 => Some(Instr(ADC, ZpX))
    case 0x6 => Some(Instr(ROR, ZpX))
    case 0x8 => Some(Instr(SEI, Imp))
    case 0x9 => Some(Instr(ADC, AbsY))
    case 0xD => Some(Instr(ADC, AbsX))
    case 0xE => Some(Instr(ROR, AbsX))
    case _ => None
  }

  function DecodeRow8(lo: bv8): Option<Instr>
  {
    match lo
    case 0x1 => Some(Instr(STA, IndX))
    case 0x4 => Some(Instr(STY, Zp))
    case 0x5 => Some(Instr(STA, Zp))
    case 0x6 => Some(Instr(STX, Zp))
    case 0x8 => Some(Instr(DEY, Imp))
    case 0xA => Some(Instr(TXA, Imp))
    case 0xC => Some(Instr(STY, Abs))
    case 0xD => Some(Instr(STA, Abs))
    case 0xE => Some(Instr(STX, Abs))
    case _ => None
  }

  function DecodeRow9(lo: bv8): Option<Instr>
  {
    match lo
    case 0x0 => Some(Instr(BCC, Rel))
    case 0x1 => Some(Instr(STA, IndY))
    case 0x4 => Some(Instr(STY, ZpX))
    case 0x5 => Some(Instr(STA, ZpX))
    case 0x6 => Some(Instr(STX, ZpY))
    case 0x8 => Some(Instr(TYA, Imp))
    case 0x9 => Some(Instr(STA, AbsY))
    case 0xA => Some(Instr(TXS, Imp))
    case 0xD => Some(Instr(STA, AbsX))
    case _ => None
  }

  function DecodeRowA(lo: bv8): Option<Instr>
  {
    match lo
    case 0x0 => Some(Instr(LDY, Imm))
    case 0x1 => Some(Instr(LDA, IndX))
    case 0x2 => Some(Instr(LDX, Imm))
    case 0x4 => Some(Instr(LDY, Zp))
    case 0x5 => Some(Instr(LDA, Zp))
    case 0x6 => Some(Instr(LDX, Zp))
    case 0x8 => Some(Instr(TAY, Imp))
    case 0x9 => Some(Instr(LDA, Imm))
    case 0xA => Some(Instr(TAX, Imp))
    case 0xC => Some(Instr(LDY, Abs))
    case 0xD => Some(Instr(LDA, Abs))
    case 0xE => Some(Instr(LDX, Abs))
    case _ => None
  }

  function DecodeRowB(lo: bv8): Option<Instr>
  {
    match lo
    case 0x0 => Some(Instr(BCS, Rel))
    case 0x1 => Some(Instr(LDA, IndY))
    case 0x4 => Some(Instr(LDY, ZpX))
    case 0x5 => Some(Instr(LDA, ZpX))
    case 0x6 => Some(Instr(LDX, ZpY))
    case 0x8 => Some(Instr(CLV, Imp))
    case 0x9 => Some(Instr(LDA, AbsY))
    case 0xA => Some(Instr(TSX, Imp))
    case 0xC => Some(Instr(LDY, AbsX))
    case 0xD => Some(Instr(LDA, AbsX))
    case 0xE => Some(Instr(LDX, AbsY))
    case _ => None
  }

  function DecodeRowC(lo: bv8): Option<Instr>
  {
    match lo
    case 0x0 => Some(Instr(CPY, Imm))
    case 0x1 => Some(Instr(CMP, IndX))
    case 0x4 => Some(Instr(CPY, Zp))
    case 0x5 => Some(Instr(CMP, Zp))
    case 0x6 => Some(Instr(DEC, Zp))
    case 0x8 => Some(Instr(INY, Imp))
    case 0x9 => Some(Instr(CMP, Imm))
    case 0xA => Some(Instr(DEX, Imp))
    case 0xC => Some(Instr(CPY, Abs))
    case 0xD => Some(Instr(CMP, Abs))
    case 0xE => Some(Instr(DEC, Abs))
    case _ => None
  }

  function DecodeRowD(lo: bv8): Option<Instr>
  {
    match lo
    case 0x0 => Some(Instr(BNE, Rel))
    case 0x1 => Some(Instr(CMP, IndY))
    case 0x5 => Some(Instr(CMP, ZpX))
    case 0x6 => Some(Instr(DEC, ZpX))
    case 0x8 => Some(Instr(CLD, Imp))
    case 0x9 => Some(Instr(CMP, AbsY))
    case 0xD => Some(Instr(CMP, AbsX))
    case 0xE => Some(Instr(DEC, AbsX))
    case _ => None
  }

  function DecodeRowE(lo: bv8): Option<Instr>
  {
    match lo
    case 0x0 => Some(Instr(CPX, Imm))
    case 0x1 => Some(Instr(SBC, IndX))
    case 0x4 => Some(Instr(CPX, Zp))
    case 0x5 => Some(Instr(SBC, Zp))
    case 0x6 => Some(Instr(INC, Zp))
    case 0x8 => Some(Instr(INX, Imp))
    case 0x9 => Some(Instr(SBC, Imm))
    case 0xA => Some(Instr(NOP, Imp))
    case 0xC => Some(Instr(CPX, Abs))
    case 0xD => Some(Instr(SBC, Abs))
    case 0xE => Some(Instr(INC, Abs))
    case _ => None
  }

  function DecodeRowF(lo: bv8): Option<Instr>
  {
    match lo
    case 0x0 => Some(Instr(BEQ, Rel))
    case 0x1 => Some(Instr(SBC, IndY))
    case 0x5 => Some(Instr(SBC, ZpX))
    case 0x6 => Some(Instr(INC, ZpX))
    case 0x8 => Some(Instr(SED, Imp))
    case 0x9 => Some(Instr(SBC, AbsY))
    case 0xD => Some(Instr(SBC, AbsX))
    case 0xE => Some(Instr(INC, AbsX))
    case _ => None
  }

  /** Cycles of an operand-reading handler before the page-cross penalty. */
  function ReadCycles(mode: Mode): (r: nat)
    ensures 2 <= r <= 6
    ensures mode.Imm? ==> r == 2
    ensures mode.Addressed() && !mode.Imm? && !mode.Ind? ==> r >= 3
  {
    match mode
    case Imm => 2
    case Zp => 3
    case ZpX | ZpY | Abs | AbsX | AbsY => 4
    case IndX => 6
    case IndY => 5
    case _ => 2
  }

  /** Stores never take the page-cross shortcut: in abs,X, abs,Y and
   *  (zp),Y they always pay the cycle a read pays only on a crossing. */
  function StoreCycles(mode: Mode): (r: nat)
    ensures r == ReadCycles(mode) + (if mode.AbsX? || mode.AbsY? || mode.IndY? then 1 else 0)
  {
    match mode
    case Zp => 3
    case ZpX | ZpY | Abs => 4
    case AbsX | AbsY => 5
    case IndX | IndY => 6
    case _ => 2
  }

  /** A read-modify-write costs two cycles more than a store in the same
   *  mode: one to read the operand and one to write the old value back. */
  function RmwCycles(mode: Mode): (r: nat)
    ensures mode.Zp? || mode.ZpX? || mode.Abs? || mode.AbsX? ==> r == StoreCycles(mode) + 2
  {
    match mode
    case Zp => 5
    case ZpX | Abs => 6
    case AbsX => 7
    case _ => 2
  }

  /** The count a handler returns when no page is crossed and no branch is
   *  taken. */
  function BaseCycles(i: Instr): (r: nat)
    ensures 2 <= r <= 7
  {
    if i.op.JMP? then (if i.mode.Ind? then 5 else 3)
    else if i.op.JSR? || i.op.RTS? || i.op.RTI? then 6
    else if i.op.BRK? then 7
    else if i.op.PHA? || i.op.PHP? then 3
    else if i.op.PLA? || i.op.PLP? then 4
    else if IsRmw(i.op) then RmwCycles(i.mode)
    else if IsStore(i.op) then StoreCycles(i.mode)
    else if IsLoad(i.op) || IsRead(i.op) then ReadCycles(i.mode)
    else 2
  }

  /** Handlers that add one cycle when the indexed address crosses a page. */
  predicate PagePenalty(i: Instr)
    ensures PagePenalty(i) ==> !IsStore(i.op) && !IsRmw(i.op)
    ensures PagePenalty(i) ==> BaseCycles(i) + 1 == StoreCycles(i.mode)
  {
    (IsLoad(i.op) || (IsRead(i.op) && !i.op.CPX? && !i.op.CPY? && !i.op.BIT?))
    && (i.mode.AbsX? || i.mode.AbsY? || i.mode.IndY?)
  }

  /** `operation_cycles` of headers/CPUopcodes.h, row by row (high
   *  nibble); 0 marks an unused opcode. */
  const OperationCycles: seq<seq<int>> := [
      [7, 6, 0, 0, 0, 3, 5, 0, 3, 2, 2, 0, 0, 4, 6, 0],
      [2, 5, 0, 0, 0, 4, 6, 0, 2, 4, 0, 0, 0, 4, 7, 0],
      [6, 6, 0, 0, 3, 3, 5, 0, 4, 2, 2, 0, 4, 4, 6, 0],
      [2, 5, 0, 0, 0, 4, 6, 0, 2, 4, 0, 0, 0, 4, 7, 0],
      [6, 6, 0, 0, 0, 3, 5, 0, 3, 2, 2, 0, 3, 4, 6, 0],
      [2, 5, 0, 0, 0, 4, 6, 0, 2, 4, 0, 0, 0, 4, 7, 0],
      [6, 6, 0, 0, 0, 3, 5, 0, 4, 2, 2, 0, 5, 4, 6, 0],
      [2, 5, 0, 0, 0, 4, 6, 0, 2, 4, 0, 0, 0, 4, 7, 0],
      [0, 6, 0, 0, 3, 3, 3, 0, 2, 0, 2, 0, 4, 4, 4, 0],
      [2, 6, 0, 0, 4, 4, 4, 0, 2, 5, 2, 0, 0, 5, 0, 0],
      [2, 6, 2, 0, 3, 3, 3, 0, 2, 2, 2, 0, 4, 4, 4, 0],
      [2, 5, 0, 0, 4, 4, 4, 0, 2, 4, 2, 0, 4, 4, 4, 0],
      [2, 6, 0, 0, 3, 3, 5, 0, 2, 2, 2, 0, 4, 4, 6, 0],
      [2, 5, 0, 0, 0, 4, 6, 0, 2, 4, 0, 0, 0, 4, 7, 0],
      [2, 6, 0, 0, 3, 3, 5, 0, 2, 2, 2, 2, 4, 4, 6, 0],
      [2, 5, 0, 0, 0, 4, 6, 0, 2, 4, 0, 0, 0, 4, 7, 0]
    ]

  function TableCycles(code: bv8): int
  {
    var row := OperationCycles[(code >> 4) as int];
    assert |row| == 16;
    row[(code & 0x0F) as int]
  }

  /** Every opcode the interpreter implements costs, before penalties,
   *  exactly what the reference table says. */
  lemma BaseCyclesAgreeWithTable(code: bv8)
    requires Decode(code).Some?
    ensures BaseCycles(Decode(code).value) == TableCycles(code)
  {
    DecodeFacts(code >> 4, code & 0x0F);
  }

  /** The reference table prices four opcodes the switch does not implement:
   *  ORA, AND and EOR in zp,X mode and 0xEB; those fall into the default
   *  arm instead. */
  lemma TableOnlyOpcodes(code: bv8)
    requires Decode(code).None? && TableCycles(code) != 0
    ensures code in {0x15, 0x35, 0x55, 0xEB}
  {
  }
}
