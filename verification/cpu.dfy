/**
 * The 6502 interpreter of src/cpu.c against an abstract 64 KiB memory:
 * registers, the page-1 stack, operand fetch and addressing modes, the
 * effect and cycle count of every implemented opcode, interrupt entry,
 * reset, and `cpu_step` (fetch, execute, then service a pending NMI/IRQ).
 */
module Cpu6502 {
  import opened Bits
  import opened Memory
  import opened Status
  import opened Alu
  import opened Opcodes

  /** `struct CPU` without the bus pointer, the unused cycle counter and the
   *  DMA `stalled` flag. */
  datatype Cpu = Cpu(a: bv8, x: bv8, y: bv8, p: Flags, s: bv8, pc: bv16,
                     nmiLine: bool, irqLine: bool)

  datatype Machine = Machine(cpu: Cpu, mem: Mem)

  /** No instruction touches the interrupt lines: only `cpu_nmi`,
   *  `cpu_irq`, `cpu_reset` and `cpu_after_instruction` write them. */
  predicate LinesKept(c: Cpu, r: Cpu)
  {
    r.nmiLine == c.nmiLine && r.irqLine == c.irqLine
  }

  /** A machine after an action, with the cycles the action reports. */
  datatype Stepped = Stepped(m: Machine, cycles: nat)

  /** A machine after a read that also yields a value. */
  datatype Pulled<T> = Pulled(m: Machine, v: T)

  // ------------------------------------------------------------------
  // Stack (page 1)
  // ------------------------------------------------------------------

  /** `0x0100 | S`: every stack access lies in 0x0100..0x01FF. */
  function StackAddr(s: bv8): (a: bv16)
    ensures 0x0100 <= a <= 0x01FF
    ensures Lo(a) == s
  {
    0x0100 | s as bv16
  }

  /** `push8`: store at 0x0100|S, then S decrements modulo 256. */
  function Push8(m: Machine, v: bv8): (r: Machine)
    ensures r.cpu == m.cpu.(s := m.cpu.s - 1)
    ensures Read(r.mem, StackAddr(m.cpu.s)) == v
    ensures forall a :: a != StackAddr(m.cpu.s) ==> Read(r.mem, a) == Read(m.mem, a)
  {
    Machine(m.cpu.(s := m.cpu.s - 1), Write(m.mem, StackAddr(m.cpu.s), v))
  }

  /** `pull8`: S increments modulo 256, then the byte at 0x0100|S is read. */
  function Pull8(m: Machine): (r: Pulled<bv8>)
    ensures r.m.cpu == m.cpu.(s := m.cpu.s + 1) && r.m.mem == m.mem
    ensures r.v == Read(m.mem, StackAddr(m.cpu.s + 1))
  {
    Pulled(m.(cpu := m.cpu.(s := m.cpu.s + 1)), Read(m.mem, StackAddr(m.cpu.s + 1)))
  }

  /** `push16`: high byte first, so the low byte ends on top. */
  function Push16(m: Machine, w: bv16): (r: Machine)
    ensures r.cpu == m.cpu.(s := m.cpu.s - 2)
    ensures Read(r.mem, StackAddr(m.cpu.s)) == Hi(w)
    ensures Read(r.mem, StackAddr(m.cpu.s - 1)) == Lo(w)
    ensures forall a :: a != StackAddr(m.cpu.s) && a != StackAddr(m.cpu.s - 1) ==>
      Read(r.mem, a) == Read(m.mem, a)
  {
    Push8(Push8(m, Hi(w)), Lo(w))
  }

  /** `pull16`: low byte first, then high. */
  function Pull16(m: Machine): (r: Pulled<bv16>)
    ensures r.m.cpu == m.cpu.(s := m.cpu.s + 2) && r.m.mem == m.mem
    ensures r.v == Word(Read(m.mem, StackAddr(m.cpu.s + 1)), Read(m.mem, StackAddr(m.cpu.s + 2)))
  {
    var lo := Pull8(m);
    var hi := Pull8(lo.m);
    Pulled(hi.m, Word(lo.v, hi.v))
  }

  /** Pulling a word right after pushing it returns that word and puts S
   *  back where it was. */
  lemma Push16ThenPull16(m: Machine, w: bv16)
    ensures Pull16(Push16(m, w)).v == w
    ensures Pull16(Push16(m, w)).m.cpu == m.cpu
  {
    WordOfBytes(w);
  }

  /** Pull16 returns any word whose bytes sit just above S, low first. */
  lemma PullWordBack(m: Machine, w: bv16)
    requires Read(m.mem, StackAddr(m.cpu.s + 1)) == Lo(w)
    requires Read(m.mem, StackAddr(m.cpu.s + 2)) == Hi(w)
    ensures Pull16(m).v == w
  {
    WordOfBytes(w);
  }

  lemma Push8ThenPull8(m: Machine, v: bv8)
    ensures Pull8(Push8(m, v)).v == v
    ensures Pull8(Push8(m, v)).m.cpu == m.cpu
  {
  }

  // ------------------------------------------------------------------
  // Operand fetch and addressing modes
  // ------------------------------------------------------------------

  /** `page_crossed`: the two addresses lie in different 256-byte pages. */
  predicate PageCrossed(a: bv16, b: bv16) { a & 0xFF00 != b & 0xFF00 }

  /** A resolved operand: its address, the PC after the operand bytes, and
   *  whether indexing crossed a page. */
  datatype Ea = Ea(addr: bv16, next: bv16, crossed: bool)

  /** The zero-page successor of a pointer byte, `(ptr + 1) & 0xFF`. */
  function ZpNext(ptr: bv8): (a: bv16)
    ensures a <= 0xFF
  {
    (ptr as bv16 + 1) & 0xFF
  }

  /** The little-endian word stored at `a`, `a + 1`. */
  function WordAt(mem: Mem, a: bv16): bv16
  {
    Word(Read(mem, a), Read(mem, a + 1))
  }

  /** `addr_abs_x` / `addr_abs_y`: a 16-bit base plus an index, reporting
   *  whether the sum left the base's page. */
  function Indexed(base: bv16, index: bv8, next: bv16): (e: Ea)
    ensures e.addr == base + index as bv16 && e.next == next
    ensures e.crossed <==> PageCrossed(base, e.addr)
  {
    Ea(base + index as bv16, next, PageCrossed(base, base + index as bv16))
  }

  /** The 16-bit pointer stored in page 0 at `ptr`; its high byte wraps
   *  to $00 when `ptr` is $FF. */
  function ZpPointer(mem: Mem, ptr: bv8): bv16
  {
    Word(Read(mem, ptr as bv16), Read(mem, ZpNext(ptr)))
  }

  /** `jmp_ind`: the high byte is fetched from the pointer's own page. */
  function IndirectTarget(mem: Mem, ptr: bv16): bv16
  {
    Word(Read(mem, ptr), Read(mem, (ptr & 0xFF00) | ((ptr + 1) & 0x00FF)))
  }

  /** The `addr_*` helpers and `jmp_ind`, with PC at the first operand
   *  byte.  An immediate operand is the byte at PC itself. */
  function Effective(m: Machine, mode: Mode): Ea
    requires mode.Addressed()
  {
    EffectiveAt(m.mem, m.cpu.pc, m.cpu.x, m.cpu.y, mode)
  }

  function EffectiveAt(mem: Mem, pc: bv16, x: bv8, y: bv8, mode: Mode): (e: Ea)
    requires mode.Addressed()
    ensures TwoByteOperand(mode) ==> e.next == pc + 2
    ensures !TwoByteOperand(mode) ==> e.next == pc + 1
    ensures e.crossed ==> mode.AbsX? || mode.AbsY? || mode.IndY?
  {
    match mode
    case Imm => Ea(pc, pc + 1, false)
    case Zp => Ea(Read(mem, pc) as bv16, pc + 1, false)
    case ZpX => Ea((Read(mem, pc) + x) as bv16, pc + 1, false)
    case ZpY => Ea((Read(mem, pc) + y) as bv16, pc + 1, false)
    case Abs => Ea(WordAt(mem, pc), pc + 2, false)
    case AbsX => Indexed(WordAt(mem, pc), x, pc + 2)
    case AbsY => Indexed(WordAt(mem, pc), y, pc + 2)
    case IndX => Ea(ZpPointer(mem, Read(mem, pc) + x), pc + 1, false)
    case IndY => Indexed(ZpPointer(mem, Read(mem, pc)), y, pc + 1)
    case Ind => Ea(IndirectTarget(mem, WordAt(mem, pc)), pc + 2, false)
  }

  /** The absolute modes and JMP's pointer take two operand bytes; the
   *  other addressed modes take one. */
  predicate TwoByteOperand(mode: Mode)
  {
    mode.Abs? || mode.AbsX? || mode.AbsY? || mode.Ind?
  }

  /** zp,X and zp,Y wrap inside page 0: the address is (operand + index)
   *  modulo 256, never above $FF. */
  lemma ZeroPageIndexedWraps(mem: Mem, pc: bv16, x: bv8, y: bv8)
    ensures EffectiveAt(mem, pc, x, y, ZpX).addr == (Read(mem, pc) + x) as bv16
    ensures EffectiveAt(mem, pc, x, y, ZpY).addr == (Read(mem, pc) + y) as bv16
    ensures EffectiveAt(mem, pc, x, y, ZpX).addr <= 0xFF
    ensures EffectiveAt(mem, pc, x, y, ZpY).addr <= 0xFF
  {
  }

  /** The pointers of (zp,X) and (zp),Y are read from page 0 only: a
   *  pointer at $FF takes its high byte from $00. */
  lemma ZeroPagePointerWraps(mem: Mem)
    ensures Lo(ZpPointer(mem, 0xFF)) == Read(mem, 0x00FF)
    ensures Hi(ZpPointer(mem, 0xFF)) == Read(mem, 0x0000)
  {
  }

  /** abs,X, abs,Y and (zp),Y add the index to a 16-bit base and report a
   *  page crossing exactly when the sum leaves the base's page. */
  lemma IndexedAddress(mem: Mem, pc: bv16, x: bv8, y: bv8)
    ensures EffectiveAt(mem, pc, x, y, AbsX).addr == WordAt(mem, pc) + x as bv16
    ensures EffectiveAt(mem, pc, x, y, AbsX).crossed
        <==> PageCrossed(WordAt(mem, pc), WordAt(mem, pc) + x as bv16)
    ensures EffectiveAt(mem, pc, x, y, IndY).addr == ZpPointer(mem, Read(mem, pc)) + y as bv16
    ensures EffectiveAt(mem, pc, x, y, IndY).crossed
        <==> PageCrossed(ZpPointer(mem, Read(mem, pc)), ZpPointer(mem, Read(mem, pc)) + y as bv16)
  {
  }

  /** JMP (ind) never carries into the pointer's high byte: a pointer at
   *  $xxFF takes its high byte from $xx00 of the same page, any other
   *  pointer from the next address. */
  lemma JmpIndirectPageBug(mem: Mem, ptr: bv16)
    ensures Lo(IndirectTarget(mem, ptr)) == Read(mem, ptr)
    ensures Lo(ptr) == 0xFF ==> Hi(IndirectTarget(mem, ptr)) == Read(mem, ptr & 0xFF00)
    ensures Lo(ptr) != 0xFF ==> Hi(IndirectTarget(mem, ptr)) == Read(mem, ptr + 1)
  {
  }

  // ------------------------------------------------------------------
  // Instruction semantics
  // ------------------------------------------------------------------

  /** The extra cycle a page-crossing indexed read costs. */
  function Penalty(i: Instr, crossed: bool): nat
  {
    if PagePenalty(i) && crossed then 1 else 0
  }

  /** The register an instruction names: X for LDX/STX/CPX, Y for
   *  LDY/STY/CPY, A otherwise. */
  function Reg(c: Cpu, op: Op): bv8
  {
    if op.LDX? || op.STX? || op.CPX? then c.x
    else if op.LDY? || op.STY? || op.CPY? then c.y
    else c.a
  }

  /** `c` with the register `op` names replaced by `v`. */
  function SetReg(c: Cpu, op: Op, v: bv8): (r: Cpu)
    requires IsLoad(op)
    ensures Reg(r, op) == v
    ensures r.s == c.s && r.p == c.p && r.pc == c.pc
    ensures op.LDA? ==> r.x == c.x && r.y == c.y
    ensures op.LDX? ==> r.a == c.a && r.y == c.y
    ensures op.LDY? ==> r.a == c.a && r.x == c.x
  {
    if op.LDX? then c.(x := v)
    else if op.LDY? then c.(y := v)
    else c.(a := v)
  }

  /** LDA, LDX, LDY: the operand byte goes into the register and sets Z
   *  and N; memory, S and the other registers are untouched. */
  function Load(m: Machine, op: Op, e: Ea): (r: Machine)
    requires IsLoad(op)
    ensures Reg(r.cpu, op) == Read(m.mem, e.addr)
    ensures r.cpu.p.z <==> Read(m.mem, e.addr) == 0
    ensures r.cpu.p.n <==> Neg(Read(m.mem, e.addr))
    ensures r.cpu.p == m.cpu.p.(z := r.cpu.p.z, n := r.cpu.p.n)
    ensures r.cpu.pc == e.next && r.cpu.s == m.cpu.s && r.mem == m.mem
    ensures LinesKept(m.cpu, r.cpu)
    ensures !op.LDA? ==> r.cpu.a == m.cpu.a
    ensures !op.LDX? ==> r.cpu.x == m.cpu.x
    ensures !op.LDY? ==> r.cpu.y == m.cpu.y
  {
    Machine(SetReg(m.cpu.(pc := e.next, p := SetZN(m.cpu.p, Read(m.mem, e.addr))), op,
                   Read(m.mem, e.addr)),
            m.mem)
  }

  /** STA, STX, STY: the register is written to the operand address and
   *  every other cell and every register keeps its value. */
  function Store(m: Machine, op: Op, e: Ea): (r: Machine)
    requires IsStore(op)
    ensures Read(r.mem, e.addr) == Reg(m.cpu, op)
    ensures forall b :: b != e.addr ==> Read(r.mem, b) == Read(m.mem, b)
    ensures r.cpu == m.cpu.(pc := e.next)
  {
    Machine(m.cpu.(pc := e.next), Write(m.mem, e.addr, Reg(m.cpu, op)))
  }

  /** AND, ORA, EOR: A combined bitwise with the operand, Z and N from the
   *  result, no other flag changed. */
  function Logic(c: Cpu, op: Op, v: bv8): (r: Cpu)
    requires op.AND? || op.ORA? || op.EOR?
    ensures op.AND? ==> r.a == c.a & v
    ensures op.ORA? ==> r.a == c.a | v
    ensures op.EOR? ==> r.a == c.a ^ v
    ensures r.p.z <==> r.a == 0
    ensures r.p.n <==> Neg(r.a)
    ensures r.p == c.p.(z := r.p.z, n := r.p.n)
    ensures r.x == c.x && r.y == c.y && r.s == c.s && r.pc == c.pc && LinesKept(c, r)
  {
    c.(a := LogicResult(c.a, op, v), p := SetZN(c.p, LogicResult(c.a, op, v)))
  }

  function LogicResult(a: bv8, op: Op, v: bv8): bv8
  {
    if op.AND? then a & v else if op.ORA? then a | v else a ^ v
  }

  /** ADC and SBC: A becomes the ALU result, with C and V from the ALU and
   *  Z and N from the result. */
  function Arith(c: Cpu, op: Op, v: bv8): (r: Cpu)
    requires op.ADC? || op.SBC?
    ensures op.ADC? ==> r.a == c.a + v + BitOf(c.p.c)
    ensures op.SBC? ==> r.a == c.a - v - BitOf(!c.p.c)
    ensures r.p.z <==> r.a == 0
    ensures r.p.n <==> Neg(r.a)
    ensures r.x == c.x && r.y == c.y && r.s == c.s && r.pc == c.pc && LinesKept(c, r)
  {
    c.(a := ArithResult(c.a, op, v, c.p).res,
       p := SetZN(ArithResult(c.a, op, v, c.p).p, ArithResult(c.a, op, v, c.p).res))
  }

  function ArithResult(a: bv8, op: Op, v: bv8, p: Flags): (r: AluOut)
    requires op.ADC? || op.SBC?
    ensures op.ADC? ==> r == AdcCore(a, v, p)
    ensures op.SBC? ==> r == SbcCore(a, v, p)
  {
    if op.ADC? then AdcCore(a, v, p) else SbcCore(a, v, p)
  }

  /** CMP, CPX, CPY: only P changes, C meaning "register >= operand" and Z
   *  equality. */
  function CompareReg(c: Cpu, op: Op, v: bv8): (r: Cpu)
    requires op.CMP? || op.CPX? || op.CPY?
    ensures r.p.c <==> Reg(c, op) >= v
    ensures r.p.z <==> Reg(c, op) == v
    ensures r == c.(p := r.p)
  {
    c.(p := Compare(Reg(c, op), v, c.p))
  }

  /** The instructions that read one operand byte `v` and compute from it;
   *  PC is left to the caller. */
  function Combine(c: Cpu, op: Op, v: bv8): (r: Cpu)
    requires IsRead(op)
    ensures r.pc == c.pc && LinesKept(c, r)
  {
    if op.AND? || op.ORA? || op.EOR? then Logic(c, op, v)
    else if op.ADC? || op.SBC? then Arith(c, op, v)
    else if op.BIT? then c.(p := BitTest(c.a, v, c.p))
    else CompareReg(c, op, v)
  }

  /** The byte INC, DEC and the shifts produce, with the carry they set. */
  function Modify(op: Op, v: bv8, p: Flags): (r: AluOut)
    requires IsRmw(op)
    ensures op.INC? ==> r.res == v + 1
    ensures op.DEC? ==> r.res == v - 1
    ensures op.INC? || op.DEC? ==> r.p == p
  {
    if op.INC? then AluOut(v + 1, p)
    else if op.DEC? then AluOut(v - 1, p)
    else if op.ASL? then Asl(v, p)
    else if op.LSR? then Lsr(v, p)
    else if op.ROL? then Rol(v, p)
    else Ror(v, p)
  }

  /** A read-modify-write on memory: the operand cell receives the new
   *  byte, Z and N describe it, and the registers are not changed. */
  function ModifyMemory(m: Machine, op: Op, e: Ea): (r: Machine)
    requires IsRmw(op)
    ensures Read(r.mem, e.addr) == Modify(op, Read(m.mem, e.addr), m.cpu.p).res
    ensures forall b :: b != e.addr ==> Read(r.mem, b) == Read(m.mem, b)
    ensures r.cpu.p.z <==> Read(r.mem, e.addr) == 0
    ensures r.cpu.p.n <==> Neg(Read(r.mem, e.addr))
    ensures r.cpu.a == m.cpu.a && r.cpu.x == m.cpu.x && r.cpu.y == m.cpu.y
    ensures r.cpu.s == m.cpu.s && r.cpu.pc == e.next && LinesKept(m.cpu, r.cpu)
  {
    Machine(m.cpu.(pc := e.next, p := SetZN(Modify(op, Read(m.mem, e.addr), m.cpu.p).p,
                                            Modify(op, Read(m.mem, e.addr), m.cpu.p).res)),
            Write(m.mem, e.addr, Modify(op, Read(m.mem, e.addr), m.cpu.p).res))
  }

  /** The accumulator forms ASL A, LSR A, ROL A, ROR A. */
  function ModifyA(c: Cpu, op: Op): (r: Cpu)
    requires IsRmw(op)
    ensures r.a == Modify(op, c.a, c.p).res
    ensures r.p.z <==> r.a == 0
    ensures r.p.n <==> Neg(r.a)
    ensures r.x == c.x && r.y == c.y && r.s == c.s && r.pc == c.pc && LinesKept(c, r)
  {
    c.(a := Modify(op, c.a, c.p).res,
       p := SetZN(Modify(op, c.a, c.p).p, Modify(op, c.a, c.p).res))
  }

  predicate IsTransfer(op: Op) { op.TAX? || op.TXA? || op.TAY? || op.TYA? || op.TSX? || op.TXS? }
  predicate IsCounter(op: Op) { op.INX? || op.DEX? || op.INY? || op.DEY? }
  predicate IsFlagOp(op: Op) { op.SEC? || op.CLC? || op.SEI? || op.CLI? || op.SED? || op.CLD? || op.CLV? }

  /** Register transfers; all but TXS set Z and N from the copied value. */
  function Transfer(c: Cpu, op: Op): (r: Cpu)
    requires IsTransfer(op)
    ensures op.TAX? ==> r == c.(x := c.a, p := r.p)
    ensures op.TXA? ==> r == c.(a := c.x, p := r.p)
    ensures op.TAY? ==> r == c.(y := c.a, p := r.p)
    ensures op.TYA? ==> r == c.(a := c.y, p := r.p)
    ensures op.TSX? ==> r == c.(x := c.s, p := r.p)
    ensures op.TXS? ==> r == c.(s := c.x)
    ensures !op.TXS? ==> (r.p.z <==> Copied(c, op) == 0) && (r.p.n <==> Neg(Copied(c, op)))
  {
    if op.TAX? then c.(x := c.a, p := SetZN(c.p, c.a))
    else if op.TXA? then c.(a := c.x, p := SetZN(c.p, c.x))
    else if op.TAY? then c.(y := c.a, p := SetZN(c.p, c.a))
    else if op.TYA? then c.(a := c.y, p := SetZN(c.p, c.y))
    else if op.TSX? then c.(x := c.s, p := SetZN(c.p, c.s))
    else c.(s := c.x)
  }

  /** The source register of a transfer. */
  function Copied(c: Cpu, op: Op): bv8
  {
    if op.TAX? || op.TAY? then c.a else if op.TXA? || op.TXS? then c.x
    else if op.TYA? then c.y else c.s
  }

  /** INX, DEX, INY, DEY: add or subtract one modulo 256, Z and N from the
   *  new value. */
  function Counter(c: Cpu, op: Op): (r: Cpu)
    requires IsCounter(op)
    ensures op.INX? ==> r == c.(x := c.x + 1, p := r.p)
    ensures op.DEX? ==> r == c.(x := c.x - 1, p := r.p)
    ensures op.INY? ==> r == c.(y := c.y + 1, p := r.p)
    ensures op.DEY? ==> r == c.(y := c.y - 1, p := r.p)
    ensures op.INX? || op.DEX? ==> (r.p.z <==> r.x == 0) && (r.p.n <==> Neg(r.x))
    ensures op.INY? || op.DEY? ==> (r.p.z <==> r.y == 0) && (r.p.n <==> Neg(r.y))
  {
    if op.INX? then c.(x := c.x + 1, p := SetZN(c.p, c.x + 1))
    else if op.DEX? then c.(x := c.x - 1, p := SetZN(c.p, c.x - 1))
    else if op.INY? then c.(y := c.y + 1, p := SetZN(c.p, c.y + 1))
    else c.(y := c.y - 1, p := SetZN(c.p, c.y - 1))
  }

  /** SEC, CLC, SEI, CLI, SED, CLD, CLV: one flag set or cleared, nothing
   *  else changed. */
  function FlagOp(c: Cpu, op: Op): (r: Cpu)
    requires IsFlagOp(op)
    ensures op.SEC? || op.CLC? ==> r == c.(p := c.p.(c := op.SEC?))
    ensures op.SEI? || op.CLI? ==> r == c.(p := c.p.(i := op.SEI?))
    ensures op.SED? || op.CLD? ==> r == c.(p := c.p.(d := op.SED?))
    ensures op.CLV? ==> r == c.(p := c.p.(v := false))
  {
    if op.SEC? then c.(p := c.p.(c := true))
    else if op.CLC? then c.(p := c.p.(c := false))
    else if op.SEI? then c.(p := c.p.(i := true))
    else if op.CLI? then c.(p := c.p.(i := false))
    else if op.SED? then c.(p := c.p.(d := true))
    else if op.CLD? then c.(p := c.p.(d := false))
    else c.(p := c.p.(v := false))
  }

  /** The one-byte instructions that only touch registers and flags. */
  function Implied(c: Cpu, op: Op): (r: Cpu)
    ensures LinesKept(c, r)
  {
    if IsTransfer(op) then Transfer(c, op)
    else if IsCounter(op) then Counter(c, op)
    else if IsFlagOp(op) then FlagOp(c, op)
    else c
  }

  /** The condition each branch opcode tests. */
  predicate Taken(op: Op, p: Flags)
  {
    if op.BEQ? then p.z
    else if op.BNE? then !p.z
    else if op.BCS? then p.c
    else if op.BCC? then !p.c
    else if op.BMI? then p.n
    else if op.BPL? then !p.n
    else if op.BVS? then p.v
    else !p.v
  }

  /** `(int8_t)` of the offset byte, widened to 16 bits. */
  function SignExtend(b: bv8): bv16
  {
    if Neg(b) then b as bv16 | 0xFF00 else b as bv16
  }

  /** The destination of a taken branch: the PC after the operand plus
   *  the signed offset, modulo 2^16. */
  function BranchTarget(base: bv16, off: bv8): bv16
  {
    base + SignExtend(off)
  }

  /** A taken branch costs 3 cycles, 4 when it leaves the page. */
  function TakenCycles(base: bv16, dst: bv16): nat
  {
    if PageCrossed(base, dst) then 4 else 3
  }

  /** `branch`: the offset is relative to the PC after the operand; not
   *  taken costs 2, taken 3, and 4 when the target is in another page. */
  function Branch(m: Machine, take: bool): (r: Stepped)
    ensures !take ==> r.cycles == 2 && r.m.cpu.pc == m.cpu.pc + 1
    ensures take ==> r.m.cpu.pc == BranchTarget(m.cpu.pc + 1, Read(m.mem, m.cpu.pc))
    ensures take ==> (r.cycles == 4 <==> PageCrossed(m.cpu.pc + 1, r.m.cpu.pc))
    ensures take ==> r.cycles in {3, 4}
    ensures r.m.mem == m.mem && r.m.cpu == m.cpu.(pc := r.m.cpu.pc)
  {
    if take then
      Stepped(m.(cpu := m.cpu.(pc := BranchTarget(m.cpu.pc + 1, Read(m.mem, m.cpu.pc)))),
              TakenCycles(m.cpu.pc + 1, BranchTarget(m.cpu.pc + 1, Read(m.mem, m.cpu.pc))))
    else
      Stepped(m.(cpu := m.cpu.(pc := m.cpu.pc + 1)), 2)
  }

  /** The little-endian word at `vec`, `vec + 1`: an interrupt or reset
   *  vector. */
  function Vector(mem: Mem, vec: bv16): bv16
  {
    WordAt(mem, vec)
  }

  /** Status byte pushed by PHP and BRK, `P | FLAG_B | FLAG_U`: the flags
   *  with B and U forced on. */
  function PushedBySoftware(p: Flags): (r: bv8)
    ensures Unpack(r) == p.(b := true, u := true)
  {
    Pack(p) | B | U
  }

  /** Status byte pushed by NMI and IRQ entry, `(P & ~FLAG_B) | FLAG_U`:
   *  B forced off, U on. */
  function PushedByInterrupt(p: Flags): (r: bv8)
    ensures Unpack(r) == p.(b := false, u := true)
  {
    (Pack(p) & !B) | U
  }

  /** Status loaded by PLP and RTI, `(v & ~FLAG_B) | FLAG_U`. */
  function Restored(v: bv8): (r: Flags)
    ensures r == Unpack(v).(b := false, u := true)
  {
    Unpack((v & !B) | U)
  }

  /** `op_JSR`, with PC at the operand: push the address of the operand's
   *  last byte, then jump. */
  function Jsr(m: Machine): (r: Machine)
    ensures r.cpu.pc == WordAt(m.mem, m.cpu.pc)
    ensures r.cpu.s == m.cpu.s - 2
    ensures Read(r.mem, StackAddr(m.cpu.s)) == Hi(m.cpu.pc + 1)
    ensures Read(r.mem, StackAddr(m.cpu.s - 1)) == Lo(m.cpu.pc + 1)
    ensures LinesKept(m.cpu, r.cpu)
  {
    Push16(m.(cpu := m.cpu.(pc := m.cpu.pc + 2)), m.cpu.pc + 1).(cpu :=
      Push16(m.(cpu := m.cpu.(pc := m.cpu.pc + 2)), m.cpu.pc + 1).cpu.(pc := WordAt(m.mem, m.cpu.pc)))
  }

  /** `op_RTS`: pull a word and resume one byte after it. */
  function Rts(m: Machine): (r: Machine)
    ensures r.cpu.pc == Pull16(m).v + 1
    ensures r.cpu.s == m.cpu.s + 2 && r.mem == m.mem && LinesKept(m.cpu, r.cpu)
  {
    Pull16(m).m.(cpu := Pull16(m).m.cpu.(pc := Pull16(m).v + 1))
  }

  /** `op_PLA`: pull into A and set Z and N from it. */
  function Pla(m: Machine): (r: Machine)
    ensures r.cpu.a == Pull8(m).v && r.cpu.s == m.cpu.s + 1 && r.mem == m.mem
    ensures r.cpu.p.z <==> r.cpu.a == 0
    ensures r.cpu.p.n <==> Neg(r.cpu.a)
    ensures LinesKept(m.cpu, r.cpu)
  {
    Pull8(m).m.(cpu := Pull8(m).m.cpu.(a := Pull8(m).v, p := SetZN(m.cpu.p, Pull8(m).v)))
  }

  /** `op_PHP`: push P with B and U forced on. */
  function Php(m: Machine): (r: Machine)
    ensures Read(r.mem, StackAddr(m.cpu.s)) == PushedBySoftware(m.cpu.p)
    ensures r.cpu == m.cpu.(s := m.cpu.s - 1)
  {
    Push8(m, PushedBySoftware(m.cpu.p))
  }

  /** `op_PLP`: pull P, clearing B and setting U. */
  function Plp(m: Machine): (r: Machine)
    ensures r.cpu.p == Restored(Pull8(m).v)
    ensures r.cpu.s == m.cpu.s + 1 && r.mem == m.mem && LinesKept(m.cpu, r.cpu)
  {
    Pull8(m).m.(cpu := Pull8(m).m.cpu.(p := Restored(Pull8(m).v)))
  }

  /** `op_BRK`, with PC just past the opcode: skip one padding byte, push
   *  PC and P|B|U, set I and jump through $FFFE. */
  function Brk(m: Machine): (r: Machine)
    ensures r.cpu.s == m.cpu.s - 3
    ensures r.cpu.p == m.cpu.p.(i := true)
    ensures Read(r.mem, StackAddr(m.cpu.s)) == Hi(m.cpu.pc + 1)
    ensures Read(r.mem, StackAddr(m.cpu.s - 1)) == Lo(m.cpu.pc + 1)
    ensures Read(r.mem, StackAddr(m.cpu.s - 2)) == PushedBySoftware(m.cpu.p)
    ensures LinesKept(m.cpu, r.cpu)
  {
    EnterHandler(Push16(m, m.cpu.pc + 1), m.cpu.p, PushedBySoftware(m.cpu.p), IrqVector)
  }

  /** The common tail of BRK and interrupt entry: push the status byte,
   *  set I on the saved P and load PC from the vector. */
  function EnterHandler(m: Machine, p: Flags, pushed: bv8, vec: bv16): (r: Machine)
    ensures r.cpu.s == m.cpu.s - 1
    ensures Read(r.mem, StackAddr(m.cpu.s)) == pushed
    ensures forall a :: a != StackAddr(m.cpu.s) ==> Read(r.mem, a) == Read(m.mem, a)
    ensures r.cpu.p == p.(i := true)
    ensures r.cpu.pc == Vector(r.mem, vec)
    ensures r.cpu.a == m.cpu.a && r.cpu.x == m.cpu.x && r.cpu.y == m.cpu.y
    ensures r.cpu.nmiLine == m.cpu.nmiLine && r.cpu.irqLine == m.cpu.irqLine
  {
    Push8(m, pushed).(cpu := Push8(m, pushed).cpu.(p := p.(i := true),
                                                   pc := Vector(Push8(m, pushed).mem, vec)))
  }

  /** `op_RTI`: pull P (B cleared, U set), then PC. */
  function Rti(m: Machine): (r: Machine)
    ensures r.cpu.p == Restored(Pull8(m).v)
    ensures r.cpu.pc == Pull16(Pull8(m).m).v
    ensures r.cpu.s == m.cpu.s + 3 && r.mem == m.mem && LinesKept(m.cpu, r.cpu)
  {
    Pull16(Pull8(m).m).m.(cpu := Pull16(Pull8(m).m).m.cpu.(p := Restored(Pull8(m).v),
                                                            pc := Pull16(Pull8(m).m).v))
  }

  /** The machine after a non-branch instruction, with PC just past the
   *  opcode on entry. */
  function Effect(m: Machine, i: Instr): (r: Machine)
    requires WellFormed(i) && !IsBranch(i.op)
    ensures LinesKept(m.cpu, r.cpu)
  {
    if IsLoad(i.op) then Load(m, i.op, Effective(m, i.mode))
    else if IsStore(i.op) then Store(m, i.op, Effective(m, i.mode))
    else if IsRead(i.op) then
      m.(cpu := Combine(m.cpu, i.op, Read(m.mem, Effective(m, i.mode).addr)).(pc := Effective(m, i.mode).next))
    else if IsRmw(i.op) then
      if i.mode.Acc? then m.(cpu := ModifyA(m.cpu, i.op)) else ModifyMemory(m, i.op, Effective(m, i.mode))
    else if i.op.JMP? then m.(cpu := m.cpu.(pc := Effective(m, i.mode).addr))
    else if i.op.JSR? then Jsr(m)
    else if i.op.RTS? then Rts(m)
    else if i.op.BRK? then Brk(m)
    else if i.op.RTI? then Rti(m)
    else if i.op.PHA? then Push8(m, m.cpu.a)
    else if i.op.PLA? then Pla(m)
    else if i.op.PHP? then Php(m)
    else if i.op.PLP? then Plp(m)
    else m.(cpu := Implied(m.cpu, i.op))
  }

  /** Cycles of a non-branch instruction: its base count plus one when an
   *  indexed read crosses a page. */
  function Cycles(m: Machine, i: Instr): nat
    requires WellFormed(i)
  {
    BaseCycles(i) + (if i.mode.Addressed() then Penalty(i, Effective(m, i.mode).crossed) else 0)
  }

  /** One decoded instruction, as `execute_and_return_cycles` dispatches it. */
  function Execute(m: Machine, i: Instr): (r: Stepped)
    requires WellFormed(i)
    ensures 2 <= r.cycles <= 7
    ensures !IsBranch(i.op) ==> r.cycles == BaseCycles(i) || r.cycles == BaseCycles(i) + 1
    ensures LinesKept(m.cpu, r.m.cpu)
  {
    if IsBranch(i.op) then Branch(m, Taken(i.op, m.cpu.p))
    else Stepped(Effect(m, i), Cycles(m, i))
  }

  // ------------------------------------------------------------------
  // Interrupts, reset and the step function
  // ------------------------------------------------------------------

  const NmiVector: bv16 := 0xFFFA
  const ResetVector: bv16 := 0xFFFC
  const IrqVector: bv16 := 0xFFFE

  /** `service_NMI` / `service_IRQ`: push PC and P with B clear and U
   *  set, set I, and jump through the vector. */
  function ServiceInterrupt(m: Machine, vec: bv16): (r: Machine)
    ensures r.cpu.s == m.cpu.s - 3
    ensures r.cpu.p == m.cpu.p.(i := true)
    ensures Read(r.mem, StackAddr(m.cpu.s)) == Hi(m.cpu.pc)
    ensures Read(r.mem, StackAddr(m.cpu.s - 1)) == Lo(m.cpu.pc)
    ensures Read(r.mem, StackAddr(m.cpu.s - 2)) == PushedByInterrupt(m.cpu.p)
    ensures r.cpu.pc == Vector(r.mem, vec)
  {
    EnterHandler(Push16(m, m.cpu.pc), m.cpu.p, PushedByInterrupt(m.cpu.p), vec)
  }

  /** `cpu_after_instruction`: a raised NMI line wins and is serviced even
   *  with I set; otherwise a raised IRQ line is serviced only when I is
   *  clear.  Servicing costs 7 cycles and lowers that line only; a masked
   *  IRQ stays raised. */
  function AfterInstruction(m: Machine): (r: Stepped)
    ensures m.cpu.nmiLine ==>
      r.cycles == 7 && !r.m.cpu.nmiLine && r.m.cpu.irqLine == m.cpu.irqLine
      && r.m.cpu.pc == Vector(r.m.mem, NmiVector)
    ensures !m.cpu.nmiLine && m.cpu.irqLine && !m.cpu.p.i ==>
      r.cycles == 7 && !r.m.cpu.irqLine && r.m.cpu.pc == Vector(r.m.mem, IrqVector)
    ensures !m.cpu.nmiLine && !(m.cpu.irqLine && !m.cpu.p.i) ==> r == Stepped(m, 0)
    ensures r.m.cpu.a == m.cpu.a && r.m.cpu.x == m.cpu.x && r.m.cpu.y == m.cpu.y
  {
    if m.cpu.nmiLine then
      Stepped(LowerNmi(ServiceInterrupt(m, NmiVector)), 7)
    else if m.cpu.irqLine && !m.cpu.p.i then
      Stepped(LowerIrq(ServiceInterrupt(m, IrqVector)), 7)
    else
      Stepped(m, 0)
  }

  function LowerNmi(m: Machine): Machine { m.(cpu := m.cpu.(nmiLine := false)) }
  function LowerIrq(m: Machine): Machine { m.(cpu := m.cpu.(irqLine := false)) }

  /** `cpu_step` without the DMA stall branch: fetch the opcode at PC,
   *  execute it, then add whatever `cpu_after_instruction` reports. */
  function Step(m: Machine): (r: Stepped)
    ensures 2 <= r.cycles <= 14
  {
    Finish(Dispatch(m.(cpu := m.cpu.(pc := m.cpu.pc + 1)), Read(m.mem, m.cpu.pc)))
  }

  /** `execute_and_return_cycles` with PC past the opcode; an opcode with
   *  no case in the switch costs 2 cycles and does nothing else. */
  function Dispatch(m: Machine, code: bv8): (r: Stepped)
    ensures 2 <= r.cycles <= 7
    ensures Decode(code).None? ==> r.m == m && r.cycles == 2
    ensures LinesKept(m.cpu, r.m.cpu)
  {
    match Decode(code)
    case Some(i) => Execute(m, i)
    case None => Stepped(m, 2)
  }

  /** The interrupt check that ends `cpu_step`: it adds 0 cycles, or 7
   *  when it enters a handler. */
  function Finish(ex: Stepped): (r: Stepped)
    ensures r.cycles == ex.cycles || r.cycles == ex.cycles + 7
    ensures r.m == AfterInstruction(ex.m).m
  {
    Stepped(AfterInstruction(ex.m).m, ex.cycles + AfterInstruction(ex.m).cycles)
  }

  /** `cpu_reset`: S = 0xFD, P = 0x34, PC from $FFFC/$FFFD, both interrupt
   *  lines lowered; A, X and Y keep their values. */
  function Reset(m: Machine): (r: Machine)
    ensures r.cpu.s == 0xFD && Pack(r.cpu.p) == 0x34
    ensures r.cpu.p.i && r.cpu.p.u && r.cpu.p.b && !r.cpu.p.c && !r.cpu.p.z && !r.cpu.p.d
    ensures Lo(r.cpu.pc) == Read(m.mem, ResetVector) && Hi(r.cpu.pc) == Read(m.mem, ResetVector + 1)
    ensures !r.cpu.nmiLine && !r.cpu.irqLine
    ensures r.cpu.a == m.cpu.a && r.cpu.x == m.cpu.x && r.cpu.y == m.cpu.y && r.mem == m.mem
  {
    m.(cpu := m.cpu.(s := 0xFD, p := Unpack(0x34), pc := Vector(m.mem, ResetVector),
                     nmiLine := false, irqLine := false))
  }

  /** Resetting twice is resetting once: the second reset reads the same
   *  vector and sets the same registers. */
  lemma ResetIdempotent(m: Machine)
    ensures Reset(Reset(m)) == Reset(m)
  {
  }

  /** `cpu_nmi` / `cpu_irq` only raise the line; servicing happens after the
   *  next instruction. */
  function RaiseNmi(c: Cpu): (r: Cpu)
    ensures r.nmiLine && r.(nmiLine := c.nmiLine) == c
  {
    c.(nmiLine := true)
  }

  function RaiseIrq(c: Cpu): (r: Cpu)
    ensures r.irqLine && r.(irqLine := c.irqLine) == c
  {
    c.(irqLine := true)
  }
}
