# EasyNES core in Dafny

A model of the emulation core of EasyNES, a NES emulator written in C,
with proofs about that model. The model covers these parts:

- **6502 CPU** (`Cpu6502`, `Status`, `Alu`, `Opcodes`, `CpuFacts`). It
  covers the registers, the status flags, the stack in page 1, every
  addressing mode, and every opcode the interpreter's switch implements,
  each with its base cycle count and page-crossing penalty. It also covers
  BRK and NMI/IRQ entry, RTI, reset, and `cpu_step`. The CPU runs against
  a flat 64 KiB memory (`Memory`).
- **PPU** (`Ppu`). It covers the loopy registers v/t/x/w, the eight
  registers at $2000-$2007, the nametable and palette address decode, the
  scroll increments done while rendering, the dot/scanline counter, and the
  VBlank/NMI latch.
- **CPU bus** (`Bus`). It covers RAM mirroring, PPU register mirroring, the
  APU stub, the pads, the mapper window, and OAM DMA at $4014.
- **Cartridges** (`Cartridge`, `Nrom`, `Mmc1`, `Mapper`). They cover the
  iNES header decode and the cartridge image, mapper 0 (NROM), mapper 1
  (MMC1) with its serial register interface, and the mapper factory.
- **Pads** (`Controller`): the strobe, the latch, and the serial read.
- **Emulator loop** (`Emu`): one instruction, three PPU dots per CPU cycle,
  the NMI bridge, and the runs for a number of instructions or frames.
- **APU integer state** (`Divider`, `Units`, `Pulse`, `Triangle`, `Noise`,
  `Dmc`, `FrameCounter`, `Apu`). It covers the divider, the length counter,
  the linear counter, the envelope, and the sweep. It covers the five
  channels and the frame sequencer, the $4000-$4017 register writes, the
  $4015 status read, and the CPU-rate step.

State is held in immutable datatypes, and every operation is a pure
function of the state before it. The CPU and PPU use the machine's own
widths (`bv8`, `bv16`). The mapper, cartridge and APU code works on C `int`
and `size_t` values, so those modules use unbounded integers. Where the
source code and its comments disagree, the model follows the code.

Several quirks of the code are modelled as written, and the proofs state
their consequences:

- MMC1 always forces PRG mode 3.
- OAM DMA always takes 513 cycles, because the alignment test always says
  the cycle is odd.
- `ppu_write` stores every address to both the nametables and the
  palette. Its `a - 0x1000` nametable store and its palette store run
  unconditionally. A comment swallows the no-op of the `a <= 0x1FFF`
  test, so the first nametable store becomes that test's body, and
  pattern-table writes at $0000-$1FFF also land in the nametables.
- `ppu_read` never reads the palette.
- Four opcodes priced by the cycle table in `CPUopcodes.h` are not
  implemented by the switch. They are ORA, AND and EOR in zp,X mode, and
  $EB.
- The noise channel's feedback reads a file-scope `mode`, so the channel's
  own mode field has no effect.
- The `$4015` status bit 4 reports `!has_more_samples`.

Where the code is evidently wrong, the model has both halves:

- a member that models the code as written, with a lemma that shows what
  goes wrong;
- the corrected definition, with the intended property proved.

The rest of the model uses the corrected definition. These cases are
listed under "## Findings".

## Model

| member | source | states |
|---|---|---|
| Memory.Write | src/cpu.c:18-24 | a CPU write changes the addressed byte to the value and leaves every other address reading as before |
| Memory.Read | src/cpu.c:18-20 | the byte at an address; it carries no contract of its own, and Memory.Write's contract says what it reads after a write |
| Status.Pack | src/cpu.c:8-15 | each of the eight flags is set in the status byte exactly when its FLAG_* bit (C=0x01 … N=0x80) is set |
| Status.Unpack | src/cpu.c:8-15 | the flag record read from a status byte packs back to that byte |
| Status.UnpackPack | src/cpu.c:8-15 | converting flags to the status byte and back loses nothing |
| Status.PackUnpack | src/cpu.c:8-15 | converting a status byte to flags and back gives the same byte, so the two views are interchangeable |
| Status.SetZN | src/cpu.c:129-132 | Z holds iff the value is 0, N iff bit 7 of the value is set, and the other six flags are unchanged |
| Alu.AdcCore | src/cpu.c:134-145 | the sum is A + M + C modulo 256; C holds iff the 16-bit sum exceeds 0xFF; V holds iff A and M have the same sign and the result has the other sign; only C and V change |
| Alu.AdcCarryIsUnsignedOverflow | src/cpu.c:134-145 | the ADC carry holds exactly when A + M + C exceeds 255 as an integer |
| Alu.SbcCore | src/cpu.c:147-150 | SBC is ADC of the complemented operand; the result is A − M − (1 − C) modulo 256; C means "no borrow" (A ≥ M + borrow); V holds iff A and M differ in sign and the result's sign differs from A's |
| Alu.SbcResult | src/cpu.c:147-150 | adding the complement with carry gives A − M − borrow modulo 256 |
| Alu.SbcCarry | src/cpu.c:147-150 | the carry of the complemented add holds iff A ≥ M + borrow |
| Alu.SbcOverflow | src/cpu.c:147-150 | the overflow of the complemented add holds iff A and M differ in sign and the result's sign differs from A's |
| Alu.Compare | src/cpu.c:152-158 | C holds iff register ≥ operand (unsigned), Z iff they are equal, N is bit 7 of their difference; the other flags are kept |
| Alu.Asl | src/cpu.c:571-578 | the byte doubles modulo 256 and the old bit 7 becomes C |
| Alu.Lsr | src/cpu.c:580-587 | the result is below 0x80, and twice the result plus the new C rebuilds the input |
| Alu.Rol | src/cpu.c:589-597 | the result is 2·v + old C modulo 256, and the old bit 7 becomes C |
| Alu.Ror | src/cpu.c:599-607 | the old C becomes bit 7, and twice the low seven result bits plus the new C rebuilds the input |
| Alu.RorUndoesRol | src/cpu.c:589-607 | ROR after ROL gives back both the byte and the carry |
| Alu.RolUndoesRor | src/cpu.c:589-607 | ROL after ROR gives back both the byte and the carry |
| Alu.BitTest | src/cpu.c:661-668 | Z holds iff A AND M is 0; V and N are copied from bits 6 and 7 of M; C, I, D, B and U are kept |
| Alu.AdcSbcExamples | src/test.c:557-611 | the repository's own ADC and SBC test cases hold: 0x50+0x10, 0x50+0x50 (overflow), 0xFF+0x01 (carry), 0x40−0x10, 0x30−0x40 (borrow) |
| Cpu6502.StackAddr | src/cpu.c:27-33 | every stack access lies in 0x0100-0x01FF, at the offset S |
| Cpu6502.Push8 | src/cpu.c:31-33 | a push stores the byte at 0x0100+S, decrements S modulo 256, and changes nothing else |
| Cpu6502.Pull8 | src/cpu.c:27-29 | a pull increments S modulo 256 and returns the byte at the new 0x0100+S, with memory unchanged |
| Cpu6502.Push16 | src/cpu.c:40-44 | the high byte is pushed first and the low byte ends on top; S drops by 2; no other byte changes |
| Cpu6502.Pull16 | src/cpu.c:35-38 | the low byte is pulled first and then the high byte; S rises by 2 |
| Cpu6502.Push16ThenPull16 | src/cpu.c:35-44 | pulling a word just pushed returns that word and restores the CPU registers |
| Cpu6502.PullWordBack | src/cpu.c:35-38 | pull16 returns any word whose low and high bytes sit just above S |
| Cpu6502.Push8ThenPull8 | src/cpu.c:27-33 | pulling a byte just pushed returns it and restores the registers |
| Cpu6502.ZpNext | src/cpu.c:97-113 | the pointer successor `(ptr + 1) & 0xFF` stays in page 0 |
| Cpu6502.Indexed | src/cpu.c:83-95 | abs,X and abs,Y add the index to the 16-bit base, and report a page crossing iff the sum leaves the base's page |
| Cpu6502.EffectiveAt | src/cpu.c:66-121 | absolute-family modes consume two operand bytes and the others one; only abs,X, abs,Y and (zp),Y can report a page crossing |
| Cpu6502.ZeroPageIndexedWraps | src/cpu.c:70-76 | zp,X and zp,Y wrap inside page 0: the address is operand + index modulo 256 |
| Cpu6502.ZeroPagePointerWraps | src/cpu.c:97-113 | a zero-page pointer at $FF takes its high byte from $00 |
| Cpu6502.IndexedAddress | src/cpu.c:83-113 | abs,X and (zp),Y address base + index, with a page crossing exactly when the sum leaves the base's page |
| Cpu6502.JmpIndirectPageBug | src/cpu.c:115-121 | JMP (ind) with a pointer at $xxFF takes the high byte from $xx00 of the same page; any other pointer uses the next address |
| Cpu6502.SetReg | src/cpu.c:167-231 | a load target receives the value and the other registers are kept |
| Cpu6502.Load | src/cpu.c:167-231 | LDA, LDX and LDY put the operand byte in their register and set Z and N from it; memory, S and the other registers are untouched |
| Cpu6502.Store | src/cpu.c:233-270 | STA, STX and STY write the register at the operand address; every other byte and every register is kept |
| Cpu6502.Logic | src/cpu.c:274-452 | AND, ORA and EOR combine A bitwise with the operand, set Z and N from the result, and change no other flag |
| Cpu6502.Arith | src/cpu.c:457-490 | ADC and SBC leave A = A ± M with carry or borrow modulo 256, with Z and N from the new A |
| Cpu6502.ArithResult | src/cpu.c:457-490 | ADC uses adc_core and SBC uses sbc_core |
| Cpu6502.CompareReg | src/cpu.c:496-512 | CMP, CPX and CPY change only P: C iff register ≥ operand, Z iff they are equal |
| Cpu6502.Modify | src/cpu.c:548-654 | INC and DEC add or subtract one modulo 256 and keep every flag for the caller to set |
| Cpu6502.ModifyMemory | src/cpu.c:548-654 | a read-modify-write stores the new byte at the operand address, sets Z and N from it, and leaves every other byte and every register alone |
| Cpu6502.ModifyA | src/cpu.c:571-607 | the accumulator forms of the shifts replace A and set Z and N from it |
| Cpu6502.Transfer | src/cpu.c:800-805 | TAX, TXA, TAY, TYA and TSX copy one register and set Z and N from the value; TXS copies X to S and changes no flag |
| Cpu6502.Counter | src/cpu.c:519-541 | INX, DEX, INY and DEY change their register by one modulo 256 and set Z and N from it |
| Cpu6502.FlagOp | src/cpu.c:760-766 | SEC, CLC, SEI, CLI, SED, CLD and CLV set or clear exactly one flag |
| Cpu6502.Branch | src/cpu.c:704-715 | a branch not taken costs 2 cycles and skips the operand; a taken branch goes to the offset target and costs 3, or 4 exactly when the target is in another page |
| Cpu6502.PushedBySoftware | src/cpu.c:742-747 | PHP and BRK push P with B and U forced on |
| Cpu6502.PushedByInterrupt | src/cpu.c:1224-1252 | interrupt entry pushes P with B forced off and U on |
| Cpu6502.Restored | src/cpu.c:749-753 | PLP and RTI load P from the byte with B cleared and U set |
| Cpu6502.Jsr | src/cpu.c:685-691 | JSR pushes the address of its operand's last byte, high byte first, and jumps to the operand |
| Cpu6502.Rts | src/cpu.c:693-697 | RTS pulls a word and resumes one byte after it |
| Cpu6502.Pla | src/cpu.c:736-740 | PLA pulls into A and sets Z and N from it |
| Cpu6502.Php | src/cpu.c:742-747 | PHP pushes P with B and U set; only S changes among the registers |
| Cpu6502.Plp | src/cpu.c:749-753 | PLP pulls P, clearing B and setting U |
| Cpu6502.Brk | src/cpu.c:773-787 | BRK skips a padding byte, pushes PC+1 and P with B and U set, sets I, and lowers S by 3 |
| Cpu6502.EnterHandler | src/cpu.c:773-787 | the shared tail of BRK and interrupt entry pushes the status byte, sets I, and loads PC from the vector; A, X, Y and the interrupt lines are kept |
| Cpu6502.Rti | src/cpu.c:789-794 | RTI pulls P (B cleared, U set) and then PC, and raises S by 3 |
| Cpu6502.ServiceInterrupt | src/cpu.c:1224-1252 | NMI and IRQ entry push PC and P with B clear, set I, and jump through the vector |
| Cpu6502.AfterInstruction | src/cpu.c:1291-1302 | a raised NMI line wins and is serviced even with I set; otherwise IRQ is serviced only when I is clear; servicing costs 7 cycles and lowers only its own line; otherwise nothing changes |
| Cpu6502.Reset | src/cpu.c:1268-1281 | reset sets S = 0xFD, P = 0x34, and PC from $FFFC/$FFFD, and lowers both interrupt lines; A, X, Y and memory are kept |
| Cpu6502.ResetIdempotent | src/cpu.c:1268-1281 | resetting twice is resetting once |
| Cpu6502.RaiseNmi | src/cpu.c:1283-1285 | `cpu_nmi` raises the NMI line and changes nothing else |
| Cpu6502.RaiseIrq | src/cpu.c:1287-1289 | `cpu_irq` raises the IRQ line and changes nothing else |
| Cpu6502.Execute | src/cpu.c:1310-1523 | a decoded instruction costs 2 to 7 cycles; apart from branches it costs its base count or one more; it leaves both interrupt lines as they were |
| Cpu6502.Dispatch | src/cpu.c:1310-1523 | the opcode switch costs 2 to 7 cycles and leaves both interrupt lines as they were; an opcode without a case (the default arm) changes nothing and costs 2 |
| Cpu6502.Finish | src/cpu.c:1291-1302 | the interrupt check after an instruction adds 0 or 7 cycles, and the machine is what `cpu_after_instruction` leaves |
| Cpu6502.Step | src/cpu.c:1525-1537 | one `cpu_step` costs between 2 and 14 cycles |
| CpuFacts.CountersUndoEachOther | src/cpu.c:519-541 | INX then DEX, and DEY then INY, give the register back; 0xFF+1 wraps to 0 with Z set, and 0−1 wraps to 0xFF with N set |
| CpuFacts.BranchTargetDistance | src/cpu.c:704-715 | an offset below $80 jumps forward by that many bytes and one of $80 or more jumps back by 256 minus it; $FE on a two-byte branch loops on itself |
| CpuFacts.PagePenaltyOnlyWhenCrossed | src/cpu.c:167-217 | an addressed instruction costs its base count or one more, and one more exactly when it is an indexed read that crosses a page; stores and read-modify-writes never pay |
| CpuFacts.FixedCycleCounts | src/cpu.c:233-270 | STA abs,X costs 5, STA (zp),Y costs 6, and any read-modify-write on abs,X costs 7 |
| CpuFacts.JsrRtsRoundTrip | src/cpu.c:685-697 | JSR then RTS resumes right after the 3-byte JSR, with S restored |
| CpuFacts.JsrRtsReturnAddress | src/cpu.c:685-697 | RTS after JSR resumes at the JSR operand address + 2 |
| CpuFacts.PhpPlpRoundTrip | src/cpu.c:742-753 | PHP then PLP restores P up to B cleared and U set, and restores S |
| CpuFacts.PhaPlaRoundTrip | src/cpu.c:731-740 | PHA then PLA restores A and S |
| CpuFacts.InterruptRtiRoundTrip | src/cpu.c:1224-1252 | an interrupt handler ending in RTI returns to the interrupted PC with P restored (B clear, U set) and S back where it was |
| CpuFacts.InterruptRtiReturnAddress | src/cpu.c:1224-1252 | RTI after interrupt entry resumes at the interrupted PC |
| CpuFacts.InterruptRtiStatus | src/cpu.c:1224-1252 | RTI after interrupt entry restores P, with B clear and U set |
| CpuFacts.BrkRtiRoundTrip | src/cpu.c:773-794 | BRK then RTI resumes two bytes after the BRK opcode, with P and S restored |
| CpuFacts.BrkRtiReturnAddress | src/cpu.c:773-794 | RTI after BRK resumes one byte past the byte after the opcode |
| CpuFacts.BrkRtiStatus | src/cpu.c:773-794 | RTI after BRK restores P, with B clear and U set |
| CpuFacts.SoftwareRestored | src/cpu.c:742-753 | pulling back a byte pushed by PHP or BRK gives the original flags with B clear and U set |
| CpuFacts.InterruptRestored | src/cpu.c:1224-1252 | pulling back a byte pushed by interrupt entry gives the original flags with B clear and U set |
| CpuFacts.UnassignedOpcode | src/cpu.c:1521 | an opcode without a case advances PC by one and costs 2 cycles when no interrupt is pending |
| CpuFacts.NmiAfterInstruction | src/cpu.c:1291-1302 | after every instruction a pending NMI is taken even with I set: the step costs the instruction's cycles plus 7 (9 to 14 in all, 9 after an opcode without a case), jumps through $FFFA, and lowers the NMI line |
| CpuFacts.IrqMasked | src/cpu.c:1291-1302 | with NMI low, a raised IRQ line is serviced after any instruction exactly when the instruction leaves I clear (7 more cycles, through $FFFE, line lowered); when it leaves I set the step is the instruction alone and the line stays raised |
| Opcodes.Decode | src/cpu.c:1310-1523 | every decoded opcode is well formed: memory instructions use an addressed mode, shifts may use A, branches are relative, and the rest are implied |
| Opcodes.ReadCycles | src/cpu.c:167-231 | a read costs 2 to 6 cycles: 2 with an immediate operand and at least 3 in every mode that fetches from an address (JMP's indirect mode is not a read mode) |
| Opcodes.StoreCycles | src/cpu.c:233-270 | a store costs what a read costs in the same mode, plus the crossing cycle always paid in abs,X, abs,Y and (zp),Y |
| Opcodes.RmwCycles | src/cpu.c:548-654 | a read-modify-write in zp, zp,X, abs or abs,X costs two cycles more than a store in that mode |
| Opcodes.BaseCycles | src/cpu.c:1310-1523 | every handler's base cost lies between 2 and 7 cycles |
| Opcodes.PagePenalty | src/cpu.c:167-231 | only reads pay the page-crossing cycle, and a read that pays it costs what a store in its mode costs |
| Opcodes.DecodeFacts | src/headers/CPUopcodes.h:116-134 | for every opcode the switch implements, the decoded instruction is well formed and its base cost equals the `operation_cycles` entry |
| Opcodes.RowFacts0 | src/headers/CPUopcodes.h:118 | opcodes $00-$0F decode well formed, at the table's price |
| Opcodes.RowCycles0 | src/headers/CPUopcodes.h:118 | opcodes $00-$0F cost what the table's row lists |
| Opcodes.RowFacts1 | src/headers/CPUopcodes.h:119 | opcodes $10-$1F decode well formed, at the table's price |
| Opcodes.RowCycles1 | src/headers/CPUopcodes.h:119 | opcodes $10-$1F cost what the table's row lists |
| Opcodes.RowFacts2 | src/headers/CPUopcodes.h:120 | opcodes $20-$2F decode well formed, at the table's price |
| Opcodes.RowCycles2 | src/headers/CPUopcodes.h:120 | opcodes $20-$2F cost what the table's row lists |
| Opcodes.RowFacts3 | src/headers/CPUopcodes.h:121 | opcodes $30-$3F decode well formed, at the table's price |
| Opcodes.RowCycles3 | src/headers/CPUopcodes.h:121 | opcodes $30-$3F cost what the table's row lists |
| Opcodes.RowFacts4 | src/headers/CPUopcodes.h:122 | opcodes $40-$4F decode well formed, at the table's price |
| Opcodes.RowCycles4 | src/headers/CPUopcodes.h:122 | opcodes $40-$4F cost what the table's row lists |
| Opcodes.RowFacts5 | src/headers/CPUopcodes.h:123 | opcodes $50-$5F decode well formed, at the table's price |
| Opcodes.RowCycles5 | src/headers/CPUopcodes.h:123 | opcodes $50-$5F cost what the table's row lists |
| Opcodes.RowFacts6 | src/headers/CPUopcodes.h:124 | opcodes $60-$6F decode well formed, at the table's price |
| Opcodes.RowCycles6 | src/headers/CPUopcodes.h:124 | opcodes $60-$6F cost what the table's row lists |
| Opcodes.RowFacts7 | src/headers/CPUopcodes.h:125 | opcodes $70-$7F decode well formed, at the table's price |
| Opcodes.RowCycles7 | src/headers/CPUopcodes.h:125 | opcodes $70-$7F cost what the table's row lists |
| Opcodes.RowFacts8 | src/headers/CPUopcodes.h:126 | opcodes $80-$8F decode well formed, at the table's price |
| Opcodes.RowCycles8 | src/headers/CPUopcodes.h:126 | opcodes $80-$8F cost what the table's row lists |
| Opcodes.RowFacts9 | src/headers/CPUopcodes.h:127 | opcodes $90-$9F decode well formed, at the table's price |
| Opcodes.RowCycles9 | src/headers/CPUopcodes.h:127 | opcodes $90-$9F cost what the table's row lists |
| Opcodes.RowFactsA | src/headers/CPUopcodes.h:128 | opcodes $A0-$AF decode well formed, at the table's price |
| Opcodes.RowCyclesA | src/headers/CPUopcodes.h:128 | opcodes $A0-$AF cost what the table's row lists |
| Opcodes.RowFactsB | src/headers/CPUopcodes.h:129 | opcodes $B0-$BF decode well formed, at the table's price |
| Opcodes.RowCyclesB | src/headers/CPUopcodes.h:129 | opcodes $B0-$BF cost what the table's row lists |
| Opcodes.RowFactsC | src/headers/CPUopcodes.h:130 | opcodes $C0-$CF decode well formed, at the table's price |
| Opcodes.RowCyclesC | src/headers/CPUopcodes.h:130 | opcodes $C0-$CF cost what the table's row lists |
| Opcodes.RowFactsD | src/headers/CPUopcodes.h:131 | opcodes $D0-$DF decode well formed, at the table's price |
| Opcodes.RowCyclesD | src/headers/CPUopcodes.h:131 | opcodes $D0-$DF cost what the table's row lists |
| Opcodes.RowFactsE | src/headers/CPUopcodes.h:132 | opcodes $E0-$EF decode well formed, at the table's price |
| Opcodes.RowCyclesE | src/headers/CPUopcodes.h:132 | opcodes $E0-$EF cost what the table's row lists |
| Opcodes.RowFactsF | src/headers/CPUopcodes.h:133 | opcodes $F0-$FF decode well formed, at the table's price |
| Opcodes.RowCyclesF | src/headers/CPUopcodes.h:133 | opcodes $F0-$FF cost what the table's row lists |
| Opcodes.BaseCyclesAgreeWithTable | src/headers/CPUopcodes.h:116-134 | every opcode the interpreter implements costs, before penalties, exactly what the reference table lists |
| Opcodes.TableOnlyOpcodes | src/headers/CPUopcodes.h:116-134 | the only opcodes the table prices but the switch lacks are $15, $35, $55 and $EB |
| Ppu.Init | src/ppu.c:12-41 | ppu_init leaves v, t, w, status and the dot/scanline counter at zero with no NMI pending, and records the cartridge mirroring |
| Ppu.NtIndex | src/ppu.c:71-83 | the nametable index keeps the address's 10-bit offset; vertical mirroring selects the page by bit 10 and horizontal by bit 11, both inside 2 KiB; four-screen keeps all 12 bits |
| Ppu.NtIndexLow12 | src/ppu.c:71-83 | two addresses that agree in their low 12 bits select the same nametable byte |
| Ppu.FourScreenOverrunsCiram | src/ppu.c:71-83 | as written, four-screen mirroring gives an index of 0x800 or more, past the 2 KiB `ciram`, exactly for addresses with bit 11 set, such as $2800 |
| Ppu.PalIndex | src/ppu.c:85-92 | the palette slot is below 0x20, and $3F10/$3F14/$3F18/$3F1C alias $3F00/$3F04/$3F08/$3F0C |
| Ppu.PpuRead | src/ppu.c:94-100 | pattern-table addresses read 0; $2000-$3FFF read the mirrored nametable byte |
| Ppu.PpuWrite | src/ppu.c:102-108 | every write stores the value both at its nametable byte and at its palette slot, and nothing else changes |
| Ppu.WriteThenRead | src/ppu.c:94-108 | for every mirroring, a write followed by a read of the same address in $2000-$3FFF returns the byte written |
| Ppu.ReadIgnoresPalette | src/ppu.c:94-108 | reads never consult the palette; $3F10 and $3F00 share a palette slot but not a nametable byte |
| Ppu.NametableSelect | src/ppu.c:110-119 | a $2000 write changes only bits 10-11 of t, to the value's low two bits |
| Ppu.Write2000 | src/ppu.c:110-119 | a $2000 write stores PPUCTRL, copies the value's low two bits into bits 10-11 of t, and changes nothing else |
| Ppu.ScrollX | src/ppu.c:146-159 | the first $2005 write sets coarse X to the value's top five bits and keeps bits 5-15 of t |
| Ppu.ScrollY | src/ppu.c:146-159 | the second $2005 write sets fine Y and coarse Y from the value and keeps bits 0-4, 10-11 and 15 of t |
| Ppu.AddrHi | src/ppu.c:161-172 | the first $2006 write sets bits 8-13 of t from the value, clears bits 14-15, and keeps the low byte |
| Ppu.AddrLo | src/ppu.c:161-172 | the second $2006 write replaces the low byte and keeps bits 8-14 |
| Ppu.AddressPair | src/ppu.c:161-172 | a high/low pair of $2006 writes leaves t = (hi AND 0x3F) · 256 + lo, whatever t held |
| Ppu.Write2006 | src/ppu.c:161-172 | each write flips the toggle; the first sets the high half of t and leaves v; the second sets the low half and copies t into v; nothing else changes |
| Ppu.IncrementCoarseX | src/ppu.c:256-263 | coarse X 31 wraps to 0 and flips the horizontal nametable bit; any other coarse X gains one; no other bit changes |
| Ppu.IncrementY | src/ppu.c:267-285 | fine Y below 7 gains one; at 7 it wraps and coarse Y moves on, 29 wrapping to 0 with the vertical nametable flip and 31 wrapping without it; coarse X, bit 10 and bit 15 are kept |
| Ppu.CopyHorizontal | src/ppu.c:289-292 | coarse X and the horizontal nametable bit come from t, and every other bit of v is kept |
| Ppu.CopyVertical | src/ppu.c:295-297 | fine Y, coarse Y and the vertical nametable bit come from t, and every other bit of v is kept |
| Ppu.CopiesCoverV | src/ppu.c:289-297 | the horizontal and vertical copies commute, and together make v equal to t in bits 0-14 while keeping bit 15 |
| Ppu.ScrollUpdate | src/ppu.c:301-309 | while rendering, the fetch dots increment coarse X, dot 256 increments Y, dot 257 copies the horizontal bits, and pre-render dots 280-304 copy the vertical bits; otherwise v is unchanged |
| Ppu.Read2002 | src/ppu.c:125-131 | a status read returns the status as it was, then clears VBlank and the write toggle |
| Ppu.OamPush | src/ppu.c:137-140 | an OAM data write stores at the OAM cursor and advances it modulo 256; nothing else changes |
| Ppu.OamPushOther | src/ppu.c:350-353 | a DMA push leaves every other OAM byte unchanged |
| Ppu.Write2005 | src/ppu.c:146-159 | the toggle selects the X half (fine X and coarse X, then w set) or the Y half (w cleared) |
| Ppu.Increment | src/ppu.c:174-194 | the $2007 address step is 32 when PPUCTRL bit 2 is set and 1 otherwise |
| Ppu.Write2007 | src/ppu.c:174-178 | a data write stores at v and then advances v by the step within 14 bits |
| Ppu.Read2007 | src/ppu.c:180-194 | below $3F00 a data read returns the previous buffer and refills it from v; from $3F00 it returns the byte at v at once and loads the buffer from (v − $1000) AND $3FFF; v then advances |
| Ppu.RegRead | src/ppu.c:197-209 | only $2002, $2004 and $2007 are readable; the other five registers read 0 with no side effect |
| Ppu.RegWrite | src/ppu.c:211-238 | the register number is taken modulo 8 and each of the eight registers gets its own update; $2002 ignores writes |
| Ppu.SetAddress | src/ppu.c:161-172 | two $2006 writes starting with the toggle clear load the same address into t and v, and leave the toggle clear |
| Ppu.SetScroll | src/ppu.c:146-159 | two $2005 writes set fine X, coarse X, fine Y and coarse Y, and leave the toggle where it started |
| Ppu.Advance | src/ppu.c:312-319 | one dot moves the raster position one place on, modulo 341 × 262, inside the frame |
| Ppu.EnterVBlank | src/ppu.c:321-327 | at (241, 1) VBlank is set and an NMI is requested exactly when PPUCTRL bit 7 is set; a pending request is kept |
| Ppu.LeaveVBlank | src/ppu.c:329-335 | at (261, 1) VBlank and both sprite flags are cleared, and w is kept |
| Ppu.StepDot | src/ppu.c:311-338 | a dot advances the counters and then applies that dot's scroll update to v |
| Ppu.Latched | src/ppu.c:321-335 | away from (241, 1) and (261, 1) the VBlank latch changes nothing; at them it changes only the status, the NMI request and the sprite flags |
| Ppu.StepDotEntersVBlank | src/ppu.c:321-327 | reaching (241, 1) sets VBlank and requests an NMI exactly when PPUCTRL bit 7 is set |
| Ppu.StepDotLeavesVBlank | src/ppu.c:329-335 | reaching (261, 1) clears VBlank and both sprite flags, and keeps w and the NMI request |
| Ppu.StepDotElsewhere | src/ppu.c:311-338 | any other dot leaves the status, the NMI request and the sprite flags unchanged |
| Ppu.StepDotFrame | src/ppu.c:311-338 | a dot changes only the counters, the VBlank state and v |
| Ppu.StepsAdd | src/ppu.c:340-346 | n + k dots are n dots followed by k more |
| Ppu.Steps | src/ppu.c:340-346 | dots change only the raster position, the status, the NMI request, the sprite flags and v; the registers, toggle, OAM, nametables, palette and read buffer are kept |
| Ppu.StepsStayInFrame | src/ppu.c:340-346 | a PPU inside the frame stays inside it, however many dots pass |
| Ppu.StepsPosition | src/ppu.c:311-346 | n dots move the raster position n places on, modulo the 341 × 262 dots of a frame |
| Ppu.Tick | src/ppu.c:340-346 | ppu_tick runs exactly three dots per CPU cycle and keeps the PPU inside the frame |
| Ppu.ClearNmi | src/ppu.c:359-361 | `ppu_clear_nmi` drops the pending NMI and changes nothing else |
| Bus.Init | src/bus.c:11-21 | bus_init clears RAM, leaves no DMA in progress, and attaches the given devices |
| Bus.Reset | src/bus.c:23-29 | bus_reset clears RAM and the DMA state and keeps the devices |
| Bus.PpuReg | src/bus.c:49-92 | the register number handed to the PPU is the low three address bits |
| Bus.Read | src/bus.c:49-70 | RAM answers through its 2 KiB mirror; $2000-$3FFF reach the PPU register `addr & 7` with its side effects; $4016 and $4017 shift pad 1 and pad 2 and return the bit shifted out, OR 0x40; the rest of $4000-$5FFF reads 0; from $6000 the mapper answers |
| Bus.Write | src/bus.c:72-92 | RAM is written through its mirror, the PPU registers are written through theirs, $4014 starts DMA, $4016/$4017 strobe a pad, the rest of $4000-$5FFF is ignored, and from $6000 the mapper takes the write |
| Bus.StartDma | src/bus.c:103-108 | a $4014 write arms DMA from page value × 256 at byte 0, with the cycle marked odd |
| Bus.RamMirrors | src/bus.c:49-70 | $0000, $0800, $1000 and $1800 read the same RAM byte |
| Bus.RamRoundTrip | src/bus.c:49-92 | a RAM write reads back at every mirror of its address and leaves the other RAM bytes alone |
| Bus.PpuRegistersMirror | src/bus.c:49-92 | PPU register reads and writes repeat every eight bytes up to $3FFF |
| Bus.CtrlMirror | src/bus.c:72-92 | writes to $2008 and $3FF8 land in PPUCTRL |
| Bus.DmaPeekIsRead | src/bus.c:110-118 | a DMA read of RAM or cartridge space sees what a CPU read would, without side effects; register pages read 0 |
| Bus.DmaPeekFrame | src/bus.c:110-118 | DMA reads depend only on RAM and the mapper |
| Bus.DmaPeek | src/bus.c:110-118 | a DMA read of the register pages $2000-$5FFF gives 0; Bus.DmaPeekIsRead states the other pages |
| Bus.CopyLoop | src/bus.c:132-138 | the copy loop pushes bytes i..255 of the page to OAM, two cycles each |
| Bus.TickDma | src/bus.c:120-142 | with no DMA nothing happens; otherwise one alignment cycle on an odd start plus two per remaining byte, after which the page is in OAM and DMA is finished |
| Bus.DmaCycles | src/bus.c:99-142 | a DMA started by a $4014 write takes 513 cycles |
| Bus.FillSlot | src/bus.c:132-138 | filling bytes k..255 from OAM cursor a puts byte k+d in the slot d places past the cursor, and leaves the slots past 255 − k unchanged |
| Bus.FillCursor | src/bus.c:132-138 | filling bytes k..255 moves the OAM cursor 256 − k places on |
| Bus.FillAll | src/bus.c:132-138 | after a whole fill, OAM slot s holds page byte s − oamAddr |
| Bus.FillReturns | src/bus.c:132-138 | after a whole fill the OAM cursor is back where it started |
| Bus.DmaFillsOam | src/bus.c:103-142 | after the DMA a $4014 write starts, OAM slot s holds the byte DMA reads at value:(s − oamAddr), and the cursor is unchanged |
| Controller.Button | src/controller.c:75-92 | a button read is a 0/1 byte |
| Controller.Init | src/controller.c:28-38 | a fresh pad has the strobe low, no buttons, and nothing left to shift |
| Controller.Strobe | src/controller.c:49-66 | the strobe level becomes bit 0 of the value; a 1 latches the live mask and restarts the read sequence |
| Controller.CpuWrite | src/controller.c:49-66 | only $4016 does anything: it strobes both pads, and with bit 0 set it latches the polled host masks and restarts both sequences; with bit 0 clear it only lowers both strobes |
| Controller.ReadSerial | src/controller.c:75-92 | with the strobe held a read reports live button A and the pad does not move; otherwise the next latched bit is returned (1 after eight reads) and the position advances |
| Controller.CpuRead | src/controller.c:68-73 | $4016 reads pad 1, $4017 reads pad 2, and other addresses read 0xFF with no effect |
| Controller.Poll | src/controller.c:40-47 | polling sets each pad's live mask to its host mask and changes nothing else |
| Controller.Reads | src/controller.c:75-92 | consecutive reads without the strobe deliver the latched bits from the current position, then 1s |
| Controller.StrobeThenRead | src/controller.c:49-92 | after strobing with 1 and then 0, read k returns bit k of the host mask for k < 8, and 1 afterwards |
| Controller.StrobeHeld | src/controller.c:75-92 | while the strobe is held, every read reports button A of the live mask |
| Cartridge.ValidSignature | src/cartridge.c:16-23 | the signature is valid iff the header has at least four bytes spelling "NES" and 0x1A |
| Cartridge.MirroringAsWrittenMisreads | src/cartridge.c:118-124 | as written, flags 6 of 0x08 (four-screen) and 0x01 (vertical) both decode as horizontal mirroring, and 0x00 (horizontal) decodes as vertical |
| Cartridge.MirroringAsWritten | src/cartridge.c:118-124 | as written, flags 6 decodes as VERTICAL iff bits 0 and 3 are both clear, HORIZONTAL iff exactly one is set, and FOUR_SCREEN iff both are |
| Cartridge.MirroringAgreement | src/cartridge.c:118-124 | the as-written and corrected decodes agree exactly when bits 0 and 3 of flags 6 are both set |
| Cartridge.Mirroring | src/cartridge.c:118-124 | bit 3 of flags 6 selects four-screen; otherwise bit 0 selects vertical, and its absence horizontal |
| Cartridge.MapperId | src/cartridge.c:125-149 | the mapper number is the high nibble of flags 7 times 16 plus the high nibble of flags 6 |
| Cartridge.Format | src/cartridge.c:145-192 | the format field `flags7 & 0x0C` is one of 0, 4, 8 and 12 and never equals the NES 2.0 value 1 |
| Cartridge.PrgRamKib | src/cartridge.c:164-166 | PRG-RAM is 8 KiB per unit in header byte 8, and 8 KiB when the byte is 0 |
| Cartridge.ChrEnd | src/cartridge.c:239-266 | the file offsets run header, then trainer, then PRG-ROM, then CHR-ROM in order |
| Cartridge.Decode | src/cartridge.c:75-192 | zero PRG units and a non-iNES-1.0 format are the errors, in that order; a file too short for its ROMs is the error after them; on success the PRG and CHR sizes, battery, trainer, mapper number, console type, TV system and PRG-RAM size are the loader's, and the mirroring is the corrected Cartridge.Mirroring |
| Cartridge.Load | src/cartridge.c:75-292 | a file shorter than 16 bytes is rejected; otherwise the load succeeds iff the header decodes, and PRG-ROM and CHR-ROM are the file slices at the decoded offsets |
| Nrom.PrgIndex | src/mapper_nrom.c:37-60 | the PRG-ROM offset is in range and never beyond the offset from $8000 |
| Nrom.Masked | src/mapper_nrom.c:37-60 | masking with size − 1 stays inside the size and never exceeds the offset |
| Nrom.CpuRead | src/mapper_nrom.c:37-60 | below $6000 the read is open bus 0xFF; $6000-$7FFF reads PRG-RAM, or 0xFF without it; from $8000 it reads the masked PRG-ROM byte |
| Nrom.PrgIndexIsMod | src/mapper_nrom.c:37-60 | for a power-of-two PRG-ROM the mask is reduction modulo its size |
| Nrom.Nrom128Mirrors | src/mapper_nrom.c:37-60 | a 16 KiB image is visible at $8000 and again at $C000 |
| Nrom.Nrom256Linear | src/mapper_nrom.c:37-60 | a 32 KiB image is mapped linearly from $8000 |
| Nrom.CpuWrite | src/mapper_nrom.c:62-71 | only the PRG-RAM window of a cartridge with PRG-RAM is writable; any other write leaves the cartridge unchanged |
| Nrom.PrgRamRoundTrip | src/mapper_nrom.c:37-71 | a byte written to PRG-RAM reads back |
| Nrom.CpuWriteElsewhere | src/mapper_nrom.c:37-71 | a write changes what at most one CPU address reads |
| Nrom.ChrIndex | src/mapper_nrom.c:73-84 | the CHR offset folds the address into $0000-$1FFF and masks it by the CHR-ROM size, or by 8 KiB for CHR-RAM |
| Nrom.ChrRead | src/mapper_nrom.c:73-84 | the pattern read comes from CHR-RAM when there is no CHR-ROM, and otherwise from CHR-ROM at the masked offset |
| Nrom.ChrRom8Linear | src/mapper_nrom.c:73-84 | an 8 KiB CHR-ROM fills the pattern tables exactly |
| Nrom.ChrWrite | src/mapper_nrom.c:86-95 | CHR-RAM takes the write and CHR-ROM ignores it |
| Nrom.ChrRamRoundTrip | src/mapper_nrom.c:73-95 | a CHR-RAM write reads back at every address with the same low 13 bits, and other bytes are unchanged |
| Mmc1.Create | src/mapper_mmc1.c:190-227 | the board gets a zeroed 8 KiB CHR-RAM when the cartridge has no CHR-ROM, and the power-on registers |
| Mmc1.BankCount | src/mapper_mmc1.c:40-80 | the PRG image is a whole number (at least one) of 16 KiB banks |
| Mmc1.PrgOffset | src/mapper_mmc1.c:40-80 | outside the 32 KiB modes 0 and 1 the PRG offset already lies inside the image |
| Mmc1.CpuRead | src/mapper_mmc1.c:40-80 | below $8000 the read is open bus 0xFF |
| Mmc1.SwitchableBankAt8000 | src/mapper_mmc1.c:40-80 | in mode 3 the PRG bank register, reduced modulo the bank count, appears at $8000-$BFFF |
| Mmc1.LastBankAtC000 | src/mapper_mmc1.c:40-80 | in mode 3 the last 16 KiB bank is fixed at $C000-$FFFF |
| Mmc1.WriteControl | src/mapper_mmc1.c:82-88 | a control write stores the value with bits 2-3 forced on, so the PRG mode is 3; the CHR mode is bit 4 |
| Mmc1.Load | src/mapper_mmc1.c:90-121 | the fifth write stores the value in control, CHR bank 0, CHR bank 1 or PRG bank (low four bits), by its address |
| Mmc1.WriteRegs | src/mapper_mmc1.c:90-121 | writes below $8000 are ignored; bit 7 abandons the sequence and rewrites control with bits 2-3 set; otherwise bit 0 is shifted in and the fifth bit loads a register |
| Mmc1.ShiftIn | src/mapper_mmc1.c:90-121 | a shift moves bits 1-4 of the register down one place and puts bit 0 of the value in bit 4 |
| Mmc1.CpuWrite | src/mapper_mmc1.c:90-121 | a CPU write changes only the mapper registers |
| Mmc1.PowerOnInv | src/mapper_mmc1.c:190-227 | the power-on registers satisfy the register invariant |
| Mmc1.WriteKeepsInv | src/mapper_mmc1.c:90-121 | every write keeps the register invariant: shift below 32, count below 5, PRG mode 3 |
| Mmc1.ShiftBounded | src/mapper_mmc1.c:90-121 | shifting a bit into a 5-bit register keeps it below 32 |
| Mmc1.LoadKeepsInv | src/mapper_mmc1.c:90-121 | loading a register keeps the invariant |
| Mmc1.ResetWrite | src/mapper_mmc1.c:90-121 | a write with bit 7 set empties the shift register and leaves control as it was |
| Mmc1.Serial | src/mapper_mmc1.c:90-121 | bit i of the assembled value is bit 0 of the i-th written value |
| Mmc1.ShiftFive | src/mapper_mmc1.c:90-121 | five shifts into an empty register assemble the bits least significant first |
| Mmc1.FiveWrites | src/mapper_mmc1.c:90-121 | five writes without bit 7 from an empty shift register load the assembled value into the register chosen by the fifth address; the first four addresses do not matter |
| Mmc1.ChrSize | src/mapper_mmc1.c:123-162 | the CHR size is the CHR-RAM's length or the CHR-ROM's, and at least 1 |
| Mmc1.ChrOffset | src/mapper_mmc1.c:123-162 | in CHR mode 0 the address is the offset inside the 8 KiB bank `chr_bank0 & ~1`; in mode 1 it is the offset inside 4 KiB bank `chr_bank0` below $1000 and `chr_bank1` above |
| Mmc1.ChrRead | src/mapper_mmc1.c:123-162 | the pattern byte at the CHR offset, reduced by the CHR size; it carries no contract of its own, and Mmc1.ChrRamRoundTrip and Mmc1.ChrRam8KibIgnoresBank state its behaviour |
| Mmc1.ChrIndex | src/mapper_mmc1.c:123-162 | the CHR offset always lies inside the CHR size |
| Mmc1.ChrWrite | src/mapper_mmc1.c:164-182 | CHR-ROM ignores writes; CHR-RAM changes only the addressed byte |
| Mmc1.ChrRamRoundTrip | src/mapper_mmc1.c:123-182 | CHR-RAM returns what was written at the same PPU address |
| Mmc1.ChrRam8KibIgnoresBank | src/mapper_mmc1.c:123-162 | with 8 KiB of CHR-RAM in CHR mode 0 the pattern tables are the RAM itself, whatever the bank register says |
| Mapper.Create | src/mapper_factory.c:7-15 | mapper 0 gets NROM, mapper 1 gets MMC1 on the same cartridge, and any other number gets nothing |
| Mapper.CpuRead | src/mapper.c:7-38 | the dispatched CPU read is open bus 0xFF below $6000 on both boards |
| Mapper.ChrRead | src/mapper.c:7-38 | the dispatched pattern read; it carries no contract of its own, and Mapper.ChrRoundTrip states its behaviour |
| Mapper.ChrRoundTrip | src/mapper.c:7-38 | on a board with CHR-RAM a dispatched CHR write reads back at the same address; on a CHR-ROM board the write changes nothing |
| Mapper.CpuWrite | src/mapper.c:7-38 | a dispatched CPU write keeps the board valid and of the same kind |
| Mapper.ChrWrite | src/mapper.c:7-38 | a dispatched CHR write keeps the board valid |
| Mapper.Mmc1PowerOnIsNrom256 | src/mapper_mmc1.c:40-80 | on a 32 KiB image at power-on, MMC1 reads exactly what NROM-256 reads |
| Mapper.WritesKeepPrgRom | src/mapper.c:7-38 | no write through the dispatch changes PRG-ROM |
| Emu.CpuStepPaced | src/cpu.c:1525-1537 | every cpu_step takes between 2 and 15 cycles (Cpu6502.Step keeps within 2 to 14), so a loop over it makes progress |
| Emu.CyclesForFrame | src/emu.c:8-11 | NTSC frames take 29780 cycles when even and 29781 when odd |
| Emu.FramePairCycles | src/emu.c:8-11 | two consecutive frames take 59561 cycles |
| Emu.NmiBridge | src/emu.c:20-24 | a pending PPU NMI raises the CPU NMI line and is cleared; nothing else changes |
| Emu.Reset | src/cpu.c:1268-1281 | the machine reset resets the CPU and clears the PPU's pending NMI, so the NMI bridge then has nothing to pass on |
| Emu.ResetIdempotent | src/cpu.c:1268-1281 | resetting the machine twice is resetting it once |
| Emu.Tick | src/emu.c:13-25 | one tick uses the cycles of one CPU step and leaves no PPU NMI pending |
| Emu.TickCpu | src/emu.c:13-25 | after a tick the CPU is where cpu_step left it, except that its NMI line is raised when the PPU asked for an NMI during the tick's dots |
| Emu.TickPpu | src/emu.c:13-25 | a tick moves the PPU three dots per CPU cycle in raster order and keeps it inside the frame |
| Emu.TicksAdd | src/emu.c:27-31 | n + k ticks are n ticks followed by k more |
| Emu.TicksStayInFrame | src/emu.c:27-31 | however many ticks run, the PPU stays inside the frame |
| Emu.RunForInstructions | src/emu.c:27-31 | running for n instructions is n ticks |
| Emu.TickIsPaced | src/emu.c:13-25 | a tick built from a paced CPU step is itself paced |
| Emu.EmuTickPaced | src/emu.c:13-25 | the tick built from cpu_step is paced |
| Emu.FrameAsWritten | src/emu.c:36-56 | as written, every iteration runs two ticks and deducts only the second one's cycles: cycles executed exceed cycles deducted by at least the number of ticks, and the loop stops on the first deduction that reaches the budget |
| Emu.FrameIntended | src/emu.c:36-56 | with one tick per iteration the cycles executed equal the cycles deducted, and they overshoot the budget by less than one instruction |
| Emu.FrameAsWrittenOverruns | src/emu.c:36-56 | as written, the first 29780-cycle frame executes at least 33752 CPU cycles; the intended loop stops within 29794 |
| Emu.RunFrameAsWritten | src/emu.c:35-56 | the budget loop method computes the as-written frame |
| Emu.RunForFramesAsWritten | src/emu.c:33-58 | the frame loop method computes the as-written run |
| Emu.RunFrame | src/emu.c:35-56 | the budget loop method with one tick per iteration computes the intended frame |
| Emu.RunForFrames | src/emu.c:33-58 | the frame loop method computes the intended run, with each frame's budget alternating 29780/29781 |
| Divider.Init | src/headers/apu/divider.h:18-22 | a new divider has the given period and a counter of 0, so its first clock fires |
| Divider.Clock | src/headers/apu/divider.h:24-32 | the divider fires iff its counter is 0, reloading the period; otherwise it counts down; the period never changes |
| Divider.SetPeriod | src/headers/apu/divider.h:34-36 | only the period changes, and the count in progress runs out first |
| Divider.Reset | src/headers/apu/divider.h:38-40 | the counter restarts from the period, so with a positive period the next clock does not fire |
| Divider.Run | src/headers/apu/divider.h:24-32 | n clocks give n fire results and keep the period |
| Divider.RunFires | src/headers/apu/divider.h:24-32 | clock i of a run fires iff i ≡ counter (mod period + 1) |
| Divider.InitFiresEvery | src/headers/apu/divider.h:18-32 | a new divider fires on clock 0 and then on every (period + 1)-th clock |
| Divider.Countdown | src/headers/apu/divider.h:24-32 | a counter of c runs out after c clocks, none of which fires |
| Divider.Periodic | src/headers/apu/divider.h:24-32 | from 0, period + 1 clocks bring the divider back to where it started |
| Units.LengthTableRange | src/apu/units.c:22-28 | every length table entry is an even number from 2 to 254 |
| Units.LengthInit | src/apu/units.c:8-13 | a new length counter is not halted, disabled, empty, and muted |
| Units.SetEnable | src/apu/units.c:15-18 | disabling empties the counter and mutes it; enabling keeps the count |
| Units.LoadFromTable | src/apu/units.c:22-32 | a disabled counter ignores the load; an enabled one takes the table entry and is no longer muted |
| Units.LengthHalfFrame | src/apu/units.c:34-38 | a half frame counts down by one unless halted or already 0 |
| Units.LengthRunsOut | src/apu/units.c:34-41 | an unhalted count c is c − n after n half frames, floored at 0 |
| Units.LengthHeld | src/apu/units.c:34-38 | a halted counter keeps its value however many half frames pass |
| Units.LinearInit | src/apu/units.c:43-49 | a new linear counter has no reload pending, a reload value of 0, and control set |
| Units.SetLinear | src/apu/units.c:51-53 | only the reload value changes |
| Units.LinearQuarter | src/apu/units.c:55-63 | a pending reload loads the reload value and stays pending only under control; then a non-zero counter counts down in the same clock |
| Units.LinearHeld | src/apu/units.c:55-63 | while control holds the reload, a second quarter clock changes nothing more |
| Units.LinearRunsOut | src/apu/units.c:55-63 | with control clear, a reload of v leaves v − n after n ≥ 1 quarter frames, floored at 0 |
| Units.LinearCountsDown | src/apu/units.c:55-63 | with no reload pending, a count c is c − n after n quarter frames, floored at 0 |
| Units.Volume | src/apu/units.c:92-95 | the volume is the constant volume or the decay level, within 0-15 |
| Units.EnvelopeInit | src/apu/units.c:66-75 | a new envelope plays constant full volume, with no loop, no start, and a divider of period 0 |
| Units.EnvelopeQuarter | src/apu/units.c:77-90 | a pending start sets full decay and the divider period and does nothing else; otherwise the divider is clocked and, when it fires, the decay steps down, wrapping to 15 only when looping |
| Units.DecayNeverRises | src/apu/units.c:77-90 | without looping the decay never rises, and a decay of 0 stays 0 |
| Pulse.DutyRow | src/headers/apu/pulse_units.h:26-31 | row c of the duty table is entries 8c..8c+7 |
| Pulse.DutyRowCounts | src/headers/apu/pulse_units.h:26-31 | the four rows have 1, 2, 4 and 6 active steps (12.5%, 25%, 50% and 75% duty) |
| Pulse.DutyRowNegated | src/headers/apu/pulse_units.h:26-31 | the last row is the step-by-step complement of the second |
| Pulse.ActiveAsWritten | src/headers/apu/pulse_units.h:24-33 | the table lookup at `cycle * 8 + idx` is inside the 32 entries iff the index is below 32 |
| Pulse.Active | src/headers/apu/pulse_units.h:24-33 | for a step inside its row the lookup is the row's entry, and the unchecked lookup agrees |
| Pulse.SeqStepAsWritten | src/apu/pulse.c:59-61 | as written, the step `8 + (seq_idx - 1) % 8` on a size_t is always 8 to 15, past the end of a row |
| Pulse.SeqAsWrittenLeavesRow | src/apu/pulse.c:59-61 | as written, the sample reads the next duty row, and past the table's end for the last row |
| Pulse.SeqStep | src/apu/pulse.c:59-61 | the intended step moves back one place in the row, from 0 round to 7 |
| Pulse.SeqStepsBack | src/apu/pulse.c:59-61 | n intended steps land n places back modulo 8, so the sequencer visits the whole row |
| Pulse.SetPeriod | src/apu/pulse.c:54-57 | the channel's period and its sequencer's period both change, and nothing else |
| Pulse.Clock | src/apu/pulse.c:59-61 | the sequencer divider is clocked and, when it fires, the step moves back one place; the channel stays valid |
| Pulse.CalculateTarget | src/apu/pulse.c:88-93 | the target is the period plus its shifted value; with negate it is the period minus it (minus one more for ones' complement), floored at 0 |
| Pulse.TargetBounds | src/apu/pulse.c:88-93 | a sweep up never lowers the period and at most doubles it; a sweep down never raises it |
| Pulse.SweepInit | src/apu/pulse.c:39-52 | a new sweep is disabled with no reload, no negate and shift 0, and keeps the ones'-complement flag |
| Pulse.SweepHalfFrame | src/apu/pulse.c:71-86 | a pending reload sets the divider period; otherwise an enabled sweep clocks its divider; the computed target is discarded, so only the divider and the reload flag change |
| Pulse.Init | src/apu/pulse.c:32-37 | a new pulse channel is valid and of its kind, with the ones'-complement flag true, step 0 and period 0 |
| Pulse.SampleAsWrittenSilent | src/apu/pulse.c:63-69 | as written, the mute test uses the sweep period (at most 7), so a pulse channel is always silent |
| Pulse.SampleAsWritten | src/apu/pulse.c:63-69 | as written, a muted length counter gives 0, and the sample is undefined (None) only for an unmuted channel whose duty index is past the 32-entry table |
| Pulse.Sample | src/apu/pulse.c:63-69 | with the channel period in the mute test, the sample is the envelope volume when the length counter runs, the period is in range and the duty step is on, and 0 otherwise |
| Pulse.SampleAudible | src/apu/pulse.c:63-69 | a running channel with period 0x100, no sweep and the 50% duty at an active step plays its volume under the corrected test, and is silent as written |
| Triangle.Init | src/apu/triangle.c:12-23 | a new triangle has fresh counters, step 0 and period 0, and outputs 15 |
| Triangle.SetPeriod | src/apu/triangle.c:25-28 | the channel's period and its sequencer's period both change, and nothing else |
| Triangle.Clock | src/apu/triangle.c:30-34 | nothing moves while the length counter is muted or the linear counter is 0; otherwise the sequencer is clocked and, when it fires, the step advances modulo 32 |
| Triangle.Volume | src/apu/triangle.c:40-43 | the output is 15 − i over the first 16 steps and i − 16 over the second 16 |
| Triangle.Sample | src/apu/triangle.c:36-43 | the sample is 15 − i over the first 16 steps and i − 16 over the next 16, within 0-15 |
| Triangle.VolumeSymmetric | src/apu/triangle.c:40-43 | steps i and 31 − i have the same level, and neighbouring steps differ by one except at the repeated 0 |
| Triangle.ClocksStayInSequence | src/apu/triangle.c:30-43 | however long the channel runs, the step stays below 32 and the output stays within 0-15 |
| Triangle.SilencedHolds | src/apu/triangle.c:30-34 | a muted triangle, or one with an empty linear counter, is unchanged by any number of clocks |
| Noise.Init | src/apu/noise.c:7-20 | a new noise channel has shift register 1, mode Bit1, period 0, and fresh units |
| Noise.SetPeriodFromTable | src/apu/noise.c:22-31 | the divider period becomes the table entry, an even number from 4 to 4068; the channel's own period field is untouched |
| Noise.NextRegister | src/apu/noise.c:33-42 | a 15-bit register stays within 15 bits |
| Noise.Feedback | src/apu/noise.c:36-39 | the feedback bit; it carries no contract of its own, and Noise.ClockShifts, Noise.ModeIgnored and Noise.ClockNonZero state what it does to the register |
| Noise.Clock | src/apu/noise.c:33-42 | the divider is clocked, and the register changes only when it fires |
| Noise.ClockShifts | src/apu/noise.c:33-42 | when the divider fires the register shifts right by one and the feedback enters bit 14 |
| Noise.ClockKeeps15Bits | src/apu/noise.c:33-42 | from 15 bits the register stays within 15 bits |
| Noise.ClockNonZero | src/apu/noise.c:33-42 | a non-zero 15-bit register never becomes 0, so the noise cannot lock up |
| Noise.ClockKeepsValid | src/apu/noise.c:33-42 | a clock keeps the channel valid |
| Noise.ModeIgnored | src/headers/apu/noise.h:11-14 | the channel's mode field has no effect on the register, because the feedback reads the file-scope mode |
| Noise.Sample | src/apu/noise.c:44-46 | the sample is the envelope volume, within 0-15 |
| Noise.SampleIgnoresRegister | src/apu/noise.c:44-46 | the sample depends on neither the shift register nor the length counter, so a muted noise channel still sounds |
| Dmc.Init | src/apu/dmc.c:7-27 | a new DMC has everything off, level 0, no bytes left, and no more samples |
| Dmc.HasMoreSamples | src/headers/apu/DMC.h:42 | bytes remain to be fetched; it carries no contract of its own, and Dmc.Init and Dmc.SetIrqEnable state when it holds |
| Dmc.SetIrqEnable | src/apu/dmc.c:29-36 | disabling drops the bytes left; enabling with none left restarts the sample from its beginning; otherwise only the flag changes |
| Dmc.SetRate | src/apu/dmc.c:38-44 | the rate divider takes the table period (54 to 428) and restarts its count; nothing else changes |
| Dmc.ClearInterrupt | src/apu/dmc.c:48-51 | only the interrupt flag changes, to clear |
| Dmc.ClearIdempotent | src/apu/dmc.c:48-51 | clearing twice is clearing once |
| Dmc.Start | src/apu/dmc.c:53-68 | with no bytes left and no loop the fetch fails, raising the interrupt when enabled; with loop the sample restarts; otherwise one byte is counted off |
| Dmc.NextAddressAsWritten | src/apu/dmc.c:72-73 | as written, the address stays at 0xFFFF, because `==` compares instead of assigning |
| Dmc.NextAddress | src/apu/dmc.c:72-73 | the intended step wraps 0xFFFF to 0x8000, so a sample in cartridge space stays in $8000-$FFFF, and the address always moves |
| Dmc.LoadSampleAsWritten | src/apu/dmc.c:53-75 | as written, a successful load fetches at the current address and then takes the as-written address step |
| Dmc.LoadAsWrittenStuck | src/apu/dmc.c:53-75 | as written, a sample reaching 0xFFFF keeps fetching 0xFFFF |
| Dmc.LoadSample | src/apu/dmc.c:53-75 | a successful load reads the byte at the (possibly restarted) address and moves to the next one; a failed load changes only the interrupt |
| Dmc.LoadSampleWraps | src/apu/dmc.c:53-75 | with the intended step, consecutive fetches from 0xFFFF read 0xFFFF and then 0x8000 |
| Dmc.PopDelta | src/apu/dmc.c:77-93 | the refill test reads the byte count: while bytes remain the bit count drops and the shifter moves right; otherwise a load refills the shifter or silences the channel; the delta is the shifter's low bit, and the level is untouched |
| Dmc.ShifterDrains | src/apu/dmc.c:77-93 | while bytes remain the shifter is never refilled, so a byte below 2^k is drained after k pops and every later delta is 0 |
| Dmc.Clock | src/apu/dmc.c:95-103 | nothing happens unless the channel is enabled and its rate divider fires; then a delta moves the level by 2 within 0-127, unless the channel is silenced |
| Dmc.Level | src/apu/dmc.c:99-102 | a 1 raises the level by 2 and a 0 lowers it by 2, unless that would leave 0-127 |
| Dmc.Sample | src/apu/dmc.c:105-107 | the sample is the output level, within 0-127 |
| FrameCounter.Init | src/apu/frame_counter.c:8-18 | a new sequencer is in 4-step mode at count 0, with no inhibit and no frame IRQ |
| FrameCounter.ClearFrameInterrupt | src/apu/frame_counter.c:20-25 | the frame IRQ is cleared, and released only if it was set |
| FrameCounter.ClearIdempotent | src/apu/frame_counter.c:20-25 | a second clear finds nothing to release and changes nothing |
| FrameCounter.Reset | src/apu/frame_counter.c:27-39 | mode and inhibit change; an inhibit clears the frame IRQ; 5-step mode emits both clocks at once; the count is untouched |
| FrameCounter.Clock | src/apu/frame_counter.c:41-84 | the count goes up by one; quarter and half clocks fire at the mode's steps; 4-step mode raises the frame IRQ at its fourth step unless inhibited; the count returns to 0 at the sequence end |
| FrameCounter.RunCounts | src/apu/frame_counter.c:41-84 | before the sequence ends, n clocks move the count by n and emit one clock for each step they pass |
| FrameCounter.WholeSequence | src/apu/frame_counter.c:41-84 | a whole sequence from count 0 ends back at 0, with the frame IRQ raised in 4-step mode unless inhibited |
| FrameCounter.StepsOfSequence | src/apu/frame_counter.c:44-83 | each sequence has four quarter steps and two half steps up to its last step, and the count after it is neither |
| FrameCounter.WholeSequenceClocks | src/apu/frame_counter.c:41-84 | a whole sequence emits four quarter clocks and two half clocks |
| Apu.Init | src/apu/APU.c:45-69 | the channels start in their init states, the sequencer and DMC fresh, and the half-rate flag false |
| Apu.Quarter | src/apu/APU.c:265-283 | a quarter clock steps the three envelopes and the linear counter and nothing else |
| Apu.Half | src/apu/APU.c:265-283 | a half clock steps the two sweeps and the four length counters and nothing else |
| Apu.QuarterHalfCommute | src/apu/APU.c:265-283 | quarter and half clocks touch different units, so their order does not matter |
| Apu.Deliver | src/apu/frame_counter.c:44-81 | a step with no events changes nothing; delivery never touches the sequencer, the DMC or the periods |
| Apu.LowPeriod | src/apu/APU.c:133-136 | a low-byte write replaces the low byte of the period and keeps the high byte |
| Apu.HighPeriod | src/apu/APU.c:138-144 | a high-byte write sets bits 8-10 from the value's low three bits and keeps the low byte |
| Apu.PulseVolume | src/apu/APU.c:118-123 | $4000/$4004 set the envelope period or volume, the constant flag, loop and halt (both from bit 5), and the duty |
| Apu.PulseSweep | src/apu/APU.c:125-131 | $4001/$4005 set the sweep's enable, period, negate and shift, and request a reload |
| Apu.PulseLo | src/apu/APU.c:133-136 | $4002/$4006 replace the low byte of the period |
| Apu.PulseHi | src/apu/APU.c:138-144 | $4003/$4007 set the period's high bits, load the length, restart the step at 0, and restart the envelope |
| Apu.TriangleLinear | src/apu/APU.c:174-178 | $4008 sets the reload value and requests a reload; linear control and length halt both come from bit 7 |
| Apu.TriangleLo | src/apu/APU.c:180-183 | $400A replaces the low byte of the triangle period |
| Apu.TriangleHi | src/apu/APU.c:185-190 | $400B sets the high bits, loads the length, and requests a linear reload |
| Apu.NoiseVolume | src/apu/APU.c:192-196 | $400C sets the envelope fields and the length halt |
| Apu.NoisePeriod | src/apu/APU.c:198-201 | $400E sets the mode from bit 7 and the timer period from the table |
| Apu.NoiseLength | src/apu/APU.c:203-206 | $400F loads the length and restarts the envelope divider |
| Apu.DmcWrite | src/apu/APU.c:208-224 | $4010 sets IRQ enable, loop and rate; $4011 sets the level to 7 bits; $4012 starts the sample at $C000 + 64·v; $4013 sets the length 16·v + 1 |
| Apu.WriteControl | src/apu/APU.c:226-232 | $4015 bits 0-3 enable the four length counters (disabled ones empty) and bit 4 goes to the DMC control |
| Apu.WriteFrameControl | src/apu/APU.c:234-238 | $4017 bit 7 selects 5-step mode, which clocks every unit at once, and bit 6 inhibits the frame IRQ |
| Apu.Write | src/apu/APU.c:115-240 | a register write updates only the channel it belongs to; the sequencer changes only on $4017; an address outside the register set changes nothing; validity is kept |
| Apu.PeriodWrites | src/apu/APU.c:133-144 | writing the low and high period bytes in either order sets the whole 11-bit period |
| Apu.FiveStepWriteClocks | src/apu/APU.c:234-238 | a 5-step $4017 write clocks the envelopes and length counters at once; a 4-step one changes only the sequencer |
| Apu.StatusByte | src/apu/APU.c:253-261 | the status byte carries its seven flags in bits 0-4, 6 and 7, with bit 5 always 0 |
| Apu.ReadStatus | src/apu/APU.c:243-262 | bits 0-3 say which length counters are running, bit 4 that the DMC has no more samples, bit 6 the frame IRQ and bit 7 the DMC IRQ; both IRQ flags are then cleared and nothing else changes |
| Apu.ReadStatusTwice | src/apu/APU.c:243-262 | a second status read reports both IRQs clear and the same channel bits, and changes nothing |
| Apu.DisabledReadsSilent | src/apu/APU.c:226-262 | a $4015 write that disables a channel makes the next status read report it silent |
| Apu.Output | src/apu/APU.c:104-108 | the five levels handed to the mixer are the channel samples: pulses, triangle and noise within 0-15, DMC within 0-127 |
| Apu.EveryCycle | src/apu/APU.c:95-97 | every call clocks noise, DMC and triangle, and keeps the APU valid |
| Apu.HalfRate | src/apu/APU.c:99-103 | every second call steps the sequencer, delivers its clocks, and clocks both pulses; the DMC and the periods are kept |
| Apu.Step | src/apu/APU.c:93-112 | each call clocks noise, DMC and triangle; when the half-rate flag is set, the sequencer and pulses are stepped too and the levels are produced; the flag toggles; validity is kept |
| Apu.TwoStepsOneFrameClock | src/apu/APU.c:93-112 | two steps clock the sequencer exactly once and the DMC twice, and restore the half-rate flag |

## Left out

- Host input: the raylib keyboard and gamepad poll (`read_pad_1_as_bitmask`, `read_pad_2_as_bitmask`) is a parameter, so the pads take the masks the poll would return.
- Controller constants: `BTN_COUNT`, `BTN_A`, `ADDR_STROBE_WRITE`, `ADDR_PAD_1` and `ADDR_PAD_2` are not defined in any source file of this model. The model uses the NES values: 8 buttons, A at bit 0, the strobe at $4016, and the pads at $4016 and $4017.
- Controller wiring: bus.c calls `controller_read_shift` and `controller_write_strobe`, which controller.c does not define. The bus uses controller.c's per-pad serial read and strobe instead. The pad read's open-bus bits 0x40 are added as bus.c does.
- The `!c` and NULL-pad guards of controller.c are left out, because the model's pads always exist.
- CPU stall: `cpu_step`'s stall branch is left out, because no code ever sets `stalled`. The CPU's own cycle counter is left out too.
- CPU memory: the interpreter runs against a flat 64 KiB memory. The bus routing is modelled separately in module Bus. Emu steps a CPU on that flat memory beside the PPU, not a CPU wired to the bus.
- The tick: Emu's tick is generic over any CPU step function that takes 2 to 15 cycles, and `Cpu6502.Step` is shown to be one.
- Unused cycle table: the `operation_cycles` table of `CPUopcodes.h` is not used by the interpreter. It serves as a cross-check. Its four entries without a case ($15, $35, $55 and $EB) run the default arm in the model, as in the source.
- CHR-RAM contents: the loader leaves CHR-RAM uninitialised, and the model starts it at zero.
- Cartridge I/O: the loader's prints, allocation failures, trainer read errors and `fread` short reads are reduced to the file's bytes. A short file is the one read error kept.
- NES 2.0 headers: they are never accepted, because the format test can never succeed, so NES 2.0 decoding is left out.
- MMC1 mirroring: the mirroring bits of the MMC1 control register are stored but not modelled, because the source never uses them. MMC1 PRG-RAM is not modelled, because the source's mapper has no $6000 window.
- PPU rendering: pixel output, sprite evaluation, pattern fetches through the mapper, and the frame buffer are left out. `ppu_read`'s mapper call is commented out in the source.
- APU mixing: `apu_mix` works in floating point and is left out. `Apu.Step` returns the five integer levels the mixer would receive.
- APU output: the sampling timer and the SPSC audio queue are left out.
- APU init: `apu_init` does not compile as written, because it calls `frame_counter_init(..., ())`. `Apu.Init` builds the channels from their init functions.
- Undefined helpers: `clock` and `reset`, called on dividers, are not defined in any source file. They are modelled as `div_clock` and `div_reset`.
- DMC control: `control(dmc, bool)`, which a $4015 write calls, is only declared. It is a parameter of `Apu.Write`.
- Pulse units: `pulse_init` leaves the channel's envelope, length counter and sequencer pointers unset. The model starts them in their init states.
- Frame slots: the frame sequencer's slot array is never wired to a running APU, because `APU_setup_frame_counter` is not called from `apu_init`. The quarter and half clocks reach the units by name, as the slot list in `APU_setup_frame_counter` orders them.
- APU IRQ handle: its `pull` and `release` calls are external. The model keeps the `interrupt` and `frame_interrupt` flags, and the frame sequencer reports when a release is made.
- DMC fetch: the DMC's `dma` callback is a parameter, a function from addresses to bytes.
- Noise shift register: the register is kept as a 32-bit value, and its contracts are stated for registers within 15 bits.
- Apu.LowPeriod: stated for periods in 0..0x7FF. Outside that range the result is only known to have the written low byte.
- Apu.Step: requires each pulse channel's duty type below 4 and its step below 8, because the table lookup is only defined there. `Apu.Init` and every register write establish this. Step preserves it only because it composes the corrected pulse step (Pulse.SeqStep) and the corrected sample (Pulse.Sample). As written (pulse.c:60) the step leaves 0..7 on the first sequencer fire, and (pulse.c:65) every pulse level is 0; Pulse.SeqAsWrittenLeavesRow and Pulse.SampleAsWrittenSilent state that behaviour.
- Pulse.Clock: steps the sequencer with the corrected Pulse.SeqStep, one place back within the row. The step as written at pulse.c:60 is Pulse.SeqStepAsWritten, which always lands on 8..15.
- Apu.Output: hands the mixer the corrected Pulse.Sample for both pulse channels, which can be up to 15. As written, pulse.c:65 makes both pulse levels 0 (Pulse.SampleAsWrittenSilent).
- Apu.HalfRate: clocks both pulses with the corrected Pulse.Clock, not with the as-written step of pulse.c:60.
- Cartridge.Decode: decodes the mirroring with the corrected Cartridge.Mirroring. As written, cartridge.c:124 computes `ver_flip + mirror_4scr`, which gives VERTICAL for flags 6 = 0x00 and HORIZONTAL for 0x01 and 0x08. Cartridge.MirroringAsWritten is that decode, and Cartridge.MirroringAgreement says the two agree only when bits 0 and 3 are both set.
- Controller.ReadSerial: the pad's read position `shift_index` is an unbounded `nat`. Its C type is declared in a header that is not part of this model, so a wrap-around after many reads is not modelled; every read past the eighth returns 1 however far the position has run. The two pads are the named fields `pad1` and `pad2` of `Pads`, as in controller.c.
- Apu.ReadStatus: bit 4 is modelled as written, `!has_more_samples`. Real hardware reports bytes remaining, the opposite. The comment at APU.c:251 says only "negato negli originali" ("negated in the originals"), so whether the negation is intended is unclear.
- Ppu.PpuWrite: the nametables are a 4 KiB store, so four-screen indexes of 0x800 and above, which Ppu.NtIndex produces, are kept apart and Ppu.PpuRead reads them back. The C `ciram` holds 2 KiB (ppu.h:30), so in the source those indexes run past its end into the fields that follow it. The model does not describe that overrun; Ppu.FourScreenOverrunsCiram states which addresses cause it.
- Dmc.PopDelta: composes the corrected Dmc.LoadSample, which wraps the address from 0xFFFF to 0x8000, not the `==` of dmc.c:72. The two differ only when a fetch happens at 0xFFFF. Through `pop_delta` every fetch is at the sample start, which no register write sets above $FFC0. Dmc.Clock composes PopDelta and inherits the same difference.

## Findings

| source | as written | input that shows it | evidently intended | confidence | as-written member | corrected member |
|---|---|---|---|---|---|---|
| src/apu/dmc.c:72 | `d->current_address == 0x8000;` compares instead of assigning, so the address stays at 0xFFFF | a direct `load_sample` at current address 0xFFFF with two bytes left: both fetches read 0xFFFF. Through `pop_delta` this input is not reached: `pop_delta` calls `load_sample` only when no bytes remain (dmc.c:78-80), so every fetch restarts at the sample start, which $4012 sets to at most $FFC0 (APU.c:219). The defect is latent | `d->current_address = 0x8000;`, wrapping into cartridge space | low, latent (not executed) | Dmc.LoadAsWrittenStuck | Dmc.LoadSampleWraps |
| src/apu/pulse.c:60 | `8 + (seq_idx - 1) % 8` on a `size_t` gives 8..15, outside the 8-step row | seq_idx 0 gives 15, so the next sample reads duty row c + 1, and past the 32-entry table on row 3. As written the out-of-table read never happens, because the mute test at pulse.c:65 returns 0 before the table is read; it would show once that test is corrected | `(8 + seq_idx - 1) % 8`, one step back within the row | high (not executed) | Pulse.SeqAsWrittenLeavesRow | Pulse.SeqStepsBack |
| src/apu/pulse.c:65 | the mute test uses the sweep's divider period (`s->period`, at most 7) instead of the channel period | any pulse channel: the sweep period is at most 7 < 8, so `p_sample` always returns 0 | pass the channel's `p->period` to `is_muted` and `calculate_target` | medium (not executed) | Pulse.SampleAsWrittenSilent | Pulse.SampleAudible |
| src/cartridge.c:124 | `mirroring = ver_flip + mirror_4scr` adds two bools into the enum | flags 6 = 0x08 (four-screen) and 0x01 (vertical) both give HORIZONTAL, and 0x00 (horizontal) gives VERTICAL | four-screen when bit 3 is set, else vertical by bit 0 | high (not executed) | Cartridge.MirroringAsWrittenMisreads | Cartridge.Mirroring |
| src/ppu.c:71-83 | four-screen mirroring indexes 4 KiB of nametable space, but `ciram` holds 2 KiB | address $2800 with four-screen mirroring gives index 0x800, past the end of `ciram` | a 4 KiB nametable store for four-screen boards | medium (not executed) | Ppu.FourScreenOverrunsCiram | Ppu.WriteThenRead |
| src/emu.c:36-56 | each iteration runs `emu_step_one_tick` and then an inlined second tick, and deducts only the second tick's cycles | the first frame (budget 29780) executes at least 33752 CPU cycles | one tick per iteration with its cycles deducted | high (not executed) | Emu.FrameAsWrittenOverruns | Emu.RunForFrames |
