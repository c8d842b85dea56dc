/**
 * The simulator's stand-in for instruction decoding: the instruction it
 * pretends to find at an address, and the control signals and the datapath
 * component it reports for an instruction name. No real LEGv8 decoding
 * takes place; these tables are all there is.
 */
module MockControl {

  /** A control line: 0 or 1. */
  type Bit = b: int | 0 <= b <= 1

  /** The names the chooser cycles through; the last one, "HALT", is reached only past address 0x40. */
  const MockOps: seq<string> := ["ADDI", "LDUR", "ADD", "STUR", "SUB", "B", "CBZ", "HALT"]

  /** The instruction name the simulator pretends to decode at address `pc`. */
  function MockInstructionName(pc: int): (name: string)
    ensures name in MockOps
    ensures name == "HALT" <==> pc > 0x40
  {
    if pc > 0x40 then "HALT" else MockOps[(pc / 4) % (|MockOps| - 1)]
  }

  /**
   * Up to address 0x40 the name depends only on the word index modulo 7: two
   * addresses whose word indices agree modulo 7 get the same name.
   */
  lemma MockInstructionPeriodic(pc: int, pc': int)
    requires pc <= 0x40 && pc' <= 0x40 && (pc / 4) % 7 == (pc' / 4) % 7
    ensures MockInstructionName(pc) == MockInstructionName(pc')
  {
  }

  /** So up to address 0x40 the names repeat every seven words (28 bytes). */
  lemma MockInstructionRepeats(pc: int)
    requires pc + 28 <= 0x40
    ensures MockInstructionName(pc + 28) == MockInstructionName(pc)
  {
    var q := pc / 4;
    assert (pc + 28) / 4 == q + 7;
    assert (q + 7) % 7 == q % 7;
    MockInstructionPeriodic(pc + 28, pc);
  }

  /** The names the simulator's control-signal table lists as ALU instructions without an immediate. */
  predicate IsAluRegister(name: string) {
    name == "ADD" || name == "SUB" || name == "AND" || name == "ORR"
  }

  /** The names the simulator's control-signal table lists as ALU instructions with an immediate. */
  predicate IsAluImmediate(name: string) {
    name == "ADDI" || name == "SUBI"
  }

  /** The names the simulator's control-signal table lists as branches. */
  predicate IsBranch(name: string) {
    name == "B" || name == "CBZ" || name == "B.cond"
  }

  /** The control signals reported for one instruction; `aluOp` is a name such as "ADD", or "??". */
  datatype ControlSignals = ControlSignals(
    regWrite: Bit, aluSrc: Bit, memRead: Bit, memWrite: Bit, branch: Bit, aluOp: string)

  /**
   * The control-signal table. Each signal is 1 for exactly the instructions
   * that need it; the ALU operation is the first three letters of an ALU
   * instruction, "ADD" (address computation) for loads and stores, and "??"
   * for everything else; names the table does not list get all zeros.
   */
  function MockControlSignals(name: string): (s: ControlSignals)
    ensures s.regWrite == 1 <==> IsAluRegister(name) || IsAluImmediate(name) || name == "LDUR"
    ensures s.aluSrc == 1 <==> IsAluImmediate(name) || name == "LDUR" || name == "STUR"
    ensures s.memRead == 1 <==> name == "LDUR"
    ensures s.memWrite == 1 <==> name == "STUR"
    ensures s.branch == 1 <==> IsBranch(name)
    ensures !(s.memRead == 1 && s.memWrite == 1)
    ensures IsAluRegister(name) || IsAluImmediate(name) ==> s.aluOp == name[..3]
    ensures name == "LDUR" || name == "STUR" ==> s.aluOp == "ADD"
    ensures s.aluOp == "??" <==> !(IsAluRegister(name) || IsAluImmediate(name) || name == "LDUR" || name == "STUR")
  {
    var none := ControlSignals(0, 0, 0, 0, 0, "??");
    if IsAluRegister(name) then none.(regWrite := 1, aluOp := name[..3])
    else if IsAluImmediate(name) then none.(regWrite := 1, aluSrc := 1, aluOp := name[..3])
    else if name == "LDUR" then none.(regWrite := 1, aluSrc := 1, memRead := 1, aluOp := "ADD")
    else if name == "STUR" then none.(aluSrc := 1, memWrite := 1, aluOp := "ADD")
    else if IsBranch(name) then none.(branch := 1, aluOp := "??")
    else none
  }

  /** The datapath component the display highlights for an instruction. */
  datatype Component = ALU | MEM | BRANCH | NONE | DECODE

  /** The component table: ALU work, memory access, branch, nothing for HALT, decode for anything else. */
  function MockActiveComponent(name: string): (c: Component)
    ensures c == ALU <==> IsAluRegister(name) || IsAluImmediate(name)
    ensures c == MEM <==> name == "LDUR" || name == "STUR"
    ensures c == BRANCH <==> IsBranch(name)
    ensures c == NONE <==> name == "HALT"
  {
    if IsAluRegister(name) || IsAluImmediate(name) then ALU
    else if name == "LDUR" || name == "STUR" then MEM
    else if IsBranch(name) then BRANCH
    else if name == "HALT" then NONE
    else DECODE
  }

  /**
   * The two tables agree: the highlighted component is the ALU exactly when
   * the instruction writes a register without reading memory, memory exactly
   * when it reads or writes memory, the branch unit exactly when it branches,
   * and decode exactly when every signal is 0 and it is not HALT.
   */
  lemma ComponentMatchesSignals(name: string)
    ensures var s := MockControlSignals(name); var c := MockActiveComponent(name);
      && (c == ALU <==> s.regWrite == 1 && s.memRead == 0)
      && (c == MEM <==> s.memRead == 1 || s.memWrite == 1)
      && (c == BRANCH <==> s.branch == 1)
      && (c == DECODE <==> s == ControlSignals(0, 0, 0, 0, 0, "??") && name != "HALT")
  {
  }
}
