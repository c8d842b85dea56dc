/**
 * The simplified LEGv8 simulator: a program counter, a register file, N/Z/V/C
 * flags, a sparse byte-valued data memory and the loaded program, advanced one
 * instruction at a time. Execution is a placeholder: the instruction at an
 * address is chosen by `MockInstructionName`, and its effects are mock
 * register and memory writes whose index, value and address come from
 * random draws, here passed in as `Draws`.
 */
module Simulator {
  import opened Program
  import opened MockControl

  /** The condition flags N, Z, V and C. */
  datatype Flags = Flags(n: Bit, z: Bit, v: Bit, c: Bit)

  const ClearFlags := Flags(0, 0, 0, 0)

  /** The error a step reports when the pc holds no instruction. */
  const InvalidPc := "Invalid PC"

  /**
   * The report of an executed instruction: its address, the next pc, the
   * mock control signals and datapath activity, the register written (by
   * index), the flags after the step, and the stored instruction.
   */
  datatype Report = Report(
    pc: int, nextPc: int, controlSignals: ControlSignals, activeComponent: Component,
    memAddr: Option<int>, memWrite: bool, memRead: bool, regWritten: Option<int>,
    flags: Flags, halted: bool, instructionRaw: InstrData)

  /**
   * What the last step reported (`last_state`): nothing yet, a step on a
   * halted machine, a fault, or an executed instruction.
   */
  datatype CycleState =
    | Cleared
    | HaltedStep(pc: int)
    | Fault(pc: int, error: string)
    | Executed(report: Report)

  /** The values `random.randint` supplies to one step; each is used only by the instructions that draw it. */
  datatype Draws = Draws(regIndex: int, value: int, address: int, byte: int)

  /** The whole simulator state, as a value. */
  datatype Machine = Machine(
    numRegisters: int,
    memSize: int,
    initialPc: int,
    registers: seq<int>,
    dataMemory: map<int, int>,
    instructionMemory: map<int, InstrData>,
    pc: int,
    flags: Flags,
    halted: bool,
    pcToLineMap: map<int, int>,
    labelToPcMap: map<string, int>,
    lastState: CycleState)

  /** The pc, flags and halted state shown to the user. */
  datatype Summary = Summary(pc: int, flags: Flags, halted: bool)

  /**
   * The draws instruction `name` uses lie in the ranges its random calls
   * take: ADD, ADDI, SUB and LDUR draw a register X1 to X(n-1); ADD, ADDI and
   * SUB a register value 0 to 1000; LDUR and STUR an address 0 to
   * memSize - 8 (before it is aligned); STUR a byte 0 to 255. Draws an
   * instruction does not use are unconstrained.
   */
  predicate DrawsFitFor(m: Machine, d: Draws, name: string) {
    && (IsMockAlu(name) || name == "LDUR" ==> 1 <= d.regIndex <= m.numRegisters - 1)
    && (IsMockAlu(name) ==> 0 <= d.value <= 1000)
    && (name == "LDUR" || name == "STUR" ==> 0 <= d.address <= m.memSize - 8)
    && (name == "STUR" ==> 0 <= d.byte <= 255)
  }

  /**
   * The draws fit the next step: a step that executes an instruction needs
   * the draws of the instruction chosen for the pc; a step on a halted
   * machine or at a pc outside the program draws nothing.
   */
  predicate DrawsFit(m: Machine, d: Draws) {
    !m.halted && m.pc in m.instructionMemory ==> DrawsFitFor(m, d, MockInstructionName(m.pc))
  }

  /** `x & ~0x7`: `x` with its three low bits cleared. */
  function AlignDown8(x: int): (r: int)
    ensures r % 8 == 0 && r <= x < r + 8
  {
    x - x % 8
  }

  /** A register file of `n` zeros. */
  function Zeros(n: nat): (r: seq<int>)
    ensures |r| == n && forall i :: 0 <= i < n ==> r[i] == 0
  {
    seq(n, _ => 0)
  }

  /**
   * The state every operation keeps: at least two registers and room for one
   * 8-byte word; X0 is 0 and every register holds 0 to 1000; memory is
   * written only at 8-aligned addresses inside the data memory, with bytes.
   */
  ghost predicate Wellformed(m: Machine) {
    && m.numRegisters >= 2 && m.memSize >= 8
    && |m.registers| == m.numRegisters
    && m.registers[0] == 0
    && (forall i :: 0 <= i < |m.registers| ==> 0 <= m.registers[i] <= 1000)
    && (forall a :: a in m.dataMemory ==> a % 8 == 0 && 0 <= a <= m.memSize - 8 && 0 <= m.dataMemory[a] <= 255)
  }

  /** A new simulator: everything zero or empty, starting at address 0. */
  function Initial(numRegisters: nat, memSize: int): Machine {
    Machine(numRegisters, memSize, 0, Zeros(numRegisters), map[], map[], 0, ClearFlags, false, map[], map[], Cleared)
  }

  /** The smallest address in a non-empty set. */
  function MinKey(s: set<int>): (r: int)
    requires s != {}
    ensures r in s && forall x :: x in s ==> r <= x
  {
    HasMinimum(s);
    var r :| r in s && forall x :: x in s ==> r <= x;
    r
  }

  /** A set is empty or has an element. */
  lemma EmptyOrInhabited(s: set<int>)
    ensures s == {} || exists y :: y in s
  {
    if !(exists y :: y in s) {
      assert s == {};
    }
  }

  /** Every non-empty finite set of integers has a least element. */
  lemma {:induction false} HasMinimum(s: set<int>)
    requires s != {}
    ensures exists r :: r in s && forall x :: x in s ==> r <= x
    decreases |s|
  {
    EmptyOrInhabited(s);
    var y :| y in s;
    var rest := s - {y};
    if rest == {} {
      forall x | x in s ensures y <= x {
        assert x !in rest;
      }
    } else {
      HasMinimum(rest);
      var r :| r in rest && forall x :: x in rest ==> r <= x;
      var least := if y < r then y else r;
      forall x | x in s ensures least <= x {
        if x != y {
          assert x in rest;
        }
      }
      assert least in s;
    }
  }

  /** `reset`: back to the start of the program with zeroed registers and flags; program and data memory stay. */
  function AfterReset(m: Machine): Machine
    requires m.numRegisters >= 0
  {
    m.(pc := m.initialPc, registers := Zeros(m.numRegisters), flags := ClearFlags, halted := false, lastState := Cleared)
  }

  /** `load_program`: install a program and its labels, start at its lowest address (0 if empty), and reset. */
  function AfterLoad(m: Machine, program: map<int, InstrData>, labels: map<string, int>): Machine
    requires m.numRegisters >= 0
  {
    var start := if program != map[] then MinKey(program.Keys) else 0;
    AfterReset(m.(instructionMemory := program, labelToPcMap := labels, initialPc := start)).(halted := false)
  }

  /** An instruction that writes a random value to a random register and sets Z from it. */
  predicate IsMockAlu(name: string) {
    name == "ADD" || name == "ADDI" || name == "SUB"
  }

  /**
   * The report prepared before the mock work of the instruction `name` at
   * `pc`: the next pc is the following word, the signals and component come
   * from the tables, nothing is accessed or written yet, and the flags are
   * those before the step.
   */
  function Prepared(pc: int, name: string, flags: Flags, raw: InstrData): Report {
    Report(pc, pc + 4, MockControlSignals(name), MockActiveComponent(name), None, false, false, None, flags, false, raw)
  }

  /**
   * The mock work of instruction `name`, given the report prepared for it:
   * ADD, ADDI and SUB write a drawn value to a drawn register and set Z from
   * it; STUR stores a drawn byte at a drawn 8-aligned address; LDUR loads from
   * such an address (0 if nothing is stored there) into a drawn register; HALT
   * halts and keeps the pc; any other name does nothing.
   */
  function MockEffect(m: Machine, d: Draws, name: string, report: Report): (Machine, Report)
    requires |m.registers| == m.numRegisters && DrawsFitFor(m, d, name)
  {
    if IsMockAlu(name) then
      (m.(registers := m.registers[d.regIndex := d.value]),
       report.(regWritten := Some(d.regIndex), flags := report.flags.(z := if d.value == 0 then 1 else 0)))
    else if name == "LDUR" || name == "STUR" then
      var address := AlignDown8(d.address);
      var report' := report.(memAddr := Some(address), activeComponent := MEM);
      if name == "STUR" then
        (m.(dataMemory := m.dataMemory[address := d.byte]), report'.(memWrite := true))
      else
        var readValue := if address in m.dataMemory then m.dataMemory[address] else 0;
        (m.(registers := m.registers[d.regIndex := readValue]), report'.(memRead := true, regWritten := Some(d.regIndex)))
    else if name == "HALT" then
      (m.(halted := true), report.(halted := true, nextPc := report.pc))
    else
      (m, report)
  }

  /**
   * `step`: execute the instruction at the pc. A halted machine only reports
   * that it is halted; a pc outside the program halts with an error; otherwise
   * the mock instruction does its mock work, the pc moves on to the reported
   * next pc unless the instruction halted, and the reported flags become the
   * machine's.
   */
  function AfterStep(m: Machine, d: Draws): (r: Machine)
    requires |m.registers| == m.numRegisters && DrawsFit(m, d)
  {
    if m.halted then m.(lastState := HaltedStep(m.pc))
    else if m.pc !in m.instructionMemory then m.(halted := true, lastState := Fault(m.pc, InvalidPc))
    else
      var name := MockInstructionName(m.pc);
      var effect := MockEffect(m, d, name, Prepared(m.pc, name, m.flags, m.instructionMemory[m.pc]));
      var m' := effect.0;
      var report := effect.1;
      m'.(pc := if m'.halted then m'.pc else report.nextPc, flags := report.flags, lastState := Executed(report))
  }

  /** A step changes only the registers, data memory, pc, flags, halted state and last report. */
  lemma StepFrame(m: Machine, d: Draws)
    requires |m.registers| == m.numRegisters && DrawsFit(m, d)
    ensures var r := AfterStep(m, d);
      && |r.registers| == |m.registers|
      && r.numRegisters == m.numRegisters && r.memSize == m.memSize && r.initialPc == m.initialPc
      && r.instructionMemory == m.instructionMemory && r.labelToPcMap == m.labelToPcMap
      && r.pcToLineMap == m.pcToLineMap
  {
    if !m.halted && m.pc in m.instructionMemory {
      var name := MockInstructionName(m.pc);
      var report := Prepared(m.pc, name, m.flags, m.instructionMemory[m.pc]);
      EffectFrame(m, d, name, report);
    }
  }

  /** The mock work of one instruction changes only the registers, the data memory and the halted state. */
  lemma EffectFrame(m: Machine, d: Draws, name: string, report: Report)
    requires |m.registers| == m.numRegisters && DrawsFitFor(m, d, name)
    ensures var r := MockEffect(m, d, name, report).0;
      && r.numRegisters == m.numRegisters && r.memSize == m.memSize && r.initialPc == m.initialPc
      && r.instructionMemory == m.instructionMemory && r.labelToPcMap == m.labelToPcMap
      && r.pcToLineMap == m.pcToLineMap && r.pc == m.pc && r.flags == m.flags && r.lastState == m.lastState
      && |r.registers| == |m.registers|
  {
    if IsMockAlu(name) {
    } else if name == "LDUR" || name == "STUR" {
    }
  }

  /**
   * A step keeps the machine well formed: mock register writes go to X1 and
   * above with values 0 to 1000 (or a byte read from memory), and mock stores
   * put a byte at an 8-aligned address inside the data memory.
   */
  lemma StepKeepsWellformed(m: Machine, d: Draws)
    requires Wellformed(m) && DrawsFit(m, d)
    ensures Wellformed(AfterStep(m, d))
  {
    if !m.halted && m.pc in m.instructionMemory {
      var name := MockInstructionName(m.pc);
      var report := Prepared(m.pc, name, m.flags, m.instructionMemory[m.pc]);
      EffectKeepsWellformed(m, d, name, report);
    }
  }

  /** The mock work of one instruction keeps the machine well formed. */
  lemma EffectKeepsWellformed(m: Machine, d: Draws, name: string, report: Report)
    requires Wellformed(m) && DrawsFitFor(m, d, name)
    ensures Wellformed(MockEffect(m, d, name, report).0)
  {
    var address := AlignDown8(d.address);
    if IsMockAlu(name) {
      RegisterWriteKeepsWellformed(m, d.regIndex, d.value);
    } else if name == "STUR" {
      StoreKeepsWellformed(m, address, d.byte);
    } else if name == "LDUR" {
      var readValue := if address in m.dataMemory then m.dataMemory[address] else 0;
      RegisterWriteKeepsWellformed(m, d.regIndex, readValue);
    }
  }

  /** Writing 0 to 1000 into X1 or above keeps the machine well formed. */
  lemma RegisterWriteKeepsWellformed(m: Machine, i: int, v: int)
    requires Wellformed(m) && 1 <= i < |m.registers| && 0 <= v <= 1000
    ensures Wellformed(m.(registers := m.registers[i := v]))
  {
  }

  /** Storing a byte at an 8-aligned address inside the data memory keeps the machine well formed. */
  lemma StoreKeepsWellformed(m: Machine, a: int, b: int)
    requires Wellformed(m) && a % 8 == 0 && 0 <= a <= m.memSize - 8 && 0 <= b <= 255
    ensures Wellformed(m.(dataMemory := m.dataMemory[a := b]))
  {
  }

  /** `get_register_value`: the register's value, or nothing for an index outside the register file. */
  function RegisterValue(m: Machine, regIndex: int): (r: Option<int>)
    requires |m.registers| == m.numRegisters
    ensures r.Some? <==> 0 <= regIndex < m.numRegisters
    ensures Wellformed(m) && r.Some? ==> 0 <= r.value <= 1000 && (regIndex == 0 ==> r.value == 0)
  {
    if 0 <= regIndex < m.numRegisters then Some(m.registers[regIndex]) else None
  }

  /** `get_memory_value`: the byte stored at the address, 0 where nothing was ever stored. */
  function MemoryValue(m: Machine, address: int): (r: int)
    ensures address !in m.dataMemory ==> r == 0
    ensures Wellformed(m) ==> 0 <= r <= 255 && (r != 0 ==> address % 8 == 0 && 0 <= address <= m.memSize - 8)
  {
    if address in m.dataMemory then m.dataMemory[address] else 0
  }

  /** `get_state_summary`. */
  function StateSummary(m: Machine): Summary {
    Summary(m.pc, m.flags, m.halted)
  }

  /**
   * The simulator object. Its fields are the machine state; `State()` reads
   * them as a `Machine`, and every method is specified by the function on
   * `Machine` that it implements.
   */
  class SimplifiedSimulator {
    const numRegisters: int
    const memSize: int
    var initialPc: int
    var registers: seq<int>
    var dataMemory: map<int, int>
    var instructionMemory: map<int, InstrData>
    var pc: int
    var flags: Flags
    var halted: bool
    var pcToLineMap: map<int, int>
    var labelToPcMap: map<string, int>
    var lastState: CycleState

    function State(): Machine
      reads this
    {
      Machine(numRegisters, memSize, initialPc, registers, dataMemory, instructionMemory,
        pc, flags, halted, pcToLineMap, labelToPcMap, lastState)
    }

    ghost predicate Valid()
      reads this
    {
      Wellformed(State())
    }

    /** A simulator with `numRegisters` registers and `memSize` bytes of data memory. */
    constructor(numRegisters: int := 32, memSize: int := 1024)
      requires numRegisters >= 0
      ensures State() == Initial(numRegisters, memSize)
      ensures Valid() <==> numRegisters >= 2 && memSize >= 8
    {
      this.numRegisters := numRegisters;
      this.memSize := memSize;
      initialPc := 0;
      registers := Zeros(numRegisters);
      dataMemory := map[];
      instructionMemory := map[];
      pc := 0;
      flags := ClearFlags;
      halted := false;
      pcToLineMap := map[];
      labelToPcMap := map[];
      lastState := Cleared;
    }

    /** `reset`. */
    method Reset()
      requires numRegisters >= 0
      modifies this
      ensures State() == AfterReset(old(State()))
      ensures |registers| == numRegisters
      ensures old(Valid()) ==> Valid()
    {
      pc := initialPc;
      registers := Zeros(numRegisters);
      flags := ClearFlags;
      halted := false;
      lastState := Cleared;
    }

    /** `load_program`. */
    method LoadProgram(program: map<int, InstrData>, labels: map<string, int>)
      requires numRegisters >= 0
      modifies this
      ensures State() == AfterLoad(old(State()), program, labels)
      ensures |registers| == numRegisters
      ensures old(Valid()) ==> Valid()
    {
      instructionMemory := program;
      labelToPcMap := labels;
      if program != map[] {
        initialPc := MinKey(program.Keys);
      } else {
        initialPc := 0;
      }
      Reset();
      halted := false;
    }

    /** `step`, with the random draws it may use passed in. */
    method Step(d: Draws) returns (state: CycleState)
      requires |registers| == numRegisters && DrawsFit(State(), d)
      modifies this
      ensures State() == AfterStep(old(State()), d)
      ensures state == lastState
      ensures |registers| == numRegisters
      ensures old(Valid()) ==> Valid()
    {
      StepFrame(State(), d);
      if Valid() {
        StepKeepsWellformed(State(), d);
      }
      var currentPc := pc;
      if halted {
        lastState := HaltedStep(currentPc);
        return lastState;
      }
      if currentPc !in instructionMemory {
        halted := true;
        lastState := Fault(currentPc, InvalidPc);
        return lastState;
      }
      state := ExecuteInstruction(d);
    }

    /** The part of `step` that executes the instruction at the pc, on a running machine whose pc is in the program. */
    method ExecuteInstruction(d: Draws) returns (state: CycleState)
      requires |registers| == numRegisters && !halted && pc in instructionMemory
      requires DrawsFitFor(State(), d, MockInstructionName(pc))
      modifies this
      ensures State() == AfterStep(old(State()), d)
      ensures state == lastState
    {
      var currentPc := pc;
      var instructionName := MockInstructionName(currentPc);
      var report := Prepared(currentPc, instructionName, flags, instructionMemory[currentPc]);
      report := ExecuteMock(instructionName, report, d);
      if !halted {
        pc := report.nextPc;
      }
      flags := report.flags;
      lastState := Executed(report);
      state := lastState;
    }

    /** The mock work of `step` for instruction `name` (see `MockEffect`). */
    method ExecuteMock(name: string, report: Report, d: Draws) returns (report': Report)
      requires |registers| == numRegisters && DrawsFitFor(State(), d, name)
      modifies this
      ensures (State(), report') == MockEffect(old(State()), d, name, report)
    {
      report' := report;
      if name == "ADD" || name == "ADDI" || name == "SUB" {
        var regIdx := d.regIndex;
        registers := registers[regIdx := d.value];
        report' := report'.(regWritten := Some(regIdx));
        if registers[regIdx] == 0 {
          report' := report'.(flags := report'.flags.(z := 1));
        } else {
          report' := report'.(flags := report'.flags.(z := 0));
        }
      } else if name == "LDUR" || name == "STUR" {
        var memAddr := AlignDown8(d.address);
        report' := report'.(memAddr := Some(memAddr), activeComponent := MEM);
        if name == "STUR" {
          report' := report'.(memWrite := true);
          dataMemory := dataMemory[memAddr := d.byte];
        } else {
          report' := report'.(memRead := true);
          var readVal := if memAddr in dataMemory then dataMemory[memAddr] else 0;
          var regIdx := d.regIndex;
          registers := registers[regIdx := readVal];
          report' := report'.(regWritten := Some(regIdx));
        }
      } else if name == "HALT" {
        report' := report'.(halted := true);
        halted := true;
        report' := report'.(nextPc := report.pc);
      }
    }

    /** `get_register_value`. */
    function GetRegisterValue(regIndex: int): (r: Option<int>)
      reads this
      requires |registers| == numRegisters
      ensures r.Some? <==> 0 <= regIndex < numRegisters
      ensures r.Some? ==> r.value == registers[regIndex]
    {
      RegisterValue(State(), regIndex)
    }

    /** `get_memory_value`. */
    function GetMemoryValue(address: int): (r: int)
      reads this
      ensures r == if address in dataMemory then dataMemory[address] else 0
    {
      MemoryValue(State(), address)
    }

    /** `get_state_summary`. */
    function GetStateSummary(): (r: Summary)
      reads this
      ensures r.pc == pc && r.flags == flags && r.halted == halted
    {
      StateSummary(State())
    }
  }
}
