/**
 * What the simulator's operations promise, stated over the `Machine` value
 * that the simulator object's fields make up: the three outcomes of a step,
 * which registers, memory words and flags a step may change, how reset and
 * program loading leave the machine, and that every run of the mock program
 * halts.
 */
module SimulatorProperties {
  import opened Program
  import opened MockControl
  import opened Simulator
  import opened Assembler
  import opened AssemblerProperties

  /** The draws of a step fit the machine, and its register file has the declared size. */
  predicate Ready(m: Machine, d: Draws) {
    |m.registers| == m.numRegisters && DrawsFit(m, d)
  }

  /** The draws fit the mock work of instruction `name`, and the register file has the declared size. */
  predicate ReadyFor(m: Machine, d: Draws, name: string) {
    |m.registers| == m.numRegisters && DrawsFitFor(m, d, name)
  }

  /** A step on this machine executes an instruction: it is not halted and its pc is in the program. */
  predicate Executes(m: Machine) {
    !m.halted && m.pc in m.instructionMemory
  }

  /**
   * A step that draws nothing, on a halted machine, at a pc outside the
   * program, or for an instruction other than ADD, ADDI, SUB, LDUR and STUR,
   * accepts any draws, whatever the machine's size.
   */
  lemma FitWithoutDraws(m: Machine, d: Draws)
    requires !Executes(m) || var name := MockInstructionName(m.pc); !IsMockAlu(name) && name != "LDUR" && name != "STUR"
    ensures DrawsFit(m, d)
  {
  }

  /** A step on a halted machine changes nothing but the last report, which says it is halted. */
  lemma StepWhenHalted(m: Machine, d: Draws)
    requires Ready(m, d) && m.halted
    ensures AfterStep(m, d) == m.(lastState := HaltedStep(m.pc))
  {
  }

  /** A pc outside the program halts the machine with an "Invalid PC" error and changes nothing else. */
  lemma InvalidPcStep(m: Machine, d: Draws)
    requires Ready(m, d) && !m.halted && m.pc !in m.instructionMemory
    ensures AfterStep(m, d) == m.(halted := true, lastState := Fault(m.pc, InvalidPc))
  {
  }

  /**
   * An executed step reports the instruction at the pc with the signals and
   * component of the mock instruction chosen for that pc (the simulator
   * overrides the component with MEM for loads and stores, which is what the
   * component table gives for them anyway). The machine halts exactly when the pc is past 0x40;
   * otherwise the pc moves on one word. The report's next pc, flags and
   * halted state are the machine's new ones.
   */
  lemma ExecutedStep(m: Machine, d: Draws)
    requires Ready(m, d) && Executes(m)
    ensures var r := AfterStep(m, d); var name := MockInstructionName(m.pc);
      && r.lastState.Executed?
      && var report := r.lastState.report;
      && report.pc == m.pc
      && report.instructionRaw == m.instructionMemory[m.pc]
      && report.controlSignals == MockControlSignals(name)
      && report.activeComponent == MockActiveComponent(name)
      && (r.halted <==> m.pc > 0x40)
      && r.pc == (if m.pc > 0x40 then m.pc else m.pc + 4)
      && report.nextPc == r.pc && report.halted == r.halted && report.flags == r.flags
  {
    var name := MockInstructionName(m.pc);
    var report := Prepared(m.pc, name, m.flags, m.instructionMemory[m.pc]);
    EffectReport(m, d, name, report);
  }

  /** What the mock work of one instruction does to the prepared report and the halted state. */
  lemma EffectReport(m: Machine, d: Draws, name: string, report: Report)
    requires ReadyFor(m, d, name) && !m.halted
    requires report.pc == m.pc && report.nextPc == m.pc + 4 && !report.halted
    requires name == "LDUR" || name == "STUR" ==> report.activeComponent == MEM
    ensures var (m', report') := MockEffect(m, d, name, report);
      && report'.pc == report.pc && report'.instructionRaw == report.instructionRaw
      && report'.controlSignals == report.controlSignals && report'.activeComponent == report.activeComponent
      && (m'.halted <==> name == "HALT") && report'.halted == m'.halted
      && report'.nextPc == (if name == "HALT" then m.pc else m.pc + 4)
  {
    if IsMockAlu(name) {
    } else if name == "LDUR" || name == "STUR" {
    }
  }

  /**
   * A step leaves N, V and C alone; it sets Z from the value written by ADD,
   * ADDI or SUB (1 when the value is 0) and otherwise leaves Z alone too.
   */
  lemma StepFlags(m: Machine, d: Draws)
    requires Ready(m, d)
    ensures var r := AfterStep(m, d);
      && r.flags.n == m.flags.n && r.flags.v == m.flags.v && r.flags.c == m.flags.c
      && r.flags.z == if Executes(m) && IsMockAlu(MockInstructionName(m.pc)) then (if d.value == 0 then 1 else 0) else m.flags.z
  {
    if Executes(m) {
      var name := MockInstructionName(m.pc);
      EffectFlags(m, d, name, Prepared(m.pc, name, m.flags, m.instructionMemory[m.pc]));
    }
  }

  lemma EffectFlags(m: Machine, d: Draws, name: string, report: Report)
    requires ReadyFor(m, d, name)
    ensures var report' := MockEffect(m, d, name, report).1;
      && report'.flags.n == report.flags.n && report'.flags.v == report.flags.v && report'.flags.c == report.flags.c
      && report'.flags.z == if IsMockAlu(name) then (if d.value == 0 then 1 else 0) else report.flags.z
  {
    if IsMockAlu(name) {
    } else if name == "LDUR" || name == "STUR" {
    }
  }

  /**
   * A step writes at most one register, the one its report names: X1 to
   * X(n-1), never X0. ADD, ADDI and SUB write the drawn value, LDUR the word
   * stored at the address it reports; every other register reads as before.
   */
  lemma StepRegisters(m: Machine, d: Draws)
    requires Ready(m, d)
    ensures var r := AfterStep(m, d);
      && |r.registers| == r.numRegisters
      && (!Executes(m) ==> r.registers == m.registers)
      && (Executes(m) ==>
            var name := MockInstructionName(m.pc);
            var report := r.lastState.report;
            && r.lastState.Executed?
            && (report.regWritten.Some? <==> IsMockAlu(name) || name == "LDUR")
            && (report.regWritten.Some? ==> 1 <= report.regWritten.value < m.numRegisters)
            && (IsMockAlu(name) ==> RegisterValue(r, report.regWritten.value) == Some(d.value))
            && (name == "LDUR" ==> RegisterValue(r, report.regWritten.value) == Some(MemoryValue(m, report.memAddr.value)))
            && forall i :: report.regWritten != Some(i) ==> RegisterValue(r, i) == RegisterValue(m, i))
  {
    StepFrame(m, d);
    if Executes(m) {
      var name := MockInstructionName(m.pc);
      EffectRegisters(m, d, name, Prepared(m.pc, name, m.flags, m.instructionMemory[m.pc]));
    }
  }

  lemma EffectRegisters(m: Machine, d: Draws, name: string, report: Report)
    requires ReadyFor(m, d, name) && report.regWritten == None
    ensures var (m', report') := MockEffect(m, d, name, report);
      && |m'.registers| == |m.registers|
      && (report'.regWritten.Some? <==> IsMockAlu(name) || name == "LDUR")
      && (report'.regWritten.Some? ==> report'.regWritten.value == d.regIndex)
      && (IsMockAlu(name) ==> m'.registers[d.regIndex] == d.value)
      && (name == "LDUR" ==> report'.memAddr.Some? && m'.registers[d.regIndex] == MemoryValue(m, report'.memAddr.value))
      && forall i :: 0 <= i < |m.registers| && report'.regWritten != Some(i) ==> m'.registers[i] == m.registers[i]
  {
    var (m', report') := MockEffect(m, d, name, report);
    EffectWrite(m, d, name, report);
    if !(IsMockAlu(name) || name == "LDUR") {
      assert m'.registers == m.registers;
    }
  }

  /** The register file after the mock work: one drawn register written, or none. */
  lemma EffectWrite(m: Machine, d: Draws, name: string, report: Report)
    requires ReadyFor(m, d, name)
    ensures var (m', report') := MockEffect(m, d, name, report);
      && (IsMockAlu(name) ==> m'.registers == m.registers[d.regIndex := d.value] && report'.regWritten == Some(d.regIndex))
      && (name == "LDUR" ==>
            && report'.memAddr == Some(AlignDown8(d.address)) && report'.regWritten == Some(d.regIndex)
            && m'.registers == m.registers[d.regIndex := MemoryValue(m, AlignDown8(d.address))])
      && (!IsMockAlu(name) && name != "LDUR" ==> m'.registers == m.registers && report'.regWritten == report.regWritten)
  {
    if IsMockAlu(name) {
    } else if name == "LDUR" || name == "STUR" {
    }
  }

  /**
   * A step writes memory only for STUR, and then only the drawn byte at the
   * address it reports. LDUR and STUR report an 8-aligned address inside the
   * data memory, with the read or write flag that matches; no other
   * instruction reports a memory access.
   */
  lemma StepMemory(m: Machine, d: Draws)
    requires Ready(m, d)
    ensures var r := AfterStep(m, d);
      && (!Executes(m) ==> r.dataMemory == m.dataMemory)
      && (Executes(m) ==>
            var name := MockInstructionName(m.pc);
            var report := r.lastState.report;
            && r.lastState.Executed?
            && (report.memAddr.Some? <==> name == "LDUR" || name == "STUR")
            && (report.memAddr.Some? ==>
                  report.memAddr.value % 8 == 0 && 0 <= report.memAddr.value <= m.memSize - 8)
            && (report.memWrite <==> name == "STUR") && (report.memRead <==> name == "LDUR")
            && (name == "STUR" ==> MemoryValue(r, report.memAddr.value) == d.byte)
            && forall a :: !(name == "STUR" && report.memAddr == Some(a)) ==> MemoryValue(r, a) == MemoryValue(m, a))
  {
    if Executes(m) {
      var name := MockInstructionName(m.pc);
      EffectMemory(m, d, name, Prepared(m.pc, name, m.flags, m.instructionMemory[m.pc]));
    }
  }

  lemma EffectMemory(m: Machine, d: Draws, name: string, report: Report)
    requires ReadyFor(m, d, name) && report.memAddr == None && !report.memRead && !report.memWrite
    ensures var (m', report') := MockEffect(m, d, name, report);
      && (report'.memAddr.Some? <==> name == "LDUR" || name == "STUR")
      && (report'.memAddr.Some? ==> report'.memAddr.value == AlignDown8(d.address))
      && (report'.memWrite <==> name == "STUR") && (report'.memRead <==> name == "LDUR")
      && m'.dataMemory == if name == "STUR" then m.dataMemory[AlignDown8(d.address) := d.byte] else m.dataMemory
  {
    if IsMockAlu(name) {
    } else if name == "LDUR" || name == "STUR" {
    }
  }

  /**
   * After a reset every register reads 0, the flags are clear, the pc is back
   * at the program's start and the machine is running with no last report;
   * the program, its labels and the data memory are kept. Resetting twice is
   * resetting once.
   */
  lemma ResetClears(m: Machine)
    requires m.numRegisters >= 0
    ensures var r := AfterReset(m);
      && |r.registers| == r.numRegisters
      && (forall i :: RegisterValue(r, i) == if 0 <= i < m.numRegisters then Some(0) else None)
      && r.flags == ClearFlags && r.pc == m.initialPc && !r.halted && r.lastState == Cleared
      && r.instructionMemory == m.instructionMemory && r.labelToPcMap == m.labelToPcMap
      && (forall a :: MemoryValue(r, a) == MemoryValue(m, a))
      && AfterReset(r) == r
      && (Wellformed(m) ==> Wellformed(r))
  {
  }

  /**
   * Loading a program installs it and its labels, and starts at its lowest
   * address, or at 0 for an empty program, with a reset machine that is not
   * halted; the data memory and the address-to-line map are kept.
   */
  lemma LoadStartsAtLowest(m: Machine, program: map<int, InstrData>, labels: map<string, int>)
    requires m.numRegisters >= 0
    ensures var r := AfterLoad(m, program, labels);
      && r.instructionMemory == program && r.labelToPcMap == labels
      && r.pc == r.initialPc && !r.halted && r.flags == ClearFlags && r.lastState == Cleared
      && (program == map[] ==> r.pc == 0)
      && (program != map[] ==> r.pc in program && forall a :: a in program ==> r.pc <= a)
      && r.registers == Zeros(m.numRegisters)
      && r.dataMemory == m.dataMemory && r.pcToLineMap == m.pcToLineMap
      && (Wellformed(m) ==> Wellformed(r))
  {
  }

  /** A non-empty program produced by the assembler starts at address 0 once loaded. */
  lemma AssembledProgramStartsAtZero(m: Machine, code: string)
    requires m.numRegisters >= 0
    ensures var st := Assemble(code);
      st.instructionMemory != map[] ==> AfterLoad(m, st.instructionMemory, st.labelToPc).pc == 0
  {
    var lines := Text.SplitLines(code);
    var st := Assemble(code);
    RunIsLayout(lines, |lines|);
    LayoutShape(lines, Classify, |lines|);
    if st.instructionMemory != map[] {
      var start := AfterLoad(m, st.instructionMemory, st.labelToPc).pc;
      assert start in st.instructionMemory;
      assert 0 <= start;
      assert 0 in st.instructionMemory;
    }
  }

  /** Each draw of `ds` fits the step it feeds, starting from `m`. */
  predicate RunFits(m: Machine, ds: seq<Draws>)
    requires |m.registers| == m.numRegisters
    decreases |ds|
  {
    ds == [] || (DrawsFit(m, ds[0]) && (StepFrame(m, ds[0]); RunFits(AfterStep(m, ds[0]), ds[1..])))
  }

  /** The machine after one step per draw in `ds`. */
  function RunSteps(m: Machine, ds: seq<Draws>): Machine
    requires |m.registers| == m.numRegisters && RunFits(m, ds)
    decreases |ds|
  {
    if ds == [] then m
    else
      StepFrame(m, ds[0]);
      RunSteps(AfterStep(m, ds[0]), ds[1..])
  }

  /** A halted machine draws nothing, so any draws fit a run from it, whatever its size. */
  lemma {:induction false} HaltedRunFits(m: Machine, ds: seq<Draws>)
    requires |m.registers| == m.numRegisters && m.halted
    ensures RunFits(m, ds)
    decreases |ds|
  {
    if ds != [] {
      StepFrame(m, ds[0]);
      HaltedRunFits(AfterStep(m, ds[0]), ds[1..]);
    }
  }

  /** A halted machine stays halted and keeps its pc, registers, flags and memory, however many steps it takes. */
  lemma {:induction false} HaltedStaysHalted(m: Machine, ds: seq<Draws>)
    requires |m.registers| == m.numRegisters && RunFits(m, ds) && m.halted
    ensures var r := RunSteps(m, ds);
      r.halted && r.pc == m.pc && r.registers == m.registers && r.flags == m.flags && r.dataMemory == m.dataMemory
    decreases |ds|
  {
    if ds != [] {
      var m' := AfterStep(m, ds[0]);
      StepWhenHalted(m, ds[0]);
      HaltedStaysHalted(m', ds[1..]);
    }
  }

  /**
   * How many steps the mock program can take from `pc` before it halts: it
   * walks up one word per step and halts at the first address past 0x40, or
   * earlier at an address with no instruction.
   */
  function HaltBound(pc: int): (n: nat)
    ensures n >= 1
    ensures pc + 4 * (n - 1) > 0x40
    ensures n > 1 ==> pc + 4 * (n - 2) <= 0x40
  {
    if pc > 0x40 then 1 else (0x40 - pc) / 4 + 2
  }

  /** One step from a running machine either halts it or moves the pc up one word, to at most 0x44. */
  lemma StepProgress(m: Machine, d: Draws)
    requires Ready(m, d) && !m.halted
    ensures var r := AfterStep(m, d); r.halted || (m.pc <= 0x40 && r.pc == m.pc + 4)
  {
    if m.pc in m.instructionMemory {
      ExecutedStep(m, d);
    }
  }

  /** Every run of the mock program halts within `HaltBound(pc)` steps. */
  lemma {:induction false} HaltsWithin(m: Machine, ds: seq<Draws>)
    requires |m.registers| == m.numRegisters && RunFits(m, ds)
    requires |ds| >= HaltBound(m.pc)
    ensures RunSteps(m, ds).halted
    decreases |ds|
  {
    var m' := AfterStep(m, ds[0]);
    StepFrame(m, ds[0]);
    if m.halted {
      HaltedStaysHalted(m, ds);
    } else {
      StepProgress(m, ds[0]);
      if m'.halted {
        HaltedStaysHalted(m', ds[1..]);
      } else {
        HaltsWithin(m', ds[1..]);
      }
    }
  }
}
