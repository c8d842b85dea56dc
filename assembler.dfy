/**
 * The placeholder assembler: one pass over the source lines that strips
 * comments, binds `NAME:` labels to the current address and gives every other
 * non-blank line the next 4-byte address, starting at 0. It records the
 * original line for each address; it does not encode machine code.
 */
module Assembler {
  import opened Text
  import opened Program

  /** The three maps being filled and the address of the next instruction. */
  datatype AsmState = AsmState(
    pc: int,
    instructionMemory: map<int, InstrData>,
    pcToLine: map<int, int>,
    labelToPc: map<string, int>)

  const EmptyState := AsmState(0, map[], map[], map[])

  /** A source line with everything from the first `//` dropped and the rest stripped. */
  function Clean(line: string): string {
    Strip(BeforeComment(line))
  }

  /** The cleaned line ends with a colon. */
  predicate IsLabelLine(line: string) {
    var t := Clean(line);
    t != [] && t[|t| - 1] == ':'
  }

  /** The name a label line registers: the stripped text before the colon, unless it is empty. */
  function LabelOf(line: string): Option<string> {
    var t := Clean(line);
    if IsLabelLine(line) && Strip(t[..|t| - 1]) != [] then Some(Strip(t[..|t| - 1])) else None
  }

  /** The line takes an instruction slot. */
  predicate Emits(line: string) {
    var t := Clean(line);
    t != [] &&
    (IsLabelLine(line) ==>
      var parts := SplitOnce(t[..|t| - 1]);
      |parts| > 1 && Strip(parts[1]) != [])
  }

  /** A label keeps the first address it was bound to; a repeated definition changes nothing. */
  function Bind(st: AsmState, name: string): AsmState {
    if name in st.labelToPc then st else st.(labelToPc := st.labelToPc[name := st.pc])
  }

  /** Put the line in the slot at the current address and move to the next slot. */
  function Emit(st: AsmState, lineNumber: nat, line: string): AsmState {
    st.(instructionMemory := st.instructionMemory[st.pc := InstrData(lineNumber, line)],
        pcToLine := st.pcToLine[st.pc := lineNumber],
        pc := st.pc + 4)
  }

  /**
   * The effect of the source line numbered `lineNumber` (1-based), in the order
   * the assembler tests it: blank after cleaning, label line, instruction.
   */
  function ProcessLine(st: AsmState, lineNumber: nat, line: string): AsmState {
    var t := Strip(BeforeComment(line));
    if t == [] then st
    else if t[|t| - 1] == ':' then
      var name := Strip(t[..|t| - 1]);
      var bound := if name != [] && name !in st.labelToPc then st.(labelToPc := st.labelToPc[name := st.pc]) else st;
      var parts := SplitOnce(t[..|t| - 1]);
      if |parts| > 1 && Strip(parts[1]) != [] then Emit(bound, lineNumber, line) else bound
    else Emit(st, lineNumber, line)
  }

  /** What a line contributes: the label it defines, if any, and whether it takes a slot. */
  datatype LineKind = LineKind(labelName: Option<string>, emits: bool)

  function Classify(line: string): LineKind {
    LineKind(LabelOf(line), Emits(line))
  }

  /** The effect of a line of the given kind: bind its label first, then take a slot if it emits. */
  function ApplyKind(st: AsmState, lineNumber: nat, line: string, kind: LineKind): AsmState {
    var bound := match kind.labelName case Some(name) => Bind(st, name) case None => st;
    if kind.emits then Emit(bound, lineNumber, line) else bound
  }

  /** A line's effect depends on its text only through its kind (and the text stored in its slot). */
  lemma ProcessLineClassified(st: AsmState, lineNumber: nat, line: string)
    ensures ProcessLine(st, lineNumber, line) == ApplyKind(st, lineNumber, line, Classify(line))
  {
    var t := Clean(line);
    if t == [] {
      ProcessBlank(st, lineNumber, line);
      assert Classify(line) == LineKind(None, false);
    } else if t[|t| - 1] == ':' {
      LabelLineClassified(st, lineNumber, line);
    } else {
      ProcessInstruction(st, lineNumber, line);
      assert Classify(line) == LineKind(None, true);
    }
  }

  /** `ProcessLineClassified` for a label line. */
  lemma LabelLineClassified(st: AsmState, lineNumber: nat, line: string)
    requires var t := Clean(line); t != [] && t[|t| - 1] == ':'
    ensures ProcessLine(st, lineNumber, line) == ApplyKind(st, lineNumber, line, Classify(line))
  {
    ProcessLabel(st, lineNumber, line);
    ClassifyLabel(line);
  }

  /** The kind of a label line: its non-empty name, and a slot exactly when a second word follows. */
  lemma ClassifyLabel(line: string)
    requires var t := Clean(line); t != [] && t[|t| - 1] == ':'
    ensures var t := Clean(line); var name := Strip(t[..|t| - 1]);
      var parts := SplitOnce(t[..|t| - 1]);
      Classify(line) == LineKind(if name != [] then Some(name) else None, |parts| > 1 && Strip(parts[1]) != [])
  {
  }

  /** A line that is blank after cleaning changes nothing. */
  lemma ProcessBlank(st: AsmState, lineNumber: nat, line: string)
    requires Clean(line) == []
    ensures ProcessLine(st, lineNumber, line) == st
  {
  }

  /** A line whose cleaned text ends in a colon binds its label, then takes a slot if a second word follows. */
  lemma ProcessLabel(st: AsmState, lineNumber: nat, line: string)
    requires var t := Clean(line); t != [] && t[|t| - 1] == ':'
    ensures var t := Clean(line); var name := Strip(t[..|t| - 1]);
      var bound := if name != [] && name !in st.labelToPc then st.(labelToPc := st.labelToPc[name := st.pc]) else st;
      var parts := SplitOnce(t[..|t| - 1]);
      ProcessLine(st, lineNumber, line) == if |parts| > 1 && Strip(parts[1]) != [] then Emit(bound, lineNumber, line) else bound
  {
  }

  /** Any other non-blank line takes a slot. */
  lemma ProcessInstruction(st: AsmState, lineNumber: nat, line: string)
    requires var t := Clean(line); t != [] && t[|t| - 1] != ':'
    ensures ProcessLine(st, lineNumber, line) == Emit(st, lineNumber, line)
  {
  }

  /** The state after the first `n` lines. */
  function Run(lines: seq<string>, n: nat): AsmState
    requires n <= |lines|
  {
    if n == 0 then EmptyState else ProcessLine(Run(lines, n - 1), n, lines[n - 1])
  }

  /** The assembler's result for a whole source text. */
  function Assemble(code: string): AsmState {
    var lines := SplitLines(code);
    Run(lines, |lines|)
  }

  /**
   * Assemble `assemblyCode` into the instruction memory (address to line number
   * and original text), the address-to-line map and the label-to-address map.
   */
  method PlaceholderAssembler(assemblyCode: string)
    returns (instructionMemory: map<int, InstrData>, pcToLineMap: map<int, int>, labelToPcMap: map<string, int>)
    ensures var st := Assemble(assemblyCode);
      instructionMemory == st.instructionMemory && pcToLineMap == st.pcToLine && labelToPcMap == st.labelToPc
  {
    instructionMemory, pcToLineMap, labelToPcMap := map[], map[], map[];
    var currentPc := 0;
    var lines := SplitLines(assemblyCode);
    for i := 0 to |lines|
      invariant Run(lines, i) == AsmState(currentPc, instructionMemory, pcToLineMap, labelToPcMap)
    {
      currentPc, instructionMemory, pcToLineMap, labelToPcMap :=
        AssembleLine(currentPc, instructionMemory, pcToLineMap, labelToPcMap, i + 1, lines[i]);
    }
  }

  /** One pass of the assembler's loop over the line numbered `lineNumber`. */
  method AssembleLine(
    currentPc: int, instructionMemory: map<int, InstrData>, pcToLineMap: map<int, int>,
    labelToPcMap: map<string, int>, lineNumber: nat, originalLine: string)
    returns (pc': int, instructionMemory': map<int, InstrData>, pcToLineMap': map<int, int>,
      labelToPcMap': map<string, int>)
    ensures AsmState(pc', instructionMemory', pcToLineMap', labelToPcMap')
      == ProcessLine(AsmState(currentPc, instructionMemory, pcToLineMap, labelToPcMap), lineNumber, originalLine)
  {
    pc', instructionMemory', pcToLineMap', labelToPcMap' := currentPc, instructionMemory, pcToLineMap, labelToPcMap;
    var line := Strip(BeforeComment(originalLine));
    if line == [] {
      ProcessBlank(AsmState(currentPc, instructionMemory, pcToLineMap, labelToPcMap), lineNumber, originalLine);
      return;
    }
    if line[|line| - 1] == ':' {
      var labelName := Strip(line[..|line| - 1]);
      if labelName != [] && labelName !in labelToPcMap' {
        labelToPcMap' := labelToPcMap'[labelName := pc'];
      }
      // Only a second word after the label makes the line an instruction too;
      // the rewritten text itself is used for logging alone.
      var parts := SplitOnce(line[..|line| - 1]);
      ProcessLabel(AsmState(currentPc, instructionMemory, pcToLineMap, labelToPcMap), lineNumber, originalLine);
      if !(|parts| > 1 && Strip(parts[1]) != []) {
        return;
      }
      pc', instructionMemory', pcToLineMap' := EmitSlot(pc', instructionMemory', pcToLineMap', lineNumber, originalLine);
    } else {
      ProcessInstruction(AsmState(currentPc, instructionMemory, pcToLineMap, labelToPcMap), lineNumber, originalLine);
      pc', instructionMemory', pcToLineMap' := EmitSlot(pc', instructionMemory', pcToLineMap', lineNumber, originalLine);
    }
  }

  /** Record the line at the current address and advance to the next 4-byte slot. */
  method EmitSlot(currentPc: int, instructionMemory: map<int, InstrData>, pcToLineMap: map<int, int>,
    lineNumber: nat, originalLine: string)
    returns (pc': int, instructionMemory': map<int, InstrData>, pcToLineMap': map<int, int>)
    ensures forall labels :: (AsmState(pc', instructionMemory', pcToLineMap', labels)
      == Emit(AsmState(currentPc, instructionMemory, pcToLineMap, labels), lineNumber, originalLine))
  {
    instructionMemory' := instructionMemory[currentPc := InstrData(lineNumber, originalLine)];
    pcToLineMap' := pcToLineMap[currentPc := lineNumber];
    pc' := currentPc + 4;
  }
}
