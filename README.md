# legv8tron core, modelled in Dafny

legv8tron is a teaching tool for the LEGv8 instruction set, a subset of
ARMv8. Its core has two parts.

- **The placeholder assembler** (`placeholder_assembler`). It makes one pass
  over the source lines:
  - it drops everything from the first `//` and strips whitespace;
  - it binds a `NAME:` line to the current address, and only the first
    definition of a name counts;
  - every other non-blank line gets the next 4-byte address, starting at 0.

  It returns three maps: the instruction memory (address to line number and
  original text), the address-to-line map and the label-to-address map. It
  does not encode machine code.
- **The simplified simulator** (`LEGv8_Simplified_Simulator`). It holds a
  register file, N/Z/V/C flags, a sparse byte-valued data memory, the loaded
  program and a pc, and it advances one instruction per `step`. Execution is
  a placeholder:
  - the instruction at an address is chosen from the address alone: a cycle
    of seven names up to 0x40, and HALT beyond it;
  - ADD, ADDI and SUB write a random value to a random register and set Z;
  - STUR stores a random byte at a random 8-aligned address;
  - LDUR loads such a byte into a random register;
  - HALT stops the machine;
  - a pc with no instruction stops it with an "Invalid PC" error.

  Tables give the control signals and the highlighted datapath component for
  each instruction name.

The model has six modules.

| module | contents |
|---|---|
| `Text` (`text.dfy`) | Python's `str.splitlines`, `str.strip`, `split('//')[0]` and `split(maxsplit=1)` on code-point sequences. `StripSpec`, `BeforeCommentSpec` and `SplitOnceAt` with its three companion lemmas determine what the last three return; for `splitlines` the model proves that lines hold no break and that a text using only "\n" joins back |
| `Program` (`program.dfy`) | the instruction record `(line number, original text)` shared by both halves, and `Option` |
| `Assembler` (`assembler.dfy`) | the assembler. `PlaceholderAssembler` is the loop of `placeholder_assembler` and `AssembleLine` its body; together they are proved equal to the functional `Assemble`, a fold of `ProcessLine` over the lines |
| `AssemblerProperties` (`assembler_props.dfy`) | what an assembled program looks like: its addresses, instruction slots and labels, and how each kind of line is classified |
| `MockControl` (`mock_control.dfy`) | the instruction chooser and the control-signal and component tables |
| `Simulator` (`simulator.dfy`) | the machine state as a value (`Machine`) and one function per operation. It also holds the class `SimplifiedSimulator`, whose fields are that state and whose methods are proved to implement those functions |
| `SimulatorProperties` (`simulator_props.dfy`) | what a step, a reset and a load do, how an assembled program starts, and that every run halts |

Random draws are not made inside the model. Each `step` takes a `Draws`
value: a register index, a register value, an address and a byte. Only the
draws the executed instruction uses must lie in the ranges of the source's
`random.randint` calls (`DrawsFitFor`):
- ADD, ADDI and SUB draw a register 1 to n-1 and a value 0 to 1000;
- LDUR draws a register 1 to n-1 and an address 0 to memSize - 8;
- STUR draws an address 0 to memSize - 8 and a byte 0 to 255.

A step on a halted machine, a step at a pc outside the program, and B, CBZ
and HALT draw nothing, so any draws fit them, on a machine of any size. The
address is aligned down to a multiple of 8, as `& ~0x7` does.

## Model

| member | source | states |
|---|---|---|
| Text.SplitLines | assembler.py:16 | `splitlines` yields no lines exactly for the empty text |
| Text.SplitLinesSpec | assembler.py:16 | no returned line holds a line break; text without breaks is a single line |
| Text.SplitLinesJoin | assembler.py:16 | for text whose breaks are all "\n" and which does not end in one, joining the lines with "\n" gives back the text |
| Text.SplitLinesJoinTrailing | assembler.py:16 | for text whose breaks are all "\n" and which ends in one, as editor text does, joining the lines with "\n" and adding the final "\n" gives back the text |
| Text.SplitLinesAtCrLf | assembler.py:16 | a text whose first break is "\r\n" splits into the text before it followed by the lines after both code points |
| Text.SplitLinesAtNewline | assembler.py:16 | a text whose first break is a "\n" before the last code point splits into the text before it followed by the lines of the rest |
| Text.FirstBreakIsNewline | assembler.py:16 | in text whose breaks are all "\n" and which does not end in one, the first break is a "\n" before the last code point |
| Text.LineEndSpec | assembler.py:16 | a line ends at the first line break and nowhere earlier |
| Text.LeadingSpacesSpec | assembler.py:21 | the leading run counted by `strip` is all whitespace and ends at a non-blank code point |
| Text.ContentEndSpec | assembler.py:21 | the trailing run removed by `strip` is all whitespace and follows a non-blank code point |
| Text.Strip | assembler.py:21 | Python's `str.strip()`; what it returns is stated by `StripSpec` |
| Text.StripSpec | assembler.py:21 | `strip` returns the slice between leading and trailing whitespace; it is empty exactly for all-whitespace text, and otherwise starts and ends non-blank |
| Text.StripBlank | assembler.py:21-23 | `strip` gives empty text exactly for all-whitespace text, so exactly those lines are skipped |
| Text.StripEnds | assembler.py:21-27 | non-empty stripped text begins and ends with a non-blank code point |
| Text.StripTrailing | assembler.py:21 | everything after the result of `strip` is whitespace |
| Text.BeforeComment | assembler.py:21 | `split('//')[0]` is no longer than the line; `BeforeCommentSpec` says which prefix it is |
| Text.BeforeCommentSpec | assembler.py:21 | `split('//')[0]` is the prefix up to the first `//`; no `//` starts inside it |
| Text.SplitOnce | assembler.py:35 | `split(maxsplit=1)` yields at most two parts; `SplitOnceAt` with `LeadingFrom`, `WordFrom` and `SpacesFrom` says which |
| Text.WordEndSpec | assembler.py:35 | the first word runs up to the first whitespace code point |
| Text.LeadingSpacesBefore | assembler.py:35 | the leading whitespace ends no later than any non-blank code point |
| Text.WordEndBefore | assembler.py:35 | the first word ends no later than any whitespace after its start |
| Text.SplitOnceBlank | assembler.py:35 | `split(maxsplit=1)` yields no part exactly for blank text |
| Text.SplitOnceSecondPart | assembler.py:35-36 | when there is a second part, the text holds two words and the second part strips to non-empty text |
| Text.SplitOnceTwoWords | assembler.py:35-36 | text with two words splits into two parts |
| Text.SplitOnceSpec | assembler.py:35-36 | the test on line 36 (a second part that is not blank) holds exactly when the text before the colon has two or more words |
| Text.SplitOnceAt | assembler.py:35 | the parts of `split(maxsplit=1)` are slices of the text: none for blank text; otherwise the first word, starting after the leading whitespace; and, when anything but whitespace follows it, the rest of the text from the first non-blank code point after the word |
| Text.LeadingFrom | assembler.py:35 | the text before the first word is whitespace, and the word starts at a non-blank code point |
| Text.WordFrom | assembler.py:35 | the first word holds no whitespace, is non-empty when it starts at a non-blank code point, and ends at whitespace or the end of the text |
| Text.SpacesFrom | assembler.py:35 | the gap after the first word is whitespace and ends at a non-blank code point or the end of the text |
| Assembler.ProcessLine | assembler.py:18-49 | the per-line rule: skip a line blank after cleaning; bind a new non-empty label to the current address; emit the original line at the current address and move on 4, except for a bare label line. Its meaning is stated by `ProcessLineClassified` and the layout lemmas |
| Assembler.Run | assembler.py:16-49 | the maps and address after the first n lines, one `ProcessLine` per line; `RunIsLayout`, `LayoutShape` and `LayoutLabels` state what they hold |
| Assembler.Assemble | assembler.py:16-56 | the assembler's result for a whole text: `Run` over all of its `splitlines` lines |
| Assembler.PlaceholderAssembler | assembler.py:3-56 | the loop returns exactly the instruction memory, address-to-line map and label map of `Assemble`, the fold of the per-line rule over `splitlines` |
| Assembler.AssembleLine | assembler.py:18-49 | one pass of the loop body, with its early `continue`s, leaves exactly the maps and pc that the per-line rule `ProcessLine` gives |
| Assembler.EmitSlot | assembler.py:44-49 | storing the line at the current address and adding 4 is the `Emit` step, whatever the labels |
| Assembler.ProcessBlank | assembler.py:21-23 | a line blank after cleaning leaves the state unchanged |
| Assembler.ProcessLabel | assembler.py:26-49 | a label line binds a non-empty, new name to the current address, then takes a slot exactly when a second word follows |
| Assembler.ProcessInstruction | assembler.py:26-49 | a non-blank line not ending in a colon takes the next slot |
| Assembler.ProcessLineClassified | assembler.py:21-49 | a line acts only through its kind: it binds its label first (if it has one), then takes a slot if it emits |
| Assembler.LabelLineClassified | assembler.py:26-39 | the same, for a label line |
| Assembler.ClassifyLabel | assembler.py:27-36 | a label line's kind: the stripped name before the colon when it is non-empty, and a slot exactly when a second word follows |
| AssemblerProperties.RunStep | assembler.py:17-49 | after n lines, the state is line n's classified effect on the state after n - 1 lines |
| AssemblerProperties.RunIsLayout | assembler.py:17-49 | the assembler's pass equals the layout computed from the lines' kinds alone |
| AssemblerProperties.EmitCount | assembler.py:44-49 | the number of emitting lines among the first n is at most n |
| AssemblerProperties.EmitCountMonotone | assembler.py:49 | the count of emitting lines never decreases along the source |
| AssemblerProperties.EmitCountStrict | assembler.py:49 | an emitting line raises the count for every later prefix |
| AssemblerProperties.EmitCountOrdered | assembler.py:49 | a line with fewer emitting lines before it than another comes earlier |
| AssemblerProperties.ShapeKept | assembler.py:22-39 | a line that takes no slot keeps the layout invariant |
| AssemblerProperties.ShapeGrown | assembler.py:44-49 | a line that takes a slot keeps the layout invariant |
| AssemblerProperties.SlotKept | assembler.py:44-46 | a slot filled by one of the first n - 1 lines stays valid once line n is processed |
| AssemblerProperties.AddressesGrown | assembler.py:45-49 | filling the slot at pc and adding 4 keeps the addresses exactly the multiples of 4 below pc |
| AssemblerProperties.LayoutShape | assembler.py:13-49 | the next address is 4 times the number of instructions; the instruction memory and address-to-line map have the same keys, exactly the multiples of 4 below it; each slot holds the line number and text of an emitting line and agrees with the address-to-line map |
| AssemblerProperties.EmittedLinesPlaced | assembler.py:44-46 | the emitting line m sits at 4 times the number of emitting lines before it, with its 1-based line number and original text |
| AssemblerProperties.SlotUnique | assembler.py:45-49 | the address counted for an emitting line is held by that line and no other |
| AssemblerProperties.AddressesFollowLines | assembler.py:44-49 | a lower address always holds an earlier source line |
| AssemblerProperties.FirstLabel | assembler.py:26-33 | the first line defining a name, if any, lies within the lines considered |
| AssemblerProperties.FirstLabelSpec | assembler.py:26-33 | `FirstLabel` finds a line defining the name with no earlier one, or reports that no line defines it |
| AssemblerProperties.LayoutLabels | assembler.py:28-32 | a name is bound exactly when some line defines it; it is bound to the address in effect at its first definition, so a redefinition changes nothing |
| AssemblerProperties.LabelsOnlyGrow | assembler.py:29-32 | a bound label stays bound to the same address through the rest of the source |
| AssemblerProperties.NextEmitting | assembler.py:44-49 | the next emitting line at or after a position, if any, lies before the end and does emit |
| AssemblerProperties.NextEmittingCount | assembler.py:44-49 | no line before the next emitting one takes a slot, so the address is unchanged until it |
| AssemblerProperties.LabelTarget | assembler.py:26-49 | a label's address holds the first emitting line at or after its definition; if there is none, the label points one past the last instruction, where the memory holds nothing |
| AssemblerProperties.AssembleLayout | assembler.py:16-49 | the assembler's result for a whole text has the layout `LayoutShape` states, over the text's lines |
| AssemblerProperties.AssembleLabels | assembler.py:16-49 | in the result for a whole text, a name is bound exactly when some line defines it, to the first instruction at or after its first definition, or past the last instruction |
| AssemblerProperties.BlankLine | assembler.py:21-23 | a line that is blank once its comment is removed defines no label and takes no slot |
| AssemblerProperties.InstructionLine | assembler.py:21-49 | a non-blank line whose cleaned text does not end in a colon takes a slot and defines no label, even when it starts with `name:` |
| AssemblerProperties.LabelLine | assembler.py:26-39 | a line ending in a colon defines the stripped text before the colon unless that is blank, and takes a slot exactly when that text has two or more words |
| MockControl.MockInstructionName | legv8_simulator.py:145-152 | the chosen name is one of the eight mock names, and it is HALT exactly past address 0x40 |
| MockControl.MockInstructionPeriodic | legv8_simulator.py:148-152 | up to 0x40, two addresses whose word indices agree modulo 7 get the same name |
| MockControl.MockInstructionRepeats | legv8_simulator.py:148-152 | up to 0x40 the names repeat every seven words (28 bytes) |
| MockControl.MockControlSignals | legv8_simulator.py:154-176 | for each signal, exactly which names set it; MemRead and MemWrite are never both set; the ALU operation is the first three letters of an ALU name, "ADD" for loads and stores, and "??" for every other name |
| MockControl.MockActiveComponent | legv8_simulator.py:178-188 | ALU exactly for the six ALU names, MEM for LDUR/STUR, BRANCH for the branches, NONE for HALT |
| MockControl.ComponentMatchesSignals | legv8_simulator.py:154-188 | the two tables agree: ALU exactly when the name writes a register without reading memory, MEM exactly when it touches memory, BRANCH exactly when it branches, DECODE exactly when all signals are off and the name is not HALT |
| Simulator.AlignDown8 | legv8_simulator.py:111 | `x & ~0x7` is the multiple of 8 at or below `x`, less than 8 below it |
| Simulator.Zeros | legv8_simulator.py:16-34 | `[0] * n` has n entries, all 0 |
| Simulator.MinKey | legv8_simulator.py:49 | `min` of a non-empty key set is a key no greater than any other key |
| Simulator.HasMinimum | legv8_simulator.py:49 | every non-empty finite set of addresses has a least element |
| Simulator.StepFrame | legv8_simulator.py:55-142 | a step changes only the registers, data memory, pc, flags, halted state and last report; the register file keeps its size |
| Simulator.EffectFrame | legv8_simulator.py:95-132 | the mock work changes only the registers, the data memory and the halted state |
| Simulator.StepKeepsWellformed | legv8_simulator.py:97-125 | a step keeps X0 at 0, every register within 0 to 1000, and memory holding bytes at 8-aligned addresses inside the data memory |
| Simulator.EffectKeepsWellformed | legv8_simulator.py:97-125 | the same invariant, kept by each instruction's mock work |
| Simulator.RegisterWriteKeepsWellformed | legv8_simulator.py:98-123 | writing 0 to 1000 into X1 or above keeps the invariant |
| Simulator.StoreKeepsWellformed | legv8_simulator.py:111-117 | storing a byte at an aligned address inside the data memory keeps the invariant |
| Simulator.RegisterValue | legv8_simulator.py:190-193 | a value is returned exactly for an index inside the register file; on a well-formed machine it is 0 to 1000, and 0 for X0 |
| Simulator.MemoryValue | legv8_simulator.py:195-197 | an address never written reads 0; on a well-formed machine every read is a byte, and a non-zero one comes from an aligned address inside the data memory |
| Simulator.Initial | legv8_simulator.py:10-26 | the state `__init__` builds: n zero registers, clear flags, empty memories and maps, pc 0, running; `constructor` is proved to produce it |
| Simulator.AfterReset | legv8_simulator.py:30-39 | the state `reset` leaves; `ResetClears` states what it holds |
| Simulator.AfterLoad | legv8_simulator.py:41-53 | the state `load_program` leaves; `LoadStartsAtLowest` states what it holds |
| Simulator.Prepared | legv8_simulator.py:81-93 | the report `step` builds before the mock work; `ExecutedStep` states its contents |
| Simulator.MockEffect | legv8_simulator.py:95-132 | the if/elif chain of mock work, given the draws the instruction uses; `EffectReport`, `EffectFlags`, `EffectRegisters` and `EffectMemory` state what it does |
| Simulator.AfterStep | legv8_simulator.py:55-142 | the state `step` leaves, given the draws the executed instruction uses; `StepFrame`, `StepKeepsWellformed` and the `SimulatorProperties` step lemmas state what it holds |
| Simulator.StateSummary | legv8_simulator.py:199-206 | the summary `get_state_summary` returns |
| Simulator.SimplifiedSimulator.constructor | legv8_simulator.py:10-26 | with 32 registers and 1024 bytes of memory unless told otherwise, the new simulator is the initial machine: zero registers and flags, empty memories and maps, pc 0, running. It is well formed exactly when it has at least two registers and eight bytes of memory |
| Simulator.SimplifiedSimulator.Reset | legv8_simulator.py:30-39 | the new state is `AfterReset` of the old one (see `ResetClears`), and well-formedness is kept |
| Simulator.SimplifiedSimulator.LoadProgram | legv8_simulator.py:41-53 | the new state is `AfterLoad` of the old one (see `LoadStartsAtLowest`), and well-formedness is kept |
| Simulator.SimplifiedSimulator.Step | legv8_simulator.py:55-142 | the new state is `AfterStep` of the old one and the draws; the returned report is the one stored as the last state; well-formedness is kept |
| Simulator.SimplifiedSimulator.ExecuteInstruction | legv8_simulator.py:74-142 | on a running machine whose pc is in the program, the new state is `AfterStep` of the old one and the draws, and the stored report is returned |
| Simulator.SimplifiedSimulator.ExecuteMock | legv8_simulator.py:95-132 | the registers, data memory, halted state and report after the if/elif chain are those `MockEffect` gives |
| Simulator.SimplifiedSimulator.GetRegisterValue | legv8_simulator.py:190-193 | a value exactly for an index inside the register file, and then that register's contents |
| Simulator.SimplifiedSimulator.GetMemoryValue | legv8_simulator.py:195-197 | the stored value at the address, or 0 where nothing is stored |
| Simulator.SimplifiedSimulator.GetStateSummary | legv8_simulator.py:199-206 | the summary holds the current pc, flags and halted state |
| SimulatorProperties.FitWithoutDraws | legv8_simulator.py:63-132 | a step on a halted machine, at a pc outside the program, or of an instruction other than ADD, ADDI, SUB, LDUR and STUR calls no random function, so any draws fit it |
| SimulatorProperties.StepWhenHalted | legv8_simulator.py:63-66 | a step on a halted machine changes nothing but the last report, which records the halt and the pc |
| SimulatorProperties.InvalidPcStep | legv8_simulator.py:68-72 | a pc outside the program halts the machine with an "Invalid PC" report; nothing else changes |
| SimulatorProperties.ExecutedStep | legv8_simulator.py:76-141 | an executed step reports the pc, the stored instruction, and the table signals and component of the chosen name. The machine halts exactly when the pc is past 0x40; otherwise the pc moves on 4. The report's next pc, halted state and flags are the machine's new ones |
| SimulatorProperties.EffectReport | legv8_simulator.py:95-132 | the mock work halts exactly for HALT, sets the next pc back to the current pc only then, and leaves the rest of the report's identity alone |
| SimulatorProperties.StepFlags | legv8_simulator.py:90-139 | N, V and C never change. Z becomes 1 or 0 according to whether the value written by ADD/ADDI/SUB is 0, and is otherwise unchanged |
| SimulatorProperties.EffectFlags | legv8_simulator.py:103-107 | the mock work changes only Z, and only for ADD/ADDI/SUB |
| SimulatorProperties.StepRegisters | legv8_simulator.py:97-124 | a step writes at most one register, the one the report names, always X1 to X(n-1). It is written exactly for ADD, ADDI, SUB and LDUR: the drawn value, or the value stored at the reported address. Every other register reads as before, and a step that executes nothing leaves them all |
| SimulatorProperties.EffectRegisters | legv8_simulator.py:97-124 | the register written by the mock work is the drawn one, and all others keep their values |
| SimulatorProperties.EffectWrite | legv8_simulator.py:97-124 | the register file after the mock work, per instruction |
| SimulatorProperties.StepMemory | legv8_simulator.py:110-125 | only STUR writes memory, and only the drawn byte at the reported address. LDUR and STUR (and nothing else) report an 8-aligned address inside the data memory, with the read or write flag that matches; every other address reads as before |
| SimulatorProperties.EffectMemory | legv8_simulator.py:110-125 | the data memory and memory part of the report after the mock work |
| SimulatorProperties.ResetClears | legv8_simulator.py:30-39 | after a reset every register reads 0, the flags are clear, the pc is the program start, the machine runs and the last report is cleared. The program, labels and data memory are kept, resetting twice is resetting once, and well-formedness is kept |
| SimulatorProperties.LoadStartsAtLowest | legv8_simulator.py:41-53 | loading installs the program and labels and starts at the lowest address (0 when empty) with a reset, running machine. The data memory and address-to-line map are kept, and well-formedness is kept |
| SimulatorProperties.AssembledProgramStartsAtZero | legv8_simulator.py:47-49 | a non-empty program from the assembler starts at address 0 once loaded |
| SimulatorProperties.HaltedStaysHalted | legv8_simulator.py:63-66 | once halted, any number of steps leave the machine halted with the same pc, registers, flags and memory |
| SimulatorProperties.HaltedRunFits | legv8_simulator.py:63-66 | a halted machine draws nothing, so any draws fit a run from it, whatever its size |
| SimulatorProperties.HaltBound | legv8_simulator.py:150-152 | the bound is the least number of one-word moves from the pc that reaches past 0x40, plus one step |
| SimulatorProperties.StepProgress | legv8_simulator.py:68-138 | a step from a running machine either halts it or moves the pc up one word from an address at most 0x40 |
| SimulatorProperties.HaltsWithin | legv8_simulator.py:68-152 | every run of the mock program halts within `HaltBound(pc)` steps |

## Behaviour that departs from a conventional assembler

The model follows the code in each of these places.

- A repeated label definition keeps the first address and only prints a
  warning (assembler.py:29-32). A conventional two-pass assembler rejects
  the redefinition.
- A label followed by an instruction on the same line, such as
  `LOOP: ADD X1, X2, X3`, is not recognised as a label. The comment at
  assembler.py:34-36 expects such a line to bind the label and emit the
  instruction, but the label test is whether the whole cleaned line ends in
  a colon (assembler.py:26). So such a line is a plain instruction and binds
  no label (`InstructionLine`).

  Conversely, a line such as `A B:` binds the name "A B" and also takes an
  instruction slot (`LabelLine`).
- The assembler does no pass-2 encoding. There is no register, immediate or
  label resolution and there are no errors: every non-blank line that is not
  a bare label is an instruction.
- The simulator does no decoding, no real ALU and no NZCV computation. The
  model reproduces the mock behaviour and nothing more.

## Left out

- Console output (`print`) in both files carries no state and is not modelled.
- `random.randint` is replaced by the `Draws` argument of `step`. Which
  random sequence the real program produces is not modelled.
- Simulator.SimplifiedSimulator.Step: when an instruction's draw range is
  empty (ADD, ADDI, SUB or LDUR with fewer than two registers, LDUR or STUR
  with under eight bytes of memory), `random.randint` raises `ValueError`.
  No draws fit such a step, so the model (here and in `Simulator.AfterStep`,
  `Simulator.MockEffect` and `SimplifiedSimulator.ExecuteMock`) excludes it
  and does not model the exception.
- Simulator.SimplifiedSimulator.constructor: requires a non-negative register
  count. Python's `[0] * n` with negative `n` gives an empty list, and that
  case is not modelled.
- Registers are identified by index. The report's `reg_written` string
  `X{n}` is the index `n`.
- The dictionaries of the source become datatypes: `last_state`, the step
  report and the control signals. The empty `last_state` after `__init__` and
  `reset` is `Cleared`. The report's `instruction_raw` is the stored record;
  the source's `.get` default of `None` cannot arise, because the pc has
  already been checked to be in the program.
- `load_program` stores the caller's dictionaries by reference, so later
  changes by the caller would show through. The model copies values, and
  that aliasing is not captured.
- The assembler's rewrite of `line` to the text after the label
  (assembler.py:37) only feeds a log message. It is not modelled; the stored
  text is always the original line, as in the source.
- The GUI, the datapath visualiser and `main.py` are not part of this model.
- Text is a sequence of Unicode code points. Whitespace and line breaks follow
  Python's `str.isspace` and `str.splitlines` tables; no normalisation or
  encoding is modelled.
