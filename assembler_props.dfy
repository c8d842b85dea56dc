/**
 * What the placeholder assembler's result says about the source lines: where
 * each instruction lands, which lines take a slot, and what address each label
 * names. `lines` is indexed from 0; the line numbers the assembler records
 * count from 1.
 *
 * The layout depends on each line only through its kind (`Classify`), so the
 * properties are proved for `Layout`, the same pass with any function `kind`
 * in place of `Classify`; `RunIsLayout` says the assembler's pass is `Layout`
 * with `Classify` itself.
 */
module AssemblerProperties {
  import opened Text
  import opened Program
  import opened Assembler

  /** The state after the first `n` lines, given the kind of each line. */
  function Layout(lines: seq<string>, kind: string -> LineKind, n: nat): AsmState
    requires n <= |lines|
  {
    if n == 0 then EmptyState else ApplyKind(Layout(lines, kind, n - 1), n, lines[n - 1], kind(lines[n - 1]))
  }

  /** One more line of the assembler's pass is one `ApplyKind` with that line's kind. */
  lemma RunStep(lines: seq<string>, n: nat)
    requires 0 < n <= |lines|
    ensures Run(lines, n) == ApplyKind(Run(lines, n - 1), n, lines[n - 1], Classify(lines[n - 1]))
  {
    ProcessLineClassified(Run(lines, n - 1), n, lines[n - 1]);
  }

  /** The assembler's pass is the layout of the lines under their own classification. */
  lemma {:induction false} RunIsLayout(lines: seq<string>, n: nat)
    requires n <= |lines|
    ensures Run(lines, n) == Layout(lines, Classify, n)
  {
    if n > 0 {
      RunIsLayout(lines, n - 1);
      RunStep(lines, n);
    }
  }

  /** How many of the first `n` lines take an instruction slot. */
  function EmitCount(lines: seq<string>, kind: string -> LineKind, n: nat): (c: nat)
    requires n <= |lines|
    ensures c <= n
  {
    if n == 0 then 0 else EmitCount(lines, kind, n - 1) + (if kind(lines[n - 1]).emits then 1 else 0)
  }

  /** Lines further down never have fewer slots before them. */
  lemma {:induction false} EmitCountMonotone(lines: seq<string>, kind: string -> LineKind, m: nat, n: nat)
    requires m <= n <= |lines|
    ensures EmitCount(lines, kind, m) <= EmitCount(lines, kind, n)
    decreases n - m
  {
    if m < n {
      EmitCountMonotone(lines, kind, m, n - 1);
    }
  }

  /** Fewer slots before one line than before another means it comes earlier. */
  lemma EmitCountOrdered(lines: seq<string>, kind: string -> LineKind, i: nat, j: nat)
    requires i <= |lines| && j <= |lines|
    ensures EmitCount(lines, kind, i) < EmitCount(lines, kind, j) ==> i < j
  {
    if j <= i {
      EmitCountMonotone(lines, kind, j, i);
    }
  }

  /** A line that takes a slot has more slots after it than before it. */
  lemma EmitCountStrict(lines: seq<string>, kind: string -> LineKind, m: nat, n: nat)
    requires m < n <= |lines| && kind(lines[m]).emits
    ensures EmitCount(lines, kind, m) < EmitCount(lines, kind, n)
  {
    EmitCountMonotone(lines, kind, m + 1, n);
  }

  /**
   * Instruction data `d` at address `a` is the source line it names, that line
   * takes a slot, and the slot-taking lines before it fill the addresses below `a`.
   */
  predicate Slot(lines: seq<string>, kind: string -> LineKind, n: nat, a: int, d: InstrData)
    requires n <= |lines|
  {
    1 <= d.lineNumber <= n && d.text == lines[d.lineNumber - 1] && kind(lines[d.lineNumber - 1]).emits
    && a == 4 * EmitCount(lines, kind, d.lineNumber - 1)
  }

  /** The layout after the first `n` lines: consecutive 4-byte slots from 0, each holding the line that took it. */
  ghost predicate Shaped(lines: seq<string>, kind: string -> LineKind, n: nat, st: AsmState)
    requires n <= |lines|
  {
    && st.pc == 4 * EmitCount(lines, kind, n)
    && st.instructionMemory.Keys == st.pcToLine.Keys
    && (forall a :: a in st.instructionMemory <==> 0 <= a < st.pc && a % 4 == 0)
    && (forall a :: a in st.instructionMemory ==>
          Slot(lines, kind, n, a, st.instructionMemory[a]) && st.pcToLine[a] == st.instructionMemory[a].lineNumber)
  }

  /** A line that takes no slot keeps the layout, now covering one more line. */
  lemma ShapeKept(lines: seq<string>, kind: string -> LineKind, n: nat, st: AsmState, st': AsmState)
    requires 0 < n <= |lines| && !kind(lines[n - 1]).emits
    requires Shaped(lines, kind, n - 1, st)
    requires st'.pc == st.pc && st'.instructionMemory == st.instructionMemory && st'.pcToLine == st.pcToLine
    ensures Shaped(lines, kind, n, st')
  {
    forall a | a in st.instructionMemory
      ensures Slot(lines, kind, n, a, st.instructionMemory[a])
    {
      SlotKept(lines, kind, n, a, st.instructionMemory[a]);
    }
  }

  /** A line that takes a slot extends the layout by that slot, at the old pc. */
  lemma ShapeGrown(lines: seq<string>, kind: string -> LineKind, n: nat, st: AsmState, st': AsmState)
    requires 0 < n <= |lines| && kind(lines[n - 1]).emits
    requires Shaped(lines, kind, n - 1, st)
    requires st'.pc == st.pc + 4
    requires st'.instructionMemory == st.instructionMemory[st.pc := InstrData(n, lines[n - 1])]
    requires st'.pcToLine == st.pcToLine[st.pc := n]
    ensures Shaped(lines, kind, n, st')
  {
    AddressesGrown(st.instructionMemory, st.pc, InstrData(n, lines[n - 1]));
    forall a | a in st'.instructionMemory
      ensures Slot(lines, kind, n, a, st'.instructionMemory[a])
    {
      if a != st.pc {
        SlotKept(lines, kind, n, a, st.instructionMemory[a]);
      }
    }
  }

  /** Filling the slot at `pc` extends the addresses 0, 4, ..., pc - 4 by `pc`. */
  lemma AddressesGrown<T>(slots: map<int, T>, pc: int, d: T)
    requires 0 <= pc && pc % 4 == 0
    requires forall a :: a in slots <==> 0 <= a < pc && a % 4 == 0
    ensures forall a :: a in slots[pc := d] <==> 0 <= a < pc + 4 && a % 4 == 0
  {
    forall a | pc < a < pc + 4
      ensures a % 4 != 0
    {
      assert a / 4 == pc / 4;
    }
  }

  /** A slot within the first `n - 1` lines is one within the first `n`. */
  lemma SlotKept(lines: seq<string>, kind: string -> LineKind, n: nat, a: int, d: InstrData)
    requires 0 < n <= |lines| && Slot(lines, kind, n - 1, a, d)
    ensures Slot(lines, kind, n, a, d)
  {
  }

  /**
   * The instruction memory holds exactly the addresses 0, 4, ..., pc - 4, where
   * pc is 4 times the number of slot-taking lines; the address-to-line map has
   * the same addresses and agrees with it; and each address holds the line
   * whose slot count before it gives that address.
   */
  lemma {:induction false} LayoutShape(lines: seq<string>, kind: string -> LineKind, n: nat)
    requires n <= |lines|
    ensures Shaped(lines, kind, n, Layout(lines, kind, n))
  {
    if n > 0 {
      LayoutShape(lines, kind, n - 1);
      var st := Layout(lines, kind, n - 1);
      var bound := match kind(lines[n - 1]).labelName case Some(name) => Bind(st, name) case None => st;
      if kind(lines[n - 1]).emits {
        ShapeGrown(lines, kind, n, st, Emit(bound, n, lines[n - 1]));
      } else {
        ShapeKept(lines, kind, n, st, bound);
      }
    }
  }

  /** Every line that takes a slot is in the instruction memory, with its line number and its original text. */
  lemma EmittedLinesPlaced(lines: seq<string>, kind: string -> LineKind, n: nat, m: nat)
    requires m < n <= |lines| && kind(lines[m]).emits
    ensures var st := Layout(lines, kind, n);
      && 4 * EmitCount(lines, kind, m) in st.instructionMemory
      && 4 * EmitCount(lines, kind, m) in st.pcToLine
      && st.instructionMemory[4 * EmitCount(lines, kind, m)] == InstrData(m + 1, lines[m])
      && st.pcToLine[4 * EmitCount(lines, kind, m)] == m + 1
  {
    LayoutShape(lines, kind, n);
    var st := Layout(lines, kind, n);
    var a := 4 * EmitCount(lines, kind, m);
    EmitCountStrict(lines, kind, m, n);
    assert a in st.instructionMemory;
    SlotUnique(lines, kind, n, m, st.instructionMemory[a]);
  }

  /** The slot counted for line `m` is held by no other line. */
  lemma SlotUnique(lines: seq<string>, kind: string -> LineKind, n: nat, m: nat, d: InstrData)
    requires m < n <= |lines| && kind(lines[m]).emits
    requires Slot(lines, kind, n, 4 * EmitCount(lines, kind, m), d)
    ensures d.lineNumber == m + 1
  {
    var ln := d.lineNumber;
    if ln - 1 < m {
      EmitCountStrict(lines, kind, ln - 1, m);
    } else if ln - 1 > m {
      EmitCountStrict(lines, kind, m, ln - 1);
    }
  }

  /** Addresses follow the source order: a higher address holds a later line. */
  lemma AddressesFollowLines(lines: seq<string>, kind: string -> LineKind, n: nat, a: int, b: int)
    requires n <= |lines|
    requires var st := Layout(lines, kind, n); a in st.instructionMemory && b in st.instructionMemory && a < b
    ensures var st := Layout(lines, kind, n); st.instructionMemory[a].lineNumber < st.instructionMemory[b].lineNumber
  {
    LayoutShape(lines, kind, n);
    var st := Layout(lines, kind, n);
    assert Slot(lines, kind, n, a, st.instructionMemory[a]);
    assert Slot(lines, kind, n, b, st.instructionMemory[b]);
    var la := st.instructionMemory[a].lineNumber;
    var lb := st.instructionMemory[b].lineNumber;
    EmitCountOrdered(lines, kind, la - 1, lb - 1);
  }

  /** The index of the first of the first `n` lines that defines label `name`. */
  function FirstLabel(lines: seq<string>, kind: string -> LineKind, n: nat, name: string): (j: Option<nat>)
    requires n <= |lines|
    ensures j.Some? ==> j.value < n
  {
    if n == 0 then None
    else if FirstLabel(lines, kind, n - 1, name).Some? then FirstLabel(lines, kind, n - 1, name)
    else if kind(lines[n - 1]).labelName == Some(name) then Some(n - 1)
    else None
  }

  /** `FirstLabel` finds the earliest definition of the label, and reports none only when no line defines it. */
  lemma {:induction false} FirstLabelSpec(lines: seq<string>, kind: string -> LineKind, n: nat, name: string)
    requires n <= |lines|
    ensures match FirstLabel(lines, kind, n, name)
      case Some(j) =>
        kind(lines[j]).labelName == Some(name) && forall x :: 0 <= x < j ==> kind(lines[x]).labelName != Some(name)
      case None =>
        forall x :: 0 <= x < n ==> kind(lines[x]).labelName != Some(name)
  {
    if n > 0 {
      FirstLabelSpec(lines, kind, n - 1, name);
    }
  }

  /**
   * A name is in the label table exactly when some line defines it, and it
   * maps to the address the first definition was seen at; later definitions
   * of the same name change nothing.
   */
  lemma {:induction false} LayoutLabels(lines: seq<string>, kind: string -> LineKind, n: nat, name: string)
    requires n <= |lines|
    ensures var st := Layout(lines, kind, n);
      && (name in st.labelToPc <==> FirstLabel(lines, kind, n, name).Some?)
      && (name in st.labelToPc ==> st.labelToPc[name] == 4 * EmitCount(lines, kind, FirstLabel(lines, kind, n, name).value))
  {
    if n > 0 {
      LayoutLabels(lines, kind, n - 1, name);
      LayoutShape(lines, kind, n - 1);
    }
  }

  /** Labels are never removed or rebound as more lines are assembled. */
  lemma {:induction false} LabelsOnlyGrow(lines: seq<string>, kind: string -> LineKind, m: nat, n: nat, name: string)
    requires m <= n <= |lines|
    requires name in Layout(lines, kind, m).labelToPc
    ensures var st := Layout(lines, kind, n);
      name in st.labelToPc && st.labelToPc[name] == Layout(lines, kind, m).labelToPc[name]
    decreases n - m
  {
    if m < n {
      LabelsOnlyGrow(lines, kind, m, n - 1, name);
    }
  }

  /** The index of the first line at or after `j`, and before `n`, that takes a slot. */
  function NextEmitting(lines: seq<string>, kind: string -> LineKind, j: nat, n: nat): (m: Option<nat>)
    requires j <= n <= |lines|
    ensures m.Some? ==> j <= m.value < n && kind(lines[m.value]).emits
    decreases n - j
  {
    if j == n then None
    else if kind(lines[j]).emits then Some(j)
    else NextEmitting(lines, kind, j + 1, n)
  }

  /** Lines skipped on the way to the next slot-taking line take no slot, so the slot count does not move. */
  lemma {:induction false} NextEmittingCount(lines: seq<string>, kind: string -> LineKind, j: nat, n: nat)
    requires j <= n <= |lines|
    ensures match NextEmitting(lines, kind, j, n)
      case Some(m) =>
        EmitCount(lines, kind, m) == EmitCount(lines, kind, j) && forall x :: j <= x < m ==> !kind(lines[x]).emits
      case None =>
        EmitCount(lines, kind, n) == EmitCount(lines, kind, j) && forall x :: j <= x < n ==> !kind(lines[x]).emits
    decreases n - j
  {
    if j < n && !kind(lines[j]).emits {
      NextEmittingCount(lines, kind, j + 1, n);
    }
  }

  /**
   * The address a label is bound to is the slot of the first instruction at or
   * after the label's line; when no instruction follows, it is the address just
   * past the last instruction and holds nothing.
   */
  lemma LabelTarget(lines: seq<string>, kind: string -> LineKind, n: nat, name: string)
    requires n <= |lines|
    requires name in Layout(lines, kind, n).labelToPc
    ensures var st := Layout(lines, kind, n);
      && FirstLabel(lines, kind, n, name).Some?
      && match NextEmitting(lines, kind, FirstLabel(lines, kind, n, name).value, n)
        case Some(m) =>
          st.labelToPc[name] in st.instructionMemory
          && st.instructionMemory[st.labelToPc[name]] == InstrData(m + 1, lines[m])
        case None =>
          st.labelToPc[name] == st.pc && st.labelToPc[name] !in st.instructionMemory
  {
    LayoutLabels(lines, kind, n, name);
    LayoutShape(lines, kind, n);
    var j := FirstLabel(lines, kind, n, name).value;
    NextEmittingCount(lines, kind, j, n);
    match NextEmitting(lines, kind, j, n)
    case Some(m) =>
      EmittedLinesPlaced(lines, kind, n, m);
    case None =>
  }

  /** A line that is blank once its comment is removed defines no label and takes no slot. */
  lemma BlankLine(line: string)
    requires AllSpace(BeforeComment(line))
    ensures Classify(line) == LineKind(None, false)
  {
    StripSpec(BeforeComment(line));
  }

  /**
   * A line with text that does not end in a colon (comment and surrounding
   * whitespace aside) takes a slot and defines no label, even when it starts
   * with `name:`.
   */
  lemma InstructionLine(line: string)
    requires !AllSpace(BeforeComment(line))
    requires var t := Clean(line); t != [] ==> t[|t| - 1] != ':'
    ensures Classify(line) == LineKind(None, true)
  {
    StripSpec(BeforeComment(line));
  }

  /**
   * A line that ends in a colon defines the label spelled by everything before
   * the colon, unless that is blank, and takes a slot exactly when that text
   * holds two or more words.
   */
  lemma LabelLine(line: string)
    requires IsLabelLine(line)
    ensures var t := Clean(line); var body := t[..|t| - 1];
      && (Classify(line).labelName.Some? <==> !AllSpace(body))
      && (Classify(line).labelName.Some? ==> Classify(line).labelName.value == Strip(body))
      && (Classify(line).emits <==> HasTwoWords(body))
  {
    var t := Clean(line);
    var body := t[..|t| - 1];
    StripSpec(body);
    SplitOnceSpec(body);
  }

  /**
   * The assembler's result for a whole text is laid out as `LayoutShape`
   * says, over the text's `splitlines` lines under their own classification:
   * consecutive 4-byte slots from 0, each holding the line that took it.
   */
  lemma AssembleLayout(code: string)
    ensures var lines := SplitLines(code);
      Shaped(lines, Classify, |lines|, Assemble(code))
  {
    var lines := SplitLines(code);
    RunIsLayout(lines, |lines|);
    LayoutShape(lines, Classify, |lines|);
  }

  /**
   * In the assembler's result for a whole text, a label is bound exactly when
   * some line defines it, to the slot of the first instruction at or after its
   * first definition, or to the address past the last instruction when none
   * follows.
   */
  lemma AssembleLabels(code: string, name: string)
    ensures var lines := SplitLines(code); var st := Assemble(code);
      && (name in st.labelToPc <==> FirstLabel(lines, Classify, |lines|, name).Some?)
      && (name in st.labelToPc ==>
            match NextEmitting(lines, Classify, FirstLabel(lines, Classify, |lines|, name).value, |lines|)
            case Some(m) =>
              st.labelToPc[name] in st.instructionMemory
              && st.instructionMemory[st.labelToPc[name]] == InstrData(m + 1, lines[m])
            case None =>
              st.labelToPc[name] == st.pc && st.labelToPc[name] !in st.instructionMemory)
  {
    var lines := SplitLines(code);
    RunIsLayout(lines, |lines|);
    LayoutLabels(lines, Classify, |lines|, name);
    if name in Assemble(code).labelToPc {
      LabelTarget(lines, Classify, |lines|, name);
    }
  }
}
