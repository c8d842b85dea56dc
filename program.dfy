/**
 * Values shared by the assembler and the simulator.
 */
module Program {

  datatype Option<+T> = None | Some(value: T)

  /**
   * What the assembler stores for one instruction slot: the 1-based number of
   * the source line and that line's original text, comment and indentation
   * included. No machine code is produced.
   */
  datatype InstrData = InstrData(lineNumber: nat, text: string)
}
