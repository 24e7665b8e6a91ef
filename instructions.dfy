/**
 * The instruction set of the stack-based machine (SBM): one constructor per
 * opcode, each carrying only the operands that opcode needs.
 */
module Instructions {

  /** Number of slots in the memory bank. */
  const MemorySize: nat := 10

  /** A memory-bank address, `m0` to `m9`. */
  type Address = a: nat | a < MemorySize

  datatype Instruction =
    | Exit
    | PushLiteral(value: real)
    | PushLocation(address: Address)
    | Pop(address: Address)
    | Add
    | Sub
    | Mul
    | Div
    | Label(name: string)
    | Jmpz(target: string)
    | Jmp(target: string)
    | Dec

  /** The four binary arithmetic opcodes. */
  predicate IsArithmetic(i: Instruction)
  {
    i.Add? || i.Sub? || i.Mul? || i.Div?
  }

  /** The opcodes that assign the program counter from a label lookup. */
  predicate IsJump(i: Instruction)
  {
    i.Jmpz? || i.Jmp?
  }
}
