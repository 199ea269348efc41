/**
 * The arithmetic/logic unit of ls8/cpu.py (CPU.alu). Operations are named by
 * strings, as in the source; results are NOT reduced to a byte, because the
 * source never masks them.
 */
module Alu {
  import opened Results

  datatype AluOp = Add | Dec | Mul

  /** The operation name a handler passes to `alu`. */
  function Name(op: AluOp): string {
    match op
    case Add => "ADD"
    case Dec => "DEC"
    case Mul => "MUL"
  }

  /**
   * The operation selected by a name; None for every name the if-chain in
   * `alu` does not list, where the source raises "Unsupported ALU operation".
   */
  function OpNamed(name: string): (r: Option<AluOp>)
    ensures r.Some? <==> name in {"ADD", "DEC", "MUL"}
    ensures r.Some? ==> Name(r.value) == name
  {
    if name == "ADD" then Some(Add)
    else if name == "DEC" then Some(Dec)
    else if name == "MUL" then Some(Mul)
    else None
  }

  /** The new value of register A, given the old values of registers A and B. */
  function Apply(op: AluOp, a: int, b: int): int {
    match op
    case Add => a + b
    case Dec => a - b
    case Mul => a * b
  }

  /** Each handler's name selects its own operation again. */
  lemma NameRoundTrip(op: AluOp)
    ensures OpNamed(Name(op)) == Some(op)
  {
  }

  /** DEC by the same operand undoes ADD, since nothing wraps. */
  lemma DecUndoesAdd(a: int, b: int)
    ensures Apply(Dec, Apply(Add, a, b), b) == a
  {
  }

  /** Results leave the byte range: 255 + 1 is stored as 256, 0 - 1 as -1. */
  lemma NoByteWrap()
    ensures Apply(Add, 255, 1) == 256
    ensures Apply(Dec, 0, 1) == -1
  {
  }
}
