/**
 * The LS-8 opcode bytes and the branch table that maps each of them to a
 * handler (ls8/cpu.py, the module constants and CPU.__init__).
 */
module Opcodes {
  import opened Results

  const ADD  := 0xA0  // 0b10100000
  const CALL := 80
  const CMP  := 0xA7  // 0b10100111
  const DEC  := 0x66  // 0b01100110
  const HLT  := 1
  const IRET := 19    // declared, but never registered in the branch table
  const JEQ  := 0x55  // 0b01010101
  const JMP  := 0x54  // 0b01010100
  const JNE  := 0x56  // 0b01010110
  const LDI  := 130
  const MUL  := 162
  const POP  := 0x46  // 0b01000110
  const PRN  := 71
  const PUSH := 0x45  // 0b01000101
  const RET  := 17
  const ST   := 132

  /** The fifteen instructions that have a handler in the branch table. */
  datatype Instr =
    | Add | Call | Cmp | Dec | Hlt | Jeq | Jmp | Jne
    | Ldi | Mul | Pop | Prn | Push | Ret | St

  /** The opcode byte under which an instruction's handler is registered. */
  function Opcode(i: Instr): int {
    match i
    case Add => ADD
    case Call => CALL
    case Cmp => CMP
    case Dec => DEC
    case Hlt => HLT
    case Jeq => JEQ
    case Jmp => JMP
    case Jne => JNE
    case Ldi => LDI
    case Mul => MUL
    case Pop => POP
    case Prn => PRN
    case Push => PUSH
    case Ret => RET
    case St => ST
  }

  /** The set of keys of the branch table. */
  const Registered: set<int> :=
    {ADD, CALL, CMP, DEC, HLT, JEQ, JMP, JNE, LDI, MUL, POP, PRN, PUSH, RET, ST}

  /**
   * Branch-table lookup: the handler registered for a fetched byte, or None
   * where the dictionary lookup in `run` would raise KeyError.
   */
  function Decode(b: int): (r: Option<Instr>)
    ensures r.Some? <==> b in Registered
    ensures r.Some? ==> Opcode(r.value) == b
    ensures r.None? ==> forall i: Instr :: Opcode(i) != b
  {
    if b == ADD then Some(Add)
    else if b == CALL then Some(Call)
    else if b == CMP then Some(Cmp)
    else if b == DEC then Some(Dec)
    else if b == HLT then Some(Hlt)
    else if b == JEQ then Some(Jeq)
    else if b == JMP then Some(Jmp)
    else if b == JNE then Some(Jne)
    else if b == LDI then Some(Ldi)
    else if b == MUL then Some(Mul)
    else if b == POP then Some(Pop)
    else if b == PRN then Some(Prn)
    else if b == PUSH then Some(Push)
    else if b == RET then Some(Ret)
    else if b == ST then Some(St)
    else None
  }

  /** Every registered handler is found again under its own opcode. */
  lemma DecodeOpcode(i: Instr)
    ensures Decode(Opcode(i)) == Some(i)
  {
  }

  /** IRET has an opcode constant but no handler, so fetching it fails. */
  lemma IretUnregistered()
    ensures IRET !in Registered
    ensures Decode(IRET) == None
  {
  }
}
