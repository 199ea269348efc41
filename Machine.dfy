/**
 * The LS-8 CPU of ls8/cpu.py as a state-transition specification: one pure
 * function per handler, the fetch-decode step, and a fuel-bounded run loop.
 * The class in Cpu.dfy updates its arrays in place and is proved to agree
 * with these functions.
 *
 * Value ranges (a modelling decision). The source stores Python integers in
 * `ram` and `reg` and never masks them, so this model neither reduces values
 * mod 256 nor demands byte-sized values as a precondition: registers and RAM
 * cells are unbounded `int`s. Every list subscript is resolved as Python
 * resolves it (PyIndex): an index in [-n, n) selects a slot, a negative one
 * counting from the end, so a stack pointer of -1 addresses ram[255]; any
 * other index raises IndexError, which the model reports as a Fault.
 */
module Machine {
  import opened Results
  import opened Opcodes
  import Alu

  const RamSize := 256
  const RegCount := 8
  /** The register that holds the stack pointer (`self.sp`). */
  const SP := 7

  /** The exceptions a step of the source can raise. */
  datatype Fault =
    | RamIndexError(address: int)        // IndexError on `self.ram`
    | RegIndexError(index: int)          // IndexError on `self.reg`
    | UnknownOpcode(pc: int, opcode: int) // KeyError on `self.branchtable`
    | UnsupportedAluOperation(name: string)

  /** Everything a handler can read or change; `out` collects PRN's output. */
  datatype State = State(
    ram: seq<int>,
    reg: seq<int>,
    pc: int,
    fl: int,
    running: bool,
    out: seq<int>)

  /**
   * Shape of a CPU state: 256 RAM cells, 8 registers, and a flags register that
   * holds 0 (its initial value) or one of the three values CMP assigns.
   */
  ghost predicate Wf(s: State) {
    |s.ram| == RamSize && |s.reg| == RegCount && s.fl in {0, 1, 2, 4}
  }

  /** Python list subscripting: the slot that index `i` selects in a list of length `n`. */
  function PyIndex(i: int, n: nat): (k: Option<nat>)
    ensures k.Some? <==> -(n as int) <= i < n
    ensures k.Some? ==> k.value < n && (k.value == i || k.value == i + n)
  {
    if 0 <= i < n then Some(i)
    else if -(n as int) <= i < 0 then Some(i + n)
    else None
  }

  /** The RAM cell addressed by `address`, or the IndexError. */
  function RamSlot(address: int): Result<nat, Fault> {
    match PyIndex(address, RamSize)
    case Some(k) => Ok(k)
    case None => Err(RamIndexError(address))
  }

  /** The register selected by `index`, or the IndexError. */
  function RegSlot(index: int): Result<nat, Fault> {
    match PyIndex(index, RegCount)
    case Some(k) => Ok(k)
    case None => Err(RegIndexError(index))
  }

  /** `ram_read(address)`. */
  function RamAt(s: State, address: int): Result<int, Fault>
    requires Wf(s)
  {
    var k :- RamSlot(address);
    Ok(s.ram[k])
  }

  /** `self.reg[index]`. */
  function RegAt(s: State, index: int): Result<int, Fault>
    requires Wf(s)
  {
    var k :- RegSlot(index);
    Ok(s.reg[k])
  }

  /** `ram_write(value, address)`. */
  function WriteRam(s: State, address: int, value: int): (r: Result<State, Fault>)
    requires Wf(s)
    ensures r.Ok? ==> Wf(r.value)
  {
    var k :- RamSlot(address);
    Ok(s.(ram := s.ram[k := value]))
  }

  /** `self.reg[index] = value`. */
  function WriteReg(s: State, index: int, value: int): (r: Result<State, Fault>)
    requires Wf(s)
    ensures r.Ok? ==> Wf(r.value)
  {
    var k :- RegSlot(index);
    Ok(s.(reg := s.reg[k := value]))
  }

  /** The byte `n` cells after the opcode: `ram_read(self.pc + n)`. */
  function Operand(s: State, n: int): Result<int, Fault>
    requires Wf(s)
  {
    RamAt(s, s.pc + n)
  }

  /** The register slot named by the operand byte `n` cells after the opcode. */
  function RegOperand(s: State, n: int): Result<nat, Fault>
    requires Wf(s)
  {
    var a :- Operand(s, n);
    RegSlot(a)
  }

  /** The instruction whose opcode sits at `pc`. */
  ghost predicate Fetches(s: State, i: Instr)
    requires Wf(s)
  {
    RamAt(s, s.pc).Ok? && Decode(RamAt(s, s.pc).value) == Some(i)
  }

  /** The flag value CMP stores: Less 0b100, Greater 0b010, Equal 0b001. */
  function CompareFlag(x: int, y: int): (f: int)
    ensures f in {4, 2, 1}
    ensures f == 4 <==> x < y
    ensures f == 2 <==> x > y
    ensures f == 1 <==> x == y
  {
    if x < y then 4
    else if x > y then 2
    else 1
  }

  /** `(self.fl & 1) == 1`: the Equal bit (for an int, `& 1` is `% 2`). */
  predicate EqualSet(fl: int) {
    fl % 2 == 1
  }

  /** `alu(name, reg_a, reg_b)`: replaces register A by op(A, B). */
  function AluStep(s: State, name: string, regA: int, regB: int): Result<State, Fault>
    requires Wf(s)
  {
    match Alu.OpNamed(name)
    case None => Err(UnsupportedAluOperation(name))
    case Some(op) =>
      var a :- RegAt(s, regA);
      var b :- RegAt(s, regB);
      WriteReg(s, regA, Alu.Apply(op, a, b))
  }

  /** handle_ldi: reg[a] := b; pc += 3. */
  function Ldi(s: State): Result<State, Fault>
    requires Wf(s)
  {
    var a :- Operand(s, 1);
    var b :- Operand(s, 2);
    var s' :- WriteReg(s, a, b);
    Ok(s'.(pc := s.pc + 3))
  }

  /** handle_prn: emit reg[a]; pc += 2. */
  function Prn(s: State): Result<State, Fault>
    requires Wf(s)
  {
    var a :- Operand(s, 1);
    var v :- RegAt(s, a);
    Ok(s.(out := s.out + [v], pc := s.pc + 2))
  }

  /** handle_hlt: clears the running flag and nothing else. */
  function Hlt(s: State): Result<State, Fault> {
    Ok(s.(running := false))
  }

  /** handle_add, handle_dec, handle_mul: the ALU on (a, b); pc += 3. */
  function Arith(s: State, name: string): Result<State, Fault>
    requires Wf(s)
  {
    var a :- Operand(s, 1);
    var b :- Operand(s, 2);
    var s' :- AluStep(s, name, a, b);
    Ok(s'.(pc := s.pc + 3))
  }

  /** handle_push: SP -= 1; ram[SP] := reg[a]; pc += 2. */
  function Push(s: State): Result<State, Fault>
    requires Wf(s)
  {
    var a :- Operand(s, 1);
    var v :- RegAt(s, a);
    var sp := s.reg[SP] - 1;
    var s' :- WriteRam(s.(reg := s.reg[SP := sp]), sp, v);
    Ok(s'.(pc := s.pc + 2))
  }

  /** handle_pop: reg[a] := ram[SP]; then SP += 1 (after the write); pc += 2. */
  function Pop(s: State): Result<State, Fault>
    requires Wf(s)
  {
    var a :- Operand(s, 1);
    var v :- RamAt(s, s.reg[SP]);
    var s' :- WriteReg(s, a, v);
    Ok(s'.(reg := s'.reg[SP := s'.reg[SP] + 1], pc := s.pc + 2))
  }

  /**
   * handle_call: SP -= 1; ram[SP] := pc + 2; then the register operand is
   * read (after that write) and pc := its value.
   */
  function Call(s: State): Result<State, Fault>
    requires Wf(s)
  {
    var sp := s.reg[SP] - 1;
    var s' :- WriteRam(s.(reg := s.reg[SP := sp]), sp, s.pc + 2);
    var a :- Operand(s', 1);
    var target :- RegAt(s', a);
    Ok(s'.(pc := target))
  }

  /** handle_ret: pc := ram[SP]; SP += 1. */
  function Ret(s: State): Result<State, Fault>
    requires Wf(s)
  {
    var target :- RamAt(s, s.reg[SP]);
    Ok(s.(pc := target, reg := s.reg[SP := s.reg[SP] + 1]))
  }

  /** handle_st: ram[reg[a]] := reg[b]; pc is NOT advanced (as in the source). */
  function St(s: State): Result<State, Fault>
    requires Wf(s)
  {
    var a :- Operand(s, 1);
    var b :- Operand(s, 2);
    var v :- RegAt(s, b);
    var address :- RegAt(s, a);
    WriteRam(s, address, v)
  }

  /** handle_cmp: fl := CompareFlag(reg[a], reg[b]); pc += 3. */
  function Cmp(s: State): Result<State, Fault>
    requires Wf(s)
  {
    var a :- Operand(s, 1);
    var b :- Operand(s, 2);
    var x :- RegAt(s, a);
    var y :- RegAt(s, b);
    Ok(s.(fl := CompareFlag(x, y), pc := s.pc + 3))
  }

  /** handle_jmp: pc := reg[a]. */
  function Jmp(s: State): Result<State, Fault>
    requires Wf(s)
  {
    var a :- Operand(s, 1);
    var target :- RegAt(s, a);
    Ok(s.(pc := target))
  }

  /** handle_jeq: jump when the Equal bit is set, else pc += 2. */
  function Jeq(s: State): Result<State, Fault>
    requires Wf(s)
  {
    if EqualSet(s.fl) then Jmp(s) else Ok(s.(pc := s.pc + 2))
  }

  /** handle_jne: jump when the Equal bit is clear, else pc += 2. */
  function Jne(s: State): Result<State, Fault>
    requires Wf(s)
  {
    if !EqualSet(s.fl) then Jmp(s) else Ok(s.(pc := s.pc + 2))
  }

  /** The handler the branch table registers for each instruction. */
  function Execute(s: State, i: Instr): (r: Result<State, Fault>)
    requires Wf(s)
    ensures r.Ok? ==> Wf(r.value)
  {
    match i
    case Add => Arith(s, "ADD")
    case Call => Call(s)
    case Cmp => Cmp(s)
    case Dec => Arith(s, "DEC")
    case Hlt => Hlt(s)
    case Jeq => Jeq(s)
    case Jmp => Jmp(s)
    case Jne => Jne(s)
    case Ldi => Ldi(s)
    case Mul => Arith(s, "MUL")
    case Pop => Pop(s)
    case Prn => Prn(s)
    case Push => Push(s)
    case Ret => Ret(s)
    case St => St(s)
  }

  /**
   * One iteration of `run`: fetch the byte at pc and call its handler. Every
   * state it produces is again well formed.
   */
  function Step(s: State): (r: Result<State, Fault>)
    requires Wf(s)
    ensures r.Ok? ==> Wf(r.value)
  {
    var ir :- RamAt(s, s.pc);
    match Decode(ir)
    case None => Err(UnknownOpcode(s.pc, ir))
    case Some(i) => Execute(s, i)
  }

  /**
   * How an in-place implementation's step relates to the specification `spec`
   * of that step: on success it returns Ok and leaves exactly the specified
   * state; on a fault it returns the same fault and has printed nothing.
   * The rest of a faulting state is left open, because the exception ends
   * the source's process after a handler may have updated some cells.
   */
  ghost predicate Agrees(spec: Result<State, Fault>, r: Result<(), Fault>, before: State, after: State) {
    match spec
    case Ok(t) => r == Ok(()) && after == t
    case Err(e) => r == Err(e) && after.out == before.out
  }

  /** How a bounded run ended. */
  datatype Status = Halted | Crashed(fault: Fault) | OutOfFuel

  /** The status of a run and the state it left (before the faulting instruction, for a crash). */
  datatype Outcome = Outcome(status: Status, final: State)

  /** `while self.running: step`, cut off after `fuel` instructions. */
  function Loop(s: State, fuel: nat): Outcome
    requires Wf(s)
    decreases fuel, 1
  {
    if !s.running then Outcome(Halted, s)
    else if fuel == 0 then Outcome(OutOfFuel, s)
    else Continue(s, Step(s), fuel - 1)
  }

  /** The rest of the loop once the step from `s` has given `r`. */
  function Continue(s: State, r: Result<State, Fault>, fuel: nat): Outcome
    requires r.Ok? ==> Wf(r.value)
    decreases fuel, 2
  {
    match r
    case Err(f) => Outcome(Crashed(f), s)
    case Ok(t) => Loop(t, fuel)
  }

  /** `run`: sets the running flag, then loops. */
  function Run(s: State, fuel: nat): Outcome
    requires Wf(s)
  {
    Loop(s.(running := true), fuel)
  }
}
