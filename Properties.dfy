/**
 * What the handlers of ls8/cpu.py promise, stated over the specification in
 * module Machine: which cells each instruction changes, how far it moves
 * `pc`, the PUSH/POP and CALL/RET round trips, the CMP flag and the
 * conditional branches, dispatch failures, and how `run` stops.
 */
module Properties {
  import opened Results
  import opened Opcodes
  import opened Machine
  import Alu

  /** The value of the register named by the operand byte `n` cells after the opcode. */
  function RegValue(s: State, n: int): Result<int, Fault>
    requires Wf(s)
  {
    var a :- Operand(s, n);
    RegAt(s, a)
  }

  /** Nothing but `reg` and `pc` differs between two states. */
  ghost predicate OnlyRegsAndPc(s: State, t: State) {
    t.ram == s.ram && t.fl == s.fl && t.running == s.running && t.out == s.out
  }

  // ---------------------------------------------------------------- dispatch

  /**
   * A fetched byte without a handler (IRET among them) makes the step fail
   * with UnknownOpcode at the current pc; a registered handler never reports
   * that fault.
   */
  lemma UnknownOpcodeIff(s: State, b: int)
    requires Wf(s) && RamAt(s, s.pc) == Ok(b)
    ensures Step(s) == Err(UnknownOpcode(s.pc, b)) <==> b !in Registered
  {
    if b in Registered {
      var i := Decode(b).value;
      assert Step(s) == Execute(s, i);
      if Execute(s, i).Err? {
        ExecuteFaults(s, i);
      }
    }
  }

  /**
   * The faults a handler can raise: IndexErrors only. In particular the ALU's
   * "unsupported operation" is unreachable, since the handlers pass only the
   * names "ADD", "DEC" and "MUL".
   */
  lemma ExecuteFaults(s: State, i: Instr)
    requires Wf(s) && Execute(s, i).Err?
    ensures Execute(s, i).error.RamIndexError? || Execute(s, i).error.RegIndexError?
  {
  }

  // ---------------------------------------------------------------- HLT, LDI, PRN, ST

  /** HLT clears `running` and changes nothing else; in particular pc stays put. */
  lemma HltEffect(s: State)
    requires Wf(s) && Fetches(s, Instr.Hlt)
    ensures Step(s) == Ok(s.(running := false))
  {
  }

  /** The only instruction that changes the running flag is HLT. */
  lemma OnlyHltStops(s: State)
    requires Wf(s) && Step(s).Ok? && !Fetches(s, Instr.Hlt)
    ensures Step(s).value.running == s.running
  {
    var i := Decode(RamAt(s, s.pc).value).value;
    assert Step(s) == Execute(s, i);
    ExecuteKeepsRunning(s, i);
  }

  lemma ExecuteKeepsRunning(s: State, i: Instr)
    requires Wf(s) && i != Instr.Hlt && Execute(s, i).Ok?
    ensures Execute(s, i).value.running == s.running
  {
    match i
    case Add =>
    case Call =>
    case Cmp =>
    case Dec =>
    case Hlt =>
    case Jeq =>
    case Jmp =>
    case Jne =>
    case Ldi =>
    case Mul =>
    case Pop =>
    case Prn =>
    case Push =>
    case Ret =>
    case St =>
  }

  /** LDI sets exactly one register, to the immediate byte, and advances pc by 3. */
  lemma LdiEffect(s: State)
    requires Wf(s) && Fetches(s, Instr.Ldi) && Step(s).Ok?
    ensures RegOperand(s, 1).Ok? && Operand(s, 2).Ok?
    ensures var t := Step(s).value;
      t.reg == s.reg[RegOperand(s, 1).value := Operand(s, 2).value] &&
      t.pc == s.pc + 3 && OnlyRegsAndPc(s, t)
  {
  }

  /** PRN appends the named register's value to the output and advances pc by 2. */
  lemma PrnEffect(s: State)
    requires Wf(s) && Fetches(s, Instr.Prn) && Step(s).Ok?
    ensures RegValue(s, 1).Ok?
    ensures Step(s) == Ok(s.(out := s.out + [RegValue(s, 1).value], pc := s.pc + 2))
  {
  }

  /**
   * ST writes exactly one RAM cell, the one register A addresses, with the
   * value of register B. It does not advance pc, so the ST runs again.
   */
  lemma StEffect(s: State)
    requires Wf(s) && Fetches(s, Instr.St) && Step(s).Ok?
    ensures RegValue(s, 1).Ok? && RegValue(s, 2).Ok? && RamSlot(RegValue(s, 1).value).Ok?
    ensures var t := Step(s).value;
      t.ram == s.ram[RamSlot(RegValue(s, 1).value).value := RegValue(s, 2).value] &&
      t.reg == s.reg && t.pc == s.pc && t.fl == s.fl && t.running == s.running && t.out == s.out
    ensures RamSlot(RegValue(s, 1).value).value != RamSlot(s.pc).value ==> Fetches(Step(s).value, Instr.St)
  {
  }

  // ---------------------------------------------------------------- ALU handlers

  /** The ALU operation each arithmetic handler names. */
  function AluOf(i: Instr): Alu.AluOp
    requires i in {Instr.Add, Instr.Dec, Instr.Mul}
  {
    match i
    case Add => Alu.Add
    case Dec => Alu.Dec
    case Mul => Alu.Mul
  }

  /**
   * ADD, DEC and MUL replace register A by A+B, A-B and A*B and change no
   * other register (register B keeps its value unless it is register A),
   * no RAM cell and no flag; pc advances by 3.
   */
  lemma ArithEffect(s: State, i: Instr)
    requires Wf(s) && i in {Instr.Add, Instr.Dec, Instr.Mul}
    requires Fetches(s, i) && Step(s).Ok?
    ensures RegOperand(s, 1).Ok? && RegOperand(s, 2).Ok?
    ensures var t, ka, kb := Step(s).value, RegOperand(s, 1).value, RegOperand(s, 2).value;
      t.reg == s.reg[ka := Alu.Apply(AluOf(i), s.reg[ka], s.reg[kb])] &&
      (ka != kb ==> t.reg[kb] == s.reg[kb]) &&
      t.pc == s.pc + 3 && OnlyRegsAndPc(s, t)
  {
  }

  /**
   * ADD Ra,Rb followed by DEC Ra,Rb (two distinct registers) restores every
   * register, since nothing wraps; RAM, flags and output are untouched and
   * pc has moved past both instructions.
   */
  lemma AddThenDec(s: State)
    requires Wf(s) && Fetches(s, Instr.Add) && Step(s).Ok?
    requires var s1 := Step(s).value;
      Fetches(s1, Instr.Dec) && Step(s1).Ok? &&
      RegOperand(s1, 1) == RegOperand(s, 1) && RegOperand(s1, 2) == RegOperand(s, 2)
    requires RegOperand(s, 1) != RegOperand(s, 2)
    ensures var s2 := Step(Step(s).value).value;
      s2.reg == s.reg && s2.pc == s.pc + 6 && OnlyRegsAndPc(s, s2)
  {
    var s1 := Step(s).value;
    ArithEffect(s, Instr.Add);
    ArithEffect(s1, Instr.Dec);
    var ka, kb := RegOperand(s, 1).value, RegOperand(s, 2).value;
    assert s1.reg[kb] == s.reg[kb];
    Alu.DecUndoesAdd(s.reg[ka], s.reg[kb]);
  }

  // ---------------------------------------------------------------- stack

  /**
   * PUSH Rx followed by POP Ry copies the old value of Rx into Ry and puts the
   * stack pointer back where it was; each advances pc by 2. (POP R7 is
   * excluded: the source increments R7 after storing the popped value in it.)
   */
  lemma PushThenPop(s: State)
    requires Wf(s) && Fetches(s, Instr.Push) && Step(s).Ok?
    requires var s1 := Step(s).value;
      Fetches(s1, Instr.Pop) && Step(s1).Ok? && RegOperand(s1, 1) != Ok(SP)
    ensures RegOperand(s, 1).Ok?
    ensures var s1 := Step(s).value; var s2 := Step(s1).value;
      RegOperand(s1, 1).Ok? &&
      s2.reg[RegOperand(s1, 1).value] == s.reg[RegOperand(s, 1).value] &&
      s2.reg[SP] == s.reg[SP] &&
      s1.pc == s.pc + 2 && s2.pc == s.pc + 4
  {
    var s1 := Step(s).value;
    assert Step(s) == Machine.Push(s);
    assert Step(s1) == Machine.Pop(s1);
  }

  /**
   * CALL Rx pushes the return address pc + 2 (SP decremented first) and jumps
   * to the address in Rx. A later RET, reached while SP and the cell it
   * addresses still hold what CALL left there, returns to pc + 2 and restores SP.
   */
  lemma CallThenRet(s: State, u: State)
    requires Wf(s) && Fetches(s, Instr.Call) && Step(s).Ok?
    requires Wf(u) && Fetches(u, Instr.Ret) && Step(u).Ok?
    requires var s1 := Step(s).value;
      u.reg[SP] == s1.reg[SP] && RamAt(u, u.reg[SP]) == RamAt(s1, s1.reg[SP])
    ensures var s1 := Step(s).value;
      s1.reg[SP] == s.reg[SP] - 1 && RamAt(s1, s1.reg[SP]) == Ok(s.pc + 2) &&
      RamAt(s1, s.pc + 1).Ok? && RegAt(s1, RamAt(s1, s.pc + 1).value) == Ok(s1.pc)
    ensures var v := Step(u).value;
      v.pc == s.pc + 2 && v.reg[SP] == s.reg[SP]
  {
    assert Step(s) == Machine.Call(s);
    assert Step(u) == Machine.Ret(u);
  }

  // ---------------------------------------------------------------- CMP and branches

  /**
   * CMP stores exactly one of Less, Greater, Equal, chosen by comparing the two
   * register values; it changes no register, no RAM cell, and advances pc by 3.
   */
  lemma CmpEffect(s: State)
    requires Wf(s) && Fetches(s, Instr.Cmp) && Step(s).Ok?
    ensures RegValue(s, 1).Ok? && RegValue(s, 2).Ok?
    ensures var t, x, y := Step(s).value, RegValue(s, 1).value, RegValue(s, 2).value;
      t.fl in {4, 2, 1} &&
      (t.fl == 4 <==> x < y) && (t.fl == 2 <==> x > y) && (t.fl == 1 <==> x == y) &&
      t.reg == s.reg && t.ram == s.ram && t.running == s.running && t.out == s.out &&
      t.pc == s.pc + 3
  {
  }

  /** JMP sets pc to the named register's value and changes nothing else. */
  lemma JmpEffect(s: State)
    requires Wf(s) && Fetches(s, Instr.Jmp) && Step(s).Ok?
    ensures RegValue(s, 1).Ok?
    ensures Step(s) == Ok(s.(pc := RegValue(s, 1).value))
  {
  }

  /**
   * JEQ jumps exactly when the Equal bit is set, JNE exactly when it is
   * clear; the one that does not jump advances pc by 2 and cannot fault.
   */
  lemma ConditionalBranches(s: State, i: Instr)
    requires Wf(s) && i in {Instr.Jeq, Instr.Jne} && Fetches(s, i)
    ensures var jumps := (i == Instr.Jeq) == EqualSet(s.fl);
      (jumps ==> Step(s) == Machine.Jmp(s)) &&
      (!jumps ==> Step(s) == Ok(s.(pc := s.pc + 2)))
  {
  }

  /** Only an equal comparison sets the Equal bit. */
  lemma EqualBitMeansEqual(x: int, y: int)
    ensures EqualSet(CompareFlag(x, y)) <==> x == y
  {
  }

  /**
   * CMP of a smaller value against a larger one, then JEQ: the JEQ does not
   * jump but falls through to the next instruction.
   */
  lemma LessThenJeqFallsThrough(s: State)
    requires Wf(s) && Fetches(s, Instr.Cmp) && Step(s).Ok?
    requires RegValue(s, 1).Ok? && RegValue(s, 2).Ok? && RegValue(s, 1).value < RegValue(s, 2).value
    requires Fetches(Step(s).value, Instr.Jeq)
    ensures var t := Step(s).value; Step(t) == Ok(t.(pc := s.pc + 5))
  {
    var t := Step(s).value;
    CmpEffect(s);
    assert !EqualSet(t.fl);
    ConditionalBranches(t, Instr.Jeq);
  }

  // ---------------------------------------------------------------- run

  /** A run that halts stops on a HLT instruction, which is still at pc. */
  lemma {:induction false} LoopHaltsAtHlt(s: State, fuel: nat)
    requires Wf(s) && s.running && Loop(s, fuel).status == Halted
    ensures Wf(Loop(s, fuel).final)
    ensures Fetches(Loop(s, fuel).final, Instr.Hlt) && !Loop(s, fuel).final.running
    decreases fuel
  {
    var t := Step(s).value;
    if t.running {
      LoopHaltsAtHlt(t, fuel - 1);
    } else {
      if !Fetches(s, Instr.Hlt) {
        OnlyHltStops(s);
      }
      HltEffect(s);
      assert Loop(t, fuel - 1).final == t;
    }
  }

  /** `run` ends in the Halted state only by executing HLT. */
  lemma RunHaltsAtHlt(s: State, fuel: nat)
    requires Wf(s) && Run(s, fuel).status == Halted
    ensures Wf(Run(s, fuel).final)
    ensures Fetches(Run(s, fuel).final, Instr.Hlt) && !Run(s, fuel).final.running
  {
    LoopHaltsAtHlt(s.(running := true), fuel);
  }

  /** A run that ended (halted or crashed) ends the same way with more fuel. */
  lemma {:induction false} MoreFuel(s: State, fuel: nat, more: nat)
    requires Wf(s) && fuel <= more && !Loop(s, fuel).status.OutOfFuel?
    ensures Loop(s, more) == Loop(s, fuel)
    decreases fuel, 0
  {
    if s.running && fuel > 0 {
      ContinueMoreFuel(s, Step(s), fuel - 1, more - 1);
    }
  }

  lemma {:induction false} ContinueMoreFuel(s: State, r: Result<State, Fault>, fuel: nat, more: nat)
    requires (r.Ok? ==> Wf(r.value)) && fuel <= more && !Continue(s, r, fuel).status.OutOfFuel?
    ensures Continue(s, r, more) == Continue(s, r, fuel)
    decreases fuel, 1
  {
    if r.Ok? {
      MoreFuel(r.value, fuel, more);
    }
  }
}
