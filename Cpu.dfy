/**
 * The CPU class of ls8/cpu.py with its state updated in place: `ram` and
 * `reg` are arrays, `pc`, `fl` and `running` fields, and the PRN output is a
 * sequence field. Each handler is a method whose frame names exactly what it
 * may change and whose postcondition ties the new state to the handler's
 * specification in module Machine.
 */
module Cpu {
  import opened Results
  import Opcodes
  import opened Machine
  import Ops = Alu
  import Loader

  class CPU {
    const ram: array<int>
    const reg: array<int>
    var pc: int
    var fl: int
    var running: bool
    /** The values PRN has printed, oldest first. */
    var out: seq<int>

    ghost predicate Valid()
      reads this
    {
      ram.Length == RamSize && reg.Length == RegCount && fl in {0, 1, 2, 4}
    }

    /** The CPU state as a value. */
    ghost function Snapshot(): (s: State)
      reads this, ram, reg
      requires Valid()
      ensures Wf(s)
    {
      State(ram[..], reg[..], pc, fl, running, out)
    }

    /** A fresh CPU: zeroed RAM and registers, except R7 (the stack pointer) = 0xF4. */
    constructor ()
      ensures Valid() && fresh(ram) && fresh(reg)
      ensures forall i :: 0 <= i < RamSize ==> ram[i] == 0
      ensures reg[..] == [0, 0, 0, 0, 0, 0, 0, 0xF4]
      ensures pc == 0 && fl == 0 && running && out == []
    {
      ram := new int[RamSize](_ => 0);
      reg := new int[RegCount](i => if i == SP then 0xF4 else 0);
      pc := 0;
      fl := 0;
      running := true;
      out := [];
    }

    method RamRead(address: int) returns (r: Result<int, Fault>)
      requires Valid()
      ensures r == RamAt(Snapshot(), address)
    {
      var k :- RamSlot(address);
      r := Ok(ram[k]);
    }

    method RamWrite(value: int, address: int) returns (r: Result<(), Fault>)
      requires Valid()
      modifies ram
      ensures Valid()
      ensures Agrees(WriteRam(old(Snapshot()), address, value), r, old(Snapshot()), Snapshot())
      ensures r.Err? ==> ram[..] == old(ram[..])
      ensures 0 <= address < RamSize ==> r.Ok? && ram[..] == old(ram[..])[address := value]
    {
      var k :- RamSlot(address);
      ram[k] := value;
      r := Ok(());
    }

    /**
     * The parse loop of `load`: each line's value goes to the next address,
     * starting at 0. It stops at the first line `int(_, 2)` rejects, or at
     * the 257th value, which `ram_write` cannot store. RAM beyond the stored
     * values keeps its contents (zero on a fresh CPU). The lines are parsed
     * before the loop rather than inside it; parsing is pure and total, so
     * the loop stores and stops exactly as the line-by-line loop does.
     */
    method Load(lines: seq<string>) returns (r: Result<(), Loader.LoadError>)
      requires Valid()
      modifies ram
      ensures Valid()
      ensures var sc := Loader.Load(lines);
        ram[..] == sc.values + old(ram[..])[|sc.values|..] &&
        (r.Ok? <==> sc.error.None?) && (r.Err? ==> sc.error == Some(r.error))
    {
      var parsed := Loader.ParseLines(lines);
      var address := 0;
      var i := 0;
      while i < |lines|
        invariant 0 <= i <= |lines| && 0 <= address <= Loader.Capacity
        invariant Loader.Place(parsed[..i]) == Loader.Scan(ram[..address], None)
        invariant ram[address..] == old(ram[..])[address..]
      {
        Loader.PlaceStep(parsed, i, ram[..address]);
        match parsed[i] {
          case Blank =>
          case Invalid(num) =>
            return Err(Loader.NotBinary(i, num));
          case Value(value) =>
            ghost var before := ram[..];
            var w := RamWrite(value, address);
            if w.Err? {
              return Err(Loader.AddressOutOfRange(address));
            }
            StoredNext(before, ram[..], old(ram[..]), address, value);
            address := address + 1;
        }
        i := i + 1;
      }
      assert parsed[..i] == parsed;
      r := Ok(());
    }

    /** Storing `v` at the first cell past the stored prefix `a[..k]` extends that prefix. */
    static lemma StoredNext(a: seq<int>, b: seq<int>, orig: seq<int>, k: nat, v: int)
      requires k < |a| == |orig| && b == a[k := v] && a[k..] == orig[k..]
      ensures b[..k + 1] == a[..k] + [v] && b[k + 1..] == orig[k + 1..]
    {
      assert a[k + 1..] == orig[k + 1..];
    }

    /** The ALU: register A := op(A, B) for the named operation. */
    method Alu(name: string, regA: int, regB: int) returns (r: Result<(), Fault>)
      requires Valid()
      modifies reg
      ensures Valid()
      ensures Agrees(AluStep(old(Snapshot()), name, regA, regB), r, old(Snapshot()), Snapshot())
    {
      var op := Ops.OpNamed(name);
      if op.None? {
        return Err(UnsupportedAluOperation(name));
      }
      var ka :- RegSlot(regA);
      var kb :- RegSlot(regB);
      reg[ka] := Ops.Apply(op.value, reg[ka], reg[kb]);
      r := Ok(());
    }

    method HandleLdi() returns (r: Result<(), Fault>)
      requires Valid()
      modifies this`pc, reg
      ensures Valid()
      ensures Agrees(Machine.Ldi(old(Snapshot())), r, old(Snapshot()), Snapshot())
    {
      var a :- RamRead(pc + 1);
      var b :- RamRead(pc + 2);
      var ka :- RegSlot(a);
      reg[ka] := b;
      pc := pc + 3;
      r := Ok(());
    }

    method HandlePrn() returns (r: Result<(), Fault>)
      requires Valid()
      modifies this`out, this`pc
      ensures Valid()
      ensures Agrees(Machine.Prn(old(Snapshot())), r, old(Snapshot()), Snapshot())
    {
      var a :- RamRead(pc + 1);
      var ka :- RegSlot(a);
      out := out + [reg[ka]];
      pc := pc + 2;
      r := Ok(());
    }

    method HandleHlt() returns (r: Result<(), Fault>)
      requires Valid()
      modifies this`running
      ensures Valid()
      ensures Agrees(Machine.Hlt(old(Snapshot())), r, old(Snapshot()), Snapshot())
    {
      running := false;
      r := Ok(());
    }

    /** handle_add, handle_dec and handle_mul, which differ only in the ALU operation's name. */
    method HandleArith(name: string) returns (r: Result<(), Fault>)
      requires Valid()
      modifies this`pc, reg
      ensures Valid()
      ensures Agrees(Arith(old(Snapshot()), name), r, old(Snapshot()), Snapshot())
    {
      var a :- RamRead(pc + 1);
      var b :- RamRead(pc + 2);
      r := Alu(name, a, b);
      if r.Err? {
        return;
      }
      pc := pc + 3;
    }

    method HandlePush() returns (r: Result<(), Fault>)
      requires Valid()
      modifies this`pc, reg, ram
      ensures Valid()
      ensures Agrees(Machine.Push(old(Snapshot())), r, old(Snapshot()), Snapshot())
    {
      var a :- RamRead(pc + 1);
      var ka :- RegSlot(a);
      var v := reg[ka];
      reg[SP] := reg[SP] - 1;
      r := RamWrite(v, reg[SP]);
      if r.Err? {
        return;
      }
      pc := pc + 2;
    }

    method HandlePop() returns (r: Result<(), Fault>)
      requires Valid()
      modifies this`pc, reg
      ensures Valid()
      ensures Agrees(Machine.Pop(old(Snapshot())), r, old(Snapshot()), Snapshot())
    {
      var a :- RamRead(pc + 1);
      var v :- RamRead(reg[SP]);
      var ka :- RegSlot(a);
      reg[ka] := v;
      reg[SP] := reg[SP] + 1;
      pc := pc + 2;
      r := Ok(());
    }

    method HandleCall() returns (r: Result<(), Fault>)
      requires Valid()
      modifies this`pc, reg, ram
      ensures Valid()
      ensures Agrees(Machine.Call(old(Snapshot())), r, old(Snapshot()), Snapshot())
    {
      var retLoc := pc + 2;
      reg[SP] := reg[SP] - 1;
      r := RamWrite(retLoc, reg[SP]);
      if r.Err? {
        return;
      }
      var a :- RamRead(pc + 1);
      var ka :- RegSlot(a);
      pc := reg[ka];
    }

    method HandleRet() returns (r: Result<(), Fault>)
      requires Valid()
      modifies this`pc, reg
      ensures Valid()
      ensures Agrees(Machine.Ret(old(Snapshot())), r, old(Snapshot()), Snapshot())
    {
      var retAddr := reg[SP];
      var target :- RamRead(retAddr);
      pc := target;
      reg[SP] := reg[SP] + 1;
      r := Ok(());
    }

    /** handle_st: changes one RAM cell; its frame leaves out `pc`, which it never advances. */
    method HandleSt() returns (r: Result<(), Fault>)
      requires Valid()
      modifies ram
      ensures Valid()
      ensures Agrees(Machine.St(old(Snapshot())), r, old(Snapshot()), Snapshot())
    {
      var a :- RamRead(pc + 1);
      var b :- RamRead(pc + 2);
      var kb :- RegSlot(b);
      var v := reg[kb];
      var ka :- RegSlot(a);
      r := RamWrite(v, reg[ka]);
    }

    method HandleCmp() returns (r: Result<(), Fault>)
      requires Valid()
      modifies this`fl, this`pc
      ensures Valid()
      ensures Agrees(Machine.Cmp(old(Snapshot())), r, old(Snapshot()), Snapshot())
    {
      var a :- RamRead(pc + 1);
      var b :- RamRead(pc + 2);
      var ka :- RegSlot(a);
      var kb :- RegSlot(b);
      fl := CompareFlag(reg[ka], reg[kb]);
      pc := pc + 3;
      r := Ok(());
    }

    method HandleJmp() returns (r: Result<(), Fault>)
      requires Valid()
      modifies this`pc
      ensures Valid()
      ensures Agrees(Machine.Jmp(old(Snapshot())), r, old(Snapshot()), Snapshot())
    {
      var a :- RamRead(pc + 1);
      var ka :- RegSlot(a);
      pc := reg[ka];
      r := Ok(());
    }

    method HandleJne() returns (r: Result<(), Fault>)
      requires Valid()
      modifies this`pc
      ensures Valid()
      ensures Agrees(Machine.Jne(old(Snapshot())), r, old(Snapshot()), Snapshot())
    {
      if !EqualSet(fl) {
        r := HandleJmp();
      } else {
        pc := pc + 2;
        r := Ok(());
      }
    }

    method HandleJeq() returns (r: Result<(), Fault>)
      requires Valid()
      modifies this`pc
      ensures Valid()
      ensures Agrees(Machine.Jeq(old(Snapshot())), r, old(Snapshot()), Snapshot())
    {
      if EqualSet(fl) {
        r := HandleJmp();
      } else {
        pc := pc + 2;
        r := Ok(());
      }
    }

    /** One iteration of `run`: fetch the opcode at pc and dispatch through the branch table. */
    method Step() returns (r: Result<(), Fault>)
      requires Valid()
      modifies this`pc, this`fl, this`running, this`out, ram, reg
      ensures Valid()
      ensures Agrees(Machine.Step(old(Snapshot())), r, old(Snapshot()), Snapshot())
    {
      var ir :- RamRead(pc);
      var handler := Opcodes.Decode(ir);
      if handler.None? {
        return Err(UnknownOpcode(pc, ir));
      }
      match handler.value
      case Add => r := HandleArith("ADD");
      case Call => r := HandleCall();
      case Cmp => r := HandleCmp();
      case Dec => r := HandleArith("DEC");
      case Hlt => r := HandleHlt();
      case Jeq => r := HandleJeq();
      case Jmp => r := HandleJmp();
      case Jne => r := HandleJne();
      case Ldi => r := HandleLdi();
      case Mul => r := HandleArith("MUL");
      case Pop => r := HandlePop();
      case Prn => r := HandlePrn();
      case Push => r := HandlePush();
      case Ret => r := HandleRet();
      case St => r := HandleSt();
    }

    /**
     * `run`, cut off after `fuel` instructions: it sets the running flag and
     * steps until HLT clears it, a step faults, or the fuel is used up.
     */
    method Run(fuel: nat) returns (status: Status)
      requires Valid()
      modifies this`pc, this`fl, this`running, this`out, ram, reg
      ensures Valid()
      ensures var o := Machine.Run(old(Snapshot()), fuel);
        status == o.status && out == o.final.out && (!status.Crashed? ==> Snapshot() == o.final)
    {
      running := true;
      var n := fuel;
      while running && n > 0
        invariant Valid()
        invariant Machine.Run(old(Snapshot()), fuel) == Loop(Snapshot(), n)
        decreases n
      {
        var r := Step();
        if r.Err? {
          return Crashed(r.error);
        }
        n := n - 1;
      }
      status := if running then OutOfFuel else Halted;
    }
  }
}
