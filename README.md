# LS-8 CPU emulator, modelled in Dafny

The LS-8 is an 8-bit teaching computer. `ls8/cpu.py` implements it as a
Python class `CPU` holding 256 RAM cells, eight registers (R7 is the stack
pointer, initially `0xF4`), a program counter, a flags register and a
running flag. `run` fetches the byte at `pc` and calls the handler that the
branch table registers for it; each handler reads its operand bytes after the
opcode, does its work (through `alu` for ADD, DEC and MUL) and moves `pc`.
`load` reads a program file of binary numerals, one per line, with `#`
comments and blank lines, into RAM from address 0.

The project has two layers.

- A specification over values. `Machine` gives one pure function per handler,
  the fetch-decode `Step`, and a run loop bounded by fuel. `Opcodes` holds the
  opcode constants and the branch-table lookup. `Alu` holds the ALU operations
  and their names. `Loader` holds the line parser of `load` (the text before
  the first `#`, Python's `str.strip`, and `int(text, 2)` with its sign,
  `0b`/`0B` prefix and single underscores) and the store loop over parsed
  lines.
- An imperative model. `Cpu.CPU` keeps `ram` and `reg` as arrays and `pc`,
  `fl`, `running` and the printed output as fields, updated in place. Every
  method has a frame that names what it may change, and is proved to leave the
  state its specification function computes.

`Properties` proves what the handlers promise about the specification. It
covers which cells each instruction changes, how far `pc` moves, the
PUSH/POP and CALL/RET round trips, the single flag CMP sets, the conditional
branches, the dispatch fault for unregistered bytes, and how a run stops.

Modelling decisions:

- Value ranges. The Python code stores unbounded integers in `ram` and `reg`
  and never masks them. The model does the same: cells and registers are
  unbounded `int`s. There is no reduction mod 256 and no precondition that
  values be bytes. `Alu.NoByteWrap` shows the consequence (255 + 1 is stored
  as 256).
- Subscripts. Every list subscript is resolved as Python resolves it
  (`Machine.PyIndex`). An index in [-n, n) selects a slot, and a negative index
  counts from the end, so a stack pointer of -1 addresses `ram[255]`. Any other
  index raises IndexError. The model reports that as a `Fault`, as it does the
  KeyError of an unregistered opcode and the ALU's "unsupported operation".
- ST does not advance `pc` (`ls8/cpu.py:178-182`), so a program that reaches
  ST executes it again and again, unless it overwrites its own opcode. This is
  modelled as written (`Properties.StEffect`, and `Cpu.CPU.HandleSt`, whose frame leaves out `pc`).
- CMP compares the two register values as Python integers, so a register that
  has gone negative compares as negative. The code is followed here. It does not
  implement an unsigned byte comparison.
- PRN's `print` appends the value to the output sequence `out`.

## Model

| member | source | states |
|---|---|---|
| Opcodes.Decode | ls8/cpu.py:38-53 | the branch table has a handler exactly for the fifteen registered opcode bytes; the handler found for a byte is registered under that byte; no instruction has an unregistered byte as its opcode |
| Opcodes.DecodeOpcode | ls8/cpu.py:6-21 | each of the fifteen instructions is found again under its own opcode constant, so the constants are distinct |
| Opcodes.IretUnregistered | ls8/cpu.py:11 | IRET (19) is declared but has no handler: looking it up fails |
| Alu.OpNamed | ls8/cpu.py:78-88 | `alu` accepts exactly the names "ADD", "DEC" and "MUL", and the operation it selects is the one with that name |
| Alu.NameRoundTrip | ls8/cpu.py:134 | the name each arithmetic handler passes to `alu` selects that handler's own operation |
| Alu.NoByteWrap | ls8/cpu.py:82-85 | results are not reduced to a byte: 255 + 1 gives 256 and 0 - 1 gives -1 |
| Machine.PyIndex | ls8/cpu.py:91 | a Python subscript selects a slot exactly when the index is in [-n, n), and that slot is the index itself or the index plus n |
| Machine.WriteRam | ls8/cpu.py:93-95 | `ram_write` keeps 256 RAM cells, 8 registers and a valid flag value |
| Machine.WriteReg | ls8/cpu.py:120 | a register assignment keeps the state's shape |
| Machine.CompareFlag | ls8/cpu.py:184-193 | CMP stores exactly one of 0b100, 0b010 and 0b001: Less exactly when A < B, Greater exactly when A > B, Equal exactly when A == B |
| Machine.Execute | ls8/cpu.py:117-209 | every handler that completes leaves a state of the same shape |
| Machine.Step | ls8/cpu.py:214-216 | a fetch-and-dispatch that completes leaves a state of the same shape |
| Properties.UnknownOpcodeIff | ls8/cpu.py:215-216 | a step fails with UnknownOpcode at the current pc exactly when the fetched byte has no handler |
| Properties.ExecuteFaults | ls8/cpu.py:117-209 | a handler can fail only with an IndexError on RAM or on the registers; the ALU's "unsupported operation" is never raised through a handler |
| Properties.HltEffect | ls8/cpu.py:128-129 | HLT clears `running` and changes nothing else; pc stays on the HLT |
| Properties.OnlyHltStops | ls8/cpu.py:117-209 | no instruction except HLT changes the running flag |
| Properties.ExecuteKeepsRunning | ls8/cpu.py:117-209 | each handler other than `handle_hlt` that completes leaves `running` as it was |
| Properties.LdiEffect | ls8/cpu.py:117-121 | LDI sets exactly the register named by operand A to operand B, changes nothing else, and advances pc by 3 |
| Properties.PrnEffect | ls8/cpu.py:123-126 | PRN appends the named register's value to the output and advances pc by 2; nothing else changes |
| Properties.StEffect | ls8/cpu.py:178-182 | ST writes register B's value to exactly the RAM cell register A addresses and changes nothing else, not even pc; unless it overwrote its own opcode, the same ST is fetched again |
| Properties.ArithEffect | ls8/cpu.py:131-147 | ADD, DEC and MUL replace register A by A+B, A-B and A*B, leave every other register, RAM and the flags alone, and advance pc by 3 |
| Properties.AddThenDec | ls8/cpu.py:131-141 | ADD Ra,Rb followed by DEC Ra,Rb on two distinct registers restores every register (nothing wraps), leaves RAM, flags, `running` and the output alone, and leaves pc 6 further on |
| Properties.PushThenPop | ls8/cpu.py:149-160 | PUSH Rx then POP Ry, for Ry other than R7 (POP R7 would increment R7 after storing into it), puts the old value of Rx into Ry and restores the stack pointer; pc advances by 2 each time |
| Properties.CallThenRet | ls8/cpu.py:162-176 | CALL decrements SP, stores pc + 2 at the new top and jumps to the named register's address; a RET that finds that SP and that cell returns to pc + 2 and restores SP |
| Properties.CmpEffect | ls8/cpu.py:184-193 | CMP sets exactly one flag, chosen by comparing the two register values, changes no register or RAM cell, and advances pc by 3 |
| Properties.JmpEffect | ls8/cpu.py:195-197 | JMP sets pc to the named register's value and changes nothing else |
| Properties.ConditionalBranches | ls8/cpu.py:199-209 | JEQ jumps exactly when the Equal bit is set and JNE exactly when it is clear; the branch not taken advances pc by 2 |
| Properties.EqualBitMeansEqual | ls8/cpu.py:184-193 | after CMP the Equal bit is set exactly when the two values are equal |
| Properties.LessThenJeqFallsThrough | ls8/cpu.py:221-229 | a CMP that finds A < B followed by JEQ does not jump: JEQ falls through to pc + 5 |
| Properties.LoopHaltsAtHlt | ls8/cpu.py:211-216 | a loop that halts stops on a HLT instruction, with `running` cleared |
| Properties.RunHaltsAtHlt | ls8/cpu.py:211-216 | `run` halts only by executing HLT, and the final pc addresses that HLT |
| Properties.MoreFuel | ls8/cpu.py:214-216 | a run that halted or crashed within some number of steps ends the same way given any larger bound |
| Properties.ContinueMoreFuel | ls8/cpu.py:214-216 | the rest of a run after one step ends the same way given any larger bound |
| Loader.BeforeComment | ls8/cpu.py:66 | `line.split('#')[0]` is a prefix of the line with no `#`, and it stops exactly at the first `#` |
| Loader.StripStartRemovesLeadingSpace | ls8/cpu.py:67 | `lstrip` removes exactly the leading whitespace: the rest is a suffix that does not start with whitespace |
| Loader.StripEndRemovesTrailingSpace | ls8/cpu.py:67 | `rstrip` removes exactly the trailing whitespace: the rest is a prefix that does not end with whitespace |
| Loader.StripEndPadding | ls8/cpu.py:67 | `rstrip` after text that does not end in whitespace removes exactly the whitespace that follows it |
| Loader.Digits | ls8/cpu.py:70 | a run of digits that `int(_, 2)` accepts starts and ends with a binary digit |
| Loader.ParseLines | ls8/cpu.py:65-70 | every line of the file gives exactly one parsed line |
| Loader.ParsedLine | ls8/cpu.py:65-70 | parsed line i is the parse of text line i |
| Loader.Place | ls8/cpu.py:63-72 | the loop never stores more than 256 values |
| Loader.PlaceStep | ls8/cpu.py:65-72 | one iteration skips a blank line, stops the load on a line `int` rejects, stores a value at the next address, or stops with IndexError at address 256 |
| Loader.PlaceStopped | ls8/cpu.py:70-71 | once an exception has stopped the loop, the remaining lines change nothing |
| Loader.BeforeCommentOf | ls8/cpu.py:66 | text without `#` is kept whole, and a `#` after it cuts off everything that follows |
| Loader.CommentIgnored | ls8/cpu.py:66-67 | a comment never changes how a line parses |
| Loader.DigitsOfBinary | ls8/cpu.py:70 | reading the binary numeral of n gives n back |
| Loader.MagnitudeOfDigits | ls8/cpu.py:70 | a `0b` prefix does not change the value of the digits that follow it |
| Loader.Signed | ls8/cpu.py:70 | a leading `-` negates the value of the unsigned text that follows it |
| Loader.ParseDigits | ls8/cpu.py:70 | binary digits with an optional `-` and an optional `0b` prefix parse to their value, negated after the sign |
| Loader.ParseBinary | ls8/cpu.py:70 | the binary numeral of n, with an optional `-` and `0b` prefix, parses to n or -n |
| Loader.DigitsLast | ls8/cpu.py:70 | a binary digit after a digit doubles the value read so far and adds the new digit |
| Loader.DigitsShift | ls8/cpu.py:70 | the same step, with the doubling named as `Shift` |
| Loader.SameLastDigit | ls8/cpu.py:70 | two runs of digits that end in the same digit and have the same value before it have the same value |
| Loader.Zeros | ls8/cpu.py:70 | the padding of a fixed-width numeral: exactly `k` characters, every one of them `0` |
| Loader.DigitsZeros | ls8/cpu.py:70 | a run of one or more zeros reads as 0 |
| Loader.ZerosThenDigit | ls8/cpu.py:70 | zeros before a single digit do not change its value |
| Loader.LeadingZeros | ls8/cpu.py:70 | any number of leading zeros before binary digits leaves their value unchanged |
| Loader.PaddedNumeral | ls8/cpu.py:70 | the numeral of n padded with any number of leading zeros is all binary digits and reads as n |
| Loader.StripPadded | ls8/cpu.py:66-67 | binary digits followed by whitespace hold no `#`, and stripping them leaves the digits |
| Loader.UnsignedDigits | ls8/cpu.py:70 | `int(_, 2)` of binary digits without sign or prefix is their value |
| Loader.LineReads | ls8/cpu.py:65-70 | a line whose code part strips to a numeral parses to that numeral's value |
| Loader.DigitsLine | ls8/cpu.py:65-70 | binary digits followed by whitespace, with or without a comment after, parse to their value |
| Loader.NumeralLine | ls8/cpu.py:65-70 | a program line as the example programs write it (a binary numeral zero-padded to any width, such as `00001000`, then whitespace with the newline among it, then an optional comment) parses to the numeral's value |
| Loader.ValuesSnoc | ls8/cpu.py:65-72 | appending a line to a program appends that line's value, if it has one, to the program's values |
| Loader.PlaceStoresValues | ls8/cpu.py:63-72 | when every line is blank, a comment or a numeral, the values are stored in file order from address 0; the load fails exactly when there are more than 256 of them, after storing the first 256 |
| Loader.FirstInvalidLineStops | ls8/cpu.py:70 | the load stops with ValueError at the first line that is not a binary numeral, unless RAM filled up first |
| Cpu.CPU.constructor | ls8/cpu.py:27-37 | a new CPU has 256 zero RAM cells, registers all zero except R7 = 0xF4, pc 0, flags 0, running set and no output |
| Cpu.CPU.RamRead | ls8/cpu.py:90-91 | returns the addressed cell, or the IndexError |
| Cpu.CPU.RamWrite | ls8/cpu.py:93-95 | writes exactly the addressed cell and nothing else, or changes nothing and reports the IndexError |
| Cpu.CPU.Load | ls8/cpu.py:63-72 | RAM holds the loaded values from address 0 and keeps its old contents after them; the result is an error exactly when the load stops with ValueError or IndexError, and it is that error |
| Cpu.CPU.Alu | ls8/cpu.py:78-88 | register A becomes A+B, A-B or A*B for the names "ADD", "DEC" and "MUL"; any other name is refused |
| Cpu.CPU.HandleLdi | ls8/cpu.py:117-121 | leaves the state `Machine.Ldi` specifies, changing only `reg` and `pc` |
| Cpu.CPU.HandlePrn | ls8/cpu.py:123-126 | leaves the state `Machine.Prn` specifies, changing only the output and `pc` |
| Cpu.CPU.HandleHlt | ls8/cpu.py:128-129 | leaves the state `Machine.Hlt` specifies, changing only `running` |
| Cpu.CPU.HandleArith | ls8/cpu.py:131-147 | leaves the state `Machine.Arith` specifies for the operation's name, changing only `reg` and `pc` |
| Cpu.CPU.HandlePush | ls8/cpu.py:149-154 | leaves the state `Machine.Push` specifies |
| Cpu.CPU.HandlePop | ls8/cpu.py:156-160 | leaves the state `Machine.Pop` specifies, changing only `reg` and `pc` |
| Cpu.CPU.HandleCall | ls8/cpu.py:162-171 | leaves the state `Machine.Call` specifies |
| Cpu.CPU.HandleRet | ls8/cpu.py:173-176 | leaves the state `Machine.Ret` specifies, changing only `reg` and `pc` |
| Cpu.CPU.HandleSt | ls8/cpu.py:178-182 | leaves the state `Machine.St` specifies, changing only RAM |
| Cpu.CPU.HandleCmp | ls8/cpu.py:184-193 | leaves the state `Machine.Cmp` specifies, changing only the flags and `pc` |
| Cpu.CPU.HandleJmp | ls8/cpu.py:195-197 | leaves the state `Machine.Jmp` specifies, changing only `pc` |
| Cpu.CPU.HandleJne | ls8/cpu.py:199-203 | leaves the state `Machine.Jne` specifies, changing only `pc` |
| Cpu.CPU.HandleJeq | ls8/cpu.py:205-209 | leaves the state `Machine.Jeq` specifies, changing only `pc` |
| Cpu.CPU.Step | ls8/cpu.py:215-216 | one fetch and dispatch leaves the state `Machine.Step` specifies, or reports its fault |
| Cpu.CPU.Run | ls8/cpu.py:211-216 | ends with the status of `Machine.Run` (halted, crashed with the same fault, or out of fuel) and its output; unless it crashed, in exactly its final state |

## Left out

- Reading the program file and the command line: the argument check, `open` and the FileNotFoundError exit (`ls8/cpu.py:58-61`, `ls8/cpu.py:64`, `ls8/cpu.py:74-76`) are I/O. The program arrives as its sequence of lines.
- `trace` (`ls8/cpu.py:97-115`) only prints a debugging line and is not modelled.
- PRN's `print` is I/O. The printed values are collected in the `out` sequence.
- The interrupt fields `im` and `IS` (`ls8/cpu.py:34-35`) are never read. IRET has no handler, which `Opcodes.IretUnregistered` records. The `datetime` import is unused.
- `run` may loop forever (ST at a fixed pc, a JMP to itself). `Machine.Run` and `Cpu.CPU.Run` therefore take a fuel bound on the number of instructions and report OutOfFuel when it is used up. `Properties.MoreFuel` shows that more fuel never changes a run that has already ended.
- Eight-bit masking of register and memory values is not modelled, because the code does not mask (see the modelling decisions above).
- Loader.ParseLine: Python's `int(_, 2)` also accepts non-ASCII Unicode decimal digits whose value is 0 or 1. The model accepts only the ASCII digits `0` and `1`.
- Cpu.CPU.Load: parses all lines before its store loop, where the code parses each line inside the loop. The stored RAM and the error are the same, because parsing is pure.
- Cpu.CPU.Step: on a fault it promises only the same fault and unchanged output. Python may already have changed part of the state before raising (PUSH decrements R7 before its write), and the exception ends the process, so that partial state is not specified.
- Cpu.CPU.Run: after a crash it promises the status and the output, not the rest of the state, for the same reason.
- Cpu.CPU.Alu: on a fault it promises only the same fault and unchanged output.
- Cpu.CPU.HandleLdi: on a fault it promises only the same fault and unchanged output.
- Cpu.CPU.HandlePrn: on a fault it promises only the same fault and unchanged output.
- Cpu.CPU.HandleArith: on a fault it promises only the same fault and unchanged output.
- Cpu.CPU.HandlePush: on a fault it promises only the same fault and unchanged output.
- Cpu.CPU.HandlePop: on a fault it promises only the same fault and unchanged output.
- Cpu.CPU.HandleCall: on a fault it promises only the same fault and unchanged output.
- Cpu.CPU.HandleRet: on a fault it promises only the same fault and unchanged output.
- Cpu.CPU.HandleSt: on a fault it promises only the same fault and unchanged output.
- Cpu.CPU.HandleCmp: on a fault it promises only the same fault and unchanged output.
- Cpu.CPU.HandleJmp: on a fault it promises only the same fault and unchanged output.
- Cpu.CPU.HandleJne: on a fault it promises only the same fault and unchanged output.
- Cpu.CPU.HandleJeq: on a fault it promises only the same fault and unchanged output.
