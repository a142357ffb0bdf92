# A verified model of go-cpu-simulator's CPU core

go-cpu-simulator has two toy processors. Both run one-byte instructions, and both come with a
small assembler that turns mnemonics such as `add_2` or `goto_0_1` into those bytes.

* **`cpu.go`: the earlier machine.**
  * 17 registers of Go `int` (64 bits); R0 is the accumulator.
  * 16 label slots.
  * A separate stack of 1000 ints that grows upwards.
  * `Run(code, n)` resets the CPU, resolves the labels and fetches from `code` while PC < n.
* **`cpusimple/cpusimple.go`: the 16-bit machine.**
  * Registers and PC are `uint16`.
  * Code, data and a downward-growing stack of big-endian words share one `Memory` byte slice.
  * Bytes `0x10`-`0x1f` are an extended instruction set: NOOP, HALT, STORE, LOAD, SWAP, the
    subroutine call and return, and CMP.
  * `Run` runs from a separate code buffer. `RunFromPC` runs from `Memory` itself, while
    `RunningFlag` is set.

Both machines share the byte format.
* The top three bits select SET, ADD, SUB, MUL, PUSH, POP, GOTO or LABEL.
* Bits 1-4 hold a register (minus one) or a label number.
* Bit 0 is the "R0" flag of PUSH/POP and the "jump when R0 != 0" flag of GOTO.
* SET loads the low five bits.

The Dafny modules follow the source:

| module | file | models |
|---|---|---|
| `Words` | words.dfy | `uint8`/`uint16`/`int64` wrap-around, big-endian words |
| `Isa` | isa.dfy | instruction decoding and the label scan of `Preprocess` (shared) |
| `Asm` | asm.dfy | `strings.Split`, `strconv.Atoi`, `asmToByte`, `AsmCodeToBytes` (identical in both files) |
| `SimpleMachine` | simple_machine.dfy | the 16-bit CPU as a state value and transition functions |
| `CpuSimple` | cpu_simple.dfy | the 16-bit `CPU` struct as a class over arrays, its methods |
| `SimpleProperties` | simple_properties.dfy | stack, lifecycle and run-loop properties of the 16-bit CPU |
| `LegacyMachine` | legacy_machine.dfy | the `cpu.go` CPU as a state value and transition functions |
| `Cpu` | legacy_cpu.dfy | the `cpu.go` `CPU` struct as a class over arrays |
| `LegacyProperties` | legacy_properties.dfy | arithmetic, stack, label and run properties of the `cpu.go` CPU |
| `AsmPrograms` | asm_programs.dfy | the mnemonic programs of the tests and the bytes `AsmCodeToBytes` makes of them |
| `SimplePrograms` | simple_programs.dfy | what `Run` of the 16-bit CPU returns for the test programs |
| `SimpleTests` | simple_tests.dfy | the tests of `cpusimple/cpu_test.go` as methods on the 16-bit `CPU` class |
| `LegacyPrograms` | legacy_programs.dfy | what `Run` of the `cpu.go` CPU returns for the same programs |
| `LegacyTests` | legacy_tests.dfy | the tests of `cpu_test.go` as methods on the `cpu.go` `CPU` class |

Each class method is proved to leave its fields in the state that the corresponding transition
function gives (`Abs() == Step(old(Abs()), ...)`). The lemmas about those functions then carry
over to the methods.

Behaviour of the source that the model keeps as written:
* **Arithmetic wraps.** The 16-bit machine wraps modulo 2^16. `cpu.go` wraps modulo 2^64,
  because Go `int` is 64 bits wide.
* **PUSH wraps.** `pushRegOnStack` decrements the `uint16` SP twice and writes the low byte
  first. With SP == 1 the word is split between addresses 0 and 0xffff.
* **POP does not wrap.** `popRegFromStack` reads `Memory[SP]` and `Memory[SP+1]` with no
  wrap-around.
* **STORE and LOAD act on their own operand bytes.** STORE overwrites the two bytes that
  follow it with R0, and LOAD reads them as an immediate. The bytes are not used as an
  address, although the constant comments say so.
* **`Reset` leaves SP two bytes above `StackHead`.** It keeps `Flag` and `StackHead`. It
  clears memory, labels, registers and both run flags.
* **`RunFromPC` compares PC with `uint16(len(Memory))`.** A memory of exactly 64 KiB
  therefore halts at once.
* **`Atoi` errors are discarded.** A malformed operand encodes as if it were 0. An
  out-of-range operand saturates, as `strconv.Atoi` does. `byte(...)` truncates modulo 256.
* **Bytes that decode alike.** The unused bits of SET, ADD, SUB, MUL, LABEL and register
  PUSH/POP let several bytes decode to the same instruction. `Asm.Canonical` picks the one
  the assembler produces.

Go index panics appear in two ways:
* A single-step operation `requires` that nothing is out of range.
* The run loops, which cannot know this in advance, stop with a `Panicked` outcome where the
  Go program would crash.

The test programs are proved, not run. Each is a short prefix that sets some registers, a
loop at label 0 that ends in a conditional GOTO, and `push_1 pop_0`. The proofs go through
macro steps: `push_a pop_b` copies a register, `set_v push_0 pop_r` loads one, and a
five-byte block does one arithmetic update. A `Leads(s, t, code, n, k)` fact says Run's
loop goes from `s` to `t` in `k` iterations, whatever the bound. Induction over the loop
counter then gives the sums 1 + ... + 10 and 1 + ... + 100.

Go's unbounded `for` loops get a `fuel` bound and an `OutOfFuel` outcome. Lemmas
`RunCodeSettled` show that any larger bound gives the same result once a run has ended for
another reason.

## Model

| member | source | states |
|---|---|---|
| Words.WordOfBytes | cpusimple/cpusimple.go:420-438 | splitting a word into its high and low byte and joining them back gives the word |
| Words.BytesOfWord | cpusimple/cpusimple.go:420-438 | joining two bytes into a big-endian word and splitting it gives the two bytes back |
| Words.WrapBelow | cpusimple/cpusimple.go:199 | `uint16(len)` never exceeds `len` |
| Isa.DecodeBase | cpusimple/cpusimple.go:67-114 | every byte decodes to an instruction whose register is 0-16 and label 0-15 |
| Isa.DecodeBaseFields | cpu.go:34-80 | the top three bits choose the operation; SET takes `b & 0x1f`; ADD/SUB/MUL and register PUSH/POP take `((b & 0x1e) >> 1) + 1`; bit 0 selects R0 for PUSH/POP and the R0 != 0 condition for GOTO |
| Isa.DecodeExtended | cpusimple/cpusimple.go:117-165 | the low nibble selects the extended operation; nibbles 8-15 are undefined and do nothing |
| Isa.DecodeSimple | cpusimple/cpusimple.go:56-66 | a byte not in 0x10-0x1f decodes as a base instruction |
| Isa.DecodeSimpleExtended | cpusimple/cpusimple.go:59-65 | a byte is extended exactly when it is in 0x10-0x1f, so SET can reach only 0-15 on the 16-bit machine |
| Isa.ScanLabels | cpusimple/cpusimple.go:169-177 | every label slot keeps its value or holds an offset in 1..n |
| Isa.ScanLabelsUndefined | cpusimple/cpusimple.go:169-177 | a label without a LABEL byte in code[0..n) keeps its old value |
| Isa.ScanLabelsLastDefinition | cpusimple/cpusimple.go:169-177 | a label maps to one past its last LABEL byte in code[0..n) (the last definition wins) |
| Asm.Split | cpusimple/cpusimple.go:248 | `strings.Split` returns at least one piece |
| Asm.SplitPiecesHaveNoSep | cpusimple/cpusimple.go:248 | no piece contains the separator |
| Asm.JoinSplit | cpusimple/cpusimple.go:248 | joining the pieces with the separator gives back the string |
| Asm.SplitPrefix | cpusimple/cpusimple.go:248 | a separator-free prefix followed by the separator splits off as the first piece |
| Asm.SplitNoSep | cpusimple/cpusimple.go:248 | a string without the separator is one piece |
| Asm.SplitJoin | cpusimple/cpusimple.go:248 | splitting separator-free pieces joined by the separator gives the pieces back |
| Asm.ScanDecimal | cpusimple/cpusimple.go:252 | a decimal scan yields at most 2^64-1 or reports overflow |
| Asm.ParseUint | cpusimple/cpusimple.go:252 | an unsigned parse yields at most 2^64-1 |
| Asm.NatToString | cpusimple/cpusimple.go:252 | decimal text is non-empty and all digits |
| Asm.ScanDecimalAppend | cpusimple/cpusimple.go:252 | appending a digit multiplies the value by ten and adds the digit |
| Asm.ParseNatToString | cpusimple/cpusimple.go:252 | parsing the decimal text of n gives n (n < 2^64) |
| Asm.AtoiNatToString | cpusimple/cpusimple.go:252 | `Atoi` of the decimal text of n is n (n < 2^63) |
| Asm.AtoiNegative | cpusimple/cpusimple.go:252 | `Atoi` of "-" and the decimal text of n is -n (n <= 2^63) |
| Asm.AtoiSyntaxError | cpusimple/cpusimple.go:252 | text starting with neither digit nor sign is a syntax error, and the ignored result is 0 |
| Asm.Shl1Small | cpusimple/cpusimple.go:256 | `x << 1` is 2x for small x |
| Asm.GotoByteSmall | cpusimple/cpusimple.go:282-285 | `goto_l_o` with l < 16 and o < 2 gives 0xc0 + 2l + o |
| Asm.RegisterByteWraps | cpusimple/cpusimple.go:254-257 | `mask + byte((i-1) << 1)` is `mask + 2(i-1)` modulo 256, for every int64 i |
| Asm.Wrap64Quotient | cpusimple/cpusimple.go:256 | a 64-bit wrap subtracts a multiple of 2^64 |
| Asm.Wrap8Shift | cpusimple/cpusimple.go:257 | a byte conversion ignores multiples of 256 |
| Asm.Atoi | cpusimple/cpusimple.go:252 | `strconv.Atoi` with the error dropped gives a non-zero value only for text starting with a digit or a sign (the round trips are AtoiNatToString and AtoiNegative) |
| Asm.AsmToByte | cpusimple/cpusimple.go:246-293 | a mnemonic whose operation is none of set, add, sub, mul, push, pop, goto, label gives 0 (the byte of each known operation is stated by AsmSet to AsmLabel and AsmText) |
| Asm.AsmCode | cpusimple/cpusimple.go:295-303 | one byte per mnemonic, and 0 for every mnemonic with an unknown operation |
| Asm.AsmCodeToBytes | cpusimple/cpusimple.go:295-303 | returns a fresh array with one byte per mnemonic, the k-th being `asmToByte` of the k-th mnemonic |
| Asm.SplitText | cpusimple/cpusimple.go:248 | the mnemonic of an instruction splits into its name and operands |
| Asm.AsmSet | cpusimple/cpusimple.go:251-253 | `set_v` encodes to v for v < 32 |
| Asm.AsmArith | cpusimple/cpusimple.go:254-265 | `add_r`, `sub_r`, `mul_r` encode to mask + 2(r-1) for r in 1..16 |
| Asm.AsmStack | cpusimple/cpusimple.go:266-281 | `push_0`/`pop_0` encode to mask + 1, `push_r`/`pop_r` to mask + 2(r-1) |
| Asm.AsmGoto | cpusimple/cpusimple.go:282-285 | `goto_l_o` encodes to 0xc0 + 2l + o |
| Asm.AsmLabel | cpusimple/cpusimple.go:286-289 | `label_l` encodes to 0xe0 + 2l |
| Asm.AsmPieces | cpusimple/cpusimple.go:246-292 | a string that splits into an instruction's name and operands encodes to that instruction's byte |
| Asm.AsmText | cpusimple/cpusimple.go:246-292 | the mnemonic of every in-range instruction encodes to its byte |
| Asm.ByteFields | cpusimple/cpusimple.go:67-73 | the masks recover the operation, field and low bit of a byte built from them |
| Asm.DecodeEncodeSet | cpusimple/cpusimple.go:69-71 | decoding the byte of `set_v` gives SET v |
| Asm.DecodeEncodeArith | cpusimple/cpusimple.go:72-80 | decoding the byte of an ADD/SUB/MUL gives it back |
| Asm.DecodeEncodeStack | cpusimple/cpusimple.go:81-100 | decoding the byte of a PUSH/POP gives it back |
| Asm.DecodeEncodeLabel | cpusimple/cpusimple.go:101-113 | decoding the byte of a GOTO/LABEL gives it back |
| Asm.DecodeEncode | cpu.go:31-82 | decoding the byte of any in-range instruction gives it back |
| Asm.EncodeDecode | cpu.go:31-82 | encoding a decoded byte gives its canonical form |
| Asm.AsmRoundTrip | cpu.go:121-176 | assembling an instruction's mnemonic and decoding the byte gives the instruction back |
| Asm.AsmRoundTripSimple | cpusimple/cpusimple.go:56-115 | the same on the 16-bit machine, whose SET reaches 0-15 only |
| Asm.DecodeThenAsm | cpusimple/cpusimple.go:246-292 | disassembling a byte and assembling the text gives its canonical byte, which decodes the same |
| SimpleMachine.ZeroState | cpusimple/cpusimple.go:39-52 | the zero value has 17 registers and 16 labels |
| SimpleMachine.PushWord | cpusimple/cpusimple.go:421-430 | a push keeps the memory size |
| SimpleMachine.PushWordSpec | cpusimple/cpusimple.go:421-430 | SP drops by two (mod 2^16), the value sits big-endian at the new SP, and no other byte or field changes |
| SimpleMachine.PushWordNoWrap | cpusimple/cpusimple.go:421-430 | with 2 <= SP <= len no index wraps, and the bytes land at SP-1 and SP-2 |
| SimpleMachine.PopWord | cpusimple/cpusimple.go:433-439 | a pop keeps the register file's shape |
| SimpleMachine.PopWordSpec | cpusimple/cpusimple.go:433-439 | the big-endian word at SP goes into the register alone, SP rises by two, nothing else changes |
| SimpleMachine.ExecBase | cpusimple/cpusimple.go:67-114 | a base instruction keeps the state well-formed |
| SimpleMachine.ExecExtended | cpusimple/cpusimple.go:117-165 | an extended instruction keeps the state well-formed |
| SimpleMachine.Step | cpusimple/cpusimple.go:56-115 | a step keeps labels, stack head and memory size |
| SimpleMachine.StepPc | cpusimple/cpusimple.go:56-115 | PC moves one byte on, three for STORE/LOAD, or to the label when a GOTO is taken |
| SimpleMachine.StepArithmeticOnlyR0 | cpusimple/cpusimple.go:69-80 | SET/ADD/SUB/MUL change only R0 and PC |
| SimpleMachine.StepFlags | cpusimple/cpusimple.go:121-161 | only HALT changes the run flags and only CMP changes Flag |
| SimpleMachine.StepWriters | cpusimple/cpusimple.go:81-140 | only PUSH and STORE write memory; only PUSH and POP move SP |
| SimpleMachine.ResetState | cpusimple/cpusimple.go:179-194 | Reset gives a well-formed state |
| SimpleMachine.PreprocessLabels | cpusimple/cpusimple.go:169-177 | the 16-bit label table equals the shared label scan |
| SimpleMachine.PreprocessState | cpusimple/cpusimple.go:169-177 | Preprocess keeps the state well-formed |
| SimpleMachine.LoadState | cpusimple/cpusimple.go:239-243 | Memory[i] becomes program[i] for i < n and is unchanged elsewhere; no other field changes |
| SimpleMachine.InitMemoryState | cpusimple/cpusimple.go:365-372 | Memory grows by `size` zero bytes and keeps its old prefix |
| SimpleMachine.InitStackState | cpusimple/cpusimple.go:375-382 | SP and StackHead become loc rounded down to even |
| SimpleMachine.RunCode | cpusimple/cpusimple.go:223-225 | Run's loop keeps labels, stack head and memory size |
| SimpleMachine.RunSpec | cpusimple/cpusimple.go:220-227 | Run gives a well-formed state |
| SimpleMachine.RunCodeAdditive | cpusimple/cpusimple.go:223-225 | a iterations of Run's loop followed by b more equal a + b iterations |
| SimpleMachine.MemoryLoop | cpusimple/cpusimple.go:199-209 | RunFromPC's loop keeps labels, stack head and memory size |
| SimpleMachine.RunMemory | cpusimple/cpusimple.go:198-215 | RunFromPC keeps labels, stack head and memory size |
| CpuSimple.CPU.constructor | cpusimple/cpusimple.go:409-411 | the zero value `CPU{}` |
| CpuSimple.CPU.FetchInstruction | cpusimple/cpusimple.go:56-115 | the fields change exactly as one step of the machine says |
| CpuSimple.CPU.ExecuteBase | cpusimple/cpusimple.go:67-114 | the fields change as the decoded base instruction says |
| CpuSimple.CPU.ProcessExtendedOpCode | cpusimple/cpusimple.go:117-165 | the fields change as the decoded extended instruction says |
| CpuSimple.CPU.PushRegOnStack | cpusimple/cpusimple.go:421-430 | the fields change as a push of the register says |
| CpuSimple.CPU.PopRegFromStack | cpusimple/cpusimple.go:433-439 | the fields change as a pop says, and the popped word is returned |
| CpuSimple.CPU.Preprocess | cpusimple/cpusimple.go:169-177 | the label table becomes the label scan of code[0..n) |
| CpuSimple.CPU.Reset | cpusimple/cpusimple.go:179-194 | the fields become the reset state |
| CpuSimple.CPU.Run | cpusimple/cpusimple.go:220-227 | the fields become the run of the model, R0 is returned, and the exit is reported |
| CpuSimple.CPU.FetchUntil | cpusimple/cpusimple.go:223-225 | the loop of Run |
| CpuSimple.CPU.RunFromPC | cpusimple/cpusimple.go:198-215 | the fields become the RunFromPC of the model, and the exit is returned instead of sent on the channel |
| CpuSimple.CPU.FetchWhileRunning | cpusimple/cpusimple.go:199-209 | the loop of RunFromPC |
| SimpleMachine.ProgramPresent | cpusimple/cpusimple.go:230-236 | no program is present exactly when Memory has at least two bytes and they are both zero |
| CpuSimple.CPU.VerifyProgramInMemory | cpusimple/cpusimple.go:230-236 | reports a program unless the first two bytes are zero; one byte of Memory is enough when it is not zero, since the second byte is read only after a zero first byte |
| CpuSimple.CPU.Load | cpusimple/cpusimple.go:239-243 | Memory takes the first n program bytes |
| CpuSimple.CPU.InitMemory | cpusimple/cpusimple.go:365-372 | Memory is replaced by a fresh slice with `size` zero bytes appended |
| CpuSimple.CPU.InitStack | cpusimple/cpusimple.go:375-382 | SP and StackHead become loc rounded down to even |
| CpuSimple.CPU.SetClock | cpusimple/cpusimple.go:385-387 | sets Clock |
| CpuSimple.CPU.SetHalt | cpusimple/cpusimple.go:390-392 | sets HaltFlag |
| CpuSimple.CPU.GetHalt | cpusimple/cpusimple.go:395-397 | returns HaltFlag |
| CpuSimple.CPU.SetRunning | cpusimple/cpusimple.go:400-402 | sets RunningFlag |
| CpuSimple.CPU.GetRunning | cpusimple/cpusimple.go:405-407 | returns RunningFlag |
| SimpleProperties.PushThenPop | cpusimple/cpusimple.go:421-439 | a push then a pop restores SP and puts the pushed value in the register, for every SP but 1 |
| SimpleProperties.PushAtOneSplitsWord | cpusimple/cpusimple.go:421-430 | at SP == 1 the push wraps: low byte at 0, high byte at 0xffff; a pop then panics unless memory exceeds 64 KiB |
| SimpleProperties.PopAfterTwoPushes | cpusimple/cpusimple.go:421-439 | after two pushes and a pop the first word is on top |
| SimpleProperties.LastInFirstOut | cpusimple/cpusimple.go:421-439 | two pushes and two pops return the values last-in first-out and restore SP |
| SimpleProperties.PushAll | cpusimple/cpusimple.go:421-431 | N pushes with room below SP lower SP by 2N and leave Memory from SP upwards and every other field unchanged |
| SimpleProperties.PopAll | cpusimple/cpusimple.go:433-439 | N pops raise SP by 2N and change only registers and SP |
| SimpleProperties.PopPushedWord | cpusimple/cpusimple.go:421-439 | a pop from where a push stored `v` loads `v` and restores SP |
| SimpleProperties.StackDiscipline | cpusimple/cpusimple.go:421-439 | for every N with 2N <= SP <= len(Memory), N pushes then N pops restore SP, keep Memory from SP upwards, and assign the pushed values to the popped registers in reverse order |
| SimpleProperties.StackDisciplineDistinct | cpusimple/cpusimple.go:421-439 | with distinct registers, the i-th pop's register holds the (N-1-i)-th pushed value and the other registers are unchanged |
| SimpleProperties.ResetClearsProgram | cpusimple/cpusimple.go:179-194 | after Reset no program is present, and Reset is idempotent |
| SimpleProperties.FirstPushAtStackHead | cpusimple/cpusimple.go:181 | after Reset the first push lands at StackHead and StackHead + 1 |
| SimpleProperties.LoadThenVerify | cpusimple/cpusimple.go:230-243 | after loading n >= 1 bytes a program is present exactly when the first byte is not zero or the second byte (loaded, or the old one when n = 1) is not zero; for n >= 2, exactly when the program's first two bytes are not both zero |
| SimpleProperties.SetUpThenReset | cpusimple/cpusimple.go:365-382 | `CPU{}` then InitMemory, InitStack and Reset give zeroed memory of that size and SP two above the even head |
| SimpleProperties.FullMemoryHaltsAtOnce | cpusimple/cpusimple.go:199 | with exactly 64 KiB of memory RunFromPC halts without executing anything |
| SimpleProperties.RunMemoryExits | cpusimple/cpusimple.go:198-215 | the end-of-memory exit happens exactly when PC >= `uint16(len(Memory))` and clears RunningFlag and sets HaltFlag; the other exit clears RunningFlag too |
| SimpleProperties.HaltStopsRun | cpusimple/cpusimple.go:121-124 | HALT stops RunFromPC right after it, with registers and memory untouched and HaltFlag set |
| SimpleProperties.MemoryLoopKeepsHaltStopped | cpusimple/cpusimple.go:198-215 | a halted CPU is not running, and RunFromPC keeps it so |
| SimpleProperties.RunCodeSettled | cpusimple/cpusimple.go:223-225 | once Run's loop has ended for a reason other than the bound, a larger bound changes nothing |
| LegacyMachine.ResetState | cpu.go:95-107 | Reset gives a well-formed state |
| LegacyMachine.Exec | cpu.go:36-80 | an instruction keeps the state well-formed |
| LegacyMachine.Step | cpu.go:31-82 | a step keeps the label table |
| LegacyMachine.PreprocessState | cpu.go:86-93 | Preprocess changes only the label table |
| LegacyMachine.RunCode | cpu.go:114-116 | Run's loop keeps the label table |
| LegacyMachine.RunSpec | cpu.go:111-118 | Run gives a well-formed state |
| Cpu.CPU.constructor | cpu.go:21-27 | the zero value `CPU{}` equals the reset state |
| Cpu.CPU.FetchInstruction | cpu.go:31-82 | the fields change exactly as one step of the machine says |
| Cpu.CPU.Preprocess | cpu.go:86-93 | the label table becomes the label scan of code[0..n) |
| Cpu.CPU.Reset | cpu.go:95-107 | everything becomes zero |
| Cpu.CPU.Run | cpu.go:111-118 | the fields become the run of the model, R0 is returned, and the exit is reported |
| Cpu.CPU.FetchUntil | cpu.go:114-116 | the loop of Run |
| LegacyProperties.StepPc | cpu.go:31-82 | PC moves one byte on, or to the label when a GOTO is taken |
| LegacyProperties.ExecArithmetic | cpu.go:36-47 | SET/ADD/SUB/MUL change only R0, and the results agree with the true sum, difference and product modulo 2^64 |
| LegacyProperties.StepArithmetic | cpu.go:36-47 | an arithmetic byte changes only R0 and PC |
| LegacyProperties.Wrap64Congruent | cpu.go:41 | 64-bit wrap-around differs from the true value by a multiple of 2^64 and keeps values that fit |
| LegacyProperties.PushThenPop | cpu.go:48-67 | a push then a pop moves the register, restores SP and leaves the value in the old slot |
| LegacyProperties.LastInFirstOut | cpu.go:48-67 | two pushes and two pops return the values last-in first-out and restore SP |
| LegacyProperties.Values | cpu.go:48-57 | the i-th value is the register ps[i] |
| LegacyProperties.PushAll | cpu.go:48-57 | N register pushes with SP + N <= 1000 raise SP by N and leave the slots below SP and every other field unchanged |
| LegacyProperties.PopAll | cpu.go:58-67 | N pops lower SP by N and change only registers and SP |
| LegacyProperties.PopPushedValue | cpu.go:48-67 | a pop from where a push stored register `a` loads its old value and restores SP |
| LegacyProperties.StackDiscipline | cpu.go:48-67 | for every N with SP + N <= 1000, N pushes then N pops restore SP, keep the slots below SP, and assign the pushed registers' values to the popped registers in reverse order |
| LegacyProperties.StackDisciplineDistinct | cpu.go:48-67 | with distinct registers, the i-th pop's register holds the old value of the (N-1-i)-th pushed register and the others are unchanged |
| LegacyProperties.StackBounds | cpu.go:56-67 | a push panics exactly when SP is outside 0-999, a pop exactly when SP is outside 1-1000, and nothing else panics |
| LegacyProperties.PreprocessLabels | cpu.go:86-93 | labels without a marker keep their value and the last marker wins |
| LegacyProperties.RunCodeAdditive | cpu.go:114-116 | a iterations followed by b more equal a + b iterations |
| LegacyProperties.RunCodeSettled | cpu.go:114-116 | once Run's loop has ended for a reason other than the bound, a larger bound changes nothing |
| SimplePrograms.LeadsStep | cpusimple/cpusimple.go:223-225 | one iteration of Run's loop from a PC below n takes the state to the next step, for every bound |
| SimplePrograms.LeadsTrans | cpusimple/cpusimple.go:223-225 | k1 iterations from s to t followed by k2 from t to u are k1 + k2 iterations from s to u |
| SimplePrograms.PushStep | cpusimple/cpusimple.go:81-91 | a PUSH byte, with SP in 2..len, writes the register big-endian at SP-2 and SP-1 and lowers SP by two |
| SimplePrograms.PopStep | cpusimple/cpusimple.go:92-100 | a POP byte loads the big-endian word at SP into the register and raises SP by two |
| SimplePrograms.ArithStep | cpusimple/cpusimple.go:69-80 | SET, ADD, SUB and MUL put their 16-bit result in R0 and change nothing else but PC |
| SimplePrograms.GotoStep | cpusimple/cpusimple.go:101-110 | a GOTO byte jumps to the label's value when its condition on R0 holds, and moves one byte on otherwise |
| SimplePrograms.LabelStep | cpusimple/cpusimple.go:111-112 | a LABEL byte only moves PC on |
| SimplePrograms.Move | cpusimple/cpusimple.go:81-100 | `push_a pop_b` in two iterations copies register a into register b and leaves SP as it was |
| SimplePrograms.Block | cpusimple/cpusimple.go:69-100 | `push_x pop_0 op_y push_0 pop_z` in five iterations puts Rx op Ry into R0 and Rz |
| SimplePrograms.SetReg | cpusimple/cpusimple.go:69-100 | `set_v push_0 pop_r` in three iterations puts v into R0 and Rr |
| SimplePrograms.CountDownPass | cpusimple/cpu_test.go:34-54 | one pass of the count-down loop adds R2 to R1, decrements R2, and jumps back unless R2 reached zero |
| SimplePrograms.CountDownRun | cpusimple/cpu_test.go:34-54 | from the loop head with R2 = k, the loop adds 1 + ... + k to R1 in 11k iterations and falls through |
| SimplePrograms.CountUpPass | cpusimple/cpu_test.go:11-32 | one pass of the count-up loop adds R3 to R1, increments R3, and jumps back unless R3 reached R2 |
| SimplePrograms.CountUpRun | cpusimple/cpu_test.go:11-32 | from the loop head with R3 = j and R2 = m, the loop adds j + ... + (m - 1) to R1 in 11(m - j) iterations |
| SimplePrograms.Increment | cpusimple/cpu_test.go:11-32 | `set_1 add_3 push_0 pop_3` adds one to R3 and R0 |
| SimplePrograms.TestSetup | cpusimple/cpu_test.go:24-27 | `CPU{}`, InitMemory(100) and InitStack(99) give 100 bytes of memory and the stack head at 98 |
| SimplePrograms.TestReset | cpusimple/cpusimple.go:220-222 | Run's reset and pre-pass on such a CPU put PC at 0, SP at 100 and every register at zero |
| SimplePrograms.TestStart | cpusimple/cpusimple.go:169-177 | ... and a program whose only LABEL byte is label 0 at offset `at` gets label 0 = at + 1 |
| SimplePrograms.RunEnds | cpusimple/cpusimple.go:220-227 | when Run's loop reaches PC = n in k iterations, Run ends there for every bound of k or more and reports Finished |
| SimplePrograms.AlternativeSum1To10Prefix | cpusimple/cpu_test.go:38-41 | the first ten bytes set R1 = 0, R2 = 10, R3 = 1 and reach the loop head |
| SimplePrograms.AlternativeSum1To10Result | cpusimple/cpu_test.go:34-54 | Run returns 55 and finishes after 122 iterations |
| SimplePrograms.Sum1To100Init | cpusimple/cpu_test.go:110-115 | the first six bytes set R1 = 0 and R4 = 10 |
| SimplePrograms.Sum1To100Prefix | cpusimple/cpu_test.go:110-122 | the prefix sets R2 = 10 * R4 = 100, R3 = 1 and reaches the loop head |
| SimplePrograms.Sum1To100Result | cpusimple/cpu_test.go:107-146 | Run returns 5050 and finishes after 1115 iterations |
| SimplePrograms.Sum1To10Prefix | cpusimple/cpu_test.go:16 | the first ten bytes set R1 = 0, R2 = 11, R3 = 1 and reach the loop head |
| SimplePrograms.Sum1To10Result | cpusimple/cpu_test.go:11-32 | Run returns 55 and finishes after 122 iterations |
| SimplePrograms.AddR1ToR4 | cpusimple/cpu_test.go:171-175 | the block `push_4 pop_0 add_1 push_0 pop_4` adds R1 to R4 |
| SimplePrograms.IncR1 | cpusimple/cpu_test.go:176-180 | the block `push_1 pop_0 add_3 push_0 pop_1` adds R3 = 1 to R1 |
| SimplePrograms.AddTwiceR1ToR4 | cpusimple/cpu_test.go:148-313 | the block `set_2 mul_1 add_4 push_0 pop_4` sets R4 to 2 * R1 + R4 |
| SimplePrograms.SubR1FromR4 | cpusimple/cpu_test.go:148-313 | the block `set_0 sub_1 add_4 push_0 pop_4` subtracts R1 from R4 |
| SimplePrograms.Sequence1To15Init | cpusimple/cpu_test.go:151-159 | the first nine bytes set R1 = 1, R5 = 6 and R2 = 15 |
| SimplePrograms.Sequence1To15Scale | cpusimple/cpu_test.go:160-164 | the next five bytes set R2 = 15 * R2 + R5 = 231 |
| SimplePrograms.Sequence1To15Prefix | cpusimple/cpu_test.go:151-170 | the first 20 bytes leave R1 = 1, R3 = 1 and R4 = 0 |
| SimplePrograms.Sequence1To15Part1 | cpusimple/cpu_test.go:148-313 | blocks 1 to 7 take R1 = 1, R4 = 0 to R1 = 5, R4 = 7 |
| SimplePrograms.Sequence1To15Part2 | cpusimple/cpu_test.go:148-313 | blocks 8 to 13 take them to R1 = 8, R4 = 32 |
| SimplePrograms.Sequence1To15Part3 | cpusimple/cpu_test.go:148-313 | blocks 14 to 20 take them to R1 = 13, R4 = 63 |
| SimplePrograms.Sequence1To15Part4 | cpusimple/cpu_test.go:148-313 | blocks 21 to 26 take them to R1 = 16, R4 = 75 |
| SimplePrograms.Sequence1To15Result | cpusimple/cpu_test.go:148-313 | Run returns 75 and finishes after 152 iterations |
| AsmPrograms.Texts | cpusimple/cpusimple.go:246-292 | one mnemonic per instruction |
| AsmPrograms.Encodes | cpusimple/cpusimple.go:246-292 | one byte per instruction |
| AsmPrograms.AsmCodeTexts | cpusimple/cpusimple.go:295-303 | AsmCodeToBytes of the mnemonics of in-range instructions gives their bytes |
| AsmPrograms.TextsAppend | cpusimple/cpusimple.go:295-303 | the mnemonics of two concatenated programs are the concatenated mnemonics |
| AsmPrograms.MachineCodeGenerationEncodes | cpusimple/cpu_test.go:85-93 | the instructions of the test encode to the 23 bytes the test expects |
| AsmPrograms.MachineCodeGenerationTexts | cpusimple/cpu_test.go:59-83 | the 23 mnemonics of the test are the mnemonics of those instructions |
| AsmPrograms.MachineCodeGeneration | cpusimple/cpu_test.go:56-96 | AsmCodeToBytes of the 23 mnemonics gives exactly the 23 bytes the test compares with |
| AsmPrograms.Sum1To100AsmEncodes | cpusimple/cpu_test.go:107-137 | the instructions of TestSum1To100 encode to its 26 bytes |
| AsmPrograms.Sum1To100AsmTexts | cpusimple/cpu_test.go:109-136 | the 26 mnemonics of the test are the mnemonics of those instructions |
| AsmPrograms.Sum1To100Asm | cpusimple/cpu_test.go:107-137 | AsmCodeToBytes of the 26 mnemonics gives `0x00 0x81 0xa0 0x0a 0x81 0xa6 0x66 ...` |
| AsmPrograms.Sequence1To15Texts | cpusimple/cpu_test.go:150-303 | the 152 mnemonics of TestSequence1To15 are the mnemonics of its instructions |
| AsmPrograms.Sequence1To15Asm | cpusimple/cpu_test.go:148-304 | AsmCodeToBytes of the 152 mnemonics gives the bytes of those instructions |
| SimpleTests.Sequence1To15Code | cpusimple/cpu_test.go:148-304 | the assembled bytes of TestSequence1To15 have the shape that Sequence1To15Result runs |
| SimpleTests.MachineCodeGenerationCode | cpusimple/cpu_test.go:56-96 | the assembled bytes of TestMachineCodeGeneration are the program of TestAlternativeSum1To10 |
| SimpleTests.Sum1To100Code | cpusimple/cpu_test.go:107-137 | the assembled bytes of TestSum1To100 have the shape that Sum1To100Result runs |
| SimpleTests.NewTestCPU | cpusimple/cpu_test.go:23-27 | the CPU the tests build: 100 bytes of memory, stack head 98, Clock 0 |
| SimpleTests.TestSum1To10 | cpusimple/cpu_test.go:11-32 | Run of the 23 bytes returns 55 and finishes |
| SimpleTests.TestAlternativeSum1To10 | cpusimple/cpu_test.go:34-54 | Run of the 23 bytes returns 55 and finishes |
| SimpleTests.TestMachineCodeGeneration | cpusimple/cpu_test.go:56-105 | the assembled mnemonics equal the expected bytes, and Run of them returns 55 and finishes |
| SimpleTests.TestSum1To100 | cpusimple/cpu_test.go:107-146 | Run of the assembled mnemonics returns 5050 and finishes |
| SimpleTests.TestSequence1To15 | cpusimple/cpu_test.go:148-313 | Run of the 152 assembled mnemonics returns 75 and finishes |
| LegacyPrograms.LeadsStep | cpu.go:114-116 | one iteration of Run's loop from a PC below n takes the state to the next step, for every bound |
| LegacyPrograms.LeadsTrans | cpu.go:114-116 | k1 iterations from s to t followed by k2 from t to u are k1 + k2 iterations from s to u |
| LegacyPrograms.PushStep | cpu.go:48-57 | a PUSH byte, with SP in 0..999, stores the register at Stack[SP] and increments SP |
| LegacyPrograms.PopStep | cpu.go:58-67 | a POP byte, with SP in 1..1000, decrements SP and loads Stack[SP] into the register |
| LegacyPrograms.ArithStep | cpu.go:36-47 | SET, ADD, SUB and MUL put their 64-bit result in R0 and change nothing else but PC |
| LegacyPrograms.GotoStep | cpu.go:68-78 | a GOTO byte jumps to the label's value when its condition on R0 holds, and moves one byte on otherwise |
| LegacyPrograms.LabelStep | cpu.go:79-80 | a LABEL byte only moves PC on |
| LegacyPrograms.Move | cpu.go:48-67 | `push_a pop_b` copies register a into register b and leaves SP as it was |
| LegacyPrograms.Block | cpu.go:36-67 | `push_x pop_0 op_y push_0 pop_z` puts Rx op Ry into R0 and Rz |
| LegacyPrograms.SetReg | cpu.go:36-67 | `set_v push_0 pop_r` puts v into R0 and Rr |
| LegacyPrograms.CountDownPass | cpu_test.go:23-39 | one pass of the count-down loop adds R2 to R1, decrements R2, and jumps back unless R2 reached zero |
| LegacyPrograms.CountDownRun | cpu_test.go:23-39 | from the loop head with R2 = k, the loop adds 1 + ... + k to R1 in 11k iterations |
| LegacyPrograms.Increment | cpu_test.go:8-21 | `set_1 add_3 push_0 pop_3` adds one to R3 and R0 |
| LegacyPrograms.CountUpPass | cpu_test.go:8-21 | one pass of the count-up loop adds R3 to R1, increments R3, and jumps back unless R3 reached R2 |
| LegacyPrograms.CountUpRun | cpu_test.go:8-21 | from the loop head with R3 = j and R2 = m, the loop adds j + ... + (m - 1) to R1 in 11(m - j) iterations |
| LegacyPrograms.TestStart | cpu.go:86-107 | Run's reset and pre-pass put PC, SP and every register at zero and label 0 one past its LABEL byte |
| LegacyPrograms.RunEnds | cpu.go:111-118 | when Run's loop reaches PC = n in k iterations, Run ends there for every bound of k or more and reports Finished |
| LegacyPrograms.AlternativeSum1To10Prefix | cpu_test.go:26-29 | the first ten bytes set R1 = 0, R2 = 10, R3 = 1 and reach the loop head |
| LegacyPrograms.AlternativeSum1To10Result | cpu_test.go:23-39 | Run returns 55 and finishes after 122 iterations |
| LegacyPrograms.Sum1To100Prefix | cpu_test.go:90-102 | the prefix sets R1 = 0, R4 = 10, R2 = 100, R3 = 1 and reaches the loop head |
| LegacyPrograms.Sum1To100Result | cpu_test.go:88-123 | Run returns 5050 and finishes after 1115 iterations |
| LegacyPrograms.Sum1To10Prefix | cpu_test.go:12 | the first ten bytes set R1 = 0, R2 = 11, R3 = 1 and reach the loop head |
| LegacyPrograms.Sum1To10Result | cpu_test.go:8-21 | Run returns 55 and finishes after 122 iterations |
| LegacyTests.TestSum1To10 | cpu_test.go:8-21 | Run on `CPU{}` of the 23 bytes returns 55 and finishes |
| LegacyTests.TestAlternativeSum1To10 | cpu_test.go:23-39 | Run on `CPU{}` of the 23 bytes returns 55 and finishes |
| LegacyTests.TestMachineCodeGeneration | cpu_test.go:41-86 | the assembled mnemonics equal the expected bytes, and Run of them returns 55 and finishes |
| LegacyTests.TestSum1To100 | cpu_test.go:88-123 | Run of the assembled mnemonics returns 5050 and finishes |

## Left out

- Logging, `time.Sleep(Clock)` and the `CPUStatus` channel. `RunFromPC` returns its exit
  instead of sending the status message.
- `NewCPU`, which only creates a logger. The display helpers (`GetMemory`, `GetRegisters`
  and the like) and the dashboard and the command-line simulator: they are presentation,
  not behaviour of the CPU.
- The subroutine call and return bytes (0x15, 0x16), which the source leaves as no-ops. The
  model keeps them as no-ops.
- Termination of the Go `for` loops: `Run` and `RunFromPC` take a `fuel` bound and report
  `OutOfFuel` when it runs out.
- Go panics are not raised. A single-step method requires that no index goes out of range,
  and a run loop stops with `Panicked`.
- CpuSimple.CPU.Run: the code buffer is a sequence value, so the model does not capture a
  call that passes `Memory` itself as `code` and lets STORE rewrite the code being run.
  `RunFromPC` fetches from `Memory` directly.
- CpuSimple.CPU.InitMemory: Go's `append` may reuse the backing array. The model always
  allocates a new one, so aliasing of an old `Memory` slice is not modelled.
- CpuSimple.CPU.FetchUntil and CpuSimple.CPU.FetchWhileRunning: no lemma states that the
  fuel bound is irrelevant for `RunFromPC`. Only Run's loop has `RunCodeSettled`.
- SimpleProperties.StackDiscipline: covers N pushes that stay between address 0 and SP
  (2N <= SP). A push that wraps below address 0 splits the word, as PushAtOneSplitsWord
  shows, so no stack discipline holds there.
- The `codeLength` argument of `RunFromPC` is unused in the source and ignored here.
- The test `TestSequence1To10000` is commented out in the source and not modelled.
- The tests run with an iteration bound of 2000 (`TestFuel`), well above the 1115
  iterations the longest program needs. `RunCodeSettled` shows a larger bound would not
  change the result.
- SimpleTests.TestMachineCodeGeneration, SimpleTests.TestSum1To100 and the legacy tests of
  the same name take the mnemonic list as the mnemonics of the program's instructions. That
  this list is the one written in the test is `MachineCodeGenerationTexts` and
  `Sum1To100AsmTexts`. TestSequence1To15 takes its 152 mnemonics as eight parts joined in
  order.
- SimpleTests.TestSum1To10 and the other test methods return what the test checks instead
  of failing the test; the `fmt`/`log` output and the `CPUStatus` channel the tests create
  are left out.
