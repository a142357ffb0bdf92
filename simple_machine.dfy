/**
 * The 16-bit machine of cpusimple/cpusimple.go as a state-transition system: one value
 * `State` per snapshot of the CPU struct, one function per operation. The class in
 * CpuSimple is proved to change its fields exactly as these functions say.
 *
 * Go's index checks are modelled as predicates (`PushFaults`, `StepFaults`, ...): a single
 * step requires that no access is out of range, and the run loops stop with a panic outcome
 * where the Go program would crash.
 */
module SimpleMachine {
  import opened Words
  import opened Isa

  datatype State = State(
    regs: seq<u16>,     // Registers [17]uint16; R0 is the accumulator
    labels: seq<u16>,   // Labels [16]uint16
    pc: u16,
    sp: u16,
    flag: bool,         // set by CMP
    mem: seq<u8>,       // Memory: code, data and the downward-growing stack
    stackHead: u16,
    running: bool,      // RunningFlag
    halted: bool)       // HaltFlag

  predicate WF(s: State) { |s.regs| == 17 && |s.labels| == 16 }

  /** The zero value `CPU{}`: everything zero, no memory. */
  function ZeroState(): (s: State)
    ensures WF(s)
  {
    State(seq(17, _ => 0), seq(16, _ => 0), 0, 0, false, [], 0, false, false)
  }

  // ---------------------------------------------------------------------------------------
  // Stack helpers: pushRegOnStack and popRegFromStack

  /** pushRegOnStack writes below SP; with uint16 wrap-around the indices are SP-1 and SP-2. */
  predicate PushFaults(s: State)
  {
    Wrap16(s.sp - 1) >= |s.mem| || Wrap16(s.sp - 2) >= |s.mem|
  }

  /** popRegFromStack reads Memory[SP] and Memory[SP+1] (int indices, no wrap-around). */
  predicate PopFaults(s: State)
  {
    s.sp + 1 >= |s.mem|
  }

  /**
   * Push `v`: SP moves down by two and the new top of stack holds `v` big-endian; no other
   * byte and no other field changes.
   */
  function PushWord(s: State, v: u16): (t: State)
    requires !PushFaults(s)
    ensures |t.mem| == |s.mem|
  {
    var lo := Wrap16(s.sp - 1);
    var hi := Wrap16(lo - 1);
    s.(sp := hi, mem := s.mem[lo := LoByte(v)][hi := HiByte(v)])
  }

  lemma PushWordSpec(s: State, v: u16)
    requires !PushFaults(s)
    ensures var t := PushWord(s, v); t.sp == Wrap16(s.sp - 2)
    ensures var t := PushWord(s, v); Word(t.mem[t.sp], t.mem[Wrap16(t.sp + 1)]) == v
    ensures var t := PushWord(s, v);
      forall i :: 0 <= i < |s.mem| && i != t.sp && i != Wrap16(t.sp + 1) ==> t.mem[i] == s.mem[i]
    ensures var t := PushWord(s, v); t == s.(sp := t.sp, mem := t.mem)
  {
    WordOfBytes(v);
  }

  /** Away from address 0 a push does not wrap: SP drops by two and the word is stored at
      the new SP and SP + 1. */
  lemma PushWordNoWrap(s: State, v: u16)
    requires 2 <= s.sp <= |s.mem|
    ensures !PushFaults(s)
    ensures PushWord(s, v) ==
      s.(sp := s.sp - 2, mem := s.mem[s.sp - 1 := LoByte(v)][s.sp - 2 := HiByte(v)])
  {
  }

  /** Pop the big-endian word at SP into register `r`; SP moves up by two. */
  function PopWord(s: State, r: nat): (t: State)
    requires WF(s) && r < 17 && !PopFaults(s)
    ensures WF(t)
  {
    s.(regs := s.regs[r := Word(s.mem[s.sp], s.mem[s.sp + 1])], sp := Wrap16(s.sp + 2))
  }

  /** Pop the word stored big-endian at SP and SP + 1 into register `r` alone; SP moves up
      by two and nothing else changes. */
  lemma PopWordSpec(s: State, r: nat)
    requires WF(s) && r < 17 && !PopFaults(s)
    ensures var t := PopWord(s, r); t.sp == Wrap16(s.sp + 2)
    ensures PopWord(s, r).regs[r] == Word(s.mem[s.sp], s.mem[s.sp + 1])
    ensures var t := PopWord(s, r); forall k :: 0 <= k < 17 && k != r ==> t.regs[k] == s.regs[k]
    ensures var t := PopWord(s, r); t == s.(regs := t.regs, sp := t.sp)
  {
  }

  // ---------------------------------------------------------------------------------------
  // Execution of one decoded instruction; `s.pc` has already been incremented.

  /** GOTO's condition: low bit 1 jumps when R0 != 0, low bit 0 jumps when R0 == 0. */
  predicate GotoTaken(r0: u16, ifNonZero: bool)
  {
    (ifNonZero && r0 != 0) || (!ifNonZero && r0 == 0)
  }

  predicate BaseFaults(s: State, i: Instr)
  {
    (i.Push? && PushFaults(s)) || (i.Pop? && PopFaults(s))
  }

  function ExecBase(s: State, i: Instr): (t: State)
    requires WF(s) && BaseOperandsInRange(i) && !BaseFaults(s, i)
    ensures WF(t)
  {
    match i
    case Set(v) => s.(regs := s.regs[0 := v])
    case Add(r) => s.(regs := s.regs[0 := Wrap16(s.regs[0] as int + s.regs[r])])
    case Sub(r) => s.(regs := s.regs[0 := Wrap16(s.regs[0] as int - s.regs[r])])
    case Mul(r) => s.(regs := s.regs[0 := Wrap16(s.regs[0] as int * s.regs[r])])
    case Push(r) => PushWord(s, s.regs[r])
    case Pop(r) => PopWord(s, r)
    case Goto(l, nz) => if GotoTaken(s.regs[0], nz) then s.(pc := s.labels[l]) else s
    case Label(_) => s
  }

  /** STORE and LOAD use the two bytes at PC and PC+1 (uint16 index arithmetic). */
  predicate ExtFaults(s: State, op: ExtOp)
  {
    (op == Store || op == Load) && (s.pc >= |s.mem| || Wrap16(s.pc + 1) >= |s.mem|)
  }

  /** ProcessExtendedOpCode. */
  function ExecExtended(s: State, op: ExtOp): (t: State)
    requires WF(s) && !ExtFaults(s, op)
    ensures WF(t)
  {
    match op
    case Halt => s.(running := false, halted := true)
    case Noop => s
    case Store =>
      s.(mem := s.mem[s.pc := HiByte(s.regs[0])][Wrap16(s.pc + 1) := LoByte(s.regs[0])],
         pc := Wrap16(s.pc + 2))
    case Load =>
      s.(regs := s.regs[0 := Word(s.mem[s.pc], s.mem[Wrap16(s.pc + 1)])], pc := Wrap16(s.pc + 2))
    case Swap => s.(regs := s.regs[0 := s.regs[1]][1 := s.regs[0]])
    case JumpSub => s
    case Return => s
    case Cmp => s.(flag := s.regs[0] == s.regs[1])
    case Undefined(_) => s
  }

  /** Executing byte `b` would index Memory out of range (a Go panic). */
  predicate StepFaults(s: State, b: u8)
  {
    var s1 := s.(pc := Wrap16(s.pc + 1));
    match DecodeSimple(b)
    case Extended(op) => ExtFaults(s1, op)
    case i => BaseFaults(s1, i)
  }

  /** The PC after executing `b` in `s`, as the instruction set promises it. */
  function NextPc(s: State, b: u8): u16
    requires WF(s)
  {
    var i := DecodeSimple(b);
    if i.Goto? && GotoTaken(s.regs[0], i.ifNonZero) then s.labels[i.target]
    else if i == Extended(Store) || i == Extended(Load) then Wrap16(s.pc + 3)
    else Wrap16(s.pc + 1)
  }

  /**
   * FetchInstruction on the byte `b` read at PC: PC is incremented once, then bytes
   * 0x10-0x1f go to the extended handler and the others dispatch on their top three bits.
   */
  function Step(s: State, b: u8): (t: State)
    requires WF(s) && !StepFaults(s, b)
    ensures WF(t)
    ensures t.labels == s.labels && t.stackHead == s.stackHead && |t.mem| == |s.mem|
  {
    var s1 := s.(pc := Wrap16(s.pc + 1));
    match DecodeSimple(b)
    case Extended(op) => ExecExtended(s1, op)
    case i => ExecBase(s1, i)
  }

  /** PC ends one past the instruction byte, three past for STORE and LOAD (their operand
      bytes are skipped), or at the label's address when a GOTO is taken. */
  lemma StepPc(s: State, b: u8)
    requires WF(s) && !StepFaults(s, b)
    ensures Step(s, b).pc == NextPc(s, b)
  {
    var s1 := s.(pc := Wrap16(s.pc + 1));
    match DecodeSimple(b)
    case Extended(op) =>
      if op == Store || op == Load {
        assert Wrap16(s1.pc + 2) == Wrap16(s.pc + 3);
      }
    case i =>
  }

  /** SET, ADD, SUB and MUL change R0 (and PC) and nothing else. */
  lemma StepArithmeticOnlyR0(s: State, b: u8)
    requires WF(s) && !StepFaults(s, b)
    requires var i := DecodeSimple(b); i.Set? || i.Add? || i.Sub? || i.Mul?
    ensures var t := Step(s, b); t == s.(pc := Wrap16(s.pc + 1), regs := s.regs[0 := t.regs[0]])
  {
  }

  /** Only HALT touches the run flags and only CMP the condition flag. */
  lemma StepFlags(s: State, b: u8)
    requires WF(s) && !StepFaults(s, b)
    ensures var t := Step(s, b);
      (t.running != s.running || t.halted != s.halted) ==> DecodeSimple(b) == Extended(Halt)
    ensures Step(s, b).flag != s.flag ==> DecodeSimple(b) == Extended(Cmp)
  {
  }

  /** Only PUSH and STORE write memory; only PUSH and POP move SP. */
  lemma StepWriters(s: State, b: u8)
    requires WF(s) && !StepFaults(s, b)
    ensures Step(s, b).mem != s.mem ==> DecodeSimple(b).Push? || DecodeSimple(b) == Extended(Store)
    ensures Step(s, b).sp != s.sp ==> DecodeSimple(b).Push? || DecodeSimple(b).Pop?
  {
  }

  // ---------------------------------------------------------------------------------------
  // Lifecycle

  /** Reset: PC 0, SP one word above StackHead, run flags cleared, memory, labels and
      registers zeroed; Flag and StackHead are left as they were. */
  function ResetState(s: State): (t: State)
    ensures WF(t)
  {
    State(seq(17, _ => 0), seq(16, _ => 0), 0, Wrap16(s.stackHead + 2), s.flag,
          seq(|s.mem|, _ => 0), s.stackHead, false, false)
  }

  /** The label table after Preprocess(code, n). */
  function PreprocessLabels(labels: seq<u16>, code: seq<u8>, n: nat): (r: seq<u16>)
    requires |labels| == 16 && n <= |code| && n < 0x1_0000
    ensures |r| == 16 && r == ScanLabels(labels, code, n)
  {
    var scanned := ScanLabels(labels, code, n);
    seq(16, l requires 0 <= l < 16 => scanned[l])
  }

  function PreprocessState(s: State, code: seq<u8>, n: u16): (t: State)
    requires WF(s) && n <= |code|
    ensures WF(t)
  {
    s.(labels := PreprocessLabels(s.labels, code, n))
  }

  /** Load: the first `n` bytes of `program` are copied to Memory[0..n). */
  function LoadState(s: State, program: seq<u8>, n: int): (t: State)
    requires n <= |program| && n <= |s.mem|
    ensures |t.mem| == |s.mem|
    ensures forall i :: 0 <= i < |s.mem| ==> t.mem[i] == if i < n then program[i] else s.mem[i]
    ensures t == s.(mem := t.mem)
  {
    if n <= 0 then s else s.(mem := program[..n] + s.mem[n..])
  }

  /** InitMemory: `size` zero bytes are appended to Memory. */
  function InitMemoryState(s: State, size: u16): (t: State)
    ensures |t.mem| == |s.mem| + size && t.mem[..|s.mem|] == s.mem
    ensures forall i :: |s.mem| <= i < |t.mem| ==> t.mem[i] == 0
    ensures t == s.(mem := t.mem)
  {
    s.(mem := s.mem + seq(size, _ => 0))
  }

  /** InitStack: SP and StackHead both become `loc` rounded down to an even address. */
  function InitStackState(s: State, loc: u16): (t: State)
    ensures t.sp == t.stackHead && t.stackHead % 2 == 0
    ensures t.stackHead <= loc <= t.stackHead + 1
    ensures t == s.(sp := t.sp, stackHead := t.stackHead)
  {
    var head := if loc % 2 != 0 then loc - 1 else loc;
    s.(sp := head, stackHead := head)
  }

  /** VerifyProgramInMemory: a program is deemed present unless the first two bytes are 0.
      The second byte is read only when the first is 0, so one byte of Memory is enough
      when that byte is not 0. */
  predicate ProgramPresent(s: State): (present: bool)
    requires |s.mem| >= 1 && (s.mem[0] == 0 ==> |s.mem| >= 2)
    ensures !present <==> |s.mem| >= 2 && s.mem[..2] == [0, 0]
  {
    !(s.mem[0] == 0 && s.mem[1] == 0)
  }

  // ---------------------------------------------------------------------------------------
  // Run: reset, preprocess, then fetch from `code` while PC < codeLength

  /**
   * At most `fuel` iterations of Run's loop. The loop stops when PC reaches `n`, and stops
   * where the Go program would panic.
   */
  function RunCode(s: State, code: seq<u8>, n: u16, fuel: nat): (t: State)
    requires WF(s) && n <= |code|
    ensures WF(t)
    ensures t.labels == s.labels && t.stackHead == s.stackHead && |t.mem| == |s.mem|
    decreases fuel
  {
    if s.pc >= n || StepFaults(s, code[s.pc]) || fuel == 0 then s
    else RunCode(Step(s, code[s.pc]), code, n, fuel - 1)
  }

  /** How a loop of the model ended. */
  datatype Exit =
    | Finished          // Run: PC reached codeLength
    | ExitedRunLoop     // RunFromPC: RunningFlag was found false
    | EndOfMemoryFault  // RunFromPC: PC reached the end of Memory
    | Panicked          // the next instruction would index out of range
    | OutOfFuel         // the iteration bound of the model was reached

  function RunExit(t: State, code: seq<u8>, n: u16): Exit
    requires WF(t) && n <= |code|
  {
    if t.pc >= n then Finished else if StepFaults(t, code[t.pc]) then Panicked else OutOfFuel
  }

  /** Run(code, n) with at most `fuel` loop iterations. */
  function RunSpec(s: State, code: seq<u8>, n: u16, fuel: nat): (t: State)
    requires n <= |code|
    ensures WF(t)
  {
    RunCode(PreprocessState(ResetState(s), code, n), code, n, fuel)
  }

  /** One iteration of Run's loop leaves the end of the run unchanged. */
  lemma RunCodeAdvance(s: State, code: seq<u8>, n: u16, fuel: nat)
    requires WF(s) && n <= |code| && s.pc < n && fuel > 0
    requires !StepFaults(s, code[s.pc])
    ensures RunCode(Step(s, code[s.pc]), code, n, fuel - 1) == RunCode(s, code, n, fuel)
  {
  }

  /** Running `a` iterations and then `b` more is the same as running `a + b`. */
  lemma {:induction false} RunCodeAdditive(s: State, code: seq<u8>, n: u16, a: nat, b: nat)
    requires WF(s) && n <= |code|
    ensures RunCode(s, code, n, a + b) == RunCode(RunCode(s, code, n, a), code, n, b)
    decreases a
  {
    if s.pc >= n || StepFaults(s, code[s.pc]) {
    } else if a == 0 {
    } else {
      RunCodeAdditive(Step(s, code[s.pc]), code, n, a - 1, b);
    }
  }

  // ---------------------------------------------------------------------------------------
  // RunFromPC: fetch from Memory itself while PC < uint16(len(Memory)) and RunningFlag

  /** `uint16(len(c.Memory))`: the loop bound is truncated to 16 bits. */
  function MemLimit(s: State): u16 { Wrap16(|s.mem|) }

  /**
   * At most `fuel` iterations of RunFromPC's loop, which fetches from Memory itself while PC
   * is below the truncated memory size and RunningFlag is set, and stops where the Go
   * program would panic.
   */
  function MemoryLoop(s: State, fuel: nat): (t: State)
    requires WF(s)
    ensures WF(t)
    ensures t.labels == s.labels && t.stackHead == s.stackHead && |t.mem| == |s.mem|
    decreases fuel
  {
    if s.pc >= MemLimit(s) || !s.running || StepFaults(s, s.mem[s.pc]) || fuel == 0 then s
    else MemoryLoop(Step(s, s.mem[s.pc]), fuel - 1)
  }

  /** One iteration of RunFromPC's loop leaves the end of the run unchanged. */
  lemma MemoryLoopAdvance(s: State, fuel: nat)
    requires WF(s) && s.pc < MemLimit(s) && s.running && fuel > 0
    requires !StepFaults(s, s.mem[s.pc])
    ensures MemoryLoop(Step(s, s.mem[s.pc]), fuel - 1) == MemoryLoop(s, fuel)
  {
  }

  /** RunFromPC's loop, once its condition fails, leaves the state as it is. */
  lemma MemoryLoopDone(s: State, fuel: nat)
    requires WF(s)
    requires !(s.pc < MemLimit(s) && s.running && fuel > 0 && !StepFaults(s, s.mem[s.pc]))
    ensures MemoryLoop(s, fuel) == s
  {
  }

  /**
   * RunFromPC: the loop, then, when it ended because PC reached the end of memory (the
   * "End of memory fault"), RunningFlag cleared and HaltFlag set.
   */
  function RunMemory(s: State, fuel: nat): (t: State)
    requires WF(s)
    ensures WF(t)
    ensures t.labels == s.labels && t.stackHead == s.stackHead && |t.mem| == |s.mem|
  {
    var u := MemoryLoop(s, fuel);
    if u.pc >= MemLimit(u) then u.(running := false, halted := true) else u
  }

  function RunMemoryExit(t: State): Exit
    requires WF(t)
  {
    if t.pc >= MemLimit(t) then EndOfMemoryFault
    else if !t.running then ExitedRunLoop
    else if StepFaults(t, t.mem[t.pc]) then Panicked
    else OutOfFuel
  }
}
