/**
 * The earlier machine of cpu.go as a state-transition system. It shares the instruction
 * byte format with the 16-bit machine but has no extended instructions (SET loads 0-31),
 * keeps 64-bit `int` registers, and pushes onto a separate array of 1000 ints that grows
 * upwards: a push stores at SP and then increments it, a pop decrements SP and then loads.
 *
 * Go's index checks become predicates: a step requires that no index is out of range and
 * the run loop stops with a panic outcome where the Go program would crash.
 */
module LegacyMachine {
  import opened Words
  import opened Isa

  /** The length of the `Stack` array. */
  const StackSize: nat := 1000

  datatype State = State(
    regs: seq<i64>,     // Registers [17]int; R0 is the accumulator
    labels: seq<int>,   // Labels [16]int
    pc: int,
    stack: seq<i64>,    // Stack [1000]int
    sp: int)

  predicate WF(s: State) { |s.regs| == 17 && |s.labels| == 16 && |s.stack| == StackSize }

  /** Reset, and equally the zero value `CPU{}`: everything zero. */
  function ResetState(): (s: State)
    ensures WF(s)
  {
    State(seq(17, _ => 0), seq(16, _ => 0), 0, seq(StackSize, _ => 0), 0)
  }

  // ---------------------------------------------------------------------------------------
  // One instruction

  /** PUSH stores at Stack[SP]. */
  predicate PushFaults(s: State) { !(0 <= s.sp < StackSize) }

  /** POP loads from Stack[SP - 1]. */
  predicate PopFaults(s: State) { !(1 <= s.sp <= StackSize) }

  predicate BaseFaults(s: State, i: Instr)
  {
    (i.Push? && PushFaults(s)) || (i.Pop? && PopFaults(s))
  }

  /** GOTO's condition: low bit 1 jumps when R0 != 0, low bit 0 jumps when R0 == 0. */
  predicate GotoTaken(r0: i64, ifNonZero: bool)
  {
    (ifNonZero && r0 != 0) || (!ifNonZero && r0 == 0)
  }

  /** The effect of a decoded instruction; PC already points past it. */
  function Exec(s: State, i: Instr): (t: State)
    requires WF(s) && BaseOperandsInRange(i) && !BaseFaults(s, i)
    ensures WF(t)
  {
    match i
    case Set(v) => s.(regs := s.regs[0 := v])
    case Add(r) => s.(regs := s.regs[0 := Wrap64(s.regs[0] as int + s.regs[r])])
    case Sub(r) => s.(regs := s.regs[0 := Wrap64(s.regs[0] as int - s.regs[r])])
    case Mul(r) => s.(regs := s.regs[0 := Wrap64(s.regs[0] as int * s.regs[r])])
    case Push(r) => s.(stack := s.stack[s.sp := s.regs[r]], sp := s.sp + 1)
    case Pop(r) => s.(sp := s.sp - 1, regs := s.regs[r := s.stack[s.sp - 1]])
    case Goto(l, nz) => if GotoTaken(s.regs[0], nz) then s.(pc := s.labels[l]) else s
    case Label(_) => s
  }

  /** Fetching code[PC] or executing it would index out of range (a Go panic). */
  predicate StepFaults(s: State, code: seq<u8>)
  {
    !(0 <= s.pc < |code|) || BaseFaults(s.(pc := s.pc + 1), DecodeBase(code[s.pc]))
  }

  /** FetchInstruction: PC is incremented, then the top three bits select the operation. */
  function Step(s: State, code: seq<u8>): (t: State)
    requires WF(s) && !StepFaults(s, code)
    ensures WF(t) && t.labels == s.labels
  {
    Exec(s.(pc := s.pc + 1), DecodeBase(code[s.pc]))
  }

  // ---------------------------------------------------------------------------------------
  // Preprocess and Run

  /** Preprocess(code, n): LABEL bytes of code[0..n) record their offset plus one. */
  function PreprocessState(s: State, code: seq<u8>, n: int): (t: State)
    requires WF(s) && n <= |code|
    ensures WF(t) && t == s.(labels := t.labels)
  {
    if n <= 0 then s else s.(labels := ScanLabels(s.labels, code, n))
  }

  /** At most `fuel` iterations of Run's loop, which fetches while PC < n. */
  function RunCode(s: State, code: seq<u8>, n: int, fuel: nat): (t: State)
    requires WF(s)
    ensures WF(t) && t.labels == s.labels
    decreases fuel
  {
    if s.pc >= n || StepFaults(s, code) || fuel == 0 then s
    else RunCode(Step(s, code), code, n, fuel - 1)
  }

  /** How Run's loop ended. */
  datatype Exit =
    | Finished    // PC reached codeLength
    | Panicked    // the next fetch or stack access would index out of range
    | OutOfFuel   // the iteration bound of the model was reached

  function RunExit(t: State, code: seq<u8>, n: int): Exit
  {
    if t.pc >= n then Finished else if StepFaults(t, code) then Panicked else OutOfFuel
  }

  /** Run(code, n) with at most `fuel` loop iterations. */
  function RunSpec(code: seq<u8>, n: int, fuel: nat): (t: State)
    requires n <= |code|
    ensures WF(t)
  {
    RunCode(PreprocessState(ResetState(), code, n), code, n, fuel)
  }

  /** One iteration of Run's loop leaves the end of the run unchanged. */
  lemma RunCodeAdvance(s: State, code: seq<u8>, n: int, fuel: nat)
    requires WF(s) && s.pc < n && fuel > 0 && !StepFaults(s, code)
    ensures RunCode(Step(s, code), code, n, fuel - 1) == RunCode(s, code, n, fuel)
  {
  }
}
