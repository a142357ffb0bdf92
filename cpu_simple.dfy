/**
 * The `CPU` struct of cpusimple/cpusimple.go as a class over arrays. Every method that
 * changes the CPU states its new abstract value `Abs()` as a function of the old one, using
 * the transition functions of SimpleMachine; the properties of those functions are proved
 * there and in SimpleProperties.
 */
module CpuSimple {
  import opened Words
  import opened Isa
  import opened SimpleMachine

  class CPU {
    const Registers: array<u16>
    const Labels: array<u16>
    var PC: u16
    var SP: u16
    var Flag: bool
    var Memory: array<u8>
    var StackHead: u16
    var StackSize: u16
    var Clock: i64
    var HaltFlag: bool
    var RunningFlag: bool

    ghost predicate Valid()
      reads this
    {
      Registers.Length == 17 && Labels.Length == 16 && Registers != Labels
    }

    /** The machine state held by the fields. */
    function Abs(): (s: State)
      reads this, Registers, Labels, Memory
      requires Valid()
      ensures WF(s)
    {
      State(Registers[..], Labels[..], PC, SP, Flag, Memory[..], StackHead, RunningFlag, HaltFlag)
    }

    /** The zero value `CPU{}`. */
    constructor ()
      ensures Valid() && Abs() == ZeroState()
      ensures fresh(Registers) && fresh(Labels) && fresh(Memory)
      ensures StackSize == 0 && Clock == 0
    {
      Registers := new u16[17](_ => 0);
      Labels := new u16[16](_ => 0);
      Memory := new u8[0];
      PC, SP, Flag := 0, 0, false;
      StackHead, StackSize, Clock := 0, 0, 0;
      HaltFlag, RunningFlag := false, false;
    }

    /** Executes the instruction at `code[PC]`. */
    method FetchInstruction(code: seq<u8>)
      requires Valid() && PC < |code| && !StepFaults(Abs(), code[PC])
      modifies this, Registers, Memory
      ensures Valid() && Memory == old(Memory)
      ensures StackSize == old(StackSize) && Clock == old(Clock)
      ensures Abs() == Step(old(Abs()), code[old(PC)])
    {
      var instruction := code[PC];
      PC := Wrap16(PC + 1);
      if IsExtendedByte(instruction) {
        ProcessExtendedOpCode(instruction);
        return;
      }
      ExecuteBase(instruction);
    }

    /** The dispatch of FetchInstruction on the top three bits of a base instruction byte;
        PC already points past it. */
    method ExecuteBase(instruction: u8)
      requires Valid() && !IsExtendedByte(instruction)
      requires !BaseFaults(Abs(), DecodeBase(instruction))
      modifies this, Registers, Memory
      ensures Valid() && Memory == old(Memory)
      ensures StackSize == old(StackSize) && Clock == old(Clock)
      ensures Abs() == ExecBase(old(Abs()), DecodeBase(instruction))
    {
      var op := OpBits(instruction);
      if op == MaskSet {
        Registers[0] := Imm5(instruction);
      } else if op == MaskAdd {
        var reg := OperandReg(instruction);
        Registers[0] := Wrap16(Registers[0] as int + Registers[reg]);
      } else if op == MaskSub {
        var reg := OperandReg(instruction);
        Registers[0] := Wrap16(Registers[0] as int - Registers[reg]);
      } else if op == MaskMul {
        var reg := OperandReg(instruction);
        Registers[0] := Wrap16(Registers[0] as int * Registers[reg]);
      } else if op == MaskPush {
        var reg: u8 := if OptBit(instruction) == 1 then 0 else OperandReg(instruction);
        PushRegOnStack(reg);
      } else if op == MaskPop {
        var reg: u8 := if OptBit(instruction) == 1 then 0 else OperandReg(instruction);
        var _ := PopRegFromStack(reg);
      } else if op == MaskGoto {
        if OptBit(instruction) == 1 {
          if Registers[0] != 0 {
            PC := Labels[Field4(instruction)];
          }
        } else {
          if Registers[0] == 0 {
            PC := Labels[Field4(instruction)];
          }
        }
      }
    }

    /** Executes an extended instruction; PC already points past the opcode byte. */
    method ProcessExtendedOpCode(instruction: u8)
      requires Valid() && !ExtFaults(Abs(), DecodeExtended(instruction))
      modifies this, Registers, Memory
      ensures Valid() && Memory == old(Memory)
      ensures StackSize == old(StackSize) && Clock == old(Clock)
      ensures Abs() == ExecExtended(old(Abs()), DecodeExtended(instruction))
    {
      var op := instruction % 16;
      if op == 0x01 {
        RunningFlag := false;
        HaltFlag := true;
      } else if op == 0x00 {
      } else if op == 0x02 {
        Memory[PC] := HiByte(Registers[0]);
        Memory[Wrap16(PC + 1)] := LoByte(Registers[0]);
        PC := Wrap16(PC + 2);
      } else if op == 0x03 {
        var hibyte := Memory[PC];
        var lobyte := Memory[Wrap16(PC + 1)];
        Registers[0] := Word(hibyte, lobyte);
        PC := Wrap16(PC + 2);
      } else if op == 0x04 {
        var temp := Registers[0];
        Registers[0] := Registers[1];
        Registers[1] := temp;
      } else if op == 0x05 {
      } else if op == 0x06 {
      } else if op == 0x07 {
        if Registers[0] == Registers[1] {
          Flag := true;
        } else {
          Flag := false;
        }
      }
    }

    /** pushRegOnStack: the high byte ends at the new SP, the low byte just above it. */
    method PushRegOnStack(reg: u8)
      requires Valid() && reg < 17 && !PushFaults(Abs())
      modifies this, Memory
      ensures Valid() && Memory == old(Memory)
      ensures StackSize == old(StackSize) && Clock == old(Clock)
      ensures Abs() == PushWord(old(Abs()), old(Registers[reg]))
    {
      var v := Registers[reg];
      var b0, b1 := HiByte(v), LoByte(v);
      SP := Wrap16(SP - 1);
      Memory[SP] := b1;
      SP := Wrap16(SP - 1);
      Memory[SP] := b0;
    }

    /** popRegFromStack: reads the big-endian word at SP into the register. */
    method PopRegFromStack(reg: u8) returns (rval: u16)
      requires Valid() && reg < 17 && !PopFaults(Abs())
      modifies this, Registers
      ensures Valid() && Memory == old(Memory)
      ensures StackSize == old(StackSize) && Clock == old(Clock)
      ensures Abs() == PopWord(old(Abs()), reg as nat)
      ensures rval == Registers[reg]
    {
      rval := Word(Memory[SP], Memory[SP + 1]);
      Registers[reg] := rval;
      SP := Wrap16(SP + 2);
    }

    /** Records, for every LABEL byte in code[0..codeLength), its offset plus one. */
    method Preprocess(code: seq<u8>, codeLength: u16)
      requires Valid() && codeLength <= |code|
      modifies Labels
      ensures Labels[..] == PreprocessLabels(old(Labels[..]), code, codeLength)
    {
      var i := 0;
      while i < codeLength
        invariant 0 <= i <= codeLength
        invariant Labels[..] == PreprocessLabels(old(Labels[..]), code, i)
      {
        if OpBits(code[i]) == MaskLabel {
          var id := Field4(code[i]);
          Labels[id] := i + 1;
        }
        i := i + 1;
      }
    }

    method Reset()
      requires Valid()
      modifies this, Registers, Labels, Memory
      ensures Valid() && Memory == old(Memory)
      ensures StackSize == old(StackSize) && Clock == old(Clock)
      ensures Abs() == ResetState(old(Abs()))
    {
      PC := 0;
      SP := Wrap16(StackHead + 2);
      RunningFlag := false;
      HaltFlag := false;
      var i := 0;
      while i < Memory.Length
        invariant 0 <= i <= Memory.Length
        invariant forall k :: 0 <= k < i ==> Memory[k] == 0
        modifies Memory
      {
        Memory[i] := 0;
        i := i + 1;
      }
      i := 0;
      while i < 16
        invariant 0 <= i <= 16
        invariant forall k :: 0 <= k < i ==> Labels[k] == 0
        modifies Labels
      {
        Labels[i] := 0;
        i := i + 1;
      }
      i := 0;
      while i < 17
        invariant 0 <= i <= 17
        invariant forall k :: 0 <= k < i ==> Registers[k] == 0
        modifies Registers
      {
        Registers[i] := 0;
        i := i + 1;
      }
      assert Memory[..] == seq(Memory.Length, _ => 0);
      assert Labels[..] == seq(16, _ => 0);
      assert Registers[..] == seq(17, _ => 0);
    }

    /** Runs the program `code` from a reset CPU until PC reaches codeLength, for at most
        `fuel` instructions, and returns R0. */
    method Run(code: seq<u8>, codeLength: u16, fuel: nat) returns (r0: u16, exit: Exit)
      requires Valid() && codeLength <= |code|
      modifies this, Registers, Labels, Memory
      ensures Valid() && Memory == old(Memory)
      ensures StackSize == old(StackSize) && Clock == old(Clock)
      ensures Abs() == RunSpec(old(Abs()), code, codeLength, fuel)
      ensures r0 == Registers[0] && exit == RunExit(Abs(), code, codeLength)
    {
      Reset();
      Preprocess(code, codeLength);
      exit := FetchUntil(code, codeLength, fuel);
      r0 := Registers[0];
    }

    /** The loop of Run: fetches from `code` while PC < codeLength, for at most `fuel`
        instructions. */
    method FetchUntil(code: seq<u8>, codeLength: u16, fuel: nat) returns (exit: Exit)
      requires Valid() && codeLength <= |code|
      modifies this, Registers, Memory
      ensures Valid() && Memory == old(Memory)
      ensures StackSize == old(StackSize) && Clock == old(Clock)
      ensures Abs() == RunCode(old(Abs()), code, codeLength, fuel)
      ensures exit == RunExit(Abs(), code, codeLength)
    {
      ghost var target := RunCode(Abs(), code, codeLength, fuel);
      var f := fuel;
      while PC < codeLength && f > 0 && !StepFaults(Abs(), code[PC])
        invariant Valid() && Memory == old(Memory)
        invariant StackSize == old(StackSize) && Clock == old(Clock)
        invariant RunCode(Abs(), code, codeLength, f) == target
        decreases f
      {
        StepInRun(target, code, codeLength, f);
        f := f - 1;
      }
      if PC >= codeLength {
        exit := Finished;
      } else if StepFaults(Abs(), code[PC]) {
        exit := Panicked;
      } else {
        exit := OutOfFuel;
      }
    }

    /** One iteration of Run's loop: executes code[PC], which uses up one unit of the
        remaining fuel `f` of a run that ends in `target`. */
    method StepInRun(ghost target: State, code: seq<u8>, codeLength: u16, f: nat)
      requires Valid() && codeLength <= |code| && PC < codeLength && f > 0
      requires !StepFaults(Abs(), code[PC])
      requires RunCode(Abs(), code, codeLength, f) == target
      modifies this, Registers, Memory
      ensures Valid() && Memory == old(Memory)
      ensures StackSize == old(StackSize) && Clock == old(Clock)
      ensures RunCode(Abs(), code, codeLength, f - 1) == target
    {
      RunCodeAdvance(Abs(), code, codeLength, f);
      FetchInstruction(code);
    }

    /** Runs the program held in Memory from the current PC while RunningFlag is set, for at
        most `fuel` instructions; the status replaces the message sent on CPUStatus.
        `codeLength` is not used, as in the source. */
    method RunFromPC(codeLength: int, fuel: nat) returns (status: Exit)
      requires Valid()
      modifies this, Registers, Memory
      ensures Valid() && Memory == old(Memory)
      ensures StackSize == old(StackSize) && Clock == old(Clock)
      ensures Abs() == RunMemory(old(Abs()), fuel)
      ensures status == RunMemoryExit(Abs())
    {
      FetchWhileRunning(fuel);
      WrapBelow(Memory.Length);
      if PC >= Wrap16(Memory.Length) {
        SetRunning(false);
        SetHalt(true);
        status := EndOfMemoryFault;
      } else if !RunningFlag {
        status := ExitedRunLoop;
      } else if StepFaults(Abs(), Memory[PC]) {
        status := Panicked;
      } else {
        status := OutOfFuel;
      }
    }

    /** The loop of RunFromPC: fetches from Memory while PC < uint16(len(Memory)) and
        RunningFlag is set, for at most `fuel` instructions. */
    method FetchWhileRunning(fuel: nat)
      requires Valid()
      modifies this, Registers, Memory
      ensures Valid() && Memory == old(Memory)
      ensures StackSize == old(StackSize) && Clock == old(Clock)
      ensures Abs() == MemoryLoop(old(Abs()), fuel)
    {
      var limit := Wrap16(Memory.Length);
      WrapBelow(Memory.Length);
      ghost var target := MemoryLoop(Abs(), fuel);
      var f := fuel;
      while PC < limit && RunningFlag && f > 0 && !StepFaults(Abs(), Memory[PC])
        invariant limit == MemLimit(Abs()) && limit <= Memory.Length
        invariant Valid() && Memory == old(Memory)
        invariant StackSize == old(StackSize) && Clock == old(Clock)
        invariant MemoryLoop(Abs(), f) == target
        decreases f
      {
        StepInRunFromPC(target, f);
        f := f - 1;
      }
      MemoryLoopDone(Abs(), f);
    }

    /** One iteration of RunFromPC's loop: executes the byte at PC, which uses up one unit of
        the remaining fuel `f` of a run that ends in `target`. */
    method StepInRunFromPC(ghost target: State, f: nat)
      requires Valid() && PC < Wrap16(Memory.Length) && PC < Memory.Length
      requires RunningFlag && f > 0 && !StepFaults(Abs(), Memory[PC])
      requires MemoryLoop(Abs(), f) == target
      modifies this, Registers, Memory
      ensures Valid() && Memory == old(Memory)
      ensures StackSize == old(StackSize) && Clock == old(Clock)
      ensures MemoryLoop(Abs(), f - 1) == target
    {
      MemoryLoopAdvance(Abs(), f);
      FetchInstruction(Memory[..]);
    }

    method VerifyProgramInMemory() returns (present: bool)
      requires Valid() && Memory.Length >= 1 && (Memory[0] == 0 ==> Memory.Length >= 2)
      ensures present == ProgramPresent(Abs())
    {
      if Memory[0] == 0 && Memory[1] == 0 {
        return false;
      }
      return true;
    }

    /** Copies program[0..programLength) to the start of Memory. */
    method Load(program: seq<u8>, programLength: int)
      requires Valid() && programLength <= |program| && programLength <= Memory.Length
      modifies Memory
      ensures Abs() == LoadState(old(Abs()), program, programLength)
    {
      var i := 0;
      while i < programLength
        invariant 0 <= i <= (if programLength < 0 then 0 else programLength)
        invariant forall k :: 0 <= k < i ==> Memory[k] == program[k]
        invariant forall k :: i <= k < Memory.Length ==> Memory[k] == old(Memory[k])
        modifies Memory
      {
        Memory[i] := program[i];
        i := i + 1;
      }
      if programLength > 0 {
        assert Memory[..] == program[..programLength] + old(Memory[..])[programLength..];
      }
    }

    /** Appends `size` zero bytes to Memory. */
    method InitMemory(size: u16)
      requires Valid()
      modifies this
      ensures Valid() && fresh(Memory)
      ensures StackSize == old(StackSize) && Clock == old(Clock)
      ensures Abs() == InitMemoryState(old(Abs()), size)
    {
      var tempSlice := new u8[size](_ => 0);
      var i := 1;
      while i < size
        invariant forall k :: 0 <= k < size ==> tempSlice[k] == 0
        modifies tempSlice
      {
        tempSlice[i] := 0;
        i := i + 1;
      }
      var grown := new u8[Memory.Length + size];
      var j := 0;
      while j < grown.Length
        invariant 0 <= j <= grown.Length
        invariant forall k :: 0 <= k < j ==>
          grown[k] == if k < Memory.Length then Memory[k] else tempSlice[k - Memory.Length]
        modifies grown
      {
        grown[j] := if j < Memory.Length then Memory[j] else tempSlice[j - Memory.Length];
        j := j + 1;
      }
      assert grown[..] == Memory[..] + seq(size, _ => 0);
      Memory := grown;
    }

    /** Sets SP and StackHead to `loc` rounded down to an even address. */
    method InitStack(loc: u16)
      requires Valid()
      modifies this
      ensures Valid() && Memory == old(Memory)
      ensures StackSize == old(StackSize) && Clock == old(Clock)
      ensures Abs() == InitStackState(old(Abs()), loc)
    {
      var head := loc;
      if head % 2 != 0 {
        head := head - 1;
      }
      SP := head;
      StackHead := head;
    }

    method SetClock(delay: i64)
      modifies this`Clock
      ensures Clock == delay
    {
      Clock := delay;
    }

    method SetHalt(flag: bool)
      modifies this`HaltFlag
      ensures HaltFlag == flag
    {
      HaltFlag := flag;
    }

    method GetHalt() returns (flag: bool)
      ensures flag == HaltFlag
    {
      flag := HaltFlag;
    }

    method SetRunning(flag: bool)
      modifies this`RunningFlag
      ensures RunningFlag == flag
    {
      RunningFlag := flag;
    }

    method GetRunning() returns (flag: bool)
      ensures flag == RunningFlag
    {
      flag := RunningFlag;
    }
  }
}
