/**
 * The `CPU` struct of cpu.go as a class over arrays. Each method states the new abstract
 * value `Abs()` as a function of the old one, using the transition functions of
 * LegacyMachine; the properties of those functions are proved in LegacyProperties.
 */
module Cpu {
  import opened Words
  import opened Isa
  import opened LegacyMachine

  class CPU {
    const Registers: array<i64>
    const Labels: array<int>
    var PC: int
    const Stack: array<i64>
    var SP: int

    ghost predicate Valid()
      reads this
    {
      Registers.Length == 17 && Labels.Length == 16 && Stack.Length == StackSize &&
      Registers != Stack
    }

    /** The machine state held by the fields. */
    function Abs(): (s: State)
      reads this, Registers, Labels, Stack
      requires Valid()
      ensures WF(s)
    {
      State(Registers[..], Labels[..], PC, Stack[..], SP)
    }

    /** The zero value `CPU{}`. */
    constructor ()
      ensures Valid() && Abs() == ResetState()
      ensures fresh(Registers) && fresh(Labels) && fresh(Stack)
    {
      Registers := new i64[17](_ => 0);
      Labels := new int[16](_ => 0);
      Stack := new i64[StackSize](_ => 0);
      PC, SP := 0, 0;
      new;
      assert Registers[..] == seq(17, _ => 0);
      assert Labels[..] == seq(16, _ => 0);
      assert Stack[..] == seq(StackSize, _ => 0);
    }

    /** Executes the instruction at `code[PC]`. */
    method FetchInstruction(code: seq<u8>)
      requires Valid() && !StepFaults(Abs(), code)
      modifies this, Registers, Stack
      ensures Valid()
      ensures Abs() == Step(old(Abs()), code)
    {
      var instruction := code[PC];
      PC := PC + 1;
      var op := OpBits(instruction);
      if op == MaskSet {
        Registers[0] := Imm5(instruction);
      } else if op == MaskAdd {
        var reg := OperandReg(instruction);
        Registers[0] := Wrap64(Registers[0] as int + Registers[reg]);
      } else if op == MaskSub {
        var reg := OperandReg(instruction);
        Registers[0] := Wrap64(Registers[0] as int - Registers[reg]);
      } else if op == MaskMul {
        var reg := OperandReg(instruction);
        Registers[0] := Wrap64(Registers[0] as int * Registers[reg]);
      } else if op == MaskPush {
        var reg: u8 := if OptBit(instruction) == 1 then 0 else OperandReg(instruction);
        Stack[SP] := Registers[reg];
        SP := SP + 1;
      } else if op == MaskPop {
        var reg: u8 := if OptBit(instruction) == 1 then 0 else OperandReg(instruction);
        SP := SP - 1;
        Registers[reg] := Stack[SP];
      } else if op == MaskGoto {
        if OptBit(instruction) == 1 {
          if Registers[0] != 0 {
            PC := Labels[Field4(instruction)];
          }
        } else {
          if Registers[0] == 0 {
            PC := Labels[Field4(instruction)];
          }
        }
      }
    }

    /** Records, for every LABEL byte in code[0..codeLength), its offset plus one. */
    method Preprocess(code: seq<u8>, codeLength: int)
      requires Valid() && codeLength <= |code|
      modifies Labels
      ensures Abs() == PreprocessState(old(Abs()), code, codeLength)
    {
      var i := 0;
      while i < codeLength
        invariant 0 <= i <= (if codeLength < 0 then 0 else codeLength)
        invariant Labels[..] == ScanLabels(old(Labels[..]), code, i)
      {
        if OpBits(code[i]) == MaskLabel {
          var id := Field4(code[i]);
          Labels[id] := i + 1;
        }
        i := i + 1;
      }
    }

    method Reset()
      requires Valid()
      modifies this, Registers, Labels, Stack
      ensures Valid()
      ensures Abs() == ResetState()
    {
      PC := 0;
      SP := 0;
      var i := 0;
      while i < 16
        invariant 0 <= i <= 16
        invariant forall k :: 0 <= k < i ==> Labels[k] == 0
        modifies Labels
      {
        Labels[i] := 0;
        i := i + 1;
      }
      i := 0;
      while i < 17
        invariant 0 <= i <= 17
        invariant forall k :: 0 <= k < i ==> Registers[k] == 0
        modifies Registers
      {
        Registers[i] := 0;
        i := i + 1;
      }
      i := 0;
      while i < StackSize
        invariant 0 <= i <= StackSize
        invariant forall k :: 0 <= k < i ==> Stack[k] == 0
        modifies Stack
      {
        Stack[i] := 0;
        i := i + 1;
      }
      assert Labels[..] == seq(16, _ => 0);
      assert Registers[..] == seq(17, _ => 0);
      assert Stack[..] == seq(StackSize, _ => 0);
    }

    /** Resets the CPU and runs `code` until PC reaches codeLength, for at most `fuel`
        instructions; returns R0. */
    method Run(code: seq<u8>, codeLength: int, fuel: nat) returns (r0: i64, exit: Exit)
      requires Valid() && codeLength <= |code|
      modifies this, Registers, Labels, Stack
      ensures Valid()
      ensures Abs() == RunSpec(code, codeLength, fuel)
      ensures r0 == Registers[0] && exit == RunExit(Abs(), code, codeLength)
    {
      Reset();
      Preprocess(code, codeLength);
      exit := FetchUntil(code, codeLength, fuel);
      r0 := Registers[0];
    }

    /** The loop of Run: fetches while PC < codeLength, for at most `fuel` instructions. */
    method FetchUntil(code: seq<u8>, codeLength: int, fuel: nat) returns (exit: Exit)
      requires Valid()
      modifies this, Registers, Stack
      ensures Valid()
      ensures Abs() == RunCode(old(Abs()), code, codeLength, fuel)
      ensures exit == RunExit(Abs(), code, codeLength)
    {
      ghost var target := RunCode(Abs(), code, codeLength, fuel);
      var f := fuel;
      while PC < codeLength && f > 0 && !StepFaults(Abs(), code)
        invariant Valid()
        invariant RunCode(Abs(), code, codeLength, f) == target
        decreases f
      {
        StepInRun(target, code, codeLength, f);
        f := f - 1;
      }
      if PC >= codeLength {
        exit := Finished;
      } else if StepFaults(Abs(), code) {
        exit := Panicked;
      } else {
        exit := OutOfFuel;
      }
    }

    /** One iteration of Run's loop, which uses up one unit of the remaining fuel `f` of a
        run that ends in `target`. */
    method StepInRun(ghost target: State, code: seq<u8>, codeLength: int, f: nat)
      requires Valid() && PC < codeLength && f > 0 && !StepFaults(Abs(), code)
      requires RunCode(Abs(), code, codeLength, f) == target
      modifies this, Registers, Stack
      ensures Valid()
      ensures RunCode(Abs(), code, codeLength, f - 1) == target
    {
      RunCodeAdvance(Abs(), code, codeLength, f);
      FetchInstruction(code);
    }
  }
}
