/**
 * The tests of the cpusimple package as methods on the CPU class: each sets up a CPU as the
 * tests do, runs its program and returns what the test checks.
 */
module SimpleTests {
  import opened Words
  import opened Isa
  import opened Asm
  import opened AsmPrograms
  import opened SimpleMachine
  import opened SimplePrograms
  import opened CpuSimple

  // ---------------------------------------------------------------------------------------
  // The bytes AsmCodeToBytes makes of TestSequence1To15 are those Sequence1To15Bytes lists

  /** Bytes 0 to 19, from the encodings of their instructions. */
  lemma Sequence1To15Region0(code: seq<u8>)
    requires 20 <= |code| && AllBase(Sequence1To15Instrs0)
    requires forall k | 0 <= k < 20 :: code[k] == Encode(Sequence1To15Instrs0[k])
    ensures Sequence1To15PrefixBytes(code)
  {
  }

  /** Bytes 0 to 19 of the program are the encodings of Sequence1To15Instrs0. */
  lemma Sequence1To15At0()
    requires AllBase(Sequence1To15Program)
    ensures AllBase(Sequence1To15Instrs0)
    ensures forall k | 0 <= k < 20 ::
      Encodes(Sequence1To15Program)[k] == Encode(Sequence1To15Instrs0[k])
  {
  }

  /** Bytes 20 to 39, from the encodings of their instructions. */
  lemma Sequence1To15Region1(code: seq<u8>)
    requires 40 <= |code| && AllBase(Sequence1To15Instrs1)
    requires forall k | 20 <= k < 40 :: code[k] == Encode(Sequence1To15Instrs1[k - 20])
    ensures AddR1ToR4Code(code, 20) && IncR1Code(code, 25) && AddR1ToR4Code(code, 30) &&
      IncR1Code(code, 35)
  {
  }

  /** Bytes 20 to 39 of the program are the encodings of Sequence1To15Instrs1. */
  lemma Sequence1To15At1()
    requires AllBase(Sequence1To15Program)
    ensures AllBase(Sequence1To15Instrs1)
    ensures forall k | 20 <= k < 40 ::
      Encodes(Sequence1To15Program)[k] == Encode(Sequence1To15Instrs1[k - 20])
  {
  }

  /** Bytes 40 to 59, from the encodings of their instructions. */
  lemma Sequence1To15Region2(code: seq<u8>)
    requires 60 <= |code| && AllBase(Sequence1To15Instrs2)
    requires forall k | 40 <= k < 60 :: code[k] == Encode(Sequence1To15Instrs2[k - 40])
    ensures IncR1Code(code, 40) && AddR1ToR4Code(code, 45) && IncR1Code(code, 50) &&
      AddTwiceR1ToR4Code(code, 55)
  {
  }

  /** Bytes 40 to 59 of the program are the encodings of Sequence1To15Instrs2. */
  lemma Sequence1To15At2()
    requires AllBase(Sequence1To15Program)
    ensures AllBase(Sequence1To15Instrs2)
    ensures forall k | 40 <= k < 60 ::
      Encodes(Sequence1To15Program)[k] == Encode(Sequence1To15Instrs2[k - 40])
  {
  }

  /** Bytes 60 to 79, from the encodings of their instructions. */
  lemma Sequence1To15Region3(code: seq<u8>)
    requires 80 <= |code| && AllBase(Sequence1To15Instrs3)
    requires forall k | 60 <= k < 80 :: code[k] == Encode(Sequence1To15Instrs3[k - 60])
    ensures IncR1Code(code, 60) && IncR1Code(code, 65) && AddR1ToR4Code(code, 70) &&
      IncR1Code(code, 75)
  {
  }

  /** Bytes 60 to 79 of the program are the encodings of Sequence1To15Instrs3. */
  lemma Sequence1To15At3()
    requires AllBase(Sequence1To15Program)
    ensures AllBase(Sequence1To15Instrs3)
    ensures forall k | 60 <= k < 80 ::
      Encodes(Sequence1To15Program)[k] == Encode(Sequence1To15Instrs3[k - 60])
  {
  }

  /** Bytes 80 to 99, from the encodings of their instructions. */
  lemma Sequence1To15Region4(code: seq<u8>)
    requires 100 <= |code| && AllBase(Sequence1To15Instrs4)
    requires forall k | 80 <= k < 100 :: code[k] == Encode(Sequence1To15Instrs4[k - 80])
    ensures AddR1ToR4Code(code, 80) && IncR1Code(code, 85) && IncR1Code(code, 90) &&
      AddTwiceR1ToR4Code(code, 95)
  {
  }

  /** Bytes 80 to 99 of the program are the encodings of Sequence1To15Instrs4. */
  lemma Sequence1To15At4()
    requires AllBase(Sequence1To15Program)
    ensures AllBase(Sequence1To15Instrs4)
    ensures forall k | 80 <= k < 100 ::
      Encodes(Sequence1To15Program)[k] == Encode(Sequence1To15Instrs4[k - 80])
  {
  }

  /** Bytes 100 to 119, from the encodings of their instructions. */
  lemma Sequence1To15Region5(code: seq<u8>)
    requires 120 <= |code| && AllBase(Sequence1To15Instrs5)
    requires forall k | 100 <= k < 120 :: code[k] == Encode(Sequence1To15Instrs5[k - 100])
    ensures IncR1Code(code, 100) && AddR1ToR4Code(code, 105) && IncR1Code(code, 110) &&
      IncR1Code(code, 115)
  {
  }

  /** Bytes 100 to 119 of the program are the encodings of Sequence1To15Instrs5. */
  lemma Sequence1To15At5()
    requires AllBase(Sequence1To15Program)
    ensures AllBase(Sequence1To15Instrs5)
    ensures forall k | 100 <= k < 120 ::
      Encodes(Sequence1To15Program)[k] == Encode(Sequence1To15Instrs5[k - 100])
  {
  }

  /** Bytes 120 to 139, from the encodings of their instructions. */
  lemma Sequence1To15Region6(code: seq<u8>)
    requires 140 <= |code| && AllBase(Sequence1To15Instrs6)
    requires forall k | 120 <= k < 140 :: code[k] == Encode(Sequence1To15Instrs6[k - 120])
    ensures AddR1ToR4Code(code, 120) && IncR1Code(code, 125) && AddR1ToR4Code(code, 130) &&
      IncR1Code(code, 135)
  {
  }

  /** Bytes 120 to 139 of the program are the encodings of Sequence1To15Instrs6. */
  lemma Sequence1To15At6()
    requires AllBase(Sequence1To15Program)
    ensures AllBase(Sequence1To15Instrs6)
    ensures forall k | 120 <= k < 140 ::
      Encodes(Sequence1To15Program)[k] == Encode(Sequence1To15Instrs6[k - 120])
  {
  }

  /** Bytes 140 to 151, from the encodings of their instructions. */
  lemma Sequence1To15Region7(code: seq<u8>)
    requires 152 <= |code| && AllBase(Sequence1To15Instrs7)
    requires forall k | 140 <= k < 152 :: code[k] == Encode(Sequence1To15Instrs7[k - 140])
    ensures SubR1FromR4Code(code, 140) && IncR1Code(code, 145) && code[150] == 0x86 &&
      code[151] == 0xa1
  {
  }

  /** Bytes 140 to 151 of the program are the encodings of Sequence1To15Instrs7. */
  lemma Sequence1To15At7()
    requires AllBase(Sequence1To15Program)
    ensures AllBase(Sequence1To15Instrs7)
    ensures forall k | 140 <= k < 152 ::
      Encodes(Sequence1To15Program)[k] == Encode(Sequence1To15Instrs7[k - 140])
  {
  }

  /** The first 80 bytes of the program: the prefix and blocks 1 to 12. */
  lemma Sequence1To15FrontBytes(code: seq<u8>)
    requires AllBase(Sequence1To15Program) && code == Encodes(Sequence1To15Program)
    ensures |code| == 152
    ensures Sequence1To15PrefixBytes(code) && AddR1ToR4Code(code, 20) && IncR1Code(code, 25) &&
      AddR1ToR4Code(code, 30) && IncR1Code(code, 35) && IncR1Code(code, 40) &&
      AddR1ToR4Code(code, 45) && IncR1Code(code, 50) && AddTwiceR1ToR4Code(code, 55) &&
      IncR1Code(code, 60) && IncR1Code(code, 65) && AddR1ToR4Code(code, 70) &&
      IncR1Code(code, 75)
  {
    Sequence1To15At0();
    Sequence1To15Region0(code);
    Sequence1To15At1();
    Sequence1To15Region1(code);
    Sequence1To15At2();
    Sequence1To15Region2(code);
    Sequence1To15At3();
    Sequence1To15Region3(code);
  }

  /** The last 72 bytes of the program: blocks 13 to 26 and the tail. */
  lemma Sequence1To15BackBytes(code: seq<u8>)
    requires AllBase(Sequence1To15Program) && code == Encodes(Sequence1To15Program)
    ensures |code| == 152
    ensures AddR1ToR4Code(code, 80) && IncR1Code(code, 85) && IncR1Code(code, 90) &&
      AddTwiceR1ToR4Code(code, 95) && IncR1Code(code, 100) && AddR1ToR4Code(code, 105) &&
      IncR1Code(code, 110) && IncR1Code(code, 115) && AddR1ToR4Code(code, 120) &&
      IncR1Code(code, 125) && AddR1ToR4Code(code, 130) && IncR1Code(code, 135) &&
      SubR1FromR4Code(code, 140) && IncR1Code(code, 145) && code[150] == 0x86 &&
      code[151] == 0xa1
  {
    Sequence1To15At4();
    Sequence1To15Region4(code);
    Sequence1To15At5();
    Sequence1To15Region5(code);
    Sequence1To15At6();
    Sequence1To15Region6(code);
    Sequence1To15At7();
    Sequence1To15Region7(code);
  }

  /** The program TestSequence1To15 assembles is the one Sequence1To15Result runs. */
  lemma Sequence1To15Code()
    ensures AllBase(Sequence1To15Program) && Sequence1To15Bytes(Encodes(Sequence1To15Program))
  {
    Sequence1To15Texts();
    Sequence1To15FrontBytes(Encodes(Sequence1To15Program));
    Sequence1To15BackBytes(Encodes(Sequence1To15Program));
  }

  // ---------------------------------------------------------------------------------------
  // The tests

  /** An iteration bound above what any of the test programs needs. */
  const TestFuel: nat := 2000

  /** CPU{}, InitMemory(100), InitStack(100 - 1), SetClock(0): the set-up of every test. */
  method NewTestCPU() returns (cpu: CPU)
    ensures fresh(cpu) && fresh(cpu.Registers) && fresh(cpu.Labels) && fresh(cpu.Memory)
    ensures cpu.Valid() && TestLike(cpu.Abs()) && cpu.Clock == 0
  {
    cpu := new CPU();
    cpu.InitMemory(100);
    cpu.InitStack(100 - 1);
    cpu.SetClock(0);
    assert cpu.Abs() == TestSetup();
  }

  /** TestSum1To10: the count-up summation returns 55. */
  method TestSum1To10() returns (res: u16, exit: Exit)
    ensures res == 55 && exit == Finished
  {
    var code := new u8[] [
      0x00, 0x81, 0xa0, 0x0b, 0x81, 0xa2, 0x01, 0x81, 0xa4, 0xe0,
      0x80, 0xa1, 0x24, 0x81, 0xa0, 0x01, 0x24, 0x81, 0xa4, 0x42,
      0xc1, 0x80, 0xa1
    ];
    var cpu := NewTestCPU();
    ghost var s0 := cpu.Abs();
    res, exit := cpu.Run(code[..], code.Length as u16, TestFuel);
    Sum1To10Result(s0, code[..], TestFuel);
  }

  /** TestAlternativeSum1To10: the count-down summation returns 55. */
  method TestAlternativeSum1To10() returns (res: u16, exit: Exit)
    ensures res == 55 && exit == Finished
  {
    var code := new u8[] [
      0x00, 0x81, 0xa0, 0x0a, 0x81, 0xa2, 0x01, 0x81, 0xa4, 0xe0,
      0x80, 0xa1, 0x22, 0x81, 0xa0, 0x82, 0xa1, 0x44, 0x81, 0xa2,
      0xc1, 0x80, 0xa1
    ];
    var cpu := NewTestCPU();
    ghost var s0 := cpu.Abs();
    res, exit := cpu.Run(code[..], code.Length as u16, TestFuel);
    AlternativeSum1To10Result(s0, code[..], TestFuel);
  }

  /** The program TestMachineCodeGeneration assembles is the one AlternativeSum1To10Result runs. */
  lemma MachineCodeGenerationCode()
    ensures AllBase(MachineCodeGenerationProgram)
    ensures AlternativeSum1To10Bytes(Encodes(MachineCodeGenerationProgram))
  {
    MachineCodeGenerationEncodes();
  }

  /** The bytes TestMachineCodeGeneration expects the assembler to produce. */
  method ExpectedMachineCode() returns (code: array<u8>)
    ensures fresh(code) && AlternativeSum1To10Bytes(code[..])
  {
    code := new u8[] [
      0x00, 0x81, 0xa0, 0x0a, 0x81, 0xa2, 0x01, 0x81, 0xa4, 0xe0,
      0x80, 0xa1, 0x22, 0x81, 0xa0, 0x82, 0xa1, 0x44, 0x81, 0xa2,
      0xc1, 0x80, 0xa1
    ];
  }

  /** AlternativeSum1To10Bytes names every byte of the program. */
  lemma AlternativeSum1To10Unique(a: seq<u8>, b: seq<u8>)
    requires AlternativeSum1To10Bytes(a) && AlternativeSum1To10Bytes(b)
    ensures a == b
  {
  }

  /** The program TestSum1To100 assembles is the one Sum1To100Result runs. */
  lemma Sum1To100Code()
    ensures AllBase(Sum1To100Program)
    ensures Sum1To100Bytes(Encodes(Sum1To100Program))
  {
    Sum1To100AsmEncodes();
  }

  /** TestMachineCodeGeneration: the assembled mnemonics are the expected bytes, and running
      them returns 55. */
  method TestMachineCodeGeneration() returns (equal: bool, res: u16, exit: Exit)
    ensures equal && res == 55 && exit == Finished
  {
    var asmCode := MachineCodeGenerationMnemonics;
    MachineCodeGenerationCode();
    AsmCodeTexts(MachineCodeGenerationProgram);
    var generatedCode := AsmCodeToBytes(asmCode);
    var code := ExpectedMachineCode();
    AlternativeSum1To10Unique(generatedCode[..], code[..]);
    equal := generatedCode[..] == code[..];
    var cpu := NewTestCPU();
    ghost var s0 := cpu.Abs();
    res, exit := cpu.Run(generatedCode[..], generatedCode.Length as u16, TestFuel);
    AlternativeSum1To10Result(s0, generatedCode[..], TestFuel);
  }

  /** TestSum1To100: the assembled mnemonics return 5050. */
  method TestSum1To100() returns (res: u16, exit: Exit)
    ensures res == 5050 && exit == Finished
  {
    var asmCode := Sum1To100Mnemonics;
    Sum1To100Code();
    AsmCodeTexts(Sum1To100Program);
    var generatedCode := AsmCodeToBytes(asmCode);
    var cpu := NewTestCPU();
    ghost var s0 := cpu.Abs();
    res, exit := cpu.Run(generatedCode[..], generatedCode.Length as u16, TestFuel);
    Sum1To100Result(s0, generatedCode[..], TestFuel);
  }

  /** TestSequence1To15: the assembled mnemonics return 75. */
  method TestSequence1To15() returns (res: u16, exit: Exit)
    ensures res == 75 && exit == Finished
  {
    var asmCode := Sequence1To15Mnemonics;
    Sequence1To15Asm(asmCode);
    Sequence1To15Code();
    var code := AsmCodeToBytes(asmCode);
    var cpu := NewTestCPU();
    ghost var s0 := cpu.Abs();
    res, exit := cpu.Run(code[..], code.Length as u16, TestFuel);
    Sequence1To15Result(s0, code[..], TestFuel);
  }
}
