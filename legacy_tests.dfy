/**
 * The tests of cpu.go as methods on its CPU class: each runs its program on the zero value
 * `CPU{}` and returns what the test checks.
 */
module LegacyTests {
  import opened Words
  import opened Asm
  import opened AsmPrograms
  import opened LegacyMachine
  import opened LegacyPrograms
  import opened Cpu
  import ST = SimpleTests

  /** TestSum1To10: the count-up summation returns 55. */
  method TestSum1To10() returns (res: i64, exit: Exit)
    ensures res == 55 && exit == Finished
  {
    var code := new u8[] [
      0x00, 0x81, 0xa0, 0x0b, 0x81, 0xa2, 0x01, 0x81, 0xa4, 0xe0,
      0x80, 0xa1, 0x24, 0x81, 0xa0, 0x01, 0x24, 0x81, 0xa4, 0x42,
      0xc1, 0x80, 0xa1
    ];
    var cpu := new CPU();
    res, exit := cpu.Run(code[..], code.Length, ST.TestFuel);
    Sum1To10Result(code[..], ST.TestFuel);
  }

  /** TestAlternativeSum1To10: the count-down summation returns 55. */
  method TestAlternativeSum1To10() returns (res: i64, exit: Exit)
    ensures res == 55 && exit == Finished
  {
    var code := new u8[] [
      0x00, 0x81, 0xa0, 0x0a, 0x81, 0xa2, 0x01, 0x81, 0xa4, 0xe0,
      0x80, 0xa1, 0x22, 0x81, 0xa0, 0x82, 0xa1, 0x44, 0x81, 0xa2,
      0xc1, 0x80, 0xa1
    ];
    var cpu := new CPU();
    res, exit := cpu.Run(code[..], code.Length, ST.TestFuel);
    AlternativeSum1To10Result(code[..], ST.TestFuel);
  }

  /** TestMachineCodeGeneration: the assembled mnemonics are the expected bytes, and running
      them returns 55. */
  method TestMachineCodeGeneration() returns (equal: bool, res: i64, exit: Exit)
    ensures equal && res == 55 && exit == Finished
  {
    var asmCode := MachineCodeGenerationMnemonics;
    ST.MachineCodeGenerationCode();
    AsmCodeTexts(MachineCodeGenerationProgram);
    var generatedCode := AsmCodeToBytes(asmCode);
    var code := ST.ExpectedMachineCode();
    ST.AlternativeSum1To10Unique(generatedCode[..], code[..]);
    equal := generatedCode[..] == code[..];
    var cpu := new CPU();
    res, exit := cpu.Run(generatedCode[..], generatedCode.Length, ST.TestFuel);
    AlternativeSum1To10Result(generatedCode[..], ST.TestFuel);
  }

  /** TestSum1To100: the assembled mnemonics return 5050. */
  method TestSum1To100() returns (res: i64, exit: Exit)
    ensures res == 5050 && exit == Finished
  {
    var asmCode := Sum1To100Mnemonics;
    ST.Sum1To100Code();
    AsmCodeTexts(Sum1To100Program);
    var generatedCode := AsmCodeToBytes(asmCode);
    var cpu := new CPU();
    res, exit := cpu.Run(generatedCode[..], generatedCode.Length, ST.TestFuel);
    Sum1To100Result(generatedCode[..], ST.TestFuel);
  }
}
