/**
 * The assembler on the mnemonic programs of the CPU tests. Each test program is the list of
 * mnemonics of a list of base instructions, so AsmCodeToBytes gives their encodings; the
 * encodings are the bytes the tests list.
 */
module AsmPrograms {
  import opened Words
  import opened Isa
  import opened Asm

  /** Every instruction of the list is a base instruction with its operands in range. */
  predicate AllBase(instrs: seq<Instr>)
  {
    forall k | 0 <= k < |instrs| :: BaseOperandsInRange(instrs[k])
  }

  /** The mnemonics of a list of base instructions. */
  function Texts(instrs: seq<Instr>): (asm: seq<string>)
    requires AllBase(instrs)
    ensures |asm| == |instrs|
  {
    seq(|instrs|, k requires 0 <= k < |instrs| && BaseOperandsInRange(instrs[k]) =>
      Text(instrs[k]))
  }

  /** The bytes of a list of base instructions. */
  function Encodes(instrs: seq<Instr>): (bytes: seq<u8>)
    requires AllBase(instrs)
    ensures |bytes| == |instrs|
  {
    seq(|instrs|, k requires 0 <= k < |instrs| && BaseOperandsInRange(instrs[k]) =>
      Encode(instrs[k]))
  }

  /** AsmCodeToBytes on the mnemonics of a list of instructions gives their encodings. */
  lemma AsmCodeTexts(instrs: seq<Instr>)
    requires AllBase(instrs)
    ensures forall k | 0 <= k < |instrs| :: Indexable(Texts(instrs)[k])
    ensures AsmCode(Texts(instrs)) == Encodes(instrs)
  {
    forall k | 0 <= k < |instrs|
      ensures Indexable(Texts(instrs)[k]) && AsmToByte(Texts(instrs)[k]) == Encode(instrs[k])
    {
      AsmText(instrs[k]);
    }
  }

  /** Texts distributes over concatenation. */
  lemma TextsAppend(a: seq<Instr>, b: seq<Instr>)
    requires AllBase(a) && AllBase(b)
    ensures AllBase(a + b) && Texts(a + b) == Texts(a) + Texts(b)
  {
  }

  // ---------------------------------------------------------------------------------------
  // The mnemonics the tests use, spelled out
  //
  // One lemma per distinct mnemonic of the test programs. Each states the canonical text of
  // one instruction as a string literal, so that the lemmas tying the literal mnemonic lists
  // to Texts(program) compare strings instead of unfolding Text, NatToString and Join on
  // every element of a list of up to 152 mnemonics.

  lemma TextSet0()
    ensures Text(Set(0)) == "set_0"
  {
    assert NatToString(0) == "0";
    assert Join(["0"], Sep) == "0";
    assert Join(["set", "0"], Sep) == "set" + "_" + "0";
  }

  lemma TextSet1()
    ensures Text(Set(1)) == "set_1"
  {
    assert NatToString(1) == "1";
    assert Join(["1"], Sep) == "1";
    assert Join(["set", "1"], Sep) == "set" + "_" + "1";
  }

  lemma TextSet2()
    ensures Text(Set(2)) == "set_2"
  {
    assert NatToString(2) == "2";
    assert Join(["2"], Sep) == "2";
    assert Join(["set", "2"], Sep) == "set" + "_" + "2";
  }

  lemma TextSet6()
    ensures Text(Set(6)) == "set_6"
  {
    assert NatToString(6) == "6";
    assert Join(["6"], Sep) == "6";
    assert Join(["set", "6"], Sep) == "set" + "_" + "6";
  }

  lemma TextSet10()
    ensures Text(Set(10)) == "set_10"
  {
    assert NatToString(1) == "1";
    assert NatToString(10) == "10";
    assert Join(["10"], Sep) == "10";
    assert Join(["set", "10"], Sep) == "set" + "_" + "10";
  }

  lemma TextSet15()
    ensures Text(Set(15)) == "set_15"
  {
    assert NatToString(1) == "1";
    assert NatToString(15) == "15";
    assert Join(["15"], Sep) == "15";
    assert Join(["set", "15"], Sep) == "set" + "_" + "15";
  }

  lemma TextAdd1()
    ensures Text(Add(1)) == "add_1"
  {
    assert NatToString(1) == "1";
    assert Join(["1"], Sep) == "1";
    assert Join(["add", "1"], Sep) == "add" + "_" + "1";
  }

  lemma TextAdd2()
    ensures Text(Add(2)) == "add_2"
  {
    assert NatToString(2) == "2";
    assert Join(["2"], Sep) == "2";
    assert Join(["add", "2"], Sep) == "add" + "_" + "2";
  }

  lemma TextAdd3()
    ensures Text(Add(3)) == "add_3"
  {
    assert NatToString(3) == "3";
    assert Join(["3"], Sep) == "3";
    assert Join(["add", "3"], Sep) == "add" + "_" + "3";
  }

  lemma TextAdd4()
    ensures Text(Add(4)) == "add_4"
  {
    assert NatToString(4) == "4";
    assert Join(["4"], Sep) == "4";
    assert Join(["add", "4"], Sep) == "add" + "_" + "4";
  }

  lemma TextAdd5()
    ensures Text(Add(5)) == "add_5"
  {
    assert NatToString(5) == "5";
    assert Join(["5"], Sep) == "5";
    assert Join(["add", "5"], Sep) == "add" + "_" + "5";
  }

  lemma TextSub1()
    ensures Text(Sub(1)) == "sub_1"
  {
    assert NatToString(1) == "1";
    assert Join(["1"], Sep) == "1";
    assert Join(["sub", "1"], Sep) == "sub" + "_" + "1";
  }

  lemma TextSub3()
    ensures Text(Sub(3)) == "sub_3"
  {
    assert NatToString(3) == "3";
    assert Join(["3"], Sep) == "3";
    assert Join(["sub", "3"], Sep) == "sub" + "_" + "3";
  }

  lemma TextMul1()
    ensures Text(Mul(1)) == "mul_1"
  {
    assert NatToString(1) == "1";
    assert Join(["1"], Sep) == "1";
    assert Join(["mul", "1"], Sep) == "mul" + "_" + "1";
  }

  lemma TextMul2()
    ensures Text(Mul(2)) == "mul_2"
  {
    assert NatToString(2) == "2";
    assert Join(["2"], Sep) == "2";
    assert Join(["mul", "2"], Sep) == "mul" + "_" + "2";
  }

  lemma TextMul4()
    ensures Text(Mul(4)) == "mul_4"
  {
    assert NatToString(4) == "4";
    assert Join(["4"], Sep) == "4";
    assert Join(["mul", "4"], Sep) == "mul" + "_" + "4";
  }

  lemma TextPush0()
    ensures Text(Push(0)) == "push_0"
  {
    assert NatToString(0) == "0";
    assert Join(["0"], Sep) == "0";
    assert Join(["push", "0"], Sep) == "push" + "_" + "0";
  }

  lemma TextPush1()
    ensures Text(Push(1)) == "push_1"
  {
    assert NatToString(1) == "1";
    assert Join(["1"], Sep) == "1";
    assert Join(["push", "1"], Sep) == "push" + "_" + "1";
  }

  lemma TextPush2()
    ensures Text(Push(2)) == "push_2"
  {
    assert NatToString(2) == "2";
    assert Join(["2"], Sep) == "2";
    assert Join(["push", "2"], Sep) == "push" + "_" + "2";
  }

  lemma TextPush4()
    ensures Text(Push(4)) == "push_4"
  {
    assert NatToString(4) == "4";
    assert Join(["4"], Sep) == "4";
    assert Join(["push", "4"], Sep) == "push" + "_" + "4";
  }

  lemma TextPop0()
    ensures Text(Pop(0)) == "pop_0"
  {
    assert NatToString(0) == "0";
    assert Join(["0"], Sep) == "0";
    assert Join(["pop", "0"], Sep) == "pop" + "_" + "0";
  }

  lemma TextPop1()
    ensures Text(Pop(1)) == "pop_1"
  {
    assert NatToString(1) == "1";
    assert Join(["1"], Sep) == "1";
    assert Join(["pop", "1"], Sep) == "pop" + "_" + "1";
  }

  lemma TextPop2()
    ensures Text(Pop(2)) == "pop_2"
  {
    assert NatToString(2) == "2";
    assert Join(["2"], Sep) == "2";
    assert Join(["pop", "2"], Sep) == "pop" + "_" + "2";
  }

  lemma TextPop3()
    ensures Text(Pop(3)) == "pop_3"
  {
    assert NatToString(3) == "3";
    assert Join(["3"], Sep) == "3";
    assert Join(["pop", "3"], Sep) == "pop" + "_" + "3";
  }

  lemma TextPop4()
    ensures Text(Pop(4)) == "pop_4"
  {
    assert NatToString(4) == "4";
    assert Join(["4"], Sep) == "4";
    assert Join(["pop", "4"], Sep) == "pop" + "_" + "4";
  }

  lemma TextPop5()
    ensures Text(Pop(5)) == "pop_5"
  {
    assert NatToString(5) == "5";
    assert Join(["5"], Sep) == "5";
    assert Join(["pop", "5"], Sep) == "pop" + "_" + "5";
  }

  lemma TextGoto01()
    ensures Text(Goto(0, true)) == "goto_0_1"
  {
    assert NatToString(0) == "0";
    assert NatToString(1) == "1";
    assert Join(["1"], Sep) == "1";
    assert Join(["0", "1"], Sep) == "0" + "_" + "1";
    assert Join(["goto", "0", "1"], Sep) == "goto" + "_" + "0_1";
  }

  lemma TextLabel0()
    ensures Text(Label(0)) == "label_0"
  {
    assert NatToString(0) == "0";
    assert Join(["0"], Sep) == "0";
    assert Join(["label", "0"], Sep) == "label" + "_" + "0";
  }

  // ---------------------------------------------------------------------------------------
  // TestMachineCodeGeneration and TestSum1To100

  /** The instructions TestMachineCodeGeneration spells out, one per mnemonic. */
  const MachineCodeGenerationProgram: seq<Instr> := [
    Set(0), Push(0), Pop(1), Set(10), Push(0), Pop(2),
    Set(1), Push(0), Pop(3), Label(0), Push(1), Pop(0),
    Add(2), Push(0), Pop(1), Push(2), Pop(0), Sub(3),
    Push(0), Pop(2), Goto(0, true), Push(1), Pop(0)
  ]

  lemma MachineCodeGenerationEncodes()
    ensures AllBase(MachineCodeGenerationProgram)
    ensures Encodes(MachineCodeGenerationProgram) == [
      0x00, 0x81, 0xa0, 0x0a, 0x81, 0xa2, 0x01, 0x81, 0xa4, 0xe0,
      0x80, 0xa1, 0x22, 0x81, 0xa0, 0x82, 0xa1, 0x44, 0x81, 0xa2,
      0xc1, 0x80, 0xa1
    ]
  {
  }

  /** The mnemonics of TestMachineCodeGeneration, as the mnemonics of its instructions. */
  const MachineCodeGenerationMnemonics: seq<string> :=
    assert AllBase(MachineCodeGenerationProgram) by { MachineCodeGenerationEncodes(); }
    Texts(MachineCodeGenerationProgram)

  lemma MachineCodeGenerationTexts(asm: seq<string>)
    requires asm == [
      "set_0", "push_0", "pop_1", "set_10", "push_0", "pop_2",
      "set_1", "push_0", "pop_3", "label_0", "push_1", "pop_0",
      "add_2", "push_0", "pop_1", "push_2", "pop_0", "sub_3",
      "push_0", "pop_2", "goto_0_1", "push_1", "pop_0"
    ]
    ensures asm == Texts(MachineCodeGenerationProgram)
  {
    TextSet0();
    TextPush0();
    TextPop1();
    TextSet10();
    TextPop2();
    TextSet1();
    TextPop3();
    TextLabel0();
    TextPush1();
    TextPop0();
    TextAdd2();
    TextPush2();
    TextSub3();
    TextGoto01();
  }

  /** TestMachineCodeGeneration: the 23 mnemonics assemble to the bytes
      the test compares them with. */
  lemma MachineCodeGeneration(asm: seq<string>)
    requires asm == [
      "set_0", "push_0", "pop_1", "set_10", "push_0", "pop_2",
      "set_1", "push_0", "pop_3", "label_0", "push_1", "pop_0",
      "add_2", "push_0", "pop_1", "push_2", "pop_0", "sub_3",
      "push_0", "pop_2", "goto_0_1", "push_1", "pop_0"
    ]
    ensures forall k | 0 <= k < |asm| :: Indexable(asm[k])
    ensures AsmCode(asm) == [
      0x00, 0x81, 0xa0, 0x0a, 0x81, 0xa2, 0x01, 0x81, 0xa4, 0xe0,
      0x80, 0xa1, 0x22, 0x81, 0xa0, 0x82, 0xa1, 0x44, 0x81, 0xa2,
      0xc1, 0x80, 0xa1
    ]
  {
    MachineCodeGenerationTexts(asm);
    MachineCodeGenerationEncodes();
    AsmCodeTexts(MachineCodeGenerationProgram);
  }

  /** The instructions TestSum1To100 spells out, one per mnemonic. */
  const Sum1To100Program: seq<Instr> := [
    Set(0), Push(0), Pop(1), Set(10), Push(0), Pop(4),
    Mul(4), Push(0), Pop(2), Set(1), Push(0), Pop(3),
    Label(0), Push(1), Pop(0), Add(2), Push(0), Pop(1),
    Push(2), Pop(0), Sub(3), Push(0), Pop(2), Goto(0, true),
    Push(1), Pop(0)
  ]

  lemma Sum1To100AsmEncodes()
    ensures AllBase(Sum1To100Program)
    ensures Encodes(Sum1To100Program) == [
      0x00, 0x81, 0xa0, 0x0a, 0x81, 0xa6, 0x66, 0x81, 0xa2, 0x01,
      0x81, 0xa4, 0xe0, 0x80, 0xa1, 0x22, 0x81, 0xa0, 0x82, 0xa1,
      0x44, 0x81, 0xa2, 0xc1, 0x80, 0xa1
    ]
  {
  }

  /** The mnemonics of TestSum1To100, as the mnemonics of its instructions. */
  const Sum1To100Mnemonics: seq<string> :=
    assert AllBase(Sum1To100Program) by { Sum1To100AsmEncodes(); }
    Texts(Sum1To100Program)

  lemma Sum1To100AsmTexts(asm: seq<string>)
    requires asm == [
      "set_0", "push_0", "pop_1", "set_10", "push_0", "pop_4",
      "mul_4", "push_0", "pop_2", "set_1", "push_0", "pop_3",
      "label_0", "push_1", "pop_0", "add_2", "push_0", "pop_1",
      "push_2", "pop_0", "sub_3", "push_0", "pop_2", "goto_0_1",
      "push_1", "pop_0"
    ]
    ensures asm == Texts(Sum1To100Program)
  {
    TextSet0();
    TextPush0();
    TextPop1();
    TextSet10();
    TextPop4();
    TextMul4();
    TextPop2();
    TextSet1();
    TextPop3();
    TextLabel0();
    TextPush1();
    TextPop0();
    TextAdd2();
    TextPush2();
    TextSub3();
    TextGoto01();
  }

  /** TestSum1To100: the 26 mnemonics assemble to these bytes. */
  lemma Sum1To100Asm(asm: seq<string>)
    requires asm == [
      "set_0", "push_0", "pop_1", "set_10", "push_0", "pop_4",
      "mul_4", "push_0", "pop_2", "set_1", "push_0", "pop_3",
      "label_0", "push_1", "pop_0", "add_2", "push_0", "pop_1",
      "push_2", "pop_0", "sub_3", "push_0", "pop_2", "goto_0_1",
      "push_1", "pop_0"
    ]
    ensures forall k | 0 <= k < |asm| :: Indexable(asm[k])
    ensures AsmCode(asm) == [
      0x00, 0x81, 0xa0, 0x0a, 0x81, 0xa6, 0x66, 0x81, 0xa2, 0x01,
      0x81, 0xa4, 0xe0, 0x80, 0xa1, 0x22, 0x81, 0xa0, 0x82, 0xa1,
      0x44, 0x81, 0xa2, 0xc1, 0x80, 0xa1
    ]
  {
    Sum1To100AsmTexts(asm);
    Sum1To100AsmEncodes();
    AsmCodeTexts(Sum1To100Program);
  }

  // ---------------------------------------------------------------------------------------
  // TestSequence1To15: 152 mnemonics, kept in parts of 20 (the last of 12)

  const Sequence1To15Mnemonics0: seq<string> := [
    "set_1", "push_0", "pop_1", "set_6", "push_0", "pop_5",
    "set_15", "push_0", "pop_2", "set_15", "mul_2", "add_5",
    "push_0", "pop_2", "set_1", "push_0", "pop_3", "set_0",
    "push_0", "pop_4"
  ]

  const Sequence1To15Mnemonics1: seq<string> := [
    "push_4", "pop_0", "add_1", "push_0", "pop_4", "push_1",
    "pop_0", "add_3", "push_0", "pop_1", "push_4", "pop_0",
    "add_1", "push_0", "pop_4", "push_1", "pop_0", "add_3",
    "push_0", "pop_1"
  ]

  const Sequence1To15Mnemonics2: seq<string> := [
    "push_1", "pop_0", "add_3", "push_0", "pop_1", "push_4",
    "pop_0", "add_1", "push_0", "pop_4", "push_1", "pop_0",
    "add_3", "push_0", "pop_1", "set_2", "mul_1", "add_4",
    "push_0", "pop_4"
  ]

  const Sequence1To15Mnemonics3: seq<string> := [
    "push_1", "pop_0", "add_3", "push_0", "pop_1", "push_1",
    "pop_0", "add_3", "push_0", "pop_1", "push_4", "pop_0",
    "add_1", "push_0", "pop_4", "push_1", "pop_0", "add_3",
    "push_0", "pop_1"
  ]

  const Sequence1To15Mnemonics4: seq<string> := [
    "push_4", "pop_0", "add_1", "push_0", "pop_4", "push_1",
    "pop_0", "add_3", "push_0", "pop_1", "push_1", "pop_0",
    "add_3", "push_0", "pop_1", "set_2", "mul_1", "add_4",
    "push_0", "pop_4"
  ]

  const Sequence1To15Mnemonics5: seq<string> := [
    "push_1", "pop_0", "add_3", "push_0", "pop_1", "push_4",
    "pop_0", "add_1", "push_0", "pop_4", "push_1", "pop_0",
    "add_3", "push_0", "pop_1", "push_1", "pop_0", "add_3",
    "push_0", "pop_1"
  ]

  const Sequence1To15Mnemonics6: seq<string> := [
    "push_4", "pop_0", "add_1", "push_0", "pop_4", "push_1",
    "pop_0", "add_3", "push_0", "pop_1", "push_4", "pop_0",
    "add_1", "push_0", "pop_4", "push_1", "pop_0", "add_3",
    "push_0", "pop_1"
  ]

  const Sequence1To15Mnemonics7: seq<string> := [
    "set_0", "sub_1", "add_4", "push_0", "pop_4", "push_1",
    "pop_0", "add_3", "push_0", "pop_1", "push_4", "pop_0"
  ]

  /** The mnemonics of TestSequence1To15, in order. */
  const Sequence1To15Mnemonics: seq<string> :=
    ((Sequence1To15Mnemonics0 + Sequence1To15Mnemonics1) +
     (Sequence1To15Mnemonics2 + Sequence1To15Mnemonics3)) +
    ((Sequence1To15Mnemonics4 + Sequence1To15Mnemonics5) +
     (Sequence1To15Mnemonics6 + Sequence1To15Mnemonics7))

  const Sequence1To15Instrs0: seq<Instr> := [
    Set(1), Push(0), Pop(1), Set(6), Push(0), Pop(5),
    Set(15), Push(0), Pop(2), Set(15), Mul(2), Add(5),
    Push(0), Pop(2), Set(1), Push(0), Pop(3), Set(0),
    Push(0), Pop(4)
  ]

  const Sequence1To15Instrs1: seq<Instr> := [
    Push(4), Pop(0), Add(1), Push(0), Pop(4), Push(1),
    Pop(0), Add(3), Push(0), Pop(1), Push(4), Pop(0),
    Add(1), Push(0), Pop(4), Push(1), Pop(0), Add(3),
    Push(0), Pop(1)
  ]

  const Sequence1To15Instrs2: seq<Instr> := [
    Push(1), Pop(0), Add(3), Push(0), Pop(1), Push(4),
    Pop(0), Add(1), Push(0), Pop(4), Push(1), Pop(0),
    Add(3), Push(0), Pop(1), Set(2), Mul(1), Add(4),
    Push(0), Pop(4)
  ]

  const Sequence1To15Instrs3: seq<Instr> := [
    Push(1), Pop(0), Add(3), Push(0), Pop(1), Push(1),
    Pop(0), Add(3), Push(0), Pop(1), Push(4), Pop(0),
    Add(1), Push(0), Pop(4), Push(1), Pop(0), Add(3),
    Push(0), Pop(1)
  ]

  const Sequence1To15Instrs4: seq<Instr> := [
    Push(4), Pop(0), Add(1), Push(0), Pop(4), Push(1),
    Pop(0), Add(3), Push(0), Pop(1), Push(1), Pop(0),
    Add(3), Push(0), Pop(1), Set(2), Mul(1), Add(4),
    Push(0), Pop(4)
  ]

  const Sequence1To15Instrs5: seq<Instr> := [
    Push(1), Pop(0), Add(3), Push(0), Pop(1), Push(4),
    Pop(0), Add(1), Push(0), Pop(4), Push(1), Pop(0),
    Add(3), Push(0), Pop(1), Push(1), Pop(0), Add(3),
    Push(0), Pop(1)
  ]

  const Sequence1To15Instrs6: seq<Instr> := [
    Push(4), Pop(0), Add(1), Push(0), Pop(4), Push(1),
    Pop(0), Add(3), Push(0), Pop(1), Push(4), Pop(0),
    Add(1), Push(0), Pop(4), Push(1), Pop(0), Add(3),
    Push(0), Pop(1)
  ]

  const Sequence1To15Instrs7: seq<Instr> := [
    Set(0), Sub(1), Add(4), Push(0), Pop(4), Push(1),
    Pop(0), Add(3), Push(0), Pop(1), Push(4), Pop(0)
  ]

  /** The instructions of TestSequence1To15, one per mnemonic. */
  const Sequence1To15Program: seq<Instr> :=
    ((Sequence1To15Instrs0 + Sequence1To15Instrs1) +
     (Sequence1To15Instrs2 + Sequence1To15Instrs3)) +
    ((Sequence1To15Instrs4 + Sequence1To15Instrs5) +
     (Sequence1To15Instrs6 + Sequence1To15Instrs7))

  /** Part 0 of the mnemonics names the instructions of part 0. */
  lemma Sequence1To15Texts0()
    ensures AllBase(Sequence1To15Instrs0) && Sequence1To15Mnemonics0 == Texts(Sequence1To15Instrs0)
  {
    TextSet1();
    TextPush0();
    TextPop1();
    TextSet6();
    TextPop5();
    TextSet15();
    TextPop2();
    TextMul2();
    TextAdd5();
    TextPop3();
    TextSet0();
    TextPop4();
  }

  /** Part 1 of the mnemonics names the instructions of part 1. */
  lemma Sequence1To15Texts1()
    ensures AllBase(Sequence1To15Instrs1) && Sequence1To15Mnemonics1 == Texts(Sequence1To15Instrs1)
  {
    TextPush4();
    TextPop0();
    TextAdd1();
    TextPush0();
    TextPop4();
    TextPush1();
    TextAdd3();
    TextPop1();
  }

  /** Part 2 of the mnemonics names the instructions of part 2. */
  lemma Sequence1To15Texts2()
    ensures AllBase(Sequence1To15Instrs2) && Sequence1To15Mnemonics2 == Texts(Sequence1To15Instrs2)
  {
    TextPush1();
    TextPop0();
    TextAdd3();
    TextPush0();
    TextPop1();
    TextPush4();
    TextAdd1();
    TextPop4();
    TextSet2();
    TextMul1();
    TextAdd4();
  }

  /** Part 3 of the mnemonics names the instructions of part 3. */
  lemma Sequence1To15Texts3()
    ensures AllBase(Sequence1To15Instrs3) && Sequence1To15Mnemonics3 == Texts(Sequence1To15Instrs3)
  {
    TextPush1();
    TextPop0();
    TextAdd3();
    TextPush0();
    TextPop1();
    TextPush4();
    TextAdd1();
    TextPop4();
  }

  /** Part 4 of the mnemonics names the instructions of part 4. */
  lemma Sequence1To15Texts4()
    ensures AllBase(Sequence1To15Instrs4) && Sequence1To15Mnemonics4 == Texts(Sequence1To15Instrs4)
  {
    TextPush4();
    TextPop0();
    TextAdd1();
    TextPush0();
    TextPop4();
    TextPush1();
    TextAdd3();
    TextPop1();
    TextSet2();
    TextMul1();
    TextAdd4();
  }

  /** Part 5 of the mnemonics names the instructions of part 5. */
  lemma Sequence1To15Texts5()
    ensures AllBase(Sequence1To15Instrs5) && Sequence1To15Mnemonics5 == Texts(Sequence1To15Instrs5)
  {
    TextPush1();
    TextPop0();
    TextAdd3();
    TextPush0();
    TextPop1();
    TextPush4();
    TextAdd1();
    TextPop4();
  }

  /** Part 6 of the mnemonics names the instructions of part 6. */
  lemma Sequence1To15Texts6()
    ensures AllBase(Sequence1To15Instrs6) && Sequence1To15Mnemonics6 == Texts(Sequence1To15Instrs6)
  {
    TextPush4();
    TextPop0();
    TextAdd1();
    TextPush0();
    TextPop4();
    TextPush1();
    TextAdd3();
    TextPop1();
  }

  /** Part 7 of the mnemonics names the instructions of part 7. */
  lemma Sequence1To15Texts7()
    ensures AllBase(Sequence1To15Instrs7) && Sequence1To15Mnemonics7 == Texts(Sequence1To15Instrs7)
  {
    TextSet0();
    TextSub1();
    TextAdd4();
    TextPush0();
    TextPop4();
    TextPush1();
    TextPop0();
    TextAdd3();
    TextPop1();
    TextPush4();
  }

  /** The 152 mnemonics are the mnemonics of the program's instructions. */
  lemma Sequence1To15Texts()
    ensures AllBase(Sequence1To15Program)
    ensures Sequence1To15Mnemonics == Texts(Sequence1To15Program)
  {
    Sequence1To15Texts0();
    Sequence1To15Texts1();
    Sequence1To15Texts2();
    Sequence1To15Texts3();
    Sequence1To15Texts4();
    Sequence1To15Texts5();
    Sequence1To15Texts6();
    Sequence1To15Texts7();
    TextsAppend(Sequence1To15Instrs0, Sequence1To15Instrs1);
    TextsAppend(Sequence1To15Instrs2, Sequence1To15Instrs3);
    TextsAppend(
      Sequence1To15Instrs0 + Sequence1To15Instrs1,
      Sequence1To15Instrs2 + Sequence1To15Instrs3);
    TextsAppend(Sequence1To15Instrs4, Sequence1To15Instrs5);
    TextsAppend(Sequence1To15Instrs6, Sequence1To15Instrs7);
    TextsAppend(
      Sequence1To15Instrs4 + Sequence1To15Instrs5,
      Sequence1To15Instrs6 + Sequence1To15Instrs7);
    TextsAppend(
      (Sequence1To15Instrs0 + Sequence1To15Instrs1) +
      (Sequence1To15Instrs2 + Sequence1To15Instrs3),
      (Sequence1To15Instrs4 + Sequence1To15Instrs5) +
      (Sequence1To15Instrs6 + Sequence1To15Instrs7));
  }

  /** TestSequence1To15: the 152 mnemonics assemble to the bytes of the program. */
  lemma Sequence1To15Asm(asm: seq<string>)
    requires asm == Sequence1To15Mnemonics
    ensures AllBase(Sequence1To15Program)
    ensures forall k | 0 <= k < |asm| :: Indexable(asm[k])
    ensures AsmCode(asm) == Encodes(Sequence1To15Program)
  {
    Sequence1To15Texts();
    AsmCodeTexts(Sequence1To15Program);
  }
}
