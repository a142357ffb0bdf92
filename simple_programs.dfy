/**
 * The summation programs that the 16-bit machine is expected to run, and what `Run` returns
 * for them. Each program is a straight-line prefix that initialises some registers, a loop
 * at label 0 that ends with a conditional GOTO, and `push_1 pop_0`, which leaves the result
 * in R0. The proofs go through macro steps: a `push_a pop_b` pair copies a register, and one
 * arithmetic byte updates R0.
 */
module SimplePrograms {
  import opened Words
  import opened Isa
  import opened SimpleMachine

  /** SP is a word or more above address 0 and inside Memory, so PUSH and POP do not wrap. */
  predicate StackRoom(s: State) { 2 <= s.sp <= |s.mem| }

  /** RunCode under a name of its own, so that the quantifier of `Leads` is instantiated
      only where a proof mentions it. */
  ghost function Ends(s: State, code: seq<u8>, n: u16, fuel: nat): State
    requires WF(s) && n <= |code|
  {
    RunCode(s, code, n, fuel)
  }

  /** Run's loop goes from `s` to `t` in `k` steps, whatever the iteration bound. */
  ghost predicate Leads(s: State, t: State, code: seq<u8>, n: u16, k: nat)
    requires WF(s) && WF(t) && n <= |code|
  {
    forall fuel: nat :: fuel >= k ==> Ends(s, code, n, fuel) == Ends(t, code, n, fuel - k)
  }

  lemma LeadsTrans(s: State, t: State, u: State, code: seq<u8>, n: u16, k1: nat, k2: nat)
    requires WF(s) && WF(t) && WF(u) && n <= |code|
    requires Leads(s, t, code, n, k1) && Leads(t, u, code, n, k2)
    ensures Leads(s, u, code, n, k1 + k2)
  {
    forall fuel: nat | fuel >= k1 + k2
      ensures Ends(s, code, n, fuel) == Ends(u, code, n, fuel - (k1 + k2))
    {
      assert Ends(s, code, n, fuel) == Ends(t, code, n, fuel - k1);
      assert Ends(t, code, n, fuel - k1) == Ends(u, code, n, fuel - k1 - k2);
    }
  }

  /** One step of Run's loop from a PC below n. */
  lemma LeadsStep(s: State, code: seq<u8>, n: u16)
    requires WF(s) && n <= |code| && s.pc < n && !StepFaults(s, code[s.pc])
    ensures Leads(s, Step(s, code[s.pc]), code, n, 1)
  {
    forall fuel: nat | fuel >= 1
      ensures Ends(s, code, n, fuel) == Ends(Step(s, code[s.pc]), code, n, fuel - 1)
    {
    }
  }

  // ---------------------------------------------------------------------------------------
  // Single steps; `b` is the instruction byte at PC

  /** PUSH, away from address 0: the register's word goes big-endian to SP-2 and SP-1. */
  lemma PushStep(s: State, code: seq<u8>, n: u16, b: u8) returns (t: State)
    requires WF(s) && n <= |code| && s.pc < n && StackRoom(s)
    requires code[s.pc] == b && DecodeSimple(b).Push?
    ensures DecodeSimple(b).reg < 17 && WF(t) && Leads(s, t, code, n, 1)
    ensures t.pc == s.pc + 1 && t.sp == s.sp - 2 && t.regs == s.regs && t.labels == s.labels
    ensures var v := s.regs[DecodeSimple(b).reg];
      t.mem == s.mem[s.sp - 1 := LoByte(v)][s.sp - 2 := HiByte(v)]
  {
    assert BaseOperandsInRange(DecodeSimple(b));
    PushWordNoWrap(s.(pc := s.pc + 1), s.regs[DecodeSimple(b).reg]);
    t := Step(s, b);
    LeadsStep(s, code, n);
  }

  /** POP: the big-endian word at SP goes into the register and SP moves up. */
  lemma PopStep(s: State, code: seq<u8>, n: u16, b: u8) returns (t: State)
    requires WF(s) && n <= |code| && s.pc < n && s.sp + 2 <= |s.mem| && s.sp + 2 < 0x1_0000
    requires code[s.pc] == b && DecodeSimple(b).Pop?
    ensures DecodeSimple(b).reg < 17 && WF(t) && Leads(s, t, code, n, 1)
    ensures t.pc == s.pc + 1 && t.sp == s.sp + 2 && t.labels == s.labels && t.mem == s.mem
    ensures t.regs == s.regs[DecodeSimple(b).reg := Word(s.mem[s.sp], s.mem[s.sp + 1])]
  {
    assert BaseOperandsInRange(DecodeSimple(b));
    t := Step(s, b);
    LeadsStep(s, code, n);
  }

  /** The value SET, ADD, SUB or MUL leaves in R0, given R0 and the operand register. */
  function ArithResult(i: Instr, acc: u16, operand: u16): u16
  {
    if i.Set? then Wrap16(i.value)
    else if i.Add? then Wrap16(acc as int + operand)
    else if i.Sub? then Wrap16(acc as int - operand)
    else if i.Mul? then Wrap16(acc as int * operand)
    else acc
  }

  /** SET, ADD, SUB or MUL, with R0 = acc and the operand register holding `operand`: R0
      changes as the instruction says and PC moves on. */
  lemma ArithStep(s: State, code: seq<u8>, n: u16, b: u8, acc: u16, operand: u16) returns (t: State)
    requires WF(s) && n <= |code| && s.pc < n && code[s.pc] == b && s.regs[0] == acc
    requires var i := DecodeSimple(b);
      i.Set? || ((i.Add? || i.Sub? || i.Mul?) && 1 <= i.reg <= 16 && s.regs[i.reg] == operand)
    ensures WF(t) && Leads(s, t, code, n, 1)
    ensures t.pc == s.pc + 1 && t.regs == s.regs[0 := ArithResult(DecodeSimple(b), acc, operand)]
    ensures t.sp == s.sp && t.labels == s.labels && t.mem == s.mem
  {
    t := Step(s, b);
    LeadsStep(s, code, n);
  }

  /** GOTO: PC becomes the label's address when the condition on R0 holds. */
  lemma GotoStep(s: State, code: seq<u8>, n: u16, b: u8) returns (t: State)
    requires WF(s) && n <= |code| && s.pc < n
    requires code[s.pc] == b && DecodeSimple(b).Goto?
    ensures DecodeSimple(b).target < 16 && WF(t) && Leads(s, t, code, n, 1)
    ensures var i := DecodeSimple(b);
      t.pc == if GotoTaken(s.regs[0], i.ifNonZero) then s.labels[i.target] else s.pc + 1
    ensures t.regs == s.regs && t.sp == s.sp && t.labels == s.labels && t.mem == s.mem
  {
    assert BaseOperandsInRange(DecodeSimple(b));
    t := Step(s, b);
    LeadsStep(s, code, n);
  }

  /** LABEL does nothing at run time. */
  lemma LabelStep(s: State, code: seq<u8>, n: u16, b: u8) returns (t: State)
    requires WF(s) && n <= |code| && s.pc < n
    requires code[s.pc] == b && DecodeSimple(b).Label?
    ensures WF(t) && Leads(s, t, code, n, 1) && t.pc == s.pc + 1
    ensures t.regs == s.regs && t.sp == s.sp && t.labels == s.labels && t.mem == s.mem
  {
    t := Step(s, b);
    LeadsStep(s, code, n);
  }

  // ---------------------------------------------------------------------------------------
  // Macro steps

  /** `push_a pop_b` copies register a into register b and leaves SP where it was. */
  lemma Move(s: State, code: seq<u8>, n: u16, pa: u8, pb: u8, a: nat, b: nat) returns (t: State)
    requires WF(s) && n <= |code| && s.pc as int + 2 <= n as int && StackRoom(s)
    requires code[s.pc] == pa && DecodeSimple(pa) == Push(a)
    requires code[s.pc + 1] == pb && DecodeSimple(pb) == Pop(b)
    ensures a < 17 && b < 17 && WF(t) && Leads(s, t, code, n, 2)
    ensures t.pc == s.pc + 2 && t.regs == s.regs[b := s.regs[a]]
    ensures t.sp == s.sp && t.labels == s.labels && |t.mem| == |s.mem|
  {
    var t1 := PushStep(s, code, n, pa);
    t := PopStep(t1, code, n, pb);
    WordOfBytes(s.regs[a]);
    LeadsTrans(s, t1, t, code, n, 1, 1);
  }

  /** `push_x pop_0 op_y push_0 pop_z`, for op one of ADD, SUB and MUL: register z and R0
      receive Rx op Ry. */
  lemma Block(s: State, code: seq<u8>, n: u16, px: u8, bo: u8, pz: u8, x: nat, y: nat, z: nat)
    returns (t: State)
    requires WF(s) && n <= |code| && s.pc as int + 5 <= n as int && StackRoom(s)
    requires code[s.pc] == px && DecodeSimple(px) == Push(x) && code[s.pc + 1] == 0xa1
    requires code[s.pc + 2] == bo && var i := DecodeSimple(bo);
      (i.Add? || i.Sub? || i.Mul?) && i.reg == y
    requires code[s.pc + 3] == 0x81 && code[s.pc + 4] == pz && DecodeSimple(pz) == Pop(z)
    ensures x < 17 && 1 <= y < 17 && z < 17 && WF(t) && Leads(s, t, code, n, 5)
    ensures var v := ArithResult(DecodeSimple(bo), s.regs[x], s.regs[y]);
      t.pc == s.pc + 5 && t.regs == s.regs[0 := v][z := v]
    ensures t.sp == s.sp && t.labels == s.labels && |t.mem| == |s.mem|
  {
    assert BaseOperandsInRange(DecodeSimple(bo));
    var t1 := Move(s, code, n, px, 0xa1, x, 0);
    var t2 := ArithStep(t1, code, n, bo, s.regs[x], s.regs[y]);
    t := Move(t2, code, n, 0x81, pz, 0, z);
    LeadsTrans(s, t1, t2, code, n, 2, 1);
    LeadsTrans(s, t2, t, code, n, 3, 2);
  }

  // ---------------------------------------------------------------------------------------
  // The loop that adds R2, R2 - 1, ..., 1 into R1

  /** The loop of TestAlternativeSum1To10 and TestSum1To100 from the byte after `label_0`
      at address h: push_1 pop_0 add_2 push_0 pop_1 (R1 += R2), push_2 pop_0 sub_3 push_0
      pop_2 (R2 -= R3), goto_0_1, then push_1 pop_0 at h + 11. */
  predicate CountDownCode(code: seq<u8>, h: int)
  {
    0 <= h && h + 13 <= |code| &&
    code[h] == 0x80 && code[h + 1] == 0xa1 && code[h + 2] == 0x22 &&
    code[h + 3] == 0x81 && code[h + 4] == 0xa0 &&
    code[h + 5] == 0x82 && code[h + 6] == 0xa1 && code[h + 7] == 0x44 &&
    code[h + 8] == 0x81 && code[h + 9] == 0xa2 && code[h + 10] == 0xc1 &&
    code[h + 11] == 0x80 && code[h + 12] == 0xa1
  }

  /** At the top of the count-down loop, which ends at n, with R1 = acc, R2 = k and R3 = 1. */
  predicate CountDownHead(s: State, code: seq<u8>, n: u16, acc: int, k: int)
  {
    WF(s) && n <= |code| && 13 <= n && CountDownCode(code, n - 13) &&
    s.pc == n - 13 && s.labels[0] == n - 13 && StackRoom(s) &&
    s.regs[1] == acc && s.regs[2] == k && s.regs[3] == 1
  }

  /** One pass of the count-down loop adds k to R1 and decrements R2; it jumps back to the
      top while R2 is not zero, and falls through to `push_1 pop_0` when it is. */
  lemma CountDownPass(s: State, code: seq<u8>, n: u16, acc: nat, k: nat) returns (t: State)
    requires CountDownHead(s, code, n, acc, k) && 1 <= k && acc + k < 0x1_0000
    ensures WF(t) && Leads(s, t, code, n, 11)
    ensures t.labels == s.labels && |t.mem| == |s.mem| && StackRoom(t)
    ensures k > 1 ==> CountDownHead(t, code, n, acc + k, k - 1)
    ensures k == 1 ==> t.pc == n - 2 && t.regs[1] == acc + 1
  {
    var t1 := Block(s, code, n, 0x80, 0x22, 0xa0, 1, 2, 1);
    var t2 := Block(t1, code, n, 0x82, 0x44, 0xa2, 2, 3, 2);
    t := GotoStep(t2, code, n, 0xc1);
    LeadsTrans(s, t1, t2, code, n, 5, 5);
    LeadsTrans(s, t2, t, code, n, 10, 1);
  }

  /** Sum(k) = 1 + 2 + ... + k. */
  function Sum(k: nat): nat { k * (k + 1) / 2 }

  lemma SumStep(k: nat)
    requires k >= 1
    ensures Sum(k) == k + Sum(k - 1)
  {
    assert k * (k + 1) == 2 * k + (k - 1) * k;
  }

  lemma SumMonotone(j: nat, k: nat)
    requires j <= k
    ensures Sum(j) <= Sum(k)
  {
    assert j * (j + 1) <= k * (k + 1);
  }

  /** From the top of the loop with R2 = k, the loop adds k + (k - 1) + ... + 1 to R1 in 11k
      steps and leaves PC at the `push_1 pop_0` after the GOTO. */
  lemma {:induction false} CountDownRun(s: State, code: seq<u8>, n: u16, acc: nat, k: nat)
    returns (t: State)
    requires CountDownHead(s, code, n, acc, k) && 1 <= k && acc + Sum(k) < 0x1_0000
    ensures WF(t) && Leads(s, t, code, n, 11 * k)
    ensures t.labels == s.labels && |t.mem| == |s.mem| && StackRoom(t)
    ensures t.pc == n - 2 && t.regs[1] == acc + Sum(k)
    decreases k
  {
    SumStep(k);
    var t1 := CountDownPass(s, code, n, acc, k);
    if k == 1 {
      t := t1;
    } else {
      t := CountDownRun(t1, code, n, acc + k, k - 1);
      LeadsTrans(s, t1, t, code, n, 11, 11 * (k - 1));
    }
  }

  /** `set_v push_0 pop_r`: R0 and register r receive v. */
  lemma SetReg(s: State, code: seq<u8>, n: u16, bs: u8, pb: u8, v: u16, r: nat) returns (t: State)
    requires WF(s) && n <= |code| && s.pc as int + 3 <= n as int && StackRoom(s)
    requires code[s.pc] == bs && DecodeSimple(bs) == Set(v as nat)
    requires code[s.pc + 1] == 0x81 && code[s.pc + 2] == pb && DecodeSimple(pb) == Pop(r)
    ensures r < 17 && WF(t) && Leads(s, t, code, n, 3)
    ensures t.pc == s.pc + 3 && t.regs == s.regs[0 := v][r := v]
    ensures t.sp == s.sp && t.labels == s.labels && |t.mem| == |s.mem|
  {
    var t1 := ArithStep(s, code, n, bs, s.regs[0], 0);
    t := Move(t1, code, n, 0x81, pb, 0, r);
    LeadsTrans(s, t1, t, code, n, 1, 2);
  }

  // ---------------------------------------------------------------------------------------
  // The loop that adds R3 = j, j + 1, ..., m - 1 into R1, where R2 = m

  /** The loop of TestSum1To10 from the byte after `label_0` at address h: push_1 pop_0
      add_3 push_0 pop_1 (R1 += R3), set_1 add_3 push_0 pop_3 (R3 += 1), sub_2 (R0 = R3 - R2),
      goto_0_1, then push_1 pop_0 at h + 11. */
  predicate CountUpCode(code: seq<u8>, h: int)
  {
    0 <= h && h + 13 <= |code| &&
    code[h] == 0x80 && code[h + 1] == 0xa1 && code[h + 2] == 0x24 &&
    code[h + 3] == 0x81 && code[h + 4] == 0xa0 &&
    code[h + 5] == 0x01 && code[h + 6] == 0x24 && code[h + 7] == 0x81 && code[h + 8] == 0xa4 &&
    code[h + 9] == 0x42 && code[h + 10] == 0xc1 &&
    code[h + 11] == 0x80 && code[h + 12] == 0xa1
  }

  /** At the top of the count-up loop, which ends at n, with R1 = acc, R2 = m and R3 = j. */
  predicate CountUpHead(s: State, code: seq<u8>, n: u16, acc: int, j: int, m: int)
  {
    WF(s) && n <= |code| && 13 <= n && CountUpCode(code, n - 13) &&
    s.pc == n - 13 && s.labels[0] == n - 13 && StackRoom(s) &&
    s.regs[1] == acc && s.regs[2] == m && s.regs[3] == j
  }

  /** `set_1 add_3 push_0 pop_3`: R3 and R0 become R3 + 1. */
  lemma Increment(s: State, code: seq<u8>, n: u16) returns (t: State)
    requires WF(s) && n <= |code| && s.pc as int + 4 <= n as int && StackRoom(s)
    requires code[s.pc] == 0x01 && code[s.pc + 1] == 0x24
    requires code[s.pc + 2] == 0x81 && code[s.pc + 3] == 0xa4
    ensures WF(t) && Leads(s, t, code, n, 4)
    ensures var v := Wrap16(s.regs[3] as int + 1);
      t.pc == s.pc + 4 && t.regs == s.regs[0 := v][3 := v]
    ensures t.sp == s.sp && t.labels == s.labels && |t.mem| == |s.mem|
  {
    var t1 := ArithStep(s, code, n, 0x01, s.regs[0], 0);
    var t2 := ArithStep(t1, code, n, 0x24, 1, s.regs[3]);
    t := Move(t2, code, n, 0x81, 0xa4, 0, 3);
    LeadsTrans(s, t1, t2, code, n, 1, 1);
    LeadsTrans(s, t2, t, code, n, 2, 2);
  }

  /** One pass of the count-up loop adds j to R1 and increments R3; it jumps back to the top
      while R3 has not reached m, and falls through to `push_1 pop_0` when it has. */
  lemma CountUpPass(s: State, code: seq<u8>, n: u16, acc: nat, j: nat, m: nat) returns (t: State)
    requires CountUpHead(s, code, n, acc, j, m) && 1 <= j < m && acc + j < 0x1_0000
    ensures WF(t) && Leads(s, t, code, n, 11)
    ensures t.labels == s.labels && |t.mem| == |s.mem| && StackRoom(t)
    ensures j + 1 < m ==> CountUpHead(t, code, n, acc + j, j + 1, m)
    ensures j + 1 == m ==> t.pc == n - 2 && t.regs[1] == acc + j
  {
    var t1 := Block(s, code, n, 0x80, 0x24, 0xa0, 1, 3, 1);
    var t2 := Increment(t1, code, n);
    var t3 := ArithStep(t2, code, n, 0x42, j as u16 + 1, m as u16);
    t := GotoStep(t3, code, n, 0xc1);
    LeadsTrans(s, t1, t2, code, n, 5, 4);
    LeadsTrans(s, t2, t3, code, n, 9, 1);
    LeadsTrans(s, t3, t, code, n, 10, 1);
  }

  /** From the top of the loop with R3 = j and R2 = m, the loop adds j + (j + 1) + ... +
      (m - 1) to R1 in 11(m - j) steps and leaves PC at the `push_1 pop_0` after the GOTO. */
  lemma {:induction false} CountUpRun(s: State, code: seq<u8>, n: u16, acc: nat, j: nat, m: nat)
    returns (t: State)
    requires CountUpHead(s, code, n, acc, j, m) && 1 <= j < m
    requires acc + Sum(m - 1) - Sum(j - 1) < 0x1_0000
    ensures WF(t) && Leads(s, t, code, n, 11 * (m - j))
    ensures t.labels == s.labels && |t.mem| == |s.mem| && StackRoom(t)
    ensures t.pc == n - 2 && t.regs[1] == acc + Sum(m - 1) - Sum(j - 1)
    decreases m - j
  {
    SumStep(j);
    SumMonotone(j, m - 1);
    var t1 := CountUpPass(s, code, n, acc, j, m);
    if j + 1 == m {
      t := t1;
    } else {
      t := CountUpRun(t1, code, n, acc + j, j + 1, m);
      LeadsTrans(s, t1, t, code, n, 11, 11 * (m - (j + 1)));
    }
  }

  // ---------------------------------------------------------------------------------------
  // The tests: CPU{}, InitMemory(100), InitStack(99), then Run(code, len(code))

  /** The CPU the tests hand to Run: 100 bytes of memory and the stack at 98. */
  function TestSetup(): (s: State)
    ensures WF(s) && |s.mem| == 100 && s.stackHead == 98
  {
    InitStackState(InitMemoryState(ZeroState(), 100), 99)
  }

  /** A CPU like the tests': 100 bytes of memory and StackHead 98, so that Reset puts SP at
      the top of memory. */
  predicate TestLike(s0: State) { |s0.mem| == 100 && s0.stackHead == 98 }

  /** Where Run's loop starts on a test-like CPU: PC 0, SP at the top of 100 bytes of
      memory, all registers zero. */
  predicate Fresh(s: State)
  {
    WF(s) && s.pc == 0 && s.sp == 100 && |s.mem| == 100 &&
    forall r :: 0 <= r < 17 ==> s.regs[r] == 0
  }

  /** ... and label 0 is one past offset `at`. */
  predicate Started(s: State, at: nat) { Fresh(s) && s.labels[0] == at + 1 }

  /** Run's reset and pre-pass on a test-like CPU. */
  lemma TestReset(s0: State, code: seq<u8>, n: u16) returns (s: State)
    requires TestLike(s0) && n <= |code|
    ensures s == PreprocessState(ResetState(s0), code, n) && Fresh(s)
  {
    s := PreprocessState(ResetState(s0), code, n);
  }

  /** ... for a program whose only LABEL byte, for label 0, is at offset `at`. */
  lemma TestStart(s0: State, code: seq<u8>, n: u16, at: nat) returns (s: State)
    requires TestLike(s0) && n <= |code| && at < n && code[at] == 0xe0
    requires forall k :: 0 <= k < n && k != at ==> !IsLabelByte(code[k])
    ensures s == PreprocessState(ResetState(s0), code, n) && Started(s, at)
  {
    s := TestReset(s0, code, n);
    ScanLabelsLastDefinition(ResetState(s0).labels, code, n, 0, at);
  }

  /** Whenever Run's loop reaches PC = n in k steps from the state Run starts from, Run
      ends there, for any bound of k or more iterations, and reports that it finished. */
  lemma RunEnds(s0: State, code: seq<u8>, n: u16, s: State, t: State, k: nat, fuel: nat)
    requires n <= |code| && s == PreprocessState(ResetState(s0), code, n)
    requires WF(t) && Leads(s, t, code, n, k) && t.pc >= n && fuel >= k
    ensures RunSpec(s0, code, n, fuel) == t && RunExit(t, code, n) == Finished
  {
    assert Ends(s, code, n, fuel) == Ends(t, code, n, fuel - k);
  }

  /** The bytes of TestAlternativeSum1To10, which TestMachineCodeGeneration also assembles:
      R1 = 0, R2 = 10, R3 = 1, label 0, then R1 += R2 and R2 -= R3 until R2 is zero. */
  predicate AlternativeSum1To10Bytes(code: seq<u8>)
  {
    |code| == 23 &&
    code[0] == 0x00 && code[1] == 0x81 && code[2] == 0xa0 &&
    code[3] == 0x0a && code[4] == 0x81 && code[5] == 0xa2 &&
    code[6] == 0x01 && code[7] == 0x81 && code[8] == 0xa4 && code[9] == 0xe0 &&
    CountDownCode(code, 10)
  }

  /** The prefix brings Run to the top of the loop with R1 = 0, R2 = 10 and R3 = 1. */
  lemma AlternativeSum1To10Prefix(s: State, code: seq<u8>) returns (t: State)
    requires Started(s, 9) && AlternativeSum1To10Bytes(code)
    ensures WF(t) && Leads(s, t, code, 23, 10)
    ensures CountDownHead(t, code, 23, 0, 10)
  {
    var t1 := SetReg(s, code, 23, 0x00, 0xa0, 0, 1);
    var t2 := SetReg(t1, code, 23, 0x0a, 0xa2, 10, 2);
    var t3 := SetReg(t2, code, 23, 0x01, 0xa4, 1, 3);
    t := LabelStep(t3, code, 23, 0xe0);
    LeadsTrans(s, t1, t2, code, 23, 3, 3);
    LeadsTrans(s, t2, t3, code, 23, 6, 3);
    LeadsTrans(s, t3, t, code, 23, 9, 1);
  }

  /** The bytes that end the test programs: `push_1 pop_0` or `push_4 pop_0` copies the
      result into R0. */
  lemma ResultBytes()
    ensures DecodeSimple(0x80) == Push(1) && DecodeSimple(0x86) == Push(4)
    ensures DecodeSimple(0xa1) == Pop(0)
  {
  }

  /** Run returns 55 after 122 iterations. */
  lemma AlternativeSum1To10Result(s0: State, code: seq<u8>, fuel: nat)
    requires TestLike(s0) && AlternativeSum1To10Bytes(code) && fuel >= 122
    ensures var t := RunSpec(s0, code, 23, fuel);
      t.regs[0] == 55 && RunExit(t, code, 23) == Finished
  {
    var s := TestStart(s0, code, 23, 9);
    var t1 := AlternativeSum1To10Prefix(s, code);
    var t2 := CountDownRun(t1, code, 23, 0, 10);
    ResultBytes();
    var t := Move(t2, code, 23, 0x80, 0xa1, 1, 0);
    LeadsTrans(s, t1, t2, code, 23, 10, 110);
    LeadsTrans(s, t2, t, code, 23, 120, 2);
    RunEnds(s0, code, 23, s, t, 122, fuel);
  }

  /** The bytes of TestSum1To100: R1 = 0, R4 = 10, R2 = 10 * R4, R3 = 1, label 0, then the
      count-down loop. */
  predicate Sum1To100Bytes(code: seq<u8>)
  {
    |code| == 26 &&
    code[0] == 0x00 && code[1] == 0x81 && code[2] == 0xa0 &&
    code[3] == 0x0a && code[4] == 0x81 && code[5] == 0xa6 &&
    code[6] == 0x66 && code[7] == 0x81 && code[8] == 0xa2 &&
    code[9] == 0x01 && code[10] == 0x81 && code[11] == 0xa4 && code[12] == 0xe0 &&
    CountDownCode(code, 13)
  }

  /** The first six bytes set R1 = 0 and R4 = R0 = 10. */
  lemma Sum1To100Init(s: State, code: seq<u8>) returns (t: State)
    requires Started(s, 12) && Sum1To100Bytes(code)
    ensures WF(t) && Leads(s, t, code, 26, 6)
    ensures t.pc == 6 && t.sp == 100 && |t.mem| == 100 && t.labels == s.labels
    ensures t.regs[0] == 10 && t.regs[1] == 0 && t.regs[4] == 10
  {
    var t1 := SetReg(s, code, 26, 0x00, 0xa0, 0, 1);
    t := SetReg(t1, code, 26, 0x0a, 0xa6, 10, 4);
    LeadsTrans(s, t1, t, code, 26, 3, 3);
  }

  /** The prefix brings Run to the top of the loop with R1 = 0, R2 = 100 and R3 = 1. */
  lemma Sum1To100Prefix(s: State, code: seq<u8>) returns (t: State)
    requires Started(s, 12) && Sum1To100Bytes(code)
    ensures WF(t) && Leads(s, t, code, 26, 13)
    ensures CountDownHead(t, code, 26, 0, 100)
  {
    var t2 := Sum1To100Init(s, code);
    var t3 := ArithStep(t2, code, 26, 0x66, 10, 10);
    var t4 := Move(t3, code, 26, 0x81, 0xa2, 0, 2);
    var t5 := SetReg(t4, code, 26, 0x01, 0xa4, 1, 3);
    t := LabelStep(t5, code, 26, 0xe0);
    LeadsTrans(s, t2, t3, code, 26, 6, 1);
    LeadsTrans(s, t3, t4, code, 26, 7, 2);
    LeadsTrans(s, t4, t5, code, 26, 9, 3);
    LeadsTrans(s, t5, t, code, 26, 12, 1);
  }

  /** Run returns 5050 after 1115 iterations. */
  lemma Sum1To100Result(s0: State, code: seq<u8>, fuel: nat)
    requires TestLike(s0) && Sum1To100Bytes(code) && fuel >= 1115
    ensures var t := RunSpec(s0, code, 26, fuel);
      t.regs[0] == 5050 && RunExit(t, code, 26) == Finished
  {
    var s := TestStart(s0, code, 26, 12);
    var t1 := Sum1To100Prefix(s, code);
    var t2 := CountDownRun(t1, code, 26, 0, 100);
    ResultBytes();
    var t := Move(t2, code, 26, 0x80, 0xa1, 1, 0);
    LeadsTrans(s, t1, t2, code, 26, 13, 1100);
    LeadsTrans(s, t2, t, code, 26, 1113, 2);
    RunEnds(s0, code, 26, s, t, 1115, fuel);
  }

  /** The bytes of TestSum1To10: R1 = 0, R2 = 11, R3 = 1, label 0, then the count-up
      loop. */
  predicate Sum1To10Bytes(code: seq<u8>)
  {
    |code| == 23 &&
    code[0] == 0x00 && code[1] == 0x81 && code[2] == 0xa0 &&
    code[3] == 0x0b && code[4] == 0x81 && code[5] == 0xa2 &&
    code[6] == 0x01 && code[7] == 0x81 && code[8] == 0xa4 && code[9] == 0xe0 &&
    CountUpCode(code, 10)
  }

  /** The prefix brings Run to the top of the loop with R1 = 0, R2 = 11 and R3 = 1. */
  lemma Sum1To10Prefix(s: State, code: seq<u8>) returns (t: State)
    requires Started(s, 9) && Sum1To10Bytes(code)
    ensures WF(t) && Leads(s, t, code, 23, 10)
    ensures CountUpHead(t, code, 23, 0, 1, 11)
  {
    var t1 := SetReg(s, code, 23, 0x00, 0xa0, 0, 1);
    var t2 := SetReg(t1, code, 23, 0x0b, 0xa2, 11, 2);
    var t3 := SetReg(t2, code, 23, 0x01, 0xa4, 1, 3);
    t := LabelStep(t3, code, 23, 0xe0);
    LeadsTrans(s, t1, t2, code, 23, 3, 3);
    LeadsTrans(s, t2, t3, code, 23, 6, 3);
    LeadsTrans(s, t3, t, code, 23, 9, 1);
  }

  /** Run returns 55 after 122 iterations. */
  lemma Sum1To10Result(s0: State, code: seq<u8>, fuel: nat)
    requires TestLike(s0) && Sum1To10Bytes(code) && fuel >= 122
    ensures var t := RunSpec(s0, code, 23, fuel);
      t.regs[0] == 55 && RunExit(t, code, 23) == Finished
  {
    var s := TestStart(s0, code, 23, 9);
    var t1 := Sum1To10Prefix(s, code);
    var t2 := CountUpRun(t1, code, 23, 0, 1, 11);
    ResultBytes();
    var t := Move(t2, code, 23, 0x80, 0xa1, 1, 0);
    LeadsTrans(s, t1, t2, code, 23, 10, 110);
    LeadsTrans(s, t2, t, code, 23, 120, 2);
    RunEnds(s0, code, 23, s, t, 122, fuel);
  }
  // ---------------------------------------------------------------------------------------
  // TestSequence1To15: a straight-line program of five-byte blocks over R1, R3 = 1 and R4

  /** Between blocks: PC at p, SP at the top of memory, R1 = r1, R3 = 1, R4 = r4. */
  predicate SeqAt(s: State, p: int, r1: int, r4: int)
  {
    WF(s) && s.pc == p && s.sp == 100 && |s.mem| == 100 &&
    s.regs[1] == r1 && s.regs[3] == 1 && s.regs[4] == r4
  }

  /** push_4 pop_0 add_1 push_0 pop_4: R4 += R1, at offset p. */
  predicate AddR1ToR4Code(code: seq<u8>, p: int)
  {
    0 <= p && p + 5 <= |code| &&
    code[p] == 0x86 && code[p + 1] == 0xa1 && code[p + 2] == 0x20 &&
    code[p + 3] == 0x81 && code[p + 4] == 0xa6
  }

  /** push_1 pop_0 add_3 push_0 pop_1: R1 += R3, at offset p. */
  predicate IncR1Code(code: seq<u8>, p: int)
  {
    0 <= p && p + 5 <= |code| &&
    code[p] == 0x80 && code[p + 1] == 0xa1 && code[p + 2] == 0x24 &&
    code[p + 3] == 0x81 && code[p + 4] == 0xa0
  }

  /** set_2 mul_1 add_4 push_0 pop_4: R4 = 2 * R1 + R4, at offset p. */
  predicate AddTwiceR1ToR4Code(code: seq<u8>, p: int)
  {
    0 <= p && p + 5 <= |code| &&
    code[p] == 0x02 && code[p + 1] == 0x60 && code[p + 2] == 0x26 &&
    code[p + 3] == 0x81 && code[p + 4] == 0xa6
  }

  /** set_0 sub_1 add_4 push_0 pop_4: R4 -= R1, at offset p. */
  predicate SubR1FromR4Code(code: seq<u8>, p: int)
  {
    0 <= p && p + 5 <= |code| &&
    code[p] == 0x00 && code[p + 1] == 0x40 && code[p + 2] == 0x26 &&
    code[p + 3] == 0x81 && code[p + 4] == 0xa6
  }

  lemma AddR1ToR4(s: State, code: seq<u8>, n: u16, r1: nat, r4: nat) returns (t: State)
    requires SeqAt(s, s.pc, r1, r4) && n <= |code| && s.pc as int + 5 <= n as int
    requires AddR1ToR4Code(code, s.pc) && r4 + r1 < 0x1_0000
    ensures WF(t) && Leads(s, t, code, n, 5) && SeqAt(t, s.pc + 5, r1, r4 + r1)
  {
    t := Block(s, code, n, 0x86, 0x20, 0xa6, 4, 1, 4);
  }

  lemma IncR1(s: State, code: seq<u8>, n: u16, r1: nat, r4: nat) returns (t: State)
    requires SeqAt(s, s.pc, r1, r4) && n <= |code| && s.pc as int + 5 <= n as int
    requires IncR1Code(code, s.pc) && r1 + 1 < 0x1_0000
    ensures WF(t) && Leads(s, t, code, n, 5) && SeqAt(t, s.pc + 5, r1 + 1, r4)
  {
    t := Block(s, code, n, 0x80, 0x24, 0xa0, 1, 3, 1);
  }

  lemma AddTwiceR1ToR4(s: State, code: seq<u8>, n: u16, r1: nat, r4: nat) returns (t: State)
    requires SeqAt(s, s.pc, r1, r4) && n <= |code| && s.pc as int + 5 <= n as int
    requires AddTwiceR1ToR4Code(code, s.pc) && 2 * r1 + r4 < 0x1_0000
    ensures WF(t) && Leads(s, t, code, n, 5) && SeqAt(t, s.pc + 5, r1, 2 * r1 + r4)
  {
    var t1 := ArithStep(s, code, n, 0x02, s.regs[0], 0);
    var t2 := ArithStep(t1, code, n, 0x60, 2, r1 as u16);
    var t3 := ArithStep(t2, code, n, 0x26, (2 * r1) as u16, r4 as u16);
    t := Move(t3, code, n, 0x81, 0xa6, 0, 4);
    LeadsTrans(s, t1, t2, code, n, 1, 1);
    LeadsTrans(s, t2, t3, code, n, 2, 1);
    LeadsTrans(s, t3, t, code, n, 3, 2);
  }

  lemma SubR1FromR4(s: State, code: seq<u8>, n: u16, r1: nat, r4: nat) returns (t: State)
    requires SeqAt(s, s.pc, r1, r4) && n <= |code| && s.pc as int + 5 <= n as int
    requires SubR1FromR4Code(code, s.pc) && 1 <= r1 <= r4 < 0x1_0000
    ensures WF(t) && Leads(s, t, code, n, 5) && SeqAt(t, s.pc + 5, r1, r4 - r1)
  {
    var t1 := ArithStep(s, code, n, 0x00, s.regs[0], 0);
    var t2 := ArithStep(t1, code, n, 0x40, 0, r1 as u16);
    var t3 := ArithStep(t2, code, n, 0x26, (0x1_0000 - r1) as u16, r4 as u16);
    t := Move(t3, code, n, 0x81, 0xa6, 0, 4);
    LeadsTrans(s, t1, t2, code, n, 1, 1);
    LeadsTrans(s, t2, t3, code, n, 2, 1);
    LeadsTrans(s, t3, t, code, n, 3, 2);
  }

  /** The first 20 bytes of TestSequence1To15: set_1 push_0 pop_1, set_6 push_0 pop_5,
      set_15 push_0 pop_2, set_15 mul_2 add_5 push_0 pop_2, set_1 push_0 pop_3, set_0 push_0
      pop_4. */
  predicate Sequence1To15PrefixBytes(code: seq<u8>)
  {
    20 <= |code| &&
    code[0] == 0x01 && code[1] == 0x81 && code[2] == 0xa0 && code[3] == 0x06 && code[4] == 0x81 &&
    code[5] == 0xa8 && code[6] == 0x0f && code[7] == 0x81 && code[8] == 0xa2 && code[9] == 0x0f &&
    code[10] == 0x62 && code[11] == 0x28 && code[12] == 0x81 && code[13] == 0xa2 &&
    code[14] == 0x01 &&
    code[15] == 0x81 && code[16] == 0xa4 && code[17] == 0x00 && code[18] == 0x81 && code[19] == 0xa6
  }

  /** The bytes of TestSequence1To15: R1 = 1, R5 = 6, R2 = 15, R2 = 15 * R2 + R5, R3 = 1,
      R4 = 0, then 26 blocks, then push_4 pop_0. */
  predicate Sequence1To15Bytes(code: seq<u8>)
  {
    |code| == 152 && Sequence1To15PrefixBytes(code) &&
    AddR1ToR4Code(code, 20) && IncR1Code(code, 25) && AddR1ToR4Code(code, 30) &&
    IncR1Code(code, 35) && IncR1Code(code, 40) && AddR1ToR4Code(code, 45) &&
    IncR1Code(code, 50) && AddTwiceR1ToR4Code(code, 55) && IncR1Code(code, 60) &&
    IncR1Code(code, 65) && AddR1ToR4Code(code, 70) && IncR1Code(code, 75) &&
    AddR1ToR4Code(code, 80) && IncR1Code(code, 85) && IncR1Code(code, 90) &&
    AddTwiceR1ToR4Code(code, 95) && IncR1Code(code, 100) && AddR1ToR4Code(code, 105) &&
    IncR1Code(code, 110) && IncR1Code(code, 115) && AddR1ToR4Code(code, 120) &&
    IncR1Code(code, 125) && AddR1ToR4Code(code, 130) && IncR1Code(code, 135) &&
    SubR1FromR4Code(code, 140) && IncR1Code(code, 145) &&
    code[150] == 0x86 && code[151] == 0xa1
  }

  /** The first nine bytes set R1 = 1, R5 = 6 and R2 = 15. */
  lemma Sequence1To15Init(s: State, code: seq<u8>) returns (t: State)
    requires Fresh(s) && Sequence1To15PrefixBytes(code) && 152 <= |code|
    ensures WF(t) && Leads(s, t, code, 152, 9)
    ensures t.pc == 9 && t.sp == 100 && |t.mem| == 100
    ensures t.regs[0] == 15 && t.regs[1] == 1 && t.regs[2] == 15 && t.regs[5] == 6
  {
    var t1 := SetReg(s, code, 152, 0x01, 0xa0, 1, 1);
    var t2 := SetReg(t1, code, 152, 0x06, 0xa8, 6, 5);
    t := SetReg(t2, code, 152, 0x0f, 0xa2, 15, 2);
    LeadsTrans(s, t1, t2, code, 152, 3, 3);
    LeadsTrans(s, t2, t, code, 152, 6, 3);
  }

  /** Bytes 9 to 13 set R2 = 15 * R2 + R5 = 231. */
  lemma Sequence1To15Scale(s: State, code: seq<u8>) returns (t: State)
    requires Sequence1To15PrefixBytes(code) && 152 <= |code| && WF(s) && s.pc == 9
    requires s.sp == 100 && |s.mem| == 100 && s.regs[0] == 15 && s.regs[2] == 15 && s.regs[5] == 6
    ensures WF(t) && Leads(s, t, code, 152, 5)
    ensures t.pc == 14 && t.sp == 100 && |t.mem| == 100 && t.regs == s.regs[0 := 231][2 := 231]
  {
    var t1 := ArithStep(s, code, 152, 0x0f, 15, 0);
    var t2 := ArithStep(t1, code, 152, 0x62, 15, 15);
    var t3 := ArithStep(t2, code, 152, 0x28, 225, 6);
    t := Move(t3, code, 152, 0x81, 0xa2, 0, 2);
    LeadsTrans(s, t1, t2, code, 152, 1, 1);
    LeadsTrans(s, t2, t3, code, 152, 2, 1);
    LeadsTrans(s, t3, t, code, 152, 3, 2);
  }

  /** The first 20 bytes set R1 = 1, R3 = 1 and R4 = 0 (and R2 = 231, R5 = 6). */
  lemma Sequence1To15Prefix(s: State, code: seq<u8>) returns (t: State)
    requires Fresh(s) && Sequence1To15PrefixBytes(code) && 152 <= |code|
    ensures WF(t) && Leads(s, t, code, 152, 20) && SeqAt(t, 20, 1, 0)
  {
    var t3 := Sequence1To15Init(s, code);
    var t7 := Sequence1To15Scale(t3, code);
    var t8 := SetReg(t7, code, 152, 0x01, 0xa4, 1, 3);
    t := SetReg(t8, code, 152, 0x00, 0xa6, 0, 4);
    LeadsTrans(s, t3, t7, code, 152, 9, 5);
    LeadsTrans(s, t7, t8, code, 152, 14, 3);
    LeadsTrans(s, t8, t, code, 152, 17, 3);
  }

  /** Blocks 1 to 7. */
  lemma Sequence1To15Part1(s: State, code: seq<u8>) returns (t: State)
    requires SeqAt(s, 20, 1, 0) && Sequence1To15Bytes(code)
    ensures WF(t) && Leads(s, t, code, 152, 35) && SeqAt(t, 55, 5, 7)
  {
    var u0 := AddR1ToR4(s, code, 152, 1, 0);
    var u1 := IncR1(u0, code, 152, 1, 1);
    LeadsTrans(s, u0, u1, code, 152, 5, 5);
    var u2 := AddR1ToR4(u1, code, 152, 2, 1);
    LeadsTrans(s, u1, u2, code, 152, 10, 5);
    var u3 := IncR1(u2, code, 152, 2, 3);
    LeadsTrans(s, u2, u3, code, 152, 15, 5);
    var u4 := IncR1(u3, code, 152, 3, 3);
    LeadsTrans(s, u3, u4, code, 152, 20, 5);
    var u5 := AddR1ToR4(u4, code, 152, 4, 3);
    LeadsTrans(s, u4, u5, code, 152, 25, 5);
    var u6 := IncR1(u5, code, 152, 4, 7);
    LeadsTrans(s, u5, u6, code, 152, 30, 5);
    t := u6;
  }

  /** Blocks 8 to 13. */
  lemma Sequence1To15Part2(s: State, code: seq<u8>) returns (t: State)
    requires SeqAt(s, 55, 5, 7) && Sequence1To15Bytes(code)
    ensures WF(t) && Leads(s, t, code, 152, 30) && SeqAt(t, 85, 8, 32)
  {
    var u7 := AddTwiceR1ToR4(s, code, 152, 5, 7);
    var u8 := IncR1(u7, code, 152, 5, 17);
    LeadsTrans(s, u7, u8, code, 152, 5, 5);
    var u9 := IncR1(u8, code, 152, 6, 17);
    LeadsTrans(s, u8, u9, code, 152, 10, 5);
    var u10 := AddR1ToR4(u9, code, 152, 7, 17);
    LeadsTrans(s, u9, u10, code, 152, 15, 5);
    var u11 := IncR1(u10, code, 152, 7, 24);
    LeadsTrans(s, u10, u11, code, 152, 20, 5);
    var u12 := AddR1ToR4(u11, code, 152, 8, 24);
    LeadsTrans(s, u11, u12, code, 152, 25, 5);
    t := u12;
  }

  /** Blocks 14 to 20. */
  lemma Sequence1To15Part3(s: State, code: seq<u8>) returns (t: State)
    requires SeqAt(s, 85, 8, 32) && Sequence1To15Bytes(code)
    ensures WF(t) && Leads(s, t, code, 152, 35) && SeqAt(t, 120, 13, 63)
  {
    var u13 := IncR1(s, code, 152, 8, 32);
    var u14 := IncR1(u13, code, 152, 9, 32);
    LeadsTrans(s, u13, u14, code, 152, 5, 5);
    var u15 := AddTwiceR1ToR4(u14, code, 152, 10, 32);
    LeadsTrans(s, u14, u15, code, 152, 10, 5);
    var u16 := IncR1(u15, code, 152, 10, 52);
    LeadsTrans(s, u15, u16, code, 152, 15, 5);
    var u17 := AddR1ToR4(u16, code, 152, 11, 52);
    LeadsTrans(s, u16, u17, code, 152, 20, 5);
    var u18 := IncR1(u17, code, 152, 11, 63);
    LeadsTrans(s, u17, u18, code, 152, 25, 5);
    var u19 := IncR1(u18, code, 152, 12, 63);
    LeadsTrans(s, u18, u19, code, 152, 30, 5);
    t := u19;
  }

  /** Blocks 21 to 26. */
  lemma Sequence1To15Part4(s: State, code: seq<u8>) returns (t: State)
    requires SeqAt(s, 120, 13, 63) && Sequence1To15Bytes(code)
    ensures WF(t) && Leads(s, t, code, 152, 30) && SeqAt(t, 150, 16, 75)
  {
    var u20 := AddR1ToR4(s, code, 152, 13, 63);
    var u21 := IncR1(u20, code, 152, 13, 76);
    LeadsTrans(s, u20, u21, code, 152, 5, 5);
    var u22 := AddR1ToR4(u21, code, 152, 14, 76);
    LeadsTrans(s, u21, u22, code, 152, 10, 5);
    var u23 := IncR1(u22, code, 152, 14, 90);
    LeadsTrans(s, u22, u23, code, 152, 15, 5);
    var u24 := SubR1FromR4(u23, code, 152, 15, 90);
    LeadsTrans(s, u23, u24, code, 152, 20, 5);
    var u25 := IncR1(u24, code, 152, 15, 75);
    LeadsTrans(s, u24, u25, code, 152, 25, 5);
    t := u25;
  }

  /** Run returns 75 after 152 iterations. */
  lemma Sequence1To15Result(s0: State, code: seq<u8>, fuel: nat)
    requires TestLike(s0) && Sequence1To15Bytes(code) && fuel >= 152
    ensures var t := RunSpec(s0, code, 152, fuel);
      t.regs[0] == 75 && RunExit(t, code, 152) == Finished
  {
    var s := TestReset(s0, code, 152);
    var t1 := Sequence1To15Prefix(s, code);
    var t2 := Sequence1To15Part1(t1, code);
    var t3 := Sequence1To15Part2(t2, code);
    var t4 := Sequence1To15Part3(t3, code);
    var t5 := Sequence1To15Part4(t4, code);
    ResultBytes();
    var t := Move(t5, code, 152, 0x86, 0xa1, 4, 0);
    LeadsTrans(s, t1, t2, code, 152, 20, 35);
    LeadsTrans(s, t2, t3, code, 152, 55, 30);
    LeadsTrans(s, t3, t4, code, 152, 85, 35);
    LeadsTrans(s, t4, t5, code, 152, 120, 30);
    LeadsTrans(s, t5, t, code, 152, 150, 2);
    RunEnds(s0, code, 152, s, t, 152, fuel);
  }
}
