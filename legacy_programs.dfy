/**
 * The summation programs of cpu.go's tests on the earlier machine, and what `Run` returns
 * for them. The byte programs are those of the 16-bit machine (their shapes are the
 * predicates of SimplePrograms); here registers are 64-bit and a `push_a pop_b` pair goes
 * through the upward stack, so the same macro steps are proved again over LegacyMachine.
 */
module LegacyPrograms {
  import opened Words
  import opened Isa
  import opened LegacyMachine
  import opened LegacyProperties
  import SP = SimplePrograms

  /** RunCode under a name of its own, so that the quantifier of `Leads` is instantiated
      only where a proof mentions it. */
  ghost function Ends(s: State, code: seq<u8>, n: int, fuel: nat): State
    requires WF(s)
  {
    RunCode(s, code, n, fuel)
  }

  /** Run's loop goes from `s` to `t` in `k` steps, whatever the iteration bound. */
  ghost predicate Leads(s: State, t: State, code: seq<u8>, n: int, k: nat)
    requires WF(s) && WF(t)
  {
    forall fuel: nat :: fuel >= k ==> Ends(s, code, n, fuel) == Ends(t, code, n, fuel - k)
  }

  lemma LeadsTrans(s: State, t: State, u: State, code: seq<u8>, n: int, k1: nat, k2: nat)
    requires WF(s) && WF(t) && WF(u)
    requires Leads(s, t, code, n, k1) && Leads(t, u, code, n, k2)
    ensures Leads(s, u, code, n, k1 + k2)
  {
    forall fuel: nat | fuel >= k1 + k2
      ensures Ends(s, code, n, fuel) == Ends(u, code, n, fuel - (k1 + k2))
    {
      assert Ends(s, code, n, fuel) == Ends(t, code, n, fuel - k1);
      assert Ends(t, code, n, fuel - k1) == Ends(u, code, n, fuel - k1 - k2);
    }
  }

  /** One step of Run's loop from a PC below n. */
  lemma LeadsStep(s: State, code: seq<u8>, n: int)
    requires WF(s) && s.pc < n && !StepFaults(s, code)
    ensures Leads(s, Step(s, code), code, n, 1)
  {
    forall fuel: nat | fuel >= 1
      ensures Ends(s, code, n, fuel) == Ends(Step(s, code), code, n, fuel - 1)
    {
    }
  }

  /** The stack has room for one more push. */
  predicate StackRoom(s: State) { 0 <= s.sp < StackSize }

  // ---------------------------------------------------------------------------------------
  // Single steps; `b` is the instruction byte at PC

  /** PUSH stores the register at Stack[SP] and increments SP. */
  lemma PushStep(s: State, code: seq<u8>, n: int, b: u8) returns (t: State)
    requires WF(s) && 0 <= s.pc < n <= |code| && StackRoom(s)
    requires code[s.pc] == b && DecodeBase(b).Push?
    ensures DecodeBase(b).reg < 17 && WF(t) && Leads(s, t, code, n, 1)
    ensures t.pc == s.pc + 1 && t.sp == s.sp + 1 && t.regs == s.regs && t.labels == s.labels
    ensures t.stack == s.stack[s.sp := s.regs[DecodeBase(b).reg]]
  {
    t := Step(s, code);
    LeadsStep(s, code, n);
  }

  /** POP decrements SP and loads Stack[SP] into the register. */
  lemma PopStep(s: State, code: seq<u8>, n: int, b: u8) returns (t: State)
    requires WF(s) && 0 <= s.pc < n <= |code| && 1 <= s.sp <= StackSize
    requires code[s.pc] == b && DecodeBase(b).Pop?
    ensures DecodeBase(b).reg < 17 && WF(t) && Leads(s, t, code, n, 1)
    ensures t.pc == s.pc + 1 && t.sp == s.sp - 1 && t.labels == s.labels && t.stack == s.stack
    ensures t.regs == s.regs[DecodeBase(b).reg := s.stack[s.sp - 1]]
  {
    t := Step(s, code);
    LeadsStep(s, code, n);
  }

  /** The value SET, ADD, SUB or MUL leaves in R0, given R0 and the operand register. */
  function ArithResult(i: Instr, acc: i64, operand: i64): i64
    requires BaseOperandsInRange(i)
  {
    if i.Set? then i.value
    else if i.Add? then Wrap64(acc as int + operand)
    else if i.Sub? then Wrap64(acc as int - operand)
    else if i.Mul? then Wrap64(acc as int * operand)
    else acc
  }

  /** SET, ADD, SUB or MUL, with R0 = acc and the operand register holding `operand`: R0
      changes as the instruction says and PC moves on. */
  lemma ArithStep(s: State, code: seq<u8>, n: int, b: u8, acc: i64, operand: i64)
    returns (t: State)
    requires WF(s) && 0 <= s.pc < n <= |code| && code[s.pc] == b && s.regs[0] == acc
    requires var i := DecodeBase(b);
      i.Set? || ((i.Add? || i.Sub? || i.Mul?) && s.regs[i.reg] == operand)
    ensures WF(t) && Leads(s, t, code, n, 1)
    ensures t.pc == s.pc + 1 && t.regs == s.regs[0 := ArithResult(DecodeBase(b), acc, operand)]
    ensures t.sp == s.sp && t.labels == s.labels && t.stack == s.stack
  {
    t := Step(s, code);
    LeadsStep(s, code, n);
  }

  /** GOTO: PC becomes the label's value when the condition on R0 holds. */
  lemma GotoStep(s: State, code: seq<u8>, n: int, b: u8) returns (t: State)
    requires WF(s) && 0 <= s.pc < n <= |code|
    requires code[s.pc] == b && DecodeBase(b).Goto?
    ensures DecodeBase(b).target < 16 && WF(t) && Leads(s, t, code, n, 1)
    ensures var i := DecodeBase(b);
      t.pc == if GotoTaken(s.regs[0], i.ifNonZero) then s.labels[i.target] else s.pc + 1
    ensures t.regs == s.regs && t.sp == s.sp && t.labels == s.labels
  {
    t := Step(s, code);
    LeadsStep(s, code, n);
  }

  /** LABEL does nothing at run time. */
  lemma LabelStep(s: State, code: seq<u8>, n: int, b: u8) returns (t: State)
    requires WF(s) && 0 <= s.pc < n <= |code|
    requires code[s.pc] == b && DecodeBase(b).Label?
    ensures WF(t) && Leads(s, t, code, n, 1) && t.pc == s.pc + 1
    ensures t.regs == s.regs && t.sp == s.sp && t.labels == s.labels
  {
    t := Step(s, code);
    LeadsStep(s, code, n);
  }

  // ---------------------------------------------------------------------------------------
  // Macro steps

  /** `push_a pop_b` copies register a into register b and leaves SP where it was. */
  lemma Move(s: State, code: seq<u8>, n: int, pa: u8, pb: u8, a: nat, b: nat)
    returns (t: State)
    requires WF(s) && 0 <= s.pc && s.pc + 2 <= n <= |code| && StackRoom(s)
    requires code[s.pc] == pa && DecodeBase(pa) == Push(a)
    requires code[s.pc + 1] == pb && DecodeBase(pb) == Pop(b)
    ensures a < 17 && b < 17 && WF(t) && Leads(s, t, code, n, 2)
    ensures t.pc == s.pc + 2 && t.regs == s.regs[b := s.regs[a]]
    ensures t.sp == s.sp && t.labels == s.labels
  {
    var t1 := PushStep(s, code, n, pa);
    t := PopStep(t1, code, n, pb);
    LeadsTrans(s, t1, t, code, n, 1, 1);
  }

  /** `push_x pop_0 op_y push_0 pop_z`, for op one of ADD, SUB and MUL: register z and R0
      receive Rx op Ry. */
  lemma Block(s: State, code: seq<u8>, n: int, px: u8, bo: u8, pz: u8, x: nat, y: nat, z: nat)
    returns (t: State)
    requires WF(s) && 0 <= s.pc && s.pc + 5 <= n <= |code| && StackRoom(s)
    requires code[s.pc] == px && DecodeBase(px) == Push(x) && code[s.pc + 1] == 0xa1
    requires code[s.pc + 2] == bo && var i := DecodeBase(bo);
      (i.Add? || i.Sub? || i.Mul?) && i.reg == y
    requires code[s.pc + 3] == 0x81 && code[s.pc + 4] == pz && DecodeBase(pz) == Pop(z)
    ensures x < 17 && 1 <= y < 17 && z < 17 && WF(t) && Leads(s, t, code, n, 5)
    ensures var v := ArithResult(DecodeBase(bo), s.regs[x], s.regs[y]);
      t.pc == s.pc + 5 && t.regs == s.regs[0 := v][z := v]
    ensures t.sp == s.sp && t.labels == s.labels
  {
    assert DecodeBase(0xa1) == Pop(0) && DecodeBase(0x81) == Push(0);
    var t1 := Move(s, code, n, px, 0xa1, x, 0);
    var t2 := ArithStep(t1, code, n, bo, s.regs[x], s.regs[y]);
    t := Move(t2, code, n, 0x81, pz, 0, z);
    LeadsTrans(s, t1, t2, code, n, 2, 1);
    LeadsTrans(s, t2, t, code, n, 3, 2);
  }

  /** `set_v push_0 pop_r`: R0 and register r receive v. */
  lemma SetReg(s: State, code: seq<u8>, n: int, bs: u8, pb: u8, v: nat, r: nat)
    returns (t: State)
    requires WF(s) && 0 <= s.pc && s.pc + 3 <= n <= |code| && StackRoom(s)
    requires code[s.pc] == bs && DecodeBase(bs) == Set(v)
    requires code[s.pc + 1] == 0x81 && code[s.pc + 2] == pb && DecodeBase(pb) == Pop(r)
    ensures v < 32 && r < 17 && WF(t) && Leads(s, t, code, n, 3)
    ensures t.pc == s.pc + 3 && t.regs == s.regs[0 := v][r := v]
    ensures t.sp == s.sp && t.labels == s.labels
  {
    assert DecodeBase(0x81) == Push(0);
    var t1 := ArithStep(s, code, n, bs, s.regs[0], 0);
    t := Move(t1, code, n, 0x81, pb, 0, r);
    LeadsTrans(s, t1, t, code, n, 1, 2);
  }

  // ---------------------------------------------------------------------------------------
  // The loop that adds R2, R2 - 1, ..., 1 into R1

  /** At the top of the count-down loop, which ends at n, with R1 = acc, R2 = k and R3 = 1. */
  predicate CountDownHead(s: State, code: seq<u8>, n: int, acc: int, k: int)
  {
    WF(s) && n <= |code| && 13 <= n && SP.CountDownCode(code, n - 13) &&
    s.pc == n - 13 && s.labels[0] == n - 13 && StackRoom(s) &&
    s.regs[1] == acc && s.regs[2] == k && s.regs[3] == 1
  }

  /** One pass of the count-down loop adds k to R1 and decrements R2; it jumps back to the
      top while R2 is not zero, and falls through to `push_1 pop_0` when it is. */
  lemma CountDownPass(s: State, code: seq<u8>, n: int, acc: nat, k: nat) returns (t: State)
    requires CountDownHead(s, code, n, acc, k) && 1 <= k && acc + k < 0x8000_0000_0000_0000
    ensures WF(t) && Leads(s, t, code, n, 11)
    ensures t.labels == s.labels && StackRoom(t)
    ensures k > 1 ==> CountDownHead(t, code, n, acc + k, k - 1)
    ensures k == 1 ==> t.pc == n - 2 && t.regs[1] == acc + 1
  {
    Wrap64Congruent(acc + k);
    Wrap64Congruent(k - 1);
    var t1 := Block(s, code, n, 0x80, 0x22, 0xa0, 1, 2, 1);
    var t2 := Block(t1, code, n, 0x82, 0x44, 0xa2, 2, 3, 2);
    t := GotoStep(t2, code, n, 0xc1);
    LeadsTrans(s, t1, t2, code, n, 5, 5);
    LeadsTrans(s, t2, t, code, n, 10, 1);
  }

  /** From the top of the loop with R2 = k, the loop adds k + (k - 1) + ... + 1 to R1 in 11k
      steps and leaves PC at the `push_1 pop_0` after the GOTO. */
  lemma {:induction false} CountDownRun(s: State, code: seq<u8>, n: int, acc: nat, k: nat)
    returns (t: State)
    requires CountDownHead(s, code, n, acc, k) && 1 <= k
    requires acc + SP.Sum(k) < 0x8000_0000_0000_0000
    ensures WF(t) && Leads(s, t, code, n, 11 * k)
    ensures t.labels == s.labels && StackRoom(t)
    ensures t.pc == n - 2 && t.regs[1] == acc + SP.Sum(k)
    decreases k
  {
    SP.SumStep(k);
    var t1 := CountDownPass(s, code, n, acc, k);
    if k == 1 {
      t := t1;
    } else {
      t := CountDownRun(t1, code, n, acc + k, k - 1);
      LeadsTrans(s, t1, t, code, n, 11, 11 * (k - 1));
    }
  }

  // ---------------------------------------------------------------------------------------
  // The loop that adds R3 = j, j + 1, ..., m - 1 into R1, where R2 = m

  /** At the top of the count-up loop, which ends at n, with R1 = acc, R2 = m and R3 = j. */
  predicate CountUpHead(s: State, code: seq<u8>, n: int, acc: int, j: int, m: int)
  {
    WF(s) && n <= |code| && 13 <= n && SP.CountUpCode(code, n - 13) &&
    s.pc == n - 13 && s.labels[0] == n - 13 && StackRoom(s) &&
    s.regs[1] == acc && s.regs[2] == m && s.regs[3] == j
  }

  /** `set_1 add_3 push_0 pop_3`: R3 and R0 become R3 + 1. */
  lemma Increment(s: State, code: seq<u8>, n: int) returns (t: State)
    requires WF(s) && 0 <= s.pc && s.pc + 4 <= n <= |code| && StackRoom(s)
    requires code[s.pc] == 0x01 && code[s.pc + 1] == 0x24
    requires code[s.pc + 2] == 0x81 && code[s.pc + 3] == 0xa4
    ensures WF(t) && Leads(s, t, code, n, 4)
    ensures var v := Wrap64(s.regs[3] as int + 1);
      t.pc == s.pc + 4 && t.regs == s.regs[0 := v][3 := v]
    ensures t.sp == s.sp && t.labels == s.labels
  {
    assert DecodeBase(0x81) == Push(0) && DecodeBase(0xa4) == Pop(3);
    var t1 := ArithStep(s, code, n, 0x01, s.regs[0], 0);
    var t2 := ArithStep(t1, code, n, 0x24, 1, s.regs[3]);
    t := Move(t2, code, n, 0x81, 0xa4, 0, 3);
    LeadsTrans(s, t1, t2, code, n, 1, 1);
    LeadsTrans(s, t2, t, code, n, 2, 2);
  }

  /** One pass of the count-up loop adds j to R1 and increments R3; it jumps back to the top
      while R3 has not reached m, and falls through to `push_1 pop_0` when it has. */
  lemma CountUpPass(s: State, code: seq<u8>, n: int, acc: nat, j: nat, m: nat) returns (t: State)
    requires CountUpHead(s, code, n, acc, j, m) && 1 <= j < m
    requires acc + j < 0x8000_0000_0000_0000
    ensures WF(t) && Leads(s, t, code, n, 11)
    ensures t.labels == s.labels && StackRoom(t)
    ensures j + 1 < m ==> CountUpHead(t, code, n, acc + j, j + 1, m)
    ensures j + 1 == m ==> t.pc == n - 2 && t.regs[1] == acc + j
  {
    Wrap64Congruent(acc + j);
    Wrap64Congruent(j + 1);
    Wrap64Congruent(j + 1 - m);
    var t1 := Block(s, code, n, 0x80, 0x24, 0xa0, 1, 3, 1);
    var t2 := Increment(t1, code, n);
    var t3 := ArithStep(t2, code, n, 0x42, j + 1, m);
    t := GotoStep(t3, code, n, 0xc1);
    LeadsTrans(s, t1, t2, code, n, 5, 4);
    LeadsTrans(s, t2, t3, code, n, 9, 1);
    LeadsTrans(s, t3, t, code, n, 10, 1);
  }

  /** From the top of the loop with R3 = j and R2 = m, the loop adds j + (j + 1) + ... +
      (m - 1) to R1 in 11(m - j) steps and leaves PC at the `push_1 pop_0` after the GOTO. */
  lemma {:induction false} CountUpRun(s: State, code: seq<u8>, n: int, acc: nat, j: nat, m: nat)
    returns (t: State)
    requires CountUpHead(s, code, n, acc, j, m) && 1 <= j < m < 0x8000_0000_0000_0000
    requires acc + SP.Sum(m - 1) - SP.Sum(j - 1) < 0x8000_0000_0000_0000
    ensures WF(t) && Leads(s, t, code, n, 11 * (m - j))
    ensures t.labels == s.labels && StackRoom(t)
    ensures t.pc == n - 2 && t.regs[1] == acc + SP.Sum(m - 1) - SP.Sum(j - 1)
    decreases m - j
  {
    SP.SumStep(j);
    SP.SumMonotone(j, m - 1);
    var t1 := CountUpPass(s, code, n, acc, j, m);
    if j + 1 == m {
      t := t1;
    } else {
      t := CountUpRun(t1, code, n, acc + j, j + 1, m);
      LeadsTrans(s, t1, t, code, n, 11, 11 * (m - (j + 1)));
    }
  }

  // ---------------------------------------------------------------------------------------
  // The tests: Run(code, len(code)) on the zero value CPU{}

  /** Where Run's loop starts: PC 0, SP 0, all registers zero. */
  predicate Fresh(s: State)
  {
    WF(s) && s.pc == 0 && s.sp == 0 && forall r :: 0 <= r < 17 ==> s.regs[r] == 0
  }

  /** ... and label 0 is one past offset `at`. */
  predicate Started(s: State, at: nat) { Fresh(s) && s.labels[0] == at + 1 }

  /** Run's reset and pre-pass, for a program whose only LABEL byte, for label 0, is at
      offset `at`. */
  lemma TestStart(code: seq<u8>, n: int, at: nat) returns (s: State)
    requires n <= |code| && at < n && code[at] == 0xe0
    requires forall k :: 0 <= k < n && k != at ==> !IsLabelByte(code[k])
    ensures s == PreprocessState(ResetState(), code, n) && Started(s, at)
  {
    s := PreprocessState(ResetState(), code, n);
    ScanLabelsLastDefinition(ResetState().labels, code, n, 0, at);
  }

  /** Whenever Run's loop reaches PC = n in k steps from the state Run starts from, Run
      ends there, for any bound of k or more iterations, and reports that it finished. */
  lemma RunEnds(code: seq<u8>, n: int, s: State, t: State, k: nat, fuel: nat)
    requires n <= |code| && s == PreprocessState(ResetState(), code, n)
    requires WF(t) && Leads(s, t, code, n, k) && t.pc >= n && fuel >= k
    ensures RunSpec(code, n, fuel) == t && RunExit(t, code, n) == Finished
  {
    assert Ends(s, code, n, fuel) == Ends(t, code, n, fuel - k);
  }

  /** TestAlternativeSum1To10's prefix brings Run to the top of the loop with R1 = 0,
      R2 = 10 and R3 = 1. */
  lemma AlternativeSum1To10Prefix(s: State, code: seq<u8>) returns (t: State)
    requires Started(s, 9) && SP.AlternativeSum1To10Bytes(code)
    ensures WF(t) && Leads(s, t, code, 23, 10)
    ensures CountDownHead(t, code, 23, 0, 10)
  {
    var t1 := SetReg(s, code, 23, 0x00, 0xa0, 0, 1);
    var t2 := SetReg(t1, code, 23, 0x0a, 0xa2, 10, 2);
    var t3 := SetReg(t2, code, 23, 0x01, 0xa4, 1, 3);
    t := LabelStep(t3, code, 23, 0xe0);
    LeadsTrans(s, t1, t2, code, 23, 3, 3);
    LeadsTrans(s, t2, t3, code, 23, 6, 3);
    LeadsTrans(s, t3, t, code, 23, 9, 1);
  }

  /** Run returns 55 after 122 iterations. */
  lemma AlternativeSum1To10Result(code: seq<u8>, fuel: nat)
    requires SP.AlternativeSum1To10Bytes(code) && fuel >= 122
    ensures var t := RunSpec(code, 23, fuel);
      t.regs[0] == 55 && RunExit(t, code, 23) == Finished
  {
    var s := TestStart(code, 23, 9);
    var t1 := AlternativeSum1To10Prefix(s, code);
    var t2 := CountDownRun(t1, code, 23, 0, 10);
    assert DecodeBase(0x80) == Push(1) && DecodeBase(0xa1) == Pop(0);
    var t := Move(t2, code, 23, 0x80, 0xa1, 1, 0);
    LeadsTrans(s, t1, t2, code, 23, 10, 110);
    LeadsTrans(s, t2, t, code, 23, 120, 2);
    RunEnds(code, 23, s, t, 122, fuel);
  }

  /** TestSum1To100's prefix: R1 = 0, R4 = 10, R2 = 10 * R4 = 100, R3 = 1. */
  lemma Sum1To100Prefix(s: State, code: seq<u8>) returns (t: State)
    requires Started(s, 12) && SP.Sum1To100Bytes(code)
    ensures WF(t) && Leads(s, t, code, 26, 13)
    ensures CountDownHead(t, code, 26, 0, 100)
  {
    var t1 := SetReg(s, code, 26, 0x00, 0xa0, 0, 1);
    var t2 := SetReg(t1, code, 26, 0x0a, 0xa6, 10, 4);
    Wrap64Congruent(100);
    var t3 := ArithStep(t2, code, 26, 0x66, 10, 10);
    assert DecodeBase(0x81) == Push(0) && DecodeBase(0xa2) == Pop(2);
    var t4 := Move(t3, code, 26, 0x81, 0xa2, 0, 2);
    var t5 := SetReg(t4, code, 26, 0x01, 0xa4, 1, 3);
    t := LabelStep(t5, code, 26, 0xe0);
    LeadsTrans(s, t1, t2, code, 26, 3, 3);
    LeadsTrans(s, t2, t3, code, 26, 6, 1);
    LeadsTrans(s, t3, t4, code, 26, 7, 2);
    LeadsTrans(s, t4, t5, code, 26, 9, 3);
    LeadsTrans(s, t5, t, code, 26, 12, 1);
  }

  /** Run returns 5050 after 1115 iterations. */
  lemma Sum1To100Result(code: seq<u8>, fuel: nat)
    requires SP.Sum1To100Bytes(code) && fuel >= 1115
    ensures var t := RunSpec(code, 26, fuel);
      t.regs[0] == 5050 && RunExit(t, code, 26) == Finished
  {
    var s := TestStart(code, 26, 12);
    var t1 := Sum1To100Prefix(s, code);
    var t2 := CountDownRun(t1, code, 26, 0, 100);
    assert DecodeBase(0x80) == Push(1) && DecodeBase(0xa1) == Pop(0);
    var t := Move(t2, code, 26, 0x80, 0xa1, 1, 0);
    LeadsTrans(s, t1, t2, code, 26, 13, 1100);
    LeadsTrans(s, t2, t, code, 26, 1113, 2);
    RunEnds(code, 26, s, t, 1115, fuel);
  }

  /** TestSum1To10's prefix brings Run to the top of the loop with R1 = 0, R2 = 11 and
      R3 = 1. */
  lemma Sum1To10Prefix(s: State, code: seq<u8>) returns (t: State)
    requires Started(s, 9) && SP.Sum1To10Bytes(code)
    ensures WF(t) && Leads(s, t, code, 23, 10)
    ensures CountUpHead(t, code, 23, 0, 1, 11)
  {
    var t1 := SetReg(s, code, 23, 0x00, 0xa0, 0, 1);
    var t2 := SetReg(t1, code, 23, 0x0b, 0xa2, 11, 2);
    var t3 := SetReg(t2, code, 23, 0x01, 0xa4, 1, 3);
    t := LabelStep(t3, code, 23, 0xe0);
    LeadsTrans(s, t1, t2, code, 23, 3, 3);
    LeadsTrans(s, t2, t3, code, 23, 6, 3);
    LeadsTrans(s, t3, t, code, 23, 9, 1);
  }

  /** Run returns 55 after 122 iterations. */
  lemma Sum1To10Result(code: seq<u8>, fuel: nat)
    requires SP.Sum1To10Bytes(code) && fuel >= 122
    ensures var t := RunSpec(code, 23, fuel);
      t.regs[0] == 55 && RunExit(t, code, 23) == Finished
  {
    var s := TestStart(code, 23, 9);
    var t1 := Sum1To10Prefix(s, code);
    var t2 := CountUpRun(t1, code, 23, 0, 1, 11);
    assert DecodeBase(0x80) == Push(1) && DecodeBase(0xa1) == Pop(0);
    var t := Move(t2, code, 23, 0x80, 0xa1, 1, 0);
    LeadsTrans(s, t1, t2, code, 23, 10, 110);
    LeadsTrans(s, t2, t, code, 23, 120, 2);
    RunEnds(code, 23, s, t, 122, fuel);
  }
}
