/**
 * Properties of the 16-bit machine that relate several operations: the stack discipline of
 * PUSH and POP, the lifecycle operations, and the exits of the two run loops.
 */
module SimpleProperties {
  import opened Words
  import opened Isa
  import opened SimpleMachine

  // ---------------------------------------------------------------------------------------
  // Stack

  /**
   * A push followed by a pop restores SP and leaves the pushed value in the register; only
   * the two stack bytes below the old SP differ from the state before the push. This holds
   * for every SP except 1 (see PushAtOneSplitsWord).
   */
  lemma PushThenPop(s: State, v: u16, r: nat)
    requires WF(s) && r < 17 && !PushFaults(s) && s.sp != 1
    ensures !PopFaults(PushWord(s, v))
    ensures PopWord(PushWord(s, v), r) == s.(regs := s.regs[r := v], mem := PushWord(s, v).mem)
  {
    var t := PushWord(s, v);
    if s.sp == 0 {
      assert t.sp == 0xfffe;
    } else {
      assert t.sp == s.sp - 2;
    }
    assert t.sp + 1 == Wrap16(t.sp + 1);
    WordOfBytes(v);
  }

  /**
   * With SP == 1 the push wraps around: the low byte goes to address 0 and the high byte to
   * 0xffff, so a following pop does not read the pushed word back; it panics unless Memory
   * is longer than 64 KiB.
   */
  lemma PushAtOneSplitsWord(s: State, v: u16)
    requires WF(s) && !PushFaults(s) && s.sp == 1
    ensures PushWord(s, v).sp == 0xffff
    ensures PushWord(s, v).mem[0] == LoByte(v) && PushWord(s, v).mem[0xffff] == HiByte(v)
    ensures PopFaults(PushWord(s, v)) <==> |s.mem| <= 0x1_0000
  {
  }

  /** After two pushes and one pop, the word of the first push is on top of the stack. */
  lemma PopAfterTwoPushes(s: State, a: u16, b: u16, rb: nat)
    requires WF(s) && rb < 17 && 4 <= s.sp && s.sp <= |s.mem|
    ensures !PushFaults(s) && !PushFaults(PushWord(s, a))
    ensures var t := PopWord(PushWord(PushWord(s, a), b), rb);
      t.sp == s.sp - 2 && t.regs == s.regs[rb := b] &&
      t.mem[s.sp - 2] == HiByte(a) && t.mem[s.sp - 1] == LoByte(a) && !PopFaults(t)
  {
    PushWordNoWrap(s, a);
    PushWordNoWrap(PushWord(s, a), b);
    WordOfBytes(b);
  }

  /** Two pushes and two pops: the values come back last-in first-out and SP is restored. */
  lemma LastInFirstOut(s: State, a: u16, b: u16, ra: nat, rb: nat)
    requires WF(s) && ra < 17 && rb < 17 && 4 <= s.sp && s.sp <= |s.mem|
    ensures !PushFaults(s) && !PushFaults(PushWord(s, a))
    ensures var t := PopWord(PushWord(PushWord(s, a), b), rb);
      !PopFaults(t) && PopWord(t, ra).regs == s.regs[rb := b][ra := a] && PopWord(t, ra).sp == s.sp
  {
    PopAfterTwoPushes(s, a, b, rb);
    WordOfBytes(a);
  }

  /** Push each of `vs` in turn, with room for all of them between address 0 and SP. */
  function PushAll(s: State, vs: seq<u16>): (t: State)
    requires 2 * |vs| <= s.sp <= |s.mem|
    ensures t.sp == s.sp - 2 * |vs| && |t.mem| == |s.mem| && t.mem[s.sp..] == s.mem[s.sp..]
    ensures t == s.(sp := t.sp, mem := t.mem)
    decreases |vs|
  {
    if |vs| == 0 then s
    else
      PushWordNoWrap(s, vs[0]);
      PushAll(PushWord(s, vs[0]), vs[1..])
  }

  /** Pop into rs[0], then rs[1], and so on, with every word read below the end of Memory. */
  function PopAll(s: State, rs: seq<nat>): (t: State)
    requires WF(s) && forall i :: 0 <= i < |rs| ==> rs[i] < 17
    requires s.sp + 2 * |rs| <= |s.mem| && s.sp + 2 * |rs| < 0x1_0000
    ensures WF(t) && t.sp == s.sp + 2 * |rs|
    ensures t == s.(regs := t.regs, sp := t.sp)
    decreases |rs|
  {
    if |rs| == 0 then s
    else PopWord(PopAll(s, rs[..|rs| - 1]), rs[|rs| - 1])
  }

  /**
   * N pushes followed by N pops, for any N that fits between address 0 and SP: SP is
   * restored, Memory from SP upwards is untouched, and the i-th pop receives the value of
   * the (N-1-i)-th push.
   */
  lemma {:induction false} StackDiscipline(s: State, vs: seq<u16>, rs: seq<nat>)
    requires WF(s) && |rs| == |vs| && forall i :: 0 <= i < |rs| ==> rs[i] < 17
    requires 2 * |vs| <= s.sp <= |s.mem|
    ensures var t := PopAll(PushAll(s, vs), rs);
      t.sp == s.sp && t.regs == Assigned(s.regs, rs, Reversed(vs)) &&
      t.mem[s.sp..] == s.mem[s.sp..] && t == s.(regs := t.regs, mem := t.mem)
    decreases |vs|
  {
    var n := |vs|;
    if n > 0 {
      var v := vs[0];
      PushWordNoWrap(s, v);
      var s1 := PushWord(s, v);
      StackDiscipline(s1, vs[1..], rs[..n - 1]);
      var p := PushAll(s1, vs[1..]);
      assert PushAll(s, vs) == p;
      var u := PopAll(p, rs[..n - 1]);
      assert PopAll(p, rs) == PopWord(u, rs[n - 1]);
      PopPushedWord(s, v, u, rs[n - 1]);
      assert Reversed(vs)[..n - 1] == Reversed(vs[1..]);
    }
  }

  /** A state whose memory from SP upwards is that of a state just after pushing `v` pops
      `v`, and its memory above the SP before the push is that of `s`. */
  lemma PopPushedWord(s: State, v: u16, u: State, r: nat)
    requires WF(u) && r < 17 && 2 <= s.sp <= |s.mem| && |u.mem| == |s.mem|
    requires !PushFaults(s) && u.sp == s.sp - 2
    requires u.mem[u.sp..] == PushWord(s, v).mem[u.sp..]
    ensures !PopFaults(u) && PopWord(u, r) == u.(regs := u.regs[r := v], sp := s.sp)
    ensures u.mem[s.sp..] == s.mem[s.sp..]
  {
    PushWordNoWrap(s, v);
    var m := PushWord(s, v).mem;
    assert u.mem[u.sp] == u.mem[u.sp..][0] == m[u.sp] == HiByte(v);
    assert u.mem[u.sp + 1] == u.mem[u.sp..][1] == m[u.sp + 1] == LoByte(v);
    WordOfBytes(v);
    assert u.mem[s.sp..] == u.mem[u.sp..][2..] == m[u.sp..][2..] == s.mem[s.sp..];
  }

  /** With pairwise different registers, after N pushes and N pops the register of the i-th
      pop holds the value of the (N-1-i)-th push and every other register is unchanged. */
  lemma StackDisciplineDistinct(s: State, vs: seq<u16>, rs: seq<nat>)
    requires WF(s) && |rs| == |vs| && forall i :: 0 <= i < |rs| ==> rs[i] < 17
    requires forall j, k :: 0 <= j < k < |rs| ==> rs[j] != rs[k]
    requires 2 * |vs| <= s.sp <= |s.mem|
    ensures forall i :: 0 <= i < |rs| ==> PopAll(PushAll(s, vs), rs).regs[rs[i]] == vs[|vs| - 1 - i]
    ensures forall x :: 0 <= x < 17 && x !in rs ==> PopAll(PushAll(s, vs), rs).regs[x] == s.regs[x]
  {
    StackDiscipline(s, vs, rs);
    AssignedDistinct(s.regs, rs, Reversed(vs));
  }

  // ---------------------------------------------------------------------------------------
  // Lifecycle

  /** After Reset no program is deemed present, and a second Reset changes nothing. */
  lemma ResetClearsProgram(s: State)
    requires |s.mem| >= 2
    ensures !ProgramPresent(ResetState(s))
    ensures ResetState(ResetState(s)) == ResetState(s)
  {
  }

  /** Reset places SP one word above StackHead, so the first push fills StackHead and
      StackHead + 1. */
  lemma FirstPushAtStackHead(s: State, v: u16)
    requires s.stackHead + 2 <= |s.mem| && s.stackHead + 2 < 0x1_0000
    ensures !PushFaults(ResetState(s))
    ensures var t := PushWord(ResetState(s), v);
      t.sp == s.stackHead && Word(t.mem[s.stackHead], t.mem[s.stackHead + 1]) == v
  {
  }

  /** After loading a non-empty program VerifyProgramInMemory reports a program exactly when
      the first byte is not 0 or the second byte (from the program, or from the old Memory
      when only one byte was loaded) is not 0. */
  lemma LoadThenVerify(s: State, program: seq<u8>, n: int)
    requires 1 <= n <= |program| && n <= |s.mem| && (program[0] == 0 ==> |s.mem| >= 2)
    ensures ProgramPresent(LoadState(s, program, n)) <==>
      (program[0] != 0 || (if n >= 2 then program[1] else s.mem[1]) != 0)
    ensures n >= 2 ==>
      (ProgramPresent(LoadState(s, program, n)) <==> !(program[0] == 0 && program[1] == 0))
  {
  }

  /** The set-up used by the tests: `CPU{}`, InitMemory(size), InitStack(loc), Reset leaves a
      zeroed memory of `size` bytes and SP two above the even stack head. */
  lemma SetUpThenReset(size: u16, loc: u16)
    ensures var t := ResetState(InitStackState(InitMemoryState(ZeroState(), size), loc));
      t.mem == seq(size, _ => 0) && t.pc == 0 && t.sp == Wrap16(loc - loc % 2 + 2)
  {
  }

  // ---------------------------------------------------------------------------------------
  // RunFromPC

  /** The loop bound is `uint16(len(Memory))`: with exactly 64 KiB of memory it is 0, so
      RunFromPC halts at once without executing anything. */
  lemma FullMemoryHaltsAtOnce(s: State, fuel: nat)
    requires WF(s) && |s.mem| == 0x1_0000
    ensures RunMemory(s, fuel) == s.(running := false, halted := true)
    ensures RunMemoryExit(RunMemory(s, fuel)) == EndOfMemoryFault
  {
  }

  /** Whatever way RunFromPC returns, RunningFlag is false unless the iteration bound of the
      model was reached; the end-of-memory exit happens exactly when PC is at or past the
      truncated memory size, and it sets HaltFlag. */
  lemma RunMemoryExits(s: State, fuel: nat)
    requires WF(s)
    ensures var t := RunMemory(s, fuel);
      (RunMemoryExit(t) == EndOfMemoryFault <==> t.pc >= MemLimit(t)) &&
      (RunMemoryExit(t) == EndOfMemoryFault ==> !t.running && t.halted) &&
      (RunMemoryExit(t) == ExitedRunLoop ==> !t.running) &&
      (RunMemoryExit(t) == OutOfFuel ==> t.running && !StepFaults(t, t.mem[t.pc]))
  {
  }

  /** HALT stops RunFromPC right after it: the loop finds RunningFlag false (or PC at the end
      of memory) and HaltFlag is set. */
  lemma HaltStopsRun(s: State, fuel: nat)
    requires WF(s) && s.running && s.pc < MemLimit(s) && fuel > 0
    requires DecodeSimple(s.mem[s.pc]) == Extended(Halt)
    ensures var t := RunMemory(s, fuel);
      t.pc == Wrap16(s.pc + 1) && !t.running && t.halted && t.regs == s.regs && t.mem == s.mem
    ensures RunMemoryExit(RunMemory(s, fuel)) in {ExitedRunLoop, EndOfMemoryFault}
  {
    var s1 := Step(s, s.mem[s.pc]);
    assert MemoryLoop(s, fuel) == MemoryLoop(s1, fuel - 1);
    assert MemoryLoop(s1, fuel - 1) == s1;
  }

  /** A CPU that is halted is not running, and RunFromPC keeps it so: only HALT changes the
      flags, and it sets both. */
  lemma {:induction false} MemoryLoopKeepsHaltStopped(s: State, fuel: nat)
    requires WF(s) && (s.halted ==> !s.running)
    ensures var t := MemoryLoop(s, fuel); t.halted ==> !t.running
    ensures RunMemory(s, fuel).halted ==> !RunMemory(s, fuel).running
    decreases fuel
  {
    if s.pc >= MemLimit(s) || !s.running || StepFaults(s, s.mem[s.pc]) || fuel == 0 {
    } else {
      StepFlags(s, s.mem[s.pc]);
      MemoryLoopKeepsHaltStopped(Step(s, s.mem[s.pc]), fuel - 1);
    }
  }

  /** A run of Run's loop that stopped for a reason other than the iteration bound gives the
      same state with any larger bound. */
  lemma RunCodeSettled(s: State, code: seq<u8>, n: u16, fuel: nat, more: nat)
    requires WF(s) && n <= |code| && RunExit(RunCode(s, code, n, fuel), code, n) != OutOfFuel
    ensures RunCode(s, code, n, fuel + more) == RunCode(s, code, n, fuel)
  {
    RunCodeAdditive(s, code, n, fuel, more);
  }
}
