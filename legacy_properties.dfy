/**
 * Properties of the machine of cpu.go: where PC goes, 64-bit arithmetic, the upward stack,
 * the label pre-pass, and how runs of different lengths relate.
 */
module LegacyProperties {
  import opened Words
  import opened Isa
  import opened LegacyMachine

  // ---------------------------------------------------------------------------------------
  // One instruction

  /** PC moves one byte on, except that a taken GOTO loads it from the label table. */
  lemma StepPc(s: State, code: seq<u8>)
    requires WF(s) && !StepFaults(s, code)
    ensures var i := DecodeBase(code[s.pc]);
      Step(s, code).pc ==
        if i.Goto? && GotoTaken(s.regs[0], i.ifNonZero) then s.labels[Field4(code[s.pc])]
        else s.pc + 1
  {
    DecodeBaseFields(code[s.pc]);
  }

  /** SET, ADD, SUB and MUL change only R0; ADD, SUB and MUL compute modulo 2^64. */
  lemma ExecArithmetic(s: State, i: Instr)
    requires WF(s) && BaseOperandsInRange(i) && (i.Set? || i.Add? || i.Sub? || i.Mul?)
    ensures var t := Exec(s, i); t == s.(regs := s.regs[0 := t.regs[0]])
    ensures var r0 := Exec(s, i).regs[0]; var a := s.regs[0] as int;
      (i.Set? ==> r0 == i.value) &&
      (i.Add? ==> (r0 - (a + s.regs[i.reg])) % 0x1_0000_0000_0000_0000 == 0) &&
      (i.Sub? ==> (r0 - (a - s.regs[i.reg])) % 0x1_0000_0000_0000_0000 == 0) &&
      (i.Mul? ==> (r0 - a * s.regs[i.reg]) % 0x1_0000_0000_0000_0000 == 0)
  {
    var a := s.regs[0] as int;
    if i.Add? {
      Wrap64Congruent(a + s.regs[i.reg]);
    } else if i.Sub? {
      Wrap64Congruent(a - s.regs[i.reg]);
    } else if i.Mul? {
      Wrap64Congruent(a * s.regs[i.reg]);
    }
  }

  /** An arithmetic instruction byte moves PC one byte on and otherwise changes only R0. */
  lemma StepArithmetic(s: State, code: seq<u8>)
    requires WF(s) && !StepFaults(s, code)
    requires var i := DecodeBase(code[s.pc]); i.Set? || i.Add? || i.Sub? || i.Mul?
    ensures var t := Step(s, code); t == s.(pc := s.pc + 1, regs := s.regs[0 := t.regs[0]])
  {
    ExecArithmetic(s.(pc := s.pc + 1), DecodeBase(code[s.pc]));
  }

  /** Wrap64 differs from its argument by a multiple of 2^64 and leaves values that fit in
      64 bits unchanged. */
  lemma Wrap64Congruent(x: int)
    ensures (Wrap64(x) - x) % 0x1_0000_0000_0000_0000 == 0
    ensures -0x8000_0000_0000_0000 <= x < 0x8000_0000_0000_0000 ==> Wrap64(x) == x
  {
    var q := (x + 0x8000_0000_0000_0000) / 0x1_0000_0000_0000_0000;
    assert Wrap64(x) - x == -q * 0x1_0000_0000_0000_0000;
  }

  // ---------------------------------------------------------------------------------------
  // Stack

  /** A push followed by a pop puts the pushed register into the popped one and restores SP;
      the slot at the old SP keeps the pushed value. */
  lemma PushThenPop(s: State, a: nat, b: nat)
    requires WF(s) && a < 17 && b < 17 && !PushFaults(s)
    ensures !PopFaults(Exec(s, Push(a)))
    ensures Exec(Exec(s, Push(a)), Pop(b)) ==
      s.(regs := s.regs[b := s.regs[a]], stack := s.stack[s.sp := s.regs[a]])
  {
  }

  /** Two pushes and two pops give the values back last-in first-out and restore SP. */
  lemma LastInFirstOut(s: State, a: nat, b: nat, ra: nat, rb: nat)
    requires WF(s) && a < 17 && b < 17 && ra < 17 && rb < 17
    requires 0 <= s.sp && s.sp + 2 <= StackSize
    ensures var t := Exec(Exec(s, Push(a)), Push(b));
      !PopFaults(t) && !PopFaults(Exec(t, Pop(rb)))
    ensures var u := Exec(Exec(Exec(Exec(s, Push(a)), Push(b)), Pop(rb)), Pop(ra));
      u.sp == s.sp && u.regs == s.regs[rb := s.regs[b]][ra := s.regs[a]]
  {
  }

  /** The values of the registers `ps`, in order. */
  function Values(regs: seq<i64>, ps: seq<nat>): (vs: seq<i64>)
    requires forall i :: 0 <= i < |ps| ==> ps[i] < |regs|
    ensures |vs| == |ps| && forall i :: 0 <= i < |ps| ==> vs[i] == regs[ps[i]]
  {
    seq(|ps|, i requires 0 <= i < |ps| => regs[ps[i]])
  }

  /** Push the registers `ps` in turn, with room for all of them above SP. */
  function PushAll(s: State, ps: seq<nat>): (t: State)
    requires WF(s) && forall i :: 0 <= i < |ps| ==> ps[i] < 17
    requires 0 <= s.sp && s.sp + |ps| <= StackSize
    ensures WF(t) && t.sp == s.sp + |ps| && t.stack[..s.sp] == s.stack[..s.sp]
    ensures t == s.(sp := t.sp, stack := t.stack)
    decreases |ps|
  {
    if |ps| == 0 then s
    else PushAll(Exec(s, Push(ps[0])), ps[1..])
  }

  /** Pop into rs[0], then rs[1], and so on, with SP staying at or above 0. */
  function PopAll(s: State, rs: seq<nat>): (t: State)
    requires WF(s) && forall i :: 0 <= i < |rs| ==> rs[i] < 17
    requires |rs| <= s.sp <= StackSize
    ensures WF(t) && t.sp == s.sp - |rs|
    ensures t == s.(regs := t.regs, sp := t.sp)
    decreases |rs|
  {
    if |rs| == 0 then s
    else Exec(PopAll(s, rs[..|rs| - 1]), Pop(rs[|rs| - 1]))
  }

  /**
   * N pushes followed by N pops, for any N that fits in the 1000 slots above SP: SP is
   * restored, the slots below SP are untouched, and the i-th pop receives the register of
   * the (N-1-i)-th push.
   */
  lemma {:induction false} StackDiscipline(s: State, ps: seq<nat>, rs: seq<nat>)
    requires WF(s) && |rs| == |ps|
    requires forall i :: 0 <= i < |ps| ==> ps[i] < 17 && rs[i] < 17
    requires 0 <= s.sp && s.sp + |ps| <= StackSize
    ensures var t := PopAll(PushAll(s, ps), rs);
      t.sp == s.sp && t.regs == Assigned(s.regs, rs, Reversed(Values(s.regs, ps))) &&
      t.stack[..s.sp] == s.stack[..s.sp] && t == s.(regs := t.regs, stack := t.stack)
    decreases |ps|
  {
    var n := |ps|;
    if n > 0 {
      var s1 := Exec(s, Push(ps[0]));
      StackDiscipline(s1, ps[1..], rs[..n - 1]);
      var p := PushAll(s1, ps[1..]);
      assert PushAll(s, ps) == p;
      var u := PopAll(p, rs[..n - 1]);
      assert PopAll(p, rs) == Exec(u, Pop(rs[n - 1]));
      PopPushedValue(s, ps[0], u, rs[n - 1]);
      ReversedValues(s.regs, ps);
    }
  }

  /** The values pushed first come out last. */
  lemma ReversedValues(regs: seq<i64>, ps: seq<nat>)
    requires |ps| > 0 && forall i :: 0 <= i < |ps| ==> ps[i] < |regs|
    ensures var ws := Reversed(Values(regs, ps));
      ws[..|ps| - 1] == Reversed(Values(regs, ps[1..])) && ws[|ps| - 1] == regs[ps[0]]
  {
    assert Reversed(Values(regs, ps))[..|ps| - 1] == Reversed(Values(regs, ps[1..]));
  }

  /** A state whose slots up to SP are those of a state just after pushing register `a`
      pops the old value of `a`, and its slots below the SP before the push are those of
      `s`. */
  lemma PopPushedValue(s: State, a: nat, u: State, r: nat)
    requires WF(s) && WF(u) && a < 17 && r < 17 && 0 <= s.sp < StackSize
    requires u.sp == s.sp + 1 && u.stack[..u.sp] == Exec(s, Push(a)).stack[..u.sp]
    ensures !PopFaults(u) && Exec(u, Pop(r)) == u.(regs := u.regs[r := s.regs[a]], sp := s.sp)
    ensures u.stack[..s.sp] == s.stack[..s.sp]
  {
    var m := Exec(s, Push(a)).stack;
    assert u.stack[s.sp] == u.stack[..u.sp][s.sp] == m[s.sp] == s.regs[a];
    assert u.stack[..s.sp] == u.stack[..u.sp][..s.sp] == m[..s.sp] == s.stack[..s.sp];
  }

  /** With pairwise different registers, after N pushes and N pops the register of the i-th
      pop holds the old value of the (N-1-i)-th pushed register and every other register is
      unchanged. */
  lemma StackDisciplineDistinct(s: State, ps: seq<nat>, rs: seq<nat>)
    requires WF(s) && |rs| == |ps|
    requires forall i :: 0 <= i < |ps| ==> ps[i] < 17 && rs[i] < 17
    requires forall j, k :: 0 <= j < k < |rs| ==> rs[j] != rs[k]
    requires 0 <= s.sp && s.sp + |ps| <= StackSize
    ensures forall i :: 0 <= i < |rs| ==>
      PopAll(PushAll(s, ps), rs).regs[rs[i]] == s.regs[ps[|ps| - 1 - i]]
    ensures forall x :: 0 <= x < 17 && x !in rs ==> PopAll(PushAll(s, ps), rs).regs[x] == s.regs[x]
  {
    StackDiscipline(s, ps, rs);
    AssignedDistinct(s.regs, rs, Reversed(Values(s.regs, ps)));
    AssignedReversedValues(s.regs, ps, rs);
  }

  /** Assigning the values of `ps` in reverse order to the distinct registers `rs` leaves
      the i-th of them holding the (N-1-i)-th value. */
  lemma AssignedReversedValues(regs: seq<i64>, ps: seq<nat>, rs: seq<nat>)
    requires |regs| == 17 && |rs| == |ps|
    requires forall i :: 0 <= i < |ps| ==> ps[i] < 17 && rs[i] < 17
    requires forall j, k :: 0 <= j < k < |rs| ==> rs[j] != rs[k]
    ensures forall i :: 0 <= i < |rs| ==>
      Assigned(regs, rs, Reversed(Values(regs, ps)))[rs[i]] == regs[ps[|ps| - 1 - i]]
  {
    var vs := Values(regs, ps);
    var ws := Reversed(vs);
    forall i | 0 <= i < |rs|
      ensures Assigned(regs, rs, ws)[rs[i]] == regs[ps[|ps| - 1 - i]]
    {
      AssignedAt(regs, rs, ws, i);
      assert ws[i] == vs[|ps| - 1 - i];
    }
  }

  /** The stack holds 1000 values: a push panics exactly when SP is outside 0-999 and a pop
      exactly when SP is outside 1-1000. */
  lemma StackBounds(s: State, code: seq<u8>)
    requires WF(s) && 0 <= s.pc < |code|
    ensures DecodeBase(code[s.pc]).Push? ==> (StepFaults(s, code) <==> !(0 <= s.sp < 1000))
    ensures DecodeBase(code[s.pc]).Pop? ==> (StepFaults(s, code) <==> !(1 <= s.sp <= 1000))
    ensures var i := DecodeBase(code[s.pc]); !i.Push? && !i.Pop? ==> !StepFaults(s, code)
  {
  }

  // ---------------------------------------------------------------------------------------
  // Preprocess

  /** After Preprocess a label maps to one past its last marker in code[0..n); a label
      without a marker keeps its old value. */
  lemma PreprocessLabels(s: State, code: seq<u8>, n: int, l: nat)
    requires WF(s) && n <= |code| && l < 16
    ensures (forall k :: 0 <= k < n ==> !Defines(code[k], l)) ==>
      PreprocessState(s, code, n).labels[l] == s.labels[l]
    ensures forall j :: (0 <= j < n && Defines(code[j], l) &&
        (forall k :: j < k < n ==> !Defines(code[k], l))) ==>
      PreprocessState(s, code, n).labels[l] == j + 1
  {
    if n > 0 {
      if forall k :: 0 <= k < n ==> !Defines(code[k], l) {
        ScanLabelsUndefined(s.labels, code, n, l);
      }
      forall j | 0 <= j < n && Defines(code[j], l) &&
        (forall k :: j < k < n ==> !Defines(code[k], l))
        ensures PreprocessState(s, code, n).labels[l] == j + 1
      {
        ScanLabelsLastDefinition(s.labels, code, n, l, j);
      }
    }
  }

  // ---------------------------------------------------------------------------------------
  // Runs

  /** Running `a` iterations and then `b` more is the same as running `a + b`. */
  lemma {:induction false} RunCodeAdditive(s: State, code: seq<u8>, n: int, a: nat, b: nat)
    requires WF(s)
    ensures RunCode(s, code, n, a + b) == RunCode(RunCode(s, code, n, a), code, n, b)
    decreases a
  {
    if s.pc >= n || StepFaults(s, code) || a == 0 {
    } else {
      RunCodeAdditive(Step(s, code), code, n, a - 1, b);
    }
  }

  /** A run that stopped for a reason other than the iteration bound gives the same state
      with any larger bound. */
  lemma RunCodeSettled(s: State, code: seq<u8>, n: int, fuel: nat, more: nat)
    requires WF(s) && RunExit(RunCode(s, code, n, fuel), code, n) != OutOfFuel
    ensures RunCode(s, code, n, fuel + more) == RunCode(s, code, n, fuel)
  {
    RunCodeAdditive(s, code, n, fuel, more);
  }
}
