/**
 * The mnemonic assembler shared, word for word, by cpusimple/cpusimple.go and cpu.go:
 * `asmToByte` splits a mnemonic such as "add_3" or "goto_0_1" at '_' and packs the decimal
 * operands into one instruction byte; `AsmCodeToBytes` does so for a whole program.
 *
 * The two library calls it relies on are modelled here as well: `strings.Split` with a
 * one-character separator, and `strconv.Atoi`, whose error result the assembler ignores
 * (a malformed operand therefore reads as 0).
 */
module Asm {
  import opened Words
  import opened Isa

  // ---------------------------------------------------------------------------------------
  // strings.Split(s, "_")

  const Sep: char := '_'

  /** The pieces of `s` between occurrences of `sep`; there is always at least one. */
  function Split(s: string, sep: char): (parts: seq<string>)
    ensures |parts| >= 1
    decreases |s|
  {
    if |s| == 0 then [""]
    else if s[0] == sep then [""] + Split(s[1..], sep)
    else
      var rest := Split(s[1..], sep);
      [[s[0]] + rest[0]] + rest[1..]
  }

  /** The pieces glued back together with `sep` between them. */
  function Join(parts: seq<string>, sep: char): string
    requires |parts| >= 1
    decreases |parts|
  {
    if |parts| == 1 then parts[0] else parts[0] + [sep] + Join(parts[1..], sep)
  }

  predicate NoSep(s: string, sep: char) { forall k :: 0 <= k < |s| ==> s[k] != sep }

  /** No piece produced by Split contains the separator. */
  lemma {:induction false} SplitPiecesHaveNoSep(s: string, sep: char)
    ensures forall k :: 0 <= k < |Split(s, sep)| ==> NoSep(Split(s, sep)[k], sep)
    decreases |s|
  {
    if |s| > 0 {
      SplitPiecesHaveNoSep(s[1..], sep);
    }
  }

  /** Splitting and joining again gives back the string. */
  lemma {:induction false} JoinSplit(s: string, sep: char)
    ensures Join(Split(s, sep), sep) == s
    decreases |s|
  {
    if |s| == 0 {
    } else if s[0] == sep {
      JoinSplit(s[1..], sep);
      assert Split(s, sep)[1..] == Split(s[1..], sep);
    } else {
      var rest := Split(s[1..], sep);
      JoinSplit(s[1..], sep);
      var parts := Split(s, sep);
      if |rest| == 1 {
        assert parts == [[s[0]] + rest[0]];
      } else {
        assert parts[1..] == rest[1..];
        assert Join(rest, sep) == rest[0] + [sep] + Join(rest[1..], sep);
      }
    }
  }

  /** A piece without the separator followed by more text splits off as the first piece. */
  lemma {:induction false} SplitPrefix(p: string, rest: string, sep: char)
    requires NoSep(p, sep)
    ensures Split(p + [sep] + rest, sep) == [p] + Split(rest, sep)
    decreases |p|
  {
    if |p| == 0 {
      assert p + [sep] + rest == [sep] + rest;
      assert ([sep] + rest)[1..] == rest;
    } else {
      SplitPrefix(p[1..], rest, sep);
      var whole := p + [sep] + rest;
      assert whole[0] == p[0] && whole[1..] == p[1..] + [sep] + rest;
      assert [p[0]] + p[1..] == p;
    }
  }

  /** A string without the separator is a single piece. */
  lemma {:induction false} SplitNoSep(p: string, sep: char)
    requires NoSep(p, sep)
    ensures Split(p, sep) == [p]
    decreases |p|
  {
    if |p| > 0 {
      SplitNoSep(p[1..], sep);
      assert [p[0]] + p[1..] == p;
    }
  }

  /** Joining pieces that contain no separator and splitting again gives back the pieces. */
  lemma {:induction false} SplitJoin(parts: seq<string>, sep: char)
    requires |parts| >= 1
    requires forall k :: 0 <= k < |parts| ==> NoSep(parts[k], sep)
    ensures Split(Join(parts, sep), sep) == parts
    decreases |parts|
  {
    if |parts| == 1 {
      SplitNoSep(parts[0], sep);
    } else {
      SplitJoin(parts[1..], sep);
      SplitPrefix(parts[0], Join(parts[1..], sep), sep);
      assert [parts[0]] + parts[1..] == parts;
    }
  }

  // ---------------------------------------------------------------------------------------
  // strconv.Atoi (64-bit `int`)

  const MaxUint64: int := 0xffff_ffff_ffff_ffff
  const MaxInt64: int := 0x7fff_ffff_ffff_ffff
  /** ParseUint stops with a range error once the value reaches this before a digit. */
  const Cutoff: int := MaxUint64 / 10 + 1

  datatype Parsed = Value(n: nat) | SyntaxError | RangeError

  predicate IsDigit(c: char) { '0' <= c <= '9' }

  function DigitValue(c: char): nat
    requires IsDigit(c)
  {
    c as int - '0' as int
  }

  /**
   * ParseUint(s, 10, 64) on the digits after `acc` has been read: scans left to right,
   * failing with a syntax error on a non-digit and with a range error as soon as the value
   * would exceed 64 bits (later characters are then not examined).
   */
  function ScanDecimal(s: string, acc: nat): (r: Parsed)
    requires acc <= MaxUint64
    ensures r.Value? ==> r.n <= MaxUint64
    decreases |s|
  {
    if |s| == 0 then Value(acc)
    else if !IsDigit(s[0]) then SyntaxError
    else if acc >= Cutoff || acc * 10 + DigitValue(s[0]) > MaxUint64 then RangeError
    else ScanDecimal(s[1..], acc * 10 + DigitValue(s[0]))
  }

  function ParseUint(s: string): (r: Parsed)
    ensures r.Value? ==> r.n <= MaxUint64
  {
    if |s| == 0 then SyntaxError else ScanDecimal(s, 0)
  }

  /**
   * strconv.Atoi with its error dropped: an optional sign and decimal digits; a syntax error
   * gives 0 and a value out of range the nearest 64-bit bound. This follows the general
   * path of the Go library; the library's shortcut for short strings is meant to agree with
   * it and is not modelled separately.
   */
  function Atoi(s: string): (n: i64)
    ensures n != 0 ==> |s| > 0 && (IsDigit(s[0]) || s[0] == '-' || s[0] == '+')
  {
    if |s| == 0 then 0
    else
      var neg := s[0] == '-';
      var digits := if s[0] == '-' || s[0] == '+' then s[1..] else s;
      match ParseUint(digits)
      case SyntaxError => 0
      case RangeError => if neg then -MaxInt64 - 1 else MaxInt64
      case Value(u) =>
        if !neg && u > MaxInt64 then MaxInt64
        else if neg && u > MaxInt64 + 1 then -MaxInt64 - 1
        else if neg then -(u as int)
        else u
  }

  /** The decimal form of `n`, without leading zeros. */
  function NatToString(n: nat): (s: string)
    ensures |s| >= 1 && forall k :: 0 <= k < |s| ==> IsDigit(s[k])
    decreases n
  {
    var d := ['0' + (n % 10) as char];
    if n < 10 then d else NatToString(n / 10) + d
  }

  /** Reading one more digit after `s`. */
  lemma {:induction false} ScanDecimalAppend(s: string, acc: nat, c: char, v: nat)
    requires acc <= MaxUint64 && IsDigit(c)
    requires ScanDecimal(s, acc) == Value(v)
    requires v < Cutoff && v * 10 + DigitValue(c) <= MaxUint64
    ensures ScanDecimal(s + [c], acc) == Value(v * 10 + DigitValue(c))
    decreases |s|
  {
    if |s| == 0 {
      assert [c][1..] == [];
    } else {
      ScanDecimalAppend(s[1..], acc * 10 + DigitValue(s[0]), c, v);
      assert (s + [c])[1..] == s[1..] + [c];
    }
  }

  /** ParseUint reads back every decimal string NatToString writes. */
  lemma {:induction false} ParseNatToString(n: nat)
    requires n <= MaxUint64
    ensures ParseUint(NatToString(n)) == Value(n)
    decreases n
  {
    var c := '0' + (n % 10) as char;
    assert DigitValue(c) == n % 10;
    if n < 10 {
      assert NatToString(n) == [c];
      assert [c][1..] == [];
      assert ScanDecimal([c], 0) == ScanDecimal([], n);
    } else {
      ParseNatToString(n / 10);
      ScanDecimalAppend(NatToString(n / 10), 0, c, n / 10);
    }
  }

  /** Atoi reads back every non-negative 64-bit value. */
  lemma AtoiNatToString(n: nat)
    requires n <= MaxInt64
    ensures Atoi(NatToString(n)) == n
  {
    ParseNatToString(n);
  }

  /** Atoi reads a minus sign followed by the digits of a 64-bit magnitude as its negation. */
  lemma AtoiNegative(n: nat)
    requires n <= MaxInt64 + 1
    ensures Atoi("-" + NatToString(n)) == -(n as int)
  {
    ParseNatToString(n);
    assert ("-" + NatToString(n))[1..] == NatToString(n);
  }

  /** A string that is not a signed decimal number reads as 0. */
  lemma AtoiSyntaxError(s: string)
    requires |s| > 0 && !IsDigit(s[0]) && s[0] != '-' && s[0] != '+'
    ensures Atoi(s) == 0
  {
  }

  // ---------------------------------------------------------------------------------------
  // asmToByte

  /** `x << 1` on a 64-bit `int`. */
  function Shl1(x: i64): i64 { Wrap64(x * 2) }

  /** Shifting a small non-negative value does not overflow. */
  lemma Shl1Small(x: i64)
    requires 0 <= x < 0x100
    ensures Shl1(x) == 2 * x
  {
    assert 0 <= x * 2 + 0x8000_0000_0000_0000 < 0x1_0000_0000_0000_0000;
  }

  /** The operations asmToByte knows. */
  predicate KnownOp(op: string)
  {
    op == "set" || op == "add" || op == "sub" || op == "mul" || op == "push" || op == "pop" ||
    op == "goto" || op == "label"
  }

  /** asmToByte indexes parts[1] for every known operation and parts[2] for goto; a mnemonic
      with fewer pieces makes the Go program panic. */
  predicate Indexable(s: string)
  {
    var parts := Split(s, Sep);
    (KnownOp(parts[0]) ==> |parts| >= 2) && (parts[0] == "goto" ==> |parts| >= 3)
  }

  /** `mask + byte((i - 1) << 1)`: a register operand, counted from 1. */
  function RegisterByte(mask: u8, i: i64): u8
  {
    Wrap8(mask + Wrap8(Shl1(Wrap64(i - 1))))
  }

  /** `MaskGoto + byte(label << 1 + option)`. */
  function GotoByte(l: i64, o: i64): u8
  {
    Wrap8(MaskGoto + Wrap8(Wrap64(Shl1(l) + o)))
  }

  /** A label id below 16 and an option bit fill the low five bits of a GOTO byte. */
  lemma GotoByteSmall(l: i64, o: i64)
    requires 0 <= l < 16 && 0 <= o < 2
    ensures GotoByte(l, o) == MaskGoto + 2 * l + o
  {
    Shl1Small(l);
    assert 0 <= 2 * l + o + 0x8000_0000_0000_0000 < 0x1_0000_0000_0000_0000;
  }

  /** asmToByte: the byte of one mnemonic; an unknown operation gives 0. */
  function AsmToByte(s: string): (b: u8)
    requires Indexable(s)
    ensures !KnownOp(Split(s, Sep)[0]) ==> b == 0
  {
    var parts := Split(s, Sep);
    var op := parts[0];
    if op == "set" then Wrap8(MaskSet + Wrap8(Atoi(parts[1])))
    else if op == "add" then RegisterByte(MaskAdd, Atoi(parts[1]))
    else if op == "sub" then RegisterByte(MaskSub, Atoi(parts[1]))
    else if op == "mul" then RegisterByte(MaskMul, Atoi(parts[1]))
    else if op == "push" then
      (if Atoi(parts[1]) == 0 then MaskPush + 0x01 else RegisterByte(MaskPush, Atoi(parts[1])))
    else if op == "pop" then
      (if Atoi(parts[1]) == 0 then MaskPop + 0x01 else RegisterByte(MaskPop, Atoi(parts[1])))
    else if op == "goto" then
      GotoByte(Atoi(parts[1]), Atoi(parts[2]))
    else if op == "label" then Wrap8(MaskLabel + Wrap8(Shl1(Atoi(parts[1]))))
    else 0
  }

  /** AsmCodeToBytes: one byte per mnemonic, in order. */
  function AsmCode(code: seq<string>): (bytes: seq<u8>)
    requires forall k :: 0 <= k < |code| ==> Indexable(code[k])
    ensures |bytes| == |code|
    ensures forall k :: 0 <= k < |code| && !KnownOp(Split(code[k], Sep)[0]) ==> bytes[k] == 0
  {
    seq(|code|, k requires 0 <= k < |code| => AsmToByte(code[k]))
  }

  /** The fill loop of AsmCodeToBytes. */
  method AsmCodeToBytes(code: seq<string>) returns (bytes: array<u8>)
    requires forall k :: 0 <= k < |code| ==> Indexable(code[k])
    ensures fresh(bytes) && bytes[..] == AsmCode(code)
  {
    bytes := new u8[|code|];
    var i := 0;
    while i < |code|
      invariant 0 <= i <= |code|
      invariant forall k :: 0 <= k < i ==> bytes[k] == AsmToByte(code[k])
    {
      bytes[i] := AsmToByte(code[i]);
      i := i + 1;
    }
  }

  /** A 64-bit wrap subtracts a multiple of 2^64. */
  lemma Wrap64Quotient(x: int) returns (q: int)
    ensures Wrap64(x) == x - q * 0x1_0000_0000_0000_0000
  {
    q := (x + 0x8000_0000_0000_0000) / 0x1_0000_0000_0000_0000;
  }

  /** Adding a multiple of 256 does not change the low byte. */
  lemma Wrap8Shift(x: int, k: int)
    ensures Wrap8(x + 0x100 * k) == Wrap8(x)
  {
  }

  /** A register operand adds twice its number minus one to the mask, modulo 256, whatever
      the number: the 64-bit arithmetic of the source does not change the low byte. */
  lemma RegisterByteWraps(mask: u8, i: i64)
    ensures RegisterByte(mask, i) == Wrap8(mask + 2 * (i - 1))
  {
    var y := Wrap64(i - 1);
    var q1 := Wrap64Quotient(i - 1);
    var z := Wrap64((y as int) * 2);
    var q2 := Wrap64Quotient((y as int) * 2);
    assert z == 2 * (i - 1) + 0x100 * (-(2 * q1 + q2) * 0x100_0000_0000_0000);
    Wrap8Shift(2 * (i - 1), -(2 * q1 + q2) * 0x100_0000_0000_0000);
    var a := 2 * (i - 1);
    Wrap8Shift(mask + a, -(a / 0x100));
    assert mask + Wrap8(z) == mask + a + 0x100 * (-(a / 0x100));
  }

  // ---------------------------------------------------------------------------------------
  // Mnemonics of decoded instructions

  function OpName(i: Instr): string
  {
    match i
    case Set(_) => "set"
    case Add(_) => "add"
    case Sub(_) => "sub"
    case Mul(_) => "mul"
    case Push(_) => "push"
    case Pop(_) => "pop"
    case Goto(_, _) => "goto"
    case Label(_) => "label"
    case Extended(_) => "ext"
  }

  /** The operand pieces of the mnemonic of a base instruction. */
  function Operands(i: Instr): seq<string>
    requires !i.Extended?
  {
    match i
    case Set(v) => [NatToString(v)]
    case Add(r) => [NatToString(r)]
    case Sub(r) => [NatToString(r)]
    case Mul(r) => [NatToString(r)]
    case Push(r) => [NatToString(r)]
    case Pop(r) => [NatToString(r)]
    case Goto(l, nz) => [NatToString(l), if nz then "1" else "0"]
    case Label(l) => [NatToString(l)]
  }

  /** The mnemonic of a base instruction as the tests write it: "add_3", "push_0" for R0,
      "goto_0_1" for a jump taken when R0 != 0. */
  function Text(i: Instr): string
    requires !i.Extended?
  {
    Join([OpName(i)] + Operands(i), Sep)
  }

  /** The mnemonic splits into its operation and its decimal operands. */
  lemma SplitText(i: Instr)
    requires !i.Extended?
    ensures Split(Text(i), Sep) == [OpName(i)] + Operands(i)
  {
    var parts := [OpName(i)] + Operands(i);
    forall k | 0 <= k < |parts|
      ensures NoSep(parts[k], Sep)
    {
      if k > 0 && !i.Goto? {
        assert parts[k] == NatToString(OperandValue(i));
      }
    }
    SplitJoin(parts, Sep);
  }

  /** The first operand of a base instruction. */
  function OperandValue(i: Instr): nat
    requires !i.Extended?
  {
    match i
    case Set(v) => v
    case Add(r) => r
    case Sub(r) => r
    case Mul(r) => r
    case Push(r) => r
    case Pop(r) => r
    case Goto(l, _) => l
    case Label(l) => l
  }

  /** The instruction byte of a base instruction, as the masks and fields lay it out. */
  function Encode(i: Instr): u8
    requires BaseOperandsInRange(i)
  {
    match i
    case Set(v) => v
    case Add(r) => MaskAdd + 2 * (r - 1)
    case Sub(r) => MaskSub + 2 * (r - 1)
    case Mul(r) => MaskMul + 2 * (r - 1)
    case Push(r) => if r == 0 then MaskPush + 1 else MaskPush + 2 * (r - 1)
    case Pop(r) => if r == 0 then MaskPop + 1 else MaskPop + 2 * (r - 1)
    case Goto(l, nz) => MaskGoto + 2 * l + (if nz then 1 else 0)
    case Label(l) => MaskLabel + 2 * l
  }

  /** asmToByte on "set_v". */
  lemma AsmSet(s: string, v: nat)
    requires v < 32 && Split(s, Sep) == ["set", NatToString(v)]
    ensures Indexable(s) && AsmToByte(s) == v
  {
    AtoiNatToString(v);
  }

  /** asmToByte on "add_r", "sub_r" and "mul_r". */
  lemma AsmArith(s: string, op: string, mask: u8, r: nat)
    requires (op, mask) in {("add", MaskAdd), ("sub", MaskSub), ("mul", MaskMul)}
    requires 1 <= r <= 16 && Split(s, Sep) == [op, NatToString(r)]
    ensures Indexable(s) && AsmToByte(s) == mask + 2 * (r - 1)
  {
    AtoiNatToString(r);
    RegisterByteWraps(mask, r);
    assert Wrap8(mask + 2 * (r - 1)) == mask + 2 * (r - 1);
  }

  /** asmToByte on "push_r" and "pop_r", where r == 0 selects R0. */
  lemma AsmStack(s: string, op: string, mask: u8, r: nat)
    requires (op, mask) in {("push", MaskPush), ("pop", MaskPop)}
    requires r <= 16 && Split(s, Sep) == [op, NatToString(r)]
    ensures Indexable(s)
    ensures AsmToByte(s) == if r == 0 then mask + 1 else mask + 2 * (r - 1)
  {
    AtoiNatToString(r);
    if r != 0 {
      RegisterByteWraps(mask, r);
      assert Wrap8(mask + 2 * (r - 1)) == mask + 2 * (r - 1);
    }
  }

  /** asmToByte on "goto_l_o". */
  lemma AsmGoto(s: string, l: nat, o: nat)
    requires l < 16 && o < 2 && Split(s, Sep) == ["goto", NatToString(l), NatToString(o)]
    ensures Indexable(s) && AsmToByte(s) == MaskGoto + 2 * l + o
  {
    AtoiNatToString(l);
    AtoiNatToString(o);
    GotoByteSmall(l, o);
  }

  /** asmToByte on "label_l". */
  lemma AsmLabel(s: string, l: nat)
    requires l < 16 && Split(s, Sep) == ["label", NatToString(l)]
    ensures Indexable(s) && AsmToByte(s) == MaskLabel + 2 * l
  {
    AtoiNatToString(l);
    Shl1Small(l);
  }

  /** asmToByte on a string that splits into the pieces of an instruction's mnemonic. */
  lemma AsmPieces(s: string, i: Instr)
    requires BaseOperandsInRange(i) && Split(s, Sep) == [OpName(i)] + Operands(i)
    ensures Indexable(s) && AsmToByte(s) == Encode(i)
  {
    match i
    case Set(v) => AsmSet(s, v);
    case Add(r) => AsmArith(s, "add", MaskAdd, r);
    case Sub(r) => AsmArith(s, "sub", MaskSub, r);
    case Mul(r) => AsmArith(s, "mul", MaskMul, r);
    case Push(r) => AsmStack(s, "push", MaskPush, r);
    case Pop(r) => AsmStack(s, "pop", MaskPop, r);
    case Goto(l, nz) =>
      var o := if nz then 1 else 0;
      assert NatToString(o) == if nz then "1" else "0";
      AsmGoto(s, l, o);
    case Label(l) => AsmLabel(s, l);
  }

  /** asmToByte on the mnemonic of an instruction whose operands a byte can hold lays the
      operands out without any wrap-around. */
  lemma AsmText(i: Instr)
    requires BaseOperandsInRange(i)
    ensures Indexable(Text(i))
    ensures AsmToByte(Text(i)) == Encode(i)
  {
    SplitText(i);
    AsmPieces(Text(i), i);
  }

  /** The fields of the byte with operation bits `op`, 4-bit field `f` and low bit `bit`. */
  lemma ByteFields(op: nat, f: nat, bit: nat)
    requires op < 8 && f < 16 && bit < 2
    ensures var b := op * 32 + f * 2 + bit;
      OpBits(b) == op * 32 && Field4(b) == f && OptBit(b) == bit && Imm5(b) == f * 2 + bit
  {
  }

  /** SET v decodes back from its byte. */
  lemma DecodeEncodeSet(v: nat)
    requires v < 32
    ensures DecodeBase(Encode(Set(v))) == Set(v)
  {
    ByteFields(0, v / 2, v % 2);
  }

  /** ADD, SUB and MUL decode back from their bytes. */
  lemma DecodeEncodeArith(i: Instr)
    requires (i.Add? || i.Sub? || i.Mul?) && BaseOperandsInRange(i)
    ensures DecodeBase(Encode(i)) == i
  {
    ByteFields(OpClass(i), i.reg - 1, 0);
  }

  /** PUSH and POP, of R0 or of a register, decode back from their bytes. */
  lemma DecodeEncodeStack(i: Instr)
    requires (i.Push? || i.Pop?) && BaseOperandsInRange(i)
    ensures DecodeBase(Encode(i)) == i
  {
    if i.reg == 0 {
      ByteFields(OpClass(i), 0, 1);
    } else {
      ByteFields(OpClass(i), i.reg - 1, 0);
    }
  }

  /** GOTO and LABEL decode back from their bytes. */
  lemma DecodeEncodeLabel(i: Instr)
    requires (i.Goto? || i.Label?) && BaseOperandsInRange(i)
    ensures DecodeBase(Encode(i)) == i
  {
    ByteFields(OpClass(i), OperandLabel(i), if i.Goto? && i.ifNonZero then 1 else 0);
  }

  /** Decoding the byte of an instruction gives back the instruction. */
  lemma DecodeEncode(i: Instr)
    requires BaseOperandsInRange(i)
    ensures DecodeBase(Encode(i)) == i
  {
    if i.Set? {
      DecodeEncodeSet(i.value);
    } else if i.Add? || i.Sub? || i.Mul? {
      DecodeEncodeArith(i);
    } else if i.Push? || i.Pop? {
      DecodeEncodeStack(i);
    } else {
      DecodeEncodeLabel(i);
    }
  }

  /** Encoding the decoded instruction of a byte gives the byte with the ignored bits cleared. */
  lemma EncodeDecode(b: u8)
    ensures Encode(DecodeBase(b)) == Canonical(b)
  {
    var op, f, bit := b / 32, (b / 2) % 16, b % 2;
    assert b == op * 32 + f * 2 + bit;
    ByteFields(op, f, bit);
  }

  /**
   * Round trip: for operands a byte can hold, assembling the mnemonic of an instruction
   * and decoding the byte gives back the instruction, operands included.
   */
  lemma AsmRoundTrip(i: Instr)
    requires BaseOperandsInRange(i)
    ensures Indexable(Text(i))
    ensures DecodeBase(AsmToByte(Text(i))) == i
  {
    AsmText(i);
    DecodeEncode(i);
  }

  /** In the 16-bit machine the same holds for every mnemonic except set_16 to set_31, whose
      bytes are extended instructions. */
  lemma AsmRoundTripSimple(i: Instr)
    requires BaseOperandsInRange(i) && !(i.Set? && i.value >= 16)
    ensures Indexable(Text(i))
    ensures DecodeSimple(AsmToByte(Text(i))) == i
  {
    AsmRoundTrip(i);
    DecodeSimpleExtended(AsmToByte(Text(i)));
  }

  /** The byte with the bits the decoder ignores cleared: the low bit of ADD, SUB, MUL and
      LABEL, and the register field of PUSH and POP when the low bit selects R0. */
  function Canonical(b: u8): u8
  {
    var op := OpBits(b);
    if op == MaskAdd || op == MaskSub || op == MaskMul || op == MaskLabel then b - OptBit(b)
    else if (op == MaskPush || op == MaskPop) && OptBit(b) == 1 then op + 1
    else b
  }

  /** The other direction: writing the mnemonic of a decoded byte and assembling it gives
      back the byte, up to the bits the decoder ignores; those bits do not matter. */
  lemma DecodeThenAsm(b: u8)
    ensures Indexable(Text(DecodeBase(b)))
    ensures AsmToByte(Text(DecodeBase(b))) == Canonical(b)
    ensures DecodeBase(Canonical(b)) == DecodeBase(b)
  {
    var i := DecodeBase(b);
    AsmText(i);
    EncodeDecode(b);
    DecodeEncode(i);
  }
}
