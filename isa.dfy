/**
 * The one-byte instruction format shared by both machines, its decoding, and the label
 * pre-pass that resolves LABEL markers to the offset that follows them.
 *
 * Bit layout of a base instruction byte `b`:
 *   bits 7-5 (`b & 0xe0`)        operation: SET ADD SUB MUL PUSH POP GOTO LABEL
 *   bits 4-0 (`b & 0x1f`)        SET immediate
 *   bits 4-1 (`(b & 0x1e) >> 1`) register number minus one, or label id
 *   bit 0    (`b & 0x01`)        PUSH/POP: use R0; GOTO: jump when R0 != 0
 * The masks are written below as integer arithmetic on the byte value.
 */
module Isa {
  import opened Words

  const MaskSet: u8 := 0x00
  const MaskAdd: u8 := 0x20
  const MaskSub: u8 := 0x40
  const MaskMul: u8 := 0x60
  const MaskPush: u8 := 0x80
  const MaskPop: u8 := 0xa0
  const MaskGoto: u8 := 0xc0
  const MaskLabel: u8 := 0xe0

  /** `b & 0xe0`: the operation bits, kept in place. */
  function OpBits(b: u8): u8 { b / 32 * 32 }

  /** `b & 0x1f`: the SET immediate. */
  function Imm5(b: u8): u8 { b % 32 }

  /** `(b & 0x1e) >> 1`: the 4-bit register or label field. */
  function Field4(b: u8): u8 { (b / 2) % 16 }

  /** `b & 0x01`: the option bit. */
  function OptBit(b: u8): u8 { b % 2 }

  /** `(b & 0x1e) >> 1 + 1`: the operand register of ADD, SUB, MUL, PUSH and POP. */
  function OperandReg(b: u8): u8 { Field4(b) + 1 }

  /** The extended operations, selected by the low nibble of a byte 0x10-0x1f. */
  datatype ExtOp =
    | Noop        // 0x00
    | Halt        // 0x01
    | Store       // 0x02
    | Load        // 0x03
    | Swap        // 0x04
    | JumpSub     // 0x05, named SUB in the source; its case has no statements
    | Return      // 0x06, named RET in the source; its case has no statements
    | Cmp         // 0x07
    | Undefined(code: nat)  // 0x08-0x0f, the default case

  /** A decoded instruction. Register operands are register numbers 0-16, label operands 0-15. */
  datatype Instr =
    | Set(value: nat)
    | Add(reg: nat)
    | Sub(reg: nat)
    | Mul(reg: nat)
    | Push(reg: nat)          // reg 0 is the accumulator R0
    | Pop(reg: nat)
    | Goto(target: nat, ifNonZero: bool)
    | Label(id: nat)
    | Extended(op: ExtOp)

  /** The value of the top three bits that selects each base operation. */
  function OpClass(i: Instr): nat
  {
    match i
    case Set(_) => 0
    case Add(_) => 1
    case Sub(_) => 2
    case Mul(_) => 3
    case Push(_) => 4
    case Pop(_) => 5
    case Goto(_, _) => 6
    case Label(_) => 7
    case Extended(_) => 8
  }

  /** Operands that a base instruction byte can express. */
  predicate BaseOperandsInRange(i: Instr)
  {
    match i
    case Set(v) => v < 32
    case Add(r) => 1 <= r <= 16
    case Sub(r) => 1 <= r <= 16
    case Mul(r) => 1 <= r <= 16
    case Push(r) => r <= 16
    case Pop(r) => r <= 16
    case Goto(l, _) => l < 16
    case Label(l) => l < 16
    case Extended(_) => false
  }

  /**
   * The base decoder of both machines' FetchInstruction: the top three bits select the
   * operation; the operand register is always 1-16 and a label id always 0-15.
   */
  function DecodeBase(b: u8): (i: Instr)
    ensures BaseOperandsInRange(i)
  {
    var op := OpBits(b);
    var reg := if OptBit(b) == 1 then 0 else OperandReg(b);
    if op == MaskSet then Set(Imm5(b))
    else if op == MaskAdd then Add(OperandReg(b))
    else if op == MaskSub then Sub(OperandReg(b))
    else if op == MaskMul then Mul(OperandReg(b))
    else if op == MaskPush then Push(reg)
    else if op == MaskPop then Pop(reg)
    else if op == MaskGoto then Goto(Field4(b), OptBit(b) == 1)
    else Label(Field4(b))
  }

  /** The fields of a base instruction byte: the operation is its top three bits, SET loads
      the low five bits, and the low bit selects R0 for PUSH/POP and the condition of GOTO. */
  lemma DecodeBaseFields(b: u8)
    ensures OpClass(DecodeBase(b)) == b / 32
    ensures DecodeBase(b).Set? ==> DecodeBase(b).value == Imm5(b)
    ensures var i := DecodeBase(b); (i.Push? || i.Pop?) ==> (i.reg == 0 <==> OptBit(b) == 1)
    ensures var i := DecodeBase(b); (i.Push? || i.Pop?) && OptBit(b) == 0 ==> i.reg == OperandReg(b)
    ensures var i := DecodeBase(b); (i.Add? || i.Sub? || i.Mul?) ==> i.reg == OperandReg(b)
    ensures var i := DecodeBase(b); (i.Goto? || i.Label?) ==> OperandLabel(i) == Field4(b)
    ensures DecodeBase(b).Goto? ==> DecodeBase(b).ifNonZero == (OptBit(b) == 1)
  {
  }

  /** The label operand of GOTO and LABEL. */
  function OperandLabel(i: Instr): nat
    requires i.Goto? || i.Label?
  {
    if i.Goto? then i.target else i.id
  }

  /** `instruction & 0x0f` dispatched as in ProcessExtendedOpCode. */
  function DecodeExtended(b: u8): (op: ExtOp)
    ensures op.Undefined? <==> b % 16 >= 8
  {
    var code := b % 16;
    if code == 0x00 then Noop
    else if code == 0x01 then Halt
    else if code == 0x02 then Store
    else if code == 0x03 then Load
    else if code == 0x04 then Swap
    else if code == 0x05 then JumpSub
    else if code == 0x06 then Return
    else if code == 0x07 then Cmp
    else Undefined(code)
  }

  /** `instruction & 0xf0 == 0x10`: the tag of the extended set in the 16-bit machine. */
  predicate IsExtendedByte(b: u8) { b / 16 * 16 == 0x10 }

  /**
   * The decoder of the 16-bit machine: bytes 0x10-0x1f are extended instructions, so SET
   * can only load 0-15; every other byte goes to the base decoder.
   */
  function DecodeSimple(b: u8): (i: Instr)
    ensures !i.Extended? ==> i == DecodeBase(b)
  {
    if IsExtendedByte(b) then Extended(DecodeExtended(b)) else DecodeBase(b)
  }

  /** Exactly the bytes 0x10-0x1f are extended, which leaves SET only the values 0-15. */
  lemma DecodeSimpleExtended(b: u8)
    ensures DecodeSimple(b).Extended? <==> 0x10 <= b < 0x20
    ensures DecodeSimple(b).Set? ==> DecodeSimple(b).value < 16
  {
  }

  // ---------------------------------------------------------------------------------------
  // Label pre-pass

  /** `code[i] & 0xe0 == 0xe0`: the byte would be decoded as LABEL. */
  predicate IsLabelByte(b: u8) { OpBits(b) == MaskLabel }

  /** Byte `b` is a LABEL marker for label id `l`. */
  predicate Defines(b: u8, l: int) { IsLabelByte(b) && Field4(b) == l }

  /**
   * The label table after Preprocess has scanned `code[0..n)`: every LABEL byte at offset i
   * stores i + 1 in the slot of its id, later markers overwriting earlier ones.
   */
  function ScanLabels(labels: seq<int>, code: seq<u8>, n: nat): (r: seq<int>)
    requires |labels| == 16 && n <= |code|
    ensures |r| == 16
    ensures forall l :: 0 <= l < 16 ==> r[l] == labels[l] || 1 <= r[l] <= n
    decreases n
  {
    if n == 0 then labels
    else
      var prev := ScanLabels(labels, code, n - 1);
      if IsLabelByte(code[n - 1]) then prev[Field4(code[n - 1]) := n] else prev
  }

  /** A label id with no marker in `code[0..n)` keeps the value it had before the scan. */
  lemma {:induction false} ScanLabelsUndefined(labels: seq<int>, code: seq<u8>, n: nat, l: nat)
    requires |labels| == 16 && n <= |code| && l < 16
    requires forall k :: 0 <= k < n ==> !Defines(code[k], l)
    ensures ScanLabels(labels, code, n)[l] == labels[l]
    decreases n
  {
    if n > 0 {
      ScanLabelsUndefined(labels, code, n - 1, l);
    }
  }

  /** A label id maps to one past the offset of its LAST marker in `code[0..n)`. */
  lemma {:induction false} ScanLabelsLastDefinition(
    labels: seq<int>, code: seq<u8>, n: nat, l: nat, j: nat)
    requires |labels| == 16 && n <= |code| && l < 16
    requires j < n && Defines(code[j], l)
    requires forall k :: j < k < n ==> !Defines(code[k], l)
    ensures ScanLabels(labels, code, n)[l] == j + 1
    decreases n
  {
    if j < n - 1 {
      ScanLabelsLastDefinition(labels, code, n - 1, l, j);
    }
  }
}
