/** Machine words of the simulator and the fixed-width arithmetic Go performs on them. */
module Words {

  /** Go `byte`. */
  type u8 = x: int | 0 <= x < 0x100

  /** Go `uint16`: registers, labels, PC and SP of the 16-bit machine. */
  type u16 = x: int | 0 <= x < 0x1_0000

  /** Go `int` on a 64-bit platform: registers and stack slots of the earlier machine. */
  type i64 = x: int | -0x8000_0000_0000_0000 <= x < 0x8000_0000_0000_0000

  /** Conversion to `byte`: keeps the low 8 bits (two's complement for negative values). */
  function Wrap8(x: int): u8 { x % 0x100 }

  /** `uint16` arithmetic: keeps the low 16 bits. */
  function Wrap16(x: int): u16 { x % 0x1_0000 }

  /** Truncation to 16 bits never increases a natural number. */
  lemma WrapBelow(x: nat)
    ensures Wrap16(x) <= x
  {
  }

  /** `int` (64-bit) arithmetic: two's complement wrap-around. */
  function Wrap64(x: int): i64
  {
    (x + 0x8000_0000_0000_0000) % 0x1_0000_0000_0000_0000 - 0x8000_0000_0000_0000
  }

  /** `byte(w >> 8)`: the most significant byte of a word. */
  function HiByte(w: u16): u8 { w / 0x100 }

  /** `byte(w & 0x00ff)`: the least significant byte of a word. */
  function LoByte(w: u16): u8 { w % 0x100 }

  /** `binary.BigEndian.Uint16([hi, lo])`. */
  function Word(hi: u8, lo: u8): u16 { hi * 0x100 + lo }

  /** Splitting a word into its big-endian bytes and joining them again is the identity. */
  lemma WordOfBytes(w: u16)
    ensures Word(HiByte(w), LoByte(w)) == w
  {
  }

  /** Joining two bytes and splitting the word again gives back the two bytes. */
  lemma BytesOfWord(hi: u8, lo: u8)
    ensures HiByte(Word(hi, lo)) == hi && LoByte(Word(hi, lo)) == lo
  {
  }

  // ---------------------------------------------------------------------------------------
  // Sequences of values moved through the stack

  /** The values of `xs` in the opposite order. */
  function Reversed<T>(xs: seq<T>): (r: seq<T>)
    ensures |r| == |xs| && forall i :: 0 <= i < |xs| ==> r[i] == xs[|xs| - 1 - i]
  {
    seq(|xs|, i requires 0 <= i < |xs| => xs[|xs| - 1 - i])
  }

  /** The register file `regs` after assigning ws[0] to register idx[0], then ws[1] to
      idx[1], and so on; a later assignment to the same register wins. */
  function Assigned<T>(regs: seq<T>, idx: seq<nat>, ws: seq<T>): (r: seq<T>)
    requires |idx| == |ws| && forall k :: 0 <= k < |idx| ==> idx[k] < |regs|
    ensures |r| == |regs|
    decreases |idx|
  {
    if |idx| == 0 then regs
    else Assigned(regs, idx[..|idx| - 1], ws[..|ws| - 1])[idx[|idx| - 1] := ws[|ws| - 1]]
  }

  /** With pairwise different registers each one holds its own assigned value, and every
      other register keeps its old value. */
  lemma {:induction false} AssignedDistinct<T>(regs: seq<T>, idx: seq<nat>, ws: seq<T>)
    requires |idx| == |ws| && forall k :: 0 <= k < |idx| ==> idx[k] < |regs|
    requires forall j, k :: 0 <= j < k < |idx| ==> idx[j] != idx[k]
    ensures forall k :: 0 <= k < |idx| ==> Assigned(regs, idx, ws)[idx[k]] == ws[k]
    ensures forall x :: 0 <= x < |regs| && x !in idx ==> Assigned(regs, idx, ws)[x] == regs[x]
    decreases |idx|
  {
    if |idx| > 0 {
      var n := |idx| - 1;
      AssignedDistinct(regs, idx[..n], ws[..n]);
      assert forall x :: x in idx[..n] ==> x in idx;
    }
  }

  /** One register of AssignedDistinct. */
  lemma AssignedAt<T>(regs: seq<T>, idx: seq<nat>, ws: seq<T>, k: nat)
    requires |idx| == |ws| && forall j :: 0 <= j < |idx| ==> idx[j] < |regs|
    requires forall i, j :: 0 <= i < j < |idx| ==> idx[i] != idx[j]
    requires k < |idx|
    ensures Assigned(regs, idx, ws)[idx[k]] == ws[k]
  {
    AssignedDistinct(regs, idx, ws);
  }
}
